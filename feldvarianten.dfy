/**
 * The ways a field is copied or re-created: `clone`, `mitConfig`,
 * `NumFeld.mitNachkommastellen`, the `NumFeld` and `Betrag` constructors
 * and `Betrag.of`; and what reading a numeric field back gives.
 *
 * Each copy builds a blank field of the same layout with the class and
 * validator of the copying constructor and then sets the old content
 * through `setInhalt`, so a copy fails exactly where that `setInhalt`
 * fails for the new field.
 */
module Feldvarianten {
  import opened Ausnahmen
  import opened Zeichenketten
  import opened Zahlen
  import opened Konfiguration
  import opened Validator
  import NumFeld
  import Betrag
  import opened Feld

  /** The field after an operation, or the exception the operation raised. */
  function Uebernommen(w: FeldWert, e: Ergebnis): (r: Result<FeldWert>)
    ensures r.Ok? <==> e.ausgang == Erfolg
    ensures r.Ok? ==> r.value == w.(inhalt := e.inhalt)
    ensures r.Err? ==> e.ausgang == Fehlschlag(r.error)
  {
    match e.ausgang
    case Erfolg => Ok(w.(inhalt := e.inhalt))
    case Fehlschlag(g) => Err(g)
  }

  /** `Feld(other, validator)`: the layout of `other` with a new class and validator, then `setInhalt(other.getInhalt())`. */
  function Kopie(other: FeldWert, art: FeldArt, validator: ValidatorArt, config: Config): (r: Result<FeldWert>)
    ensures r.Ok? ==> r.value.bezeichner == other.bezeichner && r.value.byteAdresse == other.byteAdresse
                      && r.value.ausrichtung == other.ausrichtung && r.value.AnzahlBytes() == other.AnzahlBytes()
                      && r.value.art == art && r.value.validator == validator && r.value.config == config
  {
    var leer := Leer(other.bezeichner, other.AnzahlBytes(), other.byteAdresse, other.ausrichtung, art, validator, config);
    Uebernommen(leer, Gesetzt(leer, other.inhalt))
  }

  /**
   * The protected `NumFeld` constructor: a right-aligned field of `laenge`
   * bytes on which `setInhalt(0)` is called.
   */
  function NumFeldNeu(bezeichner: string, laenge: nat, start: Int32, art: FeldArt, config: Config): (r: Result<FeldWert>)
    requires art.IstNumerisch()
  {
    var leer := Leer(bezeichner, laenge, start, RIGHT, art, NumValidator, config);
    Uebernommen(leer, GesetztInt(leer, 0))
  }

  /** `Betrag(name, start, value, validator)`: a new amount field of the value's length holding the value. */
  function BetragMitInhalt(bezeichner: string, start: Int32, inhalt: string, config: Config): (r: Result<FeldWert>)
    ensures r.Ok? ==> r.value.art == Geldbetrag(2) && r.value.ausrichtung == RIGHT && r.value.AnzahlBytes() == |inhalt|
  {
    var b :- NumFeldNeu(bezeichner, |inhalt|, start, Geldbetrag(2), config);
    Uebernommen(b, Gesetzt(b, inhalt))
  }

  /** `clone`, dispatched on the class; a `NumFeld` or `Betrag` keeps its decimal places. */
  function Klon(w: FeldWert, global: Config): Result<FeldWert>
  {
    match w.art
    case Text => Kopie(w, Text, Basis, global)
    case Datum => Kopie(w, Datum, Basis, global)
    case AlphaNum => Kopie(w, AlphaNum, Basis, global)
    case Num(nk) => Kopie(w, Num(nk), NumValidator, global)
    case Geldbetrag(nk) => Kopie(w, Geldbetrag(nk), NumValidator, global)
  }

  /** `mitConfig(c)`, dispatched on the class. */
  function MitConfig(w: FeldWert, c: Config): Result<FeldWert>
  {
    match w.art
    case Text => Kopie(w, Text, Basis, c)
    case Datum => Kopie(w, Datum, Basis, c)
    case AlphaNum => Kopie(w, AlphaNum, AlphaNumValidator, c)
    case Num(nk) => Kopie(w, Num(nk), NumValidator, c)
    case Geldbetrag(_) => BetragMitInhalt(w.bezeichner, w.byteAdresse, w.inhalt, c)
  }

  /** `NumFeld.mitNachkommastellen(n)`: a new `NumFeld` with `n` decimal places and the same content. */
  function MitNachkommastellen(w: FeldWert, n: Int32, global: Config): (r: Result<FeldWert>)
    requires w.art.IstNumerisch()
    ensures n > w.AnzahlBytes() ==> r == Err(ZuvieleNachkommastellen)
  {
    if n > w.AnzahlBytes() then Err(ZuvieleNachkommastellen)
    else
      var f :- NumFeldNeu(w.bezeichner, w.AnzahlBytes(), w.byteAdresse, Num(n), global);
      Uebernommen(f, Gesetzt(f, w.inhalt))
  }

  /** `Betrag.of(feld)`: a new amount field of the same layout holding the same content. */
  function BetragVon(w: FeldWert, global: Config): (r: Result<FeldWert>)
    ensures r.Ok? ==> r.value.art == Geldbetrag(2) && r.value.AnzahlBytes() == w.AnzahlBytes()
  {
    BetragMitInhalt(w.bezeichner, w.byteAdresse, w.inhalt, global)
  }

  // ---------------------------------------------------------------------
  // New numeric fields and copies
  // ---------------------------------------------------------------------

  /** A new numeric field of at least one byte holds only zeros. */
  lemma {:induction false} NumFeldNeuNullen(bezeichner: string, laenge: nat, start: Int32, art: FeldArt, config: Config)
    requires art.IstNumerisch() && laenge >= 1
    ensures NumFeldNeu(bezeichner, laenge, start, art, config)
            == Ok(FeldWert(bezeichner, start, Repeat('0', laenge), RIGHT, art, NumValidator, config))
  {
    var leer := Leer(bezeichner, laenge, start, RIGHT, art, NumValidator, config);
    assert GesetztInt(leer, 0) == GesetztLong(leer, 0) by {
      assert Betrag.Cent(0) == 0;
    }
    ZahlRechts(leer, 0);
    ZeroPadVorne(Digits(0), laenge);
    RepeatPlus('0', laenge - 1, 1);
  }

  /** A new numeric field of no bytes fails on `setInhalt(0)` unless truncation is on. */
  lemma {:induction false} NumFeldNeuLeer(bezeichner: string, start: Int32, art: FeldArt, config: Config)
    requires art.IstNumerisch()
    ensures NumFeldNeu(bezeichner, 0, start, art, config).Ok? <==> config.truncate
  {
    var leer := Leer(bezeichner, 0, start, RIGHT, art, NumValidator, config);
    assert GesetztInt(leer, 0) == GesetztLong(leer, 0) by {
      assert Betrag.Cent(0) == 0;
    }
    assert GesetztLong(leer, 0) == Gesetzt(leer, "0") by {
      GesetztLongNum(leer, 0);
    }
    VorbereitetZiffern(leer, "0");
  }

  /** A non-numeric field whose content its validator passes clones to an equal field. */
  lemma {:induction false} KlonText(w: FeldWert, global: Config)
    requires !w.art.IstNumerisch() && w.ausrichtung != UNKNOWN
    requires Validate(Basis, w.inhalt, global.validate).Ok?
    ensures Klon(w, global) == Ok(w.(validator := Basis, config := global))
    ensures Klon(w, global).value.Gleich(w)
  {
    assert Klon(w, global) == Kopie(w, w.art, Basis, global);
    var leer := Leer(w.bezeichner, w.AnzahlBytes(), w.byteAdresse, w.ausrichtung, w.art, Basis, global);
    TextVerbatim(leer, w.inhalt);
  }

  /** A right-aligned numeric field of digits clones to an equal field with the same decimal places. */
  lemma {:induction false} KlonZiffern(w: FeldWert, global: Config)
    requires w.art.IstNumerisch() && w.ausrichtung == RIGHT && w.AnzahlBytes() >= 1 && NurZiffern(w.inhalt)
    ensures Klon(w, global) == Ok(w.(validator := NumValidator, config := global))
    ensures Klon(w, global).value.Gleich(w)
  {
    var leer := Leer(w.bezeichner, w.AnzahlBytes(), w.byteAdresse, w.ausrichtung, w.art, NumValidator, global);
    ZiffernVerbatim(leer, w.inhalt);
  }

  /** `mitConfig` of a non-numeric field keeps everything but the validator and the configuration. */
  lemma {:induction false} MitConfigText(w: FeldWert, c: Config)
    requires (w.art.Text? || w.art.Datum?) && w.ausrichtung != UNKNOWN && Validate(Basis, w.inhalt, c.validate).Ok?
    ensures MitConfig(w, c) == Ok(w.(validator := Basis, config := c))
  {
    var leer := Leer(w.bezeichner, w.AnzahlBytes(), w.byteAdresse, w.ausrichtung, w.art, Basis, c);
    TextVerbatim(leer, w.inhalt);
  }

  /** `mitConfig` of an alphanumeric field keeps a content the alphanumeric check passes unchanged. */
  lemma {:induction false} MitConfigAlphaNum(w: FeldWert, c: Config)
    requires w.art == AlphaNum && w.ausrichtung != UNKNOWN && Validate(AlphaNumValidator, w.inhalt, c.validate) == Ok(w.inhalt)
    ensures MitConfig(w, c) == Ok(w.(validator := AlphaNumValidator, config := c))
  {
    var leer := Leer(w.bezeichner, w.AnzahlBytes(), w.byteAdresse, w.ausrichtung, w.art, AlphaNumValidator, c);
    TextVerbatim(leer, w.inhalt);
  }

  /** `mitConfig` of a right-aligned `NumFeld` of digits keeps everything but the configuration. */
  lemma {:induction false} MitConfigNum(w: FeldWert, c: Config)
    requires w.art.Num? && w.ausrichtung == RIGHT && w.AnzahlBytes() >= 1 && NurZiffern(w.inhalt)
    ensures MitConfig(w, c) == Ok(w.(validator := NumValidator, config := c))
  {
    var leer := Leer(w.bezeichner, w.AnzahlBytes(), w.byteAdresse, w.ausrichtung, w.art, NumValidator, c);
    ZiffernVerbatim(leer, w.inhalt);
  }

  /** The amount field made from a content of digits holds exactly that content; this is `Betrag.of` and `Betrag.mitConfig`. */
  lemma {:induction false} BetragMitZiffern(bezeichner: string, start: Int32, inhalt: string, config: Config)
    requires |inhalt| >= 1 && NurZiffern(inhalt)
    ensures BetragMitInhalt(bezeichner, start, inhalt, config)
            == Ok(FeldWert(bezeichner, start, inhalt, RIGHT, Geldbetrag(2), NumValidator, config))
  {
    NumFeldNeuNullen(bezeichner, |inhalt|, start, Geldbetrag(2), config);
    var b := FeldWert(bezeichner, start, Repeat('0', |inhalt|), RIGHT, Geldbetrag(2), NumValidator, config);
    ZiffernVerbatim(b, inhalt);
  }

  /** `Betrag.of` copies identifier, address and a content of digits into a right-aligned amount with two decimal places. */
  lemma {:induction false} BetragVonKopiert(w: FeldWert, global: Config)
    requires w.AnzahlBytes() >= 1 && NurZiffern(w.inhalt)
    ensures BetragVon(w, global) == Ok(FeldWert(w.bezeichner, w.byteAdresse, w.inhalt, RIGHT, Geldbetrag(2), NumValidator, global))
    ensures BetragVon(w, global).value.Gleich(w)
  {
    BetragMitZiffern(w.bezeichner, w.byteAdresse, w.inhalt, global);
  }

  /** `mitConfig` of an amount field of digits yields the same content with two decimal places and the new configuration. */
  lemma {:induction false} MitConfigBetrag(w: FeldWert, c: Config)
    requires w.art.Geldbetrag? && w.AnzahlBytes() >= 1 && NurZiffern(w.inhalt)
    ensures MitConfig(w, c) == Ok(FeldWert(w.bezeichner, w.byteAdresse, w.inhalt, RIGHT, Geldbetrag(2), NumValidator, c))
  {
    MitConfigIstBetrag(w, c);
    BetragMitZiffern(w.bezeichner, w.byteAdresse, w.inhalt, c);
  }

  /** `Betrag.mitConfig` re-creates the amount from identifier, address and content. */
  lemma {:induction false} MitConfigIstBetrag(w: FeldWert, c: Config)
    requires w.art.Geldbetrag?
    ensures MitConfig(w, c) == BetragMitInhalt(w.bezeichner, w.byteAdresse, w.inhalt, c)
  {
  }

  /** `mitNachkommastellen` refuses more decimal places than bytes, and otherwise copies a content of digits. */
  lemma {:induction false} MitNachkommastellenKopiert(w: FeldWert, n: Int32, global: Config)
    requires w.art.IstNumerisch() && n <= w.AnzahlBytes() && w.AnzahlBytes() >= 1 && NurZiffern(w.inhalt)
    ensures MitNachkommastellen(w, n, global)
            == Ok(FeldWert(w.bezeichner, w.byteAdresse, w.inhalt, RIGHT, Num(n), NumValidator, global))
  {
    NumFeldNeuNullen(w.bezeichner, w.AnzahlBytes(), w.byteAdresse, Num(n), global);
    var f := FeldWert(w.bezeichner, w.byteAdresse, Repeat('0', w.AnzahlBytes()), RIGHT, Num(n), NumValidator, global);
    ZiffernVerbatim(f, w.inhalt);
  }

  // ---------------------------------------------------------------------
  // Setting numbers and reading them back
  // ---------------------------------------------------------------------

  /** A non-negative `long` that fits a right-aligned numeric field reads back with `toLong` (and `toInt` when it fits an `int`). */
  lemma {:induction false} LongRundreise(w: FeldWert, n: nat)
    requires w.art.IstNumerisch() && w.ausrichtung == RIGHT
    requires n <= INT64_MAX && |Digits(n)| <= w.AnzahlBytes()
    ensures GesetztLong(w, n).ausgang == Erfolg
    ensures NumFeld.ToLong(GesetztLong(w, n).inhalt) == Ok(n)
    ensures n <= INT32_MAX ==> NumFeld.ToInt(GesetztLong(w, n).inhalt) == Ok(n)
  {
    ZahlRechts(w, n);
    NumFeld.ToLongZeroPad(n, w.AnzahlBytes());
  }

  /** An amount field sets a non-negative `int` as the `long` of its hundredths. */
  lemma {:induction false} BetragAlsLong(w: FeldWert, n: Int32)
    requires w.art.Geldbetrag? && n >= 0
    ensures GesetztInt(w, n) == GesetztLong(w, Betrag.Cent(n))
  {
  }

  /** The hundredths of a non-negative `int` as a natural number. */
  lemma {:induction false} BetragCent(n: Int32) returns (k: nat)
    requires n >= 0
    ensures k == Betrag.Cent(n) && JavaDiv(k, 100) == n && k <= INT64_MAX
  {
    var c: Int64 := Betrag.Cent(n);
    assert IstInt64(c);
    k := c;
  }

  /** An amount set from a non-negative `int` reads back as that `int` through `Betrag.toLong`. */
  lemma {:induction false} BetragRundreise(w: FeldWert, n: Int32)
    requires w.art.Geldbetrag? && w.ausrichtung == RIGHT && n >= 0 && |Digits(Betrag.Cent(n))| <= w.AnzahlBytes()
    ensures GesetztInt(w, n).ausgang == Erfolg
    ensures Betrag.ToLong(GesetztInt(w, n).inhalt) == Ok(n)
  {
    var k: nat := BetragCent(n);
    BetragAlsLong(w, n);
    LongRundreise(w, k);
    assert Betrag.ToLong(GesetztLong(w, k).inhalt) == Ok(JavaDiv(k, 100));
  }

  /** With truncation on, a number with more digits than the field saturates to all nines. */
  lemma {:induction false} Saettigung(w: FeldWert, n: nat)
    requires w.art.IstNumerisch() && w.ausrichtung == RIGHT && w.config.truncate
    requires n <= INT64_MAX && |Digits(n)| > w.AnzahlBytes()
    ensures GesetztLong(w, n) == Ergebnis(Erfolg, Repeat('9', w.AnzahlBytes()))
  {
    var l := w.AnzahlBytes();
    var d := Digits(n);
    var m := NumFeld.Min(l, NumFeld.MAX_GANZZAHLSTELLEN);
    GesetztLongNum(w, n);
    assert ZeroPad(d, m) == d;
    VorbereitetZiffern(w, d);
    NumFeld.KuerzeSaettigt(d, l);
    assert NumFeld.OhneFuehrendeNullen(d) == d;
    GesetztPlatziert(w, d, Repeat('9', l));
    assert Repeat('0', 0) == "";
  }

  /** With truncation off, a number with more digits than the field is refused and the content kept. */
  lemma {:induction false} ZahlZuLang(w: FeldWert, n: nat)
    requires w.art.IstNumerisch() && !w.config.truncate
    requires n <= INT64_MAX && |Digits(n)| > w.AnzahlBytes()
    ensures GesetztLong(w, n) == Ergebnis(Fehlschlag(ZuLang(w.AnzahlBytes())), w.inhalt)
  {
    var d := Digits(n);
    GesetztLongNum(w, n);
    assert ZeroPad(d, NumFeld.Min(w.AnzahlBytes(), NumFeld.MAX_GANZZAHLSTELLEN)) == d;
    VorbereitetZiffern(w, d);
  }

  /** A minus sign before digits consists of allowed characters, has no blanks around it and parses to the negated value. */
  lemma {:induction false} MinusZiffern(z: string)
    requires |z| >= 1 && NurZiffern(z)
    ensures AlleErlaubt("-" + z) && Trim("-" + z) == "-" + z && !IsBlank("-" + z)
    ensures ParseInteger("-" + z) == Some(0 - Wert(z))
  {
    var s := "-" + z;
    ParseMinus(z);
    MinusErlaubt(z);
    assert IstZiffer(z[|z| - 1]);
    assert !IstLeerraum(s[0]) && !Trimmbar(s[0]) && !Trimmbar(s[|s| - 1]);
    TrimOhneRand(s);
  }

  /** A minus sign before digits passes the character check. */
  lemma {:induction false} MinusErlaubt(z: string)
    requires NurZiffern(z)
    ensures AlleErlaubt("-" + z)
  {
    var s := "-" + z;
    forall i | 0 <= i < |s| ensures ZeichenErlaubt(s[i]) {
      if i > 0 {
        assert s[i] == z[i - 1];
      }
    }
  }

  /** A minus sign before digits of a positive value is refused as negative by the numeric check in lax and strict mode. */
  lemma {:induction false} NegativGeprueft(z: string, einstellung: string)
    requires |z| >= 1 && NurZiffern(z) && Wert(z) > 0 && ModusVon(einstellung) != Aus
    ensures Validate(NumValidator, "-" + z, einstellung) == Err(Negativ)
  {
    MinusZiffern(z);
    assert NumLax("-" + z) == Err(Negativ);
  }

  /** A numeric field sets a negative `long` as a minus sign before the padded digits. */
  lemma {:induction false} GesetztLongNegativ(w: FeldWert, n: Int64, k: nat, m: nat)
    requires w.art.IstNumerisch() && n < 0 && k == 0 - n && m == NumFeld.Min(w.AnzahlBytes(), NumFeld.MAX_GANZZAHLSTELLEN)
    ensures GesetztLong(w, n) == Gesetzt(w, "-" + ZeroPad(Digits(k), m))
  {
    assert NumFeld.Darstellung(n, w.AnzahlBytes()) == "-" + ZeroPad(Digits(k), m);
  }

  /** The padded digits of a positive number have a positive value. */
  lemma {:induction false} ZeroPadPositiv(k: nat, m: nat)
    requires k > 0
    ensures |ZeroPad(Digits(k), m)| >= 1 && NurZiffern(ZeroPad(Digits(k), m)) && Wert(ZeroPad(Digits(k), m)) == k
  {
    ParseZeroPad(k, m);
    assert IstZiffer(ZeroPad(Digits(k), m)[0]);
  }

  /** The rendering of a negative number is refused by the numeric check in lax and strict mode, and the content kept. */
  lemma {:induction false} NegativAbgelehnt(w: FeldWert, n: Int64)
    requires w.art.IstNumerisch() && w.validator == NumValidator && ModusVon(w.config.validate) != Aus && n < 0
    ensures GesetztLong(w, n) == Ergebnis(Fehlschlag(Negativ), w.inhalt)
  {
    var k: nat := 0 - n;
    var m := NumFeld.Min(w.AnzahlBytes(), NumFeld.MAX_GANZZAHLSTELLEN);
    GesetztLongNegativ(w, n, k, m);
    ZeroPadPositiv(k, m);
    MinusAbgelehnt(w, ZeroPad(Digits(k), m));
  }

  /** A minus sign before digits of a positive value is refused by a numeric field in lax and strict mode. */
  lemma {:induction false} MinusAbgelehnt(w: FeldWert, z: string)
    requires w.art.IstNumerisch() && w.validator == NumValidator && ModusVon(w.config.validate) != Aus
    requires |z| >= 1 && NurZiffern(z) && Wert(z) > 0
    ensures Gesetzt(w, "-" + z) == Ergebnis(Fehlschlag(Negativ), w.inhalt)
  {
    NegativGeprueft(z, w.config.validate);
    Abgelehnt(w, "-" + z);
  }

  /** 2147483700 has at most ten digits. */
  lemma {:induction false} ZehnStellen()
    ensures |Digits(2147483700)| <= 10
  {
    assert Zehnerpotenz(10) == 10000000000;
    DigitsKurz(2147483700, 10);
  }

  /**
   * `Betrag.setInhalt(21474837)` as written wraps `n * 100` to a negative
   * `int` and is refused as negative, the content kept.
   */
  lemma {:induction false} BetragUeberlauf(w: FeldWert)
    requires w.art.Geldbetrag? && w.validator == NumValidator && ModusVon(w.config.validate) != Aus
    ensures GesetztIntAsWritten(w, 21474837) == Ergebnis(Fehlschlag(Negativ), w.inhalt)
  {
    Betrag.CentAlsIntUeberlauf();
    NegativAbgelehnt(w, -2147483596);
  }

  /** With the product formed as a `long`, the same amount is stored and reads back. */
  lemma {:induction false} BetragOhneUeberlauf(w: FeldWert)
    requires w.art.Geldbetrag? && w.ausrichtung == RIGHT && w.AnzahlBytes() >= 10
    ensures GesetztInt(w, 21474837).ausgang == Erfolg
    ensures Betrag.ToLong(GesetztInt(w, 21474837).inhalt) == Ok(21474837)
  {
    Betrag.CentAlsIntUeberlauf();
    ZehnStellen();
    BetragRundreise(w, 21474837);
  }
}
