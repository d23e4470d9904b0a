/**
 * The field of a fixed-width GDV record: `Feld` and the behaviour its
 * subclasses `NumFeld`, `Betrag` and `AlphaNumFeld` override.
 *
 * A field has an identifier, a 1-based byte address, an alignment and a
 * content whose length is the field length. The subclasses are told apart
 * by `FeldArt`; which validator class the field holds is a separate tag,
 * because the copy constructors install a different validator than the
 * layout constructors.
 *
 * `FeldWert` is a field as a value, and the functions on it specify each
 * operation; the class `Feld` keeps its content in an array and changes it
 * in place, each method proved against the function that specifies it.
 */
module Feld {
  import opened Ausnahmen
  import opened Zeichenketten
  import opened Zahlen
  import opened Konfiguration
  import opened Validator
  import NumFeld
  import Betrag

  datatype Align = LEFT | RIGHT | UNKNOWN

  /** The field class: `Feld`, `AlphaNumFeld`, `NumFeld`, `Betrag` or `Datum`. */
  datatype FeldArt = Text | AlphaNum | Num(nachkommastellen: Int32) | Geldbetrag(nachkommastellen: Int32) | Datum
  {
    /** `NumFeld` and its subclass `Betrag`. */
    predicate IstNumerisch() { Num? || Geldbetrag? }
  }

  /** The character `resetInhalt` fills with: '0' for numeric fields, ' ' otherwise. */
  function Fuellzeichen(art: FeldArt): char
  {
    if art.IstNumerisch() then '0' else ' '
  }

  /** A violation reported by `Feld.validate(config)`. */
  datatype Verstoss =
    | AdresseZuKlein               // byte address below 1
    | AusrichtungUnbekannt         // alignment UNKNOWN
    | EndadresseUeberschritten     // end address beyond 256
    | InhaltUngueltig(grund: Ausnahme)

  /** The highest byte address of a record line. */
  const MAX_ADRESSE: int := 256

  /** A field as a value. */
  datatype FeldWert = FeldWert(
    bezeichner: string,
    byteAdresse: Int32,
    inhalt: string,
    ausrichtung: Align,
    art: FeldArt,
    validator: ValidatorArt,
    config: Config)
  {
    function AnzahlBytes(): nat { |inhalt| }

    /** `getEndAdresse`, computed without `int` overflow. */
    function EndAdresse(): (e: int)
      ensures e - byteAdresse + 1 == AnzahlBytes()
    {
      byteAdresse + |inhalt| - 1
    }

    /** `getEndAdresse` as written: the sum is computed in `int` arithmetic. */
    function EndAdresseAsWritten(): (e: Int32)
      ensures IstInt32(EndAdresse()) ==> e == EndAdresse()
    {
      Wrap32(byteAdresse + |inhalt| - 1)
    }

    /** The byte `x` lies within the field. */
    predicate Enthaelt(x: int)
    {
      byteAdresse <= x <= EndAdresse()
    }

    /** `overlapsWith`. */
    predicate OverlapsWith(other: FeldWert)
    {
      if byteAdresse == other.byteAdresse then false
      else if byteAdresse < other.byteAdresse then EndAdresse() >= other.byteAdresse
      else other.EndAdresse() >= byteAdresse
    }

    /** `overlapsWith` as written: it compares with the `int` end addresses. */
    predicate OverlapsWithAsWritten(other: FeldWert)
    {
      if byteAdresse == other.byteAdresse then false
      else if byteAdresse < other.byteAdresse then EndAdresseAsWritten() >= other.byteAdresse
      else other.EndAdresseAsWritten() >= byteAdresse
    }

    /** `isEmpty`: the content is blank. */
    predicate IsEmpty()
    {
      IsBlank(inhalt)
    }

    /**
     * `hasValue`: the content is not blank, where a right-aligned field
     * counts its zeros as blanks; a numeric field must in addition hold a
     * number other than zero.
     */
    predicate HasValue()
    {
      if art.IstNumerisch() then HatZeichen() && NumFeld.HatZahlwert(inhalt, art.nachkommastellen) else HatZeichen()
    }

    /** `Feld.hasValue`: the content is not blank, where a right-aligned field counts its zeros as blanks. */
    predicate HatZeichen()
    {
      !IsBlank(if ausrichtung == RIGHT then ReplaceChars(inhalt, '0', ' ') else inhalt)
    }

    /** `validate(config)` for a given end address: the address, alignment and end checks, then the content check of the field's validator. */
    function VerstoesseBei(pruefung: Config, ende: int): (r: seq<Verstoss>)
      ensures AdresseZuKlein in r <==> byteAdresse < 1
      ensures AusrichtungUnbekannt in r <==> ausrichtung == UNKNOWN
      ensures EndadresseUeberschritten in r <==> ende > MAX_ADRESSE
      ensures Validate(validator, inhalt, pruefung.validate).Err? ==> InhaltUngueltig(Validate(validator, inhalt, pruefung.validate).error) in r
      ensures Validate(validator, inhalt, pruefung.validate).Ok? ==> forall v :: v in r ==> !v.InhaltUngueltig?
    {
      var a := if byteAdresse < 1 then [AdresseZuKlein] else [];
      var b := if ausrichtung == UNKNOWN then [AusrichtungUnbekannt] else [];
      var c := if ende > MAX_ADRESSE then [EndadresseUeberschritten] else [];
      var d := match Validate(validator, inhalt, pruefung.validate)
               case Err(e) => [InhaltUngueltig(e)]
               case Ok(_) => [];
      a + b + c + d
    }

    /** `validate(config)`. */
    function Verstoesse(pruefung: Config): seq<Verstoss>
    {
      VerstoesseBei(pruefung, EndAdresse())
    }

    /** `isValid`. */
    predicate IsValid()
    {
      if byteAdresse < 1 then false
      else if EndAdresse() > MAX_ADRESSE then false
      else if ausrichtung == UNKNOWN then false
      else Verstoesse(LAX) == []
    }

    /** `isValid` as written, where both it and `validate` compute the end address in `int` arithmetic. */
    predicate IsValidAsWritten()
    {
      if byteAdresse < 1 then false
      else if EndAdresseAsWritten() > MAX_ADRESSE then false
      else if ausrichtung == UNKNOWN then false
      else VerstoesseBei(LAX, EndAdresseAsWritten()) == []
    }

    /** `equals`: identifier, content and byte address; the alignment does not take part. */
    predicate Gleich(other: FeldWert)
    {
      bezeichner == other.bezeichner && inhalt == other.inhalt && byteAdresse == other.byteAdresse
    }

    /** `compareTo`: the difference of the start addresses in `int` arithmetic. */
    function CompareTo(other: FeldWert): Int32
    {
      Wrap32(byteAdresse - other.byteAdresse)
    }
  }

  /** A field of `laenge` blanks: the layout constructor. */
  function Leer(bezeichner: string, laenge: nat, start: Int32, ausrichtung: Align, art: FeldArt,
                validator: ValidatorArt, config: Config): (w: FeldWert)
    ensures w.AnzahlBytes() == laenge && IsBlank(w.inhalt)
  {
    FeldWert(bezeichner, start, Repeat(' ', laenge), ausrichtung, art, validator, config)
  }

  /** The new content and the outcome of an operation that changes the content. */
  datatype Ergebnis = Ergebnis(ausgang: Ausgang, inhalt: string)

  /** `validator.verify(value, this)`: the field's validator in the field's configured mode. */
  function Pruefe(w: FeldWert, s: string): Result<string>
  {
    Validate(w.validator, s, w.config.validate)
  }

  /** `truncate`: `Feld` keeps the first bytes, `NumFeld` saturates. */
  function KuerzeFeld(w: FeldWert, s: string): (r: string)
    ensures |r| <= w.AnzahlBytes()
    ensures !w.art.IstNumerisch() ==> r == s[..if |s| <= w.AnzahlBytes() then |s| else w.AnzahlBytes()]
  {
    if w.art.IstNumerisch() then
      NumFeld.KuerzeSaettigt(s, w.AnzahlBytes());
      NumFeld.Kuerze(s, w.AnzahlBytes())
    else if |s| <= w.AnzahlBytes() then s
    else s[..w.AnzahlBytes()]
  }

  /**
   * Everything `setInhalt(String)` does before it touches the content:
   * `NumFeld` verifies and, with fill-blanks on, trims; then `Feld`
   * verifies and, with truncation on, truncates.
   */
  function Vorbereitet(w: FeldWert, s: string): (r: Result<string>)
    ensures r.Ok? && w.config.truncate ==> |r.value| <= w.AnzahlBytes()
    ensures Pruefe(w, s).Err? ==> r.Err?
  {
    var v1 :- if w.art.IstNumerisch() then VorbereitetNum(w, s) else Ok(s);
    var v2 :- Pruefe(w, v1);
    Ok(if w.config.truncate then KuerzeFeld(w, v2) else v2)
  }

  /** The part of `NumFeld.setInhalt(String)` before it calls the inherited one. */
  function VorbereitetNum(w: FeldWert, s: string): Result<string>
  {
    var a :- Pruefe(w, s);
    Ok(if w.config.fillBlanks then Trim(a) else a)
  }

  /** The content after `resetInhalt`. */
  function Zurueckgesetzt(w: FeldWert): (r: string)
    ensures |r| == w.AnzahlBytes()
    ensures forall i :: 0 <= i < |r| ==> r[i] == Fuellzeichen(w.art)
  {
    Repeat(Fuellzeichen(w.art), w.AnzahlBytes())
  }

  /** `v` written into a reset field according to the alignment. */
  function Platziert(w: FeldWert, v: string): (r: string)
    requires |v| <= w.AnzahlBytes() && w.ausrichtung != UNKNOWN
    ensures |r| == w.AnzahlBytes()
    ensures w.ausrichtung == LEFT ==> r[..|v|] == v
    ensures w.ausrichtung == RIGHT ==> r[|r| - |v|..] == v
  {
    var fuellung := Repeat(Fuellzeichen(w.art), w.AnzahlBytes() - |v|);
    if w.ausrichtung == LEFT then v + fuellung else fuellung + v
  }

  /** `setInhalt(String)`. */
  function Gesetzt(w: FeldWert, s: string): (e: Ergebnis)
    ensures |e.inhalt| == w.AnzahlBytes()
  {
    match Vorbereitet(w, s)
    case Err(x) => Ergebnis(Fehlschlag(x), w.inhalt)
    case Ok(v) =>
      if |v| > w.AnzahlBytes() then Ergebnis(Fehlschlag(ZuLang(w.AnzahlBytes())), w.inhalt)
      else if w.ausrichtung == UNKNOWN then Ergebnis(Fehlschlag(NichtInitialisiert), Zurueckgesetzt(w))
      else Ergebnis(Erfolg, Platziert(w, v))
  }

  /** `setInhalt(char)`: `Feld` resets and sets the first byte, `NumFeld` sets the one-character string. */
  function GesetztZeichen(w: FeldWert, c: char): (e: Ergebnis)
    ensures |e.inhalt| == w.AnzahlBytes()
    ensures !w.art.IstNumerisch() && w.AnzahlBytes() >= 1 ==>
      e.ausgang == Erfolg && e.inhalt[0] == c && e.inhalt[1..] == Repeat(' ', w.AnzahlBytes() - 1)
    ensures !w.art.IstNumerisch() && w.AnzahlBytes() == 0 ==> e.ausgang == Fehlschlag(IndexAusserhalb)
  {
    if w.art.IstNumerisch() then Gesetzt(w, [c])
    else
      var leer := Zurueckgesetzt(w);
      if |leer| == 0 then Ergebnis(Fehlschlag(IndexAusserhalb), leer)
      else Ergebnis(Erfolg, [c] + leer[1..])
  }

  /** `setInhalt(long)`: `Feld` writes `Long.toString`, `NumFeld` the zero-pattern rendering. */
  function GesetztLong(w: FeldWert, n: Int64): (e: Ergebnis)
    ensures |e.inhalt| == w.AnzahlBytes()
  {
    if w.art.IstNumerisch() then Gesetzt(w, NumFeld.Darstellung(n, w.AnzahlBytes()))
    else Gesetzt(w, LongToString(n))
  }

  /**
   * `setInhalt(int)`: widened to `long`, except that `Betrag` asserts a
   * non-negative argument and stores hundredths. The product is formed
   * as a `long`; the `int` product of the source is `GesetztIntAsWritten`.
   */
  function GesetztInt(w: FeldWert, n: Int32): (e: Ergebnis)
    ensures |e.inhalt| == w.AnzahlBytes()
    ensures w.art.Geldbetrag? && n < 0 ==> e == Ergebnis(Fehlschlag(Zusicherung), w.inhalt)
  {
    if w.art.Geldbetrag? then
      if n < 0 then Ergebnis(Fehlschlag(Zusicherung), w.inhalt) else GesetztLong(w, Betrag.Cent(n))
    else GesetztLong(w, AlsLong(n))
  }

  /** `Betrag.setInhalt(int)` as written: `n * 100` in `int` arithmetic. */
  function GesetztIntAsWritten(w: FeldWert, n: Int32): (e: Ergebnis)
    ensures |e.inhalt| == w.AnzahlBytes()
  {
    if w.art.Geldbetrag? then
      if n < 0 then Ergebnis(Fehlschlag(Zusicherung), w.inhalt) else GesetztLong(w, Betrag.CentAlsInt(n))
    else GesetztLong(w, AlsLong(n))
  }

  /** `setAnzahlBytes(n)`: appends blanks; a shorter length fails the source's assertion. */
  function MitAnzahlBytes(w: FeldWert, n: int): (e: Ergebnis)
    ensures n >= w.AnzahlBytes() ==> e.ausgang == Erfolg && |e.inhalt| == n && e.inhalt[..w.AnzahlBytes()] == w.inhalt
    ensures n >= w.AnzahlBytes() ==> forall i :: w.AnzahlBytes() <= i < n ==> e.inhalt[i] == ' '
    ensures n < w.AnzahlBytes() ==> e == Ergebnis(Fehlschlag(Zusicherung), w.inhalt)
  {
    if n < w.AnzahlBytes() then Ergebnis(Fehlschlag(Zusicherung), w.inhalt)
    else Ergebnis(Erfolg, w.inhalt + Repeat(' ', n - w.AnzahlBytes()))
  }

  // ---------------------------------------------------------------------
  // Properties of the field operations
  // ---------------------------------------------------------------------

  /**
   * `setInhalt(String)` succeeds iff the prepared value fits and the
   * alignment is known; a failure other than the unknown alignment keeps
   * the content, and the unknown alignment leaves the reset content.
   */
  lemma {:induction false} GesetztGenau(w: FeldWert, s: string)
    ensures Gesetzt(w, s).ausgang == Erfolg <==>
      Vorbereitet(w, s).Ok? && |Vorbereitet(w, s).value| <= w.AnzahlBytes() && w.ausrichtung != UNKNOWN
    ensures Gesetzt(w, s).ausgang.Fehlschlag? && Gesetzt(w, s).ausgang.grund != NichtInitialisiert ==> Gesetzt(w, s).inhalt == w.inhalt
    ensures Vorbereitet(w, s).Ok? && |Vorbereitet(w, s).value| <= w.AnzahlBytes() && w.ausrichtung == UNKNOWN ==>
      Gesetzt(w, s) == Ergebnis(Fehlschlag(NichtInitialisiert), Zurueckgesetzt(w))
    ensures Vorbereitet(w, s).Ok? && |Vorbereitet(w, s).value| > w.AnzahlBytes() ==>
      Gesetzt(w, s) == Ergebnis(Fehlschlag(ZuLang(w.AnzahlBytes())), w.inhalt)
  {
  }

  /** Repeating a character twice is repeating it once for the total. */
  lemma {:induction false} RepeatPlus(c: char, a: nat, b: nat)
    ensures Repeat(c, a) + Repeat(c, b) == Repeat(c, a + b)
  {
    assert |Repeat(c, a) + Repeat(c, b)| == a + b;
  }

  /** Zeros put in front of a string that fits pad it to the width. */
  lemma {:induction false} ZeroPadVorne(s: string, l: nat)
    requires |s| <= l
    ensures Repeat('0', l - |s|) + s == ZeroPad(s, l)
  {
    if |s| == l {
      assert Repeat('0', 0) == "";
    }
  }

  /** Zeros put in front of a zero-padded string pad it to the larger width. */
  lemma {:induction false} ZeroPadNachfuellen(s: string, m: nat, l: nat)
    requires m <= l && |s| <= l
    ensures Repeat('0', l - |ZeroPad(s, m)|) + ZeroPad(s, m) == ZeroPad(s, l)
  {
    var z := ZeroPad(s, m);
    if |s| < m {
      var a := Repeat('0', l - m);
      var b := Repeat('0', m - |s|);
      calc {
        Repeat('0', l - |z|) + z;
        a + (b + s);
        (a + b) + s;
        { RepeatPlus('0', l - m, m - |s|); }
        Repeat('0', l - |s|) + s;
        { ZeroPadVorne(s, l); }
        ZeroPad(s, l);
      }
    } else {
      assert z == s;
      ZeroPadVorne(s, l);
    }
  }

  /** The preparation of a non-numeric field is its validator followed, with truncation on, by the cut. */
  lemma {:induction false} VorbereitetText(w: FeldWert, s: string, v: string)
    requires !w.art.IstNumerisch() && Pruefe(w, s) == Ok(v) && Pruefe(w, v) == Ok(v)
    ensures Vorbereitet(w, s) == Ok(if w.config.truncate then KuerzeFeld(w, v) else v)
  {
  }

  /** Once the preparation yields a value that fits, `setInhalt` writes it according to the alignment. */
  lemma {:induction false} GesetztPlatziert(w: FeldWert, s: string, v: string)
    requires Vorbereitet(w, s) == Ok(v) && |v| <= w.AnzahlBytes() && w.ausrichtung != UNKNOWN
    ensures Gesetzt(w, s) == Ergebnis(Erfolg, Platziert(w, v))
  {
  }

  /**
   * A value the validator passes unchanged, and that fits, is written
   * LEFT as the value followed by blanks and RIGHT as blanks followed by
   * the value ("abc" becomes "abc  ", "hi" becomes "   hi" in 5 bytes).
   */
  lemma {:induction false} TextPlatziert(w: FeldWert, s: string)
    requires !w.art.IstNumerisch() && Pruefe(w, s) == Ok(s) && |s| <= w.AnzahlBytes()
    ensures w.ausrichtung == LEFT ==> Gesetzt(w, s) == Ergebnis(Erfolg, s + Repeat(' ', w.AnzahlBytes() - |s|))
    ensures w.ausrichtung == RIGHT ==> Gesetzt(w, s) == Ergebnis(Erfolg, Repeat(' ', w.AnzahlBytes() - |s|) + s)
  {
    VorbereitetText(w, s, s);
    if w.ausrichtung != UNKNOWN {
      GesetztPlatziert(w, s, s);
      PlatziertLeerzeichen(w, s);
    }
  }

  /** Placing `v` overwrites the reset content from the first byte (LEFT) or up to the last byte (RIGHT). */
  lemma {:induction false} PlatziertZerlegt(w: FeldWert, v: string)
    requires |v| <= w.AnzahlBytes() && w.ausrichtung != UNKNOWN
    ensures w.ausrichtung == LEFT ==> Platziert(w, v) == Zurueckgesetzt(w)[..0] + v + Zurueckgesetzt(w)[|v|..]
    ensures w.ausrichtung == RIGHT ==>
      Platziert(w, v) == Zurueckgesetzt(w)[..w.AnzahlBytes() - |v|] + v + Zurueckgesetzt(w)[w.AnzahlBytes()..]
  {
    var l := w.AnzahlBytes();
    var z := Zurueckgesetzt(w);
    var f := Repeat(Fuellzeichen(w.art), l - |v|);
    if w.ausrichtung == LEFT {
      assert z[|v|..] == f;
    } else {
      assert z[..l - |v|] == f;
      assert z[l..] == [];
    }
  }

  /** A non-numeric field is padded with blanks on the side the alignment leaves free. */
  lemma {:induction false} PlatziertLeerzeichen(w: FeldWert, v: string)
    requires !w.art.IstNumerisch() && |v| <= w.AnzahlBytes() && w.ausrichtung != UNKNOWN
    ensures w.ausrichtung == LEFT ==> Platziert(w, v) == v + Repeat(' ', w.AnzahlBytes() - |v|)
    ensures w.ausrichtung == RIGHT ==> Platziert(w, v) == Repeat(' ', w.AnzahlBytes() - |v|) + v
  {
    assert Fuellzeichen(w.art) == ' ';
  }

  /**
   * With truncation on, a value longer than the field keeps its first
   * bytes whatever the alignment ("hello world" becomes "hello").
   */
  lemma {:induction false} TextGekuerzt(w: FeldWert, s: string)
    requires !w.art.IstNumerisch() && w.config.truncate && w.ausrichtung != UNKNOWN
    requires Pruefe(w, s) == Ok(s) && |s| >= w.AnzahlBytes()
    ensures Gesetzt(w, s) == Ergebnis(Erfolg, s[..w.AnzahlBytes()])
  {
    assert Vorbereitet(w, s) == Ok(s[..w.AnzahlBytes()]);
  }

  /** A value the field's validator refuses raises the validator's error and leaves the content as it was. */
  lemma {:induction false} Abgelehnt(w: FeldWert, s: string)
    requires Pruefe(w, s).Err?
    ensures Gesetzt(w, s) == Ergebnis(Fehlschlag(Pruefe(w, s).error), w.inhalt)
  {
  }

  /** With truncation off, a value longer than the field is refused and the content stays as it was. */
  lemma {:induction false} ZuLangAbgelehnt(w: FeldWert, s: string)
    requires !w.config.truncate && Vorbereitet(w, s).Ok? && |Vorbereitet(w, s).value| > w.AnzahlBytes()
    ensures Gesetzt(w, s) == Ergebnis(Fehlschlag(ZuLang(w.AnzahlBytes())), w.inhalt)
  {
  }

  /** For the base class truncation off means: values the validator passes and that are too long are refused. */
  lemma {:induction false} TextZuLang(w: FeldWert, s: string)
    requires !w.art.IstNumerisch() && !w.config.truncate && Pruefe(w, s) == Ok(s) && |s| > w.AnzahlBytes()
    ensures Gesetzt(w, s) == Ergebnis(Fehlschlag(ZuLang(w.AnzahlBytes())), w.inhalt)
  {
    assert Vorbereitet(w, s) == Ok(s);
  }

  /** A value of exactly the field length that the preparation passes unchanged is stored verbatim. */
  lemma {:induction false} Verbatim(w: FeldWert, s: string)
    requires |s| == w.AnzahlBytes() && Vorbereitet(w, s) == Ok(s) && w.ausrichtung != UNKNOWN
    ensures Gesetzt(w, s) == Ergebnis(Erfolg, s)
  {
    assert Repeat(Fuellzeichen(w.art), 0) == "";
  }

  /** A value of the field length passes the preparation of a non-numeric field when its validator passes it. */
  lemma {:induction false} TextVerbatim(w: FeldWert, s: string)
    requires !w.art.IstNumerisch() && |s| == w.AnzahlBytes() && Pruefe(w, s) == Ok(s) && w.ausrichtung != UNKNOWN
    ensures Gesetzt(w, s) == Ergebnis(Erfolg, s)
  {
    assert Vorbereitet(w, s) == Ok(s);
    Verbatim(w, s);
  }

  /** Digits pass the preparation of a numeric field unchanged up to the truncation. */
  lemma {:induction false} VorbereitetZiffern(w: FeldWert, z: string)
    requires w.art.IstNumerisch() && |z| >= 1 && NurZiffern(z)
    ensures Vorbereitet(w, z) == Ok(if w.config.truncate then KuerzeFeld(w, z) else z)
  {
    ZiffernAkzeptiert(w.validator, z, w.config.validate);
    assert IstZiffer(z[0]) && IstZiffer(z[|z| - 1]);
    TrimOhneRand(z);
    assert VorbereitetNum(w, z) == Ok(z);
  }

  /** A numeric field sets a non-negative `long` as its digits padded to the pattern width. */
  lemma {:induction false} GesetztLongNum(w: FeldWert, n: nat)
    requires w.art.IstNumerisch() && n <= INT64_MAX
    ensures GesetztLong(w, n) == Gesetzt(w, ZeroPad(Digits(n), NumFeld.Min(w.AnzahlBytes(), NumFeld.MAX_GANZZAHLSTELLEN)))
  {
  }

  /** Truncating the padded digits of a number that fits yields its digits. */
  lemma {:induction false} KuerzeZahl(w: FeldWert, n: nat, m: nat)
    requires w.art.IstNumerisch() && |Digits(n)| <= w.AnzahlBytes()
    ensures KuerzeFeld(w, ZeroPad(Digits(n), m)) == Digits(n)
  {
    NumFeld.KuerzeSaettigt(ZeroPad(Digits(n), m), w.AnzahlBytes());
    NumFeld.OhneNullenZeroPad(n, m);
  }

  /** A right-aligned numeric field writes the padded digits, or with truncation on the bare digits, behind zeros. */
  lemma {:induction false} ZahlPlatziert(w: FeldWert, n: nat, m: nat)
    requires w.art.IstNumerisch() && w.ausrichtung == RIGHT
    requires n <= INT64_MAX && |Digits(n)| <= w.AnzahlBytes() && m <= w.AnzahlBytes()
    ensures w.config.truncate ==> Gesetzt(w, ZeroPad(Digits(n), m)) == Ergebnis(Erfolg, Platziert(w, Digits(n)))
    ensures !w.config.truncate ==> Gesetzt(w, ZeroPad(Digits(n), m)) == Ergebnis(Erfolg, Platziert(w, ZeroPad(Digits(n), m)))
  {
    var z := ZeroPad(Digits(n), m);
    ParseZeroPad(n, m);
    VorbereitetZiffern(w, z);
    if w.config.truncate {
      KuerzeZahl(w, n, m);
      GesetztPlatziert(w, z, Digits(n));
    } else {
      GesetztPlatziert(w, z, z);
    }
  }

  /** The digits, or the digits padded to at most the field length, placed right in a numeric field, are the digits padded to the field length. */
  lemma {:induction false} PlatziertAufgefuellt(w: FeldWert, d: string, m: nat, gekuerzt: bool)
    requires w.art.IstNumerisch() && w.ausrichtung == RIGHT && |d| <= w.AnzahlBytes() && m <= w.AnzahlBytes()
    ensures Platziert(w, if gekuerzt then d else ZeroPad(d, m)) == ZeroPad(d, w.AnzahlBytes())
  {
    var v := if gekuerzt then d else ZeroPad(d, m);
    assert Platziert(w, v) == Repeat('0', w.AnzahlBytes() - |v|) + v;
    if gekuerzt {
      ZeroPadVorne(d, w.AnzahlBytes());
    } else {
      ZeroPadNachfuellen(d, m, w.AnzahlBytes());
    }
  }

  /** A right-aligned numeric field stores the digits of any number that fits, padded with zeros. */
  lemma {:induction false} ZahlRechts(w: FeldWert, n: nat)
    requires w.art.IstNumerisch() && w.ausrichtung == RIGHT
    requires n <= INT64_MAX && |Digits(n)| <= w.AnzahlBytes()
    ensures GesetztLong(w, n) == Ergebnis(Erfolg, ZeroPad(Digits(n), w.AnzahlBytes()))
  {
    var m := NumFeld.Min(w.AnzahlBytes(), NumFeld.MAX_GANZZAHLSTELLEN);
    GesetztLongNum(w, n);
    ZahlPlatziert(w, n, m);
    PlatziertAufgefuellt(w, Digits(n), m, w.config.truncate);
  }

  /** A string of digits of the field length is stored verbatim in a right-aligned numeric field. */
  lemma {:induction false} ZiffernVerbatim(w: FeldWert, c: string)
    requires w.art.IstNumerisch() && w.ausrichtung == RIGHT
    requires |c| == w.AnzahlBytes() >= 1 && NurZiffern(c)
    ensures Gesetzt(w, c) == Ergebnis(Erfolg, c)
  {
    VorbereitetZiffern(w, c);
    if w.config.truncate {
      var t := NumFeld.OhneFuehrendeNullen(c);
      NumFeld.KuerzeSaettigt(c, |c|);
      assert KuerzeFeld(w, c) == t;
      GesetztPlatziert(w, c, t);
      NumFeld.NullenUndRest(c);
      assert Platziert(w, t) == Repeat('0', |c| - |t|) + t;
    } else {
      GesetztPlatziert(w, c, c);
      assert Repeat('0', 0) == "";
      assert Platziert(w, c) == c;
    }
  }

  /** `resetInhalt` leaves only fill characters: a non-numeric field is then empty and no field has a value when right-aligned or non-numeric. */
  lemma {:induction false} ZurueckgesetztOhneWert(w: FeldWert)
    ensures !w.art.IstNumerisch() ==> w.(inhalt := Zurueckgesetzt(w)).IsEmpty()
    ensures !w.art.IstNumerisch() || w.ausrichtung == RIGHT ==> !w.(inhalt := Zurueckgesetzt(w)).HasValue()
  {
    var v := w.(inhalt := Zurueckgesetzt(w));
    if w.ausrichtung == RIGHT {
      var ersetzt := ReplaceChars(v.inhalt, '0', ' ');
      assert forall i :: 0 <= i < |ersetzt| ==> ersetzt[i] == ' ';
      assert IsBlank(ersetzt);
    } else if !w.art.IstNumerisch() {
      assert forall i :: 0 <= i < |v.inhalt| ==> v.inhalt[i] == ' ';
    }
  }

  /** `hasValue` is false for blank content, and for right-aligned content of blanks and zeros only. */
  lemma {:induction false} OhneWert(w: FeldWert)
    ensures w.IsEmpty() ==> !w.HasValue()
    ensures w.ausrichtung == RIGHT && (forall i :: 0 <= i < |w.inhalt| ==> w.inhalt[i] == ' ' || w.inhalt[i] == '0') ==> !w.HasValue()
  {
    ZeichenGenau(w);
    assert IstLeerraum(' ');
  }

  /** `Feld.hasValue` holds iff some character is not whitespace and, when right-aligned, not '0'. */
  lemma {:induction false} ZeichenGenau(w: FeldWert)
    ensures w.HatZeichen() <==> exists i :: 0 <= i < |w.inhalt| && !IstLeerraum(w.inhalt[i]) && (w.ausrichtung == RIGHT ==> w.inhalt[i] != '0')
  {
    if w.ausrichtung == RIGHT {
      var ersetzt := ReplaceChars(w.inhalt, '0', ' ');
      assert forall i :: 0 <= i < |w.inhalt| ==> (IstLeerraum(ersetzt[i]) <==> IstLeerraum(w.inhalt[i]) || w.inhalt[i] == '0');
    }
  }

  /** For a non-numeric field `hasValue` holds iff some character is not whitespace and, when right-aligned, not '0'. */
  lemma {:induction false} TextHatWert(w: FeldWert)
    requires !w.art.IstNumerisch()
    ensures w.HasValue() <==> exists i :: 0 <= i < |w.inhalt| && !IstLeerraum(w.inhalt[i]) && (w.ausrichtung == RIGHT ==> w.inhalt[i] != '0')
  {
    ZeichenGenau(w);
  }

  /**
   * For a numeric field `hasValue` holds iff some character is not
   * whitespace (and, when right-aligned, not '0') and the content is a
   * decimal number that differs from `BigDecimal.ZERO` once the point is
   * moved by the decimal places.
   */
  lemma {:induction false} NumHatWert(w: FeldWert)
    requires w.art.IstNumerisch()
    ensures w.HasValue() <==> (exists i :: 0 <= i < |w.inhalt| && !IstLeerraum(w.inhalt[i]) && (w.ausrichtung == RIGHT ==> w.inhalt[i] != '0'))
                              && NumFeld.HatZahlwert(w.inhalt, w.art.nachkommastellen)
  {
    ZeichenGenau(w);
  }

  /** `overlapsWith` is symmetric. */
  lemma {:induction false} OverlapSymmetrisch(a: FeldWert, b: FeldWert)
    ensures a.OverlapsWith(b) <==> b.OverlapsWith(a)
  {
  }

  /** Fields at the same address never overlap; fields at different addresses overlap iff a byte lies in both. */
  lemma {:induction false} OverlapGenau(a: FeldWert, b: FeldWert)
    requires a.AnzahlBytes() >= 1 && b.AnzahlBytes() >= 1
    ensures a.byteAdresse == b.byteAdresse ==> !a.OverlapsWith(b)
    ensures a.byteAdresse != b.byteAdresse ==> (a.OverlapsWith(b) <==> exists x :: a.Enthaelt(x) && b.Enthaelt(x))
  {
    if a.byteAdresse < b.byteAdresse && a.OverlapsWith(b) {
      assert a.Enthaelt(b.byteAdresse) && b.Enthaelt(b.byteAdresse);
    } else if a.byteAdresse > b.byteAdresse && a.OverlapsWith(b) {
      assert a.Enthaelt(a.byteAdresse) && b.Enthaelt(a.byteAdresse);
    }
  }

  /** A field of no bytes that starts inside another overlaps it, though no byte lies in both. */
  lemma {:induction false} OverlapLeer()
    ensures Leer("a", 4, 1, LEFT, Text, Basis, LAX).OverlapsWith(Leer("b", 0, 2, LEFT, Text, Basis, LAX))
    ensures !exists x :: Leer("b", 0, 2, LEFT, Text, Basis, LAX).Enthaelt(x)
  {
    var b := Leer("b", 0, 2, LEFT, Text, Basis, LAX);
    assert b.EndAdresse() == 1;
  }

  /**
   * A field of 10 bytes at address 2147483640 and a field of one byte at
   * 2147483645 share a byte, but the end address of the first wraps, so
   * `overlapsWith` as written says they do not overlap.
   */
  lemma {:induction false} OverlapUeberlauf()
    ensures Leer("a", 10, 2147483640, LEFT, Text, Basis, LAX).OverlapsWith(Leer("b", 1, 2147483645, LEFT, Text, Basis, LAX))
    ensures !Leer("a", 10, 2147483640, LEFT, Text, Basis, LAX).OverlapsWithAsWritten(Leer("b", 1, 2147483645, LEFT, Text, Basis, LAX))
  {
    var a := Leer("a", 10, 2147483640, LEFT, Text, Basis, LAX);
    assert a.EndAdresse() == 2147483649;
    assert a.EndAdresseAsWritten() == -2147483647;
  }

  /** Wherever both end addresses fit an `int`, both versions of `overlapsWith` agree. */
  lemma {:induction false} OverlapOhneUeberlauf(a: FeldWert, b: FeldWert)
    requires IstInt32(a.EndAdresse()) && IstInt32(b.EndAdresse())
    ensures a.OverlapsWithAsWritten(b) <==> a.OverlapsWith(b)
  {
  }

  /** The byte range of the field is exactly its length. */
  lemma {:induction false} EndAdresseGenau(w: FeldWert, x: int)
    ensures w.Enthaelt(x) <==> 0 <= x - w.byteAdresse < w.AnzahlBytes()
  {
  }

  /** Bytes 1-2 and 3-4 do not overlap; bytes 2-3 overlap both. */
  lemma {:induction false} BeispielOverlap()
    ensures !Leer("a", 2, 1, LEFT, Text, Basis, LAX).OverlapsWith(Leer("b", 2, 3, LEFT, Text, Basis, LAX))
    ensures Leer("c", 2, 2, LEFT, Text, Basis, LAX).OverlapsWith(Leer("a", 2, 1, LEFT, Text, Basis, LAX))
    ensures Leer("c", 2, 2, LEFT, Text, Basis, LAX).OverlapsWith(Leer("b", 2, 3, LEFT, Text, Basis, LAX))
  {
  }

  /** `isValid` holds iff the address is at least 1, the end at most 256, the alignment known and the content passes lax validation. */
  lemma {:induction false} IsValidGenau(w: FeldWert)
    ensures w.IsValid() <==> w.byteAdresse >= 1 && w.EndAdresse() <= MAX_ADRESSE && w.ausrichtung != UNKNOWN
                             && Validate(w.validator, w.inhalt, LAX.validate).Ok?
    ensures w.IsValid() <==> w.Verstoesse(LAX) == []
  {
    var r := w.VerstoesseBei(LAX, w.EndAdresse());
    if Validate(w.validator, w.inhalt, LAX.validate).Err? {
      assert InhaltUngueltig(Validate(w.validator, w.inhalt, LAX.validate).error) in r;
    }
  }

  /** A field of 2 bytes at address 256 ends at 257 and is not valid. */
  lemma {:induction false} BeispielUngueltig()
    ensures !Leer("x", 2, 256, LEFT, Text, Basis, LAX).IsValid()
    ensures !Leer("x", 1, 0, LEFT, Text, Basis, LAX).IsValid()
    ensures !Leer("x", 1, 1, UNKNOWN, Text, Basis, LAX).IsValid()
  {
  }

  /** `isValid` as written holds iff the address is at least 1, the wrapped end at most 256, the alignment known and the content passes lax validation. */
  lemma {:induction false} IsValidAsWrittenGenau(w: FeldWert)
    ensures w.IsValidAsWritten() <==> w.byteAdresse >= 1 && w.EndAdresseAsWritten() <= MAX_ADRESSE && w.ausrichtung != UNKNOWN
                                      && Validate(w.validator, w.inhalt, LAX.validate).Ok?
  {
    var r := w.VerstoesseBei(LAX, w.EndAdresseAsWritten());
    if Validate(w.validator, w.inhalt, LAX.validate).Err? {
      assert InhaltUngueltig(Validate(w.validator, w.inhalt, LAX.validate).error) in r;
    }
  }

  /** A blank content passes lax validation of the base class. */
  lemma {:induction false} LeerzeichenGueltig(n: nat)
    ensures Validate(Basis, Repeat(' ', n), LAX.validate) == Ok(Repeat(' ', n))
  {
    assert ModusVon(LAX.validate) == Lax by { assert ToLower("lax") == "lax"; }
    var s := Repeat(' ', n);
    assert AlleErlaubt(s) by {
      forall i | 0 <= i < |s| ensures ZeichenErlaubt(s[i]) {
        assert s[i] == ' ';
      }
    }
  }

  /** A field starting at the largest `int` wraps its end address to a negative number and passes `isValid` as written. */
  lemma {:induction false} IsValidUeberlauf()
    ensures Leer("x", 2, INT32_MAX, LEFT, Text, Basis, LAX).IsValidAsWritten()
    ensures !Leer("x", 2, INT32_MAX, LEFT, Text, Basis, LAX).IsValid()
  {
    var w := Leer("x", 2, INT32_MAX, LEFT, Text, Basis, LAX);
    assert w.EndAdresseAsWritten() == INT32_MIN;
    LeerzeichenGueltig(2);
    IsValidAsWrittenGenau(w);
  }

  /** Wherever the end address fits an `int`, both versions of `isValid` agree. */
  lemma {:induction false} IsValidOhneUeberlauf(w: FeldWert)
    requires IstInt32(w.EndAdresse())
    ensures w.IsValidAsWritten() <==> w.IsValid()
  {
  }

  /** `equals` ignores the alignment and is an equivalence. */
  lemma {:induction false} GleichOhneAusrichtung(a: FeldWert, b: FeldWert, c: FeldWert, x: Align)
    ensures a.Gleich(a.(ausrichtung := x))
    ensures a.Gleich(b) ==> b.Gleich(a)
    ensures a.Gleich(b) && b.Gleich(c) ==> a.Gleich(c)
  {
  }

  /** For non-negative addresses `compareTo` orders fields by start address. */
  lemma {:induction false} CompareToOrdnet(a: FeldWert, b: FeldWert)
    requires a.byteAdresse >= 0 && b.byteAdresse >= 0
    ensures a.CompareTo(b) < 0 <==> a.byteAdresse < b.byteAdresse
    ensures a.CompareTo(b) == 0 <==> a.byteAdresse == b.byteAdresse
    ensures a.CompareTo(b) == -b.CompareTo(a)
  {
    assert IstInt32(a.byteAdresse - b.byteAdresse);
    assert IstInt32(b.byteAdresse - a.byteAdresse);
  }

  // ---------------------------------------------------------------------
  // The field object
  // ---------------------------------------------------------------------

  /** A field whose content is changed in place. */
  class Feld {
    const bezeichner: string
    const byteAdresse: Int32
    const ausrichtung: Align
    const art: FeldArt
    const validator: ValidatorArt
    const config: Config
    var inhalt: array<char>

    /** The field as a value. */
    function Wert(): FeldWert
      reads this, inhalt
    {
      FeldWert(bezeichner, byteAdresse, inhalt[..], ausrichtung, art, validator, config)
    }

    /** The layout constructor: `laenge` blanks at `start`. */
    constructor Layout(bezeichner: string, laenge: nat, start: Int32, ausrichtung: Align, art: FeldArt,
                       validator: ValidatorArt, config: Config)
      ensures Wert() == Leer(bezeichner, laenge, start, ausrichtung, art, validator, config)
      ensures fresh(inhalt)
    {
      this.bezeichner := bezeichner;
      this.byteAdresse := start;
      this.ausrichtung := ausrichtung;
      this.art := art;
      this.validator := validator;
      this.config := config;
      var puffer := new char[laenge];
      var i := 0;
      while i < laenge
        invariant 0 <= i <= laenge
        invariant forall j :: 0 <= j < i ==> puffer[j] == ' '
      {
        puffer[i] := ' ';
        i := i + 1;
      }
      this.inhalt := puffer;
      new;
      assert inhalt[..] == Repeat(' ', laenge);
    }

    /** `Feld()`: an unnamed LEFT field of 213 bytes at 43. */
    constructor Standard(global: Config)
      ensures Wert() == Leer("UNBEKANNT", 213, 43, LEFT, Text, Basis, global)
      ensures fresh(inhalt)
    {
      bezeichner := "UNBEKANNT";
      byteAdresse := 43;
      ausrichtung := LEFT;
      art := Text;
      validator := Basis;
      config := global;
      var puffer := new char[213];
      var i := 0;
      while i < 213
        invariant 0 <= i <= 213
        invariant forall j :: 0 <= j < i ==> puffer[j] == ' '
      {
        puffer[i] := ' ';
        i := i + 1;
      }
      inhalt := puffer;
      new;
      assert inhalt[..] == Repeat(' ', 213);
    }

    /** The `NumFeld` constructor: right-aligned, then `setInhalt(0)` fills it with zeros. */
    constructor NeuesNumFeld(bezeichner: string, laenge: nat, start: Int32, art: FeldArt, config: Config)
      requires art.IstNumerisch() && laenge >= 1
      ensures Wert() == FeldWert(bezeichner, start, Repeat('0', laenge), RIGHT, art, NumValidator, config)
      ensures fresh(inhalt)
    {
      this.bezeichner := bezeichner;
      this.byteAdresse := start;
      this.ausrichtung := RIGHT;
      this.art := art;
      this.validator := NumValidator;
      this.config := config;
      this.inhalt := new char[laenge](_ => ' ');
      new;
      ZahlRechts(Wert(), 0);
      var r := SetInhaltLong(0);
      assert ZeroPad(Digits(0), laenge) == Repeat('0', laenge) by {
        if laenge > 1 {
          RepeatPlus('0', laenge - 1, 1);
        }
      }
    }

    /** `AlphaNumFeld(bezeichner, length, start, alignment)`; `AlphaNumFeld(bezeichner, length, start)` passes LEFT. */
    constructor NeuesAlphaNumFeld(bezeichner: string, laenge: nat, start: Int32, ausrichtung: Align, global: Config)
      ensures Wert() == Leer(bezeichner, laenge, start, ausrichtung, AlphaNum, AlphaNumValidator, global)
      ensures fresh(inhalt)
    {
      this.bezeichner := bezeichner;
      this.byteAdresse := start;
      this.ausrichtung := ausrichtung;
      this.art := AlphaNum;
      this.validator := AlphaNumValidator;
      this.config := global;
      this.inhalt := new char[laenge](_ => ' ');
      new;
      assert inhalt[..] == Repeat(' ', laenge);
    }

    /** `StringBuilder.replace(start, start + |v|, v)`. */
    method Schreibe(start: nat, v: string)
      requires start + |v| <= inhalt.Length
      modifies inhalt
      ensures inhalt[..] == old(inhalt[..start]) + v + old(inhalt[start + |v|..])
    {
      var i := 0;
      while i < |v|
        invariant 0 <= i <= |v|
        invariant forall j :: 0 <= j < inhalt.Length ==>
          inhalt[j] == (if start <= j < start + i then v[j - start] else old(inhalt[j]))
      {
        inhalt[start + i] := v[i];
        i := i + 1;
      }
      assert inhalt[..] == old(inhalt[..start]) + v + old(inhalt[start + |v|..]);
    }

    /** `resetInhalt`: every byte becomes the fill character. */
    method ResetInhalt()
      modifies inhalt
      ensures Wert() == old(Wert()).(inhalt := Zurueckgesetzt(old(Wert())))
    {
      var c := Fuellzeichen(art);
      var i := 0;
      while i < inhalt.Length
        invariant 0 <= i <= inhalt.Length
        invariant forall j :: 0 <= j < i ==> inhalt[j] == c
      {
        inhalt[i] := c;
        i := i + 1;
      }
      assert inhalt[..] == Repeat(c, inhalt.Length);
    }

    /** `setInhalt(String)`. */
    method SetInhalt(s: string) returns (r: Ausgang)
      modifies inhalt
      ensures Wert() == old(Wert()).(inhalt := Gesetzt(old(Wert()), s).inhalt)
      ensures r == Gesetzt(old(Wert()), s).ausgang
    {
      var w := Wert();
      var p := Vorbereitet(w, s);
      if p.Err? {
        assert Gesetzt(w, s) == Ergebnis(Fehlschlag(p.error), w.inhalt);
        return Fehlschlag(p.error);
      }
      var v := p.value;
      var n := inhalt.Length;
      if |v| > n {
        assert Gesetzt(w, s) == Ergebnis(Fehlschlag(ZuLang(n)), w.inhalt);
        return Fehlschlag(ZuLang(n));
      }
      ResetInhalt();
      if ausrichtung == UNKNOWN {
        assert Gesetzt(w, s) == Ergebnis(Fehlschlag(NichtInitialisiert), Zurueckgesetzt(w));
        return Fehlschlag(NichtInitialisiert);
      }
      assert Gesetzt(w, s) == Ergebnis(Erfolg, Platziert(w, v));
      PlatziertZerlegt(w, v);
      if ausrichtung == LEFT {
        Schreibe(0, v);
      } else {
        Schreibe(n - |v|, v);
      }
      return Erfolg;
    }

    /** `setInhalt(char)`. */
    method SetInhaltZeichen(c: char) returns (r: Ausgang)
      modifies inhalt
      ensures Wert() == old(Wert()).(inhalt := GesetztZeichen(old(Wert()), c).inhalt)
      ensures r == GesetztZeichen(old(Wert()), c).ausgang
    {
      if art.IstNumerisch() {
        r := SetInhalt([c]);
        return;
      }
      ResetInhalt();
      if inhalt.Length == 0 {
        return Fehlschlag(IndexAusserhalb);
      }
      inhalt[0] := c;
      return Erfolg;
    }

    /** `setInhalt(long)`. */
    method SetInhaltLong(n: Int64) returns (r: Ausgang)
      modifies inhalt
      ensures Wert() == old(Wert()).(inhalt := GesetztLong(old(Wert()), n).inhalt)
      ensures r == GesetztLong(old(Wert()), n).ausgang
    {
      if art.IstNumerisch() {
        r := SetInhalt(NumFeld.Darstellung(n, inhalt.Length));
      } else {
        r := SetInhalt(LongToString(n));
      }
    }

    /** `setInhalt(int)`. */
    method SetInhaltInt(n: Int32) returns (r: Ausgang)
      modifies inhalt
      ensures Wert() == old(Wert()).(inhalt := GesetztInt(old(Wert()), n).inhalt)
      ensures r == GesetztInt(old(Wert()), n).ausgang
    {
      if art.Geldbetrag? {
        if n < 0 {
          return Fehlschlag(Zusicherung);
        }
        r := SetInhaltLong(Betrag.Cent(n));
      } else {
        r := SetInhaltLong(AlsLong(n));
      }
    }

    /** `setAnzahlBytes(n)`: a longer buffer holding the content followed by blanks. */
    method SetAnzahlBytes(n: int) returns (r: Ausgang)
      modifies this
      ensures Wert() == old(Wert()).(inhalt := MitAnzahlBytes(old(Wert()), n).inhalt)
      ensures r == MitAnzahlBytes(old(Wert()), n).ausgang
      ensures inhalt == old(inhalt) || fresh(inhalt)
    {
      if n < inhalt.Length {
        return Fehlschlag(Zusicherung);
      }
      var alt := inhalt;
      var puffer := new char[n];
      var i := 0;
      while i < n
        invariant 0 <= i <= n
        invariant forall j :: 0 <= j < i ==> puffer[j] == (if j < alt.Length then alt[j] else ' ')
      {
        puffer[i] := if i < alt.Length then alt[i] else ' ';
        i := i + 1;
      }
      assert puffer[..] == alt[..] + Repeat(' ', n - alt.Length);
      inhalt := puffer;
      return Erfolg;
    }
  }
}
