/**
 * The value-level parts of `NumFeld`: the left truncation with saturation,
 * the zero-pattern number rendering of `setInhalt(long)`, and reading the
 * content back with `toLong`, `toInt` and `hasValue`.
 */
module NumFeld {
  import opened Ausnahmen
  import opened Zeichenketten
  import opened Zahlen

  /** The largest number of integer digits `DecimalFormat` pads to. */
  const MAX_GANZZAHLSTELLEN: nat := 309

  /** Leading '0's removed while more than one character remains. */
  function OhneFuehrendeNullen(s: string): (r: string)
    ensures |r| <= |s| && r == s[|s| - |r|..]
    ensures forall i :: 0 <= i < |s| - |r| ==> s[i] == '0'
    ensures |s| >= 1 ==> |r| >= 1
    ensures |r| > 1 ==> r[0] != '0'
  {
    if |s| > 1 && s[0] == '0' then OhneFuehrendeNullen(s[1..]) else s
  }

  /** `NumFeld.truncate` for a field of `n` bytes. */
  function Kuerze(s: string, n: nat): string
  {
    if |s| > 1 && s[0] == '0' then Kuerze(s[1..], n)
    else if |s| > n then Repeat('9', n)
    else s
  }

  /**
   * Truncation strips the leading zeros and saturates to `n` nines when
   * the rest is still too long; the result never exceeds the field.
   */
  lemma {:induction false} KuerzeSaettigt(s: string, n: nat)
    ensures Kuerze(s, n) == (var t := OhneFuehrendeNullen(s); if |t| > n then Repeat('9', n) else t)
    ensures |Kuerze(s, n)| <= n
    decreases |s|
  {
    if |s| > 1 && s[0] == '0' {
      KuerzeSaettigt(s[1..], n);
    }
  }

  /** Stripping the zeros of a zero-padded number yields its digits. */
  lemma {:induction false} OhneNullenZeroPad(n: nat, w: nat)
    ensures OhneFuehrendeNullen(ZeroPad(Digits(n), w)) == Digits(n)
    decreases w
  {
    var d := Digits(n);
    var z := ZeroPad(d, w);
    if |d| < w {
      assert z[0] == '0';
      assert |z| > 1;
      assert z[1..] == ZeroPad(d, w - 1);
      OhneNullenZeroPad(n, w - 1);
    } else {
      assert z == d;
    }
  }

  /** A digit string is its stripped form behind the stripped zeros. */
  lemma {:induction false} NullenUndRest(c: string)
    ensures c == Repeat('0', |c| - |OhneFuehrendeNullen(c)|) + OhneFuehrendeNullen(c)
  {
    var t := OhneFuehrendeNullen(c);
    NullenPraefix(c, |c| - |t|);
  }

  /** A string that starts with `k` zeros is those zeros followed by the rest. */
  lemma {:induction false} NullenPraefix(s: string, k: nat)
    requires k <= |s| && forall i :: 0 <= i < k ==> s[i] == '0'
    ensures s == Repeat('0', k) + s[k..]
  {
    assert s[..k] == Repeat('0', k);
    assert s == s[..k] + s[k..];
  }

  /** The digits of a stripped digit string again form a number without leading zeros. */
  lemma {:induction false} OhneNullenZiffern(c: string)
    requires |c| >= 1 && NurZiffern(c)
    ensures NurZiffern(OhneFuehrendeNullen(c)) && |OhneFuehrendeNullen(c)| >= 1
  {
    var t := OhneFuehrendeNullen(c);
    forall i | 0 <= i < |t| ensures IstZiffer(t[i]) {
      assert t[i] == c[|c| - |t| + i];
    }
  }

  function Min(a: nat, b: nat): nat
  {
    if a < b then a else b
  }

  /** `new DecimalFormat("0...0").format(n)` with a pattern of `laenge` zeros. */
  function Darstellung(n: int, laenge: nat): string
  {
    var ziffern := ZeroPad(Digits(if n < 0 then -n else n), Min(laenge, MAX_GANZZAHLSTELLEN));
    if n < 0 then "-" + ziffern else ziffern
  }

  /** A minus sign before zero-padded digits needs no trimming and no '+' removed. */
  lemma {:induction false} OhnePlusNegativ(k: nat, w: nat)
    ensures OhnePlus("-" + ZeroPad(Digits(k), w)) == "-" + ZeroPad(Digits(k), w)
  {
    var z := ZeroPad(Digits(k), w);
    var t := "-" + z;
    assert t[0] == '-' && t[|t| - 1] == z[|z| - 1];
    assert IstZiffer(z[|z| - 1]);
    TrimOhneRand(t);
  }

  /** `toLong` reads a negative formatted number back. */
  lemma {:induction false} ToLongNegativ(k: nat, w: nat)
    requires k <= -INT64_MIN
    ensures ToLong("-" + ZeroPad(Digits(k), w)) == Ok(0 - k)
    ensures k <= -INT32_MIN ==> ToInt("-" + ZeroPad(Digits(k), w)) == Ok(0 - k)
  {
    OhnePlusNegativ(k, w);
    ParseNegativ(k, w);
  }

  /**
   * The zero pattern of `laenge` digits pads the magnitude to at least
   * `laenge` digits, but to no more than 309, and puts a minus sign in
   * front of a negative number.
   */
  lemma {:induction false} DarstellungLaenge(n: int, laenge: nat)
    ensures var k: nat := if n < 0 then 0 - n else n;
            var w := Min(laenge, MAX_GANZZAHLSTELLEN);
            |Darstellung(n, laenge)| == (if |Digits(k)| < w then w else |Digits(k)|) + (if n < 0 then 1 else 0)
  {
  }

  /** A negative number is formatted as a minus sign before its zero-padded magnitude. */
  lemma {:induction false} DarstellungNegativ(n: int, laenge: nat)
    requires n < 0
    ensures Darstellung(n, laenge) == "-" + ZeroPad(Digits(0 - n), Min(laenge, MAX_GANZZAHLSTELLEN))
  {
  }

  /** `toLong` and `toInt` read a formatted non-negative number back. */
  lemma {:induction false} DarstellungPositiv(n: nat, laenge: nat)
    requires n <= INT64_MAX
    ensures ToLong(Darstellung(n, laenge)) == Ok(n)
    ensures n <= INT32_MAX ==> ToInt(Darstellung(n, laenge)) == Ok(n)
  {
    ToLongZeroPad(n, Min(laenge, MAX_GANZZAHLSTELLEN));
  }

  /** `toLong` and `toInt` read a formatted negative number back. */
  lemma {:induction false} DarstellungNegativRundreise(n: int, laenge: nat)
    requires INT64_MIN <= n < 0
    ensures ToLong(Darstellung(n, laenge)) == Ok(n)
    ensures INT32_MIN <= n ==> ToInt(Darstellung(n, laenge)) == Ok(n)
  {
    DarstellungNegativ(n, laenge);
    ToLongNegativ(0 - n, Min(laenge, MAX_GANZZAHLSTELLEN));
  }

  /** `toLong`, and `toInt` within the `int` range, read the formatted number back. */
  lemma {:induction false} DarstellungRundreise(n: Int64, laenge: nat)
    ensures ToLong(Darstellung(n, laenge)) == Ok(n)
    ensures IstInt32(n) ==> ToInt(Darstellung(n, laenge)) == Ok(n)
  {
    assert IstInt64(n);
    if n >= 0 {
      DarstellungPositiv(n, laenge);
    } else {
      DarstellungNegativRundreise(n, laenge);
    }
  }

  /** The content as `toLong` parses it: trimmed, one leading '+' removed. */
  function OhnePlus(inhalt: string): string
  {
    var s := Trim(inhalt);
    if |s| > 0 && s[0] == '+' then s[1..] else s
  }

  /** `NumFeld.toLong`. */
  function ToLong(inhalt: string): (r: Result<Int64>)
    ensures r.Ok? <==> ParseLong(OhnePlus(inhalt)).Some?
    ensures r.Err? ==> r.error == KeineZahl
  {
    match ParseLong(OhnePlus(inhalt))
    case Some(v) => Ok(v)
    case None => Err(KeineZahl)
  }

  /** `NumFeld.toInt`. */
  function ToInt(inhalt: string): (r: Result<Int32>)
    ensures r.Ok? <==> ParseInt(OhnePlus(inhalt)).Some?
    ensures r.Err? ==> r.error == KeineZahl
  {
    match ParseInt(OhnePlus(inhalt))
    case Some(v) => Ok(v)
    case None => Err(KeineZahl)
  }

  /** A `BigDecimal` as its unscaled value and its scale: the number `unskaliert * 10^-skala`. */
  datatype Dezimal = Dezimal(unskaliert: int, skala: int)

  /** `BigDecimal.ZERO`. */
  const NULL: Dezimal := Dezimal(0, 0)

  /** The position of the first `c1` or `c2` in `s`, or `|s|` when there is none. */
  function Stelle(s: string, c1: char, c2: char): (k: nat)
    ensures k <= |s|
    ensures forall i :: 0 <= i < k ==> s[i] != c1 && s[i] != c2
    ensures k < |s| ==> s[k] == c1 || s[k] == c2
  {
    if |s| == 0 then 0
    else if s[0] == c1 || s[0] == c2 then 0
    else 1 + Stelle(s[1..], c1, c2)
  }

  /** The significand of the `BigDecimal` syntax: digits with at most one '.', at least one digit; the digits' value and the number of fraction digits. */
  function Signifikand(m: string): (r: Option<(nat, nat)>)
    ensures r.Some? ==> r.value.1 <= |m|
  {
    var p := Stelle(m, '.', '.');
    var ganz := m[..p];
    var bruch := if p < |m| then m[p + 1..] else "";
    if NurZiffern(ganz) && NurZiffern(bruch) && |ganz| + |bruch| >= 1 then
      assert NurZiffern(ganz + bruch) by {
        forall i | 0 <= i < |ganz + bruch| ensures IstZiffer((ganz + bruch)[i]) {
          if i >= |ganz| { assert (ganz + bruch)[i] == bruch[i - |ganz|]; }
        }
      }
      Some((Wert(ganz + bruch), |bruch|))
    else None
  }

  /**
   * `new BigDecimal(s)`: an optional sign, the significand and an optional
   * exponent `e` or `E` with an optional sign; the scale is the number of
   * fraction digits minus the exponent.
   */
  function ParseDezimal(s: string): Option<Dezimal>
  {
    var negativ := |s| > 0 && s[0] == '-';
    var rest := if |s| > 0 && (s[0] == '-' || s[0] == '+') then s[1..] else s;
    var k := Stelle(rest, 'e', 'E');
    match Signifikand(rest[..k])
    case None => None
    case Some(sig) =>
      var unskaliert := if negativ then -(sig.0 as int) else sig.0;
      if k == |rest| then Some(Dezimal(unskaliert, sig.1))
      else match ParseInteger(rest[k + 1..])
        case None => None
        case Some(e) => Some(Dezimal(unskaliert, sig.1 - e))
  }

  /** `movePointLeft(n)`: the value times 10^-n, with scale `max(skala + n, 0)`. */
  function PunktNachLinks(d: Dezimal, n: int): (r: Dezimal)
    ensures r.skala >= 0
    ensures r.unskaliert == 0 <==> d.unskaliert == 0
    ensures d.skala + n >= 0 ==> r.skala == d.skala + n && r.unskaliert == d.unskaliert
  {
    if d.skala + n >= 0 then Dezimal(d.unskaliert, d.skala + n)
    else Dezimal(d.unskaliert * Zehnerpotenz(-(d.skala + n)), 0)
  }

  /**
   * The numeric part of `NumFeld.hasValue`: `toBigDecimal` must parse the
   * trimmed content, and the result of moving the point left by the
   * number of decimal places must differ from `BigDecimal.ZERO`.
   * `BigDecimal.equals` compares the scale as well, so a zero whose
   * resulting scale is positive counts as a value.
   */
  function HatZahlwert(inhalt: string, nachkommastellen: int): (b: bool)
    ensures b ==> ParseDezimal(Trim(inhalt)).Some?
    ensures ParseDezimal(Trim(inhalt)).Some? && ParseDezimal(Trim(inhalt)).value.unskaliert != 0 ==> b
    ensures ParseDezimal(Trim(inhalt)).Some? && ParseDezimal(Trim(inhalt)).value.unskaliert == 0 ==>
      (b <==> ParseDezimal(Trim(inhalt)).value.skala + nachkommastellen > 0)
  {
    match ParseDezimal(Trim(inhalt))
    case None => false
    case Some(d) => PunktNachLinks(d, nachkommastellen) != NULL
  }

  /** An integer in the `BigInteger` syntax is a `BigDecimal` of that value with scale 0. */
  lemma {:induction false} DezimalGanzzahl(t: string)
    requires ParseInteger(t).Some?
    ensures ParseDezimal(t) == Some(Dezimal(ParseInteger(t).value, 0))
  {
    var rest := if t[0] == '-' || t[0] == '+' then t[1..] else t;
    assert NurZiffern(rest);
    assert forall i :: 0 <= i < |rest| ==> rest[i] != 'e' && rest[i] != 'E' && rest[i] != '.' by {
      forall i | 0 <= i < |rest| ensures rest[i] != 'e' && rest[i] != 'E' && rest[i] != '.' {
        assert IstZiffer(rest[i]);
      }
    }
    StelleFehlt(rest, 'e', 'E');
    StelleFehlt(rest, '.', '.');
    assert rest[..|rest|] == rest;
    assert rest + "" == rest;
  }

  /** Without `c1` and `c2` in `s` their position is the end of `s`. */
  lemma {:induction false} StelleFehlt(s: string, c1: char, c2: char)
    requires forall i :: 0 <= i < |s| ==> s[i] != c1 && s[i] != c2
    ensures Stelle(s, c1, c2) == |s|
  {
  }

  /** For integer content `hasValue`'s numeric part holds iff the number is not zero or there are decimal places. */
  lemma {:induction false} HatZahlwertGanzzahl(inhalt: string, nachkommastellen: int)
    requires ParseInteger(Trim(inhalt)).Some?
    ensures HatZahlwert(inhalt, nachkommastellen) <==> ParseInteger(Trim(inhalt)).value != 0 || nachkommastellen > 0
  {
    DezimalGanzzahl(Trim(inhalt));
  }

  /** A content whose trimmed form is a non-zero decimal has a value. */
  lemma {:induction false} HatZahlwertVon(inhalt: string, nachkommastellen: int, d: Dezimal)
    requires ParseDezimal(Trim(inhalt)) == Some(d) && d.unskaliert != 0
    ensures HatZahlwert(inhalt, nachkommastellen)
  {
  }

  /** A non-empty digit string is its own content as `toLong` reads it. */
  lemma {:induction false} OhnePlusZiffern(z: string)
    requires |z| >= 1 && NurZiffern(z)
    ensures OhnePlus(z) == z
  {
    assert IstZiffer(z[0]) && IstZiffer(z[|z| - 1]);
    TrimOhneRand(z);
  }

  /** A non-empty digit string reads back as its value where that fits. */
  lemma {:induction false} ToLongZiffern(z: string)
    requires |z| >= 1 && NurZiffern(z) && Wert(z) <= INT64_MAX
    ensures ToLong(z) == Ok(Wert(z))
    ensures Wert(z) <= INT32_MAX ==> ToInt(z) == Ok(Wert(z))
  {
    OhnePlusZiffern(z);
    ParseZiffern(z);
  }

  /** Any zero-padded rendering of a `long` value reads back as that value. */
  lemma {:induction false} ToLongZeroPad(n: nat, w: nat)
    requires n <= INT64_MAX
    ensures ToLong(ZeroPad(Digits(n), w)) == Ok(n)
    ensures n <= INT32_MAX ==> ToInt(ZeroPad(Digits(n), w)) == Ok(n)
  {
    ZeroPadWert(n, w);
    ToLongZiffern(ZeroPad(Digits(n), w));
  }

  /** "100000" and "123000" saturate to "99999" in 5 bytes, "00099" becomes "99". */
  lemma {:induction false} BeispielKuerze()
    ensures Kuerze("100000", 5) == "99999"
    ensures Kuerze("123000", 5) == "99999"
    ensures Kuerze("00099", 5) == "99"
    ensures Kuerze("99999", 5) == "99999"
  {
    assert Repeat('9', 5) == "99999";
  }
}
