/**
 * Java integer semantics used by the field layer: the `int` and `long`
 * ranges, `int` wrap-around, truncating division, decimal rendering
 * (`Long.toString`, `Formatter` "%0Nd") and the integer parsers
 * (`new BigInteger(s)`, `Long.parseLong`, `Integer.parseInt`).
 */
module Zahlen {
  import opened Ausnahmen
  import opened Zeichenketten

  const ZWEI_HOCH_32: int := 0x1_0000_0000
  const INT32_MIN: int := -0x8000_0000
  const INT32_MAX: int := 0x7FFF_FFFF
  const INT64_MIN: int := -0x8000_0000_0000_0000
  const INT64_MAX: int := 0x7FFF_FFFF_FFFF_FFFF

  predicate IstInt32(x: int) { INT32_MIN <= x <= INT32_MAX }
  predicate IstInt64(x: int) { INT64_MIN <= x <= INT64_MAX }

  /** A Java `int`. */
  type Int32 = x: int | IstInt32(x)
  /** A Java `long`. */
  type Int64 = x: int | IstInt64(x)

  /** The widening conversion from `int` to `long`. */
  function AlsLong(n: Int32): (r: Int64)
    ensures r == n
  {
    assert IstInt32(n);
    n
  }

  /** Java `int` arithmetic: the value congruent to `x` modulo 2^32 in the `int` range. */
  function Wrap32(x: int): (r: Int32)
    ensures (r - x) % ZWEI_HOCH_32 == 0
    ensures IstInt32(x) ==> r == x
  {
    var m := x % ZWEI_HOCH_32;
    if m > INT32_MAX then m - ZWEI_HOCH_32 else m
  }

  /** Two `int` values congruent modulo 2^32 are equal. */
  lemma {:induction false} Int32Eindeutig(a: Int32, b: Int32)
    requires (a - b) % ZWEI_HOCH_32 == 0
    ensures a == b
  {
    assert IstInt32(a) && IstInt32(b);
    var d: int := a - b;
    assert -ZWEI_HOCH_32 < d < ZWEI_HOCH_32;
  }

  /** Wrapping an intermediate sum does not change the wrapped total. */
  lemma {:induction false} Wrap32Summe(a: int, b: int)
    ensures Wrap32(Wrap32(a) + b) == Wrap32(a + b)
  {
    var x := Wrap32(a);
    assert (x - a) % ZWEI_HOCH_32 == 0;
    var k := (x - a) / ZWEI_HOCH_32;
    assert x == a + k * ZWEI_HOCH_32;
    var u := Wrap32(x + b);
    var v := Wrap32(a + b);
    assert (u - (x + b)) % ZWEI_HOCH_32 == 0;
    assert (v - (a + b)) % ZWEI_HOCH_32 == 0;
    assert u - v == (u - (x + b)) - (v - (a + b)) + k * ZWEI_HOCH_32;
    Int32Eindeutig(u, v);
  }

  /** Java `/` on a positive divisor: rounds toward zero. */
  function JavaDiv(a: int, b: int): (q: int)
    requires b > 0
    ensures a >= 0 ==> 0 <= a - q * b < b
    ensures a < 0 ==> -b < a - q * b <= 0
  {
    if a >= 0 then a / b else -((-a) / b)
  }

  predicate IstZiffer(c: char) { '0' <= c <= '9' }

  predicate NurZiffern(s: string)
  {
    forall i :: 0 <= i < |s| ==> IstZiffer(s[i])
  }

  function Ziffer(d: int): (c: char)
    requires 0 <= d < 10
    ensures IstZiffer(c) && c as int - '0' as int == d
  {
    ('0' as int + d) as char
  }

  /** The value of a string of decimal digits. */
  function Wert(s: string): (n: nat)
    requires NurZiffern(s)
  {
    if |s| == 0 then 0 else 10 * Wert(s[..|s| - 1]) + (s[|s| - 1] as int - '0' as int)
  }

  /** The decimal digits of `n`, without leading zeros. */
  function Digits(n: nat): (r: string)
    ensures |r| >= 1 && NurZiffern(r)
    ensures r[0] == '0' ==> n == 0 && r == "0"
    decreases n
  {
    if n < 10 then [Ziffer(n)] else Digits(n / 10) + [Ziffer(n % 10)]
  }

  /** `10` to the power `k`. */
  function Zehnerpotenz(k: nat): (p: nat)
    ensures p >= 1
  {
    if k == 0 then 1 else 10 * Zehnerpotenz(k - 1)
  }

  /** A number below `10^k` has at most `k` digits. */
  lemma {:induction false} DigitsKurz(n: nat, k: nat)
    requires k >= 1 && n < Zehnerpotenz(k)
    ensures |Digits(n)| <= k
    decreases k
  {
    if n >= 10 {
      assert k >= 2;
      assert n / 10 < Zehnerpotenz(k - 1);
      DigitsKurz(n / 10, k - 1);
    }
  }

  /** Reading the digits of `n` gives `n` back. */
  lemma {:induction false} WertDigits(n: nat)
    ensures Wert(Digits(n)) == n
    decreases n
  {
    if n >= 10 {
      WertDigits(n / 10);
      var d := Digits(n);
      assert d[..|d| - 1] == Digits(n / 10);
    }
  }

  /** Leading zeros do not change the value of a digit string. */
  lemma {:induction false} WertFuehrendeNullen(k: nat, s: string)
    requires NurZiffern(s)
    ensures NurZiffern(Repeat('0', k) + s)
    ensures Wert(Repeat('0', k) + s) == Wert(s)
    decreases |s|
  {
    var t := Repeat('0', k) + s;
    assert NurZiffern(t) by {
      forall i | 0 <= i < |t| ensures IstZiffer(t[i]) {
        if i < k { assert t[i] == '0'; } else { assert t[i] == s[i - k]; }
      }
    }
    if |s| == 0 {
      assert t == Repeat('0', k);
      NullenWertNull(k);
    } else {
      WertFuehrendeNullen(k, s[..|s| - 1]);
      assert t[..|t| - 1] == Repeat('0', k) + s[..|s| - 1];
    }
  }

  lemma {:induction false} NullenWertNull(k: nat)
    ensures NurZiffern(Repeat('0', k))
    ensures Wert(Repeat('0', k)) == 0
  {
    if k > 0 {
      NullenWertNull(k - 1);
      assert Repeat('0', k)[..k - 1] == Repeat('0', k - 1);
    }
  }

  /** Left-pads with '0' to at least `w` characters. */
  function ZeroPad(s: string, w: nat): (r: string)
    ensures |r| == (if |s| < w then w else |s|)
    ensures r[|r| - |s|..] == s
    ensures forall i :: 0 <= i < |r| - |s| ==> r[i] == '0'
  {
    if |s| < w then Repeat('0', w - |s|) + s else s
  }

  /** `Long.toString(n)`. */
  function LongToString(n: int): (r: string)
    ensures |r| >= 1
  {
    if n < 0 then "-" + Digits(-n) else Digits(n)
  }

  /** `Formatter` with "%0wd": zero padding to width `w`, the sign counted in the width. */
  function FormatD(n: int, w: nat): (r: string)
  {
    if n < 0 then "-" + ZeroPad(Digits(-n), if w >= 1 then w - 1 else 0) else ZeroPad(Digits(n), w)
  }

  /** The integer syntax of `new BigInteger(s)`: an optional '-' or '+' and at least one digit. */
  function ParseInteger(s: string): (r: Option<int>)
    ensures r.Some? <==> |s| >= 1 && NurZiffern(if s[0] == '-' || s[0] == '+' then s[1..] else s)
                               && (s[0] == '-' || s[0] == '+' ==> |s| >= 2)
    ensures r.Some? && (|s| == 0 || s[0] != '-') ==> r.value >= 0
  {
    if |s| == 0 then None
    else if s[0] == '-' || s[0] == '+' then
      if |s| >= 2 && NurZiffern(s[1..]) then
        var v: int := if s[0] == '-' then -(Wert(s[1..]) as int) else Wert(s[1..]);
        Some(v)
      else None
    else if NurZiffern(s) then Some(Wert(s))
    else None
  }

  /** `Long.parseLong(s)`: integer syntax within the `long` range. */
  function ParseLong(s: string): (r: Option<Int64>)
    ensures r.Some? <==> ParseInteger(s).Some? && IstInt64(ParseInteger(s).value)
    ensures r.Some? ==> r.value == ParseInteger(s).value
  {
    match ParseInteger(s)
    case Some(v) => if IstInt64(v) then Some(v) else None
    case None => None
  }

  /** `Integer.parseInt(s)`: integer syntax within the `int` range. */
  function ParseInt(s: string): (r: Option<Int32>)
    ensures r.Some? <==> ParseInteger(s).Some? && IstInt32(ParseInteger(s).value)
    ensures r.Some? ==> r.value == ParseInteger(s).value
  {
    match ParseInteger(s)
    case Some(v) => if IstInt32(v) then Some(v) else None
    case None => None
  }

  /** `Long.toString` and the integer parser are inverse. */
  lemma {:induction false} ParseLongToString(n: int)
    ensures ParseInteger(LongToString(n)) == Some(n)
  {
    var r := LongToString(n);
    if n < 0 {
      WertDigits(-n);
      assert r[0] == '-' && r[1..] == Digits(-n);
    } else {
      WertDigits(n);
      assert r == Digits(n);
      assert IstZiffer(r[0]);
    }
  }

  /** A non-empty digit string parses to its value. */
  lemma {:induction false} ParseZiffern(z: string)
    requires |z| >= 1 && NurZiffern(z)
    ensures ParseInteger(z) == Some(Wert(z))
  {
    assert IstZiffer(z[0]);
  }

  /** The zero-padded digits of `n` are digits of value `n`. */
  lemma {:induction false} ZeroPadWert(n: nat, w: nat)
    ensures NurZiffern(ZeroPad(Digits(n), w)) && Wert(ZeroPad(Digits(n), w)) == n
  {
    WertDigits(n);
    if |Digits(n)| < w {
      ZeroPadWertLang(Digits(n), w);
    }
  }

  /** Padding a digit string keeps it a digit string. */
  lemma {:induction false} ZeroPadZiffernLang(d: string, w: nat)
    requires NurZiffern(d) && |d| < w
    ensures NurZiffern(ZeroPad(d, w))
  {
    WertFuehrendeNullen(w - |d|, d);
  }

  /** Padding a digit string keeps its value. */
  lemma {:induction false} ZeroPadWertLang(d: string, w: nat)
    requires NurZiffern(d) && |d| < w
    ensures NurZiffern(ZeroPad(d, w)) && Wert(ZeroPad(d, w)) == Wert(d)
  {
    ZeroPadZiffernLang(d, w);
    WertFuehrendeNullen(w - |d|, d);
  }

  /** A zero-padded digit string parses to the padded number. */
  lemma {:induction false} ParseZeroPad(n: nat, w: nat)
    ensures NurZiffern(ZeroPad(Digits(n), w))
    ensures ParseInteger(ZeroPad(Digits(n), w)) == Some(n)
  {
    ZeroPadWert(n, w);
    ParseZiffern(ZeroPad(Digits(n), w));
  }

  /** A minus sign before a non-empty digit string parses to the negated value. */
  lemma {:induction false} ParseMinus(z: string)
    requires |z| >= 1 && NurZiffern(z)
    ensures ParseInteger("-" + z) == Some(0 - Wert(z))
  {
    assert ("-" + z)[1..] == z;
  }

  /** A minus sign before a zero-padded digit string parses to the negated number. */
  lemma {:induction false} ParseNegativ(k: nat, w: nat)
    ensures ParseInteger("-" + ZeroPad(Digits(k), w)) == Some(0 - k)
  {
    var z := ZeroPad(Digits(k), w);
    ParseZeroPad(k, w);
    assert IstZiffer(z[0]);
    ParseMinus(z);
  }
  /** A digit string holds no blank. */
  lemma {:induction false} ZiffernOhneLeerzeichen(z: string)
    requires NurZiffern(z)
    ensures ' ' !in z
  {
  }

  /** "%0wd" output reads back as the number it renders, holds no blank and is at least `w` characters long. */
  lemma {:induction false} FormatDRundreise(n: int, w: nat)
    ensures ParseInteger(FormatD(n, w)) == Some(n)
    ensures |FormatD(n, w)| >= w && ' ' !in FormatD(n, w)
  {
    if n < 0 {
      var m := if w >= 1 then w - 1 else 0;
      ParseNegativ(-n, m);
      ParseZeroPad(-n, m);
      ZiffernOhneLeerzeichen(ZeroPad(Digits(-n), m));
    } else {
      ParseZeroPad(n, w);
      ZiffernOhneLeerzeichen(ZeroPad(Digits(n), w));
    }
  }
}
