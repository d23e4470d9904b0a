/**
 * The value-level parts of `Betrag`: amounts are stored in hundredths,
 * `setInhalt(int)` multiplies by 100 and `toLong`/`toInt` divide by 100.
 */
module Betrag {
  import opened Ausnahmen
  import opened Zahlen
  import NumFeld

  /** Every amount field has two decimal places. */
  const NACHKOMMASTELLEN: int := 2

  /** The stored value of `setInhalt(int n)` as written: `n * 100` in `int` arithmetic. */
  function CentAlsInt(n: Int32): (r: Int32)
    ensures IstInt32(n * 100) ==> r == n * 100
  {
    Wrap32(n * 100)
  }

  /** The stored value of `setInhalt(int n)` as intended: `n * 100` as a `long`. */
  function Cent(n: Int32): (r: Int64)
    ensures JavaDiv(r, 100) == n
    ensures r >= 0 <==> n >= 0
  {
    assert IstInt32(n);
    n * 100
  }

  /** `Betrag.toLong`: the integer content divided by 100, rounded toward zero. */
  function ToLong(inhalt: string): (r: Result<Int64>)
    ensures r.Ok? <==> NumFeld.ToLong(inhalt).Ok?
    ensures r.Ok? && NumFeld.ToLong(inhalt).value >= 0 ==>
      r.value * 100 <= NumFeld.ToLong(inhalt).value < r.value * 100 + 100
    ensures r.Ok? && NumFeld.ToLong(inhalt).value < 0 ==>
      r.value * 100 - 100 < NumFeld.ToLong(inhalt).value <= r.value * 100
  {
    var v :- NumFeld.ToLong(inhalt);
    Ok(JavaDiv(v, 100))
  }

  /** `Betrag.toInt`: the `int` content divided by 100, rounded toward zero. */
  function ToInt(inhalt: string): (r: Result<Int32>)
    ensures r.Ok? <==> NumFeld.ToInt(inhalt).Ok?
    ensures r.Ok? && NumFeld.ToInt(inhalt).value >= 0 ==>
      r.value * 100 <= NumFeld.ToInt(inhalt).value < r.value * 100 + 100
    ensures r.Ok? && NumFeld.ToInt(inhalt).value < 0 ==>
      r.value * 100 - 100 < NumFeld.ToInt(inhalt).value <= r.value * 100
  {
    var v :- NumFeld.ToInt(inhalt);
    Ok(JavaDiv(v, 100))
  }

  /** Multiplying in `int` arithmetic turns 21474837 into a negative number. */
  lemma {:induction false} CentAlsIntUeberlauf()
    ensures CentAlsInt(21474837) == -2147483596
    ensures Cent(21474837) == 2147483700
  {
  }

  /** For every `int` the corrected multiplication and the `int` one agree exactly when the product fits an `int`. */
  lemma {:induction false} CentVergleich(n: Int32)
    ensures CentAlsInt(n) == Cent(n) <==> IstInt32(n * 100)
  {
  }
}
