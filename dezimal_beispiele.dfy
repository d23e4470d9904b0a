/**
 * Worked examples of the `BigDecimal` reading behind `NumFeld.hasValue`:
 * what `new BigDecimal(s)` makes of a few contents, and which of them
 * count as a value.
 */
module DezimalBeispiele {
  import opened Ausnahmen
  import opened Zahlen
  import opened Zeichenketten
  import opened NumFeld

  /** The digits of "01.5" are worth 15, with one fraction digit. */
  lemma {:induction false} SignifikandBruch()
    ensures Signifikand("01.5") == Some((15, 1))
  {
    var s := "01.5";
    assert Stelle(s, '.', '.') == 2;
    assert s[..2] == "01" && s[3..] == "5";
    assert "01" + "5" == "015";
    assert Wert("015") == 15 by {
      assert "015"[..2] == "01";
      assert "01"[..1] == "0";
      assert "0"[..0] == "";
    }
  }

  /** "01.5" is the unscaled value 15 with scale 1. */
  lemma {:induction false} BeispielDezimalBruch()
    ensures ParseDezimal("01.5") == Some(Dezimal(15, 1))
  {
    var s := "01.5";
    assert Stelle(s, 'e', 'E') == 4 by { StelleFehlt(s, 'e', 'E'); }
    assert s[..4] == s;
    SignifikandBruch();
  }

  /** The digits of "00.0" are worth 0, with one fraction digit. */
  lemma {:induction false} SignifikandNull()
    ensures Signifikand("00.0") == Some((0, 1))
  {
    var s := "00.0";
    assert Stelle(s, '.', '.') == 2;
    assert s[..2] == "00" && s[3..] == "0";
    assert "00" + "0" == "000";
    assert Wert("000") == 0 by {
      assert "000"[..2] == "00";
      assert "00"[..1] == "0";
      assert "0"[..0] == "";
    }
  }

  /** "00.0" is zero with scale 1. */
  lemma {:induction false} BeispielDezimalNull()
    ensures ParseDezimal("00.0") == Some(Dezimal(0, 1))
  {
    var s := "00.0";
    assert Stelle(s, 'e', 'E') == 4 by { StelleFehlt(s, 'e', 'E'); }
    assert s[..4] == s;
    SignifikandNull();
  }

  /** "1.5e1" is 15 with scale 0: the exponent lowers the scale. */
  lemma {:induction false} BeispielDezimalExponent()
    ensures ParseDezimal("1.5e1") == Some(Dezimal(15, 0))
  {
    var s := "1.5e1";
    assert Stelle(s, 'e', 'E') == 3;
    assert s[..3] == "1.5" && s[4..] == "1";
    assert Stelle("1.5", '.', '.') == 1;
    assert "1.5"[..1] == "1" && "1.5"[2..] == "5";
    assert "1" + "5" == "15";
    assert Wert("15") == 15 by { assert "15"[..1] == "1"; assert "1"[..0] == ""; }
    ParseZiffern("1");
    assert Wert("1") == 1 by { assert "1"[..0] == ""; }
  }

  /** A second '.' makes the content no number. */
  lemma {:induction false} BeispielDezimalUngueltig()
    ensures ParseDezimal("1.5.0") == None
  {
    var s := "1.5.0";
    assert Stelle(s, 'e', 'E') == 5 by { StelleFehlt(s, 'e', 'E'); }
    assert s[..5] == s;
    assert Stelle(s, '.', '.') == 1;
    assert s[2..] == "5.0";
    assert !IstZiffer("5.0"[1]);
  }

  /** "01.5" has no blank to trim. */
  lemma {:induction false} TrimBruch()
    ensures Trim("01.5") == "01.5"
  {
    TrimOhneRand("01.5");
  }

  /** "00.0" has no blank to trim. */
  lemma {:induction false} TrimNull()
    ensures Trim("00.0") == "00.0"
  {
    TrimOhneRand("00.0");
  }

  /** "0000" has no blank to trim. */
  lemma {:induction false} TrimNullen()
    ensures Trim("0000") == "0000"
  {
    TrimOhneRand("0000");
  }

  /** "1.5.0" has no blank to trim. */
  lemma {:induction false} TrimUngueltig()
    ensures Trim("1.5.0") == "1.5.0"
  {
    TrimOhneRand("1.5.0");
  }

  /** "01.5" has a value. */
  lemma {:induction false} HatZahlwertBruch()
    ensures HatZahlwert("01.5", 0)
  {
    TrimBruch();
    BeispielDezimalBruch();
    HatZahlwertVon("01.5", 0, Dezimal(15, 1));
  }

  /** "00.0" has a value: the zero has scale 1 and so differs from `BigDecimal.ZERO`. */
  lemma {:induction false} HatZahlwertNull()
    ensures HatZahlwert("00.0", 0)
  {
    TrimNull();
    BeispielDezimalNull();
  }

  /** "0000" without decimal places has no value. */
  lemma {:induction false} HatZahlwertNullen()
    ensures !HatZahlwert("0000", 0)
  {
    TrimNullen();
    assert NurZiffern("0000");
    ParseZiffern("0000");
    assert Wert("0000") == 0 by {
      assert "0000"[..3] == "000";
      assert "000"[..2] == "00";
      assert "00"[..1] == "0";
      assert "0"[..0] == "";
    }
    HatZahlwertGanzzahl("0000", 0);
  }

  /** "1.5.0" is no number and so has no value. */
  lemma {:induction false} HatZahlwertUngueltig()
    ensures !HatZahlwert("1.5.0", 0)
  {
    TrimUngueltig();
    BeispielDezimalUngueltig();
  }
}
