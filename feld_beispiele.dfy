/**
 * Worked examples of `setInhalt` on a numeric field: the value " 12" with
 * the `gdv.numfeld.fill-blanks` switch on and off.
 */
module FeldBeispiele {
  import opened Ausnahmen
  import opened Zeichenketten
  import opened Zahlen
  import opened Konfiguration
  import opened Validator
  import opened Feld

  /** " 12" trims to "12". */
  lemma {:induction false} ZwoelfGetrimmt()
    ensures Trim(" 12") == "12"
  {
    assert " 12"[1..] == "12";
    assert TrimLinks("12") == "12";
    assert TrimLinks(" 12") == "12";
    TrimOhneRand("12");
  }

  /** Every character of " 12" is allowed, and it is not blank. */
  lemma {:induction false} ZwoelfErlaubt()
    ensures AlleErlaubt(" 12") && !IsBlank(" 12")
  {
    assert ZeichenErlaubt(' ') && ZeichenErlaubt('1') && ZeichenErlaubt('2');
    assert !IstLeerraum(" 12"[1]);
  }

  /** "12" is a non-negative integer. */
  lemma {:induction false} ZwoelfZahl()
    ensures ParseInteger("12").Some? && ParseInteger("12").value >= 0
  {
    assert NurZiffern("12") by { assert IstZiffer("12"[0]) && IstZiffer("12"[1]); }
    ParseZiffern("12");
  }

  /** " 12" passes the numeric lax validator itself (`NumLax`) unchanged. */
  lemma {:induction false} ZwoelfNumLax()
    ensures NumLax(" 12") == Ok(" 12")
  {
    ZwoelfErlaubt();
    ZwoelfGetrimmt();
    ZwoelfZahl();
  }

  /** "lax" selects lax validation. */
  lemma {:induction false} ModusLax()
    ensures ModusVon("lax") == Lax
  {
    assert "lax"[0] == 'l' && "lax"[1] == 'a' && "lax"[2] == 'x';
    assert ToLower("lax") == "lax";
  }

  /** " 12" passes the mode dispatch `Validate` of the numeric validator under "lax" unchanged. */
  lemma {:induction false} ZwoelfLaxRoh()
    ensures Validate(NumValidator, " 12", "lax") == Ok(" 12")
  {
    ModusLax();
    ZwoelfNumLax();
    assert ValidateLax(NumValidator, " 12") == Ok(" 12");
  }

  /** "12" passes lax numeric validation unchanged. */
  lemma {:induction false} ZwoelfZiffernLax()
    ensures Validate(NumValidator, "12", "lax") == Ok("12")
  {
    ZiffernAkzeptiert(NumValidator, "12", "lax");
  }

  /** With fill-blanks on a numeric field stores the trimmed value: " 12" in three bytes becomes "012". */
  lemma {:induction false} FuellBlanksAn()
    ensures Gesetzt(FeldWert("x", 1, "000", RIGHT, Num(0), NumValidator, Config("lax", false, true)), " 12")
      == Ergebnis(Erfolg, "012")
  {
    var w := FeldWert("x", 1, "000", RIGHT, Num(0), NumValidator, Config("lax", false, true));
    ZwoelfLaxRoh();
    ZwoelfGetrimmt();
    ZwoelfZiffernLax();
    assert Pruefe(w, " 12") == Ok(" 12");
    assert Pruefe(w, "12") == Ok("12");
    assert VorbereitetNum(w, " 12") == Ok("12");
    assert Vorbereitet(w, " 12") == Ok("12");
    assert w.AnzahlBytes() == 3;
    GesetztPlatziert(w, " 12", "12");
    assert Fuellzeichen(w.art) == '0';
    assert Repeat('0', 1) == "0";
    assert Platziert(w, "12") == "0" + "12";
  }

  /** With fill-blanks off the same value is stored as given, blank included. */
  lemma {:induction false} FuellBlanksAus()
    ensures Gesetzt(FeldWert("x", 1, "000", RIGHT, Num(0), NumValidator, Config("lax", false, false)), " 12")
      == Ergebnis(Erfolg, " 12")
  {
    var w := FeldWert("x", 1, "000", RIGHT, Num(0), NumValidator, Config("lax", false, false));
    ZwoelfLaxRoh();
    assert Pruefe(w, " 12") == Ok(" 12");
    assert VorbereitetNum(w, " 12") == Ok(" 12");
    assert Vorbereitet(w, " 12") == Ok(" 12");
    assert w.AnzahlBytes() == 3;
    GesetztPlatziert(w, " 12", " 12");
    assert Repeat('0', 0) == "";
    assert Platziert(w, " 12") == " 12";
  }
}
