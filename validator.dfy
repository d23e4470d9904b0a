/**
 * The validators of the field classes: `Feld.Validator` and its
 * subclasses `NumFeld.Validator` and `AlphaNumFeld.Validator`.
 *
 * A validator either returns the (possibly trimmed) value or raises a
 * validation error. The configured mode picks no validation, the lax
 * check or the strict check; the subclasses override the lax and the
 * strict check.
 */
module Validator {
  import opened Ausnahmen
  import opened Zeichenketten
  import opened Zahlen

  /** The three validator classes. */
  datatype ValidatorArt = Basis | NumValidator | AlphaNumValidator

  datatype Modus = Aus | Lax | Strikt

  /** The mode named by the value of "gdv.feld.validate", compared in lower case. */
  function ModusVon(einstellung: string): (m: Modus)
    ensures m == Lax <==> ToLower(einstellung) in ["true", "on", "lax"]
    ensures m == Strikt <==> ToLower(einstellung) == "strict"
    ensures m == Aus <==> ToLower(einstellung) !in ["true", "on", "lax", "strict"]
  {
    var e := ToLower(einstellung);
    if e == "true" || e == "on" || e == "lax" then Lax
    else if e == "strict" then Strikt
    else Aus
  }

  /** `Feld.Validator.validateLax` on a non-null value: every character must pass `validateChar`. */
  function BasisLax(s: string): (r: Result<string>)
    ensures r.Ok? <==> AlleErlaubt(s)
    ensures r.Ok? ==> r.value == s
    ensures r.Err? ==> r.error.UngueltigesZeichen? && !ZeichenErlaubt(r.error.c) && r.error.c in s
  {
    if AlleErlaubt(s) then Ok(s) else Err(UngueltigesZeichen(ErstesUngueltiges(s)))
  }

  /** `NumFeld.Validator.validateLax`: the lax character check, then a blank value or a non-negative integer. */
  function NumLax(s: string): (r: Result<string>)
    ensures r.Ok? <==> AlleErlaubt(s) && (IsBlank(s) || (ParseInteger(Trim(s)).Some? && ParseInteger(Trim(s)).value >= 0))
    ensures r.Ok? ==> r.value == s
    ensures AlleErlaubt(s) && !IsBlank(s) && ParseInteger(Trim(s)).None? ==> r == Err(KeineZahl)
    ensures AlleErlaubt(s) && !IsBlank(s) && ParseInteger(Trim(s)).Some? && ParseInteger(Trim(s)).value < 0 ==> r == Err(Negativ)
  {
    var nummer :- BasisLax(s);
    if IsBlank(nummer) then Ok(nummer)
    else match ParseInteger(Trim(nummer))
      case None => Err(KeineZahl)
      case Some(n) => if n < 0 then Err(Negativ) else Ok(nummer)
  }

  /** `NumFeld.Validator.validateStrict`: no blank value and no surrounding blanks, then the lax check. */
  function NumStrikt(s: string): (r: Result<string>)
    ensures r.Ok? <==> Trim(s) == s && !IsBlank(s) && NumLax(s).Ok?
    ensures r.Ok? ==> r.value == s
    ensures Trim(s) != s || IsBlank(s) ==> r == Err(Leerzeichen)
  {
    if Trim(s) != s || IsBlank(s) then Err(Leerzeichen) else NumLax(s)
  }

  /** `AlphaNumFeld.Validator.validateStrict`: the lax check, then the trimmed value. */
  function AlphaNumStrikt(s: string): (r: Result<string>)
    ensures r.Ok? <==> AlleErlaubt(s)
    ensures r.Ok? ==> r.value == Trim(s)
  {
    var v :- BasisLax(s);
    Ok(Trim(v))
  }

  function ValidateLax(k: ValidatorArt, s: string): (r: Result<string>)
    ensures r.Ok? ==> r.value == s && AlleErlaubt(s)
  {
    if k == NumValidator then NumLax(s) else BasisLax(s)
  }

  /** The strict check of each class; the base class uses its lax check. */
  function ValidateStrikt(k: ValidatorArt, s: string): (r: Result<string>)
    ensures r.Ok? ==> AlleErlaubt(s) && (r.value == s || (k == AlphaNumValidator && r.value == Trim(s)))
  {
    match k
    case Basis => BasisLax(s)
    case NumValidator => NumStrikt(s)
    case AlphaNumValidator => AlphaNumStrikt(s)
  }

  /** `Feld.Validator.validate(value, config)` on a non-null value. */
  function Validate(k: ValidatorArt, s: string, einstellung: string): (r: Result<string>)
    ensures ModusVon(einstellung) == Aus ==> r == Ok(s)
    ensures r.Ok? ==> r.value == s || (k == AlphaNumValidator && ModusVon(einstellung) == Strikt && r.value == Trim(s))
    ensures r.Ok? ==> ModusVon(einstellung) == Aus || AlleErlaubt(s)
  {
    var m := ModusVon(einstellung);
    if m == Lax then ValidateLax(k, s)
    else if m == Strikt then ValidateStrikt(k, s)
    else Ok(s)
  }

  /**
   * `Feld.Validator.validate(value, config)` on a value that may be null:
   * the lax check rejects null, the numeric strict check dereferences it,
   * and with validation off null passes through.
   */
  function ValidateNullable(k: ValidatorArt, v: Option<string>, einstellung: string): (r: Result<Option<string>>)
    ensures v.None? ==> (r.Ok? <==> ModusVon(einstellung) == Aus)
    ensures v.Some? ==> (r.Ok? <==> Validate(k, v.value, einstellung).Ok?)
    ensures r.Ok? && v.Some? ==> r.value == Some(Validate(k, v.value, einstellung).value)
  {
    match v
    case Some(s) =>
      var w :- Validate(k, s, einstellung);
      Ok(Some(w))
    case None =>
      match ModusVon(einstellung)
      case Aus => Ok(None)
      case Lax => Err(NullWert)
      case Strikt => if k == NumValidator then Err(NullZeiger) else Err(NullWert)
  }

  /** A non-empty string of ASCII digits passes every validator in every mode unchanged. */
  lemma {:induction false} ZiffernAkzeptiert(k: ValidatorArt, s: string, einstellung: string)
    requires |s| >= 1 && NurZiffern(s)
    ensures Validate(k, s, einstellung) == Ok(s)
  {
    assert AlleErlaubt(s) by {
      forall i | 0 <= i < |s| ensures ZeichenErlaubt(s[i]) {
        assert IstZiffer(s[i]);
      }
    }
    assert !IstLeerraum(s[0]);
    TrimOhneRand(s);
    assert ParseInteger(s).Some?;
  }

  /** Lax validation accepts exactly the strings whose every character is allowed ('§' included), for the base class. */
  lemma {:induction false} BasisLaxGenau(s: string, einstellung: string)
    requires ModusVon(einstellung) == Lax
    ensures Validate(Basis, s, einstellung).Ok? <==> forall i :: 0 <= i < |s| ==> s[i] == '§' || ZeichenErlaubt(s[i])
  {
  }

  /** Numeric lax validation accepts blank values, as the source comments promise. */
  lemma {:induction false} NumLaxLeer(s: string)
    requires forall i :: 0 <= i < |s| ==> s[i] == ' '
    ensures NumLax(s) == Ok(s)
  {
    assert AlleErlaubt(s) by {
      forall i | 0 <= i < |s| ensures ZeichenErlaubt(s[i]) {
        assert s[i] == ' ';
      }
    }
  }

  /** "AA" is no number. */
  lemma {:induction false} BeispielKeineZahl()
    ensures NumLax("AA") == Err(KeineZahl)
  {
    assert AlleErlaubt("AA");
    assert ParseInteger("AA").None? by { assert !IstZiffer('A'); }
    assert Trim("AA") == "AA" by { TrimOhneRand("AA"); }
    assert !IsBlank("AA") by { assert !IstLeerraum('A'); }
  }

  /** "-1" is negative. */
  lemma {:induction false} BeispielNegativ()
    ensures NumLax("-1") == Err(Negativ)
  {
    assert AlleErlaubt("-1");
    assert Trim("-1") == "-1" by { TrimOhneRand("-1"); }
    assert !IsBlank("-1") by { assert !IstLeerraum('-'); }
    assert "-1"[1..] == "1";
    assert Wert("1") == 1;
  }

  /** A leading blank is refused by numeric strict validation. */
  lemma {:induction false} BeispielLeerzeichen()
    ensures NumStrikt(" 1") == Err(Leerzeichen)
  {
    assert TrimLinks(" 1") == "1";
  }

  /** '§' and the umlauts are allowed, a control character is not. */
  lemma {:induction false} BeispielZeichen()
    ensures BasisLax("\U{00A7}") == Ok("\U{00A7}")
    ensures BasisLax("\U{00E4}\U{00F6}\U{00FC}") == Ok("\U{00E4}\U{00F6}\U{00FC}")
    ensures BasisLax("a\U{0007}").Err?
  {
    assert !ZeichenErlaubt("a\U{0007}"[1]);
  }

  /** The mode names are compared ignoring case. */
  lemma {:induction false} BeispielModus()
    ensures ModusVon("ON") == Lax && ModusVon("Strict") == Strikt && ModusVon("false") == Aus
  {
    assert ToLower("ON") == "on";
    assert ToLower("Strict") == "strict";
    assert ToLower("false") == "false";
  }
}
