/**
 * The string operations of the Java and commons-lang libraries that the
 * field layer relies on: `String.trim`, `StringUtils.isBlank`,
 * `StringUtils.repeat`, `StringUtils.replaceChars`, `StringUtils.split`,
 * `String.toLowerCase` and the character test of `Feld.Validator`.
 */
module Zeichenketten {

  /** `Character.isWhitespace`: the Unicode space separators except the no-break spaces, and the controls 0x09-0x0D and 0x1C-0x1F. */
  predicate IstLeerraum(c: char)
  {
    ('\U{0009}' <= c <= '\U{000D}') || ('\U{001C}' <= c <= ' ')
    || c == '\U{1680}' || ('\U{2000}' <= c <= '\U{2006}') || ('\U{2008}' <= c <= '\U{200A}')
    || c == '\U{2028}' || c == '\U{2029}' || c == '\U{205F}' || c == '\U{3000}'
  }

  /** `StringUtils.isBlank` on a non-null string: empty or whitespace only. */
  predicate IsBlank(s: string)
  {
    forall i :: 0 <= i < |s| ==> IstLeerraum(s[i])
  }

  /** The characters `String.trim` removes: every code unit up to the space. */
  predicate Trimmbar(c: char)
  {
    c <= ' '
  }

  function TrimLinks(s: string): (r: string)
    ensures |r| <= |s| && r == s[|s| - |r|..]
    ensures |r| > 0 ==> !Trimmbar(r[0])
    ensures forall i :: 0 <= i < |s| - |r| ==> Trimmbar(s[i])
  {
    if |s| > 0 && Trimmbar(s[0]) then TrimLinks(s[1..]) else s
  }

  function TrimRechts(s: string): (r: string)
    ensures |r| <= |s| && r == s[..|r|]
    ensures |r| > 0 ==> !Trimmbar(r[|r| - 1])
    ensures forall i :: |r| <= i < |s| ==> Trimmbar(s[i])
  {
    if |s| > 0 && Trimmbar(s[|s| - 1]) then TrimRechts(s[..|s| - 1]) else s
  }

  /** `String.trim`: removes the characters up to ' ' at both ends. */
  function Trim(s: string): (r: string)
    ensures |r| <= |s|
    ensures |r| > 0 ==> !Trimmbar(r[0]) && !Trimmbar(r[|r| - 1])
    ensures |r| == 0 <==> forall i :: 0 <= i < |s| ==> Trimmbar(s[i])
  {
    TrimRechts(TrimLinks(s))
  }

  /** A string without trimmable characters at either end is its own trim. */
  lemma {:induction false} TrimOhneRand(s: string)
    requires |s| == 0 || (!Trimmbar(s[0]) && !Trimmbar(s[|s| - 1]))
    ensures Trim(s) == s
  {
    assert TrimLinks(s) == s;
    assert TrimRechts(s) == s;
  }

  /** `StringUtils.repeat(c, n)`. */
  function Repeat(c: char, n: nat): (r: string)
    ensures |r| == n
    ensures forall i :: 0 <= i < n ==> r[i] == c
  {
    if n == 0 then "" else Repeat(c, n - 1) + [c]
  }

  /** `StringUtils.replaceChars(s, von, nach)`: every `von` becomes `nach`. */
  function ReplaceChars(s: string, von: char, nach: char): (r: string)
    ensures |r| == |s|
    ensures forall i :: 0 <= i < |s| ==> r[i] == (if s[i] == von then nach else s[i])
  {
    if |s| == 0 then "" else ReplaceChars(s[..|s| - 1], von, nach) + [if s[|s| - 1] == von then nach else s[|s| - 1]]
  }

  /** `String.toLowerCase` restricted to the ASCII letters, as it acts in a locale without special casing rules; other characters are kept. */
  function KleinBuchstabe(c: char): (r: char)
    ensures 'A' <= c <= 'Z' ==> r as int == c as int + 32
    ensures !('A' <= c <= 'Z') ==> r == c
  {
    if 'A' <= c <= 'Z' then (c as int + 32) as char else c
  }

  function ToLower(s: string): (r: string)
    ensures |r| == |s|
    ensures forall i :: 0 <= i < |s| ==> r[i] == KleinBuchstabe(s[i])
  {
    if |s| == 0 then "" else ToLower(s[..|s| - 1]) + [KleinBuchstabe(s[|s| - 1])]
  }

  /** `StringUtils.isAsciiPrintable` of a single character: 32 to 126. */
  predicate AsciiDruckbar(c: char)
  {
    ' ' <= c <= '~'
  }

  /** The German umlauts and sharp s, which the umlaut replacement turns into printable ASCII. */
  predicate Umlaut(c: char)
  {
    c == '\U{00E4}' || c == '\U{00F6}' || c == '\U{00FC}' || c == '\U{00C4}' || c == '\U{00D6}' || c == '\U{00DC}' || c == '\U{00DF}'
  }

  /** The character test of lax validation: '§' explicitly, otherwise printable after umlaut replacement. */
  predicate ZeichenErlaubt(c: char)
  {
    c == '\U{00A7}' || AsciiDruckbar(c) || Umlaut(c)
  }

  predicate AlleErlaubt(s: string)
  {
    forall i :: 0 <= i < |s| ==> ZeichenErlaubt(s[i])
  }

  /** The first character that lax validation rejects. */
  function ErstesUngueltiges(s: string): (c: char)
    requires !AlleErlaubt(s)
    ensures !ZeichenErlaubt(c)
    ensures exists i :: 0 <= i < |s| && s[i] == c && AlleErlaubt(s[..i])
  {
    if !ZeichenErlaubt(s[0]) then
      assert AlleErlaubt(s[..0]);
      s[0]
    else
      assert !AlleErlaubt(s[1..]) by {
        var i :| 0 <= i < |s| && !ZeichenErlaubt(s[i]);
        assert s[1..][i - 1] == s[i];
      }
      var c := ErstesUngueltiges(s[1..]);
      assert exists i :: 0 <= i < |s| && s[i] == c && AlleErlaubt(s[..i]) by {
        var j :| 0 <= j < |s[1..]| && s[1..][j] == c && AlleErlaubt(s[1..][..j]);
        assert s[..j + 1] == [s[0]] + s[1..][..j];
        assert s[j + 1] == c;
      }
      c
  }

  /**
   * `StringUtils.split(s, sep)`: the maximal runs of characters other
   * than `sep`, in order; adjacent separators yield no empty parts.
   * `akt` is the part collected so far.
   */
  function SplitAb(s: string, sep: char, akt: string): (r: seq<string>)
    requires sep !in akt
    ensures forall k :: 0 <= k < |r| ==> |r[k]| > 0 && sep !in r[k]
    decreases |s|
  {
    if |s| == 0 then (if akt == "" then [] else [akt])
    else if s[0] == sep then (if akt == "" then SplitAb(s[1..], sep, "") else [akt] + SplitAb(s[1..], sep, ""))
    else SplitAb(s[1..], sep, akt + [s[0]])
  }

  function Split(s: string, sep: char): (r: seq<string>)
    ensures forall k :: 0 <= k < |r| ==> |r[k]| > 0 && sep !in r[k]
  {
    SplitAb(s, sep, "")
  }
}
