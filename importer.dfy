/**
 * `Importer.readSatzTyp`: which discriminators are read from a record
 * line after its record kind (Satzart), and the record type key built
 * from them.
 *
 * The reader is replaced by the values its read operations would return
 * on the line at hand; the order in which they are read is part of the
 * result.
 */
module Importer {

  /** The discriminators that can be read from a line. */
  datatype Lesung = Sparte | Wagnisart | Satznummer | KrankenFolgeNr | BausparArt

  /**
   * The values the reads return on one line: `readSparte`, the code of
   * `readWagnisart`, `readSatznummer(…).toInt()`, `readKrankenFolgeNr`
   * and `readBausparenArt`.
   */
  datatype Zeile = Zeile(sparte: int, wagnisart: int, satznummer: int, krankenFolgeNr: int, bausparArt: int)
  {
    function Gelesen(l: Lesung): int
    {
      match l
      case Sparte => sparte
      case Wagnisart => wagnisart
      case Satznummer => satznummer
      case KrankenFolgeNr => krankenFolgeNr
      case BausparArt => bausparArt
    }
  }

  /** The outcome: the parts of the `SatzTyp` and the reads in the order they were made. */
  datatype Bestimmung = Bestimmung(satzTyp: seq<int>, lesungen: seq<Lesung>)

  /** `readSatzTyp(satzart)`, following the branches of the source. */
  function ReadSatzTyp(satzart: int, z: Zeile): (r: Bestimmung)
    ensures |r.satzTyp| >= 2 && r.satzTyp[..2] == [satzart, z.sparte]
    ensures |r.lesungen| >= 1 && r.lesungen[0] == Sparte
  {
    var sparte := z.sparte;
    if 210 <= satzart < 300 then
      if sparte == 10 && (satzart == 220 || satzart == 221) then
        Bestimmung([satzart, sparte, z.wagnisart, z.satznummer], [Sparte, Wagnisart, Satznummer])
      else if sparte == 20 && satzart == 220 then
        Bestimmung([satzart, sparte, z.krankenFolgeNr], [Sparte, KrankenFolgeNr])
      else if sparte == 580 && satzart == 220 then
        Bestimmung([satzart, sparte, z.bausparArt], [Sparte, BausparArt])
      else
        Bestimmung([satzart, sparte], [Sparte])
    else
      Bestimmung([satzart, sparte], [Sparte])
  }

  /** The reference table: the discriminators a record kind and branch need beyond the branch. */
  function Zusatzlesungen(satzart: int, sparte: int): seq<Lesung>
  {
    match (satzart, sparte)
    case (220, 10) => [Wagnisart, Satznummer]
    case (221, 10) => [Wagnisart, Satznummer]
    case (220, 20) => [KrankenFolgeNr]
    case (220, 580) => [BausparArt]
    case _ => []
  }

  /** The values read, in order. */
  function Werte(z: Zeile, ls: seq<Lesung>): (r: seq<int>)
    ensures |r| == |ls| && forall i :: 0 <= i < |ls| ==> r[i] == z.Gelesen(ls[i])
  {
    if ls == [] then [] else [z.Gelesen(ls[0])] + Werte(z, ls[1..])
  }

  /**
   * The branch is always read and then exactly the entries of the
   * reference table; the key is the record kind followed by the values
   * read, in the order they are read.
   */
  lemma {:induction false} ReadSatzTypTabelle(satzart: int, z: Zeile)
    ensures ReadSatzTyp(satzart, z).lesungen == [Sparte] + Zusatzlesungen(satzart, z.sparte)
    ensures ReadSatzTyp(satzart, z).satzTyp == [satzart] + Werte(z, ReadSatzTyp(satzart, z).lesungen)
  {
    var r := ReadSatzTyp(satzart, z);
    var w := Werte(z, r.lesungen);
    assert [satzart] + w == r.satzTyp by {
      assert |w| == |r.lesungen|;
      assert forall i :: 0 <= i < |w| ==> w[i] == z.Gelesen(r.lesungen[i]);
    }
  }

  /** Outside the record kinds 210 to 299 the key is the record kind and the branch. */
  lemma {:induction false} AusserhalbBereich(satzart: int, z: Zeile)
    requires !(210 <= satzart < 300)
    ensures ReadSatzTyp(satzart, z) == Bestimmung([satzart, z.sparte], [Sparte])
  {
  }

  /** 0220 and 0221 of branch 010 read the Wagnisart and then the sub-record number. */
  lemma {:induction false} LebenVierteilig(satzart: int, z: Zeile)
    requires (satzart == 220 || satzart == 221) && z.sparte == 10
    ensures ReadSatzTyp(satzart, z) == Bestimmung([satzart, 10, z.wagnisart, z.satznummer], [Sparte, Wagnisart, Satznummer])
  {
  }

  /** The key has four parts exactly for 0220 and 0221 of branch 010, and three exactly for 0220 of branches 020 and 580. */
  lemma {:induction false} Schluessellaenge(satzart: int, z: Zeile)
    ensures |ReadSatzTyp(satzart, z).satzTyp| == 4 <==> (satzart == 220 || satzart == 221) && z.sparte == 10
    ensures |ReadSatzTyp(satzart, z).satzTyp| == 3 <==> satzart == 220 && (z.sparte == 20 || z.sparte == 580)
    ensures |ReadSatzTyp(satzart, z).satzTyp| == 2 <==> |ReadSatzTyp(satzart, z).lesungen| == 1
  {
  }

  /** At most one extra path is taken: the extra reads are one of the three alternatives, or none. */
  lemma {:induction false} Exklusiv(satzart: int, z: Zeile)
    ensures var l := ReadSatzTyp(satzart, z).lesungen[1..];
      l == [] || l == [Wagnisart, Satznummer] || l == [KrankenFolgeNr] || l == [BausparArt]
    ensures ReadSatzTyp(satzart, z).lesungen[1..] == [KrankenFolgeNr] ==> z.sparte == 20
    ensures ReadSatzTyp(satzart, z).lesungen[1..] == [BausparArt] ==> z.sparte == 580
  {
    ReadSatzTypTabelle(satzart, z);
  }

  /** Two lines with the same branch and the same values read give the same key. */
  lemma {:induction false} NurGeleseneWerte(satzart: int, z1: Zeile, z2: Zeile)
    requires z1.sparte == z2.sparte
    requires forall l :: l in ReadSatzTyp(satzart, z1).lesungen ==> z1.Gelesen(l) == z2.Gelesen(l)
    ensures ReadSatzTyp(satzart, z1) == ReadSatzTyp(satzart, z2)
  {
    ReadSatzTypTabelle(satzart, z1);
    ReadSatzTypTabelle(satzart, z2);
    var ls := ReadSatzTyp(satzart, z1).lesungen;
    assert Werte(z1, ls) == Werte(z2, ls);
  }

  /** 0221 of branch 020 and 0230 of branch 010 need no extra read. */
  lemma {:induction false} BeispielZweiteilig(z: Zeile)
    ensures z.sparte == 20 ==> ReadSatzTyp(221, z).satzTyp == [221, 20]
    ensures z.sparte == 10 ==> ReadSatzTyp(230, z).satzTyp == [230, 10]
    ensures z.sparte == 580 ==> ReadSatzTyp(220, z).satzTyp == [220, 580, z.bausparArt]
  {
  }
}
