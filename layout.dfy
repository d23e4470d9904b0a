/**
 * The constant field layouts of the deprecated enum tables: each entry
 * gives a field's number, class, length and 1-based byte address, as the
 * `@FeldInfo` annotation of its enum constant does.
 */
module Layout {
  import opened Ausnahmen
  import opened Zahlen
  import opened Feld
  import opened Konfiguration

  /** The field class named in `@FeldInfo(type = …)`. */
  datatype Typ = AlphaNumTyp | ZeichenTyp | NumTyp | BetragTyp | DatumTyp

  /** A field length in a table: every entry has at least one byte. */
  type Laenge = n: nat | n >= 1 witness 1

  /** One `@FeldInfo` entry; `wert` is the fixed `value`, if any. */
  datatype Eintrag = Eintrag(name: string, nr: nat, typ: Typ, anzahlBytes: Laenge, byteAdresse: Int32, wert: Option<string>)
  {
    /** The last byte of the entry. */
    function Ende(): int { byteAdresse + anzahlBytes - 1 }
  }

  /** Every entry starts on the byte after the end of the entry before it. */
  predicate Lueckenlos(t: seq<Eintrag>)
  {
    forall i :: 0 <= i < |t| - 1 ==> t[i].byteAdresse + t[i].anzahlBytes == t[i + 1].byteAdresse
  }

  /** The table covers the bytes `von` to `bis` without gaps. */
  predicate Kachelt(t: seq<Eintrag>, von: int, bis: int)
  {
    |t| >= 1 && Lueckenlos(t) && t[0].byteAdresse == von && t[|t| - 1].Ende() == bis
  }

  /** Two gap-free tables, the second starting right behind the first, form one gap-free table. */
  lemma {:induction false} Verkettet(a: seq<Eintrag>, b: seq<Eintrag>, von: int, mitte: int, bis: int)
    requires Kachelt(a, von, mitte) && Kachelt(b, mitte + 1, bis)
    ensures Kachelt(a + b, von, bis)
  {
    var t := a + b;
    forall i | 0 <= i < |t| - 1
      ensures t[i].byteAdresse + t[i].anzahlBytes == t[i + 1].byteAdresse
    {
      if i < |a| - 1 {
        assert t[i] == a[i] && t[i + 1] == a[i + 1];
      } else if i == |a| - 1 {
        assert t[i] == a[|a| - 1] && t[i + 1] == b[0];
      } else {
        assert t[i] == b[i - |a|] && t[i + 1] == b[i - |a| + 1];
      }
    }
    assert t[|t| - 1] == b[|b| - 1];
  }

  /** Every entry of class `typ` is `n` bytes long. */
  predicate LaengeJeTyp(t: seq<Eintrag>, typ: Typ, n: nat)
  {
    forall i :: 0 <= i < |t| && t[i].typ == typ ==> t[i].anzahlBytes == n
  }

  /** The lengths per class carry over to the concatenation of two tables. */
  lemma {:induction false} LaengeVerkettet(a: seq<Eintrag>, b: seq<Eintrag>, typ: Typ, n: nat)
    requires LaengeJeTyp(a, typ, n) && LaengeJeTyp(b, typ, n)
    ensures LaengeJeTyp(a + b, typ, n)
  {
    forall i | 0 <= i < |a + b| && (a + b)[i].typ == typ
      ensures (a + b)[i].anzahlBytes == n
    {
      if i >= |a| {
        assert (a + b)[i] == b[i - |a|];
      }
    }
  }

  /** A field laid out as the entry says. */
  predicate Belegt(f: FeldWert, e: Eintrag)
  {
    f.byteAdresse == e.byteAdresse && f.AnzahlBytes() == e.anzahlBytes
  }

  /** In a table without gaps every later entry starts behind the end of every earlier one. */
  lemma {:induction false} Dahinter(t: seq<Eintrag>, i: nat, j: nat)
    requires Lueckenlos(t) && i < j < |t|
    ensures t[i].byteAdresse + t[i].anzahlBytes <= t[j].byteAdresse
    decreases j
  {
    if i < j - 1 {
      Dahinter(t, i, j - 1);
    }
  }

  /** Fields laid out by two different entries of a table without gaps do not overlap. */
  lemma {:induction false} KeineUeberlappung(t: seq<Eintrag>, i: nat, j: nat, a: FeldWert, b: FeldWert)
    requires Lueckenlos(t) && i < |t| && j < |t| && i != j
    requires Belegt(a, t[i]) && Belegt(b, t[j])
    ensures !a.OverlapsWith(b) && !b.OverlapsWith(a)
  {
    if i < j {
      Dahinter(t, i, j);
    } else {
      Dahinter(t, j, i);
    }
  }

  /** Every entry of a table that covers `von` to `bis` lies within those bytes. */
  lemma {:induction false} Innerhalb(t: seq<Eintrag>, von: int, bis: int, i: nat)
    requires Kachelt(t, von, bis) && i < |t|
    ensures von <= t[i].byteAdresse && t[i].Ende() <= bis
  {
    if 0 < i {
      Dahinter(t, 0, i);
    }
    if i < |t| - 1 {
      Dahinter(t, i, |t| - 1);
    }
  }

  /**
   * A field laid out by an entry of a table that covers part of the
   * 256-byte line from byte 1 on has neither the address nor the end
   * address violation.
   */
  lemma {:induction false} AdressenGueltig(t: seq<Eintrag>, von: int, bis: int, i: nat, f: FeldWert, c: Config)
    requires Kachelt(t, von, bis) && 1 <= von && bis <= MAX_ADRESSE && i < |t|
    requires Belegt(f, t[i])
    ensures AdresseZuKlein !in f.Verstoesse(c) && EndadresseUeberschritten !in f.Verstoesse(c)
  {
    Innerhalb(t, von, bis, i);
  }
}

/** `Feld220Wagnis5Wertungssummen`: sub-record 1 of record kind 0220, branch 010, Wagnisart 5. */
module Wagnis5 {
  import opened Ausnahmen
  import opened Konfiguration
  import opened Feld
  import opened Layout

  /** Fields 8 to 13. */
  const TEIL1: seq<Eintrag> := [
    Eintrag("LFD_NUMMER_VP_PERSONENGRUPPE", 8, AlphaNumTyp, 17, 43, None),
    Eintrag("WAGNISART", 9, ZeichenTyp, 1, 60, Some("5")),
    Eintrag("LFD_NUMMER_ZUR_WAGNISART", 10, ZeichenTyp, 1, 61, None),
    Eintrag("LFD_NUMMER_SATZART", 11, AlphaNumTyp, 2, 62, None),
    Eintrag("PROVISIONSPFLICHTIGE_BEITRAGSSUMME_IN_WAEHRUNGSEINHEITEN", 12, BetragTyp, 12, 64, None),
    Eintrag("PROVISIONSPFLICHTIGE_WERTUNGSSUMME_IN_WAEHRUNGSEINHEITEN", 13, BetragTyp, 12, 76, None)
  ]

  /** Fields 14 to 19. */
  const TEIL2: seq<Eintrag> := [
    Eintrag("WERTUNGSBASIS", 14, ZeichenTyp, 1, 88, None),
    Eintrag("WERTUNGSMODELL", 15, AlphaNumTyp, 2, 89, None),
    Eintrag("BUCHUNGSKENNZEICHEN", 16, AlphaNumTyp, 2, 91, None),
    Eintrag("HAFTUNGSWERTUNGSSUMME_IN_WAEHRUNGSEINHEITEN", 17, BetragTyp, 12, 93, None),
    Eintrag("HAFTUNG_AB", 18, DatumTyp, 8, 105, None),
    Eintrag("HAFTUNG_BIS", 19, DatumTyp, 8, 113, None)
  ]

  /** Fields 20 to 25. */
  const TEIL3: seq<Eintrag> := [
    Eintrag("URSPRUENGLICHES_HAFTUNGSBEGINNDAT", 20, DatumTyp, 8, 121, None),
    Eintrag("PROVISIONSPFLICHTIGE_BEITRAGSSUMME_IN_WAEHRUNGSEINHEITEN2", 21, BetragTyp, 12, 129, None),
    Eintrag("PROVISIONSPFLICHTIGE_WERTUNGSSUMME_IN_WAEHRUNGSEINHEITEN2", 22, BetragTyp, 12, 141, None),
    Eintrag("WERTUNGSBASIS2", 23, ZeichenTyp, 1, 153, None),
    Eintrag("WERTUNGSMODELL2", 24, AlphaNumTyp, 2, 154, None),
    Eintrag("BUCHUNGSKENNZEICHEN2", 25, AlphaNumTyp, 2, 156, None)
  ]

  /** Fields 26 to 29. */
  const TEIL4: seq<Eintrag> := [
    Eintrag("HAFTUNGSWERTUNGSSUMME_IN_WAEHRUNGSEINHEITEN2", 26, BetragTyp, 12, 158, None),
    Eintrag("HAFTUNG_AB2", 27, DatumTyp, 8, 170, None),
    Eintrag("HAFTUNG_BIS2", 28, DatumTyp, 8, 178, None),
    Eintrag("LEERSTELLEN", 29, AlphaNumTyp, 70, 186, None)
  ]

  /** The specific fields of sub-record 1, in the order of the enum. */
  const FELDER: seq<Eintrag> := TEIL1 + TEIL2 + TEIL3 + TEIL4

  /** Part 1 covers bytes 43 to 87 without gaps. */
  lemma {:induction false} Teil1()
    ensures Kachelt(TEIL1, 43, 87)
  {
  }

  /** Part 2 covers bytes 88 to 120 without gaps. */
  lemma {:induction false} Teil2()
    ensures Kachelt(TEIL2, 88, 120)
  {
  }

  /** Part 3 covers bytes 121 to 157 without gaps. */
  lemma {:induction false} Teil3()
    ensures Kachelt(TEIL3, 121, 157)
  {
  }

  /** Part 4 covers bytes 158 to 255 without gaps. */
  lemma {:induction false} Teil4()
    ensures Kachelt(TEIL4, 158, 255)
  {
  }

  /** The entries follow each other without gaps from byte 43, after the shared fields 1 to 7, to byte 255. */
  lemma {:induction false} Lueckenlos5()
    ensures Kachelt(FELDER, 43, 255)
  {
    Teil1(); Teil2(); Teil3(); Teil4();
    Verkettet(TEIL1, TEIL2, 43, 87, 120);
    Verkettet(TEIL1 + TEIL2, TEIL3, 43, 120, 157);
    Verkettet(TEIL1 + TEIL2 + TEIL3, TEIL4, 43, 157, 255);
  }
  /** Every amount field of the table is 12 bytes long, every `Zeichen` field one byte. */
  lemma {:induction false} Laengen5()
    ensures LaengeJeTyp(FELDER, BetragTyp, 12) && LaengeJeTyp(FELDER, ZeichenTyp, 1)
  {
    assert LaengeJeTyp(TEIL1, BetragTyp, 12) && LaengeJeTyp(TEIL1, ZeichenTyp, 1);
    assert LaengeJeTyp(TEIL2, BetragTyp, 12) && LaengeJeTyp(TEIL2, ZeichenTyp, 1);
    assert LaengeJeTyp(TEIL3, BetragTyp, 12) && LaengeJeTyp(TEIL3, ZeichenTyp, 1);
    assert LaengeJeTyp(TEIL4, BetragTyp, 12) && LaengeJeTyp(TEIL4, ZeichenTyp, 1);
    LaengeVerkettet(TEIL1, TEIL2, BetragTyp, 12);
    LaengeVerkettet(TEIL1 + TEIL2, TEIL3, BetragTyp, 12);
    LaengeVerkettet(TEIL1 + TEIL2 + TEIL3, TEIL4, BetragTyp, 12);
    LaengeVerkettet(TEIL1, TEIL2, ZeichenTyp, 1);
    LaengeVerkettet(TEIL1 + TEIL2, TEIL3, ZeichenTyp, 1);
    LaengeVerkettet(TEIL1 + TEIL2 + TEIL3, TEIL4, ZeichenTyp, 1);
  }

  /** The Wagnisart field is the one byte at 60 with the fixed value "5"; `LEERSTELLEN` is 70 bytes at 186. */
  lemma {:induction false} Einzelfelder5()
    ensures |FELDER| == 22
    ensures FELDER[1].name == "WAGNISART" && FELDER[1].anzahlBytes == 1 && FELDER[1].byteAdresse == 60 && FELDER[1].wert == Some("5")
    ensures FELDER[21].name == "LEERSTELLEN" && FELDER[21].anzahlBytes == 70 && FELDER[21].byteAdresse == 186 && FELDER[21].Ende() == 255
  {
    assert FELDER[1] == TEIL1[1];
    assert FELDER[21] == TEIL4[3];
  }

  /** Fields laid out by two different entries of the table never overlap. */
  lemma {:induction false} KeineUeberlappung5(i: nat, j: nat, a: FeldWert, b: FeldWert)
    requires i < |FELDER| && j < |FELDER| && i != j
    requires Belegt(a, FELDER[i]) && Belegt(b, FELDER[j])
    ensures !a.OverlapsWith(b) && !b.OverlapsWith(a)
  {
    Lueckenlos5();
    KeineUeberlappung(FELDER, i, j, a, b);
  }

  /** A field laid out by an entry of the table passes the address and end address checks of `validate`. */
  lemma {:induction false} AdressenGueltig5(i: nat, f: FeldWert, c: Config)
    requires i < |FELDER| && Belegt(f, FELDER[i])
    ensures AdresseZuKlein !in f.Verstoesse(c) && EndadresseUeberschritten !in f.Verstoesse(c)
  {
    Lueckenlos5();
    AdressenGueltig(FELDER, 43, 255, i, f, c);
  }
}

/** `Feld220Wagnis9Auszahlungen`: sub-record 1 of record kind 0220, branch 010, Wagnisart 9. */
module Wagnis9 {
  import opened Ausnahmen
  import opened Konfiguration
  import opened Feld
  import opened Layout

  /** Fields 8 to 12. */
  const TEIL1: seq<Eintrag> := [
    Eintrag("LFD_NUMMER_VP_PERSONENGRUPPE", 8, AlphaNumTyp, 17, 43, None),
    Eintrag("WAGNISART", 9, ZeichenTyp, 1, 60, Some("9")),
    Eintrag("LFD_NUMMER_ZUR_WAGNISART", 10, ZeichenTyp, 1, 61, None),
    Eintrag("LFD_NUMMER_SATZART", 11, AlphaNumTyp, 2, 62, None),
    Eintrag("NAECHSTE_AUSZAHLUNGSSUMME_IN_WAEHRUNGSEINHEITEN", 12, NumTyp, 9, 64, None)
  ]

  /** Fields 13 to 16. */
  const TEIL2: seq<Eintrag> := [
    Eintrag("NAECHSTER_AUSZAHLUNGSTERMIN", 13, DatumTyp, 8, 73, None),
    Eintrag("AUSZAHLUNGSWEISE", 14, NumTyp, 3, 81, None),
    Eintrag("ANZAHL_DER_AUSZAHLUNGEN", 15, NumTyp, 2, 84, None),
    Eintrag("LEERSTELLEN", 16, AlphaNumTyp, 170, 86, None)
  ]

  /** The specific fields of sub-record 1, in the order of the enum. */
  const FELDER: seq<Eintrag> := TEIL1 + TEIL2

  /** The entries follow each other without gaps from byte 43 to byte 255. */
  lemma {:induction false} Lueckenlos9()
    ensures Kachelt(FELDER, 43, 255)
  {
    assert Kachelt(TEIL1, 43, 72);
    assert Kachelt(TEIL2, 73, 255);
    Verkettet(TEIL1, TEIL2, 43, 72, 255);
  }

  /** The Wagnisart field is the one byte at 60 with value "9"; the numeric fields are 9 bytes at 64, 3 at 81 and 2 at 84; `LEERSTELLEN` is 170 bytes at 86. */
  lemma {:induction false} Einzelfelder9()
    ensures |FELDER| == 9
    ensures FELDER[1].name == "WAGNISART" && FELDER[1].anzahlBytes == 1 && FELDER[1].byteAdresse == 60 && FELDER[1].wert == Some("9")
    ensures FELDER[4].typ == NumTyp && FELDER[4].anzahlBytes == 9 && FELDER[4].byteAdresse == 64
    ensures FELDER[6].typ == NumTyp && FELDER[6].anzahlBytes == 3 && FELDER[6].byteAdresse == 81
    ensures FELDER[7].typ == NumTyp && FELDER[7].anzahlBytes == 2 && FELDER[7].byteAdresse == 84
    ensures forall i :: 0 <= i < |FELDER| && FELDER[i].typ == NumTyp ==> i in {4, 6, 7}
    ensures FELDER[8].name == "LEERSTELLEN" && FELDER[8].anzahlBytes == 170 && FELDER[8].Ende() == 255
  {
    assert FELDER[1] == TEIL1[1] && FELDER[4] == TEIL1[4];
    assert FELDER[6] == TEIL2[1] && FELDER[7] == TEIL2[2] && FELDER[8] == TEIL2[3];
  }

  /** Fields laid out by two different entries of the table never overlap. */
  lemma {:induction false} KeineUeberlappung9(i: nat, j: nat, a: FeldWert, b: FeldWert)
    requires i < |FELDER| && j < |FELDER| && i != j
    requires Belegt(a, FELDER[i]) && Belegt(b, FELDER[j])
    ensures !a.OverlapsWith(b) && !b.OverlapsWith(a)
  {
    Lueckenlos9();
    KeineUeberlappung(FELDER, i, j, a, b);
  }

  /** A field laid out by an entry of the table passes the address and end address checks of `validate`. */
  lemma {:induction false} AdressenGueltig9(i: nat, f: FeldWert, c: Config)
    requires i < |FELDER| && Belegt(f, FELDER[i])
    ensures AdresseZuKlein !in f.Verstoesse(c) && EndadresseUeberschritten !in f.Verstoesse(c)
  {
    Lueckenlos9();
    AdressenGueltig(FELDER, 43, 255, i, f, c);
  }
}
