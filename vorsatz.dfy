/**
 * The field-level part of `Vorsatz`, the leading record of a data
 * package: the creation period stored in one 16-byte field and presented
 * as two 8-byte date fields, the version identifiers, and the version
 * update for a record type.
 *
 * The record's fields are the list `super.getFelder()` returns. `Satz`
 * looks a field up by its identifier (the first one that has it) and
 * sets a value in every field that has the identifier, failing when there
 * is none; identifiers are compared as text.
 */
module Vorsatz {
  import opened Ausnahmen
  import opened Zeichenketten
  import opened Zahlen
  import opened Konfiguration
  import opened Validator
  import opened Feld

  /** `ERSTELLUNGS_DAT_ZEITRAUM_VOM_ZEITRAUM_BIS`, the physical 16-byte field. */
  const ZEITRAUM: string := "ERSTELLUNGS_DAT_ZEITRAUM_VOM_ZEITRAUM_BIS"
  /** `ERSTELLUNGSDAT_ZEITRAUM_VOM`, the first 8 bytes as a date. */
  const VOM: string := "ERSTELLUNGSDAT_ZEITRAUM_VOM"
  /** `ERSTELLUNGSDAT_ZEITRAUM_BIS`, the last 8 bytes as a date. */
  const BIS: string := "ERSTELLUNGSDAT_ZEITRAUM_BIS"

  // ---------------------------------------------------------------------
  // Looking up and setting fields of the record
  // ---------------------------------------------------------------------

  /** The position of the first field with identifier `bez`. */
  function Erste(fs: seq<FeldWert>, bez: string): (r: Option<nat>)
    ensures r.Some? ==> r.value < |fs| && fs[r.value].bezeichner == bez
    ensures r.Some? ==> forall j :: 0 <= j < r.value ==> fs[j].bezeichner != bez
    ensures r.None? ==> forall j :: 0 <= j < |fs| ==> fs[j].bezeichner != bez
  {
    if fs == [] then None
    else if fs[0].bezeichner == bez then Some(0)
    else match Erste(fs[1..], bez)
      case None => None
      case Some(k) => Some(k + 1)
  }

  /** `Satz.getFeld(bezeichner)`: the first field with the identifier. */
  function SuperFeld(fs: seq<FeldWert>, bez: string): (r: Result<FeldWert>)
    ensures r.Ok? <==> Erste(fs, bez).Some?
    ensures r.Ok? ==> r.value == fs[Erste(fs, bez).value]
    ensures r.Err? ==> r.error == FeldFehlt
  {
    match Erste(fs, bez)
    case None => Err(FeldFehlt)
    case Some(i) => Ok(fs[i])
  }

  /** `setInhalt(String)` on one field: the field with its new content, or the exception. */
  function GesetztFeld(f: FeldWert, s: string): (r: Result<FeldWert>)
    ensures r.Ok? <==> Gesetzt(f, s).ausgang == Erfolg
    ensures r.Ok? ==> r.value == f.(inhalt := Gesetzt(f, s).inhalt)
  {
    var e := Gesetzt(f, s);
    match e.ausgang
    case Erfolg => Ok(f.(inhalt := e.inhalt))
    case Fehlschlag(x) => Err(x)
  }

  /** Setting `s` in every field with identifier `bez`. */
  function AlleGesetzt(fs: seq<FeldWert>, bez: string, s: string): (r: Result<seq<FeldWert>>)
    ensures r.Ok? ==> |r.value| == |fs|
    ensures r.Ok? ==> forall i :: 0 <= i < |fs| ==> r.value[i].bezeichner == fs[i].bezeichner
    ensures r.Ok? ==> forall i :: 0 <= i < |fs| && fs[i].bezeichner != bez ==> r.value[i] == fs[i]
  {
    if fs == [] then Ok([])
    else
      var kopf :- if fs[0].bezeichner == bez then GesetztFeld(fs[0], s) else Ok(fs[0]);
      var rest :- AlleGesetzt(fs[1..], bez, s);
      Ok([kopf] + rest)
  }

  /** Every field with the identifier holds what setting the value in it yields. */
  lemma {:induction false} AlleGesetztWerte(fs: seq<FeldWert>, bez: string, s: string)
    requires AlleGesetzt(fs, bez, s).Ok?
    ensures forall i :: 0 <= i < |fs| && fs[i].bezeichner == bez ==> GesetztFeld(fs[i], s) == Ok(AlleGesetzt(fs, bez, s).value[i])
  {
    if fs != [] {
      var r := AlleGesetzt(fs, bez, s).value;
      var rest := AlleGesetzt(fs[1..], bez, s).value;
      AlleGesetztWerte(fs[1..], bez, s);
      assert r[1..] == rest;
      forall i | 1 <= i < |fs| ensures r[i] == rest[i - 1] && fs[i] == fs[1..][i - 1] {
      }
    }
  }

  /** `Satz.set(bezeichner, s)`: the identifier must exist, and every field with it takes the value. */
  function Setze(fs: seq<FeldWert>, bez: string, s: string): (r: Result<seq<FeldWert>>)
    ensures Erste(fs, bez).None? ==> r == Err(FeldFehlt)
  {
    if Erste(fs, bez).None? then Err(FeldFehlt) else AlleGesetzt(fs, bez, s)
  }

  /** Setting succeeds when every field with the identifier takes the value. */
  lemma {:induction false} AlleGesetztOk(fs: seq<FeldWert>, bez: string, s: string)
    requires forall i :: 0 <= i < |fs| && fs[i].bezeichner == bez ==> GesetztFeld(fs[i], s).Ok?
    ensures AlleGesetzt(fs, bez, s).Ok?
  {
    if fs != [] {
      assert forall i :: 1 <= i < |fs| ==> fs[1..][i - 1] == fs[i];
      AlleGesetztOk(fs[1..], bez, s);
    }
  }

  /** Setting fails when some field with the identifier refuses the value. */
  lemma {:induction false} AlleGesetztFehler(fs: seq<FeldWert>, bez: string, s: string, i: nat)
    requires i < |fs| && fs[i].bezeichner == bez && GesetztFeld(fs[i], s).Err?
    ensures AlleGesetzt(fs, bez, s).Err?
  {
    if i > 0 {
      assert fs[1..][i - 1] == fs[i];
      AlleGesetztFehler(fs[1..], bez, s, i - 1);
    }
  }

  /** Fields with the same identifiers in the same places have the same first field of each identifier. */
  lemma {:induction false} ErsteBleibt(fs: seq<FeldWert>, rs: seq<FeldWert>, bez: string)
    requires |rs| == |fs| && forall i :: 0 <= i < |fs| ==> rs[i].bezeichner == fs[i].bezeichner
    ensures Erste(rs, bez) == Erste(fs, bez)
  {
    if fs != [] {
      assert forall i :: 0 <= i < |fs| - 1 ==> rs[1..][i].bezeichner == rs[i + 1].bezeichner == fs[1..][i].bezeichner;
      ErsteBleibt(fs[1..], rs[1..], bez);
    }
  }

  /** After setting a value, looking the identifier up yields the first such field with the value set. */
  lemma {:induction false} SetzeFinden(fs: seq<FeldWert>, bez: string, s: string)
    requires Setze(fs, bez, s).Ok?
    ensures Erste(fs, bez).Some?
    ensures SuperFeld(Setze(fs, bez, s).value, bez) == GesetztFeld(fs[Erste(fs, bez).value], s)
  {
    ErsteBleibt(fs, Setze(fs, bez, s).value, bez);
    AlleGesetztWerte(fs, bez, s);
  }

  // ---------------------------------------------------------------------
  // The creation period
  // ---------------------------------------------------------------------

  /** `new Datum(bezeichner, 8, byteAdresse)`: a blank 8-byte date field under the global configuration. */
  function DatumLeer(bez: string, adresse: Int32, global: Config): (w: FeldWert)
    ensures w.AnzahlBytes() == 8 && w.bezeichner == bez && w.byteAdresse == adresse
  {
    Leer(bez, 8, adresse, RIGHT, Datum, Basis, global)
  }

  /** The date field `bez` at `adresse` holding `inhalt`. */
  function DatumMit(bez: string, adresse: Int32, inhalt: string, global: Config): FeldWert
  {
    DatumLeer(bez, adresse, global).(inhalt := inhalt)
  }

  /** `getErstellungsZeitraumVon`: a date at the combined field's address holding its first 8 characters. */
  function Von(fs: seq<FeldWert>, global: Config): (r: Result<FeldWert>)
    ensures r.Ok? ==> r.value.bezeichner == VOM && r.value.AnzahlBytes() == 8
    ensures SuperFeld(fs, ZEITRAUM).Err? ==> r == Err(FeldFehlt)
  {
    var vonBis :- SuperFeld(fs, ZEITRAUM);
    if |vonBis.inhalt| < 8 then Err(IndexAusserhalb)
    else GesetztFeld(DatumLeer(VOM, vonBis.byteAdresse, global), vonBis.inhalt[..8])
  }

  /** The address of the end date, 8 bytes behind `adresse` in `int` arithmetic. */
  function BisAdresse(adresse: Int32): (r: Int32)
    ensures adresse <= INT32_MAX - 8 ==> r == adresse + 8
  {
    assert IstInt32(adresse);
    assert adresse <= INT32_MAX - 8 ==> IstInt32(adresse as int + 8);
    Wrap32(adresse as int + 8)
  }

  /** `getErstellungsZeitraumBis`: a date 8 bytes behind the combined field's address holding the rest of its content. */
  function Bis(fs: seq<FeldWert>, global: Config): (r: Result<FeldWert>)
    ensures r.Ok? ==> r.value.bezeichner == BIS && r.value.AnzahlBytes() == 8
    ensures SuperFeld(fs, ZEITRAUM).Err? ==> r == Err(FeldFehlt)
  {
    var vonBis :- SuperFeld(fs, ZEITRAUM);
    if |vonBis.inhalt| < 8 then Err(IndexAusserhalb)
    else GesetztFeld(DatumLeer(BIS, BisAdresse(vonBis.byteAdresse), global), vonBis.inhalt[8..])
  }

  /** `setErstellungsZeitraum(Datum, Datum)`: the combined field takes the two contents one after the other. */
  function MitZeitraum(fs: seq<FeldWert>, von: FeldWert, bis: FeldWert): Result<seq<FeldWert>>
  {
    Setze(fs, ZEITRAUM, von.inhalt + bis.inhalt)
  }

  /** `setErstellungsZeitraumVon`: the new start with the current end. */
  function MitVon(fs: seq<FeldWert>, global: Config, von: FeldWert): Result<seq<FeldWert>>
  {
    var bis :- Bis(fs, global);
    MitZeitraum(fs, von, bis)
  }

  /** `setErstellungsZeitraumBis`: the current start with the new end. */
  function MitBis(fs: seq<FeldWert>, global: Config, bis: FeldWert): Result<seq<FeldWert>>
  {
    var von :- Von(fs, global);
    MitZeitraum(fs, von, bis)
  }

  /** `Vorsatz.getFeld`: the two synthetic identifiers yield the date sub-fields, any other is looked up. */
  function GetFeld(fs: seq<FeldWert>, global: Config, bez: string): (r: Result<FeldWert>)
    ensures bez != VOM && bez != BIS ==> r == SuperFeld(fs, bez)
    ensures r.Ok? && (bez == VOM || bez == BIS) ==> r.value.bezeichner == bez && r.value.AnzahlBytes() == 8
  {
    if bez == BIS then Bis(fs, global)
    else if bez == VOM then Von(fs, global)
    else SuperFeld(fs, bez)
  }

  /** A field that stores the value `s` exactly as given. */
  predicate Uebernimmt(f: FeldWert, s: string)
  {
    |s| == f.AnzahlBytes() && Vorbereitet(f, s) == Ok(s) && f.ausrichtung != UNKNOWN
  }

  /** A date field stores an 8-character value its validator passes exactly as given. */
  lemma {:induction false} DatumUebernimmt(bez: string, adresse: Int32, global: Config, s: string)
    requires |s| == 8 && Validate(Basis, s, global.validate) == Ok(s)
    ensures GesetztFeld(DatumLeer(bez, adresse, global), s) == Ok(DatumMit(bez, adresse, s, global))
  {
    TextVerbatim(DatumLeer(bez, adresse, global), s);
  }

  /** Storing a 16-character value in a field that takes it unchanged sets exactly that content. */
  lemma {:induction false} ZeitraumGesetzt(fs: seq<FeldWert>, s: string)
    requires Erste(fs, ZEITRAUM).Some?
    requires forall i :: 0 <= i < |fs| && fs[i].bezeichner == ZEITRAUM ==> Uebernimmt(fs[i], s)
    ensures Setze(fs, ZEITRAUM, s).Ok?
    ensures SuperFeld(Setze(fs, ZEITRAUM, s).value, ZEITRAUM) == Ok(fs[Erste(fs, ZEITRAUM).value].(inhalt := s))
  {
    forall i | 0 <= i < |fs| && fs[i].bezeichner == ZEITRAUM
      ensures GesetztFeld(fs[i], s) == Ok(fs[i].(inhalt := s))
    {
      Verbatim(fs[i], s);
    }
    AlleGesetztOk(fs, ZEITRAUM, s);
    SetzeFinden(fs, ZEITRAUM, s);
  }

  /**
   * Reading the period back: after setting two 8-character dates in a
   * record whose combined field takes the 16 characters unchanged, the
   * start and the end read back as those dates, at the combined field's
   * address and 8 bytes behind it.
   */
  lemma {:induction false} ZeitraumRundreise(fs: seq<FeldWert>, global: Config, von: FeldWert, bis: FeldWert)
    requires Erste(fs, ZEITRAUM).Some?
    requires forall i :: 0 <= i < |fs| && fs[i].bezeichner == ZEITRAUM ==> Uebernimmt(fs[i], von.inhalt + bis.inhalt)
    requires |von.inhalt| == 8 && Validate(Basis, von.inhalt, global.validate) == Ok(von.inhalt)
    requires |bis.inhalt| == 8 && Validate(Basis, bis.inhalt, global.validate) == Ok(bis.inhalt)
    ensures MitZeitraum(fs, von, bis).Ok?
    ensures GetFeld(MitZeitraum(fs, von, bis).value, global, VOM) ==
      Ok(DatumMit(VOM, fs[Erste(fs, ZEITRAUM).value].byteAdresse, von.inhalt, global))
    ensures GetFeld(MitZeitraum(fs, von, bis).value, global, BIS) ==
      Ok(DatumMit(BIS, BisAdresse(fs[Erste(fs, ZEITRAUM).value].byteAdresse), bis.inhalt, global))
  {
    var s := von.inhalt + bis.inhalt;
    ZeitraumGesetzt(fs, s);
    var f := fs[Erste(fs, ZEITRAUM).value];
    assert MitZeitraum(fs, von, bis) == Setze(fs, ZEITRAUM, s);
    ZeitraumGelesen(MitZeitraum(fs, von, bis).value, global, f.(inhalt := s), von.inhalt, bis.inhalt);
  }

  /** A combined field holding two 8-character halves its date fields take unchanged reads as those halves. */
  lemma {:induction false} ZeitraumGelesen(fs: seq<FeldWert>, global: Config, f: FeldWert, a: string, b: string)
    requires SuperFeld(fs, ZEITRAUM) == Ok(f) && f.inhalt == a + b
    requires |a| == 8 && Validate(Basis, a, global.validate) == Ok(a)
    requires |b| == 8 && Validate(Basis, b, global.validate) == Ok(b)
    ensures GetFeld(fs, global, VOM) == Ok(DatumMit(VOM, f.byteAdresse, a, global))
    ensures GetFeld(fs, global, BIS) == Ok(DatumMit(BIS, BisAdresse(f.byteAdresse), b, global))
  {
    assert f.inhalt[..8] == a && f.inhalt[8..] == b;
    DatumUebernimmt(VOM, f.byteAdresse, global, a);
    DatumUebernimmt(BIS, BisAdresse(f.byteAdresse), global, b);
  }

  /** The end as stored reads back as the same date field. */
  lemma {:induction false} BisGelesen(fs: seq<FeldWert>, global: Config)
    requires Bis(fs, global).Ok?
    ensures var f := fs[Erste(fs, ZEITRAUM).value];
      Bis(fs, global) == Ok(DatumMit(BIS, BisAdresse(f.byteAdresse), Bis(fs, global).value.inhalt, global))
  {
  }

  /** The start as stored reads back as the same date field. */
  lemma {:induction false} VonGelesen(fs: seq<FeldWert>, global: Config)
    requires Von(fs, global).Ok?
    ensures var f := fs[Erste(fs, ZEITRAUM).value];
      Von(fs, global) == Ok(DatumMit(VOM, f.byteAdresse, Von(fs, global).value.inhalt, global))
  {
  }

  /** Setting the start leaves the end as it was. */
  lemma {:induction false} VonLaesstBis(fs: seq<FeldWert>, global: Config, von: FeldWert)
    requires Bis(fs, global).Ok?
    requires forall i :: 0 <= i < |fs| && fs[i].bezeichner == ZEITRAUM ==> Uebernimmt(fs[i], von.inhalt + Bis(fs, global).value.inhalt)
    requires |von.inhalt| == 8 && Validate(Basis, von.inhalt, global.validate) == Ok(von.inhalt)
    requires Validate(Basis, Bis(fs, global).value.inhalt, global.validate) == Ok(Bis(fs, global).value.inhalt)
    ensures MitVon(fs, global, von).Ok?
    ensures Bis(MitVon(fs, global, von).value, global) == Bis(fs, global)
    ensures Von(MitVon(fs, global, von).value, global) == Ok(DatumMit(VOM, fs[Erste(fs, ZEITRAUM).value].byteAdresse, von.inhalt, global))
  {
    var bis := Bis(fs, global).value;
    BisGelesen(fs, global);
    ZeitraumRundreise(fs, global, von, bis);
  }

  /** Setting the end leaves the start as it was. */
  lemma {:induction false} BisLaesstVon(fs: seq<FeldWert>, global: Config, bis: FeldWert)
    requires Von(fs, global).Ok?
    requires forall i :: 0 <= i < |fs| && fs[i].bezeichner == ZEITRAUM ==> Uebernimmt(fs[i], Von(fs, global).value.inhalt + bis.inhalt)
    requires |bis.inhalt| == 8 && Validate(Basis, bis.inhalt, global.validate) == Ok(bis.inhalt)
    requires Validate(Basis, Von(fs, global).value.inhalt, global.validate) == Ok(Von(fs, global).value.inhalt)
    ensures MitBis(fs, global, bis).Ok?
    ensures Von(MitBis(fs, global, bis).value, global) == Von(fs, global)
    ensures Bis(MitBis(fs, global, bis).value, global) == Ok(DatumMit(BIS, BisAdresse(fs[Erste(fs, ZEITRAUM).value].byteAdresse), bis.inhalt, global))
  {
    var von := Von(fs, global).value;
    VonGelesen(fs, global);
    ZeitraumRundreise(fs, global, von, bis);
  }

  // ---------------------------------------------------------------------
  // The field list with the period split
  // ---------------------------------------------------------------------

  /** The fields with every combined field replaced, in place, by the start and the end. */
  function Aufgeteilt(fs: seq<FeldWert>, von: Result<FeldWert>, bis: Result<FeldWert>): (r: Result<seq<FeldWert>>)
    ensures r.Err? ==> (von.Err? || bis.Err?) && r.error == (if von.Err? then von.error else bis.error)
  {
    if fs == [] then Ok([])
    else
      var vorn :- Aufgeteilt(fs[..|fs| - 1], von, bis);
      var f := fs[|fs| - 1];
      if f.bezeichner == ZEITRAUM then
        var v :- von;
        var b :- bis;
        Ok(vorn + [v, b])
      else Ok(vorn + [f])
  }

  /** One more field of the list: the combined field adds its start and end, any other field itself. */
  lemma {:induction false} AufgeteiltSchritt(fs: seq<FeldWert>, von: Result<FeldWert>, bis: Result<FeldWert>, i: nat, liste: seq<FeldWert>)
    requires i < |fs| && Aufgeteilt(fs[..i], von, bis) == Ok(liste)
    requires fs[i].bezeichner == ZEITRAUM ==> von.Ok? && bis.Ok?
    ensures Aufgeteilt(fs[..i + 1], von, bis) ==
      Ok(if fs[i].bezeichner == ZEITRAUM then liste + [von.value, bis.value] else liste + [fs[i]])
  {
    assert fs[..i + 1][..i] == fs[..i];
  }

  /** The number of fields with identifier `bez`. */
  function Anzahl(fs: seq<FeldWert>, bez: string): nat
  {
    if fs == [] then 0 else Anzahl(fs[..|fs| - 1], bez) + (if fs[|fs| - 1].bezeichner == bez then 1 else 0)
  }

  /** The fields whose identifier is none of `bez`, in order. */
  function Ohne(fs: seq<FeldWert>, bez: set<string>): seq<FeldWert>
  {
    if fs == [] then [] else Ohne(fs[..|fs| - 1], bez) + (if fs[|fs| - 1].bezeichner in bez then [] else [fs[|fs| - 1]])
  }

  /** Ohne distributes over appending. */
  lemma {:induction false} OhneAnhaengen(fs: seq<FeldWert>, gs: seq<FeldWert>, bez: set<string>)
    ensures Ohne(fs + gs, bez) == Ohne(fs, bez) + Ohne(gs, bez)
    decreases |gs|
  {
    if gs == [] {
      assert fs + gs == fs;
    } else {
      var g := gs[..|gs| - 1];
      assert (fs + gs)[..|fs + gs| - 1] == fs + g;
      OhneAnhaengen(fs, g, bez);
    }
  }

  /** A successful split ends with what the last field contributes. */
  lemma {:induction false} AufgeteiltLetzter(fs: seq<FeldWert>, von: Result<FeldWert>, bis: Result<FeldWert>)
    requires fs != [] && Aufgeteilt(fs, von, bis).Ok?
    ensures Aufgeteilt(fs[..|fs| - 1], von, bis).Ok?
    ensures fs[|fs| - 1].bezeichner == ZEITRAUM ==> von.Ok? && bis.Ok?
    ensures fs[|fs| - 1].bezeichner == ZEITRAUM ==>
      Aufgeteilt(fs, von, bis).value == Aufgeteilt(fs[..|fs| - 1], von, bis).value + [von.value, bis.value]
    ensures fs[|fs| - 1].bezeichner != ZEITRAUM ==>
      Aufgeteilt(fs, von, bis).value == Aufgeteilt(fs[..|fs| - 1], von, bis).value + [fs[|fs| - 1]]
  {
  }

  /** The split list has one more field per combined field. */
  lemma {:induction false} AufgeteiltLaenge(fs: seq<FeldWert>, von: Result<FeldWert>, bis: Result<FeldWert>)
    requires Aufgeteilt(fs, von, bis).Ok?
    ensures |Aufgeteilt(fs, von, bis).value| == |fs| + Anzahl(fs, ZEITRAUM)
  {
    if fs != [] {
      AufgeteiltLetzter(fs, von, bis);
      AufgeteiltLaenge(fs[..|fs| - 1], von, bis);
    }
  }

  /** The start and end dates contribute nothing once they are left out. */
  lemma OhneDaten(von: FeldWert, bis: FeldWert)
    requires von.bezeichner == VOM && bis.bezeichner == BIS
    ensures Ohne([von, bis], {VOM, BIS}) == []
  {
    assert [von, bis][..1] == [von];
    assert [von][..0] == [];
    assert Ohne([von], {VOM, BIS}) == [];
  }

  /** A field outside `bez` is kept. */
  lemma OhneEinzeln(f: FeldWert, bez: set<string>)
    requires f.bezeichner !in bez
    ensures Ohne([f], bez) == [f]
  {
    assert [f][..0] == [];
  }

  /**
   * Leaving out the date sub-fields of the split list and the combined
   * fields of the original list, the other fields keep their order.
   */
  lemma {:induction false} AufgeteiltErhaelt(fs: seq<FeldWert>, von: Result<FeldWert>, bis: Result<FeldWert>)
    requires Aufgeteilt(fs, von, bis).Ok?
    requires von.Ok? ==> von.value.bezeichner == VOM
    requires bis.Ok? ==> bis.value.bezeichner == BIS
    requires forall i :: 0 <= i < |fs| ==> fs[i].bezeichner != VOM && fs[i].bezeichner != BIS
    ensures Ohne(Aufgeteilt(fs, von, bis).value, {VOM, BIS}) == Ohne(fs, {ZEITRAUM})
  {
    if fs != [] {
      var vorn := fs[..|fs| - 1];
      var f := fs[|fs| - 1];
      assert forall i :: 0 <= i < |vorn| ==> vorn[i] == fs[i];
      AufgeteiltLetzter(fs, von, bis);
      AufgeteiltErhaelt(vorn, von, bis);
      var rv := Aufgeteilt(vorn, von, bis).value;
      if f.bezeichner == ZEITRAUM {
        OhneAnhaengen(rv, [von.value, bis.value], {VOM, BIS});
        OhneDaten(von.value, bis.value);
      } else {
        OhneAnhaengen(rv, [f], {VOM, BIS});
        OhneEinzeln(f, {VOM, BIS});
      }
    }
  }

  /** Without a combined field the list is returned as it is. */
  lemma {:induction false} OhneZeitraumUnveraendert(fs: seq<FeldWert>, von: Result<FeldWert>, bis: Result<FeldWert>)
    requires forall i :: 0 <= i < |fs| ==> fs[i].bezeichner != ZEITRAUM
    ensures Aufgeteilt(fs, von, bis) == Ok(fs)
  {
    if fs != [] {
      var vorn := fs[..|fs| - 1];
      assert forall i :: 0 <= i < |vorn| ==> vorn[i] == fs[i];
      OhneZeitraumUnveraendert(vorn, von, bis);
      assert vorn + [fs[|fs| - 1]] == fs;
    }
  }

  /** A combined field whose start or end cannot be read makes the whole split fail with that exception. */
  lemma {:induction false} AufgeteiltFehler(fs: seq<FeldWert>, von: Result<FeldWert>, bis: Result<FeldWert>, i: nat)
    requires i < |fs| && fs[i].bezeichner == ZEITRAUM && (von.Err? || bis.Err?)
    ensures Aufgeteilt(fs, von, bis) == Err(if von.Err? then von.error else bis.error)
    decreases |fs|
  {
    var vorn := fs[..|fs| - 1];
    if i < |fs| - 1 {
      assert vorn[i] == fs[i];
      AufgeteiltFehler(vorn, von, bis, i);
    }
  }

  // ---------------------------------------------------------------------
  // Versions
  // ---------------------------------------------------------------------

  /** The version identifiers start with this text. */
  const VERSION_PRAEFIX: string := "Version Satzart "

  /** `getVersionBezeichnung(art)`: "Version Satzart %04d". */
  function VersionBezeichnung(art: Int32): string
  {
    VERSION_PRAEFIX + FormatD(art, 4)
  }

  /** `getVersionBezeichnung(art, sparte)`: "Version Satzart %04d %03d". */
  function VersionBezeichnungSparte(art: Int32, sparte: Int32): string
  {
    VERSION_PRAEFIX + FormatD(art, 4) + " " + FormatD(sparte, 3)
  }

  /** The record kind reads back from its version identifier, which is at least 20 characters long. */
  lemma {:induction false} VersionBezeichnungRundreise(art: Int32)
    ensures |VersionBezeichnung(art)| >= 20
    ensures ParseInteger(VersionBezeichnung(art)[16..]) == Some(art as int)
  {
    FormatDRundreise(art, 4);
    assert VersionBezeichnung(art)[16..] == FormatD(art, 4);
  }

  /** Behind a common prefix, a text of a blank-free part, a blank and a rest determines both parts. */
  lemma {:induction false} TrennungEindeutig(p: string, x1: string, y1: string, x2: string, y2: string)
    requires ' ' !in x1 && ' ' !in x2 && p + x1 + " " + y1 == p + x2 + " " + y2
    ensures x1 == x2 && y1 == y2
  {
    var t := p + x1 + " " + y1;
    var k := |p|;
    forall j | k <= j < k + |x1| ensures t[j] != ' ' {
      assert t[j] == x1[j - k] && x1[j - k] in x1;
    }
    forall j | k <= j < k + |x2| ensures t[j] != ' ' {
      assert t[j] == x2[j - k] && x2[j - k] in x2;
    }
    assert t[k + |x1|] == ' ' && t[k + |x2|] == ' ';
    assert |x1| == |x2|;
    assert x1 == t[k..k + |x1|] == x2;
    assert y1 == t[k + |x1| + 1..] == y2;
  }

  /** Equal texts behind equal prefixes are equal. */
  lemma {:induction false} PraefixWeg(p: string, t1: string, t2: string)
    requires p + t1 == p + t2
    ensures t1 == t2
  {
    assert t1 == (p + t1)[|p|..];
    assert t2 == (p + t2)[|p|..];
  }

  /** Different record kinds have different version identifiers. */
  lemma {:induction false} VersionBezeichnungEindeutig(a1: Int32, a2: Int32)
    requires VersionBezeichnung(a1) == VersionBezeichnung(a2)
    ensures a1 == a2
  {
    PraefixWeg(VERSION_PRAEFIX, FormatD(a1, 4), FormatD(a2, 4));
    FormatDEindeutig(a1, a2, 4);
  }

  /** "%0wd" renders different numbers differently. */
  lemma FormatDEindeutig(n1: int, n2: int, w: nat)
    requires FormatD(n1, w) == FormatD(n2, w)
    ensures n1 == n2
  {
    FormatDRundreise(n1, w);
    FormatDRundreise(n2, w);
  }

  /** "%0wd" output holds no blank. */
  lemma FormatDOhneLeerzeichen(n: int, w: nat)
    ensures ' ' !in FormatD(n, w)
  {
    FormatDRundreise(n, w);
  }

  /** Different pairs of record kind and branch have different version identifiers. */
  lemma {:induction false} VersionBezeichnungSparteEindeutig(a1: Int32, s1: Int32, a2: Int32, s2: Int32)
    requires VersionBezeichnungSparte(a1, s1) == VersionBezeichnungSparte(a2, s2)
    ensures a1 == a2 && s1 == s2
  {
    FormatDOhneLeerzeichen(a1, 4);
    FormatDOhneLeerzeichen(a2, 4);
    TrennungEindeutig(VERSION_PRAEFIX, FormatD(a1, 4), FormatD(s1, 3), FormatD(a2, 4), FormatD(s2, 3));
    FormatDEindeutig(a1, a2, 4);
    FormatDEindeutig(s1, s2, 3);
  }

  /** The identifier `setVersion` looks up: "Satzart", the first part of the type key and the second, if any. */
  function VersionsName(satzTyp: string): (r: Result<string>)
    ensures r.Err? <==> Split(satzTyp, '.') == []
    ensures r.Ok? ==> |r.value| >= 8 && r.value[..7] == "Satzart"
  {
    var parts := Split(satzTyp, '.');
    if |parts| == 0 then Err(IndexAusserhalb)
    else Ok("Satzart" + parts[0] + (if |parts| > 1 then parts[1] else ""))
  }

  /**
   * `setVersion(satzTyp)`, with `version` the version content of the
   * record type's registered record: whether the identifier exists, and
   * the fields afterwards.
   */
  function Versioniert(fs: seq<FeldWert>, satzTyp: string, version: string): (r: Result<(bool, seq<FeldWert>)>)
    ensures r.Ok? ==> (r.value.0 <==> VersionsName(satzTyp).Ok? && Erste(fs, VersionsName(satzTyp).value).Some?)
    ensures r.Ok? && !r.value.0 ==> r.value.1 == fs
    ensures r.Ok? && r.value.0 ==> Setze(fs, VersionsName(satzTyp).value, version) == Ok(r.value.1)
    ensures VersionsName(satzTyp).Err? ==> r.Err?
    ensures VersionsName(satzTyp).Ok? && Erste(fs, VersionsName(satzTyp).value).None? ==> r == Ok((false, fs))
  {
    var name :- VersionsName(satzTyp);
    if Erste(fs, name).Some? then
      var neu :- Setze(fs, name, version);
      Ok((true, neu))
    else Ok((false, fs))
  }

  /** Characters other than the separator are collected into the current part. */
  lemma {:induction false} SplitSammelt(a: string, x: string, sep: char, akt: string)
    requires sep !in a && sep !in akt
    ensures SplitAb(a + x, sep, akt) == SplitAb(x, sep, akt + a)
    decreases |a|
  {
    if a != [] {
      assert (a + x)[0] == a[0] && (a + x)[1..] == a[1..] + x;
      assert akt + a == (akt + [a[0]]) + a[1..];
      SplitSammelt(a[1..], x, sep, akt + [a[0]]);
    } else {
      assert a + x == x && akt + a == akt;
    }
  }

  /** A text without a dot is one part; a non-empty dot-free text before a dot is the first part. */
  lemma {:induction false} SplitTeile(a: string, rest: string)
    requires |a| >= 1 && '.' !in a
    ensures Split(a, '.') == [a]
    ensures Split(a + "." + rest, '.') == [a] + Split(rest, '.')
  {
    SplitSammelt(a, "", '.', "");
    assert a + "" == a && "" + a == a;
    SplitSammelt(a, "." + rest, '.', "");
    assert a + "." + rest == a + ("." + rest);
    assert ("." + rest)[1..] == rest;
  }

  /** For a record type "aaaa" or "aaaa.bbb…", the identifier is "Satzart" with the first one or two parts. */
  lemma {:induction false} VersionsNameTeile(a: string, b: string, rest: string)
    requires |a| >= 1 && '.' !in a && |b| >= 1 && '.' !in b
    ensures VersionsName(a) == Ok("Satzart" + a)
    ensures VersionsName(a + "." + b) == Ok("Satzart" + a + b)
    ensures VersionsName(a + "." + b + "." + rest) == Ok("Satzart" + a + b)
  {
    SplitTeile(a, b);
    SplitTeile(b, rest);
    SplitTeile(a, b + "." + rest);
    assert a + "." + b + "." + rest == a + "." + (b + "." + rest);
    assert "Satzart" + a + "" == "Satzart" + a;
  }

  // ---------------------------------------------------------------------
  // The record
  // ---------------------------------------------------------------------

  /** A `Vorsatz` with its fields in the order `super.getFelder()` yields them. */
  class Vorsatz {
    var felder: seq<FeldWert>
    /** The global configuration the date sub-fields are created with. */
    const global: Config

    constructor (felder: seq<FeldWert>, global: Config)
      ensures this.felder == felder && this.global == global
    {
      this.felder := felder;
      this.global := global;
    }

    /** `setErstellungsZeitraum(Datum, Datum)`; on failure the fields stay as they were. */
    method SetErstellungsZeitraum(von: FeldWert, bis: FeldWert) returns (r: Ausgang)
      modifies this
      ensures match MitZeitraum(old(felder), von, bis)
        case Ok(neu) => r == Erfolg && felder == neu
        case Err(x) => r == Fehlschlag(x) && felder == old(felder)
    {
      var neu := MitZeitraum(felder, von, bis);
      if neu.Err? {
        return Fehlschlag(neu.error);
      }
      felder := neu.value;
      return Erfolg;
    }

    /** `setErstellungsZeitraumVon`. */
    method SetErstellungsZeitraumVon(von: FeldWert) returns (r: Ausgang)
      modifies this
      ensures match MitVon(old(felder), global, von)
        case Ok(neu) => r == Erfolg && felder == neu
        case Err(x) => r == Fehlschlag(x) && felder == old(felder)
    {
      var bis := Bis(felder, global);
      if bis.Err? {
        return Fehlschlag(bis.error);
      }
      r := SetErstellungsZeitraum(von, bis.value);
    }

    /** `setErstellungsZeitraumBis`. */
    method SetErstellungsZeitraumBis(bis: FeldWert) returns (r: Ausgang)
      modifies this
      ensures match MitBis(old(felder), global, bis)
        case Ok(neu) => r == Erfolg && felder == neu
        case Err(x) => r == Fehlschlag(x) && felder == old(felder)
    {
      var von := Von(felder, global);
      if von.Err? {
        return Fehlschlag(von.error);
      }
      r := SetErstellungsZeitraum(von.value, bis);
    }

    /** `setVersion(satzTyp)`: true iff the identifier exists; otherwise nothing changes. */
    method SetVersion(satzTyp: string, version: string) returns (r: Result<bool>)
      modifies this
      ensures match Versioniert(old(felder), satzTyp, version)
        case Ok(e) => r == Ok(e.0) && felder == e.1
        case Err(x) => r == Err(x) && felder == old(felder)
    {
      var name := VersionsName(satzTyp);
      if name.Err? {
        return Err(name.error);
      }
      if Erste(felder, name.value).None? {
        return Ok(false);
      }
      var neu := Setze(felder, name.value, version);
      if neu.Err? {
        return Err(neu.error);
      }
      felder := neu.value;
      return Ok(true);
    }

    /** `getFelder`: the fields with each combined period field replaced by its start and end. */
    method GetFelder() returns (r: Result<seq<FeldWert>>)
      ensures r == Aufgeteilt(felder, Von(felder, global), Bis(felder, global))
    {
      var liste: seq<FeldWert> := [];
      var i := 0;
      while i < |felder|
        invariant 0 <= i <= |felder|
        invariant Aufgeteilt(felder[..i], Von(felder, global), Bis(felder, global)) == Ok(liste)
      {
        var f := felder[i];
        if f.bezeichner == ZEITRAUM {
          var von := Von(felder, global);
          var bis := Bis(felder, global);
          if von.Err? || bis.Err? {
            AufgeteiltFehler(felder, von, bis, i);
            return Err(if von.Err? then von.error else bis.error);
          }
          AufgeteiltSchritt(felder, von, bis, i, liste);
          liste := liste + [von.value, bis.value];
        } else {
          AufgeteiltSchritt(felder, Von(felder, global), Bis(felder, global), i, liste);
          liste := liste + [f];
        }
        i := i + 1;
      }
      assert felder[..i] == felder;
      r := Ok(liste);
    }
  }
}
