/**
 * `SatzValidator`, the import listener that validates every record it is
 * notified of and collects the violations, counting records and
 * sub-records as it goes.
 *
 * A record is represented by what the listener asks of it: its
 * validation result under a configuration and its number of sub-records.
 * The violations are of any type `V`.
 */
module SatzValidator {
  import opened Zahlen
  import opened Konfiguration

  /** A noticed record: `validate(config)` and `getNumberOfTeildatensaetze()`. */
  datatype Satz<V> = Satz(validate: Config -> seq<V>, teildatensaetze: Int32)

  /** The listener's state after some records. */
  datatype Stand<V> = Stand(verletzungen: seq<V>, satzNr: Int32, tdsNr: Int32)

  /** The state before the first record. */
  function Anfang<V>(): Stand<V>
  {
    Stand([], 1, 1)
  }

  /** One `notice`: append the record's violations, count one record and its sub-records in `int` arithmetic. */
  function Schritt<V>(st: Stand<V>, c: Config, s: Satz<V>): Stand<V>
  {
    Stand(st.verletzungen + s.validate(c), Wrap32(st.satzNr + 1), Wrap32(st.tdsNr + s.teildatensaetze))
  }

  /** The state after noticing the records `ss` in order. */
  function Lauf<V>(c: Config, ss: seq<Satz<V>>): Stand<V>
  {
    if ss == [] then Anfang() else Schritt(Lauf(c, ss[..|ss| - 1]), c, ss[|ss| - 1])
  }

  /** The violations of all records, in order. */
  function Verletzungen<V>(c: Config, ss: seq<Satz<V>>): seq<V>
  {
    if ss == [] then [] else ss[0].validate(c) + Verletzungen(c, ss[1..])
  }

  /** The total number of sub-records. */
  function Summe<V>(ss: seq<Satz<V>>): int
  {
    if ss == [] then 0 else ss[0].teildatensaetze + Summe(ss[1..])
  }

  lemma {:induction false} VerletzungenVerkettet<V>(c: Config, ss: seq<Satz<V>>, tt: seq<Satz<V>>)
    ensures Verletzungen(c, ss + tt) == Verletzungen(c, ss) + Verletzungen(c, tt)
    ensures Summe(ss + tt) == Summe(ss) + Summe(tt)
  {
    if ss != [] {
      assert (ss + tt)[1..] == ss[1..] + tt;
      VerletzungenVerkettet(c, ss[1..], tt);
    } else {
      assert ss + tt == tt;
    }
  }

  lemma {:induction false} Einzeln<V>(c: Config, s: Satz<V>)
    ensures Verletzungen(c, [s]) == s.validate(c) && Summe([s]) == s.teildatensaetze
  {
    assert [s][1..] == [];
  }

  /** After some records the violations are the in-order concatenation of their validation results. */
  lemma {:induction false} LaufVerletzungen<V>(c: Config, ss: seq<Satz<V>>)
    ensures Lauf(c, ss).verletzungen == Verletzungen(c, ss)
  {
    if ss != [] {
      var vorn, s := ss[..|ss| - 1], ss[|ss| - 1];
      assert ss == vorn + [s];
      LaufVerletzungen(c, vorn);
      VerletzungenVerkettet(c, vorn, [s]);
      Einzeln(c, s);
    }
  }

  /** After `n` records `satzNr` is `1 + n` in `int` arithmetic. */
  lemma {:induction false} LaufSatzNr<V>(c: Config, ss: seq<Satz<V>>)
    ensures Lauf(c, ss).satzNr == Wrap32(1 + |ss|)
  {
    if ss != [] {
      var vorn := ss[..|ss| - 1];
      LaufSatzNr(c, vorn);
      Wrap32Summe(1 + |vorn|, 1);
    }
  }

  /** After some records `tdsNr` is `1` plus their total number of sub-records, in `int` arithmetic. */
  lemma {:induction false} LaufTdsNr<V>(c: Config, ss: seq<Satz<V>>)
    ensures Lauf(c, ss).tdsNr == Wrap32(1 + Summe(ss))
  {
    if ss != [] {
      var vorn, s := ss[..|ss| - 1], ss[|ss| - 1];
      assert ss == vorn + [s];
      LaufTdsNr(c, vorn);
      VerletzungenVerkettet(c, vorn, [s]);
      Einzeln(c, s);
      Wrap32Summe(1 + Summe(vorn), s.teildatensaetze);
    }
  }

  /** The state after some records, in closed form. */
  lemma {:induction false} LaufGeschlossen<V>(c: Config, ss: seq<Satz<V>>)
    ensures Lauf(c, ss) == Stand(Verletzungen(c, ss), Wrap32(1 + |ss|), Wrap32(1 + Summe(ss)))
  {
    LaufVerletzungen(c, ss);
    LaufSatzNr(c, ss);
    LaufTdsNr(c, ss);
  }

  /** Nothing is ever removed: every earlier list of violations is a prefix of every later one. */
  lemma {:induction false} LaufPraefix<V>(c: Config, ss: seq<Satz<V>>, tt: seq<Satz<V>>)
    ensures Lauf(c, ss).verletzungen <= Lauf(c, ss + tt).verletzungen
    ensures |Lauf(c, ss + tt).verletzungen| == |Lauf(c, ss).verletzungen| + |Verletzungen(c, tt)|
  {
    LaufGeschlossen(c, ss);
    LaufGeschlossen(c, ss + tt);
    VerletzungenVerkettet(c, ss, tt);
  }

  /** While fewer than 2^31 - 1 records have been noticed, `satzNr` is exactly one more than their number. */
  lemma {:induction false} SatzNrZaehlt<V>(c: Config, ss: seq<Satz<V>>)
    requires |ss| < INT32_MAX
    ensures Lauf(c, ss).satzNr == 1 + |ss|
  {
    LaufGeschlossen(c, ss);
  }

  /** The listener. `gesehen` is the history of the records noticed so far. */
  class SatzValidator<V> {
    const config: Config
    var violations: seq<V>
    var satzNr: Int32
    var tdsNr: Int32
    ghost var gesehen: seq<Satz<V>>

    /** The fields are the state after the records seen. */
    ghost predicate Valid()
      reads this
    {
      Stand(violations, satzNr, tdsNr) == Lauf(config, gesehen)
    }

    /** `SatzValidator()`: validates strictly. */
    constructor Standard()
      ensures config == STRICT && violations == [] && satzNr == 1 && tdsNr == 1
      ensures gesehen == [] && Valid()
    {
      config := STRICT;
      violations := [];
      satzNr := 1;
      tdsNr := 1;
      gesehen := [];
    }

    /** `SatzValidator(config)`. */
    constructor (c: Config)
      ensures config == c && violations == [] && satzNr == 1 && tdsNr == 1
      ensures gesehen == [] && Valid()
    {
      config := c;
      violations := [];
      satzNr := 1;
      tdsNr := 1;
      gesehen := [];
    }

    /** `notice(satz)`; the log output is left out. */
    method Notice(satz: Satz<V>)
      requires Valid()
      modifies this
      ensures violations == old(violations) + satz.validate(config)
      ensures satzNr == Wrap32(old(satzNr) + 1) && tdsNr == Wrap32(old(tdsNr) + satz.teildatensaetze)
      ensures gesehen == old(gesehen) + [satz] && Valid()
    {
      var constraintViolations := satz.validate(config);
      satzNr := Wrap32(satzNr + 1);
      tdsNr := Wrap32(tdsNr + satz.teildatensaetze);
      violations := violations + constraintViolations;
      gesehen := gesehen + [satz];
      assert gesehen[..|gesehen| - 1] == old(gesehen);
    }

    /** `getViolations`: the violations of all records noticed, in order. */
    function GetViolations(): (r: seq<V>)
      reads this
      ensures Valid() ==> r == Verletzungen(config, gesehen)
    {
      LaufGeschlossen(config, gesehen);
      violations
    }
  }
}
