/** `data_integrity_checks` of the test package: every packing of the demand table must
    have the same set of periods. It groups the periods by packing, then compares every
    pair of packings in a double loop and stops at the first mismatch. */
module Horizon {
  import opened Types
  import opened Collections
  import opened CrossProduct

  /** The Packing ID column of the demand table. */
  function DemandPackingColumn(rows: seq<DemandRow>): (r: seq<Item>)
    ensures |r| == |rows| && forall k :: 0 <= k < |rows| ==> r[k] == rows[k].packingId
  {
    if rows == [] then [] else [rows[0].packingId] + DemandPackingColumn(rows[1..])
  }

  /** `grouped[i]`: the periods the demand table lists for packing i. */
  function PeriodsOf(rows: seq<DemandRow>, i: Item): set<Period>
  {
    set r | r in rows && r.packingId == i :: r.periodId
  }

  /** `groupby('Packing ID')['Period ID'].apply(set)`. */
  function Grouped(rows: seq<DemandRow>): (g: map<Item, set<Period>>)
    ensures forall i :: i in g <==> i in PackingSet(rows)
    ensures forall i :: i in g ==> g[i] == PeriodsOf(rows, i)
  {
    map i | i in PackingSet(rows) :: PeriodsOf(rows, i)
  }

  /** All packings share one time horizon. */
  predicate SameHorizon(rows: seq<DemandRow>)
  {
    forall i, j :: i in PackingSet(rows) && j in PackingSet(rows) ==> PeriodsOf(rows, i) == PeriodsOf(rows, j)
  }

  /** The message of the `ValueError`. */
  const HorizonMessage := "There are packing with different time horizon in demand packing."

  /** The check. The packings are visited in first-occurrence order (a Python set has no
      fixed order; the verdict does not depend on it). */
  method HorizonCheck(rows: seq<DemandRow>) returns (r: Result<(), string>)
    ensures r.Ok? <==> SameHorizon(rows)
    ensures r.Err? ==> r.error == HorizonMessage
  {
    var grouped := Grouped(rows);
    var packing := Distinct(DemandPackingColumn(rows));
    PackingOrder(rows);
    for a := 0 to |packing|
      invariant forall x, y :: x in packing[..a] && y in packing ==> PeriodsOf(rows, x) == PeriodsOf(rows, y)
    {
      for b := 0 to |packing|
        invariant forall y :: y in packing[..b] ==> PeriodsOf(rows, packing[a]) == PeriodsOf(rows, y)
        invariant forall x, y :: x in packing[..a] && y in packing ==> PeriodsOf(rows, x) == PeriodsOf(rows, y)
      {
        if grouped[packing[a]] != grouped[packing[b]] {
          return Err(HorizonMessage);
        }
        assert packing[..b + 1] == packing[..b] + [packing[b]];
      }
      assert packing[..|packing|] == packing;
      assert packing[..a + 1] == packing[..a] + [packing[a]];
    }
    assert packing[..|packing|] == packing;
    return Ok(());
  }

  /** The loop visits exactly the packings of the demand table. */
  lemma PackingOrder(rows: seq<DemandRow>)
    ensures forall i :: i in Distinct(DemandPackingColumn(rows)) <==> i in PackingSet(rows)
  {
    DistinctSpec(DemandPackingColumn(rows));
    forall i ensures i in DemandPackingColumn(rows) <==> i in PackingSet(rows) {
      if i in DemandPackingColumn(rows) {
        var k :| 0 <= k < |rows| && DemandPackingColumn(rows)[k] == i;
        assert rows[k] in rows;
      }
      if i in PackingSet(rows) {
        var row :| row in rows && row.packingId == i;
        var k :| 0 <= k < |rows| && rows[k] == row;
        assert DemandPackingColumn(rows)[k] == i;
      }
    }
  }

  /** Equal period sets for all packings is the same as a complete cross-product: both
      checks accept exactly the same demand tables. */
  lemma SameHorizonIffComplete(rows: seq<DemandRow>)
    ensures SameHorizon(rows) <==> CrossProductCheck(rows).Ok?
  {
    if SameHorizon(rows) {
      forall i, t | i in PackingSet(rows) && t in PeriodSet(rows) ensures (i, t) in ReceivedKeys(rows) {
        var r :| r in rows && r.periodId == t;
        assert t in PeriodsOf(rows, r.packingId);
        assert r.packingId in PackingSet(rows);
        assert t in PeriodsOf(rows, i);
        var s :| s in rows && s.packingId == i && s.periodId == t;
        assert (s.packingId, s.periodId) in ReceivedKeys(rows);
      }
    }
    if CrossProductCheck(rows).Ok? {
      forall i | i in PackingSet(rows) ensures PeriodsOf(rows, i) == PeriodSet(rows) {
        forall t | t in PeriodSet(rows) ensures t in PeriodsOf(rows, i) {
          assert (i, t) in ReceivedKeys(rows);
          var s :| s in rows && (s.packingId, s.periodId) == (i, t);
        }
      }
    }
  }

  /** Periods are grouped into sets, so the verdict does not depend on the order of the
      rows or on repeated rows. */
  lemma HorizonIgnoresOrder(a: seq<DemandRow>, b: seq<DemandRow>)
    requires forall r :: r in a <==> r in b
    ensures SameHorizon(a) <==> SameHorizon(b)
  {
    SameHorizonIffComplete(a);
    SameHorizonIffComplete(b);
    CheckIgnoresOrder(a, b);
  }
}
