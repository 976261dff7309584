/** `data_integrity_checks` of the package: every (packing, period) pair formed from the
    IDs the demand table mentions must have a demand row. The check works on sets, so
    only which keys occur matters, not their order or repetition. */
module CrossProduct {
  import opened Types
  import opened Collections
  import opened Formulation
  import opened DataIn
  import opened PerItem

  /** `set(demand['Period ID'])`. */
  function PeriodSet(rows: seq<DemandRow>): set<Period>
  {
    set r | r in rows :: r.periodId
  }

  /** `set(demand['Packing ID'])`. */
  function PackingSet(rows: seq<DemandRow>): set<Item>
  {
    set r | r in rows :: r.packingId
  }

  /** `set(zip(demand['Packing ID'], demand['Period ID']))`. */
  function ReceivedKeys(rows: seq<DemandRow>): set<Key>
  {
    set r | r in rows :: (r.packingId, r.periodId)
  }

  /** `set(itertools.product(packings, periods)) - received`. */
  function MissingPairs(rows: seq<DemandRow>): set<Key>
  {
    (set i, t | i in PackingSet(rows) && t in PeriodSet(rows) :: (i, t)) - ReceivedKeys(rows)
  }

  /** The check: `Err` with the set of missing pairs (the `ValueError`) when some pair of
      the cross-product has no row, `Ok` otherwise. */
  function CrossProductCheck(rows: seq<DemandRow>): (r: Result<(), set<Key>>)
    ensures r.Ok? <==> forall i, t :: i in PackingSet(rows) && t in PeriodSet(rows) ==> (i, t) in ReceivedKeys(rows)
    ensures r.Err? ==> forall p :: p in r.error <==>
              p.0 in PackingSet(rows) && p.1 in PeriodSet(rows) && p !in ReceivedKeys(rows)
  {
    var missing := MissingPairs(rows);
    if missing == {} then
      assert forall i, t :: i in PackingSet(rows) && t in PeriodSet(rows) ==> (i, t) in ReceivedKeys(rows) by {
        forall i, t | i in PackingSet(rows) && t in PeriodSet(rows) ensures (i, t) in ReceivedKeys(rows) {
          assert (i, t) !in missing;
        }
      }
      Ok(())
    else
      var p :| p in missing;
      assert p.0 in PackingSet(rows) && p.1 in PeriodSet(rows) && p !in ReceivedKeys(rows);
      Err(missing)
  }

  /** A key is received exactly when some row carries it. */
  lemma ReceivedMembers(rows: seq<DemandRow>, i: Item, t: Period)
    ensures (i, t) in ReceivedKeys(rows) <==> (i, t) in DemandKeyColumn(rows)
  {
    var keys := DemandKeyColumn(rows);
    if (i, t) in ReceivedKeys(rows) {
      var r :| r in rows && (r.packingId, r.periodId) == (i, t);
      var k :| 0 <= k < |rows| && rows[k] == r;
      assert keys[k] == (i, t);
    }
    if (i, t) in keys {
      var k :| 0 <= k < |keys| && keys[k] == (i, t);
      assert rows[k] in rows;
    }
  }

  /** Only the rows that occur matter: two demand tables holding the same rows, in any
      order and with any repetition, get the same verdict and the same missing pairs. */
  lemma CheckIgnoresOrder(a: seq<DemandRow>, b: seq<DemandRow>)
    requires forall r :: r in a <==> r in b
    ensures CrossProductCheck(a) == CrossProductCheck(b)
  {
    assert PeriodSet(a) == PeriodSet(b);
    assert PackingSet(a) == PackingSet(b);
    assert ReceivedKeys(a) == ReceivedKeys(b);
  }

  /** A passing check makes the demand lookups of the flow-balance loop total, and the
      per-item limit lookups of `solve` with them, provided every packing of the packing
      table has demand rows. */
  lemma PassingCheckGivesLookups(dat: Tables, params: Params)
    requires |dat.demandPacking| > 0
    requires CrossProductCheck(dat.demandPacking).Ok?
    requires forall i :: i in PackingIdColumn(dat.packing) ==> i in PackingSet(dat.demandPacking)
    ensures var m := PerItemData(dat, params);
            forall i, t :: i in m.I && t in m.T ==>
              (i, t) in m.d && (i, t) in m.acquisitionLimit && (i, t) in m.transportLimit
  {
    var rows := dat.demandPacking;
    var m := PerItemData(dat, params);
    DistinctSpec(PackingIdColumn(dat.packing));
    forall i, t | i in m.I && t in m.T
      ensures (i, t) in m.d && (i, t) in m.acquisitionLimit && (i, t) in m.transportLimit
    {
      assert i in PackingSet(rows);
      var k :| 0 <= k < |rows| && PeriodIdColumn(rows)[k] == t;
      assert rows[k] in rows;
      assert t in PeriodSet(rows);
      ReceivedMembers(rows, i, t);
      var keys := DemandKeyColumn(rows);
      ToMapDomain(keys, DemandColumn(rows), (i, t));
      ToMapDomain(keys, AcquisitionLimitColumn(rows), (i, t));
      ToMapDomain(keys, TransportLimitColumn(rows), (i, t));
    }
  }
}
