/** What the constraint rows mean: each family stated as a property of the solver's
    valuation, and the theorem that a valuation satisfies the built rows and variable
    bounds exactly when it is feasible for the mathematical model. */
module Feasibility {
  import opened Types
  import opened Collections
  import opened Lp
  import opened Formulation

  // ----- The model, one property per constraint family -----

  /** C1: end-of-period stock at each site fits its capacity. */
  predicate CapacityAt(m: ModelData, v: Valuation, t: Period)
  {
    && SumOver(m.I, YP, t, v) <= m.params.inventoryCapacityPack
    && SumOver(m.I, YG, t, v) <= m.params.inventoryCapacityGourmet
  }

  predicate InventoryCapacity(m: ModelData, v: Valuation)
  {
    forall t :: t in m.T ==> CapacityAt(m, v, t)
  }

  /** C2: an acquisition is zero when its indicator is off and lies in [moq, au] when on. */
  predicate BandAt(m: ModelData, v: Valuation, i: Item, t: Period)
    requires (i, t) in m.au && (i, t) in m.moq
  {
    v(V(WB, i, t)) * m.moq[(i, t)] <= v(V(W, i, t)) <= v(V(WB, i, t)) * m.au[(i, t)]
  }

  predicate OrderBand(m: ModelData, v: Valuation)
    requires BandLookups(m)
  {
    forall i, t :: i in m.I && t in m.T ==> BandAt(m, v, i, t)
  }

  /** C3: the total moved from Pack to Gourmet in a period fits the transport limit. */
  predicate TransportAt(m: ModelData, v: Valuation, t: Period)
  {
    SumOver(m.I, X, t, v) <= m.params.transportingLimitByPeriod
  }

  predicate PeriodTransport(m: ModelData, v: Valuation)
  {
    forall t :: t in m.T ==> TransportAt(m, v, t)
  }

  /** C4: Gourmet stock grows by the transfer and shrinks by demand; Pack stock grows by
      the acquisition and shrinks by the transfer. */
  predicate BalanceAt(m: ModelData, v: Valuation, i: Item, t: Period)
    requires (i, t) in m.d
  {
    && v(V(YG, i, t)) == v(V(YG, i, t - 1)) + v(V(X, i, t)) - m.d[(i, t)]
    && v(V(YP, i, t)) == v(V(YP, i, t - 1)) + v(V(W, i, t)) - v(V(X, i, t))
  }

  predicate FlowBalance(m: ModelData, v: Valuation)
    requires SharedLookups(m)
  {
    forall i, t :: i in m.I && t in m.T ==> BalanceAt(m, v, i, t)
  }

  /** C5: Gourmet stock never drops below the item's minimum inventory. */
  predicate FloorAt(m: ModelData, v: Valuation, i: Item, t: Period)
    requires (Gourmet, i) in m.ilg
  {
    v(V(YG, i, t)) >= m.ilg[(Gourmet, i)]
  }

  predicate GourmetFloor(m: ModelData, v: Valuation)
    requires SharedLookups(m)
  {
    forall i, t :: i in m.I && t in m.T ==> FloorAt(m, v, i, t)
  }

  /** C6: stock held at Pack in period t is moved out within the next M periods
      (only checked where t + M is still inside the horizon). */
  predicate DwellAt(m: ModelData, v: Valuation, i: Item, t: Period)
    requires |m.T| > 0
  {
    DwellApplies(m, t) ==> WindowSum(i, t, m.params.maxTimePackingPack, v) >= v(V(YP, i, t))
  }

  predicate DwellLimit(m: ModelData, v: Valuation)
    requires |m.T| > 0
  {
    forall i, t :: i in m.I && t in m.T ==> DwellAt(m, v, i, t)
  }

  /** C7: the stock before the first period is the initial inventory of each site. */
  predicate BoundaryAt(m: ModelData, v: Valuation, i: Item)
    requires (Pack, i) in m.iniInventory && (Gourmet, i) in m.iniInventory
  {
    && v(V(YP, i, m.firstPeriod - 1)) == m.iniInventory[(Pack, i)]
    && v(V(YG, i, m.firstPeriod - 1)) == m.iniInventory[(Gourmet, i)]
  }

  predicate Boundary(m: ModelData, v: Valuation)
    requires SharedLookups(m)
  {
    forall i :: i in m.I ==> BoundaryAt(m, v, i)
  }

  /** C8: the number of packing types transferred in a period is bounded. */
  predicate DiversityAt(m: ModelData, v: Valuation, t: Period)
  {
    SumOver(m.I, XB, t, v) <= m.params.diversityTransportingPacking
  }

  predicate TransferDiversity(m: ModelData, v: Valuation)
  {
    forall t :: t in m.T ==> DiversityAt(m, v, t)
  }

  /** C9: an item is transferred only when its transfer indicator is on. */
  predicate GateAt(m: ModelData, v: Valuation, i: Item, t: Period)
  {
    v(V(X, i, t)) <= v(V(XB, i, t)) * m.params.transportingLimitByPeriod
  }

  predicate TransferGate(m: ModelData, v: Valuation)
  {
    forall i, t :: i in m.I && t in m.T ==> GateAt(m, v, i, t)
  }

  /** Flat-limit C2: acquisition of an item in a period is capped. */
  predicate AcquisitionCapAt(m: ModelData, v: Valuation, i: Item, t: Period)
    requires (i, t) in m.acquisitionLimit
  {
    v(V(W, i, t)) <= m.acquisitionLimit[(i, t)]
  }

  predicate AcquisitionLimits(m: ModelData, v: Valuation)
    requires LimitLookups(m)
  {
    forall i, t :: i in m.I && t in m.T ==> AcquisitionCapAt(m, v, i, t)
  }

  /** Flat-limit C3: transfer of an item in a period is capped. */
  predicate TransportCapAt(m: ModelData, v: Valuation, i: Item, t: Period)
    requires (i, t) in m.transportLimit
  {
    v(V(X, i, t)) <= m.transportLimit[(i, t)]
  }

  predicate TransportLimits(m: ModelData, v: Valuation)
    requires LimitLookups(m)
  {
    forall i, t :: i in m.I && t in m.T ==> TransportCapAt(m, v, i, t)
  }

  /** Batching, first call: n[t] trucks carry the period's transfers. */
  predicate TruckFloorAt(m: ModelData, v: Valuation, t: Period)
  {
    m.params.transportingLimitByPeriod * v(N(t)) >= SumOver(m.I, X, t, v)
  }

  /** Batching, second call: at most one truck more than the transfers need. */
  predicate TruckCeilingAt(m: ModelData, v: Valuation, t: Period)
  {
    m.params.transportingLimitByPeriod * v(N(t)) <= SumOver(m.I, X, t, v) + m.params.transportingLimitByPeriod
  }

  predicate TrucksAt(m: ModelData, v: Valuation, t: Period)
  {
    TruckFloorAt(m, v, t) && TruckCeilingAt(m, v, t)
  }

  /** Discount, as written: `dc * w >= w - L` and `dc * (w - L) >= w - L`. */
  predicate DiscountAt(m: ModelData, v: Valuation, i: Item, t: Period)
  {
    var dc, w, lim := v(V(DC, i, t)), v(V(W, i, t)), m.params.discountLimit;
    dc * w >= w - lim && dc * (w - lim) >= w - lim
  }

  /** The declared bounds: integer variables nonnegative, indicators binary. */
  predicate VariableBounds(m: ModelData, v: Valuation)
  {
    && (forall i, t :: i in m.I && t in m.T ==>
          v(V(X, i, t)) >= 0 && v(V(W, i, t)) >= 0 && 0 <= v(V(WB, i, t)) <= 1 && 0 <= v(V(XB, i, t)) <= 1)
    && (forall i, t :: i in m.I && t in m.TExtend ==> v(V(YP, i, t)) >= 0 && v(V(YG, i, t)) >= 0)
  }

  predicate PerItemBounds(m: ModelData, v: Valuation)
  {
    && (forall i, t :: i in m.I && t in m.T ==> v(V(X, i, t)) >= 0 && v(V(W, i, t)) >= 0)
    && (forall i, t :: i in m.I && t in m.TExtend ==> v(V(YP, i, t)) >= 0 && v(V(YG, i, t)) >= 0)
  }

  /** A feasible plan of the order-band model. */
  predicate Feasible(m: ModelData, v: Valuation)
    requires BaseBuildable(m)
  {
    && VariableBounds(m, v)
    && InventoryCapacity(m, v) && OrderBand(m, v) && PeriodTransport(m, v) && FlowBalance(m, v)
    && GourmetFloor(m, v) && DwellLimit(m, v) && Boundary(m, v) && TransferDiversity(m, v)
    && TransferGate(m, v)
  }

  /** A feasible plan of the flat-limit model. */
  predicate PerItemFeasible(m: ModelData, v: Valuation)
    requires PerItemBuildable(m)
  {
    && PerItemBounds(m, v)
    && InventoryCapacity(m, v) && AcquisitionLimits(m, v) && TransportLimits(m, v) && FlowBalance(m, v)
    && GourmetFloor(m, v) && DwellLimit(m, v) && Boundary(m, v)
  }

  // ----- What the indicator rows imply -----

  /** C2 makes each order semi-continuous: with a binary indicator and a nonnegative
      quantity, either nothing is bought (indicator off) or the quantity lies between the
      minimum and the maximum order (indicator on). */
  lemma SemiContinuousOrder(m: ModelData, v: Valuation, i: Item, t: Period)
    requires (i, t) in m.au && (i, t) in m.moq
    requires 0 <= v(V(WB, i, t)) <= 1 && v(V(W, i, t)) >= 0
    ensures BandAt(m, v, i, t)
            <==> (v(V(WB, i, t)) == 0 && v(V(W, i, t)) == 0)
                 || (v(V(WB, i, t)) == 1 && m.moq[(i, t)] <= v(V(W, i, t)) <= m.au[(i, t)])
  {
    if v(V(WB, i, t)) == 0 {
      assert v(V(WB, i, t)) * m.moq[(i, t)] == 0 && v(V(WB, i, t)) * m.au[(i, t)] == 0;
    } else {
      assert v(V(WB, i, t)) * m.moq[(i, t)] == m.moq[(i, t)] && v(V(WB, i, t)) * m.au[(i, t)] == m.au[(i, t)];
    }
  }

  /** The number of items of `items` with a positive transfer in period t. */
  function TransferredCount(items: seq<Item>, t: Period, v: Valuation): nat
  {
    if items == [] then 0 else (if v(V(X, items[0], t)) > 0 then 1 else 0) + TransferredCount(items[1..], t, v)
  }

  /** C9 with a binary indicator: a positive transfer switches the indicator on, so the
      items transferred are no more than the indicators switched on. */
  lemma {:induction false} GateCountsTransfers(m: ModelData, v: Valuation, items: seq<Item>, t: Period)
    requires forall i :: i in items ==> 0 <= v(V(XB, i, t)) <= 1 && GateAt(m, v, i, t)
    ensures TransferredCount(items, t, v) <= SumOver(items, XB, t, v)
    decreases |items|
  {
    if items != [] {
      var i := items[0];
      assert i in items;
      GateCountsTransfers(m, v, items[1..], t);
    }
  }

  /** In a feasible plan of the order-band model, at most DiversityTransportingPacking
      items are transferred in any period. */
  lemma DiversityBoundsTransfers(m: ModelData, v: Valuation, t: Period)
    requires BaseBuildable(m) && Feasible(m, v) && t in m.T
    ensures TransferredCount(m.I, t, v) <= m.params.diversityTransportingPacking
  {
    assert forall i :: i in m.I ==> 0 <= v(V(XB, i, t)) <= 1 && GateAt(m, v, i, t);
    GateCountsTransfers(m, v, m.I, t);
    assert DiversityAt(m, v, t);
  }

  // ----- Row values -----

  lemma EvalOne(a: Term, v: Valuation)
    ensures Eval([a], v) == TermValue(a, v)
  {
    assert [a][1..] == [];
    assert Eval([a], v) == TermValue(a, v) + Eval([], v);
  }

  lemma EvalTwo(a: Term, b: Term, v: Valuation)
    ensures Eval([a, b], v) == TermValue(a, v) + TermValue(b, v)
  {
    assert [a, b][1..] == [b];
    assert [b][1..] == [];
    assert Eval([b], v) == TermValue(b, v) + Eval([], v);
  }

  lemma EvalThree(a: Term, b: Term, c: Term, v: Valuation)
    ensures Eval([a, b, c], v) == TermValue(a, v) + TermValue(b, v) + TermValue(c, v)
  {
    assert [a, b, c][1..] == [b, c];
    EvalTwo(b, c, v);
  }

  lemma EvalFour(a: Term, b: Term, c: Term, e: Term, v: Valuation)
    ensures Eval([a, b, c, e], v) == TermValue(a, v) + TermValue(b, v) + TermValue(c, v) + TermValue(e, v)
  {
    assert [a, b, c, e][1..] == [b, c, e];
    EvalThree(b, c, e, v);
  }

  lemma {:induction false} WindowValue(i: Item, t: Period, count: int, v: Valuation)
    ensures Eval(Window(i, t, count), v) == WindowSum(i, t, count, v)
    decreases count
  {
    if count > 0 {
      WindowValue(i, t, count - 1, v);
      EvalAppend(Window(i, t, count - 1), [Term(1, V(X, i, t + count))], v);
    }
  }

  lemma AllHoldOne(c: LinearConstraint, v: Valuation)
    ensures AllHold([c], v) <==> Holds(c, v)
  {
    assert [c][0] == c;
  }

  lemma AllHoldTwo(c: LinearConstraint, e: LinearConstraint, v: Valuation)
    ensures AllHold([c, e], v) <==> Holds(c, v) && Holds(e, v)
  {
    assert [c, e][0] == c && [c, e][1] == e;
  }

  lemma CapacityRowsMeaning(m: ModelData, v: Valuation, t: Period)
    ensures AllHold(CapacityRows(m, t), v) <==> CapacityAt(m, v, t)
  {
    ScaledTermsValue(m.I, YP, t, 1, v);
    ScaledTermsValue(m.I, YG, t, 1, v);
    AllHoldTwo(CapacityRows(m, t)[0], CapacityRows(m, t)[1], v);
  }

  lemma BandRowsMeaning(m: ModelData, v: Valuation, i: Item, t: Period)
    requires (i, t) in m.au && (i, t) in m.moq
    ensures AllHold(BandRows(m, i, t), v) <==> BandAt(m, v, i, t)
  {
    EvalTwo(Term(1, V(W, i, t)), Term(-m.au[(i, t)], V(WB, i, t)), v);
    EvalTwo(Term(1, V(W, i, t)), Term(-m.moq[(i, t)], V(WB, i, t)), v);
    AllHoldTwo(BandRows(m, i, t)[0], BandRows(m, i, t)[1], v);
  }

  lemma TransportRowsMeaning(m: ModelData, v: Valuation, t: Period)
    ensures AllHold(TransportRows(m, t), v) <==> TransportAt(m, v, t)
  {
    ScaledTermsValue(m.I, X, t, 1, v);
    AllHoldOne(TransportRows(m, t)[0], v);
  }

  lemma BalanceRowsMeaning(m: ModelData, v: Valuation, i: Item, t: Period)
    requires (i, t) in m.d
    ensures AllHold(BalanceRows(m, i, t), v) <==> BalanceAt(m, v, i, t)
  {
    EvalThree(Term(1, V(YG, i, t)), Term(-1, V(YG, i, t - 1)), Term(-1, V(X, i, t)), v);
    EvalFour(Term(1, V(YP, i, t)), Term(-1, V(YP, i, t - 1)), Term(-1, V(W, i, t)), Term(1, V(X, i, t)), v);
    AllHoldTwo(BalanceRows(m, i, t)[0], BalanceRows(m, i, t)[1], v);
  }

  lemma FloorRowsMeaning(m: ModelData, v: Valuation, i: Item, t: Period)
    requires (Gourmet, i) in m.ilg
    ensures AllHold(FloorRows(m, i, t), v) <==> FloorAt(m, v, i, t)
  {
    AllHoldOne(FloorRows(m, i, t)[0], v);
    EvalOne(Term(1, V(YG, i, t)), v);
  }

  lemma DwellRowsMeaning(m: ModelData, v: Valuation, i: Item, t: Period)
    requires |m.T| > 0
    ensures AllHold(DwellRows(m, i, t), v) <==> DwellAt(m, v, i, t)
  {
    if DwellApplies(m, t) {
      var mt := m.params.maxTimePackingPack;
      WindowValue(i, t, mt, v);
      EvalAppend(Window(i, t, mt), [Term(-1, V(YP, i, t))], v);
      EvalOne(Term(-1, V(YP, i, t)), v);
      AllHoldOne(DwellRows(m, i, t)[0], v);
    }
  }

  lemma BoundaryRowsMeaning(m: ModelData, v: Valuation, i: Item)
    requires (Pack, i) in m.iniInventory && (Gourmet, i) in m.iniInventory
    ensures AllHold(BoundaryRows(m, i), v) <==> BoundaryAt(m, v, i)
  {
    EvalOne(Term(1, V(YP, i, m.firstPeriod - 1)), v);
    EvalOne(Term(1, V(YG, i, m.firstPeriod - 1)), v);
    AllHoldTwo(BoundaryRows(m, i)[0], BoundaryRows(m, i)[1], v);
  }

  lemma DiversityRowsMeaning(m: ModelData, v: Valuation, t: Period)
    ensures AllHold(DiversityRows(m, t), v) <==> DiversityAt(m, v, t)
  {
    ScaledTermsValue(m.I, XB, t, 1, v);
    AllHoldOne(DiversityRows(m, t)[0], v);
  }

  lemma GateRowsMeaning(m: ModelData, v: Valuation, i: Item, t: Period)
    ensures AllHold(GateRows(m, i, t), v) <==> GateAt(m, v, i, t)
  {
    EvalTwo(Term(1, V(X, i, t)), Term(-m.params.transportingLimitByPeriod, V(XB, i, t)), v);
    AllHoldOne(GateRows(m, i, t)[0], v);
  }

  lemma AcquisitionCapRowsMeaning(m: ModelData, v: Valuation, i: Item, t: Period)
    requires (i, t) in m.acquisitionLimit
    ensures AllHold(AcquisitionCapRows(m, i, t), v) <==> AcquisitionCapAt(m, v, i, t)
  {
    EvalOne(Term(1, V(W, i, t)), v);
    AllHoldOne(AcquisitionCapRows(m, i, t)[0], v);
  }

  lemma TransportCapRowsMeaning(m: ModelData, v: Valuation, i: Item, t: Period)
    requires (i, t) in m.transportLimit
    ensures AllHold(TransportCapRows(m, i, t), v) <==> TransportCapAt(m, v, i, t)
  {
    EvalOne(Term(1, V(X, i, t)), v);
    AllHoldOne(TransportCapRows(m, i, t)[0], v);
  }

  lemma TruckSlackValue(m: ModelData, v: Valuation, t: Period)
    ensures Eval(TruckSlack(m, t), v) == m.params.transportingLimitByPeriod * v(N(t)) - SumOver(m.I, X, t, v)
  {
    var cap := m.params.transportingLimitByPeriod;
    ScaledTermsValue(m.I, X, t, -1, v);
    EvalAppend([Term(cap, N(t))], ScaledTerms(m.I, X, t, -1), v);
    EvalOne(Term(cap, N(t)), v);
  }

  lemma TruckFloorRowsMeaning(m: ModelData, v: Valuation, t: Period)
    ensures AllHold(TruckFloorRows(m, t), v) <==> TruckFloorAt(m, v, t)
  {
    TruckSlackValue(m, v, t);
    AllHoldOne(TruckFloorRows(m, t)[0], v);
  }

  lemma TruckCeilingRowsMeaning(m: ModelData, v: Valuation, t: Period)
    ensures AllHold(TruckCeilingRows(m, t), v) <==> TruckCeilingAt(m, v, t)
  {
    TruckSlackValue(m, v, t);
    AllHoldOne(TruckCeilingRows(m, t)[0], v);
  }

  lemma DiscountRowsMeaning(m: ModelData, v: Valuation, i: Item, t: Period)
    ensures AllHold(DiscountRows(m, i, t), v) <==> DiscountAt(m, v, i, t)
  {
    var dc, w, lim := V(DC, i, t), V(W, i, t), m.params.discountLimit;
    EvalTwo(Product(1, dc, w), Term(-1, w), v);
    EvalThree(Product(1, dc, w), Term(-lim, dc), Term(-1, w), v);
    assert v(dc) * (v(w) - lim) == v(dc) * v(w) - lim * v(dc);
    AllHoldTwo(DiscountRows(m, i, t)[0], DiscountRows(m, i, t)[1], v);
  }

  // ----- Lifting through the loop nests -----

  /** The rows of a loop nest hold exactly when those of each of its iterations hold. */
  lemma {:induction false} ConcatHolds(rows: Index -> seq<LinearConstraint>, idxs: seq<Index>, v: Valuation)
    ensures AllHold(Concat(rows, idxs), v) <==> forall k :: 0 <= k < |idxs| ==> AllHold(rows(idxs[k]), v)
    decreases |idxs|
  {
    if idxs != [] {
      var front, last := idxs[..|idxs| - 1], idxs[|idxs| - 1];
      ConcatHolds(rows, front, v);
      AllHoldAppend(Concat(rows, front), rows(last), v);
      assert forall k :: 0 <= k < |front| ==> idxs[k] == front[k];
    }
  }

  /** The same, stated over the indices the loop nest visits rather than its steps. */
  lemma MembersHold(rows: Index -> seq<LinearConstraint>, idxs: seq<Index>, v: Valuation)
    ensures AllHold(Concat(rows, idxs), v) <==> forall idx :: idx in idxs ==> AllHold(rows(idx), v)
  {
    ConcatHolds(rows, idxs, v);
    if AllHold(Concat(rows, idxs), v) {
      forall idx | idx in idxs ensures AllHold(rows(idx), v) {
        var k :| 0 <= k < |idxs| && idxs[k] == idx;
      }
    }
  }

  /** A loop over the periods adds rows that hold exactly when each period's rows hold. */
  lemma OverPeriodsHold(rows: Index -> seq<LinearConstraint>, ts: seq<Period>, v: Valuation)
    ensures AllHold(Concat(rows, OverPeriods(ts)), v) <==> forall t :: t in ts ==> AllHold(rows(AtPeriod(t)), v)
  {
    MembersHold(rows, OverPeriods(ts), v);
    if forall t :: t in ts ==> AllHold(rows(AtPeriod(t)), v) {
      forall idx | idx in OverPeriods(ts) ensures AllHold(rows(idx), v) {
        assert idx == AtPeriod(idx.t);
      }
    }
  }

  /** A loop over the items adds rows that hold exactly when each item's rows hold. */
  lemma OverItemsHold(rows: Index -> seq<LinearConstraint>, items: seq<Item>, v: Valuation)
    ensures AllHold(Concat(rows, OverItems(items)), v) <==> forall i :: i in items ==> AllHold(rows(AtItem(i)), v)
  {
    MembersHold(rows, OverItems(items), v);
    if forall i :: i in items ==> AllHold(rows(AtItem(i)), v) {
      forall idx | idx in OverItems(items) ensures AllHold(rows(idx), v) {
        assert idx == AtItem(idx.i);
      }
    }
  }

  /** Either nesting order of the double loop over items x periods adds rows that,
      together, hold exactly when each pair's rows hold. */
  lemma GridHold(rows: Index -> seq<LinearConstraint>, idxs: seq<Index>, items: seq<Item>, ts: seq<Period>,
                 v: Valuation)
    requires forall idx :: idx in idxs <==> idx.At? && idx.i in items && idx.t in ts
    ensures AllHold(Concat(rows, idxs), v)
            <==> forall i, t :: i in items && t in ts ==> AllHold(rows(At(i, t)), v)
  {
    MembersHold(rows, idxs, v);
    if forall i, t :: i in items && t in ts ==> AllHold(rows(At(i, t)), v) {
      forall idx | idx in idxs ensures AllHold(rows(idx), v) {
        assert idx == At(idx.i, idx.t);
      }
    }
  }

  // ----- The whole models -----

  lemma CapacityFamily(m: ModelData, v: Valuation)
    ensures Supports(m, C1) ==> (AllHold(Each(m, C1, OverPeriods(m.T)), v) <==> InventoryCapacity(m, v))
  {
    if Supports(m, C1) {
      var rows := RowsOf(m, C1);
      forall t | t in m.T ensures AllHold(rows(AtPeriod(t)), v) <==> CapacityAt(m, v, t) {
        CapacityRowsMeaning(m, v, t);
      }
      OverPeriodsHold(rows, m.T, v);
    }
  }

  lemma BandFamily(m: ModelData, v: Valuation)
    ensures Supports(m, C2) ==> (AllHold(Each(m, C2, ItemsThenPeriods(m.I, m.T)), v) <==> OrderBand(m, v))
  {
    if Supports(m, C2) {
      var rows := RowsOf(m, C2);
      forall i, t | i in m.I && t in m.T ensures AllHold(rows(At(i, t)), v) <==> BandAt(m, v, i, t) {
        BandRowsMeaning(m, v, i, t);
      }
      GridHold(rows, ItemsThenPeriods(m.I, m.T), m.I, m.T, v);
    }
  }

  lemma TransportFamily(m: ModelData, v: Valuation)
    ensures Supports(m, C3) ==> (AllHold(Each(m, C3, OverPeriods(m.T)), v) <==> PeriodTransport(m, v))
  {
    if Supports(m, C3) {
      var rows := RowsOf(m, C3);
      forall t | t in m.T ensures AllHold(rows(AtPeriod(t)), v) <==> TransportAt(m, v, t) {
        TransportRowsMeaning(m, v, t);
      }
      OverPeriodsHold(rows, m.T, v);
    }
  }

  lemma BalanceFamily(m: ModelData, v: Valuation)
    ensures Supports(m, C4) ==> (AllHold(Each(m, C4, PeriodsThenItems(m.T, m.I)), v) <==> FlowBalance(m, v))
  {
    if Supports(m, C4) {
      var rows := RowsOf(m, C4);
      forall i, t | i in m.I && t in m.T ensures AllHold(rows(At(i, t)), v) <==> BalanceAt(m, v, i, t) {
        BalanceRowsMeaning(m, v, i, t);
      }
      GridHold(rows, PeriodsThenItems(m.T, m.I), m.I, m.T, v);
    }
  }

  lemma FloorFamily(m: ModelData, v: Valuation)
    ensures Supports(m, C5) ==> (AllHold(Each(m, C5, PeriodsThenItems(m.T, m.I)), v) <==> GourmetFloor(m, v))
  {
    if Supports(m, C5) {
      var rows := RowsOf(m, C5);
      forall i, t | i in m.I && t in m.T ensures AllHold(rows(At(i, t)), v) <==> FloorAt(m, v, i, t) {
        FloorRowsMeaning(m, v, i, t);
      }
      GridHold(rows, PeriodsThenItems(m.T, m.I), m.I, m.T, v);
    }
  }

  lemma DwellFamily(m: ModelData, v: Valuation)
    ensures Supports(m, C6) ==> (AllHold(Each(m, C6, PeriodsThenItems(m.T, m.I)), v) <==> DwellLimit(m, v))
  {
    if Supports(m, C6) {
      var rows := RowsOf(m, C6);
      forall i, t | i in m.I && t in m.T ensures AllHold(rows(At(i, t)), v) <==> DwellAt(m, v, i, t) {
        DwellRowsMeaning(m, v, i, t);
      }
      GridHold(rows, PeriodsThenItems(m.T, m.I), m.I, m.T, v);
    }
  }

  lemma BoundaryFamily(m: ModelData, v: Valuation)
    ensures Supports(m, C7) ==> (AllHold(Each(m, C7, OverItems(m.I)), v) <==> Boundary(m, v))
  {
    if Supports(m, C7) {
      var rows := RowsOf(m, C7);
      forall i | i in m.I ensures AllHold(rows(AtItem(i)), v) <==> BoundaryAt(m, v, i) {
        BoundaryRowsMeaning(m, v, i);
      }
      OverItemsHold(rows, m.I, v);
    }
  }

  lemma DiversityFamily(m: ModelData, v: Valuation)
    ensures Supports(m, C8) ==> (AllHold(Each(m, C8, OverPeriods(m.T)), v) <==> TransferDiversity(m, v))
  {
    if Supports(m, C8) {
      var rows := RowsOf(m, C8);
      forall t | t in m.T ensures AllHold(rows(AtPeriod(t)), v) <==> DiversityAt(m, v, t) {
        DiversityRowsMeaning(m, v, t);
      }
      OverPeriodsHold(rows, m.T, v);
    }
  }

  lemma GateFamily(m: ModelData, v: Valuation)
    ensures Supports(m, C9) ==> (AllHold(Each(m, C9, ItemsThenPeriods(m.I, m.T)), v) <==> TransferGate(m, v))
  {
    if Supports(m, C9) {
      var rows := RowsOf(m, C9);
      forall i, t | i in m.I && t in m.T ensures AllHold(rows(At(i, t)), v) <==> GateAt(m, v, i, t) {
        GateRowsMeaning(m, v, i, t);
      }
      GridHold(rows, ItemsThenPeriods(m.I, m.T), m.I, m.T, v);
    }
  }

  lemma AcquisitionCapFamily(m: ModelData, v: Valuation)
    ensures Supports(m, AcquisitionCap)
            ==> (AllHold(Each(m, AcquisitionCap, ItemsThenPeriods(m.I, m.T)), v) <==> AcquisitionLimits(m, v))
  {
    if Supports(m, AcquisitionCap) {
      var rows := RowsOf(m, AcquisitionCap);
      forall i, t | i in m.I && t in m.T ensures AllHold(rows(At(i, t)), v) <==> AcquisitionCapAt(m, v, i, t) {
        AcquisitionCapRowsMeaning(m, v, i, t);
      }
      GridHold(rows, ItemsThenPeriods(m.I, m.T), m.I, m.T, v);
    }
  }

  lemma TransportCapFamily(m: ModelData, v: Valuation)
    ensures Supports(m, TransportCap)
            ==> (AllHold(Each(m, TransportCap, ItemsThenPeriods(m.I, m.T)), v) <==> TransportLimits(m, v))
  {
    if Supports(m, TransportCap) {
      var rows := RowsOf(m, TransportCap);
      forall i, t | i in m.I && t in m.T ensures AllHold(rows(At(i, t)), v) <==> TransportCapAt(m, v, i, t) {
        TransportCapRowsMeaning(m, v, i, t);
      }
      GridHold(rows, ItemsThenPeriods(m.I, m.T), m.I, m.T, v);
    }
  }

  /** The order-band data carry every lookup of the families it builds. */
  lemma BaseSupports(m: ModelData, fam: Family)
    ensures BaseBuildable(m) && fam != AcquisitionCap && fam != TransportCap ==> Supports(m, fam)
  {
  }

  /** The flat-limit data carry every lookup of the families it builds. */
  lemma PerItemSupports(m: ModelData, fam: Family)
    ensures PerItemBuildable(m) && fam != C2 ==> Supports(m, fam)
  {
  }

  /** The rows `_add_base_constraints` adds hold exactly when C1-C9 hold. */
  lemma BaseRowsMeaning(m: ModelData, v: Valuation)
    requires BaseBuildable(m)
    ensures AllHold(BaseRows(m), v)
            <==> && InventoryCapacity(m, v) && OrderBand(m, v) && PeriodTransport(m, v)
                 && FlowBalance(m, v) && GourmetFloor(m, v) && DwellLimit(m, v) && Boundary(m, v)
                 && TransferDiversity(m, v) && TransferGate(m, v)
  {
    BaseSupports(m, C1); BaseSupports(m, C2); BaseSupports(m, C3);
    BaseSupports(m, C4); BaseSupports(m, C5); BaseSupports(m, C6);
    BaseSupports(m, C7); BaseSupports(m, C8); BaseSupports(m, C9);
    var ip, pi := ItemsThenPeriods(m.I, m.T), PeriodsThenItems(m.T, m.I);
    var r1, r2, r3 := Each(m, C1, OverPeriods(m.T)), Each(m, C2, ip), Each(m, C3, OverPeriods(m.T));
    var r4, r5, r6 := Each(m, C4, pi), Each(m, C5, pi), Each(m, C6, pi);
    var r7, r8, r9 := Each(m, C7, OverItems(m.I)), Each(m, C8, OverPeriods(m.T)), Each(m, C9, ip);
    AllHoldNine(r1, r2, r3, r4, r5, r6, r7, r8, r9, v);
    CapacityFamily(m, v);
    BandFamily(m, v);
    TransportFamily(m, v);
    BalanceFamily(m, v);
    FloorFamily(m, v);
    DwellFamily(m, v);
    BoundaryFamily(m, v);
    DiversityFamily(m, v);
    GateFamily(m, v);
  }

  /** The rows `solve` adds hold exactly when its C1-C7 hold. */
  lemma PerItemRowsMeaning(m: ModelData, v: Valuation)
    requires PerItemBuildable(m)
    ensures AllHold(PerItemRows(m), v)
            <==> && InventoryCapacity(m, v) && AcquisitionLimits(m, v) && TransportLimits(m, v)
                 && FlowBalance(m, v) && GourmetFloor(m, v) && DwellLimit(m, v) && Boundary(m, v)
  {
    PerItemSupports(m, C1); PerItemSupports(m, AcquisitionCap); PerItemSupports(m, TransportCap);
    PerItemSupports(m, C4); PerItemSupports(m, C5); PerItemSupports(m, C6); PerItemSupports(m, C7);
    var ip, pi := ItemsThenPeriods(m.I, m.T), PeriodsThenItems(m.T, m.I);
    var r1, r2, r3 := Each(m, C1, OverPeriods(m.T)), Each(m, AcquisitionCap, ip), Each(m, TransportCap, ip);
    var r4, r5, r6 := Each(m, C4, pi), Each(m, C5, pi), Each(m, C6, pi);
    var r7 := Each(m, C7, OverItems(m.I));
    AllHoldSeven(r1, r2, r3, r4, r5, r6, r7, v);
    CapacityFamily(m, v);
    AcquisitionCapFamily(m, v);
    TransportCapFamily(m, v);
    BalanceFamily(m, v);
    FloorFamily(m, v);
    DwellFamily(m, v);
    BoundaryFamily(m, v);
  }

  /** The first batching call's rows hold exactly when every period has enough trucks. */
  lemma TruckFloorFamily(m: ModelData, v: Valuation)
    ensures Supports(m, TruckFloor)
            ==> (AllHold(Each(m, TruckFloor, OverPeriods(m.T)), v) <==> forall t :: t in m.T ==> TruckFloorAt(m, v, t))
  {
    if Supports(m, TruckFloor) {
      var rows := RowsOf(m, TruckFloor);
      forall t | t in m.T ensures AllHold(rows(AtPeriod(t)), v) <==> TruckFloorAt(m, v, t) {
        TruckFloorRowsMeaning(m, v, t);
      }
      OverPeriodsHold(rows, m.T, v);
    }
  }

  /** The second batching call's rows hold exactly when no period has a truck too many. */
  lemma TruckCeilingFamily(m: ModelData, v: Valuation)
    ensures Supports(m, TruckCeiling)
            ==> (AllHold(Each(m, TruckCeiling, OverPeriods(m.T)), v) <==> forall t :: t in m.T ==> TruckCeilingAt(m, v, t))
  {
    if Supports(m, TruckCeiling) {
      var rows := RowsOf(m, TruckCeiling);
      forall t | t in m.T ensures AllHold(rows(AtPeriod(t)), v) <==> TruckCeilingAt(m, v, t) {
        TruckCeilingRowsMeaning(m, v, t);
      }
      OverPeriodsHold(rows, m.T, v);
    }
  }

  /** Both batching calls together hold exactly when every period's truck count lies
      between what its transfers need and one truck more. */
  lemma TruckFamilies(m: ModelData, v: Valuation)
    ensures Supports(m, TruckFloor)
            ==> (AllHold(Each(m, TruckFloor, OverPeriods(m.T)) + Each(m, TruckCeiling, OverPeriods(m.T)), v)
                 <==> forall t :: t in m.T ==> TrucksAt(m, v, t))
  {
    TruckFloorFamily(m, v);
    TruckCeilingFamily(m, v);
    AllHoldAppend(Each(m, TruckFloor, OverPeriods(m.T)), Each(m, TruckCeiling, OverPeriods(m.T)), v);
  }

  /** The discount rows hold exactly when the discount condition holds at every pair. */
  lemma DiscountFamily(m: ModelData, v: Valuation)
    ensures Supports(m, Discount)
            ==> (AllHold(Each(m, Discount, ItemsThenPeriods(m.I, m.T)), v)
                 <==> forall i, t :: i in m.I && t in m.T ==> DiscountAt(m, v, i, t))
  {
    if Supports(m, Discount) {
      var rows := RowsOf(m, Discount);
      forall i, t | i in m.I && t in m.T ensures AllHold(rows(At(i, t)), v) <==> DiscountAt(m, v, i, t) {
        DiscountRowsMeaning(m, v, i, t);
      }
      GridHold(rows, ItemsThenPeriods(m.I, m.T), m.I, m.T, v);
    }
  }

  lemma DeclaredAt(decls: seq<Declaration>, v: Valuation, k: int, key: Key)
    requires DeclaredBounds(decls, v) && 0 <= k < |decls| && key in decls[k].keys
    ensures InBounds(decls[k].cat, v(V(decls[k].family, key.0, key.1)))
  {
    var j :| 0 <= j < |decls[k].keys| && decls[k].keys[j] == key;
  }

  lemma BaseGridBoundsSound(m: ModelData, v: Valuation)
    requires Indexed(m) && DeclaredBounds(BaseDeclarations(m), v)
    ensures forall i, t :: i in m.I && t in m.T ==>
              v(V(X, i, t)) >= 0 && v(V(W, i, t)) >= 0 && 0 <= v(V(WB, i, t)) <= 1 && 0 <= v(V(XB, i, t)) <= 1
  {
    var decls := BaseDeclarations(m);
    IndexedKeys(m);
    forall i, t | i in m.I && t in m.T
      ensures v(V(X, i, t)) >= 0 && v(V(W, i, t)) >= 0 && 0 <= v(V(WB, i, t)) <= 1 && 0 <= v(V(XB, i, t)) <= 1
    {
      DeclaredAt(decls, v, 2, (i, t));
      DeclaredAt(decls, v, 3, (i, t));
      DeclaredAt(decls, v, 4, (i, t));
      DeclaredAt(decls, v, 5, (i, t));
    }
  }

  lemma BaseStockBoundsSound(m: ModelData, v: Valuation)
    requires Indexed(m) && DeclaredBounds(BaseDeclarations(m), v)
    ensures forall i, t :: i in m.I && t in m.TExtend ==> v(V(YP, i, t)) >= 0 && v(V(YG, i, t)) >= 0
  {
    var decls := BaseDeclarations(m);
    IndexedKeys(m);
    forall i, t | i in m.I && t in m.TExtend ensures v(V(YP, i, t)) >= 0 && v(V(YG, i, t)) >= 0 {
      DeclaredAt(decls, v, 0, (i, t));
      DeclaredAt(decls, v, 1, (i, t));
    }
  }

  lemma BaseBoundsComplete(m: ModelData, v: Valuation)
    requires Indexed(m) && VariableBounds(m, v)
    ensures DeclaredBounds(BaseDeclarations(m), v)
  {
    var decls := BaseDeclarations(m);
    IndexedKeys(m);
    forall k, j | 0 <= k < |decls| && 0 <= j < |decls[k].keys|
      ensures InBounds(decls[k].cat, v(V(decls[k].family, decls[k].keys[j].0, decls[k].keys[j].1)))
    {
      assert decls[k].keys[j] in decls[k].keys;
    }
  }

  /** The declared variables are in bounds exactly when the model's bounds hold. */
  lemma BaseBoundsMeaning(m: ModelData, v: Valuation)
    requires Indexed(m)
    ensures DeclaredBounds(BaseDeclarations(m), v) <==> VariableBounds(m, v)
  {
    var decls := BaseDeclarations(m);
    if DeclaredBounds(decls, v) {
      BaseGridBoundsSound(m, v);
      BaseStockBoundsSound(m, v);
    }
    if VariableBounds(m, v) {
      BaseBoundsComplete(m, v);
    }
  }

  /** The flat-limit model's declared variables are in bounds exactly when its bounds hold. */
  lemma PerItemBoundsMeaning(m: ModelData, v: Valuation)
    requires Indexed(m)
    ensures DeclaredBounds(PerItemDeclarations(m), v) <==> PerItemBounds(m, v)
  {
    var decls := PerItemDeclarations(m);
    IndexedKeys(m);
    if DeclaredBounds(decls, v) {
      forall i, t | i in m.I && t in m.T ensures v(V(X, i, t)) >= 0 && v(V(W, i, t)) >= 0 {
        DeclaredAt(decls, v, 2, (i, t));
        DeclaredAt(decls, v, 3, (i, t));
      }
      forall i, t | i in m.I && t in m.TExtend ensures v(V(YP, i, t)) >= 0 && v(V(YG, i, t)) >= 0 {
        DeclaredAt(decls, v, 0, (i, t));
        DeclaredAt(decls, v, 1, (i, t));
      }
    }
    if PerItemBounds(m, v) {
      forall k, j | 0 <= k < |decls| && 0 <= j < |decls[k].keys|
        ensures InBounds(decls[k].cat, v(V(decls[k].family, decls[k].keys[j].0, decls[k].keys[j].1)))
      {
        assert decls[k].keys[j] in decls[k].keys;
      }
    }
  }

  /** Adding `dc`'s declaration keeps the earlier declarations' bounds and makes every
      discount indicator of I x T binary; nothing else. */
  lemma DiscountBoundsMeaning(m: ModelData, decls: seq<Declaration>, v: Valuation)
    ensures DeclaredBounds(decls + [DiscountDeclaration(m)], v)
            <==> DeclaredBounds(decls, v) && forall i, t :: i in m.I && t in m.T ==> 0 <= v(V(DC, i, t)) <= 1
  {
    var all, d := decls + [DiscountDeclaration(m)], DiscountDeclaration(m);
    PairsMembers(m.I, m.T);
    if DeclaredBounds(all, v) {
      forall k, j | 0 <= k < |decls| && 0 <= j < |decls[k].keys|
        ensures InBounds(decls[k].cat, v(V(decls[k].family, decls[k].keys[j].0, decls[k].keys[j].1)))
      {
        assert all[k] == decls[k];
      }
      forall i, t | i in m.I && t in m.T ensures 0 <= v(V(DC, i, t)) <= 1 {
        DeclaredAt(all, v, |decls|, (i, t));
      }
    }
    if DeclaredBounds(decls, v) && forall i, t :: i in m.I && t in m.T ==> 0 <= v(V(DC, i, t)) <= 1 {
      forall k, j | 0 <= k < |all| && 0 <= j < |all[k].keys|
        ensures InBounds(all[k].cat, v(V(all[k].family, all[k].keys[j].0, all[k].keys[j].1)))
      {
        if k == |decls| {
          assert d.keys[j] in Pairs(m.I, m.T);
        } else {
          assert all[k] == decls[k];
        }
      }
    }
  }

  /** A valuation satisfies the built order-band model (its declared bounds and every row)
      exactly when it is a feasible plan. */
  lemma BaseModelMeaning(m: ModelData, v: Valuation)
    requires BaseBuildable(m)
    ensures DeclaredBounds(BaseDeclarations(m), v) && AllHold(BaseRows(m), v) <==> Feasible(m, v)
  {
    BaseRowsMeaning(m, v);
    BaseBoundsMeaning(m, v);
  }

  /** The same for the flat-limit model. */
  lemma PerItemModelMeaning(m: ModelData, v: Valuation)
    requires PerItemBuildable(m)
    ensures DeclaredBounds(PerItemDeclarations(m), v) && AllHold(PerItemRows(m), v) <==> PerItemFeasible(m, v)
  {
    PerItemRowsMeaning(m, v);
    PerItemBoundsMeaning(m, v);
  }
}
