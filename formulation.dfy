/** The mathematical formulation as data: the index sets and parameter maps derived
    from the input tables, the rows each constraint family contributes at one index,
    the order in which the builder's nested loops visit the indices, and the
    variable declarations and objective terms. */
module Formulation {
  import opened Types
  import opened Collections
  import opened Lp

  /** What `DatIn` (or the first lines of `solve`) derive from the tables: the sets
      I, T and T_extend (duplicate-free, in iteration order), first_period, the
      parameter dictionaries and the variable key lists. */
  datatype ModelData = ModelData(
    I: seq<Item>,
    T: seq<Period>,
    TExtend: seq<Period>,
    firstPeriod: Period,
    d: map<Key, int>,
    ilg: map<(Site, Item), int>,
    iniInventory: map<(Site, Item), int>,
    invenCost: map<(Site, Item), real>,
    c: map<Item, real>,
    au: map<Key, int>,
    moq: map<Key, int>,
    acquisitionLimit: map<Key, int>,
    transportLimit: map<Key, int>,
    params: Params,
    xKeys: seq<Key>,
    ypKeys: seq<Key>)

  /** The shape the index builder gives the sets and key lists. */
  predicate Indexed(m: ModelData)
  {
    && NoDups(m.I) && NoDups(m.T) && |m.T| > 0
    && m.firstPeriod == Min(m.T)
    && m.TExtend == m.T + [m.firstPeriod - 1]
    && m.xKeys == Pairs(m.I, m.T)
    && m.ypKeys == Pairs(m.I, m.TExtend)
  }

  /** The key lists hold exactly the pairs of I x T and of I x T_extend. */
  lemma IndexedKeys(m: ModelData)
    requires Indexed(m)
    ensures forall p :: p in m.xKeys <==> p.0 in m.I && p.1 in m.T
    ensures forall p :: p in m.ypKeys <==> p.0 in m.I && p.1 in m.TExtend
  {
    PairsMembers(m.I, m.T);
    PairsMembers(m.I, m.TExtend);
  }

  /** Every dictionary lookup the flow-balance, floor, boundary and objective code
      performs on the data succeeds. */
  predicate SharedLookups(m: ModelData)
  {
    && (forall i, t :: i in m.I && t in m.T ==> (i, t) in m.d)
    && (forall i :: i in m.I ==>
          && i in m.c
          && (Pack, i) in m.iniInventory && (Gourmet, i) in m.iniInventory
          && (Gourmet, i) in m.ilg
          && (Pack, i) in m.invenCost && (Gourmet, i) in m.invenCost)
  }

  /** The lookups `yp[i, t - 1]`, `yg[i, t - 1]` of the flow balance succeed: the
      period before each period of T is in T_extend. */
  predicate PreviousPeriods(m: ModelData)
  {
    forall t :: t in m.T ==> t - 1 in m.TExtend
  }

  /** The lookups `x[i, t + l]` of the dwell constraint succeed. */
  predicate DwellLookups(m: ModelData)
    requires |m.T| > 0
  {
    forall t :: t in m.T && DwellApplies(m, t) ==> WindowInHorizon(m, t)
  }

  /** The periods t + 1 .. t + M all belong to the horizon. */
  predicate WindowInHorizon(m: ModelData, t: Period)
  {
    forall q :: t < q <= t + m.params.maxTimePackingPack ==> q in m.T
  }

  /** The periods of T form an unbroken range from min(T) to max(T). */
  predicate Contiguous(ts: seq<Period>)
    requires |ts| > 0
  {
    forall q :: Min(ts) <= q <= Max(ts) ==> q in ts
  }

  /** On an unbroken horizon the `t - 1` lookups of the flow balance and the `t + l`
      lookups of the dwell rows all succeed: the period before a period of T is in
      T_extend, and a window starting no later than max(T) - M ends inside T. */
  lemma ContiguousLookups(m: ModelData)
    requires Indexed(m) && Contiguous(m.T)
    ensures PreviousPeriods(m) && DwellLookups(m)
  {
    ContiguousPrevious(m);
    ContiguousWindows(m);
  }

  /** On an unbroken horizon, `t - 1` is a period of T or the boundary period. */
  lemma ContiguousPrevious(m: ModelData)
    requires Indexed(m) && Contiguous(m.T)
    ensures PreviousPeriods(m)
  {
    forall t | t in m.T ensures t - 1 in m.TExtend {
      if t != m.firstPeriod {
        assert Min(m.T) <= t - 1 <= Max(m.T);
        assert t - 1 in m.T;
      }
    }
  }

  /** On an unbroken horizon, every dwell window the guard admits lies in T. */
  lemma ContiguousWindows(m: ModelData)
    requires Indexed(m) && Contiguous(m.T)
    ensures DwellLookups(m)
  {
    forall t | t in m.T && DwellApplies(m, t) ensures WindowInHorizon(m, t) {
      forall q | t < q <= t + m.params.maxTimePackingPack ensures q in m.T {
        assert Min(m.T) <= q <= Max(m.T);
      }
    }
  }

  /** The order-band lookups `au[i, t]`, `moq[i, t]` succeed. */
  predicate BandLookups(m: ModelData)
  {
    forall i, t :: i in m.I && t in m.T ==> (i, t) in m.au && (i, t) in m.moq
  }

  /** The per-item limit lookups of the flat-limit formulation succeed. */
  predicate LimitLookups(m: ModelData)
  {
    forall i, t :: i in m.I && t in m.T ==> (i, t) in m.acquisitionLimit && (i, t) in m.transportLimit
  }

  /** The constraint families. C1-C9 are those of the order-band model; AcquisitionCap
      and TransportCap are the per-(item, period) caps of the flat-limit model (its C2
      and C3); TruckFloor and TruckCeiling (the two batching calls) and Discount are the
      cost-complexity extensions. */
  datatype Family = C1 | C2 | C3 | C4 | C5 | C6 | C7 | C8 | C9
                  | AcquisitionCap | TransportCap | TruckFloor | TruckCeiling | Discount

  /** The loop index at which a family adds its rows. */
  datatype Index = AtPeriod(t: Period) | AtItem(i: Item) | At(i: Item, t: Period)

  predicate InGrid(m: ModelData, idx: Index)
  {
    match idx
    case AtPeriod(t) => t in m.T
    case AtItem(i) => i in m.I
    case At(i, t) => i in m.I && t in m.T
  }

  /** What building a family's rows needs from the data. */
  predicate Supports(m: ModelData, fam: Family)
  {
    CommonLookups(m) && FamilyLookups(m, fam)
  }

  /** The shape and lookups every family relies on. */
  predicate CommonLookups(m: ModelData)
  {
    Indexed(m) && SharedLookups(m) && DwellLookups(m)
  }

  /** The lookups particular to one family. */
  predicate FamilyLookups(m: ModelData, fam: Family)
  {
    && (fam == C2 ==> BandLookups(m))
    && (fam == AcquisitionCap || fam == TransportCap ==> LimitLookups(m))
  }

  /** `[x[i, t + 1], ..., x[i, t + count]]`. */
  function Window(i: Item, t: Period, count: int): (r: seq<Term>)
    decreases count
  {
    if count <= 0 then [] else Window(i, t, count - 1) + [Term(1, V(X, i, t + count))]
  }

  /** `Σ_{l = 1..count} x[i, t + l]`. */
  function WindowSum(i: Item, t: Period, count: int, val: Valuation): int
    decreases count
  {
    if count <= 0 then 0 else WindowSum(i, t, count - 1, val) + val(V(X, i, t + count))
  }

  /** Whether period t is far enough from the horizon end to carry a dwell row. */
  predicate DwellApplies(m: ModelData, t: Period)
    requires |m.T| > 0
  {
    t <= Max(m.T) - m.params.maxTimePackingPack
  }

  /** C1 at period t: `Σ yp[i, t] <= InventoryCapacityPack`, `Σ yg[i, t] <= InventoryCapacityGourmet`. */
  function CapacityRows(m: ModelData, t: Period): seq<LinearConstraint>
  {
    [Constraint(ScaledTerms(m.I, YP, t, 1), Le, m.params.inventoryCapacityPack),
     Constraint(ScaledTerms(m.I, YG, t, 1), Le, m.params.inventoryCapacityGourmet)]
  }

  /** C2 at (i, t): `w <= wb * au`, `w >= wb * moq`. */
  function BandRows(m: ModelData, i: Item, t: Period): seq<LinearConstraint>
    requires (i, t) in m.au && (i, t) in m.moq
  {
    [Constraint([Term(1, V(W, i, t)), Term(-m.au[(i, t)], V(WB, i, t))], Le, 0),
     Constraint([Term(1, V(W, i, t)), Term(-m.moq[(i, t)], V(WB, i, t))], Ge, 0)]
  }

  /** C3 at period t: `Σ x[i, t] <= TransportingLimitByPeriod`. */
  function TransportRows(m: ModelData, t: Period): seq<LinearConstraint>
  {
    [Constraint(ScaledTerms(m.I, X, t, 1), Le, m.params.transportingLimitByPeriod)]
  }

  /** C4 at (i, t): `yg[i, t] == yg[i, t - 1] + x[i, t] - d[i, t]`,
      `yp[i, t] == yp[i, t - 1] + w[i, t] - x[i, t]`. */
  function BalanceRows(m: ModelData, i: Item, t: Period): seq<LinearConstraint>
    requires (i, t) in m.d
  {
    [Constraint([Term(1, V(YG, i, t)), Term(-1, V(YG, i, t - 1)), Term(-1, V(X, i, t))], Eq, -m.d[(i, t)]),
     Constraint([Term(1, V(YP, i, t)), Term(-1, V(YP, i, t - 1)), Term(-1, V(W, i, t)), Term(1, V(X, i, t))], Eq, 0)]
  }

  /** C5 at (i, t): `yg[i, t] >= ilg['Gourmet', i]`. */
  function FloorRows(m: ModelData, i: Item, t: Period): seq<LinearConstraint>
    requires (Gourmet, i) in m.ilg
  {
    [Constraint([Term(1, V(YG, i, t))], Ge, m.ilg[(Gourmet, i)])]
  }

  /** C6 at (i, t), behind its guard: `Σ_{l = 1..M} x[i, t + l] >= yp[i, t]`. */
  function DwellRows(m: ModelData, i: Item, t: Period): seq<LinearConstraint>
    requires |m.T| > 0
  {
    if DwellApplies(m, t)
    then [Constraint(Window(i, t, m.params.maxTimePackingPack) + [Term(-1, V(YP, i, t))], Ge, 0)]
    else []
  }

  /** C7 at item i: `yp[i, first - 1] == ini['Pack', i]`, `yg[i, first - 1] == ini['Gourmet', i]`. */
  function BoundaryRows(m: ModelData, i: Item): seq<LinearConstraint>
    requires (Pack, i) in m.iniInventory && (Gourmet, i) in m.iniInventory
  {
    [Constraint([Term(1, V(YP, i, m.firstPeriod - 1))], Eq, m.iniInventory[(Pack, i)]),
     Constraint([Term(1, V(YG, i, m.firstPeriod - 1))], Eq, m.iniInventory[(Gourmet, i)])]
  }

  /** C8 at period t: `Σ xb[i, t] <= DiversityTransportingPacking`. */
  function DiversityRows(m: ModelData, t: Period): seq<LinearConstraint>
  {
    [Constraint(ScaledTerms(m.I, XB, t, 1), Le, m.params.diversityTransportingPacking)]
  }

  /** C9 at (i, t): `x[i, t] <= xb[i, t] * TransportingLimitByPeriod`. */
  function GateRows(m: ModelData, i: Item, t: Period): seq<LinearConstraint>
  {
    [Constraint([Term(1, V(X, i, t)), Term(-m.params.transportingLimitByPeriod, V(XB, i, t))], Le, 0)]
  }

  /** Flat-limit C2 at (i, t): `w[i, t] <= acquisition_limit_period[i, t]`. */
  function AcquisitionCapRows(m: ModelData, i: Item, t: Period): seq<LinearConstraint>
    requires (i, t) in m.acquisitionLimit
  {
    [Constraint([Term(1, V(W, i, t))], Le, m.acquisitionLimit[(i, t)])]
  }

  /** Flat-limit C3 at (i, t): `x[i, t] <= transport_limit_period[i, t]`. */
  function TransportCapRows(m: ModelData, i: Item, t: Period): seq<LinearConstraint>
    requires (i, t) in m.transportLimit
  {
    [Constraint([Term(1, V(X, i, t))], Le, m.transportLimit[(i, t)])]
  }

  /** `cap * n[t] - Σ x[i, t]`: the batching rows with the division by the truck
      capacity multiplied out. */
  function TruckSlack(m: ModelData, t: Period): seq<Term>
  {
    [Term(m.params.transportingLimitByPeriod, N(t))] + ScaledTerms(m.I, X, t, -1)
  }

  /** First batching call at period t: `n[t] >= Σ x[i, t] / cap`. */
  function TruckFloorRows(m: ModelData, t: Period): seq<LinearConstraint>
  {
    [Constraint(TruckSlack(m, t), Ge, 0)]
  }

  /** Second batching call at period t: `n[t] <= Σ x[i, t] / cap + 1`. */
  function TruckCeilingRows(m: ModelData, t: Period): seq<LinearConstraint>
  {
    [Constraint(TruckSlack(m, t), Le, m.params.transportingLimitByPeriod)]
  }

  /** Discount at (i, t): `dc * w >= w - L`, `dc * (w - L) >= w - L`. */
  function DiscountRows(m: ModelData, i: Item, t: Period): seq<LinearConstraint>
  {
    var lim := m.params.discountLimit;
    [Constraint([Product(1, V(DC, i, t), V(W, i, t)), Term(-1, V(W, i, t))], Ge, -lim),
     Constraint([Product(1, V(DC, i, t), V(W, i, t)), Term(-lim, V(DC, i, t)), Term(-1, V(W, i, t))], Ge, -lim)]
  }

  /** Where a family's loop body runs: the family's lookups succeed and the index is one
      its loops visit. Elsewhere the source raises `KeyError`; the model adds no rows. */
  predicate Builds(m: ModelData, fam: Family, idx: Index)
  {
    Supports(m, fam) && InGrid(m, idx)
  }

  /** One loop iteration of a family, as the function from the loop index to the rows it
      adds, in the order of its `addConstraint` calls. */
  function RowsOf(m: ModelData, fam: Family): Index -> seq<LinearConstraint>
  {
    match fam
    case C1 => idx => if Builds(m, C1, idx) && idx.AtPeriod? then CapacityRows(m, idx.t) else []
    case C2 => idx => if Builds(m, C2, idx) && idx.At? then BandRows(m, idx.i, idx.t) else []
    case C3 => idx => if Builds(m, C3, idx) && idx.AtPeriod? then TransportRows(m, idx.t) else []
    case C4 => idx => if Builds(m, C4, idx) && idx.At? then BalanceRows(m, idx.i, idx.t) else []
    case C5 => idx => if Builds(m, C5, idx) && idx.At? then FloorRows(m, idx.i, idx.t) else []
    case C6 => idx => if Builds(m, C6, idx) && idx.At? then DwellRows(m, idx.i, idx.t) else []
    case C7 => idx => if Builds(m, C7, idx) && idx.AtItem? then BoundaryRows(m, idx.i) else []
    case C8 => idx => if Builds(m, C8, idx) && idx.AtPeriod? then DiversityRows(m, idx.t) else []
    case C9 => idx => if Builds(m, C9, idx) && idx.At? then GateRows(m, idx.i, idx.t) else []
    case AcquisitionCap =>
      idx => if Builds(m, AcquisitionCap, idx) && idx.At? then AcquisitionCapRows(m, idx.i, idx.t) else []
    case TransportCap =>
      idx => if Builds(m, TransportCap, idx) && idx.At? then TransportCapRows(m, idx.i, idx.t) else []
    case TruckFloor => idx => if Builds(m, TruckFloor, idx) && idx.AtPeriod? then TruckFloorRows(m, idx.t) else []
    case TruckCeiling =>
      idx => if Builds(m, TruckCeiling, idx) && idx.AtPeriod? then TruckCeilingRows(m, idx.t) else []
    case Discount => idx => if Builds(m, Discount, idx) && idx.At? then DiscountRows(m, idx.i, idx.t) else []
  }

  /** The rows the loop iteration of family `fam` at `idx` adds. */
  function Rows(m: ModelData, fam: Family, idx: Index): seq<LinearConstraint>
  {
    RowsOf(m, fam)(idx)
  }

  /** The rows a loop nest visiting `idxs` in order adds, when one iteration at `idx`
      adds `rows(idx)`: each iteration's rows after those of the iterations before it. */
  function Concat(rows: Index -> seq<LinearConstraint>, idxs: seq<Index>): seq<LinearConstraint>
  {
    if idxs == [] then [] else Concat(rows, idxs[..|idxs| - 1]) + rows(idxs[|idxs| - 1])
  }

  /** The rows of a family's loop nest visiting `idxs` in order. */
  function Each(m: ModelData, fam: Family, idxs: seq<Index>): seq<LinearConstraint>
  {
    Concat(RowsOf(m, fam), idxs)
  }

  /** One more loop iteration appends its rows. */
  lemma ConcatSnoc(rows: Index -> seq<LinearConstraint>, idxs: seq<Index>, x: Index)
    ensures Concat(rows, idxs + [x]) == Concat(rows, idxs) + rows(x)
  {
    assert (idxs + [x])[..|idxs|] == idxs;
  }

  /** Consecutive loops append their rows. */
  lemma {:induction false} ConcatAppend(rows: Index -> seq<LinearConstraint>, a: seq<Index>, b: seq<Index>)
    ensures Concat(rows, a + b) == Concat(rows, a) + Concat(rows, b)
    decreases |b|
  {
    if b == [] {
      assert a + b == a;
    } else {
      var front, last := b[..|b| - 1], b[|b| - 1];
      assert b == front + [last];
      ConcatAppend(rows, a, front);
      assert a + b == (a + front) + [last];
      ConcatSnoc(rows, a + front, last);
      ConcatSnoc(rows, front, last);
      AppendAssoc(Concat(rows, a), Concat(rows, front), rows(last));
    }
  }

  /** `for t in T`. */
  function OverPeriods(ts: seq<Period>): (r: seq<Index>)
    ensures forall idx :: idx in r <==> idx.AtPeriod? && idx.t in ts
  {
    if ts == [] then []
    else
      var front := ts[..|ts| - 1];
      assert forall y :: y in ts <==> y in front || y == ts[|ts| - 1] by {
        assert ts == front + [ts[|ts| - 1]];
      }
      OverPeriods(front) + [AtPeriod(ts[|ts| - 1])]
  }

  /** `for i in I`. */
  function OverItems(items: seq<Item>): (r: seq<Index>)
    ensures forall idx :: idx in r <==> idx.AtItem? && idx.i in items
  {
    if items == [] then []
    else
      var front := items[..|items| - 1];
      assert forall y :: y in items <==> y in front || y == items[|items| - 1] by {
        assert items == front + [items[|items| - 1]];
      }
      OverItems(front) + [AtItem(items[|items| - 1])]
  }

  /** The inner loop `for i in I` at a fixed period. */
  function ItemsAt(items: seq<Item>, t: Period): (r: seq<Index>)
    ensures |r| == |items|
    ensures forall k :: 0 <= k < |items| ==> r[k] == At(items[k], t)
  {
    if items == [] then [] else ItemsAt(items[..|items| - 1], t) + [At(items[|items| - 1], t)]
  }

  /** The inner loop `for t in T` at a fixed item. */
  function PeriodsFor(i: Item, ts: seq<Period>): (r: seq<Index>)
    ensures |r| == |ts|
    ensures forall k :: 0 <= k < |ts| ==> r[k] == At(i, ts[k])
  {
    if ts == [] then [] else PeriodsFor(i, ts[..|ts| - 1]) + [At(i, ts[|ts| - 1])]
  }

  /** `for i in I: for t in T`: visits exactly the pairs of I x T. */
  function ItemsThenPeriods(items: seq<Item>, ts: seq<Period>): (r: seq<Index>)
    ensures forall idx :: idx in r <==> idx.At? && idx.i in items && idx.t in ts
  {
    if items == [] then []
    else
      var front := items[..|items| - 1];
      assert forall y :: y in items <==> y in front || y == items[|items| - 1] by {
        assert items == front + [items[|items| - 1]];
      }
      ItemsThenPeriods(front, ts) + PeriodsFor(items[|items| - 1], ts)
  }

  /** `for t in T: for i in I`: visits exactly the pairs of I x T. */
  function PeriodsThenItems(ts: seq<Period>, items: seq<Item>): (r: seq<Index>)
    ensures forall idx :: idx in r <==> idx.At? && idx.i in items && idx.t in ts
  {
    if ts == [] then []
    else
      var front := ts[..|ts| - 1];
      assert forall y :: y in ts <==> y in front || y == ts[|ts| - 1] by {
        assert ts == front + [ts[|ts| - 1]];
      }
      PeriodsThenItems(front, items) + ItemsAt(items, ts[|ts| - 1])
  }

  /** What the order-band builder needs from the data. */
  predicate BaseBuildable(m: ModelData)
  {
    Indexed(m) && SharedLookups(m) && PreviousPeriods(m) && DwellLookups(m) && BandLookups(m)
  }

  /** What the flat-limit builder needs from the data. */
  predicate PerItemBuildable(m: ModelData)
  {
    Indexed(m) && SharedLookups(m) && PreviousPeriods(m) && DwellLookups(m) && LimitLookups(m)
  }

  /** The constraints of the order-band model in the order `_add_base_constraints` adds them. */
  function BaseRows(m: ModelData): seq<LinearConstraint>
    requires BaseBuildable(m)
  {
    Each(m, C1, OverPeriods(m.T)) + Each(m, C2, ItemsThenPeriods(m.I, m.T)) + Each(m, C3, OverPeriods(m.T))
    + Each(m, C4, PeriodsThenItems(m.T, m.I)) + Each(m, C5, PeriodsThenItems(m.T, m.I))
    + Each(m, C6, PeriodsThenItems(m.T, m.I)) + Each(m, C7, OverItems(m.I)) + Each(m, C8, OverPeriods(m.T))
    + Each(m, C9, ItemsThenPeriods(m.I, m.T))
  }

  /** The constraints of the flat-limit model in the order `solve` adds them. */
  function PerItemRows(m: ModelData): seq<LinearConstraint>
    requires PerItemBuildable(m)
  {
    Each(m, C1, OverPeriods(m.T)) + Each(m, AcquisitionCap, ItemsThenPeriods(m.I, m.T))
    + Each(m, TransportCap, ItemsThenPeriods(m.I, m.T)) + Each(m, C4, PeriodsThenItems(m.T, m.I))
    + Each(m, C5, PeriodsThenItems(m.T, m.I)) + Each(m, C6, PeriodsThenItems(m.T, m.I))
    + Each(m, C7, OverItems(m.I))
  }

  /** `LpVariable.dicts(indices=keys, cat=...)` for one family. */
  datatype Declaration = Dicts(family: VarFamily, keys: seq<Key>, cat: Category)

  /** The variables of the order-band model, in declaration order: yp, yg over
      I x T_extend, x, w over I x T (integers, lower bound 0), wb, xb binary. */
  function BaseDeclarations(m: ModelData): seq<Declaration>
  {
    [Dicts(YP, m.ypKeys, Integer), Dicts(YG, m.ypKeys, Integer), Dicts(X, m.xKeys, Integer),
     Dicts(W, m.xKeys, Integer), Dicts(WB, m.xKeys, Binary), Dicts(XB, m.xKeys, Binary)]
  }

  /** The variables of the flat-limit model: y, z over I x T_extend, x, w over I x T. */
  function PerItemDeclarations(m: ModelData): seq<Declaration>
  {
    [Dicts(YP, m.ypKeys, Integer), Dicts(YG, m.ypKeys, Integer), Dicts(X, m.xKeys, Integer),
     Dicts(W, m.xKeys, Integer)]
  }

  /** Every declared variable takes a value inside its bounds. */
  predicate DeclaredBounds(decls: seq<Declaration>, val: Valuation)
  {
    forall k, j :: 0 <= k < |decls| && 0 <= j < |decls[k].keys| ==>
      InBounds(decls[k].cat, val(V(decls[k].family, decls[k].keys[j].0, decls[k].keys[j].1)))
  }

  /** `discount_complexity`'s `dc`: one binary indicator per (i, t), `for i in I for t in T`. */
  function DiscountDeclaration(m: ModelData): Declaration
  {
    Dicts(DC, Pairs(m.I, m.T), Binary)
  }

  /** `transporting_cost_complexity`'s `n`: every declared truck count is an integer with
      lower bound 0. */
  predicate CountBounds(periods: seq<Period>, val: Valuation)
  {
    forall j :: 0 <= j < |periods| ==> InBounds(Integer, val(N(periods[j])))
  }

  predicate Declared(decls: seq<Declaration>, v: Var)
  {
    v.V? && exists k :: 0 <= k < |decls| && decls[k].family == v.family && (v.i, v.t) in decls[k].keys
  }

  /** The objective coefficient of a family at an item: unit price for w, the Pack and
      Gourmet holding costs for yp and yg. */
  function Coef(m: ModelData, family: VarFamily, i: Item): real
    requires SharedLookups(m) && i in m.I
  {
    match family
    case W => m.c[i]
    case YP => m.invenCost[(Pack, i)]
    case YG => m.invenCost[(Gourmet, i)]
    case _ => 0.0
  }

  /** `lpSum(coef[i] * family[i, t] for (i, t) in keys)`. */
  function CostTerms(m: ModelData, keys: seq<Key>, family: VarFamily): (r: seq<ObjTerm>)
    requires SharedLookups(m) && forall k :: 0 <= k < |keys| ==> keys[k].0 in m.I
    ensures |r| == |keys|
    ensures forall k :: 0 <= k < |keys| ==> r[k].v == V(family, keys[k].0, keys[k].1)
  {
    if keys == [] then []
    else [ObjTerm(Coef(m, family, keys[0].0), V(family, keys[0].0, keys[0].1))] + CostTerms(m, keys[1..], family)
  }

  /** The objective of both formulations: acquisition at unit price plus holding cost at
      both sites, over I x T in the order of the key list. */
  function BaseObjective(m: ModelData): seq<ObjTerm>
    requires Indexed(m) && SharedLookups(m)
  {
    IndexedKeys(m);
    CostTerms(m, m.xKeys, W) + CostTerms(m, m.xKeys, YP) + CostTerms(m, m.xKeys, YG)
  }

  /** The batching extension's objective: 350 per truck in every period. */
  function BatchObjective(ts: seq<Period>): (r: seq<ObjTerm>)
    ensures |r| == |ts|
    ensures forall k :: 0 <= k < |ts| ==> r[k] == ObjTerm(350.0, N(ts[k]))
  {
    if ts == [] then [] else [ObjTerm(350.0, N(ts[0]))] + BatchObjective(ts[1..])
  }

  /** `lpSum(-0.10 * c[i] * w[i, t] for i in I for t in T)`. */
  function DiscountTerms(m: ModelData, keys: seq<Key>): (r: seq<ObjTerm>)
    requires SharedLookups(m) && forall k :: 0 <= k < |keys| ==> keys[k].0 in m.I
    ensures |r| == |keys|
  {
    if keys == [] then []
    else [ObjTerm(-0.10 * m.c[keys[0].0], V(W, keys[0].0, keys[0].1))] + DiscountTerms(m, keys[1..])
  }

  /** The rebate `discount_complexity` adds to the objective, over the x keys I x T. */
  function DiscountObjective(m: ModelData): seq<ObjTerm>
    requires Indexed(m) && SharedLookups(m)
  {
    IndexedKeys(m);
    DiscountTerms(m, m.xKeys)
  }
}
