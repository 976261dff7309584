/** What the objective expressions are worth: the base cost as a sum of per-key costs,
    the truck cost of the batching extension, and the rebate of the discount extension. */
module Costs {
  import opened Types
  import opened Collections
  import opened Lp
  import opened Formulation
  import opened Feasibility

  /** `Σ_{(i, t) in keys} Coef(family, i) * family[i, t]`. */
  function PartCost(m: ModelData, v: Valuation, keys: seq<Key>, family: VarFamily): real
    requires SharedLookups(m) && forall k :: 0 <= k < |keys| ==> keys[k].0 in m.I
  {
    if keys == [] then 0.0
    else Coef(m, family, keys[0].0) * (v(V(family, keys[0].0, keys[0].1)) as real) + PartCost(m, v, keys[1..], family)
  }

  /** What one (item, period) costs: the units bought at unit price, and the stock held
      at Pack and at Gourmet at their holding costs. */
  function KeyCost(m: ModelData, v: Valuation, i: Item, t: Period): real
    requires SharedLookups(m) && i in m.I
  {
    m.c[i] * (v(V(W, i, t)) as real)
    + m.invenCost[(Pack, i)] * (v(V(YP, i, t)) as real)
    + m.invenCost[(Gourmet, i)] * (v(V(YG, i, t)) as real)
  }

  function CostOver(m: ModelData, v: Valuation, keys: seq<Key>): real
    requires SharedLookups(m) && forall k :: 0 <= k < |keys| ==> keys[k].0 in m.I
  {
    if keys == [] then 0.0 else KeyCost(m, v, keys[0].0, keys[0].1) + CostOver(m, v, keys[1..])
  }

  /** Total cost of a plan over the horizon: the sum of KeyCost over I x T. */
  function Cost(m: ModelData, v: Valuation): real
    requires Indexed(m) && SharedLookups(m)
  {
    IndexedKeys(m);
    CostOver(m, v, m.xKeys)
  }

  lemma {:induction false} CostTermsValue(m: ModelData, keys: seq<Key>, family: VarFamily, v: Valuation)
    requires SharedLookups(m) && forall k :: 0 <= k < |keys| ==> keys[k].0 in m.I
    ensures EvalObj(CostTerms(m, keys, family), v) == PartCost(m, v, keys, family)
    decreases |keys|
  {
    if keys != [] {
      CostTermsValue(m, keys[1..], family, v);
      var head := ObjTerm(Coef(m, family, keys[0].0), V(family, keys[0].0, keys[0].1));
      assert CostTerms(m, keys, family) == [head] + CostTerms(m, keys[1..], family);
      assert ([head] + CostTerms(m, keys[1..], family))[1..] == CostTerms(m, keys[1..], family);
    }
  }

  lemma {:induction false} CostSplit(m: ModelData, v: Valuation, keys: seq<Key>)
    requires SharedLookups(m) && forall k :: 0 <= k < |keys| ==> keys[k].0 in m.I
    ensures CostOver(m, v, keys) == PartCost(m, v, keys, W) + PartCost(m, v, keys, YP) + PartCost(m, v, keys, YG)
    decreases |keys|
  {
    if keys != [] {
      CostSplit(m, v, keys[1..]);
    }
  }

  /** The objective `_build_objective` (and `solve`) sets is the total cost of the plan. */
  lemma ObjectiveIsCost(m: ModelData, v: Valuation)
    requires Indexed(m) && SharedLookups(m)
    ensures EvalObj(BaseObjective(m), v) == Cost(m, v)
  {
    KeyItems(m);
    var keys := m.xKeys;
    EvalObjAppend(CostTerms(m, keys, W) + CostTerms(m, keys, YP), CostTerms(m, keys, YG), v);
    EvalObjAppend(CostTerms(m, keys, W), CostTerms(m, keys, YP), v);
    CostTermsValue(m, keys, W, v);
    CostTermsValue(m, keys, YP, v);
    CostTermsValue(m, keys, YG, v);
    CostSplit(m, v, keys);
  }

  /** Every key of the transfer dictionary names an item of I. */
  lemma KeyItems(m: ModelData)
    requires Indexed(m)
    ensures forall k :: 0 <= k < |m.xKeys| ==> m.xKeys[k].0 in m.I
  {
    IndexedKeys(m);
    assert forall k :: 0 <= k < |m.xKeys| ==> m.xKeys[k] in m.xKeys;
  }

  /** The objective reads only the horizon's own variables: never the stock before the
      first period, nor transfers or indicators. */
  lemma ObjectiveReadsHorizon(m: ModelData)
    requires Indexed(m) && SharedLookups(m)
    ensures forall k :: 0 <= k < |BaseObjective(m)| ==>
              var u := BaseObjective(m)[k].v;
              u.V? && u.family in {W, YP, YG} && u.i in m.I && u.t in m.T && u.t != m.firstPeriod - 1
  {
    IndexedKeys(m);
    var keys := m.xKeys;
    var a, b, c := CostTerms(m, keys, W), CostTerms(m, keys, YP), CostTerms(m, keys, YG);
    forall k | 0 <= k < |a + b + c|
      ensures var u := (a + b + c)[k].v;
              u.V? && u.family in {W, YP, YG} && u.i in m.I && u.t in m.T && u.t != m.firstPeriod - 1
    {
      var j := if k < |a| then k else if k < |a| + |b| then k - |a| else k - |a| - |b|;
      assert keys[j] in keys;
    }
  }

  // ----- Batching extension -----

  /** The least number of trucks of capacity `cap` that carry `load`. */
  function CeilDiv(load: int, cap: int): int
    requires cap > 0
  {
    (load + cap - 1) / cap
  }

  lemma MulLe(c: int, a: int, b: int)
    requires c > 0
    ensures a <= b <==> c * a <= c * b
  {
    assert c * b - c * a == c * (b - a);
    if a <= b {
      MulNonneg(c, b - a);
    } else {
      MulNonneg(c, a - b - 1);
      assert c * (a - b) == c * (a - b - 1) + c;
    }
  }

  lemma MulNonneg(c: int, d: int)
    requires c >= 0 && d >= 0
    ensures c * d >= 0
  {
  }

  /** ceil(load / cap) trucks carry the load with less than one truck to spare. */
  lemma CeilBounds(load: int, cap: int)
    requires cap > 0
    ensures load <= cap * CeilDiv(load, cap) < load + cap
  {
    var q, r := (load + cap - 1) / cap, (load + cap - 1) % cap;
    assert load + cap - 1 == cap * q + r && 0 <= r < cap;
  }

  /** floor(load / cap) full trucks carry at most the load. */
  lemma FloorBounds(load: int, cap: int)
    requires cap > 0
    ensures cap * (load / cap) <= load < cap * (load / cap) + cap
  {
    assert load == cap * (load / cap) + load % cap && 0 <= load % cap < cap;
  }

  /** The first batching row admits exactly the counts from ceil(load / cap) up. */
  lemma TruckFloorCount(load: int, cap: int, n: int)
    requires cap > 0
    ensures cap * n >= load <==> CeilDiv(load, cap) <= n
  {
    var q := CeilDiv(load, cap);
    CeilBounds(load, cap);
    MulLe(cap, q, n);
    MulLe(cap, n, q - 1);
    assert cap * (q - 1) == cap * q - cap;
  }

  /** The second batching row admits exactly the counts up to floor(load / cap) + 1. */
  lemma TruckCeilingCount(load: int, cap: int, n: int)
    requires cap > 0
    ensures cap * n <= load + cap <==> n <= load / cap + 1
  {
    var f := load / cap;
    FloorBounds(load, cap);
    MulLe(cap, n, f + 1);
    assert cap * (f + 1) == cap * f + cap;
    MulLe(cap, f + 2, n);
    assert cap * (f + 2) == cap * f + 2 * cap;
  }

  /** The two batching rows at one period admit exactly the truck counts between
      ceil(load / cap) and floor(load / cap) + 1; the least of them is ceil(load / cap). */
  lemma TruckCountRange(load: int, cap: int, n: int)
    requires cap > 0
    ensures cap * n >= load && cap * n <= load + cap <==> CeilDiv(load, cap) <= n <= load / cap + 1
    ensures cap * CeilDiv(load, cap) >= load && cap * CeilDiv(load, cap) <= load + cap
  {
    TruckFloorCount(load, cap, n);
    TruckCeilingCount(load, cap, n);
    CeilBounds(load, cap);
  }

  lemma RealMulLe(c: real, a: real, b: real)
    requires c > 0.0
    ensures a <= b <==> a * c <= b * c
  {
    assert b * c - a * c == (b - a) * c;
  }

  /** With the division multiplied out, the rows say the same as the source's
      `n >= Σ x / cap` and `n <= Σ x / cap + 1` over the reals. */
  lemma RatioForm(load: int, cap: int, n: int)
    requires cap > 0
    ensures (n as real >= (load as real) / (cap as real)) <==> cap * n >= load
    ensures (n as real <= (load as real) / (cap as real) + 1.0) <==> cap * n <= load + cap
  {
    var c, l, x := cap as real, load as real, n as real;
    var q := l / c;
    assert q * c == l;
    CastMul(cap, n);
    assert x * c == (cap * n) as real;
    RealMulLe(c, q, x);
    RealMulLe(c, x, q + 1.0);
    assert (q + 1.0) * c == l + c == (load + cap) as real;
  }

  lemma CastMul(a: int, b: int)
    ensures (a * b) as real == (a as real) * (b as real)
  {
  }

  /** In a period with `load` units to move, the batching rows force at least
      ceil(load / cap) trucks. */
  lemma TrucksCoverLoad(m: ModelData, v: Valuation, t: Period)
    requires m.params.transportingLimitByPeriod > 0 && TrucksAt(m, v, t)
    ensures v(N(t)) >= CeilDiv(SumOver(m.I, X, t, v), m.params.transportingLimitByPeriod)
  {
    TruckCountRange(SumOver(m.I, X, t, v), m.params.transportingLimitByPeriod, v(N(t)));
  }

  function TruckTotal(ts: seq<Period>, v: Valuation): int
  {
    if ts == [] then 0 else v(N(ts[0])) + TruckTotal(ts[1..], v)
  }

  /** The batching objective charges 350 per truck. */
  lemma {:induction false} TruckCost(ts: seq<Period>, v: Valuation)
    ensures EvalObj(BatchObjective(ts), v) == 350.0 * (TruckTotal(ts, v) as real)
    decreases |ts|
  {
    if ts != [] {
      TruckCost(ts[1..], v);
      assert BatchObjective(ts)[1..] == BatchObjective(ts[1..]);
    }
  }

  // ----- Discount extension -----

  /** For a binary dc, the two discount rows hold exactly when either dc = 1 (and the
      limit is nonnegative) or dc = 0 and the purchase is within the limit. */
  lemma DiscountEligibility(dc: int, w: int, lim: int)
    requires 0 <= dc <= 1
    ensures (dc * w >= w - lim && dc * (w - lim) >= w - lim)
            <==> (dc == 1 && lim >= 0) || (dc == 0 && w <= lim)
  {
  }

  /** A purchase above the discount limit switches the discount indicator on. */
  lemma AboveLimitSetsDiscount(m: ModelData, v: Valuation, i: Item, t: Period)
    requires 0 <= v(V(DC, i, t)) <= 1 && DiscountAt(m, v, i, t)
    requires v(V(W, i, t)) > m.params.discountLimit
    ensures v(V(DC, i, t)) == 1
  {
    DiscountEligibility(v(V(DC, i, t)), v(V(W, i, t)), m.params.discountLimit);
  }

  /** The rebate the discount extension adds is 10% of the acquisition cost, whatever
      the discount indicators are. */
  lemma {:induction false} DiscountRebate(m: ModelData, keys: seq<Key>, v: Valuation)
    requires SharedLookups(m) && forall k :: 0 <= k < |keys| ==> keys[k].0 in m.I
    ensures EvalObj(DiscountTerms(m, keys), v) == -0.10 * PartCost(m, v, keys, W)
    decreases |keys|
  {
    if keys != [] {
      DiscountRebate(m, keys[1..], v);
      var head := ObjTerm(-0.10 * m.c[keys[0].0], V(W, keys[0].0, keys[0].1));
      assert DiscountTerms(m, keys) == [head] + DiscountTerms(m, keys[1..]);
      assert ([head] + DiscountTerms(m, keys[1..]))[1..] == DiscountTerms(m, keys[1..]);
    }
  }
}
