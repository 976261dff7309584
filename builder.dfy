/** The loop nests that add a family's rows to an `LpProblem`: `for t in T`, `for i in I`,
    `for i in I: for t in T`, `for t in T: for i in I`, and the guarded nest of C6. Each
    is given one iteration's rows as `rows`, appends exactly `Concat(rows, order)` and
    leaves the objective alone. */
module Builder {
  import opened Types
  import opened Lp
  import opened Formulation

  /** The `addConstraint` calls one loop iteration makes, one per row, in order. */
  method AddAll(p: Problem, rows: seq<LinearConstraint>)
    modifies p
    ensures p.constraints == old(p.constraints) + rows
    ensures p.objective == old(p.objective) && p.status == old(p.status) && p.values == old(p.values)
  {
    var k := 0;
    while k < |rows|
      invariant 0 <= k <= |rows|
      invariant p.constraints == old(p.constraints) + rows[..k]
      invariant p.objective == old(p.objective) && p.status == old(p.status) && p.values == old(p.values)
    {
      p.AddConstraint(rows[k]);
      assert rows[..k + 1] == rows[..k] + [rows[k]];
      AppendAssoc(old(p.constraints), rows[..k], [rows[k]]);
      k := k + 1;
    }
    assert rows[..k] == rows;
  }

  lemma OverPeriodsSnoc(ts: seq<Period>, k: int)
    requires 0 <= k < |ts|
    ensures OverPeriods(ts[..k + 1]) == OverPeriods(ts[..k]) + [AtPeriod(ts[k])]
  {
    assert ts[..k + 1][..k] == ts[..k];
  }

  lemma OverItemsSnoc(items: seq<Item>, k: int)
    requires 0 <= k < |items|
    ensures OverItems(items[..k + 1]) == OverItems(items[..k]) + [AtItem(items[k])]
  {
    assert items[..k + 1][..k] == items[..k];
  }

  lemma PeriodsForSnoc(i: Item, ts: seq<Period>, k: int)
    requires 0 <= k < |ts|
    ensures PeriodsFor(i, ts[..k + 1]) == PeriodsFor(i, ts[..k]) + [At(i, ts[k])]
  {
    assert ts[..k + 1][..k] == ts[..k];
  }

  lemma ItemsAtSnoc(items: seq<Item>, t: Period, k: int)
    requires 0 <= k < |items|
    ensures ItemsAt(items[..k + 1], t) == ItemsAt(items[..k], t) + [At(items[k], t)]
  {
    assert items[..k + 1][..k] == items[..k];
  }

  lemma ItemsThenPeriodsSnoc(items: seq<Item>, ts: seq<Period>, k: int)
    requires 0 <= k < |items|
    ensures ItemsThenPeriods(items[..k + 1], ts) == ItemsThenPeriods(items[..k], ts) + PeriodsFor(items[k], ts)
  {
    assert items[..k + 1][..k] == items[..k];
  }

  lemma PeriodsThenItemsSnoc(ts: seq<Period>, items: seq<Item>, k: int)
    requires 0 <= k < |ts|
    ensures PeriodsThenItems(ts[..k + 1], items) == PeriodsThenItems(ts[..k], items) + ItemsAt(items, ts[k])
  {
    assert ts[..k + 1][..k] == ts[..k];
  }

  // One iteration of a loop extends the prefix its invariant speaks of.

  lemma ConcatStep(rows: Index -> seq<LinearConstraint>, idxs: seq<Index>, x: Index, base: seq<LinearConstraint>)
    ensures base + Concat(rows, idxs) + rows(x) == base + Concat(rows, idxs + [x])
  {
    ConcatSnoc(rows, idxs, x);
    AppendAssoc(base, Concat(rows, idxs), rows(x));
  }

  lemma ConcatBlockStep(rows: Index -> seq<LinearConstraint>, a: seq<Index>, b: seq<Index>, base: seq<LinearConstraint>)
    ensures base + Concat(rows, a) + Concat(rows, b) == base + Concat(rows, a + b)
  {
    ConcatAppend(rows, a, b);
    AppendAssoc(base, Concat(rows, a), Concat(rows, b));
  }

  /** `for t in ts: <rows at t>`. */
  method AddOverPeriods(p: Problem, ts: seq<Period>, rows: Index -> seq<LinearConstraint>)
    modifies p
    ensures p.constraints == old(p.constraints) + Concat(rows, OverPeriods(ts))
    ensures p.objective == old(p.objective) && p.status == old(p.status) && p.values == old(p.values)
  {
    var k := 0;
    while k < |ts|
      invariant 0 <= k <= |ts|
      invariant p.constraints == old(p.constraints) + Concat(rows, OverPeriods(ts[..k]))
      invariant p.objective == old(p.objective) && p.status == old(p.status) && p.values == old(p.values)
    {
      AddAll(p, rows(AtPeriod(ts[k])));
      OverPeriodsSnoc(ts, k);
      ConcatStep(rows, OverPeriods(ts[..k]), AtPeriod(ts[k]), old(p.constraints));
      k := k + 1;
    }
    assert ts[..k] == ts;
  }

  /** `for i in items: <rows at i>`. */
  method AddOverItems(p: Problem, items: seq<Item>, rows: Index -> seq<LinearConstraint>)
    modifies p
    ensures p.constraints == old(p.constraints) + Concat(rows, OverItems(items))
    ensures p.objective == old(p.objective) && p.status == old(p.status) && p.values == old(p.values)
  {
    var k := 0;
    while k < |items|
      invariant 0 <= k <= |items|
      invariant p.constraints == old(p.constraints) + Concat(rows, OverItems(items[..k]))
      invariant p.objective == old(p.objective) && p.status == old(p.status) && p.values == old(p.values)
    {
      AddAll(p, rows(AtItem(items[k])));
      OverItemsSnoc(items, k);
      ConcatStep(rows, OverItems(items[..k]), AtItem(items[k]), old(p.constraints));
      k := k + 1;
    }
    assert items[..k] == items;
  }

  /** The inner `for t in ts` at item i. */
  method AddPeriodsFor(p: Problem, i: Item, ts: seq<Period>, rows: Index -> seq<LinearConstraint>)
    modifies p
    ensures p.constraints == old(p.constraints) + Concat(rows, PeriodsFor(i, ts))
    ensures p.objective == old(p.objective) && p.status == old(p.status) && p.values == old(p.values)
  {
    var k := 0;
    while k < |ts|
      invariant 0 <= k <= |ts|
      invariant p.constraints == old(p.constraints) + Concat(rows, PeriodsFor(i, ts[..k]))
      invariant p.objective == old(p.objective) && p.status == old(p.status) && p.values == old(p.values)
    {
      AddAll(p, rows(At(i, ts[k])));
      PeriodsForSnoc(i, ts, k);
      ConcatStep(rows, PeriodsFor(i, ts[..k]), At(i, ts[k]), old(p.constraints));
      k := k + 1;
    }
    assert ts[..k] == ts;
  }

  /** The inner `for i in items` at period t. */
  method AddItemsAt(p: Problem, items: seq<Item>, t: Period, rows: Index -> seq<LinearConstraint>)
    modifies p
    ensures p.constraints == old(p.constraints) + Concat(rows, ItemsAt(items, t))
    ensures p.objective == old(p.objective) && p.status == old(p.status) && p.values == old(p.values)
  {
    var k := 0;
    while k < |items|
      invariant 0 <= k <= |items|
      invariant p.constraints == old(p.constraints) + Concat(rows, ItemsAt(items[..k], t))
      invariant p.objective == old(p.objective) && p.status == old(p.status) && p.values == old(p.values)
    {
      AddAll(p, rows(At(items[k], t)));
      ItemsAtSnoc(items, t, k);
      ConcatStep(rows, ItemsAt(items[..k], t), At(items[k], t), old(p.constraints));
      k := k + 1;
    }
    assert items[..k] == items;
  }

  /** `for i in items: for t in ts: <rows at (i, t)>`. */
  method AddItemsThenPeriods(p: Problem, items: seq<Item>, ts: seq<Period>, rows: Index -> seq<LinearConstraint>)
    modifies p
    ensures p.constraints == old(p.constraints) + Concat(rows, ItemsThenPeriods(items, ts))
    ensures p.objective == old(p.objective) && p.status == old(p.status) && p.values == old(p.values)
  {
    var k := 0;
    while k < |items|
      invariant 0 <= k <= |items|
      invariant p.constraints == old(p.constraints) + Concat(rows, ItemsThenPeriods(items[..k], ts))
      invariant p.objective == old(p.objective) && p.status == old(p.status) && p.values == old(p.values)
    {
      AddPeriodsFor(p, items[k], ts, rows);
      ItemsThenPeriodsSnoc(items, ts, k);
      ConcatBlockStep(rows, ItemsThenPeriods(items[..k], ts), PeriodsFor(items[k], ts), old(p.constraints));
      k := k + 1;
    }
    assert items[..k] == items;
  }

  /** `for t in ts: for i in items: <rows at (i, t)>`. */
  method AddPeriodsThenItems(p: Problem, ts: seq<Period>, items: seq<Item>, rows: Index -> seq<LinearConstraint>)
    modifies p
    ensures p.constraints == old(p.constraints) + Concat(rows, PeriodsThenItems(ts, items))
    ensures p.objective == old(p.objective) && p.status == old(p.status) && p.values == old(p.values)
  {
    var k := 0;
    while k < |ts|
      invariant 0 <= k <= |ts|
      invariant p.constraints == old(p.constraints) + Concat(rows, PeriodsThenItems(ts[..k], items))
      invariant p.objective == old(p.objective) && p.status == old(p.status) && p.values == old(p.values)
    {
      AddItemsAt(p, items, ts[k], rows);
      PeriodsThenItemsSnoc(ts, items, k);
      ConcatBlockStep(rows, PeriodsThenItems(ts[..k], items), ItemsAt(items, ts[k]), old(p.constraints));
      k := k + 1;
    }
    assert ts[..k] == ts;
  }

  /** C6: `for t in T:`, then the guard `t <= max(T) - MaxTimePackingPack`, then `for i in I`.
      A period that fails the guard skips the inner loop and adds no rows, exactly as
      `DwellRows` says, so the nest adds the C6 rows of every (t, i) in order. */
  method AddDwellRows(p: Problem, m: ModelData)
    modifies p
    ensures p.constraints == old(p.constraints) + Each(m, C6, PeriodsThenItems(m.T, m.I))
    ensures p.objective == old(p.objective) && p.status == old(p.status) && p.values == old(p.values)
  {
    var rows := RowsOf(m, C6);
    var k := 0;
    while k < |m.T|
      invariant 0 <= k <= |m.T|
      invariant p.constraints == old(p.constraints) + Concat(rows, PeriodsThenItems(m.T[..k], m.I))
      invariant p.objective == old(p.objective) && p.status == old(p.status) && p.values == old(p.values)
    {
      var t := m.T[k];
      if DwellApplies(m, t) {
        AddItemsAt(p, m.I, t, rows);
      } else {
        NoDwellRows(m, t, m.I);
      }
      PeriodsThenItemsSnoc(m.T, m.I, k);
      ConcatBlockStep(rows, PeriodsThenItems(m.T[..k], m.I), ItemsAt(m.I, t), old(p.constraints));
      k := k + 1;
    }
    assert m.T[..k] == m.T;
  }

  /** A period past the dwell guard contributes no C6 rows. */
  lemma {:induction false} NoDwellRows(m: ModelData, t: Period, items: seq<Item>)
    requires |m.T| > 0 && !DwellApplies(m, t)
    ensures Each(m, C6, ItemsAt(items, t)) == []
    decreases |items|
  {
    if items != [] {
      var front, last := items[..|items| - 1], items[|items| - 1];
      assert items == front + [last];
      NoDwellRows(m, t, front);
      ConcatSnoc(RowsOf(m, C6), ItemsAt(front, t), At(last, t));
    }
  }
}
