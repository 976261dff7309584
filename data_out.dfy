/** `DatOut._process_solution`: the Pet Gourmet and Patas Pack ledgers rebuilt from the
    solved value lists by rearranging the flow-balance equation, and the theorem that,
    for a plan meeting flow balance, each ledger's Initial Inventory is the site's stock
    at the end of the previous period. */
module DataOut {
  import opened Types
  import opened Collections
  import opened Lp
  import opened Formulation
  import opened Feasibility
  import opened Frames
  import opened DataIn
  import opened Optimization

  /** A row of `pet_gourmet_df`, in its column order. */
  datatype GourmetRow = GourmetRow(
    packingId: Item,
    periodId: Period,
    initialInventory: Cell,
    demand: int,
    transferred: int,
    finalInventory: Cell)

  /** A row of `patas_pack_df`, in its column order. */
  datatype PackRow = PackRow(
    packingId: Item,
    periodId: Period,
    initialInventory: Cell,
    transferred: int,
    acquired: Cell,
    finalInventory: Cell)

  function GourmetKey(r: GourmetRow): Key
  {
    (r.packingId, r.periodId)
  }

  function PackKey(r: PackRow): Key
  {
    (r.packingId, r.periodId)
  }

  /** `demand_packing_df[['Packing ID', 'Period ID', 'Demand']]`, one line per demand row. */
  function DemandEntries(rows: seq<DemandRow>): (r: seq<Entry>)
    ensures |r| == |rows|
    ensures forall k :: 0 <= k < |rows| ==> r[k] == Entry(rows[k].packingId, rows[k].periodId, rows[k].demand)
  {
    if rows == [] then [] else [Entry(rows[0].packingId, rows[0].periodId, rows[0].demand)] + DemandEntries(rows[1..])
  }

  /** When no two demand rows share a key, the demand a merge brings over for (i, t) is
      the one the demand dictionary `d` holds, and NaN for a key `d` lacks. */
  lemma DemandLookup(rows: seq<DemandRow>, i: Item, t: Period)
    requires NoDups(DemandKeyColumn(rows))
    ensures Lookup(DemandEntries(rows), i, t)
            == if (i, t) in DemandMap(rows) then Some(DemandMap(rows)[(i, t)]) else None
  {
    var keys, vals, es := DemandKeyColumn(rows), DemandColumn(rows), DemandEntries(rows);
    ToMapDomain(keys, vals, (i, t));
    var found := Lookup(es, i, t);
    if found.Some? {
      var k :| 0 <= k < |es| && es[k] == Entry(i, t, found.value);
      assert keys[k] == (i, t) && vals[k] == found.value;
      ToMapLastWins(keys, vals, k);
    }
  }

  // ----- Pet Gourmet ledger -----

  /** One line of the Pet Gourmet ledger: the transfer line `e`, the Gourmet final stock
      merged in from `yg`, the demand merged in from `demand` with NaN filled as 0, and
      Initial Inventory = Demand + Final Inventory - Transferred Quantity. */
  function GourmetLine(e: Entry, yg: seq<Entry>, demand: seq<Entry>): GourmetRow
  {
    var final := Lookup(yg, e.i, e.t);
    var dem := FillNa(Lookup(demand, e.i, e.t), 0);
    GourmetRow(e.i, e.t, Minus(Plus(Some(dem), final), Some(e.value)), dem, e.value, final)
  }

  /** A Gourmet line is a stock balance: a number for Initial Inventory exactly when the
      final stock merged in, the final stock is the initial stock plus the transfer less
      the demand, and a key without a demand row is charged no demand. */
  lemma GourmetLineBalance(e: Entry, yg: seq<Entry>, demand: seq<Entry>)
    ensures var r := GourmetLine(e, yg, demand);
            && GourmetKey(r) == (e.i, e.t) && r.transferred == e.value
            && (r.initialInventory.Some? <==> r.finalInventory.Some?)
            && (r.finalInventory.Some? ==>
                  r.finalInventory.value == r.initialInventory.value + r.transferred - r.demand)
            && (Lookup(demand, e.i, e.t).None? ==> r.demand == 0)
  {
  }

  /** `x_df` merged with `yg_df` (left) and then with the demand table (right): one line
      per line of the x list, in its order. */
  function GourmetFrame(x: seq<Entry>, yg: seq<Entry>, demand: seq<Entry>): (r: seq<GourmetRow>)
    ensures |r| == |x|
    ensures forall k :: 0 <= k < |x| ==> r[k] == GourmetLine(x[k], yg, demand)
  {
    if x == [] then [] else [GourmetLine(x[0], yg, demand)] + GourmetFrame(x[1..], yg, demand)
  }

  /** `pet_gourmet_df` after `sort_values(by=['Packing ID', 'Period ID'])`. */
  function GourmetTable(x: seq<Entry>, yg: seq<Entry>, demand: seq<Entry>): (r: seq<GourmetRow>)
    ensures multiset(r) == multiset(GourmetFrame(x, yg, demand))
    ensures SortedBy(r, GourmetKey)
  {
    SortBy(GourmetFrame(x, yg, demand), GourmetKey)
  }

  // ----- Patas Pack ledger -----

  /** One line of the Patas Pack ledger: the transfer line `e`, the Pack final stock from
      `yp`, the acquisition from `w`, and Initial Inventory = Transferred Quantity + Final
      Inventory - Acquired Quantity. */
  function PackLine(e: Entry, yp: seq<Entry>, w: seq<Entry>): PackRow
  {
    var final := Lookup(yp, e.i, e.t);
    var acquired := Lookup(w, e.i, e.t);
    PackRow(e.i, e.t, Minus(Plus(Some(e.value), final), acquired), e.value, acquired, final)
  }

  /** A Pack line is a stock balance: a number for Initial Inventory exactly when the final
      stock and the acquisition merged in, and then the final stock is the initial stock
      plus the acquisition less the transfer. */
  lemma PackLineBalance(e: Entry, yp: seq<Entry>, w: seq<Entry>)
    ensures var r := PackLine(e, yp, w);
            && PackKey(r) == (e.i, e.t) && r.transferred == e.value
            && (r.initialInventory.Some? <==> r.finalInventory.Some? && r.acquired.Some?)
            && (r.initialInventory.Some? ==>
                  r.finalInventory.value == r.initialInventory.value + r.acquired.value - r.transferred)
  {
  }

  /** `x_df` merged with `yp_df` and then `w_df` (both left): one line per x line. */
  function PackFrame(x: seq<Entry>, yp: seq<Entry>, w: seq<Entry>): (r: seq<PackRow>)
    ensures |r| == |x|
    ensures forall k :: 0 <= k < |x| ==> r[k] == PackLine(x[k], yp, w)
  {
    if x == [] then [] else [PackLine(x[0], yp, w)] + PackFrame(x[1..], yp, w)
  }

  /** `patas_pack_df` after `sort_values(by=['Packing ID', 'Period ID'])`. */
  function PackTable(x: seq<Entry>, yp: seq<Entry>, w: seq<Entry>): (r: seq<PackRow>)
    ensures multiset(r) == multiset(PackFrame(x, yp, w))
    ensures SortedBy(r, PackKey)
  {
    SortBy(PackFrame(x, yp, w), PackKey)
  }

  // ----- The output tables -----

  /** `(pet_gourmet_df, patas_pack_df)` after `_process_solution`: both tables for an
      optimal solution, neither (they stay `None`) otherwise. */
  function Ledgers(sol: Solution, demandRows: seq<DemandRow>): (r: (Option<seq<GourmetRow>>, Option<seq<PackRow>>))
    ensures r.0.Some? <==> sol.Solved? && sol.status == Optimal
    ensures r.1.Some? <==> sol.Solved? && sol.status == Optimal
    ensures r.0.Some? ==> |r.0.value| == |sol.x| && SortedBy(r.0.value, GourmetKey)
    ensures r.1.Some? ==> |r.1.value| == |sol.x| && SortedBy(r.1.value, PackKey)
  {
    if sol.Solved? && sol.status == Optimal then
      var gourmet := GourmetTable(sol.x, sol.yg, DemandEntries(demandRows));
      var pack := PackTable(sol.x, sol.yp, sol.w);
      assert |gourmet| == |multiset(gourmet)| == |GourmetFrame(sol.x, sol.yg, DemandEntries(demandRows))|;
      assert |pack| == |multiset(pack)| == |PackFrame(sol.x, sol.yp, sol.w)|;
      (Some(gourmet), Some(pack))
    else (None, None)
  }

  class DatOut {
    const sol: Solution
    const demandPacking: seq<DemandRow>
    var petGourmet: Option<seq<GourmetRow>>
    var patasPack: Option<seq<PackRow>>

    /** Takes the solved model's `sol` and the input's demand table, starts with no output
        tables and populates them. */
    constructor (sol: Solution, demandPacking: seq<DemandRow>)
      ensures this.sol == sol && this.demandPacking == demandPacking
      ensures (petGourmet, patasPack) == Ledgers(sol, demandPacking)
    {
      this.sol := sol;
      this.demandPacking := demandPacking;
      petGourmet := None;
      patasPack := None;
      new;
      ProcessSolution();
    }

    /** `_process_solution`: returns early unless the status is Optimal; otherwise builds
        and sorts both ledgers. */
    method ProcessSolution()
      modifies this`petGourmet, this`patasPack
      ensures sol.Solved? && sol.status == Optimal ==> (petGourmet, patasPack) == Ledgers(sol, demandPacking)
      ensures !(sol.Solved? && sol.status == Optimal) ==> petGourmet == old(petGourmet) && patasPack == old(patasPack)
    {
      if sol.status != Optimal || !sol.Solved? {
        return;
      }
      var gourmet := GourmetFrame(sol.x, sol.yg, DemandEntries(demandPacking));
      petGourmet := Some(SortBy(gourmet, GourmetKey));
      var pack := PackFrame(sol.x, sol.yp, sol.w);
      patasPack := Some(SortBy(pack, PackKey));
    }
  }

  // ----- What the ledgers say about a plan -----

  /** The Gourmet ledger row a plan gives (i, t): the stock at the end of t - 1, the
      demand, the transfer and the stock at the end of t. */
  function GourmetRowOf(m: ModelData, v: Valuation, i: Item, t: Period): GourmetRow
    requires (i, t) in m.d
  {
    GourmetRow(i, t, Some(v(V(YG, i, t - 1))), m.d[(i, t)], v(V(X, i, t)), Some(v(V(YG, i, t))))
  }

  /** The Pack ledger row a plan gives (i, t). */
  function PackRowOf(v: Valuation, i: Item, t: Period): PackRow
  {
    PackRow(i, t, Some(v(V(YP, i, t - 1))), v(V(X, i, t)), Some(v(V(W, i, t))), Some(v(V(YP, i, t))))
  }

  /** `table` is the Gourmet ledger of the plan: sorted, one row per (i, t) of I x T,
      each row that pair's stock balance. */
  predicate GourmetLedgerOf(m: ModelData, v: Valuation, table: seq<GourmetRow>)
    requires SharedLookups(m)
  {
    && |table| == |m.xKeys| && SortedBy(table, GourmetKey)
    && (forall r :: r in table ==>
          r.packingId in m.I && r.periodId in m.T && r == GourmetRowOf(m, v, r.packingId, r.periodId))
    && (forall i, t :: i in m.I && t in m.T ==> GourmetRowOf(m, v, i, t) in table)
  }

  /** `table` is the Pack ledger of the plan, in the same sense. */
  predicate PackLedgerOf(m: ModelData, v: Valuation, table: seq<PackRow>)
  {
    && |table| == |m.xKeys| && SortedBy(table, PackKey)
    && (forall r :: r in table ==>
          r.packingId in m.I && r.periodId in m.T && r == PackRowOf(v, r.packingId, r.periodId))
    && (forall i, t :: i in m.I && t in m.T ==> PackRowOf(v, i, t) in table)
  }

  /** The Gourmet line of a key at which flow balance holds is the row the plan gives
      that key: the reconstructed Initial Inventory is the previous period's Final
      Inventory. */
  lemma GourmetLineOf(m: ModelData, demand: seq<Entry>, v: Valuation, i: Item, t: Period)
    requires (i, t) in m.d && (i, t) in m.ypKeys && BalanceAt(m, v, i, t)
    requires Lookup(demand, i, t) == Some(m.d[(i, t)])
    ensures GourmetLine(Entry(i, t, v(V(X, i, t))), Entries(m.ypKeys, YG, v), demand) == GourmetRowOf(m, v, i, t)
  {
    LookupEntries(m.ypKeys, YG, v, i, t);
    var final := Lookup(Entries(m.ypKeys, YG, v), i, t);
    assert final == Some(v(V(YG, i, t)));
    var dem := m.d[(i, t)];
    assert FillNa(Lookup(demand, i, t), 0) == dem;
    assert dem + v(V(YG, i, t)) - v(V(X, i, t)) == v(V(YG, i, t - 1));
  }

  /** The Pack line of a key at which flow balance holds is the row the plan gives it. */
  lemma PackLineOf(m: ModelData, v: Valuation, i: Item, t: Period)
    requires (i, t) in m.d && (i, t) in m.ypKeys && (i, t) in m.xKeys && BalanceAt(m, v, i, t)
    ensures PackLine(Entry(i, t, v(V(X, i, t))), Entries(m.ypKeys, YP, v), Entries(m.xKeys, W, v))
            == PackRowOf(v, i, t)
  {
    LookupEntries(m.ypKeys, YP, v, i, t);
    LookupEntries(m.xKeys, W, v, i, t);
  }

  /** Each line of the Gourmet frame built from a plan meeting flow balance is the row the
      plan gives its key. */
  lemma GourmetFrameRows(m: ModelData, demandRows: seq<DemandRow>, v: Valuation)
    requires Indexed(m) && SharedLookups(m) && FlowBalance(m, v)
    requires m.d == DemandMap(demandRows) && NoDups(DemandKeyColumn(demandRows))
    ensures var frame := GourmetFrame(Entries(m.xKeys, X, v), Entries(m.ypKeys, YG, v), DemandEntries(demandRows));
            forall k :: 0 <= k < |m.xKeys| ==>
              m.xKeys[k] in m.d && frame[k] == GourmetRowOf(m, v, m.xKeys[k].0, m.xKeys[k].1)
  {
    IndexedKeys(m);
    var x := Entries(m.xKeys, X, v);
    forall k | 0 <= k < |m.xKeys|
      ensures m.xKeys[k] in m.d
      ensures GourmetLine(x[k], Entries(m.ypKeys, YG, v), DemandEntries(demandRows))
              == GourmetRowOf(m, v, m.xKeys[k].0, m.xKeys[k].1)
    {
      var i, t := m.xKeys[k].0, m.xKeys[k].1;
      assert m.xKeys[k] in m.xKeys;
      DemandLookup(demandRows, i, t);
      GourmetLineOf(m, DemandEntries(demandRows), v, i, t);
    }
  }

  /** Each line of the Pack frame built from a plan meeting flow balance is the row the
      plan gives its key. */
  lemma PackFrameRows(m: ModelData, v: Valuation)
    requires Indexed(m) && SharedLookups(m) && FlowBalance(m, v)
    ensures var frame := PackFrame(Entries(m.xKeys, X, v), Entries(m.ypKeys, YP, v), Entries(m.xKeys, W, v));
            forall k :: 0 <= k < |m.xKeys| ==> frame[k] == PackRowOf(v, m.xKeys[k].0, m.xKeys[k].1)
  {
    IndexedKeys(m);
    var x := Entries(m.xKeys, X, v);
    forall k | 0 <= k < |m.xKeys|
      ensures PackLine(x[k], Entries(m.ypKeys, YP, v), Entries(m.xKeys, W, v)) == PackRowOf(v, m.xKeys[k].0, m.xKeys[k].1)
    {
      var i, t := m.xKeys[k].0, m.xKeys[k].1;
      assert m.xKeys[k] in m.xKeys;
      PackLineOf(m, v, i, t);
    }
  }

  /** Sorting keeps the rows and their number. */
  lemma SameRows<R>(frame: seq<R>, table: seq<R>)
    requires multiset(table) == multiset(frame)
    ensures |table| == |frame|
    ensures forall r :: r in table <==> r in frame
  {
    assert |table| == |multiset(table)|;
    forall r ensures r in table <==> r in frame {
      assert r in table <==> r in multiset(table);
      assert r in frame <==> r in multiset(frame);
    }
  }

  /** A sorted permutation of a frame whose k-th row is the Gourmet row of the k-th key
      of I x T is the Gourmet ledger of the plan. */
  lemma GourmetTableRows(m: ModelData, v: Valuation, frame: seq<GourmetRow>, table: seq<GourmetRow>)
    requires SharedLookups(m)
    requires forall p :: p in m.xKeys <==> p.0 in m.I && p.1 in m.T
    requires |frame| == |m.xKeys|
    requires forall k :: 0 <= k < |m.xKeys| ==>
               m.xKeys[k] in m.d && frame[k] == GourmetRowOf(m, v, m.xKeys[k].0, m.xKeys[k].1)
    requires multiset(table) == multiset(frame) && SortedBy(table, GourmetKey)
    ensures GourmetLedgerOf(m, v, table)
  {
    SameRows(frame, table);
    forall r | r in table
      ensures r.packingId in m.I && r.periodId in m.T && r == GourmetRowOf(m, v, r.packingId, r.periodId)
    {
      var k :| 0 <= k < |frame| && frame[k] == r;
      assert m.xKeys[k] in m.xKeys;
    }
    forall i, t | i in m.I && t in m.T ensures GourmetRowOf(m, v, i, t) in table {
      assert (i, t) in m.xKeys;
      var k :| 0 <= k < |m.xKeys| && m.xKeys[k] == (i, t);
      assert frame[k] in frame;
    }
  }

  /** For a plan meeting flow balance, the sorted Gourmet table holds exactly one row per
      (i, t) of I x T, whose Initial Inventory is the Gourmet stock at the end of t - 1. */
  lemma SolvedGourmetLedger(m: ModelData, demandRows: seq<DemandRow>, v: Valuation)
    requires Indexed(m) && SharedLookups(m) && FlowBalance(m, v)
    requires m.d == DemandMap(demandRows) && NoDups(DemandKeyColumn(demandRows))
    ensures GourmetLedgerOf(m, v, GourmetTable(Entries(m.xKeys, X, v), Entries(m.ypKeys, YG, v), DemandEntries(demandRows)))
  {
    var x, yg, demand := Entries(m.xKeys, X, v), Entries(m.ypKeys, YG, v), DemandEntries(demandRows);
    GourmetFrameRows(m, demandRows, v);
    IndexedKeys(m);
    GourmetTableRows(m, v, GourmetFrame(x, yg, demand), GourmetTable(x, yg, demand));
  }

  /** A sorted permutation of a frame whose k-th row is the Pack row of the k-th key of
      I x T is the Pack ledger of the plan. */
  lemma PackTableRows(m: ModelData, v: Valuation, frame: seq<PackRow>, table: seq<PackRow>)
    requires forall p :: p in m.xKeys <==> p.0 in m.I && p.1 in m.T
    requires |frame| == |m.xKeys|
    requires forall k :: 0 <= k < |m.xKeys| ==> frame[k] == PackRowOf(v, m.xKeys[k].0, m.xKeys[k].1)
    requires multiset(table) == multiset(frame) && SortedBy(table, PackKey)
    ensures PackLedgerOf(m, v, table)
  {
    SameRows(frame, table);
    forall r | r in table
      ensures r.packingId in m.I && r.periodId in m.T && r == PackRowOf(v, r.packingId, r.periodId)
    {
      var k :| 0 <= k < |frame| && frame[k] == r;
      assert m.xKeys[k] in m.xKeys;
    }
    forall i, t | i in m.I && t in m.T ensures PackRowOf(v, i, t) in table {
      assert (i, t) in m.xKeys;
      var k :| 0 <= k < |m.xKeys| && m.xKeys[k] == (i, t);
      assert frame[k] in frame;
    }
  }

  /** For a plan meeting flow balance, the sorted Pack table holds exactly one row per
      (i, t) of I x T, whose Initial Inventory is the Pack stock at the end of t - 1. */
  lemma SolvedPackLedger(m: ModelData, v: Valuation)
    requires Indexed(m) && SharedLookups(m) && FlowBalance(m, v)
    ensures PackLedgerOf(m, v, PackTable(Entries(m.xKeys, X, v), Entries(m.ypKeys, YP, v), Entries(m.xKeys, W, v)))
  {
    var x, yp, w := Entries(m.xKeys, X, v), Entries(m.ypKeys, YP, v), Entries(m.xKeys, W, v);
    PackFrameRows(m, v);
    IndexedKeys(m);
    PackTableRows(m, v, PackFrame(x, yp, w), PackTable(x, yp, w));
  }

  /** For an optimal answer to the order-band model, `_process_solution` produces both
      ledgers, and each is the plan's stock ledger: the reconstructed Initial Inventory of
      every (i, t) is the site's Final Inventory of (i, t - 1). */
  lemma OptimalLedgers(m: ModelData, demandRows: seq<DemandRow>, extra: seq<LinearConstraint>, objVal: real,
                       v: Valuation)
    requires BaseBuildable(m)
    requires DeclaredBounds(BaseDeclarations(m), v) && AllHold(BaseRows(m) + extra, v)
    requires m.d == DemandMap(demandRows) && NoDups(DemandKeyColumn(demandRows))
    ensures var out := Ledgers(Package(m, Optimal, objVal, v), demandRows);
            && out.0.Some? && GourmetLedgerOf(m, v, out.0.value)
            && out.1.Some? && PackLedgerOf(m, v, out.1.value)
  {
    SolvedBaseIsFeasible(m, extra, v);
    SolvedGourmetLedger(m, demandRows, v);
    SolvedPackLedger(m, v);
  }

  /** Without an Optimal status there are no ledgers. */
  lemma UnsolvedNoLedgers(m: ModelData, demandRows: seq<DemandRow>, status: Status, objVal: real, v: Valuation)
    requires status != Optimal
    ensures Ledgers(Package(m, status, objVal, v), demandRows) == (None, None)
  {
  }
}
