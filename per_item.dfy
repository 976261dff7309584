/** `solve`, the older flat-limit formulation: it derives the sets and dictionaries itself,
    caps acquisition and transfer per (item, period) instead of the order band and the
    aggregate transport cap, solves, and, when the answer is optimal, assembles the
    Pet Gourmet, Patas Pack and acquisition tables. */
module PerItem {
  import opened Types
  import opened Collections
  import opened Lp
  import opened Formulation
  import opened Feasibility
  import opened Costs
  import opened Builder
  import opened Frames
  import opened DataIn

  // ----- The data `solve` derives -----

  function AcquisitionLimitColumn(rows: seq<DemandRow>): (r: seq<int>)
    ensures |r| == |rows| && forall k :: 0 <= k < |rows| ==> r[k] == rows[k].acquisitionLimitPeriod
  {
    if rows == [] then [] else [rows[0].acquisitionLimitPeriod] + AcquisitionLimitColumn(rows[1..])
  }

  function TransportLimitColumn(rows: seq<DemandRow>): (r: seq<int>)
    ensures |r| == |rows| && forall k :: 0 <= k < |rows| ==> r[k] == rows[k].transportLimitPeriod
  {
    if rows == [] then [] else [rows[0].transportLimitPeriod] + TransportLimitColumn(rows[1..])
  }

  /** `acquisition_limit_period`: Acquisition Limit Period by (Packing ID, Period ID). */
  function AcquisitionLimitMap(rows: seq<DemandRow>): map<Key, int>
  {
    ToMap(DemandKeyColumn(rows), AcquisitionLimitColumn(rows))
  }

  /** `transport_limit_period`: Transport Limit Period by (Packing ID, Period ID). */
  function TransportLimitMap(rows: seq<DemandRow>): map<Key, int>
  {
    ToMap(DemandKeyColumn(rows), TransportLimitColumn(rows))
  }

  /** The sets and dictionaries of `solve`: the same I, T, T_extended, first_period,
      demands, minimum and initial inventories, inventory costs and unit prices as `DatIn`,
      with the two per-item limit dictionaries in place of the order band (which `solve`
      does not read). */
  function PerItemData(dat: Tables, params: Params): ModelData
    requires |dat.demandPacking| > 0
  {
    var I, T := Distinct(PackingIdColumn(dat.packing)), PeriodIds(dat);
    ModelData(I, T, T + [Min(T) - 1], Min(T),
              DemandMap(dat.demandPacking), MinInventoryMap(dat.inventory),
              InitialInventoryMap(dat.inventory), InventoryCostMap(dat.inventory),
              UnitPriceMap(dat.packing), map[], map[],
              AcquisitionLimitMap(dat.demandPacking), TransportLimitMap(dat.demandPacking),
              params, Pairs(I, T), Pairs(I, T + [Min(T) - 1]))
  }

  /** The sets and key lists of `solve` have the shape the builder relies on. */
  lemma PerItemDataIndexed(dat: Tables, params: Params)
    requires |dat.demandPacking| > 0
    ensures Indexed(PerItemData(dat, params))
  {
    DistinctSpec(PackingIdColumn(dat.packing));
  }

  /** The per-item limits are defined exactly at the keys of the demand table, and a key's
      limits are those of its last row. */
  lemma PerItemLimits(rows: seq<DemandRow>, j: int)
    requires 0 <= j < |rows|
    requires forall j' :: j < j' < |rows| ==>
               (rows[j'].packingId, rows[j'].periodId) != (rows[j].packingId, rows[j].periodId)
    ensures forall key :: key in AcquisitionLimitMap(rows) <==> key in DemandKeyColumn(rows)
    ensures forall key :: key in TransportLimitMap(rows) <==> key in DemandKeyColumn(rows)
    ensures AcquisitionLimitMap(rows)[(rows[j].packingId, rows[j].periodId)] == rows[j].acquisitionLimitPeriod
    ensures TransportLimitMap(rows)[(rows[j].packingId, rows[j].periodId)] == rows[j].transportLimitPeriod
  {
    var keys := DemandKeyColumn(rows);
    forall key ensures key in AcquisitionLimitMap(rows) <==> key in keys {
      ToMapDomain(keys, AcquisitionLimitColumn(rows), key);
    }
    forall key ensures key in TransportLimitMap(rows) <==> key in keys {
      ToMapDomain(keys, TransportLimitColumn(rows), key);
    }
    ToMapLastWins(keys, AcquisitionLimitColumn(rows), j);
    ToMapLastWins(keys, TransportLimitColumn(rows), j);
  }

  // ----- The output tables -----

  /** A row of `pet_gourmet`: Packing ID, Period ID, Initial Inventory, Demand, Final Inventory. */
  datatype PetGourmetRow = PetGourmetRow(packingId: Item, periodId: Period, initialInventory: Cell,
                                         demand: int, finalInventory: Cell)

  /** A row of `patas_pack`: Packing ID, Period ID, Initial Inventory, Transferred Quantity,
      Final Inventory. */
  datatype PatasPackRow = PatasPackRow(packingId: Item, periodId: Period, initialInventory: Cell,
                                       transferred: int, finalInventory: Cell)

  /** A row of `acquisition_by_period`: Packing ID, Period ID, Acquired Quantity,
      Transferred Quantity. */
  datatype AcquisitionRow = AcquisitionRow(packingId: Item, periodId: Period, acquired: int, transferred: Cell)

  datatype Output = Output(petGourmet: seq<PetGourmetRow>, patasPack: seq<PatasPackRow>,
                           acquisitionByPeriod: seq<AcquisitionRow>)

  /** One demand row merged (left) with the z values: Initial Inventory = Demand + Final
      Inventory, NaN when the z list has no entry for the key. */
  function PetGourmetLine(row: DemandRow, z: seq<Entry>): PetGourmetRow
  {
    var final := Lookup(z, row.packingId, row.periodId);
    PetGourmetRow(row.packingId, row.periodId, Plus(Some(row.demand), final), row.demand, final)
  }

  /** One x entry merged (left) with the y values: Initial Inventory = Transferred + Final. */
  function PatasPackLine(e: Entry, y: seq<Entry>): PatasPackRow
  {
    var final := Lookup(y, e.i, e.t);
    PatasPackRow(e.i, e.t, Plus(Some(e.value), final), e.value, final)
  }

  /** One w entry merged (left) with the x values. */
  function AcquisitionLine(e: Entry, x: seq<Entry>): AcquisitionRow
  {
    AcquisitionRow(e.i, e.t, e.value, Lookup(x, e.i, e.t))
  }

  /** `demand_df.merge(z_df, how='left')` with its Initial Inventory column: one row per
      demand row, in the demand table's order. */
  function PetGourmetTable(demand: seq<DemandRow>, z: seq<Entry>): (r: seq<PetGourmetRow>)
    ensures |r| == |demand|
    ensures forall k :: 0 <= k < |demand| ==> r[k] == PetGourmetLine(demand[k], z)
  {
    if demand == [] then [] else [PetGourmetLine(demand[0], z)] + PetGourmetTable(demand[1..], z)
  }

  /** `x_df.merge(y_df, how='left')` with its Initial Inventory column: one row per x entry. */
  function PatasPackTable(x: seq<Entry>, y: seq<Entry>): (r: seq<PatasPackRow>)
    ensures |r| == |x|
    ensures forall k :: 0 <= k < |x| ==> r[k] == PatasPackLine(x[k], y)
  {
    if x == [] then [] else [PatasPackLine(x[0], y)] + PatasPackTable(x[1..], y)
  }

  /** `w_df.merge(x_df, how='left')`: one row per w entry. */
  function AcquisitionTable(w: seq<Entry>, x: seq<Entry>): (r: seq<AcquisitionRow>)
    ensures |r| == |w|
    ensures forall k :: 0 <= k < |w| ==> r[k] == AcquisitionLine(w[k], x)
  {
    if w == [] then [] else [AcquisitionLine(w[0], x)] + AcquisitionTable(w[1..], x)
  }

  /** The tables `solve` assembles from the solver's answer: none unless it is optimal.
      `demand` is the demand table as read back from its file. */
  function SolveTables(m: ModelData, status: Status, v: Valuation, demand: seq<DemandRow>): Option<Output>
  {
    if status == Optimal
    then
      var x, y, z, w := Entries(m.xKeys, X, v), Entries(m.ypKeys, YP, v), Entries(m.ypKeys, YG, v),
                        Entries(m.xKeys, W, v);
      Some(Output(PetGourmetTable(demand, z), PatasPackTable(x, y), AcquisitionTable(w, x)))
    else None
  }

  // ----- solve -----

  /** `solve`: derives the sets and dictionaries, declares y, z over I x T_extend and x, w
      over I x T, adds C1, the two per-item caps, C4-C7 in the source's loop order, sets the
      objective, solves (the solver's answer is the parameters) and assembles the tables.
      A KeyError in a loop (a missing demand, limit or inventory entry) is excluded by
      `PerItemBuildable`. */
  method Solve(dat: Tables, params: Params, answer: Status, assignment: Valuation, demandCsv: seq<DemandRow>)
    returns (mdl: Problem, vars: seq<Declaration>, sln: Option<Output>)
    requires |dat.demandPacking| > 0 && PerItemBuildable(PerItemData(dat, params))
    requires answer == Optimal ==> DeclaredBounds(PerItemDeclarations(PerItemData(dat, params)), assignment)
                                   && AllHold(PerItemRows(PerItemData(dat, params)), assignment)
    ensures fresh(mdl)
    ensures vars == PerItemDeclarations(PerItemData(dat, params))
    ensures mdl.constraints == PerItemRows(PerItemData(dat, params))
    ensures mdl.objective == BaseObjective(PerItemData(dat, params))
    ensures mdl.status == answer && mdl.values == assignment
    ensures sln == SolveTables(PerItemData(dat, params), answer, assignment, demandCsv)
    ensures answer == Optimal ==> PerItemFeasible(PerItemData(dat, params), assignment)
  {
    // The first lines of `solve`: the sets, first_period, T_extended, the dictionaries
    // and the key lists.
    var m := PerItemData(dat, params);
    mdl, vars, sln := SolveModel(m, answer, assignment, demandCsv);
  }

  /** The rest of `solve` once the data is derived: declare, add the constraints, set the
      objective, solve and assemble the tables. */
  method SolveModel(m: ModelData, answer: Status, assignment: Valuation, demandCsv: seq<DemandRow>)
    returns (mdl: Problem, vars: seq<Declaration>, sln: Option<Output>)
    requires PerItemBuildable(m)
    requires answer == Optimal ==> DeclaredBounds(PerItemDeclarations(m), assignment)
                                   && AllHold(PerItemRows(m), assignment)
    ensures fresh(mdl)
    ensures vars == PerItemDeclarations(m)
    ensures mdl.constraints == PerItemRows(m) && mdl.objective == BaseObjective(m)
    ensures mdl.status == answer && mdl.values == assignment
    ensures sln == SolveTables(m, answer, assignment, demandCsv)
    ensures answer == Optimal ==> PerItemFeasible(m, assignment)
  {
    vars := [Dicts(YP, m.ypKeys, Integer), Dicts(YG, m.ypKeys, Integer),
             Dicts(X, m.xKeys, Integer), Dicts(W, m.xKeys, Integer)];
    mdl := BuildPerItemModel(m);
    mdl.Solve(answer, assignment);
    if mdl.status == Optimal {
      var xSol, ySol := Entries(m.xKeys, X, mdl.values), Entries(m.ypKeys, YP, mdl.values);
      var zSol, wSol := Entries(m.ypKeys, YG, mdl.values), Entries(m.xKeys, W, mdl.values);
      sln := Some(Output(PetGourmetTable(demandCsv, zSol), PatasPackTable(xSol, ySol), AcquisitionTable(wSol, xSol)));
    } else {
      sln := None;
    }
    if answer == Optimal {
      PerItemModelMeaning(m, assignment);
    }
  }

  /** `LpProblem('PetGourmet', sense=LpMinimize)`, the constraint loops and `setObjective`. */
  method BuildPerItemModel(m: ModelData) returns (mdl: Problem)
    requires PerItemBuildable(m)
    ensures fresh(mdl)
    ensures mdl.constraints == PerItemRows(m) && mdl.objective == BaseObjective(m) && mdl.status == NotSolved
  {
    mdl := new Problem();
    AddPerItemConstraints(mdl, m);
    mdl.SetObjective(BaseObjective(m));
  }

  /** The constraint loops of `solve`, each family's nest in the source's order. */
  method AddPerItemConstraints(mdl: Problem, m: ModelData)
    requires PerItemBuildable(m)
    modifies mdl
    ensures mdl.constraints == old(mdl.constraints) + PerItemRows(m)
    ensures mdl.objective == old(mdl.objective) && mdl.status == old(mdl.status) && mdl.values == old(mdl.values)
  {
    var ip, pi := ItemsThenPeriods(m.I, m.T), PeriodsThenItems(m.T, m.I);
    var r1, r2, r3 := Each(m, C1, OverPeriods(m.T)), Each(m, AcquisitionCap, ip), Each(m, TransportCap, ip);
    var r4, r5, r6 := Each(m, C4, pi), Each(m, C5, pi), Each(m, C6, pi);
    var r7 := Each(m, C7, OverItems(m.I));
    ghost var base := mdl.constraints;
    AddOverPeriods(mdl, m.T, RowsOf(m, C1));
    AddItemsThenPeriods(mdl, m.I, m.T, RowsOf(m, AcquisitionCap));
    AppendAssoc(base, r1, r2);
    AddItemsThenPeriods(mdl, m.I, m.T, RowsOf(m, TransportCap));
    AppendAssoc(base, r1 + r2, r3);
    AddPeriodsThenItems(mdl, m.T, m.I, RowsOf(m, C4));
    AppendAssoc(base, r1 + r2 + r3, r4);
    AddPeriodsThenItems(mdl, m.T, m.I, RowsOf(m, C5));
    AppendAssoc(base, r1 + r2 + r3 + r4, r5);
    AddDwellRows(mdl, m);
    AppendAssoc(base, r1 + r2 + r3 + r4 + r5, r6);
    AddOverItems(mdl, m.I, RowsOf(m, C7));
    AppendAssoc(base, r1 + r2 + r3 + r4 + r5 + r6, r7);
  }

  // ----- What the answer and the tables mean -----

  /** An optimal answer of the flat-limit model is a plan meeting the declared bounds and
      C1, the per-item caps and C4-C7, and its objective value is the plan's total cost. */
  lemma SolvedPerItemIsFeasible(m: ModelData, v: Valuation)
    requires PerItemBuildable(m)
    requires DeclaredBounds(PerItemDeclarations(m), v) && AllHold(PerItemRows(m), v)
    ensures PerItemFeasible(m, v)
    ensures EvalObj(BaseObjective(m), v) == Cost(m, v)
  {
    PerItemModelMeaning(m, v);
    ObjectiveIsCost(m, v);
  }

  /** If the answer is no dearer than any assignment meeting the declared bounds and the
      rows, it is a cheapest plan of the flat-limit model. */
  lemma PerItemOptimalIsCheapest(m: ModelData, v: Valuation)
    requires PerItemBuildable(m)
    requires forall u: Valuation {:trigger AllHold(PerItemRows(m), u)} ::
               DeclaredBounds(PerItemDeclarations(m), u) && AllHold(PerItemRows(m), u)
               ==> EvalObj(BaseObjective(m), v) <= EvalObj(BaseObjective(m), u)
    ensures forall u: Valuation {:trigger PerItemFeasible(m, u)} :: PerItemFeasible(m, u) ==> Cost(m, v) <= Cost(m, u)
  {
    ObjectiveIsCost(m, v);
    forall u: Valuation | PerItemFeasible(m, u) ensures Cost(m, v) <= Cost(m, u) {
      PerItemModelMeaning(m, u);
      ObjectiveIsCost(m, u);
    }
  }

  /** No tables unless the answer is optimal; then one Pet Gourmet row per demand row and
      one Patas Pack and one acquisition row per (i, t) of I x T. */
  lemma TablesShape(m: ModelData, status: Status, v: Valuation, demand: seq<DemandRow>)
    requires Indexed(m)
    ensures SolveTables(m, status, v, demand).Some? <==> status == Optimal
    ensures status == Optimal ==>
              var out := SolveTables(m, status, v, demand).value;
              && |out.petGourmet| == |demand|
              && |out.patasPack| == |m.I| * |m.T| && |out.acquisitionByPeriod| == |m.I| * |m.T|
  {
    PairsLength(m.I, m.T);
  }

  /** The Pet Gourmet row the plan gives (i, t) with demand `demand`: Final Inventory is
      z[i, t] and Initial Inventory is z[i, t - 1] + x[i, t], the stock on hand once the
      period's transfer arrives and before its demand is served. */
  function PetGourmetRowOf(v: Valuation, i: Item, t: Period, demand: int): PetGourmetRow
  {
    PetGourmetRow(i, t, Some(v(V(YG, i, t - 1)) + v(V(X, i, t))), demand, Some(v(V(YG, i, t))))
  }

  /** The Patas Pack row the plan gives (i, t): Transferred is x[i, t], Final is y[i, t]
      and Initial is y[i, t - 1] + w[i, t], the stock once the acquisition arrives and
      before the transfer leaves. */
  function PatasPackRowOf(v: Valuation, i: Item, t: Period): PatasPackRow
  {
    PatasPackRow(i, t, Some(v(V(YP, i, t - 1)) + v(V(W, i, t))), v(V(X, i, t)), Some(v(V(YP, i, t))))
  }

  /** The acquisition row the plan gives (i, t): w[i, t] and x[i, t]. */
  function AcquisitionRowOf(v: Valuation, i: Item, t: Period): AcquisitionRow
  {
    AcquisitionRow(i, t, v(V(W, i, t)), Some(v(V(X, i, t))))
  }

  /** A key of I x T has a y and a z variable. */
  lemma StockKey(m: ModelData, i: Item, t: Period)
    requires Indexed(m) && i in m.I && t in m.T
    ensures (i, t) in m.ypKeys
  {
    IndexedKeys(m);
    assert t in m.TExtend;
  }

  /** The k-th x key lies in I x T. */
  lemma TransferKey(m: ModelData, k: int)
    requires Indexed(m) && 0 <= k < |m.xKeys|
    ensures m.xKeys[k].0 in m.I && m.xKeys[k].1 in m.T
  {
    IndexedKeys(m);
    assert m.xKeys[k] in m.xKeys;
  }

  /** Demand + Final Inventory recovers the stock before demand: the Pet Gourmet line of a
      demand row whose key has a z variable and meets flow balance is the row the plan
      gives that key. */
  lemma PetGourmetLineOf(m: ModelData, v: Valuation, row: DemandRow, i: Item, t: Period)
    requires row.packingId == i && row.periodId == t
    requires (i, t) in m.d && (i, t) in m.ypKeys && BalanceAt(m, v, i, t) && row.demand == m.d[(i, t)]
    ensures PetGourmetLine(row, Entries(m.ypKeys, YG, v)) == PetGourmetRowOf(v, i, t, row.demand)
  {
    LookupEntries(m.ypKeys, YG, v, i, t);
  }

  /** Under flow balance, every Pet Gourmet row of a demand row whose key is in I x T (and
      whose Demand is the one the model used) is the row the plan gives that key. */
  lemma PetGourmetLedger(m: ModelData, v: Valuation, demand: seq<DemandRow>)
    requires Indexed(m) && SharedLookups(m) && FlowBalance(m, v)
    ensures forall k :: 0 <= k < |demand| && demand[k].packingId in m.I && demand[k].periodId in m.T
                        && demand[k].demand == m.d[(demand[k].packingId, demand[k].periodId)] ==>
              PetGourmetTable(demand, Entries(m.ypKeys, YG, v))[k]
              == PetGourmetRowOf(v, demand[k].packingId, demand[k].periodId, demand[k].demand)
  {
    var z := Entries(m.ypKeys, YG, v);
    forall k | 0 <= k < |demand| && demand[k].packingId in m.I && demand[k].periodId in m.T
               && demand[k].demand == m.d[(demand[k].packingId, demand[k].periodId)]
      ensures PetGourmetLine(demand[k], z) == PetGourmetRowOf(v, demand[k].packingId, demand[k].periodId, demand[k].demand)
    {
      var i, t := demand[k].packingId, demand[k].periodId;
      StockKey(m, i, t);
      PetGourmetLineOf(m, v, demand[k], i, t);
    }
  }

  /** A demand row whose key has no z variable (a packing outside I or a period outside
      T_extend) gets NaN for both inventories. */
  lemma PetGourmetUnmatched(m: ModelData, v: Valuation, row: DemandRow)
    requires Indexed(m)
    requires row.packingId !in m.I || row.periodId !in m.TExtend
    ensures var line := PetGourmetLine(row, Entries(m.ypKeys, YG, v));
            line.initialInventory.None? && line.finalInventory.None?
  {
    IndexedKeys(m);
    LookupEntries(m.ypKeys, YG, v, row.packingId, row.periodId);
  }

  /** Transferred + Final recovers the stock before the transfer: the Patas Pack line of
      the x entry of a key that meets flow balance is the row the plan gives that key. */
  lemma PatasPackLineOf(m: ModelData, v: Valuation, i: Item, t: Period)
    requires (i, t) in m.d && (i, t) in m.ypKeys && BalanceAt(m, v, i, t)
    ensures PatasPackLine(Entry(i, t, v(V(X, i, t))), Entries(m.ypKeys, YP, v)) == PatasPackRowOf(v, i, t)
  {
    LookupEntries(m.ypKeys, YP, v, i, t);
  }

  /** Under flow balance, the k-th Patas Pack row is the row the plan gives the k-th key
      of I x T. */
  lemma PatasPackLedger(m: ModelData, v: Valuation)
    requires Indexed(m) && SharedLookups(m) && FlowBalance(m, v)
    ensures forall k :: 0 <= k < |m.xKeys| ==>
              PatasPackTable(Entries(m.xKeys, X, v), Entries(m.ypKeys, YP, v))[k]
              == PatasPackRowOf(v, m.xKeys[k].0, m.xKeys[k].1)
  {
    var x, y := Entries(m.xKeys, X, v), Entries(m.ypKeys, YP, v);
    forall k | 0 <= k < |m.xKeys| ensures PatasPackLine(x[k], y) == PatasPackRowOf(v, m.xKeys[k].0, m.xKeys[k].1) {
      var i, t := m.xKeys[k].0, m.xKeys[k].1;
      TransferKey(m, k);
      StockKey(m, i, t);
      PatasPackLineOf(m, v, i, t);
      assert x[k] == Entry(i, t, v(V(X, i, t)));
    }
  }

  /** The k-th acquisition row is the row the plan gives the k-th key of I x T; its
      Transferred Quantity is never NaN, since w and x share their keys. */
  lemma AcquisitionLedger(m: ModelData, v: Valuation)
    ensures forall k :: 0 <= k < |m.xKeys| ==>
              AcquisitionTable(Entries(m.xKeys, W, v), Entries(m.xKeys, X, v))[k]
              == AcquisitionRowOf(v, m.xKeys[k].0, m.xKeys[k].1)
  {
    var w, x := Entries(m.xKeys, W, v), Entries(m.xKeys, X, v);
    forall k | 0 <= k < |m.xKeys| ensures AcquisitionLine(w[k], x) == AcquisitionRowOf(v, m.xKeys[k].0, m.xKeys[k].1) {
      var i, t := m.xKeys[k].0, m.xKeys[k].1;
      assert m.xKeys[k] in m.xKeys;
      LookupEntries(m.xKeys, X, v, i, t);
    }
  }
}
