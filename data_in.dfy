/** `DatIn`: reads the input tables and sets, in a fixed order, the index sets (I, J, T,
    T_extend, first_period), the parameter dictionaries and the variable key lists the
    optimisation model uses. The pure functions say what each attribute becomes; the
    class sets them step by step. */
module DataIn {
  import opened Types
  import opened Collections
  import opened Formulation

  // Column selections (`df['Column']`), written out row by row.

  function PackingIdColumn(rows: seq<PackingRow>): (r: seq<Item>)
    ensures |r| == |rows| && forall k :: 0 <= k < |rows| ==> r[k] == rows[k].packingId
  {
    if rows == [] then [] else [rows[0].packingId] + PackingIdColumn(rows[1..])
  }

  function UnitPriceColumn(rows: seq<PackingRow>): (r: seq<real>)
    ensures |r| == |rows| && forall k :: 0 <= k < |rows| ==> r[k] == rows[k].unitPrice
  {
    if rows == [] then [] else [rows[0].unitPrice] + UnitPriceColumn(rows[1..])
  }

  function FactoryIdColumn(rows: seq<InventoryRow>): (r: seq<Site>)
    ensures |r| == |rows| && forall k :: 0 <= k < |rows| ==> r[k] == rows[k].factoryId
  {
    if rows == [] then [] else [rows[0].factoryId] + FactoryIdColumn(rows[1..])
  }

  /** The (Factory ID, Packing ID) column pair of the inventory table. */
  function InventoryKeyColumn(rows: seq<InventoryRow>): (r: seq<(Site, Item)>)
    ensures |r| == |rows| && forall k :: 0 <= k < |rows| ==> r[k] == (rows[k].factoryId, rows[k].packingId)
  {
    if rows == [] then [] else [(rows[0].factoryId, rows[0].packingId)] + InventoryKeyColumn(rows[1..])
  }

  function MinimumInventoryColumn(rows: seq<InventoryRow>): (r: seq<int>)
    ensures |r| == |rows| && forall k :: 0 <= k < |rows| ==> r[k] == rows[k].minimumInventory
  {
    if rows == [] then [] else [rows[0].minimumInventory] + MinimumInventoryColumn(rows[1..])
  }

  function InitialInventoryColumn(rows: seq<InventoryRow>): (r: seq<int>)
    ensures |r| == |rows| && forall k :: 0 <= k < |rows| ==> r[k] == rows[k].initialInventory
  {
    if rows == [] then [] else [rows[0].initialInventory] + InitialInventoryColumn(rows[1..])
  }

  function InventoryCostColumn(rows: seq<InventoryRow>): (r: seq<real>)
    ensures |r| == |rows| && forall k :: 0 <= k < |rows| ==> r[k] == rows[k].inventoryCost
  {
    if rows == [] then [] else [rows[0].inventoryCost] + InventoryCostColumn(rows[1..])
  }

  function PeriodIdColumn(rows: seq<DemandRow>): (r: seq<Period>)
    ensures |r| == |rows| && forall k :: 0 <= k < |rows| ==> r[k] == rows[k].periodId
  {
    if rows == [] then [] else [rows[0].periodId] + PeriodIdColumn(rows[1..])
  }

  /** The (Packing ID, Period ID) column pair of the demand table. */
  function DemandKeyColumn(rows: seq<DemandRow>): (r: seq<Key>)
    ensures |r| == |rows| && forall k :: 0 <= k < |rows| ==> r[k] == (rows[k].packingId, rows[k].periodId)
  {
    if rows == [] then [] else [(rows[0].packingId, rows[0].periodId)] + DemandKeyColumn(rows[1..])
  }

  function DemandColumn(rows: seq<DemandRow>): (r: seq<int>)
    ensures |r| == |rows| && forall k :: 0 <= k < |rows| ==> r[k] == rows[k].demand
  {
    if rows == [] then [] else [rows[0].demand] + DemandColumn(rows[1..])
  }

  function MaxOrderColumn(rows: seq<DemandRow>): (r: seq<int>)
    ensures |r| == |rows| && forall k :: 0 <= k < |rows| ==> r[k] == rows[k].maxOrderQty
  {
    if rows == [] then [] else [rows[0].maxOrderQty] + MaxOrderColumn(rows[1..])
  }

  function MinOrderColumn(rows: seq<DemandRow>): (r: seq<int>)
    ensures |r| == |rows| && forall k :: 0 <= k < |rows| ==> r[k] == rows[k].minOrderQty
  {
    if rows == [] then [] else [rows[0].minOrderQty] + MinOrderColumn(rows[1..])
  }

  /** `set(dat.demand_packing['Period ID'])`: never empty when the table has a row. */
  function PeriodIds(dat: Tables): (r: seq<Period>)
    ensures NoDups(r) && (forall t :: t in r <==> t in PeriodIdColumn(dat.demandPacking))
    ensures |dat.demandPacking| > 0 ==> |r| > 0
  {
    var col := PeriodIdColumn(dat.demandPacking);
    DistinctSpec(col);
    var r := Distinct(col);
    assert |dat.demandPacking| > 0 ==> PeriodIdColumn(dat.demandPacking)[0] in r;
    r
  }

  /** `d`: Demand by (Packing ID, Period ID). */
  function DemandMap(rows: seq<DemandRow>): map<Key, int>
  {
    ToMap(DemandKeyColumn(rows), DemandColumn(rows))
  }

  /** `au`: Max Order Qty by (Packing ID, Period ID). */
  function MaxOrderMap(rows: seq<DemandRow>): map<Key, int>
  {
    ToMap(DemandKeyColumn(rows), MaxOrderColumn(rows))
  }

  /** `moq`: Min Order Qty by (Packing ID, Period ID). */
  function MinOrderMap(rows: seq<DemandRow>): map<Key, int>
  {
    ToMap(DemandKeyColumn(rows), MinOrderColumn(rows))
  }

  /** `ilg` (`min_inventory` in `solve`): Minimum Inventory by (Factory ID, Packing ID). */
  function MinInventoryMap(rows: seq<InventoryRow>): map<(Site, Item), int>
  {
    ToMap(InventoryKeyColumn(rows), MinimumInventoryColumn(rows))
  }

  /** `ini_inventory`: Initial Inventory by (Factory ID, Packing ID). */
  function InitialInventoryMap(rows: seq<InventoryRow>): map<(Site, Item), int>
  {
    ToMap(InventoryKeyColumn(rows), InitialInventoryColumn(rows))
  }

  /** `inven_cost`: Inventory Cost by (Factory ID, Packing ID). */
  function InventoryCostMap(rows: seq<InventoryRow>): map<(Site, Item), real>
  {
    ToMap(InventoryKeyColumn(rows), InventoryCostColumn(rows))
  }

  /** `c` (`unit_price` in `solve`): Unit Price by Packing ID. */
  function UnitPriceMap(rows: seq<PackingRow>): map<Item, real>
  {
    ToMap(PackingIdColumn(rows), UnitPriceColumn(rows))
  }

  /** I, J, T, first_period and T_extend as `_populate_sets_of_indices` sets them. */
  function IndexSets(dat: Tables): (seq<Item>, seq<Site>, seq<Period>, Period, seq<Period>)
    requires |dat.demandPacking| > 0
  {
    var T := PeriodIds(dat);
    (Distinct(PackingIdColumn(dat.packing)), Distinct(FactoryIdColumn(dat.inventory)), T, Min(T), T + [Min(T) - 1])
  }

  /** first_period is the least period of T, and T_extend is T with first_period - 1. */
  lemma IndexSetsFirst(dat: Tables)
    requires |dat.demandPacking| > 0
    ensures IndexSets(dat).3 == Min(IndexSets(dat).2)
    ensures IndexSets(dat).4 == IndexSets(dat).2 + [IndexSets(dat).3 - 1]
  {
  }

  /** The parameter dictionaries as `_populate_parameters` sets them. */
  function Parameters(dat: Tables, params: Params)
    : (Params, map<Key, int>, map<(Site, Item), int>, map<(Site, Item), int>, map<(Site, Item), real>,
       map<Item, real>, map<Key, int>, map<Key, int>)
  {
    (params, DemandMap(dat.demandPacking), MinInventoryMap(dat.inventory), InitialInventoryMap(dat.inventory),
     InventoryCostMap(dat.inventory), UnitPriceMap(dat.packing), MaxOrderMap(dat.demandPacking),
     MinOrderMap(dat.demandPacking))
  }

  /** The key lists of x, w, wb, xb (I x T) and of yp, yg (I x T_extend). */
  function VariableKeys(I: seq<Item>, T: seq<Period>, TExtend: seq<Period>)
    : (seq<Key>, seq<Key>, seq<Key>, seq<Key>, seq<Key>, seq<Key>)
  {
    var xKeys, ypKeys := Pairs(I, T), Pairs(I, TExtend);
    (xKeys, xKeys, xKeys, xKeys, ypKeys, ypKeys)
  }

  /** Everything `DatIn` derives, as the formulation reads it. `DatIn` builds no per-item
      limit dictionaries. */
  function BaseData(dat: Tables, params: Params): ModelData
    requires |dat.demandPacking| > 0
  {
    var I, T := Distinct(PackingIdColumn(dat.packing)), PeriodIds(dat);
    ModelData(I, T, T + [Min(T) - 1], Min(T),
              DemandMap(dat.demandPacking), MinInventoryMap(dat.inventory),
              InitialInventoryMap(dat.inventory), InventoryCostMap(dat.inventory),
              UnitPriceMap(dat.packing), MaxOrderMap(dat.demandPacking), MinOrderMap(dat.demandPacking),
              map[], map[], params, Pairs(I, T), Pairs(I, T + [Min(T) - 1]))
  }

  /** The sets and key lists `DatIn` derives have the shape the builder relies on. */
  lemma BaseDataIndexed(dat: Tables, params: Params)
    requires |dat.demandPacking| > 0
    ensures Indexed(BaseData(dat, params))
  {
    DistinctSpec(PackingIdColumn(dat.packing));
  }

  /** The dictionaries of the demand table (d, au, moq) are defined exactly at the
      table's keys, and a key takes the values of its last row. */
  lemma DemandMaps(rows: seq<DemandRow>, j: int)
    requires 0 <= j < |rows|
    requires forall j' :: j < j' < |rows| ==>
               (rows[j'].packingId, rows[j'].periodId) != (rows[j].packingId, rows[j].periodId)
    ensures forall key :: key in DemandMap(rows) <==> key in DemandKeyColumn(rows)
    ensures forall key :: key in MaxOrderMap(rows) <==> key in DemandKeyColumn(rows)
    ensures forall key :: key in MinOrderMap(rows) <==> key in DemandKeyColumn(rows)
    ensures var key := (rows[j].packingId, rows[j].periodId);
            && DemandMap(rows)[key] == rows[j].demand
            && MaxOrderMap(rows)[key] == rows[j].maxOrderQty
            && MinOrderMap(rows)[key] == rows[j].minOrderQty
  {
    var keys := DemandKeyColumn(rows);
    forall key ensures key in DemandMap(rows) <==> key in keys {
      ToMapDomain(keys, DemandColumn(rows), key);
    }
    forall key ensures key in MaxOrderMap(rows) <==> key in keys {
      ToMapDomain(keys, MaxOrderColumn(rows), key);
    }
    forall key ensures key in MinOrderMap(rows) <==> key in keys {
      ToMapDomain(keys, MinOrderColumn(rows), key);
    }
    ToMapLastWins(keys, DemandColumn(rows), j);
    ToMapLastWins(keys, MaxOrderColumn(rows), j);
    ToMapLastWins(keys, MinOrderColumn(rows), j);
  }

  /** The dictionaries of the inventory table (ilg, ini_inventory, inven_cost) are
      defined exactly at its (Factory ID, Packing ID) keys, with the values of the last
      row of each key. */
  lemma InventoryMaps(rows: seq<InventoryRow>, j: int)
    requires 0 <= j < |rows|
    requires forall j' :: j < j' < |rows| ==>
               (rows[j'].factoryId, rows[j'].packingId) != (rows[j].factoryId, rows[j].packingId)
    ensures forall key :: key in MinInventoryMap(rows) <==> key in InventoryKeyColumn(rows)
    ensures forall key :: key in InitialInventoryMap(rows) <==> key in InventoryKeyColumn(rows)
    ensures forall key :: key in InventoryCostMap(rows) <==> key in InventoryKeyColumn(rows)
    ensures var key := (rows[j].factoryId, rows[j].packingId);
            && MinInventoryMap(rows)[key] == rows[j].minimumInventory
            && InitialInventoryMap(rows)[key] == rows[j].initialInventory
            && InventoryCostMap(rows)[key] == rows[j].inventoryCost
  {
    var keys := InventoryKeyColumn(rows);
    forall key ensures key in MinInventoryMap(rows) <==> key in keys {
      ToMapDomain(keys, MinimumInventoryColumn(rows), key);
    }
    forall key ensures key in InitialInventoryMap(rows) <==> key in keys {
      ToMapDomain(keys, InitialInventoryColumn(rows), key);
    }
    forall key ensures key in InventoryCostMap(rows) <==> key in keys {
      ToMapDomain(keys, InventoryCostColumn(rows), key);
    }
    ToMapLastWins(keys, MinimumInventoryColumn(rows), j);
    ToMapLastWins(keys, InitialInventoryColumn(rows), j);
    ToMapLastWins(keys, InventoryCostColumn(rows), j);
  }

  /** The unit-price dictionary c is defined exactly at the packing table's IDs, with the
      price of the last row of each ID. */
  lemma UnitPrices(rows: seq<PackingRow>, j: int)
    requires 0 <= j < |rows|
    requires forall j' :: j < j' < |rows| ==> rows[j'].packingId != rows[j].packingId
    ensures forall i :: i in UnitPriceMap(rows) <==> i in PackingIdColumn(rows)
    ensures UnitPriceMap(rows)[rows[j].packingId] == rows[j].unitPrice
  {
    var keys := PackingIdColumn(rows);
    forall i ensures i in UnitPriceMap(rows) <==> i in keys {
      ToMapDomain(keys, UnitPriceColumn(rows), i);
    }
    ToMapLastWins(keys, UnitPriceColumn(rows), j);
  }

  /** `first_period - 1` is a new period, so T_extend has exactly one more period than
      T, no duplicates, and every x key is also a yp key. */
  lemma ExtendedHorizon(m: ModelData)
    requires Indexed(m)
    ensures m.firstPeriod - 1 !in m.T
    ensures NoDups(m.TExtend) && |m.TExtend| == |m.T| + 1
    ensures forall key :: key in m.xKeys ==> key in m.ypKeys
  {
    IndexedKeys(m);
    forall j, k | 0 <= j < k < |m.TExtend| ensures m.TExtend[j] != m.TExtend[k] {
      if k == |m.T| {
        assert m.TExtend[j] in m.T;
      }
    }
  }

  class DatIn {
    const dat: Tables
    const datParams: Params
    var I: seq<Item>
    var J: seq<Site>
    var T: seq<Period>
    var TExtend: seq<Period>
    var firstPeriod: Period
    var d: map<Key, int>
    var ilg: map<(Site, Item), int>
    var iniInventory: map<(Site, Item), int>
    var invenCost: map<(Site, Item), real>
    var c: map<Item, real>
    var au: map<Key, int>
    var moq: map<Key, int>
    var params: Params
    var xKeys: seq<Key>
    var wKeys: seq<Key>
    var wbKeys: seq<Key>
    var xbKeys: seq<Key>
    var ypKeys: seq<Key>
    var ygKeys: seq<Key>

    /** `_populate_sets_of_indices` has run. */
    predicate SetsPopulated()
      reads this`I, this`J, this`T, this`firstPeriod, this`TExtend
    {
      |dat.demandPacking| > 0 && (I, J, T, firstPeriod, TExtend) == IndexSets(dat)
    }

    /** `_populate_parameters` has run. */
    predicate ParametersPopulated()
      reads this`params, this`d, this`ilg, this`iniInventory, this`invenCost, this`c, this`au, this`moq
    {
      (params, d, ilg, iniInventory, invenCost, c, au, moq) == Parameters(dat, datParams)
    }

    /** `_derive_variables_keys` has run. */
    predicate KeysPopulated()
      reads this`xKeys, this`wKeys, this`wbKeys, this`xbKeys, this`ypKeys, this`ygKeys
    {
      && |dat.demandPacking| > 0
      && var sets := IndexSets(dat);
         (xKeys, wKeys, wbKeys, xbKeys, ypKeys, ygKeys) == VariableKeys(sets.0, sets.2, sets.4)
    }

    /** The attributes the model builder reads. */
    function Data(): ModelData
      reads this
    {
      ModelData(I, T, TExtend, firstPeriod, d, ilg, iniInventory, invenCost, c, au, moq,
                map[], map[], params, xKeys, ypKeys)
    }

    /** Reads the tables (values, so the caller's copy is never touched) and runs the three
        population steps in their mandated order: the index sets, then the parameter
        dictionaries, then the variable key lists. `min(T)` fails on an empty demand table. */
    constructor (dat: Tables, datParams: Params)
      requires |dat.demandPacking| > 0
      ensures this.dat == dat && this.datParams == datParams
      ensures SetsPopulated() && ParametersPopulated() && KeysPopulated()
    {
      this.dat := dat;
      this.datParams := datParams;
      new;
      PopulateSetsOfIndices();
      PopulateParameters();
      DeriveVariablesKeys();
    }

    /** Once populated, the attributes are exactly what `BaseData` derives from the tables. */
    lemma PopulatedData()
      requires SetsPopulated() && ParametersPopulated() && KeysPopulated()
      ensures |dat.demandPacking| > 0 && Data() == BaseData(dat, datParams)
      ensures Indexed(Data())
    {
      assert |dat.demandPacking| > 0;
      BaseDataIndexed(dat, datParams);
    }

    /** `_populate_sets_of_indices`: I from the packing table, J from the inventory table,
        T from the demand table, first_period = min(T), T_extend = T with first_period - 1. */
    method PopulateSetsOfIndices()
      requires |dat.demandPacking| > 0
      modifies this`I, this`J, this`T, this`TExtend, this`firstPeriod
      ensures SetsPopulated()
    {
      I := Distinct(PackingIdColumn(dat.packing));
      J := Distinct(FactoryIdColumn(dat.inventory));
      T := PeriodIds(dat);
      firstPeriod := Min(T);
      TExtend := T + [firstPeriod - 1];
    }

    /** `_populate_parameters`: first_period = min(T) once more, then one dictionary per
        column, keyed by its table's key. */
    method PopulateParameters()
      requires SetsPopulated()
      modifies this`firstPeriod
      modifies this`params, this`d, this`ilg, this`iniInventory, this`invenCost, this`c, this`au, this`moq
      ensures SetsPopulated() && ParametersPopulated()
    {
      ghost var sets := IndexSets(dat);
      IndexSetsFirst(dat);
      firstPeriod := Min(T);
      assert (I, J, T, firstPeriod, TExtend) == sets;
      params, d, ilg, iniInventory, invenCost, c, au, moq :=
        datParams, DemandMap(dat.demandPacking), MinInventoryMap(dat.inventory), InitialInventoryMap(dat.inventory),
        InventoryCostMap(dat.inventory), UnitPriceMap(dat.packing), MaxOrderMap(dat.demandPacking),
        MinOrderMap(dat.demandPacking);
    }

    /** `_derive_variables_keys`: first_period and T_extend once more, then x, w, wb, xb
        keys are I x T and yp, yg keys I x T_extend. */
    method DeriveVariablesKeys()
      requires SetsPopulated()
      modifies this`firstPeriod, this`TExtend
      modifies this`xKeys, this`wKeys, this`wbKeys, this`xbKeys, this`ypKeys, this`ygKeys
      ensures SetsPopulated() && KeysPopulated()
    {
      ghost var sets := IndexSets(dat);
      IndexSetsFirst(dat);
      firstPeriod := Min(T);
      TExtend := T + [firstPeriod - 1];
      assert (I, J, T, firstPeriod, TExtend) == sets;
      var x, yp := Pairs(I, T), Pairs(I, TExtend);
      xKeys, wKeys, wbKeys, xbKeys, ypKeys, ygKeys := x, x, x, x, yp, yp;
    }
  }
}
