/** Shared vocabulary of the procurement model: identifiers, input table rows,
    the named scalar parameters and the solver status. */
module Types {

  /** 'Packing ID': a packing SKU, compared as a string. */
  type Item = string

  /** 'Period ID': an integer time index. */
  type Period = int

  /** An (item, period) pair, the key of every per-period variable and parameter. */
  type Key = (Item, Period)

  /** 'Factory ID': the inventory table only admits the two sites of the network. */
  datatype Site = Pack | Gourmet

  datatype Option<+T> = None | Some(value: T)

  datatype Result<+T, +E> = Ok(value: T) | Err(error: E)

  /** A row of the `packing` table. Size and colour are carried through only. */
  datatype PackingRow = PackingRow(packingId: Item, unitPrice: real, size: int, color: string)

  /** A row of the `demand_packing` table. The flat-limit formulation reads the two
      'Limit Period' columns; the order-band formulation reads 'Min Order Qty' and
      'Max Order Qty', which the declared table schema does not list. */
  datatype DemandRow = DemandRow(
    packingId: Item,
    periodId: Period,
    demand: int,
    minOrderQty: int,
    maxOrderQty: int,
    acquisitionLimitPeriod: int,
    transportLimitPeriod: int)

  /** A row of the `inventory` table, keyed by (factory, packing). */
  datatype InventoryRow = InventoryRow(
    factoryId: Site,
    packingId: Item,
    initialInventory: int,
    minimumInventory: int,
    inventoryCost: real)

  /** The input tables the model reads. Being values, they cannot be changed by the model. */
  datatype Tables = Tables(
    packing: seq<PackingRow>,
    demandPacking: seq<DemandRow>,
    inventory: seq<InventoryRow>)

  /** The parameter table after defaults have been filled in: one field per knob the
      formulations read. DiversityTransportingPacking and DiscountLimit have no declared
      default, so here they are taken as supplied by the table. */
  datatype Params = Params(
    inventoryCapacityPack: int,
    inventoryCapacityGourmet: int,
    transportingLimitByPeriod: int,
    maxTimePackingPack: int,
    acquisitionLimitPeriod: int,
    diversityTransportingPacking: int,
    discountLimit: int)

  /** The ranges the parameter table enforces: capacities and limits are nonnegative,
      the dwell limit is an integer of at least one period. */
  predicate ValidParams(p: Params)
  {
    && p.inventoryCapacityPack >= 0
    && p.inventoryCapacityGourmet >= 0
    && p.transportingLimitByPeriod >= 0
    && p.maxTimePackingPack >= 1
    && p.acquisitionLimitPeriod >= 0
  }

  /** Terminal status reported by the external MIP solver. */
  datatype Status = Optimal | NotSolved | Infeasible | Unbounded | Undefined
}
