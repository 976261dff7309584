# mip_procure core, modelled in Dafny

mip_procure plans the procurement of packing material for a two-site network. Packing is
bought into the *Patas Pack* warehouse and transferred to the *Pet Gourmet* factory, where
it serves demand. The plan is a mixed-integer program built with pulp. This project models
the parts of the repository that build and check that program, and the parts that read its
answer back:

- `DatIn` turns the input tables (packing, demand_packing, inventory, parameters) into the
  index sets I, T, T_extend and first_period, the parameter dictionaries, and the variable
  key lists.
- `OptModel` declares the variables and adds the constraint families C1-C9. It also builds
  the cost objective and the two optional extensions, truck batching and quantity
  discount. `optimize` packages the solver's answer.
- `DatOut._process_solution` rebuilds the Pet Gourmet and Patas Pack ledgers from the
  solved value lists.
- `solve` in `main.py` is the older flat-limit formulation. It has per-(item, period)
  acquisition and transport caps instead of the order band, and it assembles three
  output tables of its own.
- There are two `data_integrity_checks` validators of the demand table. One checks that
  the demand table covers the whole (packing, period) cross product. The other checks
  that all packings share one period set.

How each part is modelled:

- **Formulation as data.** A constraint is a value (`Lp.LinearConstraint`), and
  `Lp.Problem` is the `LpProblem` that `addConstraint` appends to.
- **Loop order.** Each constraint family is a function from a loop index to the rows that
  iteration adds. The builder methods are the source's nested loops, proved to add
  exactly those rows in the source's order.
- **Meaning of the rows.** A family of lemmas proves that an assignment satisfies the
  built rows and declared bounds exactly when it is a feasible plan, one named property
  per family. They also prove that the objective's value is the plan's total cost, and
  that an optimal answer yields ledgers that are the plan's stock balance.
- **The solver** is outside the model. Its status and variable values are parameters.

## Model

| member | source | states |
|---|---|---|
| Collections.DistinctSpec | mip_procure/data_bridge.py:77-79 | `set(column)` as enumerated holds every value of the column once and nothing else |
| Collections.Min | mip_procure/data_bridge.py:80 | first_period is a period of T and no period of T is smaller |
| Collections.Max | mip_procure/opt_model.py:139 | `max(T)` is a period of T and no period of T is larger |
| Collections.PairsSpec | mip_procure/data_bridge.py:127-132 | a key-list comprehension has \|a\|·\|b\| pairs, exactly the pairs of a × b, without duplicates when a and b have none |
| Collections.ToMapDomain | mip_procure/data_bridge.py:106-118 | `dict(zip(keys, values))` has exactly the listed keys |
| Collections.ToMapLastWins | mip_procure/data_bridge.py:106-118 | a key listed at no later position takes the value listed with it (a later duplicate overwrites) |
| Collections.SortBy | mip_procure/data_bridge.py:258-259 | `sort_values` returns a permutation of its input, ascending by (Packing ID, Period ID) |
| DataIn.PeriodIds | mip_procure/data_bridge.py:79 | T is duplicate-free, holds exactly the demand table's Period IDs, and is nonempty when the table is |
| DataIn.DemandMaps | mip_procure/data_bridge.py:106-118 | d, au and moq are defined exactly at the demand table's keys; a key takes the Demand, Max and Min Order Qty of its last row |
| DataIn.InventoryMaps | mip_procure/data_bridge.py:108-114 | ilg, ini_inventory and inven_cost are defined exactly at the inventory table's (Factory ID, Packing ID) keys, with the last row's values |
| DataIn.UnitPrices | mip_procure/data_bridge.py:112 | c is defined exactly at the packing table's IDs, with the last row's Unit Price |
| DataIn.BaseDataIndexed | mip_procure/data_bridge.py:77-132 | what `DatIn` derives has duplicate-free I and T, nonempty T, first_period = min(T), T_extend = T plus first_period − 1, x keys = I × T, yp keys = I × T_extend |
| DataIn.ExtendedHorizon | mip_procure/data_bridge.py:123-132 | first_period − 1 is not in T, so T_extend is duplicate-free with \|T\| + 1 periods, and every x key is also a yp key |
| DataIn.DatIn.constructor | mip_procure/data_bridge.py:18-67 | the tables are kept as given; the three population steps run in their mandated order, after which the sets, the parameters and the key lists are all populated |
| DataIn.DatIn.PopulatedData | mip_procure/data_bridge.py:63-67 | once populated, the attributes are exactly what `BaseData` derives, with the shape `Indexed` |
| DataIn.DatIn.PopulateSetsOfIndices | mip_procure/data_bridge.py:72-81 | sets I, J, T, first_period and T_extend from the tables, touching no other attribute |
| DataIn.DatIn.PopulateParameters | mip_procure/data_bridge.py:93-118 | with the sets populated, re-sets first_period to min(T), which keeps the sets populated, and sets the parameter dictionaries from their columns; no other attribute changes |
| DataIn.DatIn.DeriveVariablesKeys | mip_procure/data_bridge.py:120-132 | with the sets populated, recomputes first_period and T_extend (the sets stay populated), then sets x, w, wb, xb keys to I × T and yp, yg keys to I × T_extend |
| Formulation.IndexedKeys | mip_procure/data_bridge.py:127-132 | x keys are exactly the pairs of I × T, yp keys exactly those of I × T_extend |
| Formulation.ContiguousLookups | mip_procure/opt_model.py:123-143 | on an unbroken horizon, every `t − 1` lookup of the flow balance and every `t + l` lookup of the dwell rows succeeds |
| Formulation.ContiguousPrevious | mip_procure/opt_model.py:123-126 | on an unbroken horizon, `t − 1` is in T_extend for every period t of T |
| Formulation.ContiguousWindows | mip_procure/opt_model.py:138-143 | on an unbroken horizon, every window t + 1 .. t + MaxTimePackingPack that the C6 guard admits lies in T |
| Formulation.OverPeriods | mip_procure/opt_model.py:100 | `for t in T` visits exactly the periods of T |
| Formulation.OverItems | mip_procure/opt_model.py:148 | `for i in I` visits exactly the items of I |
| Formulation.ItemsAt | mip_procure/opt_model.py:124 | the inner `for i in I` at period t visits (I[k], t) at step k |
| Formulation.PeriodsFor | mip_procure/opt_model.py:110 | the inner `for t in T` at item i visits (i, T[k]) at step k |
| Formulation.ItemsThenPeriods | mip_procure/opt_model.py:109-110 | `for i in I: for t in T` visits exactly the pairs of I × T |
| Formulation.PeriodsThenItems | mip_procure/opt_model.py:123-124 | `for t in T: for i in I` visits exactly the pairs of I × T |
| Formulation.CostTerms | mip_procure/opt_model.py:183-185 | one objective term per key, on that key's variable of the family; Costs.CostTermsValue gives its value |
| Formulation.BatchObjective | mip_procure/opt_model.py:212 | one term 350 · n[t] per period of T |
| Formulation.DiscountTerms | mip_procure/opt_model.py:234 | one rebate term per key; Costs.DiscountRebate gives its value |
| Lp.Problem.constructor | mip_procure/opt_model.py:34 | a new problem has no constraints, no objective, and is not solved |
| Lp.Problem.AddConstraint | mip_procure/opt_model.py:102 | `addConstraint` appends the row and changes nothing else |
| Lp.Problem.SetObjective | mip_procure/opt_model.py:258 | `setObjective` replaces the objective and changes nothing else |
| Lp.Problem.Solve | mip_procure/opt_model.py:259-263 | the status and values become the solver's answer; an Optimal answer satisfies every row added |
| Lp.ScaledTermsValue | mip_procure/opt_model.py:102 | `lpSum(coef · family[i, t] for i in I)` evaluates to coef times the sum of the values |
| Builder.AddAll | mip_procure/opt_model.py:111-112 | one iteration's `addConstraint` calls append its rows in order and change nothing else |
| Builder.AddOverPeriods | mip_procure/opt_model.py:100-104 | `for t in T` appends the rows of every period in order and changes nothing else |
| Builder.AddOverItems | mip_procure/opt_model.py:148-150 | `for i in I` appends the rows of every item in order |
| Builder.AddPeriodsFor | mip_procure/opt_model.py:110-112 | the inner period loop appends the rows of (i, t) for every t in order |
| Builder.AddItemsAt | mip_procure/opt_model.py:124-126 | the inner item loop appends the rows of (i, t) for every i in order |
| Builder.AddItemsThenPeriods | mip_procure/opt_model.py:109-112 | the item-then-period nest appends the rows of I × T in that order |
| Builder.AddPeriodsThenItems | mip_procure/opt_model.py:123-126 | the period-then-item nest appends the rows of I × T in that order |
| Builder.AddDwellRows | mip_procure/opt_model.py:138-143 | C6, with its guard between the two loops, appends exactly the C6 rows of the period-then-item order |
| Builder.NoDwellRows | mip_procure/opt_model.py:139 | a period failing `t <= max(T) − MaxTimePackingPack` contributes no C6 row |
| Feasibility.WindowValue | mip_procure/opt_model.py:142 | the window `Σ_{l=1..M} x[i, t + l]` evaluates to the sum of those transfers |
| Feasibility.CapacityRowsMeaning | mip_procure/opt_model.py:100-104 | the C1 rows at t hold iff Pack and Gourmet stock at t fit their capacities |
| Feasibility.BandRowsMeaning | mip_procure/opt_model.py:109-112 | the C2 rows hold iff wb·moq ≤ w ≤ wb·au |
| Feasibility.TransportRowsMeaning | mip_procure/opt_model.py:117-118 | the C3 row holds iff the period's total transfer fits TransportingLimitByPeriod |
| Feasibility.BalanceRowsMeaning | mip_procure/opt_model.py:123-126 | the C4 rows hold iff both flow-balance equations hold at (i, t) |
| Feasibility.FloorRowsMeaning | mip_procure/opt_model.py:131-133 | the C5 row holds iff Gourmet stock is at least the Gourmet minimum inventory |
| Feasibility.DwellRowsMeaning | mip_procure/opt_model.py:138-143 | the C6 rows hold iff, where the guard applies, the next M transfers cover the Pack stock |
| Feasibility.BoundaryRowsMeaning | mip_procure/opt_model.py:148-150 | the C7 rows hold iff the stock before first_period is each site's initial inventory |
| Feasibility.DiversityRowsMeaning | mip_procure/opt_model.py:155-156 | the C8 row holds iff the transfer indicators of a period sum to at most DiversityTransportingPacking |
| Feasibility.GateRowsMeaning | mip_procure/opt_model.py:161-163 | the C9 row holds iff x ≤ xb · TransportingLimitByPeriod |
| Feasibility.AcquisitionCapRowsMeaning | mip_procure/main.py:53-55 | the flat-limit C2 row holds iff w[i, t] ≤ acquisition_limit_period[i, t] |
| Feasibility.TransportCapRowsMeaning | mip_procure/main.py:58-60 | the flat-limit C3 row holds iff x[i, t] ≤ transport_limit_period[i, t] |
| Feasibility.TruckFloorRowsMeaning | mip_procure/opt_model.py:205-206 | the first batching row holds iff cap · n[t] ≥ Σ x[i, t] |
| Feasibility.TruckCeilingRowsMeaning | mip_procure/opt_model.py:208-209 | the second batching row holds iff cap · n[t] ≤ Σ x[i, t] + cap |
| Feasibility.DiscountRowsMeaning | mip_procure/opt_model.py:230-232 | the discount rows hold iff dc·w ≥ w − L and dc·(w − L) ≥ w − L |
| Feasibility.CapacityFamily | mip_procure/opt_model.py:100-104 | all C1 rows hold iff the capacity holds in every period |
| Feasibility.BandFamily | mip_procure/opt_model.py:109-112 | all C2 rows hold iff the order band holds at every (i, t) |
| Feasibility.TransportFamily | mip_procure/opt_model.py:117-118 | all C3 rows hold iff the transport limit holds in every period |
| Feasibility.BalanceFamily | mip_procure/opt_model.py:123-126 | all C4 rows hold iff flow balance holds at every (i, t) |
| Feasibility.FloorFamily | mip_procure/opt_model.py:131-133 | all C5 rows hold iff the Gourmet floor holds at every (i, t) |
| Feasibility.DwellFamily | mip_procure/opt_model.py:138-143 | all C6 rows hold iff the dwell limit holds at every (i, t) |
| Feasibility.BoundaryFamily | mip_procure/opt_model.py:148-150 | all C7 rows hold iff every item's boundary stock is its initial inventory |
| Feasibility.DiversityFamily | mip_procure/opt_model.py:155-156 | all C8 rows hold iff the diversity limit holds in every period |
| Feasibility.GateFamily | mip_procure/opt_model.py:161-163 | all C9 rows hold iff every transfer is gated by its indicator |
| Feasibility.AcquisitionCapFamily | mip_procure/main.py:53-55 | all flat-limit C2 rows hold iff every acquisition is within its per-item cap |
| Feasibility.TransportCapFamily | mip_procure/main.py:58-60 | all flat-limit C3 rows hold iff every transfer is within its per-item cap |
| Feasibility.TruckFloorFamily | mip_procure/opt_model.py:205-206 | all first batching rows hold iff the truck floor holds in every period |
| Feasibility.TruckCeilingFamily | mip_procure/opt_model.py:208-209 | all second batching rows hold iff the truck ceiling holds in every period |
| Feasibility.TruckFamilies | mip_procure/opt_model.py:205-209 | both batching loops' rows hold iff every period's truck count lies between floor and ceiling |
| Feasibility.DiscountFamily | mip_procure/opt_model.py:228-232 | all discount rows hold iff the discount pair holds at every (i, t) |
| Feasibility.BaseRowsMeaning | mip_procure/opt_model.py:83-163 | the rows of `_add_base_constraints` hold iff C1-C9 hold as properties of the plan |
| Feasibility.PerItemRowsMeaning | mip_procure/main.py:44-83 | the rows of `solve` hold iff C1, the per-item caps and C4-C7 hold |
| Feasibility.BaseGridBoundsSound | mip_procure/opt_model.py:66-72 | the declared bounds make x, w nonnegative and wb, xb binary on I × T |
| Feasibility.BaseStockBoundsSound | mip_procure/opt_model.py:62-65 | the declared bounds make yp, yg nonnegative on I × T_extend |
| Feasibility.BaseBoundsComplete | mip_procure/opt_model.py:62-72 | nonnegative x, w, yp, yg and binary wb, xb meet every declared bound |
| Feasibility.BaseBoundsMeaning | mip_procure/opt_model.py:62-72 | an assignment meets the declared bounds iff it meets the variable bounds of the model |
| Feasibility.PerItemBoundsMeaning | mip_procure/main.py:39-42 | the same for y, z over I × T_extended and x, w over I × T |
| Feasibility.DiscountBoundsMeaning | mip_procure/opt_model.py:221-225 | declaring `dc` as binary over `dc_keys` keeps the earlier bounds and adds exactly 0 ≤ dc[i, t] ≤ 1 for every (i, t) of I × T |
| Feasibility.BaseModelMeaning | mip_procure/opt_model.py:43-163 | declared bounds and all rows hold iff the plan is feasible for the order-band model |
| Feasibility.PerItemModelMeaning | mip_procure/main.py:36-83 | declared bounds and all rows hold iff the plan is feasible for the flat-limit model |
| Feasibility.SemiContinuousOrder | mip_procure/opt_model.py:109-112 | with binary wb and w ≥ 0, C2 holds iff wb = 0 and w = 0, or wb = 1 and moq ≤ w ≤ au |
| Feasibility.GateCountsTransfers | mip_procure/opt_model.py:161-163 | with binary xb and C9, the number of items with a positive transfer is at most Σ xb |
| Feasibility.DiversityBoundsTransfers | mip_procure/opt_model.py:154-163 | in a feasible plan, at most DiversityTransportingPacking items are transferred in any period |
| Costs.CostTermsValue | mip_procure/opt_model.py:183-185 | each `lpSum` of the objective evaluates to its coefficient-weighted sum of values |
| Costs.CostSplit | mip_procure/opt_model.py:183-185 | the per-key cost sums to the three objective parts |
| Costs.ObjectiveIsCost | mip_procure/opt_model.py:183-185 | the objective's value is the plan's total purchase and holding cost over I × T |
| Costs.ObjectiveReadsHorizon | mip_procure/opt_model.py:183-185 | every objective term is a w, yp or yg variable of I × T; the boundary period is never costed |
| Costs.TruckFloorCount | mip_procure/opt_model.py:205-206 | the first batching row admits exactly the counts from ⌈load / cap⌉ up |
| Costs.TruckCeilingCount | mip_procure/opt_model.py:208-209 | the second batching row admits exactly the counts up to ⌊load / cap⌋ + 1 |
| Costs.TruckCountRange | mip_procure/opt_model.py:205-209 | together they admit exactly ⌈load / cap⌉ ≤ n ≤ ⌊load / cap⌋ + 1, and ⌈load / cap⌉ is admitted |
| Costs.RatioForm | mip_procure/opt_model.py:205-209 | for cap > 0, the multiplied-out rows say the same as the source's `Σ x / cap` form |
| Costs.TrucksCoverLoad | mip_procure/opt_model.py:201-209 | the batching rows force at least ⌈load / cap⌉ trucks |
| Costs.TruckCost | mip_procure/opt_model.py:212 | the batching objective charges 350 per truck |
| Costs.DiscountEligibility | mip_procure/opt_model.py:230-232 | for binary dc the discount rows hold iff dc = 1 (with L ≥ 0) or dc = 0 and w ≤ L |
| Costs.AboveLimitSetsDiscount | mip_procure/opt_model.py:228-232 | a purchase above DiscountLimit forces dc = 1 |
| Costs.DiscountRebate | mip_procure/opt_model.py:234 | the rebate is −10% of the acquisition cost, whatever dc is |
| Optimization.OptModel.constructor | mip_procure/opt_model.py:15-41 | a fresh empty problem, no variables, an empty objective, no solution |
| Optimization.OptModel.BuildBaseModel | mip_procure/opt_model.py:43-51 | declares the variables, appends exactly the C1-C9 rows and adds the base objective |
| Optimization.OptModel.AddDecisionVariables | mip_procure/opt_model.py:53-79 | declares yp, yg over I × T_extend and x, w (integer ≥ 0), wb, xb (binary) over I × T |
| Optimization.OptModel.AddBaseConstraints | mip_procure/opt_model.py:83-163 | appends exactly the C1-C9 rows in the source's loop order |
| Optimization.OptModel.BuildObjective | mip_procure/opt_model.py:170-185 | adds the purchase and holding cost terms to the objective |
| Optimization.OptModel.TransportingCostComplexity | mip_procure/opt_model.py:193-214 | for a positive truck capacity, declares an integer truck count n[t] ≥ 0 for every period of T, appends both batching row families in period order, and adds 350 per truck to the objective |
| Optimization.OptModel.DiscountComplexity | mip_procure/opt_model.py:216-234 | declares a binary dc[i, t] over I × T, appends the two discount rows at every (i, t) in item-then-period order, and adds the rebate terms |
| Optimization.OptModel.Optimize | mip_procure/opt_model.py:252-292 | for a solver answer that, when Optimal, meets every declared bound (base, `dc` and `n`) and every row: sets the objective, records the answer, and stores status, objective value and value lists (status alone unless Optimal) |
| Optimization.PackageShape | mip_procure/opt_model.py:268-292 | the solution keeps value lists and objective value iff the status is Optimal |
| Optimization.SolvedBaseIsFeasible | mip_procure/opt_model.py:83-185 | an optimal answer (with any extension rows) is a feasible plan whose base objective is its total cost |
| Optimization.SolvedDiscount | mip_procure/opt_model.py:221-232 | an answer meeting the base and `dc` declarations, C1-C9 and the discount rows is feasible, and every purchase above DiscountLimit has dc[i, t] = 1 |
| Optimization.SolvedTrucks | mip_procure/opt_model.py:197-209 | with a positive capacity, an answer meeting `n`'s declaration and both batching row families uses n[t] ≥ 0 and n[t] ≥ ⌈Σ x[i, t] / cap⌉ trucks in every period |
| Optimization.OptimalIsCheapest | mip_procure/opt_model.py:34 | an answer no dearer than any assignment meeting bounds and rows is a cheapest feasible plan |
| Optimization.SolvedTransfers | mip_procure/opt_model.py:272 | the x list holds the transfer of (i, t) iff (i, t) is in I × T |
| Frames.Entries | mip_procure/opt_model.py:272-275 | one entry per key, in key order, carrying that variable's value |
| Frames.EntriesMember | mip_procure/opt_model.py:272-275 | a value list has an entry for (i, t) iff (i, t) is a key of the dictionary |
| Frames.Plus | mip_procure/data_bridge.py:253-254 | column addition is a number iff both sides are, and then their sum |
| Frames.Minus | mip_procure/data_bridge.py:253-254 | column subtraction is a number iff both sides are, and then their difference |
| Frames.FillNa | mip_procure/data_bridge.py:252 | `fillna(0)` keeps a number and turns NaN into 0 |
| Frames.Lookup | mip_procure/data_bridge.py:249 | a merge brings a value iff some entry has the key, and then that entry's value |
| Frames.LookupEntries | mip_procure/data_bridge.py:249 | merging a solved value list finds the variable's value for its keys and NaN elsewhere |
| DataOut.DemandEntries | mip_procure/data_bridge.py:245-246 | one (Packing ID, Period ID, Demand) line per demand row |
| DataOut.DemandLookup | mip_procure/data_bridge.py:250 | without duplicate keys, the merged demand is `d[i, t]`, or NaN for a key `d` lacks |
| DataOut.GourmetLineBalance | mip_procure/data_bridge.py:249-254 | a Gourmet line is a stock balance: Final = Initial + Transferred − Demand; a missing demand counts 0 |
| DataOut.GourmetFrame | mip_procure/data_bridge.py:249-257 | one Gourmet line per x entry, in its order |
| DataOut.GourmetTable | mip_procure/data_bridge.py:258-260 | the Gourmet table is a permutation of the frame, sorted by (Packing ID, Period ID) |
| DataOut.PackLineBalance | mip_procure/data_bridge.py:263-267 | a Pack line is a stock balance: Final = Initial + Acquired − Transferred |
| DataOut.PackFrame | mip_procure/data_bridge.py:263-270 | one Pack line per x entry, in its order |
| DataOut.PackTable | mip_procure/data_bridge.py:271-273 | the Pack table is a permutation of the frame, sorted by (Packing ID, Period ID) |
| DataOut.Ledgers | mip_procure/data_bridge.py:187-273 | both tables exist iff the solution is Optimal, with one sorted row per x entry |
| DataOut.DatOut.constructor | mip_procure/data_bridge.py:155-185 | starts with no tables and leaves exactly the tables `_process_solution` gives |
| DataOut.DatOut.ProcessSolution | mip_procure/data_bridge.py:187-273 | unless Optimal returns leaving both tables as they were; otherwise sets both ledgers |
| DataOut.GourmetLineOf | mip_procure/data_bridge.py:253-254 | under flow balance, a Gourmet line's Initial Inventory is yg[i, t − 1] |
| DataOut.PackLineOf | mip_procure/data_bridge.py:266-267 | under flow balance, a Pack line's Initial Inventory is yp[i, t − 1] |
| DataOut.GourmetFrameRows | mip_procure/data_bridge.py:249-257 | under flow balance, the k-th Gourmet line is the plan's row for the k-th key of I × T |
| DataOut.PackFrameRows | mip_procure/data_bridge.py:263-270 | under flow balance, the k-th Pack line is the plan's row for the k-th key of I × T |
| DataOut.GourmetTableRows | mip_procure/data_bridge.py:258-260 | sorting such a frame yields the Gourmet ledger of the plan |
| DataOut.PackTableRows | mip_procure/data_bridge.py:271-273 | sorting such a frame yields the Pack ledger of the plan |
| DataOut.SolvedGourmetLedger | mip_procure/data_bridge.py:249-260 | under flow balance, the Gourmet table has one row per (i, t) of I × T, each the plan's stock balance |
| DataOut.SolvedPackLedger | mip_procure/data_bridge.py:263-273 | under flow balance, the Pack table has one row per (i, t) of I × T, each the plan's stock balance |
| DataOut.OptimalLedgers | mip_procure/data_bridge.py:206-273 | for an optimal answer both ledgers exist and each row's Initial Inventory is the Final Inventory of (i, t − 1) |
| DataOut.UnsolvedNoLedgers | mip_procure/data_bridge.py:206-207 | without an Optimal status there are no ledgers |
| PerItem.PerItemDataIndexed | mip_procure/main.py:12-38 | the sets and key lists `solve` derives have the shape the builder relies on |
| PerItem.PerItemLimits | mip_procure/main.py:24-27 | the per-item limit dictionaries are defined exactly at the demand keys, with the last row's limits |
| PerItem.PetGourmetTable | mip_procure/main.py:129-133 | one Pet Gourmet row per demand row, in the demand table's order |
| PerItem.PatasPackTable | mip_procure/main.py:136-141 | one Patas Pack row per x entry, in its order |
| PerItem.AcquisitionTable | mip_procure/main.py:144-145 | one acquisition row per w entry, in its order |
| PerItem.Solve | mip_procure/main.py:10-145 | declares the variables, adds exactly the flat-limit rows, sets the cost objective, records the answer, and assembles the tables; an Optimal answer (which meets the declared bounds and rows) is a feasible flat-limit plan |
| PerItem.SolveModel | mip_procure/main.py:36-145 | the same, from the derived data |
| PerItem.BuildPerItemModel | mip_procure/main.py:36-93 | a fresh problem with exactly the flat-limit rows and the cost objective |
| PerItem.AddPerItemConstraints | mip_procure/main.py:44-83 | appends exactly C1, the two per-item caps and C4-C7 in the source's loop order |
| PerItem.SolvedPerItemIsFeasible | mip_procure/main.py:44-93 | an optimal answer is a feasible flat-limit plan whose objective is its total cost |
| PerItem.PerItemOptimalIsCheapest | mip_procure/main.py:36 | an answer no dearer than any assignment meeting bounds and rows is a cheapest flat-limit plan |
| PerItem.TablesShape | mip_procure/main.py:118-145 | tables exist iff Optimal; then one Pet Gourmet row per demand row and \|I\|·\|T\| Patas Pack and acquisition rows |
| PerItem.PetGourmetLineOf | mip_procure/main.py:129-130 | under flow balance, Demand + Final Inventory is z[i, t − 1] + x[i, t] |
| PerItem.PetGourmetLedger | mip_procure/main.py:129-133 | under flow balance, every Pet Gourmet row of a key of I × T is the plan's row for that key |
| PerItem.PetGourmetUnmatched | mip_procure/main.py:129 | a demand row whose key has no z variable gets NaN for both inventories |
| PerItem.PatasPackLineOf | mip_procure/main.py:137-138 | under flow balance, Transferred + Final Inventory is y[i, t − 1] + w[i, t] |
| PerItem.PatasPackLedger | mip_procure/main.py:136-141 | under flow balance, the k-th Patas Pack row is the plan's row for the k-th key of I × T |
| PerItem.AcquisitionLedger | mip_procure/main.py:144-145 | the k-th acquisition row carries w and x of the k-th key; its transfer is never NaN |
| CrossProduct.CrossProductCheck | mip_procure/data_preparation.py:4-14 | passes iff every (packing, period) pair named in the demand table has a row; otherwise reports exactly the missing pairs |
| CrossProduct.ReceivedMembers | mip_procure/data_preparation.py:9 | a pair is received iff some demand row carries it |
| CrossProduct.CheckIgnoresOrder | mip_procure/data_preparation.py:6-10 | tables with the same rows, in any order and repetition, get the same verdict and missing pairs |
| CrossProduct.PassingCheckGivesLookups | mip_procure/data_preparation.py:8-11 | a passing check, with every packing of the packing table in demand, makes the d and per-item limit lookups on I × T total |
| Horizon.Grouped | test_mip_procure/data_preparation.py:18 | maps each packing of the demand table, and only those, to its set of periods |
| Horizon.HorizonCheck | test_mip_procure/data_preparation.py:15-24 | passes iff all packings share one period set, and otherwise fails with the source's message |
| Horizon.PackingOrder | test_mip_procure/data_preparation.py:19-21 | the loops visit exactly the packings of the demand table |
| Horizon.SameHorizonIffComplete | test_mip_procure/data_preparation.py:15-24 | equal period sets hold iff the cross-product check passes: both validators accept the same tables |
| Horizon.HorizonIgnoresOrder | test_mip_procure/data_preparation.py:17-19 | the verdict does not depend on row order or repeated rows |

## Left out

- The MIP solver (`mdl.solve()`, `LpStatus`, `var.value()`, `writeLP`) is external. Its status and an integer assignment are parameters. `Lp.Problem.Solve` requires that an Optimal answer satisfies the rows. `Optimization.OptModel.Optimize` and `PerItem.Solve` also require it to meet the declared variable bounds. Optimality itself is stated as a hypothesis in `OptimalIsCheapest` and `PerItemOptimalIsCheapest`.
- Lp.Problem.Solve: the problem holds rows only. The variable declarations and their bounds are kept by the callers that make them (`OptModel`'s `vars`, `extVars` and `counts`, and the `vars` that `PerItem.Solve` returns), and those callers state the bounds.
- The objective value `mdl.objective.value()` is modelled as the objective's value under the assignment. Floating-point arithmetic is not modelled: prices and costs are `real`, and variable values are integers.
- The status is the `Status` datatype. pulp's numeric status codes and status strings are not modelled.
- Python set iteration order is unspecified. I and T are enumerated in first-occurrence order, and every proved property depends only on membership.
- `transporting_cost_complexity` as written is not valid Python: it passes a tuple with a bare generator to `addConstraint`, and `n*350` multiplies a dict. It is modelled as intended, with one floor row and one ceiling row per period and 350 per truck. The division by the truck capacity is multiplied out to keep integer coefficients. `Costs.RatioForm` shows this is equivalent when the capacity is positive.
- `discount_complexity` multiplies two variables, which pulp would reject. The bilinear rows are kept as written, as `Product` terms.
- Optimization.OptModel.DiscountComplexity: the source declares `dc` as binary inside the problem, not in `self.vars`. The model records the declaration in the ghost field `extVars`, and `Optimize` requires an Optimal answer to meet it. `Costs.DiscountEligibility` and `Costs.AboveLimitSetsDiscount` take `0 <= dc <= 1` as a hypothesis; `Optimization.SolvedDiscount` discharges it from the declaration.
- Optimization.OptModel.TransportingCostComplexity: the source declares `n` as an integer with lower bound 0 inside the problem. The model records its periods in the ghost field `counts`, and `Optimize` requires an Optimal answer to meet `CountBounds`.
- Optimization.OptModel.TransportingCostComplexity requires a positive TransportingLimitByPeriod. The rows as intended divide by it, so the source raises `ZeroDivisionError` at capacity 0, although the parameter table admits 0. Without the requirement the multiplied-out rows would force every transfer to 0.
- The empty demand table is excluded: `min(T)` raises `ValueError` in the source, so `DatIn`, `BaseData`, `PerItemData` and `PerItem.Solve` require a nonempty demand table.
- `Optimization.OptModel.BuildBaseModel`, `Optimization.OptModel.AddBaseConstraints`, `PerItem.Solve`: any dictionary lookup that fails raises `KeyError` in the source. These members require `BaseBuildable` or `PerItemBuildable` instead of modelling that error. The requirement covers d, ilg, ini_inventory, inven_cost, c, au/moq or the per-item limits, `t − 1` in T_extend, and the dwell window in T. `CrossProduct.PassingCheckGivesLookups` and `Formulation.ContiguousLookups` show which inputs meet it.
- Merges with duplicate keys are modelled as taking the first match. pandas would duplicate rows. The ledger theorems assume a demand table without duplicate keys.
- `DataOut.DatOut.constructor` takes the packaged solution and the demand table directly, not the `OptModel` object.
- `main.solve` reads the demand table back from a CSV file (mip_procure/main.py:125). That table is the `demandCsv` parameter.
- `main.solve` prints its tables and returns a tuple of `None`s. The model returns the tables.
- J is computed but never read. It is kept in `DatIn` and unused elsewhere.
- `create_full_parameters_dict` and the ticdat schemas are not modelled: the parameter table arrives as `Params`, with the declared defaults already filled in.
- Types.Params: 'DiversityTransportingPacking' and 'DiscountLimit' are not declared parameters (mip_procure/schemas.py:56-62) and have no default. The source's `params[...]` lookups for C8 and the discount rows raise `KeyError` unless the parameter table supplies them. The model makes them mandatory fields of `Params`, so `Formulation.DiversityRows` (C8) and `Formulation.DiscountRows` assume the values are present.
- DataIn.DemandMaps: 'Max Order Qty' and 'Min Order Qty' (read for au and moq) are not columns of the declared demand_packing schema (mip_procure/schemas.py:10), so the source's column access fails on a table that only follows the schema. The model makes them fields of every demand row and assumes the columns are present.
- `set_model_parameters` has an empty body, so there is nothing to model.
- `print_opt_data`, the timing calls and the debug prints are left out.
- The module-level CSV load and the pandas display options of test_mip_procure/data_preparation.py are left out.
- `copy_pan_dat` and `.copy()` are not modelled as copies. The tables are values in the model, so no operation can change the caller's tables.
- `ValueError` is `Err`. The cross-product check carries the set of missing pairs, not the formatted message.
- action_update_packing_cost.py rounds floating-point prices and is not part of this model. The same holds for `build_output`.
