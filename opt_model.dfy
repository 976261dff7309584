/** `OptModel`: builds the order-band model into an `LpProblem` (variables, C1-C9,
    objective), optionally adds the batching and discount extensions, hands the model
    to the solver and packages its answer. */
module Optimization {
  import opened Types
  import opened Collections
  import opened Lp
  import opened Formulation
  import opened Feasibility
  import opened Costs
  import opened Builder
  import opened Frames

  /** `self.sol`: status, objective value and the x, yp, yg, w value lists when the
      model is optimal; the status alone otherwise. */
  datatype Solution =
    | Solved(status: Status, objVal: real, x: seq<Entry>, yp: seq<Entry>, yg: seq<Entry>, w: seq<Entry>)
    | Unsolved(status: Status)

  /** What `optimize` stores in `self.sol` for a solver answer. */
  function Package(m: ModelData, status: Status, objVal: real, v: Valuation): Solution
  {
    if status == Optimal
    then Solved(status, objVal, Entries(m.xKeys, X, v), Entries(m.ypKeys, YP, v),
                Entries(m.ypKeys, YG, v), Entries(m.xKeys, W, v))
    else Unsolved(status)
  }

  class OptModel {
    const datIn: ModelData
    const mdl: Problem
    var vars: seq<Declaration>
    /** The variables the extensions declare in the problem (`dc`) and the periods of the
        truck counts `n`; the source keeps them in the problem, not in `self.vars`. */
    ghost var extVars: seq<Declaration>
    ghost var counts: seq<Period>
    var objFunction: seq<ObjTerm>
    var sol: Option<Solution>

    /** A fresh, empty minimisation problem; no variables, a zero objective, no solution. */
    constructor (datIn: ModelData)
      ensures this.datIn == datIn && fresh(mdl)
      ensures mdl.constraints == [] && mdl.objective == [] && mdl.status == NotSolved
      ensures vars == [] && extVars == [] && counts == [] && objFunction == [] && sol == None
    {
      this.datIn := datIn;
      mdl := new Problem();
      vars := [];
      extVars := [];
      counts := [];
      objFunction := [];
      sol := None;
    }

    /** `build_base_model`: variables, then C1-C9, then the objective. */
    method BuildBaseModel()
      requires BaseBuildable(datIn)
      modifies this, mdl
      ensures vars == BaseDeclarations(datIn)
      ensures mdl.constraints == old(mdl.constraints) + BaseRows(datIn)
      ensures objFunction == old(objFunction) + BaseObjective(datIn)
      ensures mdl.objective == old(mdl.objective) && mdl.status == old(mdl.status) && sol == old(sol)
      ensures extVars == old(extVars) && counts == old(counts)
    {
      AddDecisionVariables();
      AddBaseConstraints();
      BuildObjective();
    }

    /** `_add_decision_variables`: yp, yg over I x T_extend; x, w over I x T (integer,
        lower bound 0); wb, xb over I x T (binary). */
    method AddDecisionVariables()
      modifies this
      ensures vars == BaseDeclarations(datIn)
      ensures objFunction == old(objFunction) && sol == old(sol)
      ensures extVars == old(extVars) && counts == old(counts)
    {
      vars := [Dicts(YP, datIn.ypKeys, Integer), Dicts(YG, datIn.ypKeys, Integer),
               Dicts(X, datIn.xKeys, Integer), Dicts(W, datIn.xKeys, Integer),
               Dicts(WB, datIn.xKeys, Binary), Dicts(XB, datIn.xKeys, Binary)];
    }

    /** `_add_base_constraints`: C1-C9, each family's loop nest in the source's order. */
    method AddBaseConstraints()
      requires BaseBuildable(datIn)
      modifies mdl
      ensures mdl.constraints == old(mdl.constraints) + BaseRows(datIn)
      ensures mdl.objective == old(mdl.objective) && mdl.status == old(mdl.status)
    {
      var m := datIn;
      var ip, pi := ItemsThenPeriods(m.I, m.T), PeriodsThenItems(m.T, m.I);
      var r1, r2, r3 := Each(m, C1, OverPeriods(m.T)), Each(m, C2, ip), Each(m, C3, OverPeriods(m.T));
      var r4, r5, r6 := Each(m, C4, pi), Each(m, C5, pi), Each(m, C6, pi);
      var r7, r8, r9 := Each(m, C7, OverItems(m.I)), Each(m, C8, OverPeriods(m.T)), Each(m, C9, ip);
      ghost var base := mdl.constraints;
      AddOverPeriods(mdl, m.T, RowsOf(m, C1));
      AddItemsThenPeriods(mdl, m.I, m.T, RowsOf(m, C2));
      AppendAssoc(base, r1, r2);
      AddOverPeriods(mdl, m.T, RowsOf(m, C3));
      AppendAssoc(base, r1 + r2, r3);
      AddPeriodsThenItems(mdl, m.T, m.I, RowsOf(m, C4));
      AppendAssoc(base, r1 + r2 + r3, r4);
      AddPeriodsThenItems(mdl, m.T, m.I, RowsOf(m, C5));
      AppendAssoc(base, r1 + r2 + r3 + r4, r5);
      AddDwellRows(mdl, m);
      AppendAssoc(base, r1 + r2 + r3 + r4 + r5, r6);
      AddOverItems(mdl, m.I, RowsOf(m, C7));
      AppendAssoc(base, r1 + r2 + r3 + r4 + r5 + r6, r7);
      AddOverPeriods(mdl, m.T, RowsOf(m, C8));
      AppendAssoc(base, r1 + r2 + r3 + r4 + r5 + r6 + r7, r8);
      AddItemsThenPeriods(mdl, m.I, m.T, RowsOf(m, C9));
      AppendAssoc(base, r1 + r2 + r3 + r4 + r5 + r6 + r7 + r8, r9);
    }

    /** `_build_objective`: `ObjFunction += Σ c·w + Σ Pack cost·yp + Σ Gourmet cost·yg`. */
    method BuildObjective()
      requires Indexed(datIn) && SharedLookups(datIn)
      modifies this
      ensures objFunction == old(objFunction) + BaseObjective(datIn)
      ensures vars == old(vars) && sol == old(sol)
      ensures extVars == old(extVars) && counts == old(counts)
    {
      objFunction := objFunction + BaseObjective(datIn);
    }

    /** `transporting_cost_complexity`: an integer truck count n[t] >= 0 for every period,
        the floor rows for every period, then the ceiling rows, and 350 per truck in the
        objective. The rows divide by the truck capacity, so it must be positive. */
    method TransportingCostComplexity()
      requires Supports(datIn, TruckFloor) && datIn.params.transportingLimitByPeriod > 0
      modifies this, mdl
      ensures mdl.constraints == old(mdl.constraints) + Each(datIn, TruckFloor, OverPeriods(datIn.T))
                                 + Each(datIn, TruckCeiling, OverPeriods(datIn.T))
      ensures objFunction == old(objFunction) + BatchObjective(datIn.T)
      ensures counts == datIn.T && extVars == old(extVars)
      ensures vars == old(vars) && sol == old(sol)
      ensures mdl.objective == old(mdl.objective) && mdl.status == old(mdl.status)
    {
      ghost var base := mdl.constraints;
      ghost var floor, ceiling := Each(datIn, TruckFloor, OverPeriods(datIn.T)), Each(datIn, TruckCeiling, OverPeriods(datIn.T));
      AddOverPeriods(mdl, datIn.T, RowsOf(datIn, TruckFloor));
      assert mdl.constraints == base + floor;
      AddOverPeriods(mdl, datIn.T, RowsOf(datIn, TruckCeiling));
      assert mdl.constraints == base + floor + ceiling;
      counts := datIn.T;
      objFunction := objFunction + BatchObjective(datIn.T);
    }

    /** `discount_complexity`: a binary indicator dc[i, t] over I x T, the two discount rows
        at every (i, t), `for i in I: for t in T`, and the rebate `-0.10 * c[i] * w[i, t]`
        in the objective. */
    method DiscountComplexity()
      requires Supports(datIn, Discount)
      modifies this, mdl
      ensures mdl.constraints == old(mdl.constraints) + Each(datIn, Discount, ItemsThenPeriods(datIn.I, datIn.T))
      ensures objFunction == old(objFunction) + DiscountObjective(datIn)
      ensures extVars == old(extVars) + [DiscountDeclaration(datIn)] && counts == old(counts)
      ensures vars == old(vars) && sol == old(sol)
      ensures mdl.objective == old(mdl.objective) && mdl.status == old(mdl.status)
    {
      ghost var base := mdl.constraints;
      AddItemsThenPeriods(mdl, datIn.I, datIn.T, RowsOf(datIn, Discount));
      assert mdl.constraints == base + Each(datIn, Discount, ItemsThenPeriods(datIn.I, datIn.T));
      extVars := extVars + [DiscountDeclaration(datIn)];
      objFunction := objFunction + DiscountObjective(datIn);
    }

    /** `optimize`: sets the objective, solves (the solver's answer is the parameters), and
        stores the status, objective value and value lists when optimal, the status alone
        otherwise. An optimal answer meets every declared bound and satisfies every row added. */
    method Optimize(answer: Status, assignment: Valuation)
      requires answer == Optimal ==> DeclaredBounds(vars + extVars, assignment) && CountBounds(counts, assignment)
                                     && AllHold(mdl.constraints, assignment)
      modifies this, mdl
      ensures mdl.objective == objFunction && mdl.status == answer && mdl.values == assignment
      ensures mdl.constraints == old(mdl.constraints) && vars == old(vars) && objFunction == old(objFunction)
      ensures extVars == old(extVars) && counts == old(counts)
      ensures sol == Some(Package(datIn, answer, EvalObj(objFunction, assignment), assignment))
    {
      mdl.SetObjective(objFunction);
      mdl.Solve(answer, assignment);
      if mdl.status == Optimal {
        var objVal := EvalObj(mdl.objective, mdl.values);
        sol := Some(Solved(mdl.status, objVal, Entries(datIn.xKeys, X, mdl.values), Entries(datIn.ypKeys, YP, mdl.values),
                           Entries(datIn.ypKeys, YG, mdl.values), Entries(datIn.xKeys, W, mdl.values)));
      } else {
        sol := Some(Unsolved(mdl.status));
      }
    }
  }

  // ----- What a packaged solution says -----

  /** `optimize` keeps the value lists and objective value exactly when the status is
      Optimal; otherwise only the status. */
  lemma PackageShape(m: ModelData, status: Status, objVal: real, v: Valuation)
    ensures Package(m, status, objVal, v).status == status
    ensures Package(m, status, objVal, v).Solved? <==> status == Optimal
    ensures status == Optimal ==> Package(m, status, objVal, v).objVal == objVal
    ensures status == Optimal ==> |Package(m, status, objVal, v).x| == |m.xKeys|
                                  && |Package(m, status, objVal, v).yp| == |m.ypKeys|
  {
  }

  /** An optimal answer to the base model (whatever extension rows follow) is a plan
      meeting every declared bound and C1-C9, and the objective value reported for the
      base objective is the plan's total cost. */
  lemma SolvedBaseIsFeasible(m: ModelData, extra: seq<LinearConstraint>, v: Valuation)
    requires BaseBuildable(m)
    requires DeclaredBounds(BaseDeclarations(m), v) && AllHold(BaseRows(m) + extra, v)
    ensures Feasible(m, v)
    ensures EvalObj(BaseObjective(m), v) == Cost(m, v)
  {
    AllHoldAppend(BaseRows(m), extra, v);
    BaseModelMeaning(m, v);
    ObjectiveIsCost(m, v);
  }

  /** An optimal answer to the base model with the discount extension is a feasible plan in
      which every purchase above DiscountLimit has its discount indicator switched on: the
      binary declaration of `dc` is what makes the rows force it. */
  lemma SolvedDiscount(m: ModelData, v: Valuation)
    requires BaseBuildable(m) && Supports(m, Discount)
    requires DeclaredBounds(BaseDeclarations(m) + [DiscountDeclaration(m)], v)
    requires AllHold(BaseRows(m), v) && AllHold(Each(m, Discount, ItemsThenPeriods(m.I, m.T)), v)
    ensures Feasible(m, v)
    ensures forall i, t :: i in m.I && t in m.T && v(V(W, i, t)) > m.params.discountLimit ==> v(V(DC, i, t)) == 1
  {
    DiscountBoundsMeaning(m, BaseDeclarations(m), v);
    BaseModelMeaning(m, v);
    DiscountFamily(m, v);
    forall i, t | i in m.I && t in m.T && v(V(W, i, t)) > m.params.discountLimit ensures v(V(DC, i, t)) == 1 {
      AboveLimitSetsDiscount(m, v, i, t);
    }
  }

  /** An optimal answer with the batching extension uses, in every period, a nonnegative
      number of trucks enough to carry that period's transfers. */
  lemma SolvedTrucks(m: ModelData, v: Valuation)
    requires Supports(m, TruckFloor) && m.params.transportingLimitByPeriod > 0 && CountBounds(m.T, v)
    requires AllHold(Each(m, TruckFloor, OverPeriods(m.T)) + Each(m, TruckCeiling, OverPeriods(m.T)), v)
    ensures forall t :: t in m.T ==>
              0 <= v(N(t)) && CeilDiv(SumOver(m.I, X, t, v), m.params.transportingLimitByPeriod) <= v(N(t))
  {
    TruckFamilies(m, v);
    forall t | t in m.T
      ensures 0 <= v(N(t)) && CeilDiv(SumOver(m.I, X, t, v), m.params.transportingLimitByPeriod) <= v(N(t))
    {
      TrucksCoverLoad(m, v, t);
      var j :| 0 <= j < |m.T| && m.T[j] == t;
      assert InBounds(Integer, v(N(m.T[j])));
    }
  }

  /** If the solver's answer is no dearer than any assignment meeting the declared bounds
      and the rows, then it is a cheapest feasible plan. */
  lemma OptimalIsCheapest(m: ModelData, v: Valuation)
    requires BaseBuildable(m)
    requires forall u: Valuation {:trigger AllHold(BaseRows(m), u)} ::
               DeclaredBounds(BaseDeclarations(m), u) && AllHold(BaseRows(m), u)
               ==> EvalObj(BaseObjective(m), v) <= EvalObj(BaseObjective(m), u)
    ensures forall u: Valuation {:trigger Feasible(m, u)} :: Feasible(m, u) ==> Cost(m, v) <= Cost(m, u)
  {
    ObjectiveIsCost(m, v);
    forall u: Valuation | Feasible(m, u) ensures Cost(m, v) <= Cost(m, u) {
      BaseModelMeaning(m, u);
      ObjectiveIsCost(m, u);
    }
  }

  /** The x list of a solved model holds the transfer of every (i, t) of I x T and
      nothing else. */
  lemma SolvedTransfers(m: ModelData, v: Valuation, i: Item, t: Period)
    requires Indexed(m)
    ensures Entry(i, t, v(V(X, i, t))) in Entries(m.xKeys, X, v) <==> i in m.I && t in m.T
  {
    IndexedKeys(m);
    EntriesMember(m.xKeys, X, v, i, t);
  }
}
