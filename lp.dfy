/** The part of pulp the model builder uses: decision variables, linear (and, for the
    discount block, bilinear) constraints, an objective expression, and an `LpProblem`
    that accumulates constraints through `addConstraint`. The solver itself is not
    modelled: its answer is a `Valuation` handed in from outside. */
module Lp {
  import opened Types

  /** The decision-variable families: x (transfer), w (acquisition), yp / yg
      (end-of-period inventory at Pack / Gourmet), wb / xb (acquisition and transfer
      indicators) and dc (discount indicator). */
  datatype VarFamily = X | W | YP | YG | WB | XB | DC

  /** One decision variable: a family at an (item, period) key, or the truck count n[t]. */
  datatype Var = V(family: VarFamily, i: Item, t: Period) | N(t: Period)

  /** An integer value for every variable: what the solver returns. */
  type Valuation = Var -> int

  /** `coef * v` or, for the bilinear discount rows, `coef * u * v`. */
  datatype Term = Term(coef: int, v: Var) | Product(coef: int, u: Var, v: Var)

  datatype Sense = Le | Ge | Eq

  /** `lhs <= rhs`, `lhs >= rhs` or `lhs == rhs`, constants gathered on the right. */
  datatype LinearConstraint = Constraint(lhs: seq<Term>, sense: Sense, rhs: int)

  /** A term of the objective: cost coefficients are prices, hence `real`. */
  datatype ObjTerm = ObjTerm(coef: real, v: Var)

  /** `LpInteger` with `lowBound=0`, or `LpBinary`. */
  datatype Category = Integer | Binary

  function TermValue(term: Term, val: Valuation): int
  {
    match term
    case Term(c, v) => c * val(v)
    case Product(c, u, v) => c * val(u) * val(v)
  }

  /** Value of `lpSum(lhs)` under a valuation. */
  function Eval(lhs: seq<Term>, val: Valuation): int
  {
    if lhs == [] then 0 else TermValue(lhs[0], val) + Eval(lhs[1..], val)
  }

  predicate Holds(c: LinearConstraint, val: Valuation)
  {
    match c.sense
    case Le => Eval(c.lhs, val) <= c.rhs
    case Ge => Eval(c.lhs, val) >= c.rhs
    case Eq => Eval(c.lhs, val) == c.rhs
  }

  /** Every constraint of a list is satisfied. */
  predicate AllHold(cs: seq<LinearConstraint>, val: Valuation)
  {
    forall k :: 0 <= k < |cs| ==> Holds(cs[k], val)
  }

  function EvalObj(terms: seq<ObjTerm>, val: Valuation): real
  {
    if terms == [] then 0.0 else terms[0].coef * (val(terms[0].v) as real) + EvalObj(terms[1..], val)
  }

  predicate InBounds(cat: Category, value: int)
  {
    match cat
    case Integer => value >= 0
    case Binary => 0 <= value <= 1
  }

  lemma {:induction false} EvalAppend(a: seq<Term>, b: seq<Term>, val: Valuation)
    ensures Eval(a + b, val) == Eval(a, val) + Eval(b, val)
    decreases |a|
  {
    if a != [] {
      assert (a + b)[1..] == a[1..] + b;
      EvalAppend(a[1..], b, val);
    } else {
      assert a + b == b;
    }
  }

  lemma {:induction false} EvalObjAppend(a: seq<ObjTerm>, b: seq<ObjTerm>, val: Valuation)
    ensures EvalObj(a + b, val) == EvalObj(a, val) + EvalObj(b, val)
    decreases |a|
  {
    if a != [] {
      assert (a + b)[1..] == a[1..] + b;
      EvalObjAppend(a[1..], b, val);
    } else {
      assert a + b == b;
    }
  }

  lemma AllHoldAppend(a: seq<LinearConstraint>, b: seq<LinearConstraint>, val: Valuation)
    ensures AllHold(a + b, val) <==> AllHold(a, val) && AllHold(b, val)
  {
    if AllHold(a, val) && AllHold(b, val) {
      forall k | 0 <= k < |a + b| ensures Holds((a + b)[k], val) {
        if k >= |a| { assert (a + b)[k] == b[k - |a|]; }
      }
    }
    if AllHold(a + b, val) {
      forall k | 0 <= k < |a| ensures Holds(a[k], val) {
        assert (a + b)[k] == a[k];
      }
      forall k | 0 <= k < |b| ensures Holds(b[k], val) {
        assert (a + b)[|a| + k] == b[k];
      }
    }
  }
  /** The rows of seven consecutive loop nests hold exactly when those of each nest hold. */
  lemma AllHoldSeven(r1: seq<LinearConstraint>, r2: seq<LinearConstraint>, r3: seq<LinearConstraint>,
                     r4: seq<LinearConstraint>, r5: seq<LinearConstraint>, r6: seq<LinearConstraint>,
                     r7: seq<LinearConstraint>, val: Valuation)
    ensures AllHold(r1 + r2 + r3 + r4 + r5 + r6 + r7, val)
            <==> && AllHold(r1, val) && AllHold(r2, val) && AllHold(r3, val) && AllHold(r4, val)
                 && AllHold(r5, val) && AllHold(r6, val) && AllHold(r7, val)
  {
    AllHoldAppend(r1, r2, val);
    AllHoldAppend(r1 + r2, r3, val);
    AllHoldAppend(r1 + r2 + r3, r4, val);
    AllHoldAppend(r1 + r2 + r3 + r4, r5, val);
    AllHoldAppend(r1 + r2 + r3 + r4 + r5, r6, val);
    AllHoldAppend(r1 + r2 + r3 + r4 + r5 + r6, r7, val);
  }

  /** The same for nine consecutive loop nests. */
  lemma AllHoldNine(r1: seq<LinearConstraint>, r2: seq<LinearConstraint>, r3: seq<LinearConstraint>,
                    r4: seq<LinearConstraint>, r5: seq<LinearConstraint>, r6: seq<LinearConstraint>,
                    r7: seq<LinearConstraint>, r8: seq<LinearConstraint>, r9: seq<LinearConstraint>, val: Valuation)
    ensures AllHold(r1 + r2 + r3 + r4 + r5 + r6 + r7 + r8 + r9, val)
            <==> && AllHold(r1, val) && AllHold(r2, val) && AllHold(r3, val) && AllHold(r4, val)
                 && AllHold(r5, val) && AllHold(r6, val) && AllHold(r7, val) && AllHold(r8, val)
                 && AllHold(r9, val)
  {
    AllHoldSeven(r1, r2, r3, r4, r5, r6, r7, val);
    AllHoldAppend(r1 + r2 + r3 + r4 + r5 + r6 + r7, r8, val);
    AllHoldAppend(r1 + r2 + r3 + r4 + r5 + r6 + r7 + r8, r9, val);
  }


  lemma AppendAssoc(a: seq<LinearConstraint>, b: seq<LinearConstraint>, c: seq<LinearConstraint>)
    ensures a + (b + c) == (a + b) + c
  {
  }

  /** Terms `Σ_{i in items} coef * family[i, t]`: an `lpSum` over the items of one period. */
  function ScaledTerms(items: seq<Item>, family: VarFamily, t: Period, coef: int): (r: seq<Term>)
    ensures |r| == |items|
  {
    if items == [] then [] else [Term(coef, V(family, items[0], t))] + ScaledTerms(items[1..], family, t, coef)
  }

  /** `Σ_{i in items} val(family[i, t])`. */
  function SumOver(items: seq<Item>, family: VarFamily, t: Period, val: Valuation): int
  {
    if items == [] then 0 else val(V(family, items[0], t)) + SumOver(items[1..], family, t, val)
  }

  lemma {:induction false} ScaledTermsValue(items: seq<Item>, family: VarFamily, t: Period, coef: int, val: Valuation)
    ensures Eval(ScaledTerms(items, family, t, coef), val) == coef * SumOver(items, family, t, val)
    decreases |items|
  {
    if items != [] {
      ScaledTermsValue(items[1..], family, t, coef, val);
      assert coef * SumOver(items, family, t, val)
          == coef * val(V(family, items[0], t)) + coef * SumOver(items[1..], family, t, val);
    }
  }

  /** An `LpProblem`: the constraints added so far, the objective once set, and the
      status and variable values the last `solve()` reported. */
  class Problem {
    var constraints: seq<LinearConstraint>
    var objective: seq<ObjTerm>
    var status: Status
    var values: Valuation

    constructor ()
      ensures constraints == [] && objective == [] && status == NotSolved
    {
      constraints := [];
      objective := [];
      status := NotSolved;
      values := _ => 0;
    }

    /** `mdl.addConstraint(c)`. */
    method AddConstraint(c: LinearConstraint)
      modifies this
      ensures constraints == old(constraints) + [c]
      ensures objective == old(objective) && status == old(status) && values == old(values)
    {
      constraints := constraints + [c];
    }

    /** `mdl.setObjective(o)`. */
    method SetObjective(o: seq<ObjTerm>)
      modifies this
      ensures objective == o
      ensures constraints == old(constraints) && status == old(status) && values == old(values)
    {
      objective := o;
    }

    /** `mdl.solve()`: the solver is external, so its answer comes in as parameters.
        An optimal answer satisfies every row added so far. */
    method Solve(answer: Status, assignment: Valuation)
      requires answer == Optimal ==> AllHold(constraints, assignment)
      modifies this
      ensures status == answer && values == assignment
      ensures constraints == old(constraints) && objective == old(objective)
      ensures status == Optimal ==> AllHold(constraints, values)
    {
      status := answer;
      values := assignment;
    }
  }
}
