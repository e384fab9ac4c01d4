/** Conditions over decision values and the no-goods built from them (`_calculus_logic.py`). */
module Conditions {
  import opened Foundations
  import opened CalculusModel
  import opened Scopes

  type Values = map<Id, Value>

  /** A missing subject falsifies both operators. */
  predicate LiteralHolds(l: Literal, v: Values) {
    l.subject in v && (if l.op.EQ? then v[l.subject] == l.value else v[l.subject] != l.value)
  }

  predicate ConditionHolds(k: Condition, v: Values) {
    match k
    case Unset => true
    case Const(truth) => truth
    case Holds(l) => LiteralHolds(l, v)
    case All(parts) => forall i :: 0 <= i < |parts| ==> ConditionHolds(parts[i], v)
    case Any(parts) => exists i :: 0 <= i < |parts| && ConditionHolds(parts[i], v)
    case Not(inner) => !ConditionHolds(inner, v)
  }

  predicate ConstraintViolated(k: Constraint, v: Values) {
    k.status.ActiveConstraint? && k.strength.Hard?
    && ConditionHolds(k.guard, v) && forall l :: l in k.body ==> LiteralHolds(l, v)
  }

  /** `violated_hard_constraints`: each constraint is read in its own scope. */
  ghost function Violated(c: Calculus): set<Id> {
    set k | k in c.constraints
      && ConstraintViolated(c.constraints[k], EffectiveValues(c, c.constraints[k].scope))
  }

  function Lineage(c: Calculus, scope: Id): seq<Id> {
    match Ancestors(c.scopes, scope)
    case Ok(chain) => chain
    case Err(_) => []
  }

  /** A no-good is read in its own scope and in every scope below it. */
  predicate ViolatedBelow(c: Calculus, k: Constraint, scope: Id) {
    k.scope in Lineage(c, scope) && ConstraintViolated(k, EffectiveValues(c, scope))
  }

  method ViolatedHardConstraints(c: Calculus) returns (violated: set<Id>)
    ensures violated == Violated(c)
  {
    violated := {};
    var rest := c.constraints.Keys;
    while rest != {}
      invariant rest <= c.constraints.Keys
      invariant violated == Violated(c) - rest
      decreases rest
    {
      var k :| k in rest;
      rest := rest - {k};
      if ConstraintViolated(c.constraints[k], EffectiveValues(c, c.constraints[k].scope)) {
        violated := violated + {k};
      }
    }
  }

  // ----- shrinking a valuation -----

  predicate NegationFree(k: Condition) {
    match k
    case Unset => true
    case Const(_) => true
    case Holds(_) => true
    case All(parts) => forall i :: 0 <= i < |parts| ==> NegationFree(parts[i])
    case Any(parts) => forall i :: 0 <= i < |parts| ==> NegationFree(parts[i])
    case Not(_) => false
  }

  ghost predicate Extends(w: Values, v: Values) {
    forall x :: x in v ==> x in w && w[x] == v[x]
  }

  /** Without `not`, a condition that holds keeps holding when subjects are added, NEQ included. */
  lemma {:induction false} ConditionMonotone(k: Condition, v: Values, w: Values)
    requires NegationFree(k) && Extends(w, v) && ConditionHolds(k, v)
    ensures ConditionHolds(k, w)
  {
    match k
    case Unset =>
    case Const(_) =>
    case Holds(_) =>
    case All(parts) =>
      forall i | 0 <= i < |parts| ensures ConditionHolds(parts[i], w) {
        ConditionMonotone(parts[i], v, w);
      }
    case Any(parts) =>
      var i :| 0 <= i < |parts| && ConditionHolds(parts[i], v);
      ConditionMonotone(parts[i], v, w);
    case Not(_) =>
  }

  lemma ViolationMonotone(k: Constraint, v: Values, w: Values)
    requires NegationFree(k.guard) && Extends(w, v) && ConstraintViolated(k, v)
    ensures ConstraintViolated(k, w)
  {
    ConditionMonotone(k.guard, v, w);
  }

  ghost predicate NegationFreeGuards(c: Calculus) {
    forall k :: k in c.constraints ==> NegationFree(c.constraints[k].guard)
  }

  /** Every enforced no-good belongs to the root scope. */
  ghost predicate RootKnowledge(c: Calculus) {
    forall k :: k in c.constraints ==> c.constraints[k].scope == ROOT
  }

  lemma ViolationFrame(c: Calculus, c': Calculus)
    requires SameProjection(c, c') && c'.constraints == c.constraints
    ensures Violated(c') == Violated(c)
  {
    forall s ensures EffectiveValues(c', s) == EffectiveValues(c, s) {
      EffectiveFrame(c, c', s);
    }
  }

  /** The valuations that learned knowledge rules out in a scope. */
  ghost predicate Excluded(c: Calculus, scope: Id, v: Values) {
    exists k :: k in c.constraints && c.constraints[k].scope == scope && ConstraintViolated(c.constraints[k], v)
  }

  // ----- the laws of conditions -----

  function Negated(parts: seq<Condition>): seq<Condition> {
    seq(|parts|, i requires 0 <= i < |parts| => Not(parts[i]))
  }

  /** `any` is the dual of `all`; both read their parts one by one, and are decided by none. */
  lemma ConditionLaws(parts: seq<Condition>, more: seq<Condition>, k: Condition, v: Values)
    ensures ConditionHolds(Any(parts), v) <==> !ConditionHolds(All(Negated(parts)), v)
    ensures ConditionHolds(All(parts + more), v) <==> ConditionHolds(All(parts), v) && ConditionHolds(All(more), v)
    ensures ConditionHolds(Any(parts + more), v) <==> ConditionHolds(Any(parts), v) || ConditionHolds(Any(more), v)
    ensures ConditionHolds(All([k]), v) <==> ConditionHolds(k, v)
    ensures ConditionHolds(Any([k]), v) <==> ConditionHolds(k, v)
    ensures ConditionHolds(Not(k), v) <==> !ConditionHolds(k, v)
    ensures ConditionHolds(All([]), v) && !ConditionHolds(Any([]), v)
    ensures ConditionHolds(Unset, v) && ConditionHolds(Const(true), v) && !ConditionHolds(Const(false), v)
  {
    NegatedParts(parts, v);
    SplitParts(parts, more, v);
    assert [k][0] == k;
  }

  lemma NegatedParts(parts: seq<Condition>, v: Values)
    ensures ConditionHolds(Any(parts), v) <==> !ConditionHolds(All(Negated(parts)), v)
  {
    forall i | 0 <= i < |parts| ensures ConditionHolds(Negated(parts)[i], v) <==> !ConditionHolds(parts[i], v) {
    }
  }

  lemma SplitParts(parts: seq<Condition>, more: seq<Condition>, v: Values)
    ensures ConditionHolds(All(parts + more), v) <==> ConditionHolds(All(parts), v) && ConditionHolds(All(more), v)
    ensures ConditionHolds(Any(parts + more), v) <==> ConditionHolds(Any(parts), v) || ConditionHolds(Any(more), v)
  {
    var all := parts + more;
    AllByElement(parts, v);
    AllByElement(more, v);
    AllByElement(all, v);
    hide ConditionHolds;
    assert forall k :: k in all <==> k in parts || k in more;
  }

  lemma AllByElement(parts: seq<Condition>, v: Values)
    ensures ConditionHolds(All(parts), v) <==> forall k :: k in parts ==> ConditionHolds(k, v)
    ensures ConditionHolds(Any(parts), v) <==> exists k :: k in parts && ConditionHolds(k, v)
  {
    assert forall i :: 0 <= i < |parts| ==> parts[i] in parts;
  }

  /** An assigned subject satisfies `=` for its own value alone and `!=` for every other; an unassigned one
      satisfies neither. */
  lemma LiteralLaws(x: Id, value: Value, decision: Option<Id>, v: Values)
    ensures x in v ==>
      (LiteralHolds(Literal(x, NEQ, value, decision), v) <==> !LiteralHolds(Literal(x, EQ, value, decision), v))
    ensures x !in v ==> forall op :: !LiteralHolds(Literal(x, op, value, decision), v)
    ensures LiteralHolds(Literal(x, EQ, value, decision), v[x := value])
    ensures LiteralHolds(Literal(x, EQ, value, decision), v) ==> v[x := value] == v
  {
  }

  /** Isolation cuts off what a scope inherits, and not what it answers to: it is held to the no-goods of
      every scope above it. */
  lemma IsolationKeepsKnowledge(c: Calculus, k: Constraint, scope: Id)
    requires Ancestors(c.scopes, scope).Ok?
    ensures ViolatedBelow(c, k, scope) <==>
      k.scope in Ancestors(c.scopes, scope).value && ConstraintViolated(k, EffectiveValues(c, scope))
  {
  }
}
