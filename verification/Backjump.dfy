/** Causal backjumping (`compute_backjump` and `apply_backjump` of `_calculus_logic.py`). */
module Backjump {
  import opened Foundations
  import opened CalculusModel
  import opened Reachability
  import opened Scopes
  import opened Conditions
  import opened Shrinking
  import opened Knowledge
  import opened DecisionGraph

  // ----- choosing the pivot -----

  ghost function ExplainedRoots(c: Calculus, literals: seq<Literal>): set<Id> {
    set l, x | l in literals && l.decision.Some? && x in Roots(c, l.decision.value) :: x
  }

  predicate Revisable(c: Calculus, d: Id) {
    IsActive(c, d) && !Retained(c.decisions[d])
  }

  ghost function RevisableRoots(c: Calculus, literals: seq<Literal>): set<Id> {
    set x | x in ExplainedRoots(c, literals) && Revisable(c, x)
  }

  /** Deepest level first, then the smallest dependent closure, then the identifier. */
  ghost predicate PivotLeq(c: Calculus, p: Id, q: Id)
    requires p in c.decisions && q in c.decisions
  {
    var lp, lq := c.decisions[p].level, c.decisions[q].level;
    var np, nq := |Descendants(c, p)|, |Descendants(c, q)|;
    lp > lq || (lp == lq && (np < nq || (np == nq && IdLeq(p, q))))
  }

  ghost predicate IsPivot(c: Calculus, candidates: set<Id>, p: Id)
    requires candidates <= c.decisions.Keys
  {
    p in candidates && forall q :: q in candidates ==> PivotLeq(c, p, q)
  }

  lemma PivotUnique(c: Calculus, candidates: set<Id>, p: Id, q: Id)
    requires candidates <= c.decisions.Keys
    requires IsPivot(c, candidates, p) && IsPivot(c, candidates, q)
    ensures p == q
  {
    IdLeqAntisymmetricWhenBoth(p, q);
  }

  lemma IdLeqAntisymmetricWhenBoth(p: Id, q: Id)
    ensures IdLeq(p, q) && IdLeq(q, p) ==> p == q
  {
    if IdLeq(p, q) && IdLeq(q, p) {
      IdLeqAntisymmetric(p, q);
    }
  }

  lemma PivotLeqChain(c: Calculus, p: Id, q: Id, r: Id)
    requires p in c.decisions && q in c.decisions && r in c.decisions
    requires PivotLeq(c, p, q) && PivotLeq(c, q, r)
    ensures PivotLeq(c, p, r)
  {
    if IdLeq(p, q) && IdLeq(q, r) {
      IdLeqTransitive(p, q, r);
    }
  }

  /** The first element of the source's `sorted(revisable, key=...)`. */
  method LeastPivot(c: Calculus, closures: map<Id, set<Id>>) returns (p: Id)
    requires closures.Keys <= c.decisions.Keys && closures.Keys != {}
    requires forall d :: d in closures ==> closures[d] == Descendants(c, d)
    ensures IsPivot(c, closures.Keys, p)
  {
    p :| p in closures.Keys;
    IdLeqTotal(p, p);
    var rest := closures.Keys - {p};
    while rest != {}
      invariant p in closures.Keys && rest <= closures.Keys
      invariant forall q :: q in closures.Keys - rest ==> PivotLeq(c, p, q)
      decreases rest
    {
      var q :| q in rest;
      rest := rest - {q};
      IdLeqTotal(p, q);
      IdLeqTotal(q, q);
      var lp, lq := c.decisions[p].level, c.decisions[q].level;
      var np, nq := |closures[p]|, |closures[q]|;
      if !(lp > lq || (lp == lq && (np < nq || (np == nq && IdLeq(p, q))))) {
        forall r | r in closures.Keys - rest ensures PivotLeq(c, q, r) {
          if r != q { PivotLeqChain(c, q, p, r); }
        }
        p := q;
      }
    }
  }

  // ----- the plan -----

  function ImpactedObligations(c: Calculus, invalidated: set<Id>): set<Id> {
    set o | o in c.obligations && c.obligations[o].decisionDeps * invalidated != {}
  }

  function ImpactedPlanNodes(c: Calculus, invalidated: set<Id>, obligations: set<Id>): set<Id> {
    (set d, n | d in invalidated && d in c.decisions && n in c.decisions[d].planNodes :: n)
    + (set o, n | o in obligations && o in c.obligations && n in c.obligations[o].planNodes :: n)
  }

  /** `plan` is the backjump plan of the explanation: no pivot when no causal root is revisable,
      otherwise the closure of the unique least pivot and all that depends on it. */
  ghost predicate IsPlan(c: Calculus, cid: Id, eid: Id, plan: BackjumpPlan)
    requires eid in c.explanations
  {
    var candidates := RevisableRoots(c, c.explanations[eid].literals);
    && plan.conflict == cid && plan.explanation == eid
    && if candidates == {} then plan == BackjumpPlan(cid, eid, None, {}, {}, {})
       else
         && plan.pivot.Some? && IsPivot(c, candidates, plan.pivot.value)
         && plan.invalidated == Descendants(c, plan.pivot.value)
         && plan.obligations == ImpactedObligations(c, plan.invalidated)
         && plan.planNodes == ImpactedPlanNodes(c, plan.invalidated, plan.obligations)
  }

  lemma PlanUnique(c: Calculus, cid: Id, eid: Id, p: BackjumpPlan, q: BackjumpPlan)
    requires eid in c.explanations && IsPlan(c, cid, eid, p) && IsPlan(c, cid, eid, q)
    ensures p == q
  {
    if RevisableRoots(c, c.explanations[eid].literals) != {} {
      PivotUnique(c, RevisableRoots(c, c.explanations[eid].literals), p.pivot.value, q.pivot.value);
    }
  }

  /** Explanations of the conflict from which a plan may be computed without naming one. */
  function Candidates(c: Calculus, cid: Id): set<Id>
    requires cid in c.conflicts
  {
    set e | e in c.conflicts[cid].explanations && e in c.explanations
      && (c.explanations[e].status.Validated? || c.explanations[e].status.Proven?)
  }

  ghost predicate Chosen(c: Calculus, cid: Id, requested: Option<Id>, eid: Id)
    requires cid in c.conflicts
  {
    match requested
    case Some(e) => e == eid
    case None => IsLeastId(Candidates(c, cid), eid)
  }

  method CollectRoots(c: Calculus, literals: seq<Literal>) returns (roots: set<Id>)
    ensures roots == ExplainedRoots(c, literals)
  {
    roots := {};
    for i := 0 to |literals|
      invariant roots == ExplainedRoots(c, literals[..i])
    {
      assert literals[..i + 1] == literals[..i] + [literals[i]];
      match literals[i].decision {
        case None =>
        case Some(d) =>
          var found := CausalRoots(c, d);
          roots := roots + found;
      }
    }
    assert literals[..|literals|] == literals;
  }

  method CollectClosures(c: Calculus, ds: set<Id>) returns (closures: map<Id, set<Id>>)
    ensures closures.Keys == ds
    ensures forall d :: d in closures ==> closures[d] == Descendants(c, d)
  {
    closures := map[];
    var rest := ds;
    while rest != {}
      invariant rest <= ds && closures.Keys == ds - rest
      invariant forall d :: d in closures ==> closures[d] == Descendants(c, d)
      decreases rest
    {
      var d :| d in rest;
      rest := rest - {d};
      var closure := DecisionDescendants(c, d);
      closures := closures[d := closure];
    }
  }

  method ChooseExplanation(c: Calculus, cid: Id, requested: Option<Id>) returns (r: Result<Id>)
    ensures r.Ok? <==>
      (cid in c.conflicts && exists e :: e in c.explanations && Chosen(c, cid, requested, e))
    ensures r.Ok? ==> r.value in c.explanations && Chosen(c, cid, requested, r.value)
  {
    if cid !in c.conflicts {
      return Err(KeyError(cid));
    }
    match requested {
      case Some(e) =>
        return if e in c.explanations then Ok(e) else Err(KeyError(e));
      case None =>
        if Candidates(c, cid) == {} {
          return Err(ValueError("backjump requires a validated explanation"));
        }
        var e := LeastId(Candidates(c, cid));
        return Ok(e);
    }
  }

  /** `compute_backjump`. */
  method ComputeBackjump(c: Calculus, cid: Id, requested: Option<Id>) returns (r: Result<BackjumpPlan>)
    ensures r.Ok? ==>
      && cid in c.conflicts && r.value.explanation in c.explanations
      && Chosen(c, cid, requested, r.value.explanation)
      && ExplanationValid(c, c.explanations[r.value.explanation])
      && IsPlan(c, cid, r.value.explanation, r.value)
    ensures r.Err? ==> cid !in c.conflicts || forall e ::
      e in c.explanations && Chosen(c, cid, requested, e) ==> !ExplanationValid(c, c.explanations[e])
  {
    var eid :- ChooseExplanation(c, cid, requested);
    var valid := ValidateExplanation(c, c.explanations[eid]);
    if valid.Err? {
      forall e | Chosen(c, cid, requested, e) ensures e == eid {
        IdLeqAntisymmetricWhenBoth(e, eid);
      }
      return Err(valid.error);
    }
    var roots := CollectRoots(c, c.explanations[eid].literals);
    var revisable := set d | d in roots && Revisable(c, d);
    assert revisable == RevisableRoots(c, c.explanations[eid].literals);
    if revisable == {} {
      return Ok(BackjumpPlan(cid, eid, None, {}, {}, {}));
    }
    var closures := CollectClosures(c, revisable);
    var pivot := LeastPivot(c, closures);
    var invalidated := closures[pivot];
    var obligations := ImpactedObligations(c, invalidated);
    return Ok(BackjumpPlan(cid, eid, Some(pivot), invalidated, obligations,
                           ImpactedPlanNodes(c, invalidated, obligations)));
  }

  // ----- applying the plan -----

  function InvalidateDecision(d: Decision, cid: Id): Decision {
    d.(status := Invalidated, invalidatedBy := Some(cid))
  }

  function ReopenObligation(o: Obligation, sequence: nat): Obligation {
    if Disposed(o.status) then o else o.(status := NeedsRevalidation, changedAt := sequence)
  }

  predicate Applicable(c: Calculus, plan: BackjumpPlan) {
    plan.conflict in c.conflicts
    && plan.invalidated <= c.decisions.Keys && plan.obligations <= c.obligations.Keys
  }

  function RootModel(models: map<Id, map<Id, Id>>): map<Id, Id> {
    if ROOT in models then models[ROOT] else NO_MODEL
  }

  function AfterBackjump(c: Calculus, plan: BackjumpPlan, sequence: nat): Calculus
    requires Applicable(c, plan)
  {
    var models := ModelsWithout(c.models, plan.invalidated);
    c.(
    decisions := map d | d in c.decisions ::
      if d in plan.invalidated then InvalidateDecision(c.decisions[d], plan.conflict) else c.decisions[d],
    models := models,
    activeModel := RootModel(models),
    obligations := map o | o in c.obligations ::
      if o in plan.obligations then ReopenObligation(c.obligations[o], sequence) else c.obligations[o],
    conflicts := c.conflicts[plan.conflict := c.conflicts[plan.conflict].(
      status := Resolved, resolvedAt := Some(sequence), backjump := Some(plan))],
    epoch := c.epoch + 1,
    searchLocal := map[])
  }

  method InvalidateAll(decisions: map<Id, Decision>, ids: set<Id>, cid: Id) returns (out: map<Id, Decision>)
    requires ids <= decisions.Keys
    ensures out == map d | d in decisions ::
      if d in ids then InvalidateDecision(decisions[d], cid) else decisions[d]
  {
    out := decisions;
    var rest := ids;
    while rest != {}
      invariant rest <= ids && out.Keys == decisions.Keys
      invariant forall d :: d in decisions ==>
        out[d] == if d in ids && d !in rest then InvalidateDecision(decisions[d], cid) else decisions[d]
      decreases rest
    {
      var d :| d in rest;
      rest := rest - {d};
      out := out[d := InvalidateDecision(out[d], cid)];
    }
  }

  method ReopenAll(obligations: map<Id, Obligation>, ids: set<Id>, sequence: nat) returns (out: map<Id, Obligation>)
    requires ids <= obligations.Keys
    ensures out == map o | o in obligations ::
      if o in ids then ReopenObligation(obligations[o], sequence) else obligations[o]
  {
    out := obligations;
    var rest := ids;
    while rest != {}
      invariant rest <= ids && out.Keys == obligations.Keys
      invariant forall o :: o in obligations ==>
        out[o] == if o in ids && o !in rest then ReopenObligation(obligations[o], sequence) else obligations[o]
      decreases rest
    {
      var o :| o in rest;
      rest := rest - {o};
      if !Disposed(out[o].status) {
        out := out[o := out[o].(status := NeedsRevalidation, changedAt := sequence)];
      }
    }
  }

  /** Drops the given decisions from every scope's model. */
  method PurgeModels(models: map<Id, map<Id, Id>>, gone: set<Id>) returns (out: map<Id, map<Id, Id>>)
    ensures out == ModelsWithout(models, gone)
  {
    out := models;
    var rest := models.Keys;
    while rest != {}
      invariant rest <= models.Keys == out.Keys
      invariant forall s :: s in models ==>
        out[s] == if s in rest then models[s] else Without(models[s], gone)
      decreases rest
    {
      var s :| s in rest;
      rest := rest - {s};
      out := out[s := Without(out[s], gone)];
    }
  }

  /** `apply_backjump`. */
  method ApplyBackjump(c: Calculus, plan: BackjumpPlan, sequence: nat) returns (r: Result<Calculus>)
    ensures r.Ok? <==> Applicable(c, plan)
    ensures r.Err? <==>
      || plan.conflict !in c.conflicts
      || (exists d :: d in plan.invalidated && d !in c.decisions)
      || (exists o :: o in plan.obligations && o !in c.obligations)
    ensures r.Ok? ==> r.value == AfterBackjump(c, plan, sequence)
  {
    if plan.conflict !in c.conflicts {
      return Err(KeyError(plan.conflict));
    }
    if !(plan.invalidated <= c.decisions.Keys) || !(plan.obligations <= c.obligations.Keys) {
      return Err(KeyError(plan.explanation));
    }
    var decisions := InvalidateAll(c.decisions, plan.invalidated, plan.conflict);
    var models := PurgeModels(c.models, plan.invalidated);
    var obligations := ReopenAll(c.obligations, plan.obligations, sequence);
    var conflict := c.conflicts[plan.conflict].(
      status := Resolved, resolvedAt := Some(sequence), backjump := Some(plan));
    return Ok(c.(
      decisions := decisions, models := models, activeModel := RootModel(models),
      obligations := obligations, conflicts := c.conflicts[plan.conflict := conflict],
      epoch := c.epoch + 1, searchLocal := map[]));
  }

  // ----- what a backjump achieves -----

  lemma BackjumpRetires(c: Calculus, plan: BackjumpPlan, sequence: nat)
    requires Indexed(c) && Applicable(c, plan)
    ensures Retires(c, AfterBackjump(c, plan, sequence), plan.invalidated)
    ensures Mirror(AfterBackjump(c, plan, sequence))
  {
  }

  /** Retiring any set of decisions keeps the indexes; retiring a set closed under ACTIVE children
      keeps every parent ACTIVE. */
  lemma BackjumpKeepsIndexes(c: Calculus, plan: BackjumpPlan, sequence: nat)
    requires Indexed(c) && Applicable(c, plan)
    ensures Indexed(AfterBackjump(c, plan, sequence))
    ensures ParentsActive(c) && Closed(DependentEdges(c), plan.invalidated) ==>
      ParentsActive(AfterBackjump(c, plan, sequence))
  {
    var c' := AfterBackjump(c, plan, sequence);
    BackjumpRetires(c, plan, sequence);
    RetiringKeepsSlots(c, c', plan.invalidated);
    if ParentsActive(c) && Closed(DependentEdges(c), plan.invalidated) {
      RetiringKeepsParents(c, c', plan.invalidated);
      forall d | IsActive(c, d) && d !in plan.invalidated ensures c.decisions[d].parents !! plan.invalidated {
        assert forall p :: p in c.decisions[d].parents ==> (p, d) in DependentEdges(c);
      }
    }
  }

  /** Climbing from an ACTIVE decision only meets ACTIVE decisions that it depends on: each causal
      root's dependent closure contains the decision it explains. */
  lemma RootClosureContains(c: Calculus, d: Id, root: Id)
    requires ParentsActive(c) && IsActive(c, d) && root in Closure(DerivationEdges(c), {d})
    ensures IsActive(c, root) && d in Descendants(c, root)
  {
    var up := DerivationEdges(c);
    var t := set x | x in c.decisions && IsActive(c, x) && d in Descendants(c, x);
    forall e | e in up && e.0 in t ensures e.1 in t {
      assert (e.1, e.0) in DependentEdges(c);
      assert e.0 in Descendants(c, e.1);
      ClosureNested(DependentEdges(c), e.1, e.0);
    }
    assert {d} <= t && Closed(up, t);
  }

  ghost predicate LiteralsActive(c: Calculus, literals: seq<Literal>) {
    forall l :: l in literals ==> l.decision.Some? && IsActive(c, l.decision.value)
  }

  /** Some explained decision lies in the closure of whatever pivot is chosen. */
  lemma PlanHitsExplanation(c: Calculus, cid: Id, eid: Id, plan: BackjumpPlan) returns (l: Literal)
    requires eid in c.explanations && IsPlan(c, cid, eid, plan) && plan.pivot.Some?
    requires ParentsActive(c) && LiteralsActive(c, c.explanations[eid].literals)
    ensures l in c.explanations[eid].literals && l.decision.Some? && l.decision.value in plan.invalidated
  {
    var literals := c.explanations[eid].literals;
    var p := plan.pivot.value;
    assert p in ExplainedRoots(c, literals);
    l :| l in literals && l.decision.Some? && p in Roots(c, l.decision.value);
    RootClosureContains(c, l.decision.value, p);
  }

  lemma PlanIsApplicable(c: Calculus, cid: Id, eid: Id, plan: BackjumpPlan)
    requires Registered(c) && cid in c.conflicts && eid in c.explanations && IsPlan(c, cid, eid, plan)
    ensures Applicable(c, plan) && Closed(DependentEdges(c), plan.invalidated)
  {
    if plan.pivot.Some? {
      DescendantsRegistered(c, plan.pivot.value);
    }
  }

  /** An invalidated decision leaves its slot empty. */
  lemma InvalidatedSlotEmpty(c: Calculus, plan: BackjumpPlan, sequence: nat, d: Id)
    requires Indexed(c) && Applicable(c, plan) && d in plan.invalidated && IsActive(c, d)
    ensures Slot(AfterBackjump(c, plan, sequence).models, c.decisions[d].scope, c.decisions[d].subject) == None
  {
    assert Slot(c.models, c.decisions[d].scope, c.decisions[d].subject) == Some(d);
  }

  /** A backjump resolves its conflict: some explained subject becomes unassigned, and in the root
      scope no constraint containing the explained literals is violated any more. */
  lemma BackjumpResolvesConflict(c: Calculus, cid: Id, eid: Id, plan: BackjumpPlan, sequence: nat, k: Constraint)
    requires Indexed(c) && ParentsActive(c)
    requires cid in c.conflicts && eid in c.explanations && ExplanationValid(c, c.explanations[eid])
    requires IsPlan(c, cid, eid, plan) && plan.pivot.Some?
    requires LiteralsActive(c, c.explanations[eid].literals)
    requires forall l :: l in c.explanations[eid].literals ==> c.decisions[l.decision.value].scope == ROOT
    requires Assumptions(c.explanations[eid]) <= k.body
    ensures Applicable(c, plan)
    ensures exists l ::
      && l in c.explanations[eid].literals
      && l.subject !in AfterBackjump(c, plan, sequence).activeModel
      && l.subject !in EffectiveValues(AfterBackjump(c, plan, sequence), ROOT)
    ensures !ConstraintViolated(k, EffectiveValues(AfterBackjump(c, plan, sequence), ROOT))
  {
    PlanIsApplicable(c, cid, eid, plan);
    var l := PlanHitsExplanation(c, cid, eid, plan);
    var c' := AfterBackjump(c, plan, sequence);
    assert Grounded(c, c.conflicts[c.explanations[eid].conflict].snapshot, l);
    InvalidatedSlotEmpty(c, plan, sequence, l.decision.value);
    RootChain(c');
    assert l in k.body;
  }

  /** Outside the closure nothing moves: decisions, and obligations not depending on it. */
  lemma BackjumpIsLocal(c: Calculus, cid: Id, eid: Id, plan: BackjumpPlan, sequence: nat, d: Id, o: Id)
    requires Registered(c) && cid in c.conflicts && eid in c.explanations && IsPlan(c, cid, eid, plan)
    requires Applicable(c, plan)
    ensures d in c.decisions && (plan.pivot.None? || d !in Descendants(c, plan.pivot.value)) ==>
      var c' := AfterBackjump(c, plan, sequence); d in c'.decisions && c'.decisions[d] == c.decisions[d]
    ensures o in c.obligations && (c.obligations[o].decisionDeps !! plan.invalidated || Disposed(c.obligations[o].status)) ==>
      var c' := AfterBackjump(c, plan, sequence); o in c'.obligations && c'.obligations[o] == c.obligations[o]
  {
    hide AfterBackjump, Descendants;
    OutsideUntouched(c, plan, sequence, d, o);
  }

  lemma OutsideUntouched(c: Calculus, plan: BackjumpPlan, sequence: nat, d: Id, o: Id)
    requires Applicable(c, plan)
    ensures d in c.decisions && d !in plan.invalidated ==>
      d in AfterBackjump(c, plan, sequence).decisions && AfterBackjump(c, plan, sequence).decisions[d] == c.decisions[d]
    ensures o in c.obligations ==> o in AfterBackjump(c, plan, sequence).obligations
    ensures o in c.obligations && (o !in plan.obligations || Disposed(c.obligations[o].status)) ==>
      AfterBackjump(c, plan, sequence).obligations[o] == c.obligations[o]
  {
  }

  /** Reopening follows the transition table exactly for obligations that are neither AVAILABLE nor
      LOCKED; those two are moved all the same. */
  lemma ReopeningFollowsTable(c: Calculus, plan: BackjumpPlan, sequence: nat, o: Id)
    requires Applicable(c, plan) && o in plan.obligations
    ensures var before, after := c.obligations[o].status, AfterBackjump(c, plan, sequence).obligations[o].status;
      (after == before || Legal(before, after)) <==> !before.Available? && !before.Locked?
  {
  }

  /** Retained decisions depend only on retained decisions. */
  ghost predicate RetainedAncestry(c: Calculus) {
    forall e :: e in DependentEdges(c) && e.1 in c.decisions && Retained(c.decisions[e.1]) ==>
      e.0 in c.decisions && Retained(c.decisions[e.0])
  }

  lemma BackjumpSparesRetained(c: Calculus, cid: Id, eid: Id, plan: BackjumpPlan, sequence: nat, d: Id)
    requires Registered(c) && RetainedAncestry(c)
    requires cid in c.conflicts && eid in c.explanations && IsPlan(c, cid, eid, plan) && Applicable(c, plan)
    requires d in c.decisions && Retained(c.decisions[d])
    ensures AfterBackjump(c, plan, sequence).decisions[d] == c.decisions[d]
  {
    hide RetainedAncestry, DependentEdges, Registered, ImpactedObligations, ImpactedPlanNodes;
    if plan.pivot.Some? {
      SpeculativeClosure(c, plan.pivot.value);
    }
  }

  /** What depends on a speculative decision is speculative. */
  lemma SpeculativeClosure(c: Calculus, root: Id)
    requires Registered(c) && RetainedAncestry(c) && root in c.decisions && !Retained(c.decisions[root])
    ensures forall d :: d in Descendants(c, root) && d in c.decisions ==> !Retained(c.decisions[d])
  {
    var speculative := set x | x in c.decisions && !Retained(c.decisions[x]);
    forall e | e in DependentEdges(c) && e.0 in speculative ensures e.1 in speculative {
      DependentRegistered(c, e);
    }
    assert {root} <= speculative && Closed(DependentEdges(c), speculative);
  }

  lemma DependentRegistered(c: Calculus, e: (Id, Id))
    requires Registered(c) && e in DependentEdges(c)
    ensures e.0 in c.decisions && e.1 in c.decisions
  {
  }

  /** A constraint that contains the explained literals, read in its own scope, ceases to be violated:
      there they name effective decisions, and some explained value is not reinstated by an entry
      that the invalidated ones had overridden. */
  ghost predicate Relieved(c: Calculus, literals: seq<Literal>, hidden: set<Id>, k: Constraint) {
    && (forall l :: l in literals ==> l in k.body && Effective(c, k.scope, l))
    && exists l :: l in literals && !Reinstated(c, hidden, k.scope, l)
  }

  lemma RelievedHolds(c: Calculus, c': Calculus, literals: seq<Literal>, hidden: set<Id>, k: Constraint)
    requires Indexed(c) && Withdraws(c, c', hidden) && Relieved(c, literals, hidden, k)
    ensures !ConstraintViolated(k, EffectiveValues(c', k.scope))
  {
    hide Indexed, Withdraws, Effective, Reinstated, EffectiveValues;
    var l :| l in literals && !Reinstated(c, hidden, k.scope, l);
    LiteralAfter(c, c', hidden, k.scope, l);
  }

  /** Whatever is withdrawn, no hard violation is left when guards are free of `not`, nothing is bared
      where there is knowledge, and every violated constraint is relieved. */
  lemma WithdrawalCleans(c: Calculus, c': Calculus, literals: seq<Literal>, hidden: set<Id>)
    requires Indexed(c) && Withdraws(c, c', hidden) && c'.constraints == c.constraints && NegationFreeGuards(c)
    requires forall k, x :: k in c.constraints ==> !Bares(c, hidden, c.constraints[k].scope, x)
    requires forall k :: k in Violated(c) ==> Relieved(c, literals, hidden, c.constraints[k])
    ensures Violated(c') == {}
  {
    hide Indexed, Withdraws, Relieved, Bares;
    ShrinkingIsSafe(c, c', hidden);
    forall k | k in Violated(c') ensures false {
      RelievedHolds(c, c', literals, hidden, c.constraints[k]);
    }
  }

  lemma BackjumpWithdraws(c: Calculus, plan: BackjumpPlan, sequence: nat)
    requires Indexed(c) && Applicable(c, plan)
    ensures Withdraws(c, AfterBackjump(c, plan, sequence), plan.invalidated)
  {
    hide Withdraws, Retires;
    BackjumpRetires(c, plan, sequence);
    RetiringWithdraws(c, AfterBackjump(c, plan, sequence), plan.invalidated);
  }

  /** At the root the explained constraint is always relieved by a plan with a pivot. */
  lemma RootRelieved(c: Calculus, cid: Id, eid: Id, plan: BackjumpPlan, k: Constraint)
    requires Indexed(c) && ParentsActive(c) && k.scope == ROOT && eid in c.explanations
    requires IsPlan(c, cid, eid, plan) && plan.pivot.Some?
    requires forall l :: l in c.explanations[eid].literals ==> l in k.body && Effective(c, ROOT, l)
    ensures Relieved(c, c.explanations[eid].literals, plan.invalidated, k)
  {
    hide Indexed, ParentsActive, Reinstated, IsPlan, Effective, LiteralsActive;
    var literals := c.explanations[eid].literals;
    assert LiteralsActive(c, literals) by { EffectiveAreActive(c, ROOT, literals); }
    var l := PlanHitsExplanation(c, cid, eid, plan);
    assert Effective(c, ROOT, l);
    NotReinstatedAtRoot(c, plan.invalidated, l);
  }

  lemma EffectiveAreActive(c: Calculus, scope: Id, literals: seq<Literal>)
    requires Indexed(c) && forall l :: l in literals ==> Effective(c, scope, l)
    ensures LiteralsActive(c, literals)
  {
    forall l | l in literals ensures l.decision.Some? && IsActive(c, l.decision.value) {
      EffectiveDecisionsActive(c, scope, l.subject);
    }
  }

  lemma NotReinstatedAtRoot(c: Calculus, hidden: set<Id>, l: Literal)
    requires Indexed(c) && Effective(c, ROOT, l) && l.decision.value in hidden
    ensures !Reinstated(c, hidden, ROOT, l)
  {
    RootSurvivors(c, hidden);
  }

  /** The violation check after a backjump cannot fire when guards are free of `not`, the backjump
      bares nothing where there is knowledge, and every violated constraint is relieved. For root
      constraints the last two always hold (`Shrinking.RootNeverBares`, `RootRelieved`). */
  lemma BackjumpCheckPasses(c: Calculus, eid: Id, plan: BackjumpPlan, sequence: nat)
    requires Indexed(c) && NegationFreeGuards(c) && eid in c.explanations && Applicable(c, plan)
    requires forall k, x :: k in c.constraints ==> !Bares(c, plan.invalidated, c.constraints[k].scope, x)
    requires forall k :: k in Violated(c) ==>
      Relieved(c, c.explanations[eid].literals, plan.invalidated, c.constraints[k])
    ensures Violated(AfterBackjump(c, plan, sequence)) == {}
  {
    hide Indexed, Withdraws, Relieved, Bares;
    BackjumpWithdraws(c, plan, sequence);
    WithdrawalCleans(c, AfterBackjump(c, plan, sequence), c.explanations[eid].literals, plan.invalidated);
  }

  // ----- what the plan prefers and covers -----

  /** The pivot is a causal root that may be revised, of the deepest level; among those of that level, one
      with the fewest dependents; among those, the first by name. */
  lemma PivotPreference(c: Calculus, cid: Id, eid: Id, plan: BackjumpPlan, q: Id)
    requires eid in c.explanations && IsPlan(c, cid, eid, plan) && plan.pivot.Some?
    requires q in ExplainedRoots(c, c.explanations[eid].literals) && q in c.decisions && c.decisions[q].status == Active
    requires !c.decisions[q].pinned && c.decisions[q].kind != RootKind && c.decisions[q].kind != PinnedKind
    ensures var p := plan.pivot.value;
      && p in c.decisions && c.decisions[q].level <= c.decisions[p].level
      && (c.decisions[q].level == c.decisions[p].level ==>
          && |Descendants(c, p)| <= |Descendants(c, q)|
          && (|Descendants(c, p)| == |Descendants(c, q)| ==> IdLeq(p, q)))
  {
    assert q in RevisableRoots(c, c.explanations[eid].literals);
  }

  /** There is a pivot exactly when some causal root of the explanation is ACTIVE and neither pinned nor of
      kind ROOT or PINNED, and the pivot is one of these. */
  lemma PivotExactly(c: Calculus, cid: Id, eid: Id, plan: BackjumpPlan)
    requires eid in c.explanations && IsPlan(c, cid, eid, plan)
    ensures plan.pivot.Some? <==>
      exists q :: q in ExplainedRoots(c, c.explanations[eid].literals) && q in c.decisions
        && c.decisions[q].status == Active && !c.decisions[q].pinned
        && c.decisions[q].kind != RootKind && c.decisions[q].kind != PinnedKind
    ensures plan.pivot.Some? ==>
      var p := plan.pivot.value;
      && p in ExplainedRoots(c, c.explanations[eid].literals) && p in c.decisions && c.decisions[p].status == Active
      && !c.decisions[p].pinned && c.decisions[p].kind != RootKind && c.decisions[p].kind != PinnedKind
  {
    hide ExplainedRoots;
    var candidates := RevisableRoots(c, c.explanations[eid].literals);
    if q :| q in ExplainedRoots(c, c.explanations[eid].literals) && Revisable(c, q) {
      assert q in candidates;
    }
    assert plan.pivot.Some? ==> plan.pivot.value in candidates;
  }

  /** What is explained leads to these roots: the causal roots of the decisions that the literals name. */
  lemma ExplainedRootsExactly(c: Calculus, literals: seq<Literal>, x: Id)
    ensures x in ExplainedRoots(c, literals) <==>
      exists i :: 0 <= i < |literals| && literals[i].decision.Some? && x in Roots(c, literals[i].decision.value)
  {
    if x in ExplainedRoots(c, literals) {
      var l :| l in literals && l.decision.Some? && x in Roots(c, l.decision.value);
      var i :| 0 <= i < |literals| && literals[i] == l;
    }
  }

  /** A plan with a pivot invalidates the pivot's dependents; it reopens the obligations that rest on any of
      them, and touches the plan nodes of either. */
  lemma PlanCovers(c: Calculus, cid: Id, eid: Id, plan: BackjumpPlan, o: Id, n: Id)
    requires eid in c.explanations && IsPlan(c, cid, eid, plan) && plan.pivot.Some?
    ensures plan.invalidated == Descendants(c, plan.pivot.value) && plan.conflict == cid && plan.explanation == eid
    ensures o in plan.obligations <==>
      o in c.obligations && exists d :: d in c.obligations[o].decisionDeps && d in plan.invalidated
    ensures n in plan.planNodes <==>
      || (exists d :: d in plan.invalidated && d in c.decisions && n in c.decisions[d].planNodes)
      || exists m :: m in plan.obligations && m in c.obligations && n in c.obligations[m].planNodes
  {
    hide Descendants;
    if o in c.obligations {
      assert c.obligations[o].decisionDeps * plan.invalidated != {} <==>
        exists d :: d in c.obligations[o].decisionDeps && d in plan.invalidated by
      {
        if d :| d in c.obligations[o].decisionDeps && d in plan.invalidated {
          assert d in c.obligations[o].decisionDeps * plan.invalidated;
        }
      }
    }
  }

  /** Without a named explanation the first by name is taken among those of the conflict that are validated
      or proven. */
  lemma ChosenExactly(c: Calculus, cid: Id, eid: Id)
    requires cid in c.conflicts
    ensures Chosen(c, cid, None, eid) <==>
      && Acceptable(c, cid, eid)
      && forall e :: Acceptable(c, cid, e) ==> IdLeq(eid, e)
    ensures forall e :: Chosen(c, cid, Some(e), eid) <==> e == eid
  {
    forall e ensures e in Candidates(c, cid) <==> Acceptable(c, cid, e) {
    }
  }

  predicate Acceptable(c: Calculus, cid: Id, e: Id) {
    cid in c.conflicts && e in c.conflicts[cid].explanations && e in c.explanations
    && c.explanations[e].status in {Validated, Proven}
  }

  /** What an applied plan leaves on record: the invalidated decisions name the conflict; the obligations wait
      to be revalidated unless they were disposed of; the conflict is resolved by this plan; and the search
      begins anew in the next epoch. */
  lemma BackjumpRecords(c: Calculus, plan: BackjumpPlan, sequence: nat, d: Id, o: Id)
    requires Applicable(c, plan)
    ensures var c' := AfterBackjump(c, plan, sequence);
      && (d in c.decisions && d in plan.invalidated ==>
          d in c'.decisions
          && c'.decisions[d] == c.decisions[d].(status := Invalidated, invalidatedBy := Some(plan.conflict)))
      && (o in c.obligations && o in plan.obligations ==>
          o in c'.obligations
          && c'.obligations[o] ==
               if c.obligations[o].status in {Refused, Replaced, Impossible} then c.obligations[o]
               else c.obligations[o].(status := NeedsRevalidation, changedAt := sequence))
      && c'.conflicts == c.conflicts[plan.conflict := c.conflicts[plan.conflict].(
           status := Resolved, resolvedAt := Some(sequence), backjump := Some(plan))]
      && c'.searchLocal == map[] && c'.epoch == c.epoch + 1
      && c'.constraints == c.constraints && c'.explanations == c.explanations
  {
  }
}
