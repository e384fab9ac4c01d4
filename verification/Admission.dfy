/** When the commit accepts a step that takes decisions out of the models: a restart, a backjump, a truth
    plan. The step's own check reads each no-good in its own scope; the commit reads it in every scope
    below as well (`calculus.py`, `_runtime_v31_recovery.py`). */
module Admission {
  import opened Foundations
  import opened CalculusModel
  import opened Scopes
  import opened Conditions
  import opened Shrinking
  import opened Knowledge
  import opened Backjump
  import opened Locks
  import opened Fairness
  import opened Restart
  import opened ScopeImpact
  import opened Recovery
  import opened Commits
  import opened Engine
  import opened TruthMaintenance

  // ----- the hierarchy under a step -----

  /** The hierarchy stays; scopes may at most fall back to waiting for revalidation. */
  ghost predicate SameShape(scopes: map<Id, Scope>, scopes': map<Id, Scope>) {
    scopes'.Keys == scopes.Keys
    && forall s :: s in scopes ==>
      && scopes'[s].parent == scopes[s].parent && scopes'[s].isolated == scopes[s].isolated
      && scopes'[s].deniesOverride == scopes[s].deniesOverride
      && (scopes'[s].status == scopes[s].status || scopes'[s].status.RevalidateScope?)
  }

  lemma {:induction false} ShapeAncestors(scopes: map<Id, Scope>, scopes': map<Id, Scope>, s: Id, seen: set<Id>)
    requires SameShape(scopes, scopes')
    ensures Ancestors(scopes', s, seen) == Ancestors(scopes, s, seen)
    decreases scopes.Keys - seen
  {
    if s in scopes && s !in seen && scopes[s].parent.Some? {
      ShapeAncestors(scopes, scopes', scopes[s].parent.value, seen + {s});
    }
  }

  /** The chain above the parent of a scope never comes back to the scope. */
  lemma {:induction false} AncestorsClimb(scopes: map<Id, Scope>, start: Id, seen: set<Id>, s: Id)
    requires Ancestors(scopes, start, seen).Ok? && s in Ancestors(scopes, start, seen).value
    ensures s in scopes && (scopes[s].parent.Some? ==> scopes[s].parent.value !in seen + {start})
    decreases scopes.Keys - seen
  {
    if scopes[start].parent.Some? {
      var p := scopes[start].parent.value;
      assert Ancestors(scopes, p, seen + {start}).Ok?;
      if s != start {
        AncestorsClimb(scopes, p, seen + {start}, s);
      }
    }
  }

  lemma NotAboveItself(scopes: map<Id, Scope>, s: Id)
    requires s in scopes && scopes[s].parent.Some?
    ensures s !in InheritanceChain(scopes, scopes[s].parent.value)
  {
    var p := scopes[s].parent.value;
    if s in InheritanceChain(scopes, p) {
      AncestorsClimb(scopes, p, {}, s);
    }
  }

  // ----- steps that only take decisions out -----

  /** `c'` is `c` with the entries of `hidden` out of effect and their models thinned; identities, records
      and knowledge stay. */
  ghost predicate Thins(c: Calculus, c': Calculus, hidden: set<Id>) {
    && Withdraws(c, c', hidden) && SameShape(c.scopes, c'.scopes) && c'.scopeDeps == c.scopeDeps
    && ThinnerModels(c, c') && SameIdentities(c, c') && SameRecords(c, c')
  }

  ghost predicate ThinnerModels(c: Calculus, c': Calculus) {
    c'.models.Keys == c.models.Keys
    && forall s, x :: s in c.models && x in c'.models[s] ==> x in c.models[s] && c'.models[s][x] == c.models[s][x]
  }

  ghost predicate SameIdentities(c: Calculus, c': Calculus) {
    c'.decisions.Keys == c.decisions.Keys
    && forall d :: d in c.decisions ==>
      && c'.decisions[d].scope == c.decisions[d].scope && c'.decisions[d].parents == c.decisions[d].parents
      && c'.decisions[d].overrides == c.decisions[d].overrides
  }

  ghost predicate SameRecords(c: Calculus, c': Calculus) {
    && c'.explanations == c.explanations && c'.constraints == c.constraints
    && c'.conflicts.Keys == c.conflicts.Keys && c'.obligations.Keys == c.obligations.Keys && c'.locks.Keys == c.locks.Keys
    && (forall k :: k in c.conflicts ==> c'.conflicts[k].scope == c.conflicts[k].scope)
    && (forall o :: o in c.obligations ==> c'.obligations[o].scope == c.obligations[o].scope)
    && (forall k :: k in c.locks ==>
          && c'.locks[k].obligation == c.locks[k].obligation && c'.locks[k].origin == c.locks[k].origin
          && c'.locks[k].scope == c.locks[k].scope)
  }

  /** The values that a scope is left with once `hidden` is out of effect. */
  function LeftValues(c: Calculus, hidden: set<Id>, scope: Id): Values {
    ActiveValues(c, SurvivorsIn(c, hidden, scope))
  }

  lemma LeftExactly(c: Calculus, c': Calculus, hidden: set<Id>, scope: Id)
    requires Indexed(c) && Withdraws(c, c', hidden)
    ensures EffectiveValues(c', scope) == LeftValues(c, hidden, scope)
  {
    hide Indexed, SurvivorsIn, EffectiveDecisions;
    WithdrawnDecisions(c, c', hidden, scope);
    forall x | x in SurvivorsIn(c, hidden, scope)
      ensures SurvivorsIn(c, hidden, scope)[x] !in hidden && IsActive(c, SurvivorsIn(c, hidden, scope)[x])
    {
      SurvivorActive(c, hidden, scope, x);
      SurvivorIsKept(c, hidden, scope, x);
    }
  }

  lemma SurvivorIsKept(c: Calculus, hidden: set<Id>, scope: Id, x: Id)
    requires x in SurvivorsIn(c, hidden, scope)
    ensures SurvivorsIn(c, hidden, scope)[x] !in hidden && x in EffectiveDecisions(c, scope)
  {
    SurvivorsMember(c, hidden, InheritanceChain(c.scopes, scope), x);
  }

  /** A no-good that some scope below its own is left violating. */
  predicate LeftViolated(c: Calculus, hidden: set<Id>, scope: Id, k: Id) {
    scope in c.scopes && k in c.constraints && c.constraints[k].scope in Lineage(c, scope)
    && ConstraintViolated(c.constraints[k], LeftValues(c, hidden, scope))
  }

  lemma ThinningKeepsOverrides(c: Calculus, c': Calculus, hidden: set<Id>)
    requires Indexed(c) && Thins(c, c', hidden) && OverridesRespected(c)
    ensures OverridesRespected(c')
  {
    hide Withdraws, Indexed, EffectiveDecisions, SameRecords;
    forall s, x | s in c'.models && s in c'.scopes && s != ROOT && !c'.scopes[s].isolated && c'.scopes[s].parent.Some?
        && x in c'.models[s]
      ensures OverrideAdmitted(c', s, x, EffectiveDecisions(c', c'.scopes[s].parent.value))
    {
      var p := c.scopes[s].parent.value;
      WithdrawnDecisions(c, c', hidden, p);
      if x in SurvivorsIn(c, hidden, p) {
        SurvivorIsKept(c, hidden, p, x);
        InheritedIsOther(c, s, x);
        assert OverrideAdmitted(c, s, x, EffectiveDecisions(c, p));
      }
    }
  }

  /** What a scope inherits for a subject is never its own assignment. */
  lemma InheritedIsOther(c: Calculus, s: Id, x: Id)
    requires Indexed(c) && s in c.models && s in c.scopes && c.scopes[s].parent.Some? && x in c.models[s]
    requires x in EffectiveDecisions(c, c.scopes[s].parent.value)
    ensures c.models[s][x] in c.decisions && EffectiveDecisions(c, c.scopes[s].parent.value)[x] != c.models[s][x]
  {
    var chain := InheritanceChain(c.scopes, c.scopes[s].parent.value);
    NotAboveItself(c.scopes, s);
    var t := OverlaySource(c, chain, x);
    assert t in c.models && c.models[t] == Layer(c, t);
  }

  lemma ThinningKeepsFlows(c: Calculus, c': Calculus, hidden: set<Id>)
    requires Thins(c, c', hidden) && FlowsLegal(c)
    ensures FlowsLegal(c')
  {
    hide InheritanceChain, SameRecords, ThinnerModels, SameShape;
    forall s, t ensures FlowAllowed(c'.scopes, c'.scopeDeps, s, t) == FlowAllowed(c.scopes, c.scopeDeps, s, t) {
      assert InheritanceChain(c'.scopes, t) == InheritanceChain(c.scopes, t);
    }
  }

  lemma ThinningKeepsRecords(c: Calculus, c': Calculus, hidden: set<Id>)
    requires Thins(c, c', hidden)
    ensures IdleScopesEmpty(c) ==> IdleScopesEmpty(c')
    ensures ScopesKnown(c) ==> ScopesKnown(c')
    ensures ReferencesKnown(c) ==> ReferencesKnown(c')
  {
    hide Withdraws, ThinnerModels, IdleScopesEmpty, ReferencesKnown;
    ThinningKeepsIdle(c, c', hidden);
    ThinningKeepsReferences(c, c', hidden);
  }

  lemma ThinningKeepsReferences(c: Calculus, c': Calculus, hidden: set<Id>)
    requires Thins(c, c', hidden)
    ensures ReferencesKnown(c) ==> ReferencesKnown(c')
  {
    hide Withdraws, ThinnerModels, SameShape;
  }

  lemma ThinningKeepsIdle(c: Calculus, c': Calculus, hidden: set<Id>)
    requires Thins(c, c', hidden)
    ensures IdleScopesEmpty(c) ==> IdleScopesEmpty(c')
  {
    hide Withdraws, SameIdentities, SameRecords;
    if IdleScopesEmpty(c) {
      forall s | s in c'.scopes && s in c'.models && c'.models[s] != NO_MODEL ensures c.models[s] != NO_MODEL {
        var x :| x in c'.models[s];
      }
    }
  }

  /** Only the violations can make the commit refuse, and exactly those no-goods do whose conflict is
      resolved by then and which some scope is left violating. */
  lemma ThinningCommitsExactly(c: Calculus, c': Calculus, hidden: set<Id>)
    requires Indexed(c) && CommitChecks(c) && Thins(c, c', hidden)
    ensures CommitChecks(c') <==>
      forall s, k :: LeftViolated(c, hidden, s, k) ==> Unresolved(c', c.constraints[k])
  {
    hide OverridesRespected, IdleScopesEmpty, FlowsLegal, ScopesKnown, ReferencesKnown, KnowledgeRespected, Indexed,
      Thins, LeftViolated, Unresolved;
    ThinningKeepsOverrides(c, c', hidden);
    ThinningKeepsFlows(c, c', hidden);
    ThinningKeepsRecords(c, c', hidden);
    ThinningRespectsExactly(c, c', hidden);
  }

  lemma ThinningRespectsExactly(c: Calculus, c': Calculus, hidden: set<Id>)
    requires Indexed(c) && Thins(c, c', hidden)
    ensures KnowledgeRespected(c') <==>
      forall s, k :: LeftViolated(c, hidden, s, k) ==> Unresolved(c', c.constraints[k])
  {
    hide Indexed, Withdraws, EffectiveValues, LeftValues, ConstraintViolated, SameIdentities, ThinnerModels, Unresolved;
    forall s, k | s in c.scopes && k in c.constraints
      ensures LeftViolated(c, hidden, s, k) <==> ViolatedBelow(c', c'.constraints[k], s)
    {
      LeftExactly(c, c', hidden, s);
      ShapeAncestors(c.scopes, c'.scopes, s, {});
    }
  }

  /** Where nothing is uncovered, what is left is part of what there was. */
  lemma LeftIsPart(c: Calculus, hidden: set<Id>, s: Id)
    requires Indexed(c) && forall x :: !Bares(c, hidden, s, x)
    ensures Extends(EffectiveValues(c, s), LeftValues(c, hidden, s))
  {
    hide Indexed, SurvivorsIn, EffectiveValues;
    forall x | x in LeftValues(c, hidden, s)
      ensures x in EffectiveValues(c, s) && EffectiveValues(c, s)[x] == LeftValues(c, hidden, s)[x]
    {
      EffectiveDecisionsAreActive(c, s, x, hidden);
      assert !Bares(c, hidden, s, x);
    }
  }

  /** Without `not`, a scope is left violating a no-good that it respected only where something that
      was overridden is uncovered. */
  lemma LeftViolatedUncovers(c: Calculus, hidden: set<Id>, s: Id, k: Id)
    requires Indexed(c) && LeftViolated(c, hidden, s, k)
    requires NegationFree(c.constraints[k].guard) && !ViolatedBelow(c, c.constraints[k], s)
    ensures exists x :: Bares(c, hidden, s, x)
  {
    hide Indexed, EffectiveValues, LeftValues, Bares;
    if forall x :: !Bares(c, hidden, s, x) {
      LeftIsPart(c, hidden, s);
      ViolationMonotone(c.constraints[k], LeftValues(c, hidden, s), EffectiveValues(c, s));
    }
  }

  // ----- the steps -----

  lemma SettlingKeepsRecords(c: Calculus)
    ensures SameRecords(c, Settled(c))
  {
    assert Settled(c).locks == Relocked(c).locks && Settled(c).obligations == Relocked(c).obligations;
    SettledFrame(c);
  }

  /** Settling moves none of the fields that a withdrawal or the hierarchy reads. */
  lemma SettledThins(c: Calculus, mid: Calculus, hidden: set<Id>)
    requires Thins(c, mid, hidden)
    ensures Thins(c, Settled(mid), hidden)
  {
    hide Settled, Thins, SameRecords;
    SettledFrame(mid);
    SettlingKeepsRecords(mid);
    RecordsThin(c, mid, Settled(mid), hidden);
  }

  lemma RecordsThin(c: Calculus, mid: Calculus, next: Calculus, hidden: set<Id>)
    requires Thins(c, mid, hidden) && SameRecords(mid, next)
    requires next == mid.(locks := next.locks, obligations := next.obligations, fairness := next.fairness)
    ensures Thins(c, next, hidden)
  {
    hide Withdraws;
    assert Withdraws(c, next, hidden) by { RecordsWithdraw(c, mid, next, hidden); }
  }

  lemma RecordsWithdraw(c: Calculus, mid: Calculus, next: Calculus, hidden: set<Id>)
    requires Withdraws(c, mid, hidden)
    requires next == mid.(locks := next.locks, obligations := next.obligations, fairness := next.fairness)
    ensures Withdraws(c, next, hidden)
  {
    forall s ensures Layer(next, s) == Layer(mid, s) {
    }
  }

  lemma SameShapeItself(scopes: map<Id, Scope>)
    ensures SameShape(scopes, scopes)
  {
  }

  lemma RestartThins(c: Calculus)
    requires Indexed(c)
    ensures Thins(c, Restart.Cleared(c), Speculative(c))
  {
    hide Withdraws, Speculative, SlotsSound, SlotsComplete, Registered;
    RestartWithdraws(c);
    SameShapeItself(c.scopes);
  }

  /** A restart that leaves no violation is committed exactly when it leaves none of the no-goods whose
      conflict is resolved violated in any scope below. */
  lemma RestartCommitsExactly(c: Calculus)
    requires Indexed(c) && CommitChecks(c)
    ensures CommitChecks(AfterRestart(c)) <==>
      forall s, k :: LeftViolated(c, Speculative(c), s, k) ==> Unresolved(c, c.constraints[k])
  {
    hide Indexed, CommitChecks, Thins, LeftViolated, Settled, Speculative, Restart.Cleared;
    RestartThins(c);
    SettledThins(c, Restart.Cleared(c), Speculative(c));
    ThinningCommitsExactly(c, AfterRestart(c), Speculative(c));
    ClearedConflicts(c);
  }

  lemma ClearedConflicts(c: Calculus)
    ensures AfterRestart(c).conflicts == c.conflicts
    ensures forall scope, at :: AfterScopeRestart(c, scope, at).conflicts == c.conflicts
  {
    hide Settled, Speculative, SpeculativeIn, Subtree;
    SettledFrame(Restart.Cleared(c));
    forall scope, at ensures AfterScopeRestart(c, scope, at).conflicts == c.conflicts {
      SettledFrame(ScopeCleared(c, Subtree(c.scopes, scope), at));
    }
  }

  /** When guards are free of `not` and nothing is bared in any scope, the commit accepts the restart. */
  lemma RestartCommits(c: Calculus)
    requires Indexed(c) && CommitChecks(c) && NegationFreeGuards(c) && NothingBared(c, Speculative(c))
    ensures CommitChecks(AfterRestart(c))
  {
    hide Indexed, Speculative, LeftValues, ConstraintViolated, ViolatedBelow, Withdraws, Restart.Cleared, Settled,
      CommitChecks, NothingBared, NegationFreeGuards, Unresolved;
    RestartCommitsExactly(c);
    forall s, k | LeftViolated(c, Speculative(c), s, k) ensures Unresolved(c, c.constraints[k]) {
      WithoutBaringStays(c, Speculative(c), s, k);
    }
  }

  /** Where nothing is bared, what is left violated was violated before, and tolerated. */
  lemma WithoutBaringStays(c: Calculus, hidden: set<Id>, s: Id, k: Id)
    requires Indexed(c) && CommitChecks(c) && NegationFreeGuards(c)
    requires NothingBared(c, hidden) && LeftViolated(c, hidden, s, k)
    ensures Unresolved(c, c.constraints[k])
  {
    hide Indexed, ViolatedBelow, Bares, LeftViolated;
    assert s in c.scopes && k in c.constraints by { LeftKnown(c, hidden, s, k); }
    if !ViolatedBelow(c, c.constraints[k], s) {
      LeftViolatedUncovers(c, hidden, s, k);
    }
  }

  lemma LeftKnown(c: Calculus, hidden: set<Id>, s: Id, k: Id)
    requires LeftViolated(c, hidden, s, k)
    ensures s in c.scopes && k in c.constraints
  {
  }

  lemma ScopeRestartThins(c: Calculus, scope: Id, at: nat)
    requires Indexed(c) && scope in c.scopes && scope != ROOT
    ensures var targets := Subtree(c.scopes, scope); Thins(c, ScopeCleared(c, targets, at), SpeculativeIn(c, targets))
  {
    hide Withdraws, Subtree, Retires, Indexed;
    var targets := Subtree(c.scopes, scope);
    ScopeRestartRetires(c, scope, at);
    assert Mirror(ScopeCleared(c, targets, at)) by { IndexedMirror(ScopeCleared(c, targets, at)); }
    RetiringWithdraws(c, ScopeCleared(c, targets, at), SpeculativeIn(c, targets));
    SameShapeItself(c.scopes);
  }

  lemma IndexedMirror(c: Calculus)
    requires Indexed(c)
    ensures Mirror(c)
  {
  }

  /** The same for the restart of one scope. */
  lemma ScopeRestartCommitsExactly(c: Calculus, scope: Id, at: nat)
    requires Indexed(c) && CommitChecks(c) && scope in c.scopes && scope != ROOT
    ensures CommitChecks(AfterScopeRestart(c, scope, at)) <==>
      forall s, k :: LeftViolated(c, SpeculativeIn(c, Subtree(c.scopes, scope)), s, k) ==> Unresolved(c, c.constraints[k])
  {
    hide Indexed, CommitChecks, Thins, LeftViolated, Settled, SpeculativeIn, ScopeCleared, Subtree;
    var targets := Subtree(c.scopes, scope);
    ScopeRestartThins(c, scope, at);
    SettledThins(c, ScopeCleared(c, targets, at), SpeculativeIn(c, targets));
    ThinningCommitsExactly(c, AfterScopeRestart(c, scope, at), SpeculativeIn(c, targets));
    ClearedConflicts(c);
  }

  lemma RecoveryThins(c: Calculus, plan: BackjumpPlan, at: nat)
    requires Indexed(c) && SaneDependencies(c.scopes, c.scopeDeps)
    requires plan.pivot.Some? && IsActive(c, plan.pivot.value) && Applicable(c, WidenedPlan(c, plan))
    ensures Thins(c, Recovered(c, plan, at), RecoveryHides(c, plan))
  {
    hide Withdraws, Indexed, Recovered, RecoveryHides, Applicable, ThinnerModels, SameIdentities, SameRecords, SameShape;
    RecoveryWithdraws(c, plan, at);
    RecoveryFrame(c, plan, at);
  }

  lemma RecoveryFrame(c: Calculus, plan: BackjumpPlan, at: nat)
    requires plan.pivot.Some? && plan.pivot.value in c.decisions && Applicable(c, WidenedPlan(c, plan))
    ensures var c' := Recovered(c, plan, at);
      && SameShape(c.scopes, c'.scopes) && c'.scopeDeps == c.scopeDeps
      && ThinnerModels(c, c') && SameIdentities(c, c') && SameRecords(c, c')
  {
    hide TakenScopes, DoubtedScopes, WidenedPlan, ThinnerModels, SameIdentities, SameRecords, AfterBackjump, Applicable;
    var wide := WidenedPlan(c, plan);
    JumpFrame(c, wide, at);
  }

  lemma JumpFrame(c: Calculus, wide: BackjumpPlan, at: nat)
    requires Applicable(c, wide)
    ensures var mid := AfterBackjump(c, wide, at);
      && mid.scopes == c.scopes && mid.scopeDeps == c.scopeDeps
      && forall marked :: var c' := MarkScopes(mid, marked, at);
        ThinnerModels(c, c') && SameIdentities(c, c') && SameRecords(c, c')
  {
  }

  /** After a backjump every scope has exactly the values it is left with. */
  lemma RecoveryLeaves(c: Calculus, plan: BackjumpPlan, at: nat, scope: Id)
    requires Indexed(c) && SaneDependencies(c.scopes, c.scopeDeps)
    requires plan.pivot.Some? && IsActive(c, plan.pivot.value) && Applicable(c, WidenedPlan(c, plan))
    ensures EffectiveValues(Settled(Recovered(c, plan, at)), scope) == LeftValues(c, RecoveryHides(c, plan), scope)
  {
    hide Indexed, Settled, Recovered, RecoveryHides, Withdraws, EffectiveValues, LeftValues, Applicable;
    RecoveryWithdraws(c, plan, at);
    SettledValues(Recovered(c, plan, at), scope);
    LeftExactly(c, Recovered(c, plan, at), RecoveryHides(c, plan), scope);
  }

  /** A backjump, whatever its pivot, is committed exactly when it leaves no no-good of the conflict it
      resolves, and none whose conflict is resolved already, violated in any scope below. */
  lemma JumpCommitsExactly(c: Calculus, cid: Id, requested: Option<Id>, plan: BackjumpPlan, at: nat)
    requires Indexed(c) && SaneDependencies(c.scopes, c.scopeDeps) && CommitChecks(c) && IsJump(c, cid, requested, plan)
    requires Applicable(c, WidenedPlan(c, plan))
    ensures CommitChecks(Settled(Recovered(c, plan, at))) <==>
      forall s, k :: LeftViolated(c, RecoveryHides(c, plan), s, k) ==>
        Unresolved(c, c.constraints[k]) && c.constraints[k].conflict != cid
  {
    hide IsJump;
    JumpMeans(c, cid, requested, plan);
    RecoveryCommitsExactly(c, cid, plan, at);
  }

  lemma JumpMeans(c: Calculus, cid: Id, requested: Option<Id>, plan: BackjumpPlan)
    requires IsJump(c, cid, requested, plan)
    ensures plan.pivot.Some? && IsActive(c, plan.pivot.value) && plan.conflict == cid
  {
    hide ExplanationValid, Chosen, ExplainedRoots;
  }

  lemma RecoveryCommitsExactly(c: Calculus, cid: Id, plan: BackjumpPlan, at: nat)
    requires Indexed(c) && SaneDependencies(c.scopes, c.scopeDeps) && CommitChecks(c) && plan.conflict == cid
    requires plan.pivot.Some? && IsActive(c, plan.pivot.value) && Applicable(c, WidenedPlan(c, plan))
    ensures CommitChecks(Settled(Recovered(c, plan, at))) <==>
      forall s, k :: LeftViolated(c, RecoveryHides(c, plan), s, k) ==>
        Unresolved(c, c.constraints[k]) && c.constraints[k].conflict != cid
  {
    hide Indexed, CommitChecks, Thins, LeftValues, Lineage, ConstraintViolated, Settled, RecoveryHides, Recovered,
      WidenedPlan, Applicable, SaneDependencies, Unresolved;
    RecoveryThins(c, plan, at);
    SettledThins(c, Recovered(c, plan, at), RecoveryHides(c, plan));
    ThinningCommitsExactly(c, Settled(Recovered(c, plan, at)), RecoveryHides(c, plan));
    RecoveredConflicts(c, cid, plan, at);
  }

  lemma RecoveredConflicts(c: Calculus, cid: Id, plan: BackjumpPlan, at: nat)
    requires plan.pivot.Some? && plan.pivot.value in c.decisions && Applicable(c, WidenedPlan(c, plan)) && plan.conflict == cid
    ensures forall k :: Unresolved(Settled(Recovered(c, plan, at)), k) <==> Unresolved(c, k) && k.conflict != cid
  {
    hide TakenScopes, DoubtedScopes, Settled;
    SettledFrame(Recovered(c, plan, at));
  }

  lemma TruthThins(c: Calculus, plan: TruthPlan, at: nat)
    requires Indexed(c)
    ensures Thins(c, TruthCalculus(c, plan, at), Withdrawn(c, plan))
  {
    hide Thins, SameRecords, WithdrawTruth, Relocked, Indexed;
    var mid := WithdrawTruth(c, plan, at);
    WithdrawalThins(c, plan, at);
    RelockingKeepsRecords(mid);
    RelockedFrame(mid);
    RecordsThin(c, mid, Relocked(mid), Withdrawn(c, plan));
  }

  lemma WithdrawalThins(c: Calculus, plan: TruthPlan, at: nat)
    requires Indexed(c)
    ensures Thins(c, WithdrawTruth(c, plan, at), Withdrawn(c, plan))
  {
    hide Withdraws, Retires, Indexed;
    var mid := WithdrawTruth(c, plan, at);
    TruthRetires(c, plan, at);
    assert Mirror(mid) by { IndexedMirror(mid); }
    RetiringWithdraws(c, mid, Withdrawn(c, plan));
    SameShapeItself(c.scopes);
  }

  lemma RelockingKeepsRecords(c: Calculus)
    ensures SameRecords(c, Relocked(c))
  {
  }

  /** A truth plan makes no check of its own; its commit decides alone. */
  lemma TruthCommitsExactly(c: Calculus, plan: TruthPlan, at: nat)
    requires Indexed(c) && CommitChecks(c)
    ensures CommitChecks(TruthCalculus(c, plan, at)) <==>
      forall s, k :: LeftViolated(c, Withdrawn(c, plan), s, k) ==> Unresolved(c, c.constraints[k])
  {
    hide Indexed, CommitChecks, Thins, LeftViolated, Withdrawn;
    TruthThins(c, plan, at);
    ThinningCommitsExactly(c, TruthCalculus(c, plan, at), Withdrawn(c, plan));
  }
}
