/** What every commit checks (`calculus.py`, `_scopes_invariants.py`). */
module Commits {
  import opened Foundations
  import opened CalculusModel
  import opened Scopes
  import opened Conditions
  import opened DecisionGraph
  import opened Staging
  import opened Activation

  /** The slot part of `assert_scope_calculus_invariants`, over a normalised state. */
  predicate ModelsAgree(c: Calculus) {
    && (forall s :: s in c.models ==> forall x :: x in c.models[s] ==>
          (var d := c.models[s][x];
           d in c.decisions && c.decisions[d].status.Active?
           && c.decisions[d].scope == s && c.decisions[d].subject == x))
    && (forall d :: d in c.decisions ==> c.decisions[d].status.Active? ==>
          Slot(c.models, c.decisions[d].scope, c.decisions[d].subject) == Some(d))
  }

  predicate Unresolved(c: Calculus, k: Constraint) {
    k.conflict in c.conflicts
    && (var s := c.conflicts[k.conflict].status; s.Open? || s.Explained? || s.Learned?)
  }

  /** Violations are tolerated only while their source conflict is unresolved. */
  predicate KnowledgeRespected(c: Calculus) {
    forall s :: s in c.scopes ==> forall k :: k in c.constraints ==>
      ViolatedBelow(c, c.constraints[k], s) ==> Unresolved(c, c.constraints[k])
  }

  /** A local assignment of a subject that the scope inherits must be an explicit override that the
      scope admits. */
  predicate OverridesRespected(c: Calculus) {
    forall s :: s in c.models && s in c.scopes && s != ROOT && !c.scopes[s].isolated && c.scopes[s].parent.Some? ==>
      forall x :: x in c.models[s] ==> OverrideAdmitted(c, s, x, EffectiveDecisions(c, c.scopes[s].parent.value))
  }

  predicate OverrideAdmitted(c: Calculus, s: Id, x: Id, inherited: map<Id, Id>)
    requires s in c.scopes && s in c.models && x in c.models[s]
  {
    x in inherited && inherited[x] != c.models[s][x] ==>
      !c.scopes[s].deniesOverride && c.models[s][x] in c.decisions && c.decisions[c.models[s][x]].overrides
  }

  /** Only ACTIVE scopes and those waiting for revalidation hold a model. */
  predicate IdleScopesEmpty(c: Calculus) {
    forall s :: s in c.scopes && s in c.models && c.models[s] != NO_MODEL ==>
      c.scopes[s].status.ActiveScope? || c.scopes[s].status.RevalidateScope?
  }

  /** Decisions rest only on decisions that may flow into their scope. */
  ghost predicate FlowsLegal(c: Calculus) {
    forall d, p :: d in c.decisions && p in c.decisions[d].parents && p in c.decisions ==>
      FlowAllowed(c.scopes, c.scopeDeps, c.decisions[p].scope, c.decisions[d].scope)
  }

  /** Every record names a known scope. */
  predicate ScopesKnown(c: Calculus) {
    && (forall d :: d in c.decisions ==> c.decisions[d].scope in c.scopes)
    && (forall o :: o in c.obligations ==> c.obligations[o].scope in c.scopes)
    && (forall k :: k in c.locks ==> c.locks[k].scope in c.scopes)
    && (forall k :: k in c.conflicts ==> c.conflicts[k].scope in c.scopes)
    && (forall e :: e in c.explanations ==> c.explanations[e].scope in c.scopes)
    && (forall k :: k in c.constraints ==> c.constraints[k].scope in c.scopes)
  }

  /** Locks name known obligations and decisions; an enforced no-good was validated and names a known
      explanation and conflict. */
  predicate ReferencesKnown(c: Calculus) {
    && (forall k :: k in c.locks ==> c.locks[k].obligation in c.obligations && c.locks[k].origin in c.decisions)
    && (forall k :: k in c.constraints && c.constraints[k].strength.Hard? && c.constraints[k].status.ActiveConstraint? ==>
          !c.constraints[k].validation.Heuristic?
          && c.constraints[k].explanation in c.explanations && c.constraints[k].conflict in c.conflicts)
  }

  /** What a commit checks beside the slots. */
  ghost predicate CommitChecks(c: Calculus) {
    && KnowledgeRespected(c) && OverridesRespected(c) && IdleScopesEmpty(c)
    && FlowsLegal(c) && ScopesKnown(c) && ReferencesKnown(c)
  }

  ghost predicate CommitAdmits(c: Calculus) {
    ModelsAgree(c) && CommitChecks(c)
  }

  method CheckFlows(c: Calculus) returns (ok: bool)
    ensures ok == FlowsLegal(c)
  {
    var rest := c.decisions.Keys;
    while rest != {}
      invariant rest <= c.decisions.Keys
      invariant forall d, p :: d in c.decisions && d !in rest && p in c.decisions[d].parents && p in c.decisions ==>
        FlowAllowed(c.scopes, c.scopeDeps, c.decisions[p].scope, c.decisions[d].scope)
      decreases rest
    {
      var d :| d in rest;
      rest := rest - {d};
      var legal := CheckParentFlows(c, d);
      if !legal {
        return false;
      }
    }
    return true;
  }

  method CheckParentFlows(c: Calculus, d: Id) returns (ok: bool)
    requires d in c.decisions
    ensures ok == forall p :: p in c.decisions[d].parents && p in c.decisions ==>
      FlowAllowed(c.scopes, c.scopeDeps, c.decisions[p].scope, c.decisions[d].scope)
  {
    var rest := c.decisions[d].parents;
    while rest != {}
      invariant rest <= c.decisions[d].parents
      invariant forall p :: p in c.decisions[d].parents && p !in rest && p in c.decisions ==>
        FlowAllowed(c.scopes, c.scopeDeps, c.decisions[p].scope, c.decisions[d].scope)
      decreases rest
    {
      var p :| p in rest;
      rest := rest - {p};
      if p in c.decisions {
        var legal := CheckFlow(c.scopes, c.scopeDeps, c.decisions[p].scope, c.decisions[d].scope);
        if !legal {
          return false;
        }
      }
    }
    return true;
  }

  /** `assert_calculus_invariants` and `assert_scope_calculus_invariants`. */
  method CheckCommit(c: Calculus) returns (ok: bool)
    ensures ok == CommitAdmits(c)
  {
    var flows := CheckFlows(c);
    ok := flows && ModelsAgree(c) && KnowledgeRespected(c) && OverridesRespected(c) && IdleScopesEmpty(c)
      && ScopesKnown(c) && ReferencesKnown(c);
  }

  lemma IndexedModelsAgree(c: Calculus)
    requires Indexed(c)
    ensures ModelsAgree(c) && Normalised(c) == c
  {
    assert Normalised(c).models == c.models;
    assert forall d :: d in c.decisions && c.decisions[d].status.Active? ==> IsActive(c, d);
  }

  /** Knowledge sits only in scopes that nothing inherits from. */
  ghost predicate NothingInherited(c: Calculus) {
    forall s, k :: s in c.scopes && k in c.constraints && c.constraints[k].scope in Lineage(c, s) ==>
      c.constraints[k].scope == s
  }

  lemma InheritedAreOwn(c: Calculus)
    requires NothingInherited(c)
    ensures forall s, k :: s in c.scopes && k in c.constraints && ViolatedBelow(c, c.constraints[k], s) ==>
      k in Violated(c)
  {
  }

  /** The check made while staging reads each no-good in its own scope only. Where nothing is
      inherited, that is the whole commit check. */
  lemma OwnScopeCheckSuffices(c: Calculus)
    requires NothingInherited(c) && Violated(c) == {}
    ensures KnowledgeRespected(c)
  {
    InheritedAreOwn(c);
  }

  // ----- flow and the root -----

  /** Causal edges are those that registering a decision writes, one from each parent. */
  ghost predicate EdgesFollowParents(c: Calculus) {
    forall e :: e in c.edges && Causal(e.relation) ==> e.dst in c.decisions && e.src in c.decisions[e.dst].parents
  }

  /** The flow check of the commit keeps the root free of decisions that rest on other scopes. */
  lemma FlowsAreDown(c: Calculus)
    requires FlowsLegal(c) && EdgesFollowParents(c)
    requires RootRecord(c.scopes) && forall k :: k in c.scopeDeps ==> c.scopeDeps[k].downstream != ROOT
    ensures FlowsDown(c)
  {
    hide FlowAllowed;
    forall d, p | d in c.decisions && c.decisions[d].scope == ROOT && p in c.decisions[d].parents && p in c.decisions
      ensures c.decisions[p].scope == ROOT
    {
      NothingFlowsIntoRoot(c.scopes, c.scopeDeps, c.decisions[p].scope);
    }
  }

  /** So an activation in another scope ousts nothing of the root, and the commit accepts its slots
      whatever it ousts. */
  lemma ScopedActivationAlwaysCommits(c: Calculus, d: Id, sequence: nat)
    requires Indexed(c) && FlowsDown(c) && Activatable(c, d)
    requires c.decisions[d].scope in c.scopes && c.decisions[d].scope != ROOT
    ensures Indexed(Normalised(Candidate(c, d, sequence)))
  {
    hide SlotsSound, SlotsComplete, Ousted, Candidate, AntecedentsLive, FlowsDown;
    forall e | e in Ousted(c, d) ensures c.decisions[e].scope != ROOT {
      OustedStaysBelow(c, d, e);
    }
    ScopedActivationCommits(c, d, sequence);
  }

  lemma OustedStaysBelow(c: Calculus, d: Id, e: Id)
    requires Indexed(c) && FlowsDown(c) && d in c.decisions && c.decisions[d].scope != ROOT && e in Ousted(c, d)
    ensures c.decisions[e].scope != ROOT
  {
    hide FlowsDown;
    var current := Local(c, d).value;
    assert IsActive(c, current) && c.decisions[current].scope == c.decisions[d].scope;
    DisplacedShrinks(Pass(c, {}, {}), current, d);
    DependentsStayBelow(c, current);
    assert current in Descendants(c, current);
  }

  // ----- the whole check, spelled out -----

  /** The commit admits a state exactly when: model entries and ACTIVE decisions correspond to each other; all
      records are about known scopes; what a child assigns against its inheritance is an override that the
      scope does not deny; only ACTIVE scopes and those to be revalidated hold a model; no decision rests on
      one that may not flow to it; locks and enforced no-goods have their sources, the latter validated; and
      no scope violates a no-good, its own or one from above, whose conflict is over or unknown. */
  lemma CommitExactly(c: Calculus)
    ensures CommitAdmits(c) <==>
      && (forall s, x, d :: EntryOf(c, s, x, d) ==>
            d in c.decisions && c.decisions[d].status == Active && c.decisions[d].scope == s && c.decisions[d].subject == x)
      && (forall d :: d in c.decisions && c.decisions[d].status == Active ==>
            EntryOf(c, c.decisions[d].scope, c.decisions[d].subject, d))
      && RecordsInScope(c)
      && (forall s, x, d :: EntryOf(c, s, x, d) && Inherits(c, s) && Contradicts(c, s, x, d) ==>
            MayOverride(c, d) && !c.scopes[s].deniesOverride)
      && (forall s, x, d :: EntryOf(c, s, x, d) && s in c.scopes ==>
            c.scopes[s].status !in {SuspendedScope, InvalidatedScope, RetiredScope})
      && (forall d, p :: d in c.decisions && p in c.decisions && p in c.decisions[d].parents ==>
            FlowAllowed(c.scopes, c.scopeDeps, c.decisions[p].scope, c.decisions[d].scope))
      && (forall k :: k in c.locks ==> c.locks[k].obligation in c.obligations && c.locks[k].origin in c.decisions)
      && (forall k :: k in c.constraints && c.constraints[k].strength == Hard && c.constraints[k].status == ActiveConstraint ==>
            c.constraints[k].validation in {ByProof, ByValidation}
            && c.constraints[k].explanation in c.explanations && c.constraints[k].conflict in c.conflicts)
      && (forall s, k :: s in c.scopes && k in c.constraints && ViolatedBelow(c, c.constraints[k], s) ==>
            c.constraints[k].conflict in c.conflicts
            && c.conflicts[c.constraints[k].conflict].status !in {Resolved, RejectedConflict})
  {
    hide EffectiveDecisions, FlowAllowed, ViolatedBelow;
    SlotPart(c);
    OverridePart(c);
    IdlePart(c);
    ScopePart(c);
    ReferencePart(c);
    KnowledgePart(c);
  }

  /** The model of scope `s` assigns `x` to `d`. */
  predicate EntryOf(c: Calculus, s: Id, x: Id, d: Id) {
    s in c.models && x in c.models[s] && c.models[s][x] == d
  }

  predicate Inherits(c: Calculus, s: Id) {
    s in c.scopes && s != ROOT && !c.scopes[s].isolated && c.scopes[s].parent != None
  }

  predicate Contradicts(c: Calculus, s: Id, x: Id, d: Id) {
    s in c.scopes && c.scopes[s].parent.Some?
    && x in EffectiveDecisions(c, c.scopes[s].parent.value) && EffectiveDecisions(c, c.scopes[s].parent.value)[x] != d
  }

  predicate MayOverride(c: Calculus, d: Id) {
    d in c.decisions && c.decisions[d].overrides
  }

  predicate RecordsInScope(c: Calculus) {
    && (forall d :: d in c.decisions ==> c.decisions[d].scope in c.scopes)
    && (forall o :: o in c.obligations ==> c.obligations[o].scope in c.scopes)
    && (forall k :: k in c.locks ==> c.locks[k].scope in c.scopes)
    && (forall q :: q in c.conflicts ==> c.conflicts[q].scope in c.scopes)
    && (forall e :: e in c.explanations ==> c.explanations[e].scope in c.scopes)
    && (forall k :: k in c.constraints ==> c.constraints[k].scope in c.scopes)
  }

  lemma SlotPart(c: Calculus)
    ensures ModelsAgree(c) <==>
      && (forall s, x, d :: EntryOf(c, s, x, d) ==>
            d in c.decisions && c.decisions[d].status == Active && c.decisions[d].scope == s && c.decisions[d].subject == x)
      && (forall d :: d in c.decisions && c.decisions[d].status == Active ==>
            EntryOf(c, c.decisions[d].scope, c.decisions[d].subject, d))
  {
    if forall s, x, d :: EntryOf(c, s, x, d) ==>
        d in c.decisions && c.decisions[d].status == Active && c.decisions[d].scope == s && c.decisions[d].subject == x
    {
      forall s, x | s in c.models && x in c.models[s]
        ensures c.models[s][x] in c.decisions && c.decisions[c.models[s][x]].status.Active?
          && c.decisions[c.models[s][x]].scope == s && c.decisions[c.models[s][x]].subject == x
      {
        assert EntryOf(c, s, x, c.models[s][x]);
      }
    }
  }

  lemma OverridePart(c: Calculus)
    ensures OverridesRespected(c) <==>
      forall s, x, d :: EntryOf(c, s, x, d) && Inherits(c, s) && Contradicts(c, s, x, d) ==>
        MayOverride(c, d) && !c.scopes[s].deniesOverride
  {
    hide EffectiveDecisions;
    forall s, x | s in c.models && x in c.models[s] && s in c.scopes && c.scopes[s].parent.Some?
      ensures OverrideAdmitted(c, s, x, EffectiveDecisions(c, c.scopes[s].parent.value)) <==>
        !Contradicts(c, s, x, c.models[s][x]) || (MayOverride(c, c.models[s][x]) && !c.scopes[s].deniesOverride)
    {
      assert EntryOf(c, s, x, c.models[s][x]);
    }
  }

  lemma IdlePart(c: Calculus)
    ensures IdleScopesEmpty(c) <==>
      forall s, x, d :: EntryOf(c, s, x, d) && s in c.scopes ==>
        c.scopes[s].status !in {SuspendedScope, InvalidatedScope, RetiredScope}
  {
    forall s | s in c.models && c.models[s] != NO_MODEL ensures exists x, d :: EntryOf(c, s, x, d) {
      var x :| x in c.models[s];
      assert EntryOf(c, s, x, c.models[s][x]);
    }
  }

  lemma ScopePart(c: Calculus)
    ensures ScopesKnown(c) <==> RecordsInScope(c)
  {
  }

  lemma ReferencePart(c: Calculus)
    ensures ReferencesKnown(c) <==>
      && (forall k :: k in c.locks ==> c.locks[k].obligation in c.obligations && c.locks[k].origin in c.decisions)
      && (forall k :: k in c.constraints && c.constraints[k].strength == Hard && c.constraints[k].status == ActiveConstraint ==>
            c.constraints[k].validation in {ByProof, ByValidation}
            && c.constraints[k].explanation in c.explanations && c.constraints[k].conflict in c.conflicts)
  {
  }

  lemma KnowledgePart(c: Calculus)
    ensures KnowledgeRespected(c) <==>
      forall s, k :: s in c.scopes && k in c.constraints && ViolatedBelow(c, c.constraints[k], s) ==>
        c.constraints[k].conflict in c.conflicts
        && c.conflicts[c.constraints[k].conflict].status !in {Resolved, RejectedConflict}
  {
    hide ViolatedBelow;
  }
}
