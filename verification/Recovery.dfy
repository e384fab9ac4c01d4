/** The conflict backjump across scopes (`backjump_conflict` of `_runtime_v31_recovery.py`). */
module Recovery {
  import opened Foundations
  import opened CalculusModel
  import opened Scopes
  import opened Conditions
  import opened Shrinking
  import opened DecisionGraph
  import opened Backjump
  import opened Fairness
  import opened ScopeImpact

  /** The scopes whose subtree a pivot takes with it, and those it only puts in doubt. A root pivot
      leaves the hierarchy alone. */
  ghost function TakenScopes(c: Calculus, pivot: Id): set<Id>
    requires pivot in c.decisions
  {
    var s := c.decisions[pivot].scope;
    if s == ROOT then {} else InvalidatedScopes(c.scopes, c.scopeDeps, s)
  }

  ghost function DoubtedScopes(c: Calculus, pivot: Id): set<Id>
    requires pivot in c.decisions
  {
    var s := c.decisions[pivot].scope;
    if s == ROOT then {} else Impacted(c.scopes, c.scopeDeps, s) - InvalidatedScopes(c.scopes, c.scopeDeps, s)
  }

  /** The causal plan widened by the scopes it takes and doubts. */
  function Widened(c: Calculus, plan: BackjumpPlan, taken: set<Id>, doubted: set<Id>): BackjumpPlan {
    var invalidated := plan.invalidated + set d | d in c.decisions && IsActive(c, d) && c.decisions[d].scope in taken;
    plan.(invalidated := invalidated,
          obligations := plan.obligations + set o | o in c.obligations &&
            (c.obligations[o].scope in taken + doubted || c.obligations[o].decisionDeps * invalidated != {}))
  }

  function MarkScopes(c: Calculus, marked: set<Id>, sequence: nat): Calculus {
    c.(scopes := map s | s in c.scopes ::
      if s in marked then c.scopes[s].(status := RevalidateScope, updatedAt := sequence) else c.scopes[s])
  }

  ghost function Recovered(c: Calculus, plan: BackjumpPlan, sequence: nat): Calculus
    requires plan.pivot.Some? && plan.pivot.value in c.decisions
    requires Applicable(c, WidenedPlan(c, plan))
  {
    var taken, doubted := TakenScopes(c, plan.pivot.value), DoubtedScopes(c, plan.pivot.value);
    MarkScopes(AfterBackjump(c, WidenedPlan(c, plan), sequence), taken - {ROOT} + doubted, sequence)
  }

  ghost function WidenedPlan(c: Calculus, plan: BackjumpPlan): BackjumpPlan
    requires plan.pivot.Some? && plan.pivot.value in c.decisions
  {
    Widened(c, plan, TakenScopes(c, plan.pivot.value), DoubtedScopes(c, plan.pivot.value))
  }

  method MarkAll(c: Calculus, marked: set<Id>, sequence: nat) returns (out: Calculus)
    requires marked <= c.scopes.Keys
    ensures out == MarkScopes(c, marked, sequence)
  {
    var scopes := c.scopes;
    var rest := marked;
    while rest != {}
      invariant rest <= marked && scopes.Keys == c.scopes.Keys
      invariant forall s :: s in c.scopes ==>
        scopes[s] == if s in marked && s !in rest
                     then c.scopes[s].(status := RevalidateScope, updatedAt := sequence) else c.scopes[s]
      decreases rest
    {
      var s :| s in rest;
      rest := rest - {s};
      scopes := scopes[s := scopes[s].(status := RevalidateScope, updatedAt := sequence)];
    }
    out := c.(scopes := scopes);
  }

  // ----- what the recovery keeps -----

  lemma WideningByNothing(c: Calculus, plan: BackjumpPlan)
    requires plan.obligations == ImpactedObligations(c, plan.invalidated)
    ensures Widened(c, plan, {}, {}) == plan
  {
    assert Widened(c, plan, {}, {}).invalidated == plan.invalidated;
    assert Widened(c, plan, {}, {}).obligations == plan.obligations;
  }

  lemma WidenedApplicable(c: Calculus, cid: Id, eid: Id, plan: BackjumpPlan)
    requires Registered(c) && cid in c.conflicts && eid in c.explanations
    requires IsPlan(c, cid, eid, plan) && plan.pivot.Some?
    ensures plan.pivot.value in c.decisions && Applicable(c, WidenedPlan(c, plan))
    ensures c.decisions[plan.pivot.value].scope == ROOT ==> WidenedPlan(c, plan) == plan
  {
    PlanIsApplicable(c, cid, eid, plan);
    if c.decisions[plan.pivot.value].scope == ROOT {
      WideningByNothing(c, plan);
    }
  }

  lemma MarkingKeepsIndexes(c: Calculus, marked: set<Id>, sequence: nat)
    requires Indexed(c) && ROOT !in marked
    ensures Indexed(MarkScopes(c, marked, sequence))
  {
    var c' := MarkScopes(c, marked, sequence);
    assert SlotsSound(c') == SlotsSound(c) && SlotsComplete(c') == SlotsComplete(c);
  }

  lemma RecoveryRetires(c: Calculus, plan: BackjumpPlan, sequence: nat)
    requires Indexed(c) && SaneDependencies(c.scopes, c.scopeDeps)
    requires plan.pivot.Some? && IsActive(c, plan.pivot.value) && Applicable(c, WidenedPlan(c, plan))
    ensures Retires(c, Recovered(c, plan, sequence), WidenedPlan(c, plan).invalidated)
    ensures Indexed(Recovered(c, plan, sequence))
  {
    var pivot := plan.pivot.value;
    assert Slot(c.models, c.decisions[pivot].scope, c.decisions[pivot].subject) == Some(pivot);
    var jumped := AfterBackjump(c, WidenedPlan(c, plan), sequence);
    BackjumpRetires(c, WidenedPlan(c, plan), sequence);
    BackjumpKeepsIndexes(c, WidenedPlan(c, plan), sequence);
    var marked := TakenScopes(c, pivot) - {ROOT} + DoubtedScopes(c, pivot);
    if c.decisions[pivot].scope != ROOT {
      ImpactSparesRoot(c.scopes, c.scopeDeps, c.decisions[pivot].scope);
    }
    MarkingKeepsIndexes(jumped, marked, sequence);
  }

  /** The recovery keeps the indexes for every pivot. ACTIVE parents survive a root pivot always, and
      any other pivot exactly when no surviving decision has a parent among the widened closure:
      the scopes taken along are not closed under dependents again. */
  lemma RecoveryKeepsIndexes(c: Calculus, cid: Id, eid: Id, plan: BackjumpPlan, sequence: nat)
    requires Indexed(c) && SaneDependencies(c.scopes, c.scopeDeps)
    requires cid in c.conflicts && eid in c.explanations && IsPlan(c, cid, eid, plan) && plan.pivot.Some?
    requires Applicable(c, WidenedPlan(c, plan))
    ensures Indexed(Settled(Recovered(c, plan, sequence)))
    ensures ParentsActive(c) ==>
      (ParentsActive(Settled(Recovered(c, plan, sequence))) <==>
       forall d :: IsActive(c, d) && d !in WidenedPlan(c, plan).invalidated ==>
         c.decisions[d].parents !! WidenedPlan(c, plan).invalidated)
    ensures ParentsActive(c) && c.decisions[plan.pivot.value].scope == ROOT ==>
      ParentsActive(Settled(Recovered(c, plan, sequence)))
  {
    var c' := Recovered(c, plan, sequence);
    RecoveryRetires(c, plan, sequence);
    SettledKeepsIndexes(c');
    if ParentsActive(c) {
      RetiringKeepsParents(c, c', WidenedPlan(c, plan).invalidated);
      if c.decisions[plan.pivot.value].scope == ROOT {
        WidenedApplicable(c, cid, eid, plan);
        PlanIsApplicable(c, cid, eid, plan);
        forall d | IsActive(c, d) && d !in plan.invalidated ensures c.decisions[d].parents !! plan.invalidated {
          assert forall p :: p in c.decisions[d].parents ==> (p, d) in DependentEdges(c);
        }
      }
    }
  }

  /** Unrelated siblings are preserved: a decision outside the pivot's closure and outside the scopes
      taken keeps its record, and a scope neither taken nor doubted keeps its own. */
  lemma RecoveryPreservesSiblings(c: Calculus, plan: BackjumpPlan, sequence: nat, d: Id, s: Id)
    requires plan.pivot.Some? && plan.pivot.value in c.decisions && Applicable(c, WidenedPlan(c, plan))
    ensures d in c.decisions && d !in plan.invalidated && c.decisions[d].scope !in TakenScopes(c, plan.pivot.value) ==>
      var c' := Settled(Recovered(c, plan, sequence)); d in c'.decisions && c'.decisions[d] == c.decisions[d]
    ensures s in c.scopes && s !in TakenScopes(c, plan.pivot.value) + DoubtedScopes(c, plan.pivot.value) ==>
      var c' := Settled(Recovered(c, plan, sequence)); s in c'.scopes && c'.scopes[s] == c.scopes[s]
  {
    hide TakenScopes, DoubtedScopes, Settled;
    SettledFrame(Recovered(c, plan, sequence));
  }

  /** With a root pivot the recovery is the plain backjump, settled. */
  lemma RootRecovery(c: Calculus, cid: Id, eid: Id, plan: BackjumpPlan, sequence: nat)
    requires Indexed(c) && cid in c.conflicts && eid in c.explanations && IsPlan(c, cid, eid, plan)
    requires plan.pivot.Some? && c.decisions[plan.pivot.value].scope == ROOT
    ensures Applicable(c, WidenedPlan(c, plan)) && Applicable(c, plan)
    ensures Recovered(c, plan, sequence) == AfterBackjump(c, plan, sequence)
  {
    hide IsPlan;
    WidenedApplicable(c, cid, eid, plan);
    assert MarkScopes(AfterBackjump(c, plan, sequence), {}, sequence).scopes == c.scopes;
    assert {} - {ROOT} + {} == {};
  }

  // ----- effective values after a recovery -----

  /** What a recovery takes out of effect: the widened set, and the models of the doubted scopes,
      which stay in place but no longer count. */
  ghost function RecoveryHides(c: Calculus, plan: BackjumpPlan): set<Id>
    requires plan.pivot.Some? && plan.pivot.value in c.decisions
  {
    WidenedPlan(c, plan).invalidated
    + set s, x | s in DoubtedScopes(c, plan.pivot.value) && s in c.models && x in c.models[s] :: c.models[s][x]
  }

  lemma {:induction false} MarkedAncestors(c: Calculus, marked: set<Id>, sequence: nat, scope: Id, seen: set<Id>)
    ensures Ancestors(MarkScopes(c, marked, sequence).scopes, scope, seen) == Ancestors(c.scopes, scope, seen)
    decreases c.scopes.Keys - seen
  {
    var scopes' := MarkScopes(c, marked, sequence).scopes;
    assert scopes'.Keys == c.scopes.Keys;
    if scope in c.scopes && scope !in seen && c.scopes[scope].parent.Some? {
      MarkedAncestors(c, marked, sequence, c.scopes[scope].parent.value, seen + {scope});
    }
  }

  lemma {:induction false} MarkedChainStart(c: Calculus, marked: set<Id>, sequence: nat, chain: seq<Id>)
    ensures ChainStart(MarkScopes(c, marked, sequence).scopes, chain) == ChainStart(c.scopes, chain)
  {
    if |chain| > 1 {
      MarkedChainStart(c, marked, sequence, chain[..|chain| - 1]);
    }
  }

  /** Marking scopes moves nothing in the hierarchy. */
  lemma MarkedChain(c: Calculus, marked: set<Id>, sequence: nat, scope: Id)
    ensures InheritanceChain(MarkScopes(c, marked, sequence).scopes, scope) == InheritanceChain(c.scopes, scope)
  {
    MarkedAncestors(c, marked, sequence, scope, {});
    match Ancestors(c.scopes, scope)
    case Err(_) =>
    case Ok(chain) => MarkedChainStart(c, marked, sequence, chain);
  }

  lemma RecoveredLayer(c: Calculus, plan: BackjumpPlan, sequence: nat, s: Id)
    requires Indexed(c) && plan.pivot.Some? && plan.pivot.value in c.decisions && Applicable(c, WidenedPlan(c, plan))
    requires ROOT !in TakenScopes(c, plan.pivot.value) + DoubtedScopes(c, plan.pivot.value)
    ensures Layer(Recovered(c, plan, sequence), s) == Without(Layer(c, s), RecoveryHides(c, plan))
  {
    hide TakenScopes, DoubtedScopes, Applicable;
    var c' := Recovered(c, plan, sequence);
    if s in c.scopes && c.scopes[s].status.ActiveScope? {
      assert Layer(c, s) == c.models[s];
      forall x | x in c.models[s]
        ensures IsActive(c, c.models[s][x]) && c.decisions[c.models[s][x]].scope == s
      {
      }
      LayerEntries(c, plan, s);
    }
  }

  /** Of an ACTIVE scope's entries exactly these are hidden. */
  lemma LayerEntries(c: Calculus, plan: BackjumpPlan, s: Id)
    requires Indexed(c) && plan.pivot.Some? && plan.pivot.value in c.decisions && s in c.models
    ensures s in TakenScopes(c, plan.pivot.value) + DoubtedScopes(c, plan.pivot.value) ==>
      Without(c.models[s], RecoveryHides(c, plan)) == NO_MODEL
    ensures s !in TakenScopes(c, plan.pivot.value) + DoubtedScopes(c, plan.pivot.value) ==>
      Without(c.models[s], RecoveryHides(c, plan)) == Without(c.models[s], WidenedPlan(c, plan).invalidated)
  {
    hide TakenScopes, DoubtedScopes;
    forall x | x in c.models[s]
      ensures s in TakenScopes(c, plan.pivot.value) + DoubtedScopes(c, plan.pivot.value) ==>
        c.models[s][x] in RecoveryHides(c, plan)
      ensures s !in TakenScopes(c, plan.pivot.value) + DoubtedScopes(c, plan.pivot.value) ==>
        (c.models[s][x] in RecoveryHides(c, plan) <==> c.models[s][x] in WidenedPlan(c, plan).invalidated)
    {
      var d := c.models[s][x];
      assert IsActive(c, d) && c.decisions[d].scope == s;
    }
  }

  lemma RecoveryWithdraws(c: Calculus, plan: BackjumpPlan, sequence: nat)
    requires Indexed(c) && SaneDependencies(c.scopes, c.scopeDeps)
    requires plan.pivot.Some? && IsActive(c, plan.pivot.value) && Applicable(c, WidenedPlan(c, plan))
    ensures Withdraws(c, Recovered(c, plan, sequence), RecoveryHides(c, plan))
  {
    hide TakenScopes, DoubtedScopes, Indexed, Applicable;
    var pivot := plan.pivot.value;
    var c' := Recovered(c, plan, sequence);
    RecoveryRetires(c, plan, sequence);
    RootUnmarked(c, pivot);
    forall s ensures Layer(c', s) == Without(Layer(c, s), RecoveryHides(c, plan))
      && InheritanceChain(c'.scopes, s) == InheritanceChain(c.scopes, s)
    {
      RecoveredLayer(c, plan, sequence, s);
      var jumped := AfterBackjump(c, WidenedPlan(c, plan), sequence);
      MarkedChain(jumped, TakenScopes(c, pivot) - {ROOT} + DoubtedScopes(c, pivot), sequence, s);
    }
  }

  lemma RootUnmarked(c: Calculus, pivot: Id)
    requires Indexed(c) && SaneDependencies(c.scopes, c.scopeDeps) && IsActive(c, pivot)
    ensures ROOT !in TakenScopes(c, pivot) + DoubtedScopes(c, pivot)
  {
    assert Slot(c.models, c.decisions[pivot].scope, c.decisions[pivot].subject) == Some(pivot);
    if c.decisions[pivot].scope != ROOT {
      ImpactSparesRoot(c.scopes, c.scopeDeps, c.decisions[pivot].scope);
      InvalidatedAreImpacted(c.scopes, c.scopeDeps, c.decisions[pivot].scope);
    }
  }

  /** For any pivot, in any scope: after the recovery an explained literal holds in the conflict's
      scope exactly when its value is reinstated by what the scope inherits. A constraint containing
      the explained literals therefore stays violated only if all of them are. */
  lemma RecoveryResolvesExactly(c: Calculus, plan: BackjumpPlan, sequence: nat, scope: Id, literals: seq<Literal>)
    requires Indexed(c) && SaneDependencies(c.scopes, c.scopeDeps)
    requires plan.pivot.Some? && IsActive(c, plan.pivot.value) && Applicable(c, WidenedPlan(c, plan))
    requires forall l :: l in literals ==> Effective(c, scope, l)
    ensures (forall l :: l in literals ==> LiteralHolds(l, EffectiveValues(Settled(Recovered(c, plan, sequence)), scope)))
      <==> (forall l :: l in literals ==> Reinstated(c, RecoveryHides(c, plan), scope, l))
  {
    hide Indexed, Withdraws, Recovered, RecoveryHides, WidenedPlan, Applicable, Settled, Effective, Reinstated, LiteralHolds,
      EffectiveValues;
    var c', hidden := Recovered(c, plan, sequence), RecoveryHides(c, plan);
    RecoveryWithdraws(c, plan, sequence);
    SettledValues(c', scope);
    forall l | l in literals
      ensures LiteralHolds(l, EffectiveValues(c', scope)) <==> Reinstated(c, hidden, scope, l)
    {
      LiteralAfter(c, c', hidden, scope, l);
    }
  }

  lemma SettledValues(c: Calculus, scope: Id)
    ensures EffectiveValues(Settled(c), scope) == EffectiveValues(c, scope)
  {
    SettledFrame(c);
    EffectiveFrame(c, Settled(c), scope);
  }

  /** The violation check after a recovery cannot fire, for any pivot, when guards are free of `not`,
      the recovery bares nothing where there is knowledge, and every violated constraint is relieved. */
  lemma RecoveryCheckPasses(c: Calculus, eid: Id, plan: BackjumpPlan, sequence: nat)
    requires Indexed(c) && SaneDependencies(c.scopes, c.scopeDeps) && NegationFreeGuards(c) && eid in c.explanations
    requires plan.pivot.Some? && IsActive(c, plan.pivot.value) && Applicable(c, WidenedPlan(c, plan))
    requires forall k, x :: k in c.constraints ==> !Bares(c, RecoveryHides(c, plan), c.constraints[k].scope, x)
    requires forall k :: k in Violated(c) ==>
      Relieved(c, c.explanations[eid].literals, RecoveryHides(c, plan), c.constraints[k])
    ensures Violated(Settled(Recovered(c, plan, sequence))) == {}
  {
    hide Indexed, Withdraws, Relieved, Bares, RecoveryHides, Settled;
    RecoveryWithdraws(c, plan, sequence);
    WithdrawalCleans(c, Recovered(c, plan, sequence), c.explanations[eid].literals, RecoveryHides(c, plan));
    SettledKeepsIndexes(Recovered(c, plan, sequence));
  }
}
