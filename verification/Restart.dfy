/** Restarting the search and restarting one scope (`_runtime_v31_recovery.py`). */
module Restart {
  import opened Foundations
  import opened CalculusModel
  import opened Scopes
  import opened Conditions
  import opened Shrinking
  import opened Backjump
  import opened Fairness

  function SuspendAll(decisions: map<Id, Decision>, ids: set<Id>): map<Id, Decision> {
    map d | d in decisions :: if d in ids then decisions[d].(status := Suspended) else decisions[d]
  }

  // ----- restarting the whole search -----

  predicate Keeps(decisions: map<Id, Decision>, d: Id) {
    d in decisions && Retained(decisions[d])
  }

  function RetainedPart(decisions: map<Id, Decision>, model: map<Id, Id>): map<Id, Id> {
    map x | x in model && Keeps(decisions, model[x]) :: model[x]
  }

  function SpeculativePart(decisions: map<Id, Decision>, model: map<Id, Id>): set<Id> {
    set x | x in model && !Keeps(decisions, model[x]) :: model[x]
  }

  /** The decisions of the models that a restart does not retain. */
  function Speculative(c: Calculus): set<Id> {
    set s, d | s in c.models && d in SpeculativePart(c.decisions, c.models[s]) :: d
  }

  function Cleared(c: Calculus): Calculus {
    var models := ModelsWithout(c.models, Speculative(c));
    c.(decisions := SuspendAll(c.decisions, Speculative(c)), models := models,
       activeModel := RootModel(models), searchLocal := map[], epoch := c.epoch + 1)
  }

  ghost function AfterRestart(c: Calculus): Calculus {
    Settled(Cleared(c))
  }

  function Except(model: map<Id, Id>, rest: set<Id>): map<Id, Id> {
    map x | x in model && x !in rest :: model[x]
  }

  lemma SplitStep(decisions: map<Id, Decision>, model: map<Id, Id>, rest: set<Id>, x: Id)
    requires x in model && x in rest
    ensures var before, after := Except(model, rest), Except(model, rest - {x});
      if Keeps(decisions, model[x]) then
        RetainedPart(decisions, after) == RetainedPart(decisions, before)[x := model[x]]
        && SpeculativePart(decisions, after) == SpeculativePart(decisions, before)
      else
        RetainedPart(decisions, after) == RetainedPart(decisions, before)
        && SpeculativePart(decisions, after) == SpeculativePart(decisions, before) + {model[x]}
  {
    var before, after := Except(model, rest), Except(model, rest - {x});
    assert after == before[x := model[x]] && x !in before;
    if !Keeps(decisions, model[x]) {
      assert after[x] in SpeculativePart(decisions, after);
    }
    forall d | d in SpeculativePart(decisions, before) ensures d in SpeculativePart(decisions, after) {
      var y :| y in before && !Keeps(decisions, before[y]) && before[y] == d;
      assert y in after && after[y] == d;
    }
  }

  lemma NothingSplit(decisions: map<Id, Decision>, model: map<Id, Id>)
    ensures RetainedPart(decisions, Except(model, model.Keys)) == NO_MODEL
    ensures SpeculativePart(decisions, Except(model, model.Keys)) == {}
    ensures SuspendAll(decisions, {}) == decisions && Except(model, {}) == model
  {
  }

  /** Splits one scope's model into what is retained and what is suspended. */
  method SplitModel(decisions: map<Id, Decision>, model: map<Id, Id>)
    returns (out: map<Id, Decision>, kept: map<Id, Id>, gone: set<Id>)
    requires model.Values <= decisions.Keys
    ensures kept == RetainedPart(decisions, model) && gone == SpeculativePart(decisions, model)
    ensures out == SuspendAll(decisions, gone)
  {
    hide RetainedPart, SpeculativePart;
    out, kept, gone := decisions, NO_MODEL, {};
    var rest := model.Keys;
    NothingSplit(decisions, model);
    while rest != {}
      invariant rest <= model.Keys
      invariant kept == RetainedPart(decisions, Except(model, rest))
      invariant gone == SpeculativePart(decisions, Except(model, rest))
      invariant out == SuspendAll(decisions, gone)
      decreases rest
    {
      var x :| x in rest;
      SplitStep(decisions, model, rest, x);
      rest := rest - {x};
      var d := model[x];
      assert d in model.Values;
      if Retained(out[d]) {
        kept := kept[x := d];
      } else {
        out := out[d := out[d].(status := Suspended)];
        gone := gone + {d};
      }
    }
  }

  lemma SuspendAllTwice(decisions: map<Id, Decision>, some: set<Id>, more: set<Id>)
    ensures SuspendAll(SuspendAll(decisions, some), more) == SuspendAll(decisions, some + more)
    ensures forall model: map<Id, Id> ::
      SpeculativePart(SuspendAll(decisions, some), model) == SpeculativePart(decisions, model)
      && RetainedPart(SuspendAll(decisions, some), model) == RetainedPart(decisions, model)
  {
  }

  method SuspendSpeculative(c: Calculus)
    returns (decisions: map<Id, Decision>, models: map<Id, map<Id, Id>>, suspended: set<Id>)
    requires SlotsSound(c)
    ensures suspended == Speculative(c)
    ensures decisions == SuspendAll(c.decisions, suspended) && models == ModelsWithout(c.models, suspended)
  {
    decisions, models, suspended := c.decisions, c.models, {};
    var rest := c.models.Keys;
    while rest != {}
      invariant rest <= c.models.Keys == models.Keys
      invariant decisions == SuspendAll(c.decisions, suspended)
      invariant forall s :: s in c.models ==>
        models[s] == if s in rest then c.models[s] else RetainedPart(c.decisions, c.models[s])
      invariant forall d :: d in suspended <==>
        exists s :: s in c.models && s !in rest && d in SpeculativePart(c.decisions, c.models[s])
      decreases rest
    {
      var s :| s in rest;
      rest := rest - {s};
      assert c.models[s].Values <= c.decisions.Keys;
      ghost var before, was := decisions, suspended;
      var kept, gone;
      decisions, kept, gone := SplitModel(decisions, models[s]);
      SuspendAllTwice(c.decisions, was, gone);
      models := models[s := kept];
      suspended := suspended + gone;
    }
    RetainedModels(c, models, suspended);
  }

  lemma RetainedModels(c: Calculus, models: map<Id, map<Id, Id>>, gone: set<Id>)
    requires SlotsSound(c) && models.Keys == c.models.Keys && gone == Speculative(c)
    requires forall s :: s in c.models ==> models[s] == RetainedPart(c.decisions, c.models[s])
    ensures models == ModelsWithout(c.models, gone)
  {
    forall s | s in models ensures models[s] == Without(c.models[s], gone) {
      forall x | x in c.models[s] ensures Keeps(c.decisions, c.models[s][x]) <==> c.models[s][x] !in gone {
        assert !Keeps(c.decisions, c.models[s][x]) ==> c.models[s][x] in SpeculativePart(c.decisions, c.models[s]);
      }
    }
  }

  lemma RestartRetires(c: Calculus)
    requires Indexed(c)
    ensures Retires(c, Cleared(c), Speculative(c)) && Indexed(Cleared(c))
  {
    RetiringKeepsSlots(c, Cleared(c), Speculative(c));
  }

  lemma SpeculativeIffNotRetained(c: Calculus, d: Id)
    requires Slotted(c) && IsActive(c, d)
    ensures d in Speculative(c) <==> !Retained(c.decisions[d])
  {
    var s, x := c.decisions[d].scope, c.decisions[d].subject;
    assert Slot(c.models, s, x) == Some(d);
    assert !Retained(c.decisions[d]) ==> d in SpeculativePart(c.decisions, c.models[s]);
  }

  /** A restart keeps the indexes and leaves exactly the retained decisions ACTIVE. */
  lemma RestartKeepsIndexes(c: Calculus)
    requires Indexed(c)
    ensures Indexed(AfterRestart(c))
    ensures forall d :: IsActive(AfterRestart(c), d) <==> IsActive(c, d) && Retained(c.decisions[d])
  {
    RestartRetires(c);
    SettledKeepsIndexes(Cleared(c));
    forall d ensures IsActive(AfterRestart(c), d) <==> IsActive(c, d) && Retained(c.decisions[d]) {
      if IsActive(c, d) {
        SpeculativeIffNotRetained(c, d);
      }
    }
  }

  /** It keeps ACTIVE parents exactly when retained ACTIVE decisions have only retained parents. */
  lemma RestartKeepsParents(c: Calculus)
    requires Indexed(c) && ParentsActive(c)
    ensures ParentsActive(AfterRestart(c)) <==>
      forall d, p :: IsActive(c, d) && Retained(c.decisions[d]) && p in c.decisions[d].parents ==>
        Retained(c.decisions[p])
  {
    RestartKeepsIndexes(c);
    var c' := AfterRestart(c);
    SettledFrame(Cleared(c));
    assert forall d, p :: IsActive(c, d) && p in c.decisions[d].parents ==> IsActive(c, p);
    assert forall d :: d in c.decisions ==> c'.decisions[d].parents == c.decisions[d].parents;
  }

  lemma RestartWithdraws(c: Calculus)
    requires Indexed(c)
    ensures Withdraws(c, Cleared(c), Speculative(c))
  {
    hide Withdraws, Retires;
    RestartRetires(c);
    RetiringWithdraws(c, Cleared(c), Speculative(c));
  }

  /** The check after a restart cannot fire from a state that violates nothing, when guards are free
      of `not` and the restart bares nothing where there is knowledge: no suspended decision of a
      scope overrides a retained one, with another value, that the scope inherits. */
  lemma RestartCheckPasses(c: Calculus)
    requires Indexed(c) && NegationFreeGuards(c) && Violated(c) == {}
    requires forall k, x :: k in c.constraints ==> !Bares(c, Speculative(c), c.constraints[k].scope, x)
    ensures Violated(AfterRestart(c)) == {}
  {
    hide Withdraws, Bares, Indexed;
    RestartWithdraws(c);
    ShrinkingIsSafe(c, Cleared(c), Speculative(c));
    SettledKeepsIndexes(Cleared(c));
  }

  /** The restart of `c` with other knowledge passes its check. */
  ghost predicate RestartSafe(c: Calculus, knowledge: map<Id, Constraint>) {
    GuardsFree(knowledge) && Violated(c.(constraints := knowledge)) == {} ==>
      Violated(AfterRestart(c.(constraints := knowledge))) == {}
  }

  /** Exactly: whatever clean knowledge without `not` there is, the restart passes its check, if and
      only if it bares nothing in any scope. */
  lemma RestartCheckExactly(c: Calculus)
    requires Indexed(c)
    ensures (forall knowledge :: RestartSafe(c, knowledge)) <==> NothingBared(c, Speculative(c))
  {
    hide Withdraws, NothingBared, Indexed, Settled, Violated;
    RestartWithdraws(c);
    ShrinkingSafeExactly(c, Cleared(c), Speculative(c));
    forall knowledge ensures RestartSafe(c, knowledge) == SafeFor(c, Cleared(c), knowledge) {
      assert Cleared(c.(constraints := knowledge)) == Cleared(c).(constraints := knowledge);
      SettledKeepsIndexes(Cleared(c).(constraints := knowledge));
    }
  }

  // ----- restarting one scope -----

  /** The speculative decisions of a set of scopes. */
  function SpeculativeIn(c: Calculus, targets: set<Id>): set<Id> {
    set d | d in c.decisions && IsActive(c, d) && c.decisions[d].scope in targets && !Retained(c.decisions[d])
  }

  function ScopeCleared(c: Calculus, targets: set<Id>, sequence: nat): Calculus {
    var gone := SpeculativeIn(c, targets);
    c.(decisions := SuspendAll(c.decisions, gone),
       models := map s | s in c.models :: if s in targets then Without(c.models[s], gone) else c.models[s],
       obligations := map o | o in c.obligations ::
         if c.obligations[o].scope in targets then ReopenObligation(c.obligations[o], sequence)
         else c.obligations[o],
       searchLocal := map[], epoch := c.epoch + 1)
  }

  ghost function AfterScopeRestart(c: Calculus, scope: Id, sequence: nat): Calculus {
    Settled(ScopeCleared(c, Subtree(c.scopes, scope), sequence))
  }

  method SuspendScopes(c: Calculus, targets: set<Id>) returns (decisions: map<Id, Decision>, suspended: set<Id>)
    ensures suspended == SpeculativeIn(c, targets) && decisions == SuspendAll(c.decisions, suspended)
  {
    decisions, suspended := c.decisions, {};
    var rest := c.decisions.Keys;
    while rest != {}
      invariant rest <= c.decisions.Keys
      invariant suspended == SpeculativeIn(c, targets) - rest
      invariant decisions == SuspendAll(c.decisions, suspended)
      decreases rest
    {
      var d :| d in rest;
      rest := rest - {d};
      if decisions[d].status.Active? && decisions[d].scope in targets && !Retained(decisions[d]) {
        decisions := decisions[d := decisions[d].(status := Suspended)];
        suspended := suspended + {d};
      }
    }
  }

  lemma ScopeRestartRetires(c: Calculus, scope: Id, sequence: nat)
    requires Indexed(c) && scope in c.scopes && scope != ROOT
    ensures var targets := Subtree(c.scopes, scope);
      && Retires(c, ScopeCleared(c, targets, sequence), SpeculativeIn(c, targets))
      && Indexed(ScopeCleared(c, targets, sequence))
  {
    hide Subtree, Registered, SlotsComplete;
    var targets := Subtree(c.scopes, scope);
    var gone := SpeculativeIn(c, targets);
    var c' := ScopeCleared(c, targets, sequence);
    SubtreeSparesRoot(c.scopes, scope);
    forall s | s in c.models && s !in targets ensures Without(c.models[s], gone) == c.models[s] {
    }
    assert c'.models == ModelsWithout(c.models, gone);
    RetiringKeepsSlots(c, c', gone);
  }

  /** Restarting a scope keeps the indexes and the root model, and changes no decision but the
      speculative ones of its subtree. */
  lemma ScopeRestartKeepsIndexes(c: Calculus, scope: Id, sequence: nat)
    requires Indexed(c) && scope in c.scopes && scope != ROOT
    ensures Indexed(AfterScopeRestart(c, scope, sequence))
    ensures AfterScopeRestart(c, scope, sequence).activeModel == c.activeModel
    ensures forall d :: d in c.decisions && d !in SpeculativeIn(c, Subtree(c.scopes, scope)) ==>
      AfterScopeRestart(c, scope, sequence).decisions[d] == c.decisions[d]
  {
    ScopeRestartRetires(c, scope, sequence);
    SettledFrame(ScopeCleared(c, Subtree(c.scopes, scope), sequence));
    SettledKeepsIndexes(ScopeCleared(c, Subtree(c.scopes, scope), sequence));
  }

  /** It keeps ACTIVE parents exactly when nothing that stays ACTIVE has a parent suspended there. */
  lemma ScopeRestartKeepsParents(c: Calculus, scope: Id, sequence: nat)
    requires Indexed(c) && ParentsActive(c) && scope in c.scopes && scope != ROOT
    ensures ParentsActive(AfterScopeRestart(c, scope, sequence)) <==>
      forall d :: IsActive(c, d) && d !in SpeculativeIn(c, Subtree(c.scopes, scope)) ==>
        c.decisions[d].parents !! SpeculativeIn(c, Subtree(c.scopes, scope))
  {
    var targets := Subtree(c.scopes, scope);
    ScopeRestartRetires(c, scope, sequence);
    RetiringKeepsParents(c, ScopeCleared(c, targets, sequence), SpeculativeIn(c, targets));
    SettledKeepsIndexes(ScopeCleared(c, targets, sequence));
  }

  /** The check after a scope restart cannot fire under the same conditions. */
  lemma ScopeRestartCheckPasses(c: Calculus, scope: Id, sequence: nat)
    requires Indexed(c) && scope in c.scopes && scope != ROOT && NegationFreeGuards(c) && Violated(c) == {}
    requires forall k, x :: k in c.constraints ==>
      !Bares(c, SpeculativeIn(c, Subtree(c.scopes, scope)), c.constraints[k].scope, x)
    ensures Violated(AfterScopeRestart(c, scope, sequence)) == {}
  {
    hide Withdraws, Bares, Retires;
    var targets := Subtree(c.scopes, scope);
    var c' := ScopeCleared(c, targets, sequence);
    ScopeRestartRetires(c, scope, sequence);
    RetiringWithdraws(c, c', SpeculativeIn(c, targets));
    ShrinkingIsSafe(c, c', SpeculativeIn(c, targets));
    SettledKeepsIndexes(c');
  }
}
