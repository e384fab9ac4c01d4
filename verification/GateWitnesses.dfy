/** Candidates that pass the exposure gate although the overdue root obligation stays as far from being
    enabled as before: the gate reads a root obligation in the values of every scope in turn
    (`Fairness.GateExactly`). */
module GateWitnesses {
  import opened Foundations
  import opened CalculusModel
  import opened Scopes
  import opened Conditions
  import opened Fairness
  import opened Staging
  import opened Commits
  import opened SimpleStates
  import opened Witnesses

  /** `c` ten epochs on, with one mandatory root obligation that nobody has considered since, under a
      policy that blocks planning. */
  function Neglected(c: Calculus, condition: Condition): Calculus {
    c.(epoch := 10, policy := FairnessPolicy(2, 2, 2, 2, BlockPlanning),
       obligations := map["ob" := Obligation(condition, Available, {}, {}, {}, {}, true, true, 0, None, ROOT)],
       fairness := map["ob" := NewRecord(0)])
  }

  lemma NeglectedOverdue(c: Calculus, condition: Condition)
    ensures Reported(Neglected(c, condition), Overdue) == {"ob"}
    ensures OverdueRecords(Audited(Neglected(c, condition))) == {"ob"}
  {
    var n := Neglected(c, condition);
    OverdueExactly(n, "ob");
    assert AuditedRecords(n).Keys == {"ob"};
  }

  lemma NeglectedCommits(c: Calculus, condition: Condition)
    requires Indexed(c) && Simple(c)
    ensures Indexed(Neglected(c, condition)) && CommitChecks(Neglected(c, condition))
  {
    hide Indexed, CommitChecks, Simple;
    SameIndexes(c, Neglected(c, condition));
    NeglectedSimple(c, condition);
    SimpleCommits(Neglected(c, condition));
  }

  lemma NeglectedSimple(c: Calculus, condition: Condition)
    requires Simple(c)
    ensures Simple(Neglected(c, condition))
  {
  }

  /** The state after selecting a fresh decision. */
  function After(c: Calculus, condition: Condition, d: Id): Calculus
    requires d in c.decisions
  {
    Selected(Neglected(c, condition), d, 1)
  }

  ghost function AfterAudit(c: Calculus, condition: Condition, d: Id): Calculus
    requires d in c.decisions
  {
    Selected(Audited(Neglected(c, condition)), d, 1)
  }

  /** Selecting `d` is staged as soon as the condition turns true in the values of some scope. */
  lemma TurningAnywhereStages(c: Calculus, condition: Condition, d: Id, s: Id)
    requires Indexed(c) && Free(c, d) && c.constraints == map[] && s in c.scopes
    requires ConditionHolds(condition, EffectiveValues(After(c, condition, d), s))
    requires !ConditionHolds(condition, EffectiveValues(c, s))
    ensures var n := Neglected(c, condition);
      d in n.decisions && Stages(n, Target(n, d), 1, Finished(AfterAudit(c, condition, d)))
  {
    hide Stages, Settled, Indexed, EffectiveValues, Audited, ConditionHolds;
    assert d in c.decisions;
    hide Free;
    var n, act := Neglected(c, condition), AfterAudit(c, condition, d);
    SameIndexes(c, n);
    FreeToo(c, n, d);
    NeglectedOverdue(c, condition);
    AuditedOnly(n);
    EffectiveFrame(c, n, s);
    EffectiveFrame(After(c, condition, d), act, s);
    TurningUnlocks(n, act, s);
    NoViolation(act);
    assert Accepted(n, act);
    assert Slotted(n) by { IndexedSlotted(n); }
    FreeTargetStages(n, d, 1);
  }

  lemma TurningUnlocks(n: Calculus, act: Calculus, s: Id)
    requires act.scopes == n.scopes && act.obligations == n.obligations && s in n.scopes && OverdueRecords(act) == {"ob"}
    requires "ob" in n.obligations && n.obligations["ob"].scope == ROOT
    requires ConditionHolds(n.obligations["ob"].activation, EffectiveValues(act, s))
    requires !ConditionHolds(n.obligations["ob"].activation, EffectiveValues(n, s))
    ensures GatePasses(act, PreviousValues(n))
  {
    hide EffectiveValues, ConditionHolds;
    assert Unlocks(act, PreviousValues(n), "ob");
    UnlockingPasses(act, PreviousValues(n), "ob", s);
  }

  lemma FreeToo(c: Calculus, n: Calculus, d: Id)
    requires Free(c, d) && SameProjection(c, n) && n.decisions == c.decisions
    ensures Free(n, d)
  {
    EffectiveFrame(c, n, c.decisions[d].scope);
  }

  /** The state reached is committed, and its values are those of the selection. */
  lemma SelectionCommits(c: Calculus, condition: Condition, d: Id)
    requires Indexed(c) && Simple(c) && d in c.decisions && SelectionSeparate(c, d) && c.scopeDeps == map[]
    requires Stages(Neglected(c, condition), Target(c, d), 1, Finished(AfterAudit(c, condition, d)))
    ensures CommitChecks(Finished(AfterAudit(c, condition, d)))
    ensures forall s :: EffectiveValues(Finished(AfterAudit(c, condition, d)), s) == EffectiveValues(After(c, condition, d), s)
  {
    hide Stages, Settled, Indexed, EffectiveValues, Audited, CommitChecks, Simple, SelectionSeparate, Finished, ActivateOne;
    var n, act := Neglected(c, condition), AfterAudit(c, condition, d);
    SameIndexes(c, n);
    AuditedOnly(n);
    StageKeepsIndexes(n, Target(c, d), 1, Finished(act));
    SelectedAside(c, condition, d);
    SelectionSimple(c, NextEpoch(act), d);
    SimpleFinishes(act);
    FinishedValues(After(c, condition, d), act);
  }

  lemma SelectedAside(c: Calculus, condition: Condition, d: Id)
    requires d in c.decisions
    ensures var act := AfterAudit(c, condition, d);
      && act == Selected(c, d, 1).(epoch := 10, policy := act.policy, obligations := act.obligations, fairness := act.fairness)
      && act.obligations == Neglected(c, condition).obligations && act.scopeDeps == c.scopeDeps
      && SameProjection(After(c, condition, d), act)
  {
    hide Audited;
    AuditedOnly(Neglected(c, condition));
  }

  lemma SimpleFinishes(act: Calculus)
    requires Indexed(Finished(act)) && Simple(NextEpoch(act)) && act.scopeDeps == map[]
    ensures CommitChecks(Finished(act))
  {
    hide Settled, Indexed, CommitChecks, Simple;
    FinishedSound(act);
    SameIndexes(act, NextEpoch(act));
    SimpleCommits(NextEpoch(act));
    SettledCommits(NextEpoch(act));
  }

  lemma FinishedValues(c: Calculus, act: Calculus)
    requires SameProjection(c, act)
    ensures forall s :: EffectiveValues(Finished(act), s) == EffectiveValues(c, s)
  {
    hide EffectiveValues, Settled;
    SettledFrame(NextEpoch(act));
    forall s ensures EffectiveValues(Finished(act), s) == EffectiveValues(c, s) {
      EffectiveFrame(c, Finished(act), s);
    }
  }

  /** The new assignment of `d` keeps the subjects of the root apart from those below it. */
  ghost predicate SelectionSeparate(c: Calculus, d: Id)
    requires d in c.decisions
  {
    var r := c.decisions[d];
    r.scope in c.models
    && if r.scope == ROOT then forall s :: s in c.models ==> r.subject !in c.models[s]
       else r.subject !in c.activeModel
  }

  lemma SelectionSimple(c: Calculus, act: Calculus, d: Id)
    requires Indexed(c) && Simple(c) && d in c.decisions && SelectionSeparate(c, d)
    requires var chosen := Selected(c, d, 1);
      act == chosen.(epoch := act.epoch, policy := act.policy, obligations := act.obligations, fairness := act.fairness)
    requires forall o :: o in act.obligations ==> act.obligations[o].scope == ROOT
    ensures Simple(act)
  {
    hide Disjoint, SlotsSound, SlotsComplete, Registered;
    SelectionDisjoint(c, act, d);
  }

  lemma SelectionDisjoint(c: Calculus, act: Calculus, d: Id)
    requires Mirror(c) && Disjoint(c) && d in c.decisions && SelectionSeparate(c, d)
    requires act.models == Selected(c, d, 1).models && act.activeModel == Selected(c, d, 1).activeModel
    ensures Disjoint(act)
  {
  }

  // ----- a decision of a child scope -----

  function TakesX(): Condition {
    Holds(Literal("x", EQ, "1", None))
  }

  /** Scope "s" may set x. */
  function ChildSetsX(): Calculus {
    Plain(map["e" := Choice("x", Proposed, {}, "s", false)], [], map[ROOT := TopScope(), "s" := SubScope()],
          map[ROOT := NO_MODEL, "s" := NO_MODEL])
  }

  /** The obligation waits for x = 1 at the root. A child scope sets x for itself, which opens the gate
      and leaves the root as it was. */
  lemma ChildOpensGate() returns (c': Calculus)
    ensures var c := Neglected(ChildSetsX(), TakesX());
      && Indexed(c) && CommitChecks(c) && "e" in c.decisions
      && Reported(c, Overdue) == {"ob"} && c.obligations["ob"].scope == ROOT
      && Stages(c, Target(c, "e"), 1, c') && CommitChecks(c')
      && !ConditionHolds(TakesX(), EffectiveValues(c', ROOT))
  {
    hide Stages, Settled, Indexed, Free, EffectiveValues, Audited, CommitChecks, Simple, ConditionHolds;
    var base := ChildSetsX();
    DistinctNames();
    ChildSetsXSound();
    ChildSetsXValues();
    NeglectedOverdue(base, TakesX());
    TurningAnywhereStages(base, TakesX(), "e", "s");
    SelectionCommits(base, TakesX(), "e");
    NeglectedCommits(base, TakesX());
    c' := Finished(AfterAudit(base, TakesX(), "e"));
  }

  lemma ChildSetsXSound()
    ensures var c := ChildSetsX(); Indexed(c) && Simple(c) && Free(c, "e")
  {
    hide Simple, Free;
    ChildSetsXSimple();
    ChildSetsXFree();
    DistinctNames();
    var c := ChildSetsX();
    assert SlotsSound(c) && SlotsComplete(c) && Registered(c);
  }

  lemma ChildSetsXSimple()
    ensures Simple(ChildSetsX())
  {
    DistinctNames();
  }

  lemma ChildSetsXFree()
    ensures Free(ChildSetsX(), "e")
  {
    hide EffectiveDecisions, InheritanceChain, EffectiveValues, Overlay;
    DistinctNames();
    FlatDecisions(ChildSetsX(), "s");
  }

  lemma ChildSetsXValues()
    ensures var c, after := ChildSetsX(), After(ChildSetsX(), TakesX(), "e");
      && !ConditionHolds(TakesX(), EffectiveValues(c, "s"))
      && ConditionHolds(TakesX(), EffectiveValues(after, "s")) && !ConditionHolds(TakesX(), EffectiveValues(after, ROOT))
  {
    hide EffectiveValues;
    DistinctNames();
    var c, after := ChildSetsX(), After(ChildSetsX(), TakesX(), "e");
    FlatValue(c, "s", "x");
    FlatValue(after, "s", "x");
    FlatValue(after, ROOT, "x");
  }

  // ----- a decision of the root -----

  function TakesBoth(): Condition {
    All([TakesX(), Holds(Literal("y", EQ, "1", None))])
  }

  /** The root may set x; scope "s" has set y for itself. */
  function RootSetsX(): Calculus {
    Plain(map["a" := Choice("x", Proposed, {}, ROOT, false), "b" := Choice("y", Active, {}, "s", false)],
          [], map[ROOT := TopScope(), "s" := SubScope()],
          map[ROOT := NO_MODEL, "s" := map["y" := "b"]])
  }

  /** The obligation waits for x = 1 and y = 1 at the root. A root candidate sets x; the gate opens
      because both hold in the child scope, which inherits x. */
  lemma ChildValuesOpenGate() returns (c': Calculus)
    ensures var c := Neglected(RootSetsX(), TakesBoth());
      && Indexed(c) && CommitChecks(c) && "a" in c.decisions
      && Reported(c, Overdue) == {"ob"} && c.obligations["ob"].scope == ROOT
      && Stages(c, Target(c, "a"), 1, c') && CommitChecks(c')
      && !ConditionHolds(TakesBoth(), EffectiveValues(c', ROOT))
  {
    hide Stages, Settled, Indexed, Free, EffectiveValues, Audited, CommitChecks, Simple, ConditionHolds;
    var base := RootSetsX();
    DistinctNames();
    RootSetsXSound();
    RootSetsXValues();
    NeglectedOverdue(base, TakesBoth());
    TurningAnywhereStages(base, TakesBoth(), "a", "s");
    SelectionCommits(base, TakesBoth(), "a");
    NeglectedCommits(base, TakesBoth());
    c' := Finished(AfterAudit(base, TakesBoth(), "a"));
  }

  lemma RootSetsXSound()
    ensures var c := RootSetsX(); Indexed(c) && Simple(c) && Free(c, "a")
  {
    hide SlotsSound, SlotsComplete, Simple, Free;
    DistinctNames();
    var c := RootSetsX();
    assert SlotsSound(c) by { RootSetsXSlots(); }
    assert SlotsComplete(c) by { RootSetsXSlots(); }
    assert Simple(c) by { RootSetsXSimple(); }
    assert Free(c, "a") by { RootSetsXFree(); }
  }

  lemma RootSetsXSlots()
    ensures SlotsSound(RootSetsX()) && SlotsComplete(RootSetsX())
  {
    DistinctNames();
  }

  lemma RootSetsXSimple()
    ensures Simple(RootSetsX())
  {
    DistinctNames();
  }

  lemma RootSetsXFree()
    ensures Free(RootSetsX(), "a")
  {
    hide EffectiveDecisions, InheritanceChain, EffectiveValues, Overlay;
    var c := RootSetsX();
    DistinctNames();
    assert EffectiveDecisions(c, ROOT) == c.activeModel by { RootChain(c); }
    assert "a" in c.decisions && c.decisions["a"] == Choice("x", Proposed, {}, ROOT, false);
    assert Slot(c.models, ROOT, "x") == None;
  }

  lemma RootSetsXValues()
    ensures var c, after := RootSetsX(), After(RootSetsX(), TakesBoth(), "a");
      && !ConditionHolds(TakesBoth(), EffectiveValues(c, "s"))
      && ConditionHolds(TakesBoth(), EffectiveValues(after, "s"))
      && !ConditionHolds(TakesBoth(), EffectiveValues(after, ROOT))
  {
    hide EffectiveValues;
    DistinctNames();
    RootSetsXSeen();
    var c, after := RootSetsX(), After(RootSetsX(), TakesBoth(), "a");
    FlatValue(c, "s", "x");
    FlatValue(after, "s", "x");
    FlatValue(after, "s", "y");
    FlatValue(after, ROOT, "y");
    BothHold(EffectiveValues(c, "s"));
    BothHold(EffectiveValues(after, "s"));
    BothHold(EffectiveValues(after, ROOT));
  }

  lemma BothHold(v: Values)
    ensures ConditionHolds(TakesBoth(), v) <==> "x" in v && v["x"] == "1" && "y" in v && v["y"] == "1"
  {
    var parts := TakesBoth().parts;
    assert parts[0] == TakesX() && parts[1] == Holds(Literal("y", EQ, "1", None));
  }

  lemma RootSetsXSeen()
    ensures var c, after := RootSetsX(), After(RootSetsX(), TakesBoth(), "a");
      && Flat(c) && Flat(after) && "s" in c.scopes && Seen(c, "s", "x") == None
      && Seen(after, "s", "x") == Some("a") && Seen(after, "s", "y") == Some("b") && Seen(after, ROOT, "y") == None
      && IsActive(after, "a") && IsActive(after, "b") && after.decisions["a"].value == after.decisions["b"].value == "1"
  {
    DistinctNames();
  }
}
