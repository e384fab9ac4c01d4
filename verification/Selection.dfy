/** Over whole runs of the engine: which status a decision may take next, that a decision which is out stays
    out, and that only finished work is ever committed. */
module Selection {
  import opened Foundations
  import opened CalculusModel
  import opened Scopes
  import opened Conditions
  import opened Knowledge
  import opened Backjump
  import opened Locks
  import opened Fairness
  import opened Staging
  import opened Restart
  import opened ScopeImpact
  import opened Recovery
  import opened Activation
  import opened Commits
  import opened Obligations
  import opened Engine
  import opened Search
  import opened TruthMaintenance
  import opened Outcomes
  import opened Runs

  // ----- decisions that are out stay out -----

  /** The status changes of a decision over one step. */
  predicate Moves(before: DecisionStatus, after: DecisionStatus) {
    match after
    case Proposed => before == Proposed
    case Active => before in {Proposed, Suspended, Active}
    case Suspended => before in {Active, Suspended}
    case Superseded => before in {Active, Superseded}
    case Invalidated => true
    case Rejected => before == Rejected
    case Historical => before == Historical
  }

  lemma StageMoves(c: Calculus, assignments: Assignments, at: nat, c': Calculus, d: Id)
    requires Indexed(c) && Stages(c, assignments, at, c') && d in c.decisions
    ensures d in c'.decisions && Moves(c.decisions[d].status, c'.decisions[d].status)
  {
    hide Stages, Indexed, Moves;
    StageRecords(c, assignments, at, c', d);
    var before, after := c.decisions[d].status, c'.decisions[d].status;
    if d in assignments.Values {
      TargetsSelectable(c, assignments, at, c', d);
    }
    if d !in assignments.Values && IsActive(c, d) {
      DisplacementCases(c, c', assignments.Values, d);
    }
    MovesExactly(before, after);
  }

  lemma MovesExactly(before: DecisionStatus, after: DecisionStatus)
    ensures Moves(before, after) <==>
      || after == before || after == Invalidated || (after == Active && before in {Proposed, Suspended})
      || (before == Active && after in {Suspended, Superseded})
  {
  }

  lemma TargetsSelectable(c: Calculus, assignments: Assignments, at: nat, c': Calculus, d: Id)
    requires Stages(c, assignments, at, c') && d in assignments.Values && d in c.decisions
    ensures Selectable(c.decisions[d].status)
  {
    hide Accepted, Selectable, Audited, SupersedeAll, IsRows, AllReady;
    var rows, p, act :| StagePath(c, assignments, at, rows, p, act) && Accepted(c, act) && c' == Finished(act);
    AuditedOnly(c);
    var key :| key in assignments && assignments[key] == d;
    assert Admissible(Audited(c), key, d);
  }

  lemma ActivateMoves(c: Calculus, t: Id, supersede: Option<Id>, at: nat, c': Calculus, d: Id)
    requires Indexed(c) && CommitsActivation(c, t, supersede, at, c') && d in c.decisions
    ensures d in c'.decisions && Moves(c.decisions[d].status, c'.decisions[d].status)
  {
    hide CommitsActivation, Indexed, Moves;
    ActivationRecords(c, t, supersede, at, c', d);
    if d == t {
      ActivatedWasSelectable(c, t, supersede, at, c');
    } else if Local(c, t) == Some(d) {
      OccupantIsActive(c, t, d);
    }
    MovesExactly(c.decisions[d].status, c'.decisions[d].status);
  }

  lemma ActivatedWasSelectable(c: Calculus, t: Id, supersede: Option<Id>, at: nat, c': Calculus)
    requires CommitsActivation(c, t, supersede, at, c')
    ensures t in c.decisions && c.decisions[t].status in {Proposed, Suspended}
  {
    hide Audited, EffectiveDecisions, ActivationAccepted, Candidate, ModelsAgree, MayActivate, Settled;
    AuditedOnly(c);
    MayActivateExactly(Audited(c), t, supersede);
  }

  lemma OccupantIsActive(c: Calculus, t: Id, o: Id)
    requires Indexed(c) && t in c.decisions && Local(c, t) == Some(o)
    ensures IsActive(c, o)
  {
  }

  lemma JumpMoves(c: Calculus, cid: Id, requested: Option<Id>, at: nat, c': Calculus, d: Id)
    requires Indexed(c) && SaneDependencies(c.scopes, c.scopeDeps) && Jumps(c, cid, requested, at, c') && d in c.decisions
    ensures d in c'.decisions && Moves(c.decisions[d].status, c'.decisions[d].status)
  {
    hide Settled, Indexed, Recovered, WidenedPlan, Applicable, IsPlan, InvalidatedBy, ReopenedBy, TakenScopes, DoubtedScopes;
    var plan :| IsJump(c, cid, requested, plan) && JumpsAlong(c, plan, at, c', WidenedPlan(c, plan));
    PivotActive(c, cid, plan);
    RecoveryRecords(c, cid, plan.explanation, plan, at, d, "", "");
  }

  lemma RestartMoves(c: Calculus, scope: Id, at: nat, d: Id)
    requires Indexed(c) && d in c.decisions
    ensures d in AfterRestart(c).decisions && Moves(c.decisions[d].status, AfterRestart(c).decisions[d].status)
    ensures d in AfterScopeRestart(c, scope, at).decisions
    ensures Moves(c.decisions[d].status, AfterScopeRestart(c, scope, at).decisions[d].status)
  {
    hide AfterRestart, AfterScopeRestart, Indexed;
    RestartRecords(c, d);
    ScopeRestartRecords(c, scope, at, d, "");
  }

  /** Every step moves each decision as the table allows, and forgets none. */
  lemma StepMoves(c: Calculus, s: Step, at: nat, c': Calculus, d: Id)
    requires Steady(c) && Takes(c, s, at, c') && d in c.decisions
    ensures d in c'.decisions && Moves(c.decisions[d].status, c'.decisions[d].status)
  {
    hide Indexed, LocksSound, Stages, CommitsActivation, Jumps, TruthCalculus, AfterRestart, AfterScopeRestart,
      SaneDependencies, Moves;
    MovesExactly(c.decisions[d].status, c.decisions[d].status);
    match s
    case StageStep(assignments) => StageMoves(c, assignments, at, c', d);
    case ActivateStep(t, supersede) => ActivateMoves(c, t, supersede, at, c', d);
    case JumpStep(cid, requested) => JumpMoves(c, cid, requested, at, c', d);
    case RestartStep => RestartMoves(c, ROOT, at, d);
    case ScopeRestartStep(scope) => RestartMoves(c, scope, at, d);
    case TruthStep(plan) =>
      TruthRecords(c, plan, at, d, "");
      MovesExactly(c.decisions[d].status, Invalidated);
    case _ => ModelLeft(c, s, at, c');
  }

  /** Over any run a decision that was superseded, invalidated, rejected or became historical is never PROPOSED,
      ACTIVE or SUSPENDED again; and an invalidated one stays INVALIDATED. */
  lemma {:induction false} RunKeepsOut(states: seq<Calculus>, steps: seq<Step>, first: nat, i: nat, d: Id)
    requires IsRun(states, steps, first) && Steady(states[0]) && i <= |steps| && d in states[i].decisions
    ensures d in states[|steps|].decisions
    ensures states[i].decisions[d].status in {Superseded, Invalidated, Rejected, Historical} ==>
      states[|steps|].decisions[d].status in {states[i].decisions[d].status, Invalidated}
    decreases |steps|
  {
    hide Takes, Steady, Moves, SameDecisions;
    var n := |steps|;
    if i < n {
      ShorterRun(states, steps, first);
      assert states[..n][i] == states[i] && states[..n][n - 1] == states[n - 1] && states[..n][0] == states[0];
      RunKeepsOut(states[..n], steps[..n - 1], first, i, d);
      RunKeepsSteady(states[..n], steps[..n - 1], first);
      StepMoves(states[n - 1], steps[n - 1], first + n - 1, states[n], d);
      MovesExactly(states[n - 1].decisions[d].status, states[n].decisions[d].status);
    }
  }

  /** A decision that is ACTIVE later but not now became so by a candidate that chose it or by its activation. */
  lemma BecomesActive(c: Calculus, s: Step, at: nat, c': Calculus, d: Id)
    requires Steady(c) && Takes(c, s, at, c') && d in c.decisions && !IsActive(c, d) && IsActive(c', d)
    ensures match s
      case StageStep(assignments) => d in assignments.Values
      case ActivateStep(t, _) => d == t
      case _ => false
  {
    hide Indexed, LocksSound, Stages, CommitsActivation, Jumps, SaneDependencies, TruthCalculus, AfterRestart,
      AfterScopeRestart;
    match s
    case StageStep(assignments) => StagesNoOther(c, assignments, at, c', d);
    case ActivateStep(t, supersede) => ActivatesNoOther(c, t, supersede, at, c', d);
    case _ => OthersKeepInactive(c, s, at, c', d);
  }

  lemma OthersKeepInactive(c: Calculus, s: Step, at: nat, c': Calculus, d: Id)
    requires Steady(c) && Takes(c, s, at, c') && !s.StageStep? && !s.ActivateStep?
    requires d in c.decisions && !IsActive(c, d)
    ensures !IsActive(c', d)
  {
    hide Indexed, LocksSound, Jumps, TruthCalculus, AfterRestart, AfterScopeRestart, SaneDependencies;
    match s
    case JumpStep(cid, requested) => JumpKeepsInactive(c, cid, requested, at, c', d);
    case RestartStep => RestartKeepsInactive(c, ROOT, at, d);
    case ScopeRestartStep(scope) => RestartKeepsInactive(c, scope, at, d);
    case TruthStep(plan) => TruthRecords(c, plan, at, d, "");
    case _ => QuietKeepsInactive(c, s, at, c', d);
  }

  lemma RestartKeepsInactive(c: Calculus, scope: Id, at: nat, d: Id)
    requires Indexed(c) && d in c.decisions && !IsActive(c, d)
    ensures !IsActive(AfterRestart(c), d) && !IsActive(AfterScopeRestart(c, scope, at), d)
  {
    hide AfterRestart, AfterScopeRestart, Indexed;
    RestartRecords(c, d);
    ScopeRestartRecords(c, scope, at, d, "");
  }

  lemma QuietKeepsInactive(c: Calculus, s: Step, at: nat, c': Calculus, d: Id)
    requires Takes(c, s, at, c') && LeavesModel(s) && !IsActive(c, d)
    ensures !IsActive(c', d)
  {
    hide Takes;
    ModelLeft(c, s, at, c');
  }

  lemma StagesNoOther(c: Calculus, assignments: Assignments, at: nat, c': Calculus, d: Id)
    requires Indexed(c) && Stages(c, assignments, at, c') && d in c.decisions && !IsActive(c, d) && IsActive(c', d)
    ensures d in assignments.Values
  {
    hide Indexed, Stages;
    StageRecords(c, assignments, at, c', d);
  }

  lemma ActivatesNoOther(c: Calculus, t: Id, supersede: Option<Id>, at: nat, c': Calculus, d: Id)
    requires Indexed(c) && CommitsActivation(c, t, supersede, at, c')
    requires d in c.decisions && !IsActive(c, d) && IsActive(c', d)
    ensures d == t
  {
    hide Indexed, CommitsActivation;
    ActivationRecords(c, t, supersede, at, c', d);
  }

  lemma JumpKeepsInactive(c: Calculus, cid: Id, requested: Option<Id>, at: nat, c': Calculus, d: Id)
    requires Indexed(c) && SaneDependencies(c.scopes, c.scopeDeps) && Jumps(c, cid, requested, at, c')
    requires d in c.decisions && !IsActive(c, d)
    ensures !IsActive(c', d)
  {
    hide Settled, Indexed, Recovered, WidenedPlan, Applicable, IsPlan, InvalidatedBy, ReopenedBy, TakenScopes, DoubtedScopes;
    var plan :| IsJump(c, cid, requested, plan) && JumpsAlong(c, plan, at, c', WidenedPlan(c, plan));
    PivotActive(c, cid, plan);
    RecoveryRecords(c, cid, plan.explanation, plan, at, d, "", "");
  }

  // ----- committed work was verified -----

  /** No step but `set_obligation_status` takes work to VERIFIED or COMMITTED. */
  ghost predicate FinishedBefore(c: Calculus, c': Calculus) {
    forall o :: o in c'.obligations && c'.obligations[o].status in {Verified, Committed} ==>
      o in c.obligations && c.obligations[o].status == c'.obligations[o].status
  }

  lemma SettlingFinishes(c: Calculus, mid: Calculus)
    requires FinishedBefore(c, mid)
    ensures FinishedBefore(c, Settled(mid)) && FinishedBefore(c, Relocked(mid))
  {
    hide Settled, Relocked;
    forall o | o in Settled(mid).obligations && Settled(mid).obligations[o].status != Available
      ensures o in mid.obligations && Settled(mid).obligations[o] == mid.obligations[o]
    {
      SettledObligation(mid, o);
    }
    forall o | o in Relocked(mid).obligations && Relocked(mid).obligations[o].status != Available
      ensures o in mid.obligations && Relocked(mid).obligations[o] == mid.obligations[o]
    {
      RelockedObligation(mid, o);
    }
  }

  lemma RelockedObligation(c: Calculus, o: Id)
    requires o in Relocked(c).obligations
    ensures o in c.obligations
    ensures Relocked(c).obligations[o] == c.obligations[o] || Relocked(c).obligations[o].status == Available
  {
    hide CheckLocks;
  }

  lemma StageFinishes(c: Calculus, assignments: Assignments, at: nat, c': Calculus)
    requires Stages(c, assignments, at, c')
    ensures FinishedBefore(c, c')
  {
    hide StagePath, Accepted, Settled;
    var rows, p, act :| StagePath(c, assignments, at, rows, p, act) && Accepted(c, act) && c' == Finished(act);
    StagePathFrame(c, assignments, at, rows, p, act);
    SettlingFinishes(c, NextEpoch(act));
  }

  lemma ActivateFinishes(c: Calculus, d: Id, supersede: Option<Id>, at: nat, c': Calculus)
    requires Indexed(c) && CommitsActivation(c, d, supersede, at, c')
    ensures FinishedBefore(c, c')
  {
    hide MayActivate, ActivationAccepted, ModelsAgree, Settled, Candidate, Indexed, Audited;
    AuditedOnly(c);
    AuditKeepsIndexes(c);
    assert d in Audited(c).decisions by { MayKnown(Audited(c), d, supersede); }
    CandidateFrame(Audited(c), d, at);
    SettlingFinishes(c, NextEpoch(Candidate(Audited(c), d, at)));
  }

  lemma JumpFinishes(c: Calculus, cid: Id, requested: Option<Id>, at: nat, c': Calculus)
    requires Jumps(c, cid, requested, at, c')
    ensures FinishedBefore(c, c')
  {
    hide Settled, WidenedPlan, Applicable, IsPlan, Chosen, ExplanationValid, Recovered, FinishedBefore;
    var plan :| IsJump(c, cid, requested, plan) && JumpsAlong(c, plan, at, c', WidenedPlan(c, plan));
    RecoveryFinishes(c, plan, at);
    SettlingFinishes(c, Recovered(c, plan, at));
  }

  lemma RecoveryFinishes(c: Calculus, plan: BackjumpPlan, at: nat)
    requires plan.pivot.Some? && plan.pivot.value in c.decisions && Applicable(c, WidenedPlan(c, plan))
    ensures FinishedBefore(c, Recovered(c, plan, at))
  {
    hide WidenedPlan, ModelsWithout, TakenScopes, DoubtedScopes;
  }

  lemma ClearedFinishes(c: Calculus, scope: Id, at: nat)
    ensures FinishedBefore(c, AfterRestart(c)) && FinishedBefore(c, AfterScopeRestart(c, scope, at))
  {
    hide Settled;
    SettlingFinishes(c, Restart.Cleared(c));
    SettlingFinishes(c, ScopeCleared(c, Subtree(c.scopes, scope), at));
  }

  lemma TruthFinishes(c: Calculus, plan: TruthPlan, at: nat)
    ensures FinishedBefore(c, TruthCalculus(c, plan, at))
  {
    hide Relocked;
    SettlingFinishes(c, WithdrawTruth(c, plan, at));
  }

  lemma UnlockFinishes(c: Calculus, k: Id)
    requires k in c.locks
    ensures FinishedBefore(c, Unlocked(c, k))
  {
    hide Relocked;
    if c.locks[k].status.LockActive? {
      SettlingFinishes(c, c.(locks := c.locks[k := c.locks[k].(status := Broken, brokenEpoch := Some(c.epoch))]));
    }
  }

  lemma StepFinishes(c: Calculus, s: Step, at: nat, c': Calculus)
    requires Indexed(c) && Takes(c, s, at, c') && !s.StatusStep?
    ensures FinishedBefore(c, c')
  {
    hide Indexed, Stages, CommitsActivation, Jumps, TruthCalculus, AfterRestart, AfterScopeRestart, Relocked, Unlocked,
      LearnsFrom, FinishedBefore, Raises, Explains, Audited, CanEnable, CanLock;
    match s
    case StageStep(assignments) => StageFinishes(c, assignments, at, c');
    case ActivateStep(d, supersede) => ActivateFinishes(c, d, supersede, at, c');
    case JumpStep(cid, requested) => JumpFinishes(c, cid, requested, at, c');
    case RestartStep => ClearedFinishes(c, ROOT, at);
    case ScopeRestartStep(scope) => ClearedFinishes(c, scope, at);
    case TruthStep(plan) => TruthFinishes(c, plan, at);
    case UnlockStep(k) => UnlockFinishes(c, k);
    case LearnStep(eid, kid, requested) => LearningFinishes(c, eid, kid, requested, at, c');
    case _ => QuietFinishes(c, s, at, c');
  }

  lemma QuietFinishes(c: Calculus, s: Step, at: nat, c': Calculus)
    requires Takes(c, s, at, c') && LeavesModel(s) && !s.UnlockStep? && !s.LearnStep? && !s.StatusStep?
    ensures FinishedBefore(c, c')
  {
    hide IsCanonicalSnapshot, ExplanationValid, ConditionHolds, EffectiveValues, AuditedRecords;
  }

  lemma LearningFinishes(c: Calculus, eid: Id, kid: Id, requested: Strength, at: nat, c': Calculus)
    requires LearnsFrom(c, eid, kid, requested, at, c')
    ensures FinishedBefore(c, c')
  {
    hide Subsumes, ExplanationValid;
  }

  /** Work becomes COMMITTED only from VERIFIED, and VERIFIED only from VERIFYING, each by its own status change. */
  lemma StepVerifiesFirst(c: Calculus, s: Step, at: nat, c': Calculus, o: Id)
    requires Steady(c) && Takes(c, s, at, c') && o in c'.obligations
    requires c'.obligations[o].status in {Verified, Committed}
    ensures o in c.obligations
    ensures c.obligations[o].status != c'.obligations[o].status ==>
      && s.StatusStep? && s.obligation == o && s.status == c'.obligations[o].status
      && c.obligations[o].status == (if s.status == Committed then Verified else Verifying)
  {
    hide Indexed, LocksSound;
    if s.StatusStep? {
      ReachedFrom(c.obligations[s.obligation].status, s.status);
    } else {
      StepFinishes(c, s, at, c');
    }
  }

  /** Over any run, work that is COMMITTED at the end and was not at the start of it was VERIFIED on the way, and
      its status was set from there. */
  lemma {:induction false} CommittedWasVerified(states: seq<Calculus>, steps: seq<Step>, first: nat, o: Id)
    returns (k: nat)
    requires IsRun(states, steps, first) && Steady(states[0])
    requires o in states[|steps|].obligations && states[|steps|].obligations[o].status == Committed
    requires o in states[0].obligations ==> states[0].obligations[o].status != Committed
    ensures k < |steps| && o in states[k].obligations && states[k].obligations[o].status == Verified
    ensures steps[k].StatusStep? && steps[k].obligation == o && steps[k].status == Committed
    decreases |steps|
  {
    hide Takes, Steady;
    k := 0;
    if steps != [] {
      var n := |steps|;
      ShorterRun(states, steps, first);
      assert states[..n][0] == states[0] && states[..n][n - 1] == states[n - 1];
      RunKeepsSteady(states[..n], steps[..n - 1], first);
      StepVerifiesFirst(states[n - 1], steps[n - 1], first + n - 1, states[n], o);
      if states[n - 1].obligations[o].status == Committed {
        k := CommittedWasVerified(states[..n], steps[..n - 1], first, o);
      } else {
        k := n - 1;
      }
    }
  }
}
