/** Whole runs of the engine: what every reachable state keeps, and what waiting work is owed. */
module Runs {
  import opened Foundations
  import opened CalculusModel
  import opened Scopes
  import opened Conditions
  import opened Knowledge
  import opened DecisionGraph
  import opened Backjump
  import opened Locks
  import opened Fairness
  import opened Staging
  import opened Restart
  import opened ScopeImpact
  import opened Recovery
  import opened Activation
  import opened Obligations
  import opened Commits
  import opened Revision
  import opened Engine
  import opened Search
  import opened TruthMaintenance

  datatype Step =
    | StageStep(assignments: Assignments)
    | ActivateStep(decision: Id, supersede: Option<Id>)
    | JumpStep(conflict: Id, requested: Option<Id>)
    | RestartStep
    | ScopeRestartStep(scope: Id)
    | TruthStep(plan: TruthPlan)
    | EnableStep(obligation: Id)
    | LockStep(lockId: Id, lock: Lock)
    | UnlockStep(lockId: Id)
    | StatusStep(obligation: Id, status: ObligationStatus, reason: Option<Id>)
    | AuditStep
    | RaiseStep(conflict: Id, scope: Id)
    | ExplainStep(explanationId: Id, explanation: Explanation)
    | LearnStep(explanationId: Id, constraintId: Id, strength: Strength)
    | ExpireStep(evidence: Id)
    | PromoteStep(promoted: Id)

  /** What a committed step does, when the event it writes has sequence number `at`. */
  ghost predicate Takes(c: Calculus, s: Step, at: nat, c': Calculus) {
    match s
    case StageStep(assignments) => Stages(c, assignments, at, c')
    case ActivateStep(d, supersede) => CommitsActivation(c, d, supersede, at, c')
    case JumpStep(cid, requested) => Jumps(c, cid, requested, at, c')
    case RestartStep => c' == AfterRestart(c) && Violated(c') == {}
    case ScopeRestartStep(scope) => scope != ROOT && ScopeRestarts(c, scope, at, c')
    case TruthStep(plan) => c' == TruthCalculus(c, plan, at)
    case EnableStep(o) => CanEnable(c, o) && c' == EnableObligation(c, o, at)
    case LockStep(k, lock) => CanLock(c, k, lock) && c' == PlaceLock(c, k, lock)
    case UnlockStep(k) => k in c.locks && c' == Unlocked(c, k)
    case StatusStep(o, status, reason) =>
      CanSetStatus(c, o, status, reason, true) && c' == SetStatus(c, o, status, reason, at)
    case AuditStep => c' == Audited(c)
    case RaiseStep(cid, scope) => Raises(c, cid, scope, c')
    case ExplainStep(eid, e) => Explains(c, eid, e, c')
    case LearnStep(eid, kid, requested) => LearnsFrom(c, eid, kid, requested, at, c')
    case ExpireStep(evidence) => c' == WithoutEvidence(c, evidence)
    case PromoteStep(kid) => kid in c.constraints && c' == Promoted(c, kid)
  }

  /** The steps that choose a new model: each ends an epoch. */
  predicate ChangesModel(s: Step) {
    s.StageStep? || s.ActivateStep? || s.JumpStep? || s.RestartStep? || s.ScopeRestartStep?
  }

  /** The steps that change what is known: learning, expiry with its evidence, promotion. */
  predicate RevisesKnowledge(s: Step) {
    s.LearnStep? || s.ExpireStep? || s.PromoteStep?
  }

  /** A run of committed steps; event numbers are consecutive from `first`. */
  ghost predicate IsRun(states: seq<Calculus>, steps: seq<Step>, first: nat) {
    |states| == |steps| + 1
    && forall i {:trigger steps[i]} :: 0 <= i < |steps| ==> Takes(states[i], steps[i], first + i, states[i + 1])
  }

  lemma ShorterRun(states: seq<Calculus>, steps: seq<Step>, first: nat)
    requires IsRun(states, steps, first) && steps != []
    ensures IsRun(states[..|steps|], steps[..|steps| - 1], first)
    ensures Takes(states[|steps| - 1], steps[|steps| - 1], first + |steps| - 1, states[|steps|])
  {
    hide Takes;
    var n := |steps| - 1;
    assert Takes(states[n], steps[n], first + n, states[n + 1]);
    forall i | 0 <= i < n ensures Takes(states[..n + 1][i], steps[..n][i], first + i, states[..n + 1][i + 1]) {
      assert Takes(states[i], steps[i], first + i, states[i + 1]);
    }
  }

  // ----- steps that move no decision -----

  /** Nothing an effective value or an index depends on changes. */
  ghost predicate SameModel(c: Calculus, c': Calculus) {
    && c'.decisions == c.decisions && c'.models == c.models && c'.activeModel == c.activeModel
    && c'.edges == c.edges && c'.scopes == c.scopes && c'.scopeDeps == c.scopeDeps
    && c'.epoch == c.epoch && c'.policy == c.policy
  }

  predicate LeavesModel(s: Step) {
    !ChangesModel(s) && !s.TruthStep?
  }

  lemma UnlockLeavesModel(c: Calculus, k: Id)
    requires k in c.locks
    ensures SameModel(c, Unlocked(c, k))
  {
    hide Relocked;
    RelockedFrame(c.(locks := c.locks[k := c.locks[k].(status := Broken, brokenEpoch := Some(c.epoch))]));
  }

  lemma ModelLeft(c: Calculus, s: Step, at: nat, c': Calculus)
    requires Takes(c, s, at, c') && LeavesModel(s)
    ensures SameModel(c, c')
  {
    hide Unlocked, Audited, IsCanonicalSnapshot, ExplanationValid, Subsumes, ConditionHolds, EffectiveValues;
    match s
    case UnlockStep(k) => UnlockLeavesModel(c, k);
    case AuditStep => AuditedOnly(c);
    case _ =>
  }

  lemma SameModelKeeps(c: Calculus, c': Calculus)
    requires SameModel(c, c')
    ensures SameProjection(c, c')
    ensures Indexed(c') == Indexed(c) && ParentsActive(c') == ParentsActive(c)
    ensures SameDecisions(c, c')
  {
    SameIndexes(c, c');
  }

  // ----- the run invariant -----

  ghost predicate Steady(c: Calculus) {
    Indexed(c) && SaneDependencies(c.scopes, c.scopeDeps) && LocksSound(c)
  }

  lemma RestartSteady(c: Calculus)
    requires Indexed(c) && SaneDependencies(c.scopes, c.scopeDeps)
    ensures Steady(AfterRestart(c))
    ensures SameDecisions(c, AfterRestart(c))
  {
    hide Settled, Indexed;
    RestartKeepsIndexes(c);
    SettledLocks(Restart.Cleared(c));
    SettledFrame(Restart.Cleared(c));
  }

  lemma ScopeRestartSteady(c: Calculus, scope: Id, at: nat)
    requires Indexed(c) && SaneDependencies(c.scopes, c.scopeDeps) && scope in c.scopes && scope != ROOT
    ensures Steady(AfterScopeRestart(c, scope, at))
    ensures SameDecisions(c, AfterScopeRestart(c, scope, at))
  {
    hide Settled, Indexed;
    ScopeRestartKeepsIndexes(c, scope, at);
    SettledLocks(ScopeCleared(c, Subtree(c.scopes, scope), at));
    SettledFrame(ScopeCleared(c, Subtree(c.scopes, scope), at));
  }

  lemma StageSteady(c: Calculus, assignments: Assignments, at: nat, c': Calculus)
    requires Indexed(c) && SaneDependencies(c.scopes, c.scopeDeps) && Stages(c, assignments, at, c')
    ensures Steady(c') && SameDecisions(c, c')
  {
    hide StagePath, Accepted, Settled, Indexed;
    StageKeepsIndexes(c, assignments, at, c');
    StageSameDecisions(c, assignments, at, c');
    StageKeepsDependencies(c, assignments, at, c');
    var rows, p, act :| StagePath(c, assignments, at, rows, p, act) && Accepted(c, act) && c' == Finished(act);
    SettledLocks(NextEpoch(act));
  }

  lemma JumpSteady(c: Calculus, cid: Id, requested: Option<Id>, at: nat, c': Calculus)
    requires Indexed(c) && SaneDependencies(c.scopes, c.scopeDeps) && Jumps(c, cid, requested, at, c')
    ensures Steady(c') && SameDecisions(c, c')
  {
    hide Settled, Indexed, Recovered, WidenedPlan, Applicable, IsPlan;
    var plan :| IsJump(c, cid, requested, plan) && JumpsAlong(c, plan, at, c', WidenedPlan(c, plan));
    RecoveryKeepsIndexes(c, cid, plan.explanation, plan, at);
    RecoveryScopes(c, plan, at);
    SettledLocks(Recovered(c, plan, at));
    JumpSame(c, cid, requested, plan, at);
  }

  lemma JumpSame(c: Calculus, cid: Id, requested: Option<Id>, plan: BackjumpPlan, at: nat)
    requires Indexed(c) && SaneDependencies(c.scopes, c.scopeDeps)
    requires IsJump(c, cid, requested, plan) && Applicable(c, WidenedPlan(c, plan))
    ensures SameDecisions(c, Settled(Recovered(c, plan, at)))
  {
    hide Settled, Recovered, WidenedPlan, Applicable, IsPlan, Indexed, Chosen, ExplanationValid;
    assert IsActive(c, plan.pivot.value) by { PivotActive(c, cid, plan); }
    RecoveryRetires(c, plan, at);
    SettledFrame(Recovered(c, plan, at));
  }

  lemma PivotActive(c: Calculus, cid: Id, plan: BackjumpPlan)
    requires plan.explanation in c.explanations
    requires IsPlan(c, cid, plan.explanation, plan) && plan.pivot.Some?
    ensures IsActive(c, plan.pivot.value)
  {
  }

  lemma TruthSteady(c: Calculus, plan: TruthPlan, at: nat)
    requires Indexed(c) && SaneDependencies(c.scopes, c.scopeDeps)
    ensures Steady(TruthCalculus(c, plan, at)) && SameDecisions(c, TruthCalculus(c, plan, at))
  {
    hide Indexed, LocksSound, Relocked, SaneDependencies;
    TruthKeepsIndexes(c, plan, at);
    RelockedFrame(WithdrawTruth(c, plan, at));
  }

  lemma QuietSteady(c: Calculus, s: Step, at: nat, c': Calculus)
    requires Steady(c) && Takes(c, s, at, c') && LeavesModel(s)
    ensures Steady(c') && SameDecisions(c, c')
  {
    ModelLeft(c, s, at, c');
    SameModelKeeps(c, c');
    QuietLocks(c, s, at, c');
  }

  lemma PlacedLocks(c: Calculus, k: Id, lock: Lock, at: nat)
    requires LocksSound(c) && CanLock(c, k, lock)
    ensures LocksSound(PlaceLock(c, k, lock))
  {
    ObligationStepsKeepLocks(c, lock.obligation, k, lock, at);
  }

  lemma UnlockedLocks(c: Calculus, k: Id)
    requires LocksSound(c) && k in c.locks
    ensures LocksSound(Unlocked(c, k))
  {
    hide Relocked, LocksSound;
    if c.locks[k].status.LockActive? {
      RelockingSound(c.(locks := c.locks[k := c.locks[k].(status := Broken, brokenEpoch := Some(c.epoch))]));
    }
  }

  lemma QuietLocks(c: Calculus, s: Step, at: nat, c': Calculus)
    requires LocksSound(c) && Takes(c, s, at, c') && LeavesModel(s) && SameProjection(c, c')
    ensures LocksSound(c')
  {
    hide Subsumes, IsCanonicalSnapshot, ExplanationValid, AuditedRecords, Unlocked, ConditionHolds, EffectiveValues;
    match s
    case UnlockStep(k) => UnlockedLocks(c, k);
    case LockStep(k, lock) => PlacedLocks(c, k, lock, at);
    case _ => LocksFrame(c, c');
  }

  lemma StepKeepsSteady(c: Calculus, s: Step, at: nat, c': Calculus)
    requires Steady(c) && Takes(c, s, at, c')
    ensures Steady(c') && SameDecisions(c, c')
  {
    hide Steady, SameDecisions, Stages, CommitsActivation, Jumps, TruthCalculus, AfterRestart, AfterScopeRestart, Learns,
      Raises, Explains, Audited;
    assert Indexed(c) && SaneDependencies(c.scopes, c.scopeDeps) by { SteadyMeans(c); }
    match s
    case StageStep(assignments) => StageSteady(c, assignments, at, c');
    case ActivateStep(d, supersede) => ActivateSteady(c, d, supersede, at, c');
    case JumpStep(cid, requested) => JumpSteady(c, cid, requested, at, c');
    case RestartStep => RestartSteady(c);
    case ScopeRestartStep(scope) => ScopeRestartSteady(c, scope, at);
    case TruthStep(plan) => TruthSteady(c, plan, at);
    case _ => QuietSteady(c, s, at, c');
  }

  lemma ActivateSteady(c: Calculus, d: Id, supersede: Option<Id>, at: nat, c': Calculus)
    requires Indexed(c) && SaneDependencies(c.scopes, c.scopeDeps) && CommitsActivation(c, d, supersede, at, c')
    ensures Steady(c') && SameDecisions(c, c')
  {
    hide CommitsActivation, Indexed, LocksSound, SameDecisions;
    ActivationKeepsIndexes(c, d, supersede, at, c');
  }

  lemma SteadyMeans(c: Calculus)
    requires Steady(c)
    ensures Indexed(c) && SaneDependencies(c.scopes, c.scopeDeps) && LocksSound(c)
  {
  }

  /** In every reachable state the slots, the mirror and the decision records agree, and every ACTIVE
      lock's condition holds in its scope; decisions keep their identity. */
  lemma {:induction false} RunKeepsSteady(states: seq<Calculus>, steps: seq<Step>, first: nat)
    requires IsRun(states, steps, first) && Steady(states[0])
    ensures forall i :: 0 <= i < |states| ==> Steady(states[i]) && SameDecisions(states[0], states[i])
    decreases |steps|
  {
    hide Takes, Steady;
    if steps != [] {
      var n := |steps|;
      ShorterRun(states, steps, first);
      RunKeepsSteady(states[..n], steps[..n - 1], first);
      assert states[..n][n - 1] == states[n - 1];
      StepKeepsSteady(states[n - 1], steps[n - 1], first + n - 1, states[n]);
      SameDecisionsChain(states[0], states[n - 1], states[n]);
      forall i | 0 <= i < n ensures Steady(states[i]) && SameDecisions(states[0], states[i]) {
        assert states[..n][i] == states[i];
      }
    }
  }

  // ----- ACTIVE parents over runs -----

  /** No decision that stays ACTIVE has a parent among those retired. */
  ghost predicate Detaches(c: Calculus, gone: set<Id>) {
    forall d :: IsActive(c, d) && d !in gone ==> c.decisions[d].parents !! gone
  }

  /** The condition, on the state before, under which a step keeps every ACTIVE parent ACTIVE. */
  ghost predicate KeepsParents(c: Calculus, s: Step) {
    match s
    case ActivateStep(d, _) => d in c.decisions && c.decisions[d].parents !! Ousted(c, d)
    case JumpStep(cid, requested) =>
      forall plan :: IsJump(c, cid, requested, plan) ==> Detaches(c, WidenedPlan(c, plan).invalidated)
    case RestartStep =>
      forall d, p :: IsActive(c, d) && Retained(c.decisions[d]) && p in c.decisions[d].parents ==>
        p in c.decisions && Retained(c.decisions[p])
    case ScopeRestartStep(scope) => Detaches(c, SpeculativeIn(c, Subtree(c.scopes, scope)))
    case TruthStep(plan) => Detaches(c, Withdrawn(c, plan))
    case _ => true
  }

  lemma JumpParents(c: Calculus, cid: Id, requested: Option<Id>, at: nat, c': Calculus)
    requires Indexed(c) && SaneDependencies(c.scopes, c.scopeDeps) && ParentsActive(c)
    requires Jumps(c, cid, requested, at, c')
    ensures ParentsActive(c') <==> KeepsParents(c, JumpStep(cid, requested))
  {
    hide Settled, Indexed, Recovered, WidenedPlan, Applicable, IsPlan, Chosen, ExplanationValid, ParentsActive;
    var plan :| IsJump(c, cid, requested, plan) && JumpsAlong(c, plan, at, c', WidenedPlan(c, plan));
    RecoveryKeepsIndexes(c, cid, plan.explanation, plan, at);
    forall other | IsJump(c, cid, requested, other) ensures other == plan {
      JumpUnique(c, cid, requested, plan, other);
    }
  }

  lemma ActivateParents(c: Calculus, d: Id, supersede: Option<Id>, at: nat, c': Calculus)
    requires Indexed(c) && ParentsActive(c) && CommitsActivation(c, d, supersede, at, c')
    ensures ParentsActive(c') <==> KeepsParents(c, ActivateStep(d, supersede))
  {
    hide ActivationAccepted, ModelsAgree, Settled, Candidate, Freed, Ousted, SlotsSound, SlotsComplete, Audited,
      ParentsActive, Registered, AntecedentsLive;
    var audited := Audited(c);
    AuditKeepsIndexes(c);
    AuditedOnly(c);
    SameIndexes(c, audited);
    CandidateFrame(audited, d, at);
    ScopedActivationParents(audited, d, at);
    var act := Candidate(audited, d, at);
    SettledFrame(NextEpoch(act));
    SameParents(ActivateOne(Freed(audited, d), d, at), act);
    SameParents(act, c');
    SameOusted(c, audited, d);
  }

  lemma SameParents(c: Calculus, c': Calculus)
    requires c'.decisions == c.decisions
    ensures ParentsActive(c') == ParentsActive(c)
  {
    assert forall d :: IsActive(c', d) == IsActive(c, d);
  }

  lemma SameOusted(c: Calculus, c': Calculus, d: Id)
    requires d in c.decisions && c' == c.(fairness := c'.fairness)
    ensures Ousted(c', d) == Ousted(c, d)
  {
    match Local(c, d)
    case None =>
    case Some(current) =>
      if current != d && current in c.decisions {
        var m, m' := MarkSuperseded(c, current, d), MarkSuperseded(c', current, d);
        assert m'.decisions == m.decisions;
        assert DependentEdges(m') == DependentEdges(m);
      }
  }

  lemma TruthParents(c: Calculus, plan: TruthPlan, at: nat)
    requires Indexed(c) && ParentsActive(c)
    ensures ParentsActive(TruthCalculus(c, plan, at)) <==> KeepsParents(c, TruthStep(plan))
  {
    hide WithdrawTruth, Relocked, Retires, ParentsActive, Indexed;
    var mid := WithdrawTruth(c, plan, at);
    TruthRetires(c, plan, at);
    RetiringKeepsParents(c, mid, Withdrawn(c, plan));
    RelockedFrame(mid);
    SameIndexes(mid, Relocked(mid));
  }

  lemma StepKeepsParents(c: Calculus, s: Step, at: nat, c': Calculus)
    requires Steady(c) && ParentsActive(c) && Takes(c, s, at, c')
    ensures ParentsActive(c') <==> KeepsParents(c, s)
  {
    hide Stages, CommitsActivation, Jumps, TruthCalculus, AfterRestart, AfterScopeRestart, ParentsActive, Indexed, LocksSound,
      SaneDependencies, Detaches;
    match s
    case StageStep(assignments) => StageKeepsIndexes(c, assignments, at, c');
    case ActivateStep(d, supersede) => ActivateParents(c, d, supersede, at, c');
    case JumpStep(cid, requested) => JumpParents(c, cid, requested, at, c');
    case RestartStep => RestartParents(c);
    case ScopeRestartStep(scope) => ScopeParents(c, scope, at);
    case TruthStep(plan) => TruthParents(c, plan, at);
    case _ =>
      ModelLeft(c, s, at, c');
      SameModelKeeps(c, c');
  }

  lemma RestartParents(c: Calculus)
    requires Indexed(c) && ParentsActive(c)
    ensures ParentsActive(AfterRestart(c)) <==> KeepsParents(c, RestartStep)
  {
    RestartKeepsParents(c);
  }

  lemma ScopeParents(c: Calculus, scope: Id, at: nat)
    requires Indexed(c) && ParentsActive(c) && scope in c.scopes && scope != ROOT
    ensures ParentsActive(AfterScopeRestart(c, scope, at)) <==> KeepsParents(c, ScopeRestartStep(scope))
  {
    ScopeRestartKeepsParents(c, scope, at);
  }

  /** ACTIVE parents hold throughout a run exactly when every step meets its condition. */
  lemma {:induction false} RunKeepsParents(states: seq<Calculus>, steps: seq<Step>, first: nat)
    requires IsRun(states, steps, first) && Steady(states[0]) && ParentsActive(states[0])
    ensures ParentsThroughout(states) <==> AllKeepParents(states, steps)
    decreases |steps|
  {
    hide Takes, Steady, ParentsActive, KeepsParents, ParentsThroughout, AllKeepParents;
    if steps == [] {
      OneState(states, steps);
    } else {
      var n := |steps|;
      ShorterRun(states, steps, first);
      RunKeepsParents(states[..n], steps[..n - 1], first);
      RunKeepsSteady(states[..n], steps[..n - 1], first);
      assert states[..n][n - 1] == states[n - 1];
      LongerRun(states, steps);
      if ParentsActive(states[n - 1]) {
        StepKeepsParents(states[n - 1], steps[n - 1], first + n - 1, states[n]);
      }
    }
  }

  ghost predicate ParentsThroughout(states: seq<Calculus>) {
    forall i :: 0 <= i < |states| ==> ParentsActive(states[i])
  }

  ghost predicate AllKeepParents(states: seq<Calculus>, steps: seq<Step>)
    requires |states| == |steps| + 1
  {
    forall i :: 0 <= i < |steps| ==> KeepsParents(states[i], steps[i])
  }

  lemma OneState(states: seq<Calculus>, steps: seq<Step>)
    requires |states| == 1 && steps == [] && ParentsActive(states[0])
    ensures ParentsThroughout(states) && AllKeepParents(states, steps)
  {
    hide ParentsActive;
  }

  lemma LongerRun(states: seq<Calculus>, steps: seq<Step>)
    requires |states| == |steps| + 1 && steps != []
    ensures var n := |steps|;
      && (ParentsThroughout(states) <==> ParentsThroughout(states[..n]) && ParentsActive(states[n]))
      && (ParentsThroughout(states[..n]) ==> ParentsActive(states[n - 1]))
      && (AllKeepParents(states, steps) <==>
          AllKeepParents(states[..n], steps[..n - 1]) && KeepsParents(states[n - 1], steps[n - 1]))
  {
    hide ParentsActive, KeepsParents;
    var n := |steps|;
    assert forall i :: 0 <= i < n ==> states[..n][i] == states[i];
    assert forall i :: 0 <= i < n - 1 ==> steps[..n - 1][i] == steps[i];
    if ParentsThroughout(states[..n]) {
      assert ParentsActive(states[..n][n - 1]);
      if ParentsActive(states[n]) {
        forall i | 0 <= i < |states| ensures ParentsActive(states[i]) {
          assert i < n ==> ParentsActive(states[..n][i]);
        }
      }
    }
    if ParentsThroughout(states) {
      forall i | 0 <= i < n ensures ParentsActive(states[..n][i]) {
        assert ParentsActive(states[i]);
      }
    }
    if AllKeepParents(states, steps) {
      forall i | 0 <= i < n - 1 ensures KeepsParents(states[..n][i], steps[..n - 1][i]) {
        assert KeepsParents(states[i], steps[i]);
      }
    }
    if AllKeepParents(states[..n], steps[..n - 1]) && KeepsParents(states[n - 1], steps[n - 1]) {
      forall i | 0 <= i < n ensures KeepsParents(states[i], steps[i]) {
        assert i < n - 1 ==> KeepsParents(states[..n][i], steps[..n - 1][i]);
      }
    }
  }

  // ----- dispositions and broken locks are final -----

  /** Final dispositions stay as they are, and a lock that is no longer ACTIVE is never revived. */
  ghost predicate FinalStay(c: Calculus, c': Calculus) {
    && (forall o :: o in c.obligations && Disposed(c.obligations[o].status) ==>
          o in c'.obligations && c'.obligations[o].status == c.obligations[o].status)
    && (forall k :: k in c.locks && !c.locks[k].status.LockActive? ==> k in c'.locks && c'.locks[k] == c.locks[k])
  }

  lemma SettlingFinal(c: Calculus)
    ensures FinalStay(c, Settled(c))
  {
    RelockingReleases(c);
  }

  lemma FinalStayChain(a: Calculus, b: Calculus, c: Calculus)
    requires FinalStay(a, b) && FinalStay(b, c)
    ensures FinalStay(a, c)
  {
  }

  lemma StageFinal(c: Calculus, assignments: Assignments, at: nat, c': Calculus)
    requires Stages(c, assignments, at, c')
    ensures FinalStay(c, c')
  {
    hide StagePath, Accepted, Settled, FinalStay;
    var rows, p, act :| StagePath(c, assignments, at, rows, p, act) && Accepted(c, act) && c' == Finished(act);
    StagePathFrame(c, assignments, at, rows, p, act);
    SettlingFinal(NextEpoch(act));
    assert FinalStay(c, NextEpoch(act)) by { SameObligations(c, NextEpoch(act)); }
    FinalStayChain(c, NextEpoch(act), c');
  }

  lemma ActivateFinal(c: Calculus, d: Id, supersede: Option<Id>, at: nat, c': Calculus)
    requires Indexed(c) && CommitsActivation(c, d, supersede, at, c')
    ensures FinalStay(c, c')
  {
    hide MayActivate, ActivationAccepted, ModelsAgree, Settled, Candidate, Indexed, Audited, FinalStay;
    AuditedOnly(c);
    AuditKeepsIndexes(c);
    assert d in Audited(c).decisions by { MayKnown(Audited(c), d, supersede); }
    CandidateFrame(Audited(c), d, at);
    var act := NextEpoch(Candidate(Audited(c), d, at));
    SettlingFinal(act);
    SameObligations(c, act);
    SameObligations(Settled(act), c');
    FinalStayChain(c, act, Settled(act));
    FinalStayChain(c, Settled(act), c');
  }

  lemma MayKnown(c: Calculus, d: Id, supersede: Option<Id>)
    requires MayActivate(c, d, supersede)
    ensures d in c.decisions
  {
  }

  lemma SameObligations(c: Calculus, c': Calculus)
    requires c'.obligations == c.obligations && c'.locks == c.locks
    ensures FinalStay(c, c')
  {
  }

  lemma JumpFinal(c: Calculus, cid: Id, requested: Option<Id>, at: nat, c': Calculus)
    requires Jumps(c, cid, requested, at, c')
    ensures FinalStay(c, c')
  {
    hide Settled, WidenedPlan, Applicable, IsPlan, Chosen, ExplanationValid;
    var plan :| IsJump(c, cid, requested, plan) && JumpsAlong(c, plan, at, c', WidenedPlan(c, plan));
    SettlingFinal(Recovered(c, plan, at));
    FinalStayChain(c, Recovered(c, plan, at), c');
  }

  lemma ClearedFinal(c: Calculus, scope: Id, at: nat)
    ensures FinalStay(c, AfterRestart(c))
    ensures FinalStay(c, AfterScopeRestart(c, scope, at))
  {
    hide Settled;
    var targets := Subtree(c.scopes, scope);
    SettlingFinal(Restart.Cleared(c));
    FinalStayChain(c, Restart.Cleared(c), AfterRestart(c));
    SettlingFinal(ScopeCleared(c, targets, at));
    FinalStayChain(c, ScopeCleared(c, targets, at), AfterScopeRestart(c, scope, at));
  }

  lemma TruthFinal(c: Calculus, plan: TruthPlan, at: nat)
    ensures FinalStay(c, TruthCalculus(c, plan, at))
  {
    hide Relocked;
    var mid := WithdrawTruth(c, plan, at);
    assert FinalStay(c, mid);
    RelockingReleases(mid);
    RelockedFinal(mid);
    FinalStayChain(c, mid, Relocked(mid));
  }

  lemma RelockedFinal(c: Calculus)
    ensures FinalStay(c, Relocked(c))
  {
    RelockingReleases(c);
  }

  /** Touching one obligation that is not disposed, and no existing lock. */
  lemma TouchingFinal(c: Calculus, c': Calculus, o: Id, after: Obligation)
    requires o in c.obligations && !Disposed(c.obligations[o].status) && c'.obligations == c.obligations[o := after]
    requires forall k :: k in c.locks ==> k in c'.locks && c'.locks[k] == c.locks[k]
    ensures FinalStay(c, c')
  {
  }

  lemma UnlockFinal(c: Calculus, k: Id)
    requires k in c.locks
    ensures FinalStay(c, Unlocked(c, k))
  {
    hide Relocked;
    if c.locks[k].status.LockActive? {
      var broken := c.(locks := c.locks[k := c.locks[k].(status := Broken, brokenEpoch := Some(c.epoch))]);
      assert FinalStay(c, broken);
      RelockedFinal(broken);
      FinalStayChain(c, broken, Relocked(broken));
    }
  }

  lemma QuietFinal(c: Calculus, s: Step, at: nat, c': Calculus)
    requires Takes(c, s, at, c') && LeavesModel(s)
    ensures FinalStay(c, c')
  {
    hide Unlocked, FinalStay, IsCanonicalSnapshot, ExplanationValid, Subsumes, ConditionHolds, EffectiveValues;
    match s
    case EnableStep(o) => TouchingFinal(c, c', o, c'.obligations[o]);
    case LockStep(k, lock) => TouchingFinal(c, c', lock.obligation, c'.obligations[lock.obligation]);
    case StatusStep(o, _, _) => TouchingFinal(c, c', o, c'.obligations[o]);
    case UnlockStep(k) => UnlockFinal(c, k);
    case _ => SameObligations(c, c');
  }

  lemma StepKeepsFinal(c: Calculus, s: Step, at: nat, c': Calculus)
    requires Indexed(c) && Takes(c, s, at, c')
    ensures FinalStay(c, c')
  {
    hide Indexed, Stages, CommitsActivation, Jumps, TruthCalculus, AfterRestart, AfterScopeRestart, Relocked;
    match s
    case StageStep(assignments) => StageFinal(c, assignments, at, c');
    case ActivateStep(d, supersede) => ActivateFinal(c, d, supersede, at, c');
    case JumpStep(cid, requested) => JumpFinal(c, cid, requested, at, c');
    case RestartStep => ClearedFinal(c, ROOT, at);
    case ScopeRestartStep(scope) => ClearedFinal(c, scope, at);
    case TruthStep(plan) => TruthFinal(c, plan, at);
    case _ => QuietFinal(c, s, at, c');
  }

  /** No run moves an obligation out of REJECTED, SUPERSEDED or IMPOSSIBLE, nor revives a lock. */
  lemma {:induction false} RunKeepsFinal(states: seq<Calculus>, steps: seq<Step>, first: nat, i: nat)
    requires IsRun(states, steps, first) && Steady(states[0]) && i <= |steps|
    ensures FinalStay(states[i], states[|steps|])
    decreases |steps|
  {
    hide Takes, FinalStay, Steady, Indexed;
    var n := |steps|;
    if i < n {
      ShorterRun(states, steps, first);
      RunKeepsFinal(states[..n], steps[..n - 1], first, i);
      assert states[..n][i] == states[i] && states[..n][n - 1] == states[n - 1];
      RunKeepsSteady(states[..n], steps[..n - 1], first);
      SteadyMeans(states[n - 1]);
      StepKeepsFinal(states[n - 1], steps[n - 1], first + n - 1, states[n]);
      FinalStayChain(states[i], states[n - 1], states[n]);
    } else {
      SameObligations(states[n], states[n]);
    }
  }

  // ----- waiting work is not forgotten -----

  /** The fairness clock of `o` runs on: nothing records it as considered. */
  ghost predicate ClockRuns(c: Calculus, c': Calculus, o: Id) {
    && o in c.fairness && o in c'.fairness
    && c'.fairness[o].lastConsidered == c.fairness[o].lastConsidered
    && c'.fairness[o].deferredUntil == c.fairness[o].deferredUntil
  }

  predicate IsWaiting(c: Calculus, o: Id) {
    o in c.obligations && Waiting(c.obligations[o])
  }

  lemma AuditClock(c: Calculus, o: Id)
    requires o in c.fairness && IsWaiting(c, o)
    ensures ClockRuns(c, Audited(c), o)
  {
  }

  lemma SettledClock(c: Calculus, o: Id)
    requires o in c.fairness && IsWaiting(Settled(c), o)
    ensures ClockRuns(c, Settled(c), o)
  {
    RelockingReleases(c);
    assert IsWaiting(Relocked(c), o);
    AuditClock(Relocked(c), o);
  }

  lemma ClockChain(a: Calculus, b: Calculus, c: Calculus, o: Id)
    requires ClockRuns(a, b, o) && ClockRuns(b, c, o)
    ensures ClockRuns(a, c, o)
  {
  }

  lemma StageClock(c: Calculus, assignments: Assignments, at: nat, c': Calculus, o: Id)
    requires Stages(c, assignments, at, c') && o in c.fairness && IsWaiting(c, o) && IsWaiting(c', o)
    ensures ClockRuns(c, c', o) && c'.policy == c.policy && c'.epoch == c.epoch + 1
  {
    hide StagePath, Accepted, Settled, Audited, IsWaiting;
    var rows, p, act :| StagePath(c, assignments, at, rows, p, act) && Accepted(c, act) && c' == Finished(act);
    StagePathFrame(c, assignments, at, rows, p, act);
    AuditClock(c, o);
    AuditedOnly(c);
    SettledFrame(NextEpoch(act));
    SettledClock(NextEpoch(act), o);
    assert ClockRuns(c, NextEpoch(act), o);
    ClockChain(c, NextEpoch(act), c', o);
  }

  lemma JumpClock(c: Calculus, cid: Id, requested: Option<Id>, at: nat, c': Calculus, o: Id)
    requires Jumps(c, cid, requested, at, c') && o in c.fairness && IsWaiting(c', o)
    ensures ClockRuns(c, c', o) && c'.policy == c.policy && c'.epoch == c.epoch + 1
  {
    hide Settled, WidenedPlan, Applicable, IsPlan, Chosen, ExplanationValid, IsWaiting;
    var plan :| IsJump(c, cid, requested, plan) && JumpsAlong(c, plan, at, c', WidenedPlan(c, plan));
    SettledFrame(Recovered(c, plan, at));
    SettledClock(Recovered(c, plan, at), o);
    ClockChain(c, Recovered(c, plan, at), c', o);
  }

  lemma ActivateClock(c: Calculus, d: Id, supersede: Option<Id>, at: nat, c': Calculus, o: Id)
    requires Indexed(c) && CommitsActivation(c, d, supersede, at, c')
    requires o in c.fairness && IsWaiting(c, o) && IsWaiting(c', o)
    ensures ClockRuns(c, c', o) && c'.policy == c.policy && c'.epoch == c.epoch + 1
  {
    hide MayActivate, ActivationAccepted, ModelsAgree, Settled, Candidate, Indexed, Audited, Waiting;
    AuditedOnly(c);
    AuditKeepsIndexes(c);
    assert d in Audited(c).decisions by { MayKnown(Audited(c), d, supersede); }
    CandidateFrame(Audited(c), d, at);
    AuditClock(c, o);
    var act := NextEpoch(Candidate(Audited(c), d, at));
    SettledFrame(act);
    SettledClock(act, o);
    ClockChain(c, act, c', o);
  }

  lemma RestartClock(c: Calculus, o: Id)
    requires o in c.fairness && IsWaiting(AfterRestart(c), o)
    ensures ClockRuns(c, AfterRestart(c), o)
    ensures AfterRestart(c).policy == c.policy && AfterRestart(c).epoch == c.epoch + 1
  {
    hide Settled, IsWaiting;
    SettledFrame(Restart.Cleared(c));
    SettledClock(Restart.Cleared(c), o);
    ClockChain(c, Restart.Cleared(c), AfterRestart(c), o);
  }

  lemma ScopeRestartClock(c: Calculus, scope: Id, at: nat, o: Id)
    requires o in c.fairness && IsWaiting(AfterScopeRestart(c, scope, at), o)
    ensures ClockRuns(c, AfterScopeRestart(c, scope, at), o)
    ensures AfterScopeRestart(c, scope, at).policy == c.policy
    ensures AfterScopeRestart(c, scope, at).epoch == c.epoch + 1
  {
    hide Settled, IsWaiting;
    var mid := ScopeCleared(c, Subtree(c.scopes, scope), at);
    SettledFrame(mid);
    SettledClock(mid, o);
    ClockChain(c, mid, Settled(mid), o);
  }

  lemma QuietClock(c: Calculus, s: Step, at: nat, c': Calculus, o: Id)
    requires Takes(c, s, at, c') && !ChangesModel(s) && !(s.StatusStep? && s.obligation == o)
    requires o in c.fairness && IsWaiting(c, o) && IsWaiting(c', o)
    ensures ClockRuns(c, c', o) && c'.policy == c.policy && c'.epoch == c.epoch
  {
    hide Subsumes, IsCanonicalSnapshot, ExplanationValid, ConditionHolds, EffectiveValues;
    match s
    case AuditStep => AuditClock(c, o);
    case _ =>
  }

  lemma StepClock(c: Calculus, s: Step, at: nat, c': Calculus, o: Id)
    requires Indexed(c) && Takes(c, s, at, c') && !(s.StatusStep? && s.obligation == o)
    requires o in c.fairness && IsWaiting(c, o) && IsWaiting(c', o)
    ensures ClockRuns(c, c', o) && c'.policy == c.policy
    ensures c'.epoch == c.epoch + if ChangesModel(s) then 1 else 0
  {
    hide Indexed, Stages, CommitsActivation, Jumps, TruthCalculus, AfterRestart, AfterScopeRestart, IsWaiting;
    match s
    case StageStep(assignments) => StageClock(c, assignments, at, c', o);
    case ActivateStep(d, supersede) => ActivateClock(c, d, supersede, at, c', o);
    case JumpStep(cid, requested) => JumpClock(c, cid, requested, at, c', o);
    case RestartStep => RestartClock(c, o);
    case ScopeRestartStep(scope) => ScopeRestartClock(c, scope, at, o);
    case _ => QuietClock(c, s, at, c', o);
  }

  function ModelChanges(steps: seq<Step>): nat {
    if steps == [] then 0
    else ModelChanges(steps[..|steps| - 1]) + if ChangesModel(steps[|steps| - 1]) then 1 else 0
  }

  /** `o` waits all along, and no step sets its status by hand. */
  ghost predicate KeepsWaiting(states: seq<Calculus>, steps: seq<Step>, o: Id) {
    && (forall i :: 0 <= i < |states| ==> IsWaiting(states[i], o))
    && (forall i :: 0 <= i < |steps| ==> !(steps[i].StatusStep? && steps[i].obligation == o))
  }

  lemma {:induction false} ClockOverRun(states: seq<Calculus>, steps: seq<Step>, first: nat, o: Id)
    requires IsRun(states, steps, first) && Steady(states[0])
    requires KeepsWaiting(states, steps, o) && o in states[0].fairness
    ensures ClockRuns(states[0], states[|steps|], o) && states[|steps|].policy == states[0].policy
    ensures states[|steps|].epoch == states[0].epoch + ModelChanges(steps)
    decreases |steps|
  {
    hide Takes, IsWaiting, Steady, Indexed;
    if steps != [] {
      var n := |steps|;
      ShorterRun(states, steps, first);
      ClockOverRun(states[..n], steps[..n - 1], first, o);
      assert states[..n][n - 1] == states[n - 1] && states[..n][0] == states[0];
      RunKeepsSteady(states[..n], steps[..n - 1], first);
      SteadyMeans(states[n - 1]);
      StepClock(states[n - 1], steps[n - 1], first + n - 1, states[n], o);
      ClockChain(states[0], states[n - 1], states[n], o);
    }
  }

  /** Persistent work that keeps waiting without deferral is overdue at any audit held more than
      `max_hidden_epochs` after it was last considered, however the engine got there. */
  lemma WaitingWorkSurfaces(states: seq<Calculus>, steps: seq<Step>, first: nat, o: Id)
    requires IsRun(states, steps, first) && Steady(states[0]) && KeepsWaiting(states, steps, o)
    requires o in states[0].fairness && states[0].fairness[o].deferredUntil.None?
    requires states[0].epoch + ModelChanges(steps) - states[0].fairness[o].lastConsidered > states[0].policy.maxHidden
    ensures o in Reported(states[|steps|], Overdue)
  {
    hide Takes, Steady;
    ClockOverRun(states, steps, first, o);
    assert IsWaiting(states[|steps|], o);
    OverdueExactly(states[|steps|], o);
  }

  /** The state that the gate reads during a staging, as far as exposure depends on it: the
      obligations of `c`, and the effective values of `c'`. */
  ghost predicate Surfaced(c: Calculus, c': Calculus, o: Id) {
    o in Reported(c, Overdue) && o in c.obligations
    && (var ob := c.obligations[o];
        if ob.scope == ROOT then
          exists s :: s in c.scopes && !ConditionHolds(ob.activation, EffectiveValues(c, s))
            && ConditionHolds(ob.activation, EffectiveValues(c', s))
        else
          ConditionHolds(ob.activation, EffectiveValues(c', ob.scope)) && !ConditionHolds(ob.activation, map[]))
  }

  /** Under BLOCK_PLANNING a candidate staged while work is overdue surfaces some of it: the condition
      of a root obligation turned from false to true in the values of some scope, or the condition
      of a child-scope obligation holds in its scope. With the root as only scope, that is the
      condition of an overdue obligation turning from false to true. */
  lemma StageExposesOverdue(c: Calculus, assignments: Assignments, at: nat, c': Calculus) returns (o: Id)
    requires Indexed(c) && Stages(c, assignments, at, c')
    requires Reported(c, Overdue) != {} && c.policy.enforcement.BlockPlanning?
    requires c.fairness.Keys <= c.obligations.Keys
    ensures Surfaced(c, c', o)
  {
    hide StagePath, Settled, GatePasses;
    var rows, p, act :| StagePath(c, assignments, at, rows, p, act) && Accepted(c, act) && c' == Finished(act);
    StagePathFrame(c, assignments, at, rows, p, act);
    SettledFrame(NextEpoch(act));
    forall s ensures EffectiveValues(c', s) == EffectiveValues(act, s) {
      EffectiveFrame(act, c', s);
    }
    var late :| late in Reported(c, Overdue);
    assert late in OverdueRecords(act);
    o := RootGateExposes(act, PreviousValues(c));
    SurfacedByGate(c, act, c', o);
  }

  lemma SurfacedByGate(c: Calculus, act: Calculus, c': Calculus, o: Id)
    requires act.scopes == c.scopes && act.obligations == c.obligations && act.fairness == AuditedRecords(c)
    requires c.fairness.Keys <= c.obligations.Keys
    requires forall s :: EffectiveValues(c', s) == EffectiveValues(act, s)
    requires o in OverdueRecords(act) && Unlocks(act, PreviousValues(c), o)
    ensures Surfaced(c, c', o)
  {
    hide EffectiveValues, ConditionHolds, AuditRecord;
    var previous := PreviousValues(c);
    if c.obligations[o].scope == ROOT {
      var s :| s in act.scopes && ConditionHolds(act.obligations[o].activation, EffectiveValues(act, s))
        && !ConditionHolds(act.obligations[o].activation, previous[s]);
      assert previous[s] == EffectiveValues(c, s);
    }
  }

  // ----- engine steps leave learned knowledge alone -----

  /** Every step that does not revise the knowledge is a drift of the search: so the bound on conflict
      rounds holds whatever the engine does between them. */
  lemma StepDrifts(c: Calculus, s: Step, at: nat, c': Calculus)
    requires Steady(c) && Takes(c, s, at, c') && !RevisesKnowledge(s)
    ensures Drifts(c, c')
  {
    hide Takes, Indexed, LocksSound, SameDecisions;
    StepKeepsSteady(c, s, at, c');
    StepKeepsKnowledge(c, s, at, c');
  }

  lemma StepKeepsKnowledge(c: Calculus, s: Step, at: nat, c': Calculus)
    requires Steady(c) && Takes(c, s, at, c') && !RevisesKnowledge(s)
    ensures c'.constraints == c.constraints && c'.scopes.Keys == c.scopes.Keys && c'.scopeDeps == c.scopeDeps
  {
    hide Stages, CommitsActivation, Jumps, Settled, Indexed, LocksSound, SaneDependencies, WithdrawTruth, Relocked,
      CanEnable, CanLock, CanSetStatus, IsCanonicalSnapshot, ExplanationValid, Violated;
    match s
    case StageStep(assignments) =>
      StageEnforces(c, assignments, at, c');
      StageKeepsDependencies(c, assignments, at, c');
    case ActivateStep(d, supersede) => ActivationKnowledge(c, d, supersede, at, c');
    case JumpStep(cid, requested) => JumpKnowledge(c, cid, requested, at, c');
    case RestartStep => SettledFrame(Restart.Cleared(c));
    case ScopeRestartStep(scope) => SettledFrame(ScopeCleared(c, Subtree(c.scopes, scope), at));
    case TruthStep(plan) => TruthKnowledge(c, plan, at);
    case UnlockStep(k) => UnlockKnowledge(c, k);
    case _ =>
  }

  lemma ActivationKnowledge(c: Calculus, d: Id, supersede: Option<Id>, at: nat, c': Calculus)
    requires Indexed(c) && CommitsActivation(c, d, supersede, at, c')
    ensures c'.constraints == c.constraints && c'.scopes == c.scopes && c'.scopeDeps == c.scopeDeps
  {
    hide ActivatesDecision, ModelsAgree, Indexed;
    var next :| ActivatesDecision(c, d, supersede, at, next) && c' == Normalised(next);
    ActivationFrame(c, d, supersede, at, next);
  }

  lemma JumpKnowledge(c: Calculus, cid: Id, requested: Option<Id>, at: nat, c': Calculus)
    requires Jumps(c, cid, requested, at, c')
    ensures c'.constraints == c.constraints && c'.scopes.Keys == c.scopes.Keys && c'.scopeDeps == c.scopeDeps
  {
    hide Settled, WidenedPlan, Applicable, IsPlan, Chosen, ExplanationValid;
    var plan :| IsJump(c, cid, requested, plan) && JumpsAlong(c, plan, at, c', WidenedPlan(c, plan));
    SettledFrame(Recovered(c, plan, at));
  }

  lemma TruthKnowledge(c: Calculus, plan: TruthPlan, at: nat)
    ensures TruthCalculus(c, plan, at).constraints == c.constraints
    ensures TruthCalculus(c, plan, at).scopes == c.scopes && TruthCalculus(c, plan, at).scopeDeps == c.scopeDeps
  {
  }

  lemma UnlockKnowledge(c: Calculus, k: Id)
    requires k in c.locks
    ensures Unlocked(c, k).constraints == c.constraints
    ensures Unlocked(c, k).scopes == c.scopes && Unlocked(c, k).scopeDeps == c.scopeDeps
  {
    hide Relocked;
    RelockedFrame(c.(locks := c.locks[k := c.locks[k].(status := Broken, brokenEpoch := Some(c.epoch))]));
  }
}
