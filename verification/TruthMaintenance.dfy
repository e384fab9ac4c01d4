/** Truth-maintenance plans: applied by several durable writes, resumable after a crash at any point
    between them (`_apply_truth_plan` and `resume_truth_maintenance` of
    `_runtime_v38_dependencies.py`). */
module TruthMaintenance {
  import opened Foundations
  import opened CalculusModel
  import opened Backjump
  import opened Locks
  import opened Fairness
  import opened Activation
  import opened Commits

  datatype NodeType = ArtifactNode | DecisionNode | ObligationNode | OtherNode

  datatype Ref = Ref(kind: NodeType, id: Id)

  datatype ArtifactState =
    | ProposedArtifact | Supported | Contested | VerificationRequested | VerifiedArtifact | Authorized
    | Stale | Refuted | RejectedArtifact

  /** The affected nodes are listed without repetition. */
  datatype TruthPlan = TruthPlan(id: Id, affected: seq<Ref>)

  predicate Affects(plan: TruthPlan, kind: NodeType, id: Id) {
    Ref(kind, id) in plan.affected
  }

  ghost predicate Distinct(refs: seq<Ref>) {
    forall i, j :: 0 <= i < j < |refs| ==> refs[i] != refs[j]
  }

  // ----- the calculus part of a plan -----

  predicate Withdrawable(s: DecisionStatus) {
    s.Proposed? || s.Active? || s.Suspended?
  }

  function Withdrawn(c: Calculus, plan: TruthPlan): set<Id> {
    set d | d in c.decisions && Affects(plan, DecisionNode, d) && Withdrawable(c.decisions[d].status)
  }

  function Withdraw(d: Decision, plan: Id): Decision {
    d.(status := Invalidated, invalidatedByPlan := Some(plan))
  }

  /** Only work that already consumed the truth reopens, where the transition is legal. */
  function Reopens(c: Calculus, plan: TruthPlan): set<Id> {
    set o | o in c.obligations && Affects(plan, ObligationNode, o) && MayReopen(c.obligations[o].status)
  }

  function Reopen(o: Obligation, plan: Id, sequence: nat): Obligation {
    o.(status := NeedsRevalidation, changedAt := sequence, reason := Some(plan))
  }

  function WithdrawTruth(c: Calculus, plan: TruthPlan, sequence: nat): Calculus {
    var gone := Withdrawn(c, plan);
    var models := if gone == {} then c.models else ModelsWithout(c.models, gone);
    c.(decisions := map d | d in c.decisions ::
         if d in gone then Withdraw(c.decisions[d], plan.id) else c.decisions[d],
       models := models,
       activeModel := if gone == {} then c.activeModel else RootModel(models),
       obligations := map o | o in c.obligations ::
         if o in Reopens(c, plan) then Reopen(c.obligations[o], plan.id, sequence) else c.obligations[o])
  }

  /** The calculus is committed only if something changed. */
  predicate TruthChanges(c: Calculus, plan: TruthPlan, sequence: nat) {
    Withdrawn(c, plan) != {} || Reopens(c, plan) != {} || BrokenLocks(WithdrawTruth(c, plan, sequence)) != {}
  }

  function TruthCalculus(c: Calculus, plan: TruthPlan, sequence: nat): Calculus {
    Relocked(WithdrawTruth(c, plan, sequence))
  }

  method WithdrawDecisions(c: Calculus, plan: TruthPlan) returns (out: map<Id, Decision>, gone: set<Id>)
    ensures gone == Withdrawn(c, plan)
    ensures out == map d | d in c.decisions ::
      if d in gone then Withdraw(c.decisions[d], plan.id) else c.decisions[d]
  {
    out, gone := c.decisions, {};
    var rest := c.decisions.Keys;
    while rest != {}
      invariant rest <= c.decisions.Keys == out.Keys
      invariant forall d :: d in gone <==> d in Withdrawn(c, plan) && d !in rest
      invariant forall d :: d in c.decisions ==>
        out[d] == if d in gone then Withdraw(c.decisions[d], plan.id) else c.decisions[d]
      decreases rest
    {
      var d :| d in rest;
      rest := rest - {d};
      if Affects(plan, DecisionNode, d) && Withdrawable(out[d].status) {
        out := out[d := Withdraw(out[d], plan.id)];
        gone := gone + {d};
      }
    }
  }

  method ReopenConsumed(c: Calculus, plan: TruthPlan, sequence: nat)
    returns (out: map<Id, Obligation>, reopened: set<Id>)
    ensures reopened == Reopens(c, plan)
    ensures out == map o | o in c.obligations ::
      if o in reopened then Reopen(c.obligations[o], plan.id, sequence) else c.obligations[o]
  {
    out, reopened := c.obligations, {};
    var rest := c.obligations.Keys;
    while rest != {}
      invariant rest <= c.obligations.Keys == out.Keys
      invariant forall o :: o in reopened <==> o in Reopens(c, plan) && o !in rest
      invariant forall o :: o in c.obligations ==>
        out[o] == if o in reopened then Reopen(c.obligations[o], plan.id, sequence) else c.obligations[o]
      decreases rest
    {
      var o :| o in rest;
      rest := rest - {o};
      if Affects(plan, ObligationNode, o) && MayReopen(out[o].status) {
        out := out[o := Reopen(out[o], plan.id, sequence)];
        reopened := reopened + {o};
      }
    }
  }

  method UpdateCalculus(c: Calculus, plan: TruthPlan, sequence: nat) returns (next: Calculus, changed: bool)
    ensures next == TruthCalculus(c, plan, sequence) && changed == TruthChanges(c, plan, sequence)
  {
    var decisions, gone := WithdrawDecisions(c, plan);
    var models, activeModel := c.models, c.activeModel;
    if gone != {} {
      models := PurgeModels(c.models, gone);
      activeModel := RootModel(models);
    }
    var obligations, reopened := ReopenConsumed(c, plan, sequence);
    var updated := c.(decisions := decisions, models := models, activeModel := activeModel, obligations := obligations);
    var broken;
    next, broken := ReevaluateLocks(updated);
    changed := gone != {} || reopened != {} || broken != {};
  }

  lemma TruthRetires(c: Calculus, plan: TruthPlan, sequence: nat)
    requires Indexed(c)
    ensures Retires(c, WithdrawTruth(c, plan, sequence), Withdrawn(c, plan))
    ensures Indexed(WithdrawTruth(c, plan, sequence))
  {
    var gone, c' := Withdrawn(c, plan), WithdrawTruth(c, plan, sequence);
    if gone == {} {
      assert c'.models == ModelsWithout(c.models, gone) by {
        forall s | s in c.models ensures Without(c.models[s], gone) == c.models[s] {
        }
      }
    }
    RetiringKeepsSlots(c, c', gone);
  }

  /** The ACTIVE children of affected decisions are affected. */
  ghost predicate ClosedUnderChildren(c: Calculus, plan: TruthPlan) {
    forall d, p :: IsActive(c, d) && p in c.decisions[d].parents && Affects(plan, DecisionNode, p) ==>
      Affects(plan, DecisionNode, d)
  }

  /** A truth plan keeps the indexes, leaves both lock invariants, and keeps ACTIVE parents when its
      affected decisions are closed under ACTIVE children. */
  lemma TruthKeepsIndexes(c: Calculus, plan: TruthPlan, sequence: nat)
    requires Indexed(c)
    ensures Indexed(TruthCalculus(c, plan, sequence))
    ensures LocksSound(TruthCalculus(c, plan, sequence)) && LockedIsHeld(TruthCalculus(c, plan, sequence))
    ensures ParentsActive(c) && ClosedUnderChildren(c, plan) ==> ParentsActive(TruthCalculus(c, plan, sequence))
  {
    var mid := WithdrawTruth(c, plan, sequence);
    TruthRetires(c, plan, sequence);
    SameIndexes(mid, Relocked(mid));
    RelockingSound(mid);
    RelockingReleases(mid);
    if ParentsActive(c) {
      RetiringKeepsParents(c, mid, Withdrawn(c, plan));
    }
  }

  /** Locality: outside the affected nodes no decision changes, and no obligation except from LOCKED
      to AVAILABLE; disposed obligations never change. */
  lemma TruthIsLocal(c: Calculus, plan: TruthPlan, sequence: nat, d: Id, o: Id)
    ensures d in c.decisions && !Affects(plan, DecisionNode, d) ==>
      TruthCalculus(c, plan, sequence).decisions[d] == c.decisions[d]
    ensures o in c.obligations && (!Affects(plan, ObligationNode, o) || Disposed(c.obligations[o].status)) ==>
      var before, after := c.obligations[o], TruthCalculus(c, plan, sequence).obligations[o];
      after == before || (before.status.Locked? && after == before.(status := Available))
  {
  }

  lemma NothingWithdrawn(c: Calculus, plan: TruthPlan, sequence: nat)
    requires Withdrawn(c, plan) == {} && Reopens(c, plan) == {}
    ensures WithdrawTruth(c, plan, sequence) == c
  {
    assert WithdrawTruth(c, plan, sequence).decisions == c.decisions;
    assert WithdrawTruth(c, plan, sequence).obligations == c.obligations;
  }

  lemma NothingLeft(c: Calculus, plan: TruthPlan, sequence: nat)
    ensures Withdrawn(TruthCalculus(c, plan, sequence), plan) == {}
    ensures Reopens(TruthCalculus(c, plan, sequence), plan) == {}
  {
    var mid, next := WithdrawTruth(c, plan, sequence), TruthCalculus(c, plan, sequence);
    assert next.decisions == mid.decisions;
    forall o | o in next.obligations && Affects(plan, ObligationNode, o) ensures !MayReopen(next.obligations[o].status) {
      NotReopenable(c, plan, sequence, o);
    }
  }

  lemma NotReopenable(c: Calculus, plan: TruthPlan, sequence: nat, o: Id)
    requires o in c.obligations && Affects(plan, ObligationNode, o)
    ensures !MayReopen(TruthCalculus(c, plan, sequence).obligations[o].status)
  {
  }

  /** Applied again, a plan finds nothing left to change. */
  lemma TruthIsIdempotent(c: Calculus, plan: TruthPlan, sequence: nat, later: nat)
    ensures !TruthChanges(TruthCalculus(c, plan, sequence), plan, later)
  {
    var next := TruthCalculus(c, plan, sequence);
    NothingLeft(c, plan, sequence);
    NothingWithdrawn(next, plan, later);
    RelockingSound(WithdrawTruth(c, plan, sequence));
  }

  // ----- the durable writes of one application -----

  datatype TruthResult = TruthResult(
    stale: set<Id>, terminal: set<Id>, withdrawn: set<Id>,
    reopened: set<Id>, preserved: set<Id>, brokenLocks: set<Id>)

  /** What the durable history holds: artifact states, the calculus, the applied plans, the log of
      STALE transitions and of applied records, and the length of the history. */
  datatype World = World(
    artifacts: map<Id, ArtifactState>,
    calculus: Calculus,
    applied: map<Id, TruthResult>,
    staleLog: seq<Id>,
    appliedLog: seq<Id>,
    sequence: nat)

  datatype Write =
    | StaleWrite(artifact: Id)
    | CalculusWrite(next: Calculus)
    | AppliedWrite(plan: Id, result: TruthResult)

  /** Each write is one event; the world is what the events replay to. */
  function Replay(w: World, e: Write): World {
    match e
    case StaleWrite(a) =>
      w.(artifacts := w.artifacts[a := Stale], staleLog := w.staleLog + [a], sequence := w.sequence + 1)
    case CalculusWrite(next) => w.(calculus := next, sequence := w.sequence + 1)
    case AppliedWrite(plan, result) =>
      w.(applied := w.applied[plan := result], appliedLog := w.appliedLog + [plan], sequence := w.sequence + 1)
  }

  function ReplayAll(w: World, es: seq<Write>): World
    decreases |es|
  {
    if es == [] then w else ReplayAll(Replay(w, es[0]), es[1..])
  }

  predicate TerminalArtifact(s: ArtifactState) {
    s.Refuted? || s.RejectedArtifact?
  }

  predicate NeedsStale(artifacts: map<Id, ArtifactState>, r: Ref) {
    r.kind.ArtifactNode? && r.id in artifacts && !artifacts[r.id].Stale? && !TerminalArtifact(artifacts[r.id])
  }

  /** The artifacts still to be marked, in the order of the plan. */
  function StaleTargets(artifacts: map<Id, ArtifactState>, refs: seq<Ref>): seq<Id> {
    if refs == [] then []
    else (if NeedsStale(artifacts, refs[0]) then [refs[0].id] else []) + StaleTargets(artifacts, refs[1..])
  }

  function StaleWrites(ids: seq<Id>): seq<Write> {
    seq(|ids|, i requires 0 <= i < |ids| => StaleWrite(ids[i]))
  }

  /** The two identifier lists about artifacts that the applied record reports. */
  function ReportedStale(artifacts: map<Id, ArtifactState>, plan: TruthPlan): set<Id> {
    set r | r in plan.affected && r.kind.ArtifactNode? && r.id in artifacts && !TerminalArtifact(artifacts[r.id]) :: r.id
  }

  function ReportedTerminal(artifacts: map<Id, ArtifactState>, plan: TruthPlan): set<Id> {
    set r | r in plan.affected && r.kind.ArtifactNode? && r.id in artifacts && TerminalArtifact(artifacts[r.id]) :: r.id
  }

  function ReportedReopened(c: Calculus, plan: TruthPlan): set<Id> {
    set o | o in c.obligations && Affects(plan, ObligationNode, o)
      && (c.obligations[o].status.NeedsRevalidation? || MayReopen(c.obligations[o].status))
  }

  /** The affected obligations that the plan leaves alone: disposed, or without a legal reopening. */
  function ReportedPreserved(c: Calculus, plan: TruthPlan): set<Id> {
    set o | o in c.obligations && Affects(plan, ObligationNode, o)
      && !c.obligations[o].status.NeedsRevalidation? && !MayReopen(c.obligations[o].status)
  }

  function ResultOf(artifacts: map<Id, ArtifactState>, c: Calculus, plan: TruthPlan, sequence: nat): TruthResult {
    TruthResult(ReportedStale(artifacts, plan), ReportedTerminal(artifacts, plan), Withdrawn(c, plan),
                ReportedReopened(c, plan), ReportedPreserved(c, plan), BrokenLocks(WithdrawTruth(c, plan, sequence)))
  }

  /** The writes after the artifacts: the calculus if it changed, then the applied record. A commit
      that the engine refuses ends the application before its record. */
  ghost function CalculusWrites(artifacts: map<Id, ArtifactState>, c: Calculus, plan: TruthPlan, sequence: nat): seq<Write> {
    var record := AppliedWrite(plan.id, ResultOf(artifacts, c, plan, sequence));
    if !TruthChanges(c, plan, sequence) then [record]
    else
      var next := Normalised(TruthCalculus(c, plan, sequence));
      if CommitAdmits(next) then [CalculusWrite(next), record] else []
  }

  /** Every durable write an application of `plan` performs in `w`, in order. */
  ghost function Pending(w: World, plan: TruthPlan): seq<Write> {
    if plan.id in w.applied then []
    else
      var targets := StaleTargets(w.artifacts, plan.affected);
      StaleWrites(targets) + CalculusWrites(w.artifacts, w.calculus, plan, w.sequence + |targets| + 1)
  }

  /** The world after a complete application, and after one that crashes before its write `k`. */
  ghost function Completed(w: World, plan: TruthPlan): World {
    ReplayAll(w, Pending(w, plan))
  }

  ghost function Crashed(w: World, plan: TruthPlan, k: nat): World {
    ReplayAll(w, if k <= |Pending(w, plan)| then Pending(w, plan)[..k] else Pending(w, plan))
  }

  lemma {:induction false} ReplaySplit(w: World, es: seq<Write>, fs: seq<Write>)
    ensures ReplayAll(w, es + fs) == ReplayAll(ReplayAll(w, es), fs)
    decreases |es|
  {
    if es == [] {
      assert es + fs == fs;
    } else {
      assert (es + fs)[1..] == es[1..] + fs;
      ReplaySplit(Replay(w, es[0]), es[1..], fs);
    }
  }

  // ----- what is left after a crash among the artifacts -----

  function MarkStale(artifacts: map<Id, ArtifactState>, ids: seq<Id>): map<Id, ArtifactState> {
    map a | a in artifacts :: if a in ids then Stale else artifacts[a]
  }

  lemma {:induction false} ReplayStale(w: World, ids: seq<Id>)
    requires forall a :: a in ids ==> a in w.artifacts
    ensures ReplayAll(w, StaleWrites(ids)) ==
      w.(artifacts := MarkStale(w.artifacts, ids), staleLog := w.staleLog + ids, sequence := w.sequence + |ids|)
    decreases |ids|
  {
    if ids == [] {
      assert MarkStale(w.artifacts, []) == w.artifacts;
    } else {
      var next := Replay(w, StaleWrite(ids[0]));
      assert StaleWrites(ids)[1..] == StaleWrites(ids[1..]);
      assert next.artifacts.Keys == w.artifacts.Keys;
      ReplayStale(next, ids[1..]);
      assert ids == [ids[0]] + ids[1..];
      assert MarkStale(next.artifacts, ids[1..]) == MarkStale(w.artifacts, ids);
      assert next.staleLog + ids[1..] == w.staleLog + ids;
    }
  }

  lemma {:induction false} TargetsNeedStale(artifacts: map<Id, ArtifactState>, refs: seq<Ref>)
    requires Distinct(refs)
    ensures forall a :: a in StaleTargets(artifacts, refs) <==>
      Ref(ArtifactNode, a) in refs && NeedsStale(artifacts, Ref(ArtifactNode, a))
    ensures forall i, j :: 0 <= i < j < |StaleTargets(artifacts, refs)| ==>
      StaleTargets(artifacts, refs)[i] != StaleTargets(artifacts, refs)[j]
  {
    if refs != [] {
      assert refs == [refs[0]] + refs[1..];
      TargetsNeedStale(artifacts, refs[1..]);
      assert refs[0] !in refs[1..];
    }
  }

  /** Marking a prefix of the targets leaves exactly the rest of them. */
  lemma {:induction false} TargetsAfterPrefix(artifacts: map<Id, ArtifactState>, refs: seq<Ref>, k: nat)
    requires Distinct(refs) && k <= |StaleTargets(artifacts, refs)|
    ensures StaleTargets(MarkStale(artifacts, StaleTargets(artifacts, refs)[..k]), refs) ==
      StaleTargets(artifacts, refs)[k..]
  {
    var all := StaleTargets(artifacts, refs);
    var done, left := all[..k], all[k..];
    TargetsNeedStale(artifacts, refs);
    assert all == done + left;
    MarkedTargets(artifacts, refs, done);
    ExceptSplit(done, left, done);
    ExceptAll(done, done);
    ExceptNone(left, done);
  }

  function Except(ids: seq<Id>, gone: seq<Id>): seq<Id> {
    if ids == [] then [] else (if ids[0] in gone then [] else [ids[0]]) + Except(ids[1..], gone)
  }

  lemma {:induction false} MarkedTargets(artifacts: map<Id, ArtifactState>, refs: seq<Ref>, gone: seq<Id>)
    ensures StaleTargets(MarkStale(artifacts, gone), refs) == Except(StaleTargets(artifacts, refs), gone)
  {
    if refs != [] {
      MarkedTargets(artifacts, refs[1..], gone);
      var head := if NeedsStale(artifacts, refs[0]) then [refs[0].id] else [];
      ExceptSplit(head, StaleTargets(artifacts, refs[1..]), gone);
      assert NeedsStale(MarkStale(artifacts, gone), refs[0]) <==>
        NeedsStale(artifacts, refs[0]) && refs[0].id !in gone;
    }
  }

  lemma {:induction false} ExceptSplit(xs: seq<Id>, ys: seq<Id>, gone: seq<Id>)
    ensures Except(xs + ys, gone) == Except(xs, gone) + Except(ys, gone)
  {
    if xs == [] {
      assert xs + ys == ys;
    } else {
      assert (xs + ys)[1..] == xs[1..] + ys;
      ExceptSplit(xs[1..], ys, gone);
    }
  }

  lemma {:induction false} ExceptAll(xs: seq<Id>, gone: seq<Id>)
    requires forall x :: x in xs ==> x in gone
    ensures Except(xs, gone) == []
  {
    if xs != [] {
      ExceptAll(xs[1..], gone);
    }
  }

  lemma {:induction false} ExceptNone(xs: seq<Id>, gone: seq<Id>)
    requires forall x :: x in xs ==> x !in gone
    ensures Except(xs, gone) == xs
  {
    if xs != [] {
      ExceptNone(xs[1..], gone);
    }
  }

  // ----- crashing and resuming -----

  /** The histories agree on everything but the identifier lists inside applied records. */
  ghost predicate SameOutcome(w: World, v: World) {
    && w.artifacts == v.artifacts && w.calculus == v.calculus && w.applied.Keys == v.applied.Keys
    && w.staleLog == v.staleLog && w.appliedLog == v.appliedLog && w.sequence == v.sequence
  }

  /** The world once all artifacts of the plan are marked. */
  function Marked(w: World, plan: TruthPlan, k: nat): World
    requires k <= |StaleTargets(w.artifacts, plan.affected)|
  {
    var done := StaleTargets(w.artifacts, plan.affected)[..k];
    w.(artifacts := MarkStale(w.artifacts, done), staleLog := w.staleLog + done, sequence := w.sequence + k)
  }

  lemma PrefixOfTargets(w: World, plan: TruthPlan, k: nat)
    requires Distinct(plan.affected) && k <= |StaleTargets(w.artifacts, plan.affected)|
    ensures forall a :: a in StaleTargets(w.artifacts, plan.affected)[..k] ==>
      a in w.artifacts && !TerminalArtifact(w.artifacts[a])
  {
    TargetsNeedStale(w.artifacts, plan.affected);
    forall a | a in StaleTargets(w.artifacts, plan.affected)[..k]
      ensures a in w.artifacts && !TerminalArtifact(w.artifacts[a])
    {
      assert a in StaleTargets(w.artifacts, plan.affected);
    }
  }

  /** A crash among the artifact writes leaves exactly the remaining writes to do. */
  lemma CrashAmongArtifacts(w: World, plan: TruthPlan, k: nat)
    requires Distinct(plan.affected) && plan.id !in w.applied
    requires k <= |StaleTargets(w.artifacts, plan.affected)|
    ensures k <= |Pending(w, plan)| && Crashed(w, plan, k) == Marked(w, plan, k)
    ensures Pending(Marked(w, plan, k), plan) == Pending(w, plan)[k..]
  {
    hide TruthCalculus, TruthChanges, CommitAdmits, Normalised;
    var targets := StaleTargets(w.artifacts, plan.affected);
    var done := targets[..k];
    PrefixOfTargets(w, plan, k);
    assert Pending(w, plan)[..k] == StaleWrites(done);
    ReplayStale(w, done);
    TargetsAfterPrefix(w.artifacts, plan.affected, k);
    SameReport(w.artifacts, MarkStale(w.artifacts, done), plan);
    assert StaleWrites(targets)[k..] == StaleWrites(targets[k..]);
    var rest := CalculusWrites(w.artifacts, w.calculus, plan, w.sequence + |targets| + 1);
    assert (StaleWrites(targets) + rest)[k..] == StaleWrites(targets)[k..] + rest;
  }

  /** Marking targets stale changes neither list that the record reports. */
  lemma SameReport(artifacts: map<Id, ArtifactState>, after: map<Id, ArtifactState>, plan: TruthPlan)
    requires after.Keys == artifacts.Keys
    requires forall a :: a in artifacts ==> TerminalArtifact(after[a]) == TerminalArtifact(artifacts[a])
    ensures ReportedStale(after, plan) == ReportedStale(artifacts, plan)
    ensures ReportedTerminal(after, plan) == ReportedTerminal(artifacts, plan)
  {
  }

  /** The calculus is durable and only the applied record is missing. */
  ghost function Unrecorded(w: World, plan: TruthPlan): World {
    var n := |StaleTargets(w.artifacts, plan.affected)|;
    Replay(Marked(w, plan, n), CalculusWrite(Normalised(TruthCalculus(w.calculus, plan, w.sequence + n + 1))))
  }

  ghost predicate ReachesRecord(w: World, plan: TruthPlan) {
    var n := |StaleTargets(w.artifacts, plan.affected)|;
    TruthChanges(w.calculus, plan, w.sequence + n + 1)
    && CommitAdmits(Normalised(TruthCalculus(w.calculus, plan, w.sequence + n + 1)))
  }

  lemma CrashBeforeRecord(w: World, plan: TruthPlan)
    requires Distinct(plan.affected) && plan.id !in w.applied && Indexed(w.calculus)
    requires ReachesRecord(w, plan)
    ensures var n := |StaleTargets(w.artifacts, plan.affected)|;
      |Pending(w, plan)| == n + 2 && Crashed(w, plan, n + 1) == Unrecorded(w, plan)
  {
    hide TruthCalculus, TruthChanges, CommitAdmits, Normalised, ResultOf;
    var n := |StaleTargets(w.artifacts, plan.affected)|;
    CrashAmongArtifacts(w, plan, n);
    var all := Pending(w, plan);
    assert all[..n + 1] == all[..n] + [all[n]];
    ReplaySplit(w, all[..n], [all[n]]);
    var before := ReplayAll(w, all[..n]);
    assert ReplayAll(before, [all[n]]) == Replay(before, all[n]) by {
      assert [all[n]][1..] == [];
    }
  }

  /** Resumed there, the application only writes its record. */
  lemma OnlyRecordLeft(w: World, plan: TruthPlan)
    requires Distinct(plan.affected) && plan.id !in w.applied && Indexed(w.calculus)
    ensures Indexed(Unrecorded(w, plan).calculus)
    ensures |Pending(Unrecorded(w, plan), plan)| == 1
    ensures Pending(Unrecorded(w, plan), plan)[0].AppliedWrite? && Pending(Unrecorded(w, plan), plan)[0].plan == plan.id
  {
    hide TruthCalculus, TruthChanges, CommitAdmits, Normalised, ResultOf;
    var n := |StaleTargets(w.artifacts, plan.affected)|;
    var next := TruthCalculus(w.calculus, plan, w.sequence + n + 1);
    TruthKeepsIndexes(w.calculus, plan, w.sequence + n + 1);
    IndexedModelsAgree(next);
    TargetsAfterPrefix(w.artifacts, plan.affected, n);
    assert StaleTargets(Unrecorded(w, plan).artifacts, plan.affected) == [];
    TruthIsIdempotent(w.calculus, plan, w.sequence + n + 1, Unrecorded(w, plan).sequence + 1);
  }

  lemma ReplayOne(w: World, e: Write)
    ensures ReplayAll(w, [e]) == Replay(w, e)
  {
    assert [e][1..] == [];
  }

  lemma ReplayTwo(w: World, e: Write, f: Write)
    ensures ReplayAll(w, [e, f]) == Replay(Replay(w, e), f)
  {
    assert [e, f][1..] == [f];
    ReplayOne(Replay(w, e), f);
  }

  lemma CompletedFromUnrecorded(w: World, plan: TruthPlan)
    requires Distinct(plan.affected) && plan.id !in w.applied && Indexed(w.calculus) && ReachesRecord(w, plan)
    ensures SameOutcome(Completed(Unrecorded(w, plan), plan), Completed(w, plan))
  {
    hide TruthCalculus, TruthChanges, CommitAdmits, Normalised, ResultOf;
    var n := |StaleTargets(w.artifacts, plan.affected)|;
    CrashBeforeRecord(w, plan);
    OnlyRecordLeft(w, plan);
    var all, left := Pending(w, plan), Pending(Unrecorded(w, plan), plan);
    assert all == all[..n + 1] + [all[n + 1]] && left == [left[0]];
    ReplaySplit(w, all[..n + 1], [all[n + 1]]);
    ReplayOne(Unrecorded(w, plan), all[n + 1]);
    ReplayOne(Unrecorded(w, plan), left[0]);
  }

  lemma CompletedAfterMarks(w: World, plan: TruthPlan, k: nat)
    requires Distinct(plan.affected) && plan.id !in w.applied
    requires k <= |StaleTargets(w.artifacts, plan.affected)|
    ensures Completed(Marked(w, plan, k), plan) == Completed(w, plan)
  {
    hide TruthCalculus, TruthChanges, CommitAdmits, Normalised, ResultOf, CalculusWrites, Marked, MarkStale, Pending;
    CrashAmongArtifacts(w, plan, k);
    var all := Pending(w, plan);
    assert all == all[..k] + all[k..];
    ReplaySplit(w, all[..k], all[k..]);
  }

  /** Completing is final: the record, or else the refused commit, leaves nothing to write. */
  lemma CompletedIsFinal(w: World, plan: TruthPlan)
    requires Distinct(plan.affected) && Indexed(w.calculus)
    ensures Pending(Completed(w, plan), plan) == [] && Indexed(Completed(w, plan).calculus)
  {
    hide TruthCalculus, TruthChanges, CommitAdmits, Normalised, ResultOf, Unrecorded;
    if plan.id !in w.applied {
      var n := |StaleTargets(w.artifacts, plan.affected)|;
      CrashAmongArtifacts(w, plan, n);
      var all := Pending(w, plan);
      assert all == all[..n] + all[n..];
      ReplaySplit(w, all[..n], all[n..]);
      if ReachesRecord(w, plan) {
        CrashBeforeRecord(w, plan);
        OnlyRecordLeft(w, plan);
        assert all == all[..n + 1] + [all[n + 1]];
        ReplaySplit(w, all[..n + 1], [all[n + 1]]);
        ReplayOne(Unrecorded(w, plan), all[n + 1]);
      } else if all[n..] != [] {
        assert all[n..] == [all[n]];
        ReplayOne(Marked(w, plan, n), all[n]);
      }
    }
  }

  /** Wherever an application crashes, resuming it reaches the outcome of the uninterrupted one. */
  lemma CrashThenResume(w: World, plan: TruthPlan, k: nat)
    requires Distinct(plan.affected) && Indexed(w.calculus)
    ensures Indexed(Crashed(w, plan, k).calculus)
    ensures SameOutcome(Completed(Crashed(w, plan, k), plan), Completed(w, plan))
  {
    hide TruthCalculus, TruthChanges, CommitAdmits, Normalised, ResultOf;
    var all := Pending(w, plan);
    if k >= |all| {
      assert all[..|all|] == all;
      CompletedIsFinal(w, plan);
    } else {
      var n := |StaleTargets(w.artifacts, plan.affected)|;
      if k <= n {
        CrashAmongArtifacts(w, plan, k);
        CompletedAfterMarks(w, plan, k);
      } else {
        CrashBeforeRecord(w, plan);
        OnlyRecordLeft(w, plan);
        CompletedFromUnrecorded(w, plan);
      }
    }
  }

  /** Any number of crashes, each during the resumption after the one before. */
  ghost function Resumed(w: World, plan: TruthPlan, crashes: seq<nat>): World
    decreases |crashes|
  {
    if crashes == [] then Completed(w, plan) else Resumed(Crashed(w, plan, crashes[0]), plan, crashes[1..])
  }

  lemma {:induction false} CrashesConverge(w: World, plan: TruthPlan, crashes: seq<nat>)
    requires Distinct(plan.affected) && Indexed(w.calculus)
    ensures SameOutcome(Resumed(w, plan, crashes), Completed(w, plan))
    decreases |crashes|
  {
    if crashes != [] {
      CrashThenResume(w, plan, crashes[0]);
      CrashesConverge(Crashed(w, plan, crashes[0]), plan, crashes[1..]);
    }
  }

  lemma CompletedLogs(w: World, plan: TruthPlan)
    requires Distinct(plan.affected) && plan.id !in w.applied && Indexed(w.calculus)
    ensures Completed(w, plan).staleLog == w.staleLog + StaleTargets(w.artifacts, plan.affected)
    ensures Completed(w, plan).appliedLog ==
      w.appliedLog + if plan.id in Completed(w, plan).applied then [plan.id] else []
    ensures plan.id in Completed(w, plan).applied <==>
      (ReachesRecord(w, plan)
       || !TruthChanges(w.calculus, plan, w.sequence + |StaleTargets(w.artifacts, plan.affected)| + 1))
  {
    hide TruthCalculus, TruthChanges, CommitAdmits, Normalised, ResultOf, MarkStale;
    var n := |StaleTargets(w.artifacts, plan.affected)|;
    CrashAmongArtifacts(w, plan, n);
    var all := Pending(w, plan);
    assert all == all[..n] + all[n..];
    ReplaySplit(w, all[..n], all[n..]);
    assert StaleTargets(w.artifacts, plan.affected)[..n] == StaleTargets(w.artifacts, plan.affected);
    if ReachesRecord(w, plan) {
      CrashBeforeRecord(w, plan);
      assert all == all[..n + 1] + [all[n + 1]];
      ReplaySplit(w, all[..n + 1], [all[n + 1]]);
      ReplayOne(Unrecorded(w, plan), all[n + 1]);
    } else if all[n..] != [] {
      assert all[n..] == [all[n]];
      ReplayOne(Marked(w, plan, n), all[n]);
    }
  }

  /** However often it is interrupted, a plan moves each artifact to STALE at most once, exactly the
      affected ones that were neither STALE nor terminal, and records its application exactly once
      unless the commit of the calculus is refused. */
  lemma AppliedExactlyOnce(w: World, plan: TruthPlan, crashes: seq<nat>)
    requires Distinct(plan.affected) && plan.id !in w.applied && Indexed(w.calculus)
    ensures var end, marked := Resumed(w, plan, crashes), StaleTargets(w.artifacts, plan.affected);
      && end.staleLog == w.staleLog + marked
      && (forall i, j :: 0 <= i < j < |marked| ==> marked[i] != marked[j])
      && (forall a :: a in marked <==> Affects(plan, ArtifactNode, a) && NeedsStale(w.artifacts, Ref(ArtifactNode, a)))
      && end.appliedLog == w.appliedLog + (if plan.id in end.applied then [plan.id] else [])
      && (plan.id in end.applied <==>
          (ReachesRecord(w, plan) || !TruthChanges(w.calculus, plan, w.sequence + |marked| + 1)))
  {
    CrashesConverge(w, plan, crashes);
    CompletedLogs(w, plan);
    TargetsNeedStale(w.artifacts, plan.affected);
  }

  // ----- the runtime that performs the writes -----

  lemma {:induction false} SkipsMarked(artifacts: map<Id, ArtifactState>, refs: seq<Ref>, i: nat, done: seq<Id>)
    requires Distinct(refs) && i < |refs|
    requires forall a :: a in done ==> Ref(ArtifactNode, a) in refs[..i]
    ensures NeedsStale(MarkStale(artifacts, done), refs[i]) <==> NeedsStale(artifacts, refs[i])
  {
    assert refs[i] !in refs[..i];
  }

  lemma NoneMarked(artifacts: map<Id, ArtifactState>, refs: seq<Ref>)
    ensures MarkStale(artifacts, []) == artifacts && StaleWrites([]) == []
    ensures StaleTargets(artifacts, refs[0..]) == StaleTargets(artifacts, refs)
    ensures StaleTargets(artifacts, refs[|refs|..]) == []
  {
    assert refs[0..] == refs;
  }

  lemma NextTarget(artifacts: map<Id, ArtifactState>, refs: seq<Ref>, i: nat)
    requires i < |refs|
    ensures StaleTargets(artifacts, refs[i..]) ==
      (if NeedsStale(artifacts, refs[i]) then [refs[i].id] else []) + StaleTargets(artifacts, refs[i + 1..])
  {
    assert refs[i..][1..] == refs[i + 1..];
  }

  lemma MarkOne(artifacts: map<Id, ArtifactState>, done: seq<Id>, ref: Ref)
    requires NeedsStale(artifacts, ref)
    ensures MarkStale(artifacts, done)[ref.id := Stale] == MarkStale(artifacts, done + [ref.id])
    ensures StaleWrites(done + [ref.id]) == StaleWrites(done) + [StaleWrite(ref.id)]
    ensures ref.kind.ArtifactNode?
  {
  }

  /** Opened on a durable history; everything it does to the history goes through its three writes,
      so a crash leaves the history after some prefix of them. */
  class TruthRuntime {
    var artifacts: map<Id, ArtifactState>
    var calculus: Calculus
    var applied: map<Id, TruthResult>
    var plans: map<Id, TruthPlan>
    var sequence: nat
    ghost var staleLog: seq<Id>
    ghost var appliedLog: seq<Id>
    ghost var journal: seq<Write>

    ghost predicate Valid()
      reads this
    {
      Indexed(calculus) && forall p :: p in plans ==> plans[p].id == p && Distinct(plans[p].affected)
    }

    ghost function History(): World
      reads this
    {
      World(artifacts, calculus, applied, staleLog, appliedLog, sequence)
    }

    constructor (w: World, plans: map<Id, TruthPlan>)
      requires Indexed(w.calculus)
      requires forall p :: p in plans ==> plans[p].id == p && Distinct(plans[p].affected)
      ensures Valid() && History() == w && journal == [] && this.plans == plans
    {
      artifacts, calculus, applied, sequence := w.artifacts, w.calculus, w.applied, w.sequence;
      this.plans := plans;
      staleLog, appliedLog, journal := w.staleLog, w.appliedLog, [];
    }

    method WriteStale(a: Id)
      modifies this
      ensures History() == Replay(old(History()), StaleWrite(a))
      ensures journal == old(journal) + [StaleWrite(a)] && plans == old(plans)
    {
      artifacts, sequence := artifacts[a := Stale], sequence + 1;
      staleLog, journal := staleLog + [a], journal + [StaleWrite(a)];
    }

    method WriteCalculus(next: Calculus)
      modifies this
      ensures History() == Replay(old(History()), CalculusWrite(next))
      ensures journal == old(journal) + [CalculusWrite(next)] && plans == old(plans)
    {
      calculus, sequence := next, sequence + 1;
      journal := journal + [CalculusWrite(next)];
    }

    method WriteApplied(plan: Id, result: TruthResult)
      modifies this
      ensures History() == Replay(old(History()), AppliedWrite(plan, result))
      ensures journal == old(journal) + [AppliedWrite(plan, result)] && plans == old(plans)
    {
      applied, sequence := applied[plan := result], sequence + 1;
      appliedLog, journal := appliedLog + [plan], journal + [AppliedWrite(plan, result)];
    }

    /** The artifact writes, in the order of the plan. */
    method MarkArtifacts(plan: TruthPlan)
      requires Distinct(plan.affected)
      modifies this
      ensures var targets := StaleTargets(old(artifacts), plan.affected);
        && journal == old(journal) + StaleWrites(targets)
        && History() == Marked(old(History()), plan, |targets|)
      ensures plans == old(plans)
    {
      hide Indexed, StaleTargets, MarkStale, NeedsStale, StaleWrites;
      ghost var targets := StaleTargets(artifacts, plan.affected);
      ghost var done: seq<Id> := [];
      NoneMarked(artifacts, plan.affected);
      for i := 0 to |plan.affected|
        invariant plans == old(plans) && calculus == old(calculus) && applied == old(applied)
        invariant appliedLog == old(appliedLog) && staleLog == old(staleLog) + done
        invariant sequence == old(sequence) + |done| && journal == old(journal) + StaleWrites(done)
        invariant artifacts == MarkStale(old(artifacts), done)
        invariant forall a :: a in done ==> Ref(ArtifactNode, a) in plan.affected[..i]
        invariant done + StaleTargets(old(artifacts), plan.affected[i..]) == targets
      {
        var ref := plan.affected[i];
        SkipsMarked(old(artifacts), plan.affected, i, done);
        NextTarget(old(artifacts), plan.affected, i);
        if NeedsStale(artifacts, ref) {
          MarkOne(old(artifacts), done, ref);
          WriteStale(ref.id);
          done := done + [ref.id];
        }
      }
      assert targets[..|targets|] == targets;
    }

    /** The calculus write, if anything changed, and the applied record. */
    method Conclude(plan: TruthPlan, ghost from: map<Id, ArtifactState>) returns (r: Result<TruthResult>)
      requires Indexed(calculus)
      requires ReportedStale(from, plan) == ReportedStale(artifacts, plan)
      requires ReportedTerminal(from, plan) == ReportedTerminal(artifacts, plan)
      modifies this
      ensures Indexed(calculus) && plans == old(plans)
      ensures var writes := CalculusWrites(from, old(calculus), plan, old(sequence) + 1);
        && journal == old(journal) + writes
        && History() == ReplayAll(old(History()), writes)
      ensures r.Ok? ==> plan.id in applied && r.value == applied[plan.id]
      ensures r.Ok? <==> plan.id in applied && CalculusWrites(from, old(calculus), plan, old(sequence) + 1) != []
    {
      hide TruthCalculus, TruthChanges, CommitAdmits, Normalised, Withdrawn, ReportedReopened, Indexed;
      var result := ResultOf(artifacts, calculus, plan, sequence + 1);
      ghost var before := History();
      assert result == ResultOf(from, calculus, plan, sequence + 1);
      var next, changed := UpdateCalculus(calculus, plan, sequence + 1);
      TruthKeepsIndexes(calculus, plan, sequence + 1);
      IndexedModelsAgree(next);
      if changed {
        var normal := Normalised(next);
        var admitted := CheckCommit(normal);
        if !admitted {
          return Err(ValueError("scope models violate hard constraints"));
        }
        WriteCalculus(normal);
        ReplayTwo(before, CalculusWrite(normal), AppliedWrite(plan.id, result));
      } else {
        ReplayOne(before, AppliedWrite(plan.id, result));
      }
      WriteApplied(plan.id, result);
      r := Ok(result);
    }

    /** `_apply_truth_plan`. An invalid dependency graph stops the application before any write. */
    method ApplyTruthPlan(plan: TruthPlan, graphValid: bool) returns (r: Result<TruthResult>)
      requires Valid() && Distinct(plan.affected)
      modifies this
      ensures Valid() && plans == old(plans)
      ensures !graphValid && plan.id !in old(applied) ==> r.Err? && History() == old(History()) && journal == old(journal)
      ensures graphValid || plan.id in old(applied) ==>
        && History() == Completed(old(History()), plan)
        && journal == old(journal) + Pending(old(History()), plan)
        && (r.Ok? <==> plan.id in applied)
      ensures r.Ok? ==> plan.id in applied && r.value == applied[plan.id]
    {
      hide CalculusWrites, Indexed;
      if plan.id in applied {
        return Ok(applied[plan.id]);
      }
      if !graphValid {
        return Err(ValueError("cannot apply truth maintenance on invalid graph"));
      }
      ghost var before := History();
      MarkArtifacts(plan);
      ReportUnmoved(before, plan);
      ghost var marked := History();
      r := Conclude(plan, before.artifacts);
      TwoPhases(before, plan);
    }

    /** `resume_truth_maintenance`. */
    method ResumeTruthMaintenance(planId: Id, graphValid: bool) returns (r: Result<TruthResult>)
      requires Valid()
      modifies this
      ensures Valid() && plans == old(plans)
      ensures planId !in old(applied) && planId !in plans ==> r == Err(KeyError(planId)) && History() == old(History())
      ensures planId in plans && (graphValid || planId in old(applied)) ==>
        History() == Completed(old(History()), plans[planId])
      ensures planId in old(applied) ==> r == Ok(old(applied)[planId]) && History() == old(History())
      ensures r.Ok? ==> planId in applied && r.value == applied[planId]
    {
      if planId in applied {
        return Ok(applied[planId]);
      }
      if planId !in plans {
        return Err(KeyError(planId));
      }
      r := ApplyTruthPlan(plans[planId], graphValid);
    }
  }

  lemma ReportUnmoved(w: World, plan: TruthPlan)
    requires Distinct(plan.affected)
    ensures var after := Marked(w, plan, |StaleTargets(w.artifacts, plan.affected)|).artifacts;
      ReportedStale(after, plan) == ReportedStale(w.artifacts, plan)
      && ReportedTerminal(after, plan) == ReportedTerminal(w.artifacts, plan)
  {
    var n := |StaleTargets(w.artifacts, plan.affected)|;
    PrefixOfTargets(w, plan, n);
    SameReport(w.artifacts, Marked(w, plan, n).artifacts, plan);
  }

  lemma TwoPhases(w: World, plan: TruthPlan)
    requires Distinct(plan.affected) && plan.id !in w.applied
    ensures var targets := StaleTargets(w.artifacts, plan.affected);
      var tail := CalculusWrites(w.artifacts, w.calculus, plan, w.sequence + |targets| + 1);
      && Pending(w, plan) == StaleWrites(targets) + tail
      && Completed(w, plan) == ReplayAll(Marked(w, plan, |targets|), tail)
  {
    hide TruthCalculus, TruthChanges, CommitAdmits, Normalised, ResultOf, CalculusWrites;
    var targets := StaleTargets(w.artifacts, plan.affected);
    PrefixOfTargets(w, plan, |targets|);
    assert targets[..|targets|] == targets;
    ReplayStale(w, targets);
    ReplaySplit(w, StaleWrites(targets), CalculusWrites(w.artifacts, w.calculus, plan, w.sequence + |targets| + 1));
  }
}
