/** The fairness audit and the exposure test for candidates (`audit_fairness` and
    `candidate_exposes_overdue` of `_calculus_logic.py`). */
module Fairness {
  import opened Foundations
  import opened CalculusModel
  import opened Scopes
  import opened Conditions
  import opened Locks

  // ----- auditing one obligation -----

  function ActiveLocks(c: Calculus, o: Obligation): set<Id> {
    set k | k in o.lockIds && k in c.locks && c.locks[k].status.LockActive?
  }

  ghost predicate IsEarliest(c: Calculus, locks: set<Id>, start: int)
    requires locks <= c.locks.Keys
  {
    && (exists k :: k in locks && c.locks[k].createdEpoch == start)
    && (forall k :: k in locks ==> start <= c.locks[k].createdEpoch)
  }

  ghost function EarliestLock(c: Calculus, locks: set<Id>): (start: int)
    requires locks <= c.locks.Keys && locks != {}
    ensures IsEarliest(c, locks, start)
  {
    var k :| k in locks;
    var own := c.locks[k].createdEpoch;
    if locks == {k} then own
    else
      var rest := EarliestLock(c, locks - {k});
      if own <= rest then own else rest
  }

  method FindEarliestLock(c: Calculus, locks: set<Id>) returns (start: int)
    requires locks <= c.locks.Keys && locks != {}
    ensures start == EarliestLock(c, locks)
  {
    var k :| k in locks;
    start := c.locks[k].createdEpoch;
    var rest := locks - {k};
    while rest != {}
      invariant rest <= locks
      invariant rest != locks && IsEarliest(c, locks - rest, start)
      decreases rest
    {
      var m :| m in rest;
      ghost var w :| w in locks - rest && c.locks[w].createdEpoch == start;
      rest := rest - {m};
      assert w in locks - rest && m in locks - rest;
      start := if c.locks[m].createdEpoch < start then c.locks[m].createdEpoch else start;
    }
    assert locks - rest == locks;
  }

  function NewRecord(epoch: int): FairnessRecord {
    FairnessRecord(epoch, epoch, None, None, None, 0, 0, 0, Normal, None)
  }

  function StoredRecord(c: Calculus, o: Id): FairnessRecord {
    if o in c.fairness then c.fairness[o] else NewRecord(c.epoch)
  }

  function Score(policy: FairnessPolicy, r: FairnessRecord): FairnessStatus {
    if r.hidden > policy.maxHidden || r.continuousLock > policy.maxLockAge || r.lockCount > policy.maxLockCount
    then Overdue
    else if r.hidden >= policy.maxHidden || r.continuousLock >= policy.maxLockAge || r.lockCount >= policy.maxLockCount
    then Due
    else Normal
  }

  predicate Deferred(r: FairnessRecord, epoch: int) {
    r.deferredUntil.Some? && epoch <= r.deferredUntil.value
  }

  /** Persistent work that nobody is doing: AVAILABLE, BLOCKED, LOCKED or NEEDS_REVALIDATION. */
  predicate Waiting(o: Obligation) {
    o.persistent && !Terminal(o.status) && !InHand(o.status)
  }

  ghost function LockAge(c: Calculus, o: Obligation, r: FairnessRecord): FairnessRecord {
    var active := ActiveLocks(c, o);
    if active == {} then r.(lockStart := None, continuousLock := 0)
    else
      var start := EarliestLock(c, active);
      r.(lockStart := Some(start), continuousLock := c.epoch - start,
         lockCount := if r.lockCount < |o.lockIds| then |o.lockIds| else r.lockCount)
  }

  ghost function AuditRecord(c: Calculus, o: Obligation, r: FairnessRecord): FairnessRecord {
    if Terminal(o.status) || !o.persistent then r.(status := Normal)
    else if InHand(o.status) then
      r.(lastEnabled := Some(c.epoch), lastConsidered := c.epoch, hidden := 0, status := Normal)
    else
      var aged := LockAge(c, o, r).(hidden := c.epoch - r.lastConsidered);
      aged.(status := if Deferred(aged, c.epoch) then Normal else Score(c.policy, aged))
  }

  method AuditObligation(c: Calculus, o: Obligation, stored: FairnessRecord) returns (r: FairnessRecord)
    ensures r == AuditRecord(c, o, stored)
  {
    r := stored;
    if Terminal(o.status) || !o.persistent {
      r := r.(status := Normal);
      return;
    }
    if InHand(o.status) {
      r := r.(lastEnabled := Some(c.epoch), lastConsidered := c.epoch, hidden := 0, status := Normal);
      return;
    }
    var active := ActiveLocks(c, o);
    if active != {} {
      var start := FindEarliestLock(c, active);
      r := r.(lockStart := Some(start), continuousLock := c.epoch - start);
      if r.lockCount < |o.lockIds| {
        r := r.(lockCount := |o.lockIds|);
      }
    } else {
      r := r.(lockStart := None, continuousLock := 0);
    }
    r := r.(hidden := c.epoch - r.lastConsidered);
    if Deferred(r, c.epoch) {
      r := r.(status := Normal);
      return;
    }
    r := r.(status := Score(c.policy, r));
  }

  // ----- auditing all of them -----

  ghost function AuditedRecords(c: Calculus): map<Id, FairnessRecord> {
    map o | o in c.fairness.Keys + c.obligations.Keys ::
      if o in c.obligations then AuditRecord(c, c.obligations[o], StoredRecord(c, o)) else c.fairness[o]
  }

  ghost function Audited(c: Calculus): Calculus {
    c.(fairness := AuditedRecords(c))
  }

  /** The obligations an audit reports with the given status. */
  ghost function Reported(c: Calculus, status: FairnessStatus): set<Id> {
    set o | o in c.obligations && AuditedRecords(c)[o].status == status
  }

  method AuditStored(c: Calculus, o: Id, stored: FairnessRecord) returns (r: FairnessRecord)
    requires o in c.obligations && stored == StoredRecord(c, o)
    ensures r == AuditedRecords(c)[o]
  {
    r := AuditObligation(c, c.obligations[o], stored);
  }

  lemma AuditedKeys(c: Calculus)
    ensures AuditedRecords(c).Keys == c.fairness.Keys + c.obligations.Keys
    ensures forall o :: o in c.fairness && o !in c.obligations ==> AuditedRecords(c)[o] == c.fairness[o]
  {
  }

  lemma StoredMeans(c: Calculus, o: Id)
    ensures StoredRecord(c, o) == if o in c.fairness then c.fairness[o] else NewRecord(c.epoch)
  {
  }

  /** `audit_fairness`. */
  method AuditFairness(c: Calculus) returns (out: Calculus, due: set<Id>, overdue: set<Id>)
    ensures out == Audited(c)
    ensures due == Reported(c, Due) && overdue == Reported(c, Overdue)
  {
    hide AuditedRecords, StoredRecord;
    AuditedKeys(c);
    var records := c.fairness;
    due, overdue := {}, {};
    var rest := c.obligations.Keys;
    ghost var goal := AuditedRecords(c);
    while rest != {}
      invariant rest <= c.obligations.Keys
      invariant records.Keys == c.fairness.Keys + (c.obligations.Keys - rest)
      invariant forall o :: o in records ==>
        records[o] == if o in c.obligations && o !in rest then goal[o] else c.fairness[o]
      invariant forall o :: o in due <==> o in c.obligations && o !in rest && goal[o].status.Due?
      invariant forall o :: o in overdue <==> o in c.obligations && o !in rest && goal[o].status.Overdue?
      decreases rest
    {
      var o :| o in rest;
      rest := rest - {o};
      var stored := if o in records then records[o] else NewRecord(c.epoch);
      assert stored == StoredRecord(c, o) by { StoredMeans(c, o); }
      var r := AuditStored(c, o, stored);
      records := records[o := r];
      match r.status {
        case Normal =>
        case Due => due := due + {o};
        case Overdue => overdue := overdue + {o};
      }
    }
    assert records == goal;
    out := c.(fairness := records);
  }

  lemma AuditedOnly(c: Calculus)
    ensures Audited(c) == c.(fairness := Audited(c).fairness)
  {
  }

  /** Auditing again at the same epoch changes nothing and reports the same work; nothing is both
      due and overdue. */
  lemma AuditIdempotent(c: Calculus)
    ensures Audited(Audited(c)) == Audited(c)
    ensures Reported(Audited(c), Due) == Reported(c, Due) && Reported(Audited(c), Overdue) == Reported(c, Overdue)
    ensures Reported(c, Due) !! Reported(c, Overdue)
  {
    var once, twice := AuditedRecords(c), AuditedRecords(Audited(c));
    forall o | o in once ensures twice[o] == once[o] {
      if o in c.obligations {
        AuditRecordIdempotent(c, c.obligations[o], StoredRecord(c, o));
      }
    }
    assert twice == once;
  }

  lemma AuditRecordIdempotent(c: Calculus, o: Obligation, r: FairnessRecord)
    ensures AuditRecord(Audited(c), o, AuditRecord(c, o, r)) == AuditRecord(c, o, r)
  {
    assert ActiveLocks(Audited(c), o) == ActiveLocks(c, o);
    if ActiveLocks(c, o) != {} {
      EarliestUnique(c, Audited(c), ActiveLocks(c, o));
    }
  }

  lemma EarliestUnique(c: Calculus, d: Calculus, locks: set<Id>)
    requires locks != {} && locks <= c.locks.Keys && d.locks == c.locks
    ensures EarliestLock(c, locks) == EarliestLock(d, locks)
  {
    assert IsEarliest(c, locks, EarliestLock(d, locks));
  }

  /** Work is reported overdue exactly when it waits, is not deferred, and has been hidden too long,
      locked too long, or locked too often. */
  lemma OverdueExactly(c: Calculus, o: Id)
    requires o in c.obligations
    ensures var ob, r := c.obligations[o], StoredRecord(c, o);
      o in Reported(c, Overdue) <==>
      (Waiting(ob) && !Deferred(r, c.epoch)
       && (c.epoch - r.lastConsidered > c.policy.maxHidden
           || LockAge(c, ob, r).continuousLock > c.policy.maxLockAge
           || LockAge(c, ob, r).lockCount > c.policy.maxLockCount))
  {
  }

  /** Work is reported due exactly when it waits, is not deferred, is not beyond the policy, and has
      reached one of its three limits. */
  lemma DueExactly(c: Calculus, o: Id)
    requires o in c.obligations
    ensures var ob, r := c.obligations[o], StoredRecord(c, o);
      o in Reported(c, Due) <==>
      (Waiting(ob) && !Deferred(r, c.epoch) && o !in Reported(c, Overdue)
       && (c.epoch - r.lastConsidered >= c.policy.maxHidden
           || LockAge(c, ob, r).continuousLock >= c.policy.maxLockAge
           || LockAge(c, ob, r).lockCount >= c.policy.maxLockCount))
  {
    OverdueExactly(c, o);
  }

  /** An audit rewrites no history: creation, review and deferral stay, lock counts never fall, and
      the clock moves, to the present, exactly for persistent work in hand that is not terminal. */
  lemma AuditKeepsHistory(c: Calculus, o: Id)
    requires o in c.obligations
    ensures var ob, before, after := c.obligations[o], StoredRecord(c, o), AuditedRecords(c)[o];
      && after.createdEpoch == before.createdEpoch && after.lastReviewed == before.lastReviewed
      && after.deferredUntil == before.deferredUntil && after.lockCount >= before.lockCount
      && after.lastConsidered ==
           (if ob.persistent && InHand(ob.status) && !Terminal(ob.status) then c.epoch else before.lastConsidered)
      && (after.status.Normal? || Waiting(ob))
  {
  }

  // ----- the end of every model-changing step -----

  /** Locks are reevaluated, then fairness is audited. */
  ghost function Settled(c: Calculus): Calculus {
    Audited(Relocked(c))
  }

  method Settle(c: Calculus) returns (out: Calculus, broken: set<Id>, due: set<Id>, overdue: set<Id>)
    ensures out == Settled(c)
  {
    var relocked;
    relocked, broken := ReevaluateLocks(c);
    out, due, overdue := AuditFairness(relocked);
  }

  lemma SettledFrame(c: Calculus)
    ensures Settled(c) == c.(locks := Settled(c).locks, obligations := Settled(c).obligations,
                             fairness := Settled(c).fairness)
  {
  }

  lemma SettledKeepsIndexes(c: Calculus)
    ensures Indexed(Settled(c)) == Indexed(c) && ParentsActive(Settled(c)) == ParentsActive(c)
    ensures forall d :: IsActive(Settled(c), d) == IsActive(c, d)
    ensures Violated(Settled(c)) == Violated(c)
  {
    SettledFrame(c);
    ViolationFrame(c, Settled(c));
    SameIndexes(c, Settled(c));
  }

  lemma SameIndexes(c: Calculus, c': Calculus)
    requires c'.decisions == c.decisions && c'.models == c.models && c'.activeModel == c.activeModel
    requires c'.edges == c.edges && c'.scopes == c.scopes
    ensures Indexed(c') == Indexed(c) && ParentsActive(c') == ParentsActive(c)
  {
    assert SlotsSound(c') == SlotsSound(c);
    assert SlotsComplete(c') == SlotsComplete(c);
    assert Registered(c') == Registered(c);
    assert forall d :: IsActive(c', d) == IsActive(c, d);
  }

  /** Both lock invariants hold once a step has settled. */
  lemma SettledLocks(c: Calculus)
    ensures LocksSound(Settled(c)) && LockedIsHeld(Settled(c))
  {
    var c' := Settled(c);
    RelockingSound(c);
    RelockingReleases(c);
    forall k | k in c'.locks && c'.locks[k].status.LockActive? ensures LockConditionHolds(c', c'.locks[k]) {
      EffectiveFrame(Relocked(c), c', c'.locks[k].scope);
    }
    assert c'.obligations == Relocked(c).obligations && c'.locks == Relocked(c).locks;
  }

  // ----- the exposure gate -----

  function OverdueRecords(c: Calculus): set<Id> {
    set o | o in c.fairness && c.fairness[o].status.Overdue?
  }

  /** The candidate makes the activation condition of `o` true where the gate found it false. A
      root obligation is read in the valuations handed in, any other in its own scope now and
      in the empty valuation before. */
  predicate Exposes(c: Calculus, o: Id, now: Values, before: Values) {
    o in c.obligations
    && (var ob := c.obligations[o];
        if ob.scope == ROOT then ConditionHolds(ob.activation, now) && !ConditionHolds(ob.activation, before)
        else ConditionHolds(ob.activation, EffectiveValues(c, ob.scope)) && !ConditionHolds(ob.activation, map[]))
  }

  ghost predicate ExposesOverdue(c: Calculus, now: Values, before: Values) {
    OverdueRecords(c) == {} || exists o :: o in OverdueRecords(c) && Exposes(c, o, now, before)
  }

  /** `candidate_exposes_overdue`. */
  method CandidateExposesOverdue(c: Calculus, now: Values, before: Values) returns (b: bool)
    ensures b == ExposesOverdue(c, now, before)
  {
    var rest := OverdueRecords(c);
    if rest == {} {
      return true;
    }
    while rest != {}
      invariant rest <= OverdueRecords(c)
      invariant forall o :: o in OverdueRecords(c) && o !in rest ==> !Exposes(c, o, now, before)
      decreases rest
    {
      var o :| o in rest;
      rest := rest - {o};
      if Exposes(c, o, now, before) {
        return true;
      }
    }
    return false;
  }

  /** The gate over all scopes: `previous` holds each scope's values before the candidate. */
  ghost predicate GatePasses(c: Calculus, previous: map<Id, Values>)
    requires c.scopes.Keys <= previous.Keys
  {
    exists s :: s in c.scopes && ExposesOverdue(c, EffectiveValues(c, s), previous[s])
  }

  method CheckGate(c: Calculus, previous: map<Id, Values>) returns (b: bool)
    requires c.scopes.Keys <= previous.Keys
    ensures b == GatePasses(c, previous)
  {
    var rest := c.scopes.Keys;
    while rest != {}
      invariant rest <= c.scopes.Keys
      invariant forall s :: s in c.scopes && s !in rest ==> !ExposesOverdue(c, EffectiveValues(c, s), previous[s])
      decreases rest
    {
      var s :| s in rest;
      rest := rest - {s};
      var exposed := CandidateExposesOverdue(c, EffectiveValues(c, s), previous[s]);
      if exposed {
        return true;
      }
    }
    return false;
  }

  /** The overdue obligation whose exposure lets a candidate pass. A root obligation is read in the
      values of every scope in turn: somewhere its condition turned from false to true. Any other
      is read in its own scope now and in the empty valuation before. */
  ghost predicate Unlocks(c: Calculus, previous: map<Id, Values>, o: Id)
    requires c.scopes.Keys <= previous.Keys
  {
    o in c.obligations
    && (var ob := c.obligations[o];
        if ob.scope == ROOT then
          exists s :: s in c.scopes && ConditionHolds(ob.activation, EffectiveValues(c, s))
            && !ConditionHolds(ob.activation, previous[s])
        else
          ConditionHolds(ob.activation, EffectiveValues(c, ob.scope)) && !ConditionHolds(ob.activation, map[]))
  }

  /** The gate exactly, for every set of overdue obligations and every hierarchy of scopes. */
  lemma GateExactly(c: Calculus, previous: map<Id, Values>)
    requires c.scopes != map[] && c.scopes.Keys <= previous.Keys
    ensures GatePasses(c, previous) <==>
      (OverdueRecords(c) == {} || exists o :: o in OverdueRecords(c) && Unlocks(c, previous, o))
  {
    var any :| any in c.scopes;
    if OverdueRecords(c) == {} {
      assert ExposesOverdue(c, EffectiveValues(c, any), previous[any]);
    } else {
      if GatePasses(c, previous) {
        var s :| s in c.scopes && ExposesOverdue(c, EffectiveValues(c, s), previous[s]);
        var o :| o in OverdueRecords(c) && Exposes(c, o, EffectiveValues(c, s), previous[s]);
        assert Unlocks(c, previous, o);
      }
      if o :| o in OverdueRecords(c) && Unlocks(c, previous, o) {
        UnlockingPasses(c, previous, o, any);
      }
    }
  }

  lemma UnlockingPasses(c: Calculus, previous: map<Id, Values>, o: Id, any: Id)
    requires c.scopes.Keys <= previous.Keys && any in c.scopes
    requires o in OverdueRecords(c) && Unlocks(c, previous, o)
    ensures GatePasses(c, previous)
  {
    var s := any;
    if c.obligations[o].scope == ROOT {
      s :| s in c.scopes && ConditionHolds(c.obligations[o].activation, EffectiveValues(c, s))
        && !ConditionHolds(c.obligations[o].activation, previous[s]);
    }
    assert Exposes(c, o, EffectiveValues(c, s), previous[s]);
    assert ExposesOverdue(c, EffectiveValues(c, s), previous[s]);
  }

  /** A passed gate has unlocked some overdue work. With the root as only scope, that is a condition
      that was false before and holds now. */
  lemma RootGateExposes(c: Calculus, previous: map<Id, Values>) returns (o: Id)
    requires RootRecord(c.scopes) && c.scopes.Keys <= previous.Keys
    requires OverdueRecords(c) != {} && GatePasses(c, previous)
    ensures o in OverdueRecords(c) && Unlocks(c, previous, o)
    ensures c.scopes.Keys == {ROOT} && c.obligations[o].scope == ROOT ==>
      ConditionHolds(c.obligations[o].activation, EffectiveValues(c, ROOT))
      && !ConditionHolds(c.obligations[o].activation, previous[ROOT])
  {
    GateExactly(c, previous);
    o :| o in OverdueRecords(c) && Unlocks(c, previous, o);
  }

  /** For an overdue obligation of a child scope the gate forgets what was exposed before: whenever
      its condition holds now and is false of the empty valuation, every candidate passes, whether or
      not the condition held already and whatever else is overdue. */
  lemma ChildGateForgetsThePast(c: Calculus, previous: map<Id, Values>, o: Id)
    requires c.scopes != map[] && c.scopes.Keys <= previous.Keys
    requires o in c.obligations && c.obligations[o].scope != ROOT && o in OverdueRecords(c)
    requires ConditionHolds(c.obligations[o].activation, EffectiveValues(c, c.obligations[o].scope))
    requires !ConditionHolds(c.obligations[o].activation, map[])
    ensures GatePasses(c, previous)
  {
    assert Unlocks(c, previous, o);
    GateExactly(c, previous);
  }

  // ----- the audit, status by status -----

  /** The fairness clock of a lock: from the creation of the oldest ACTIVE lock; and how often the obligation
      was ever locked. */
  lemma LockAgeExactly(c: Calculus, o: Obligation, r: FairnessRecord)
    ensures (forall k :: k in o.lockIds && k in c.locks ==> c.locks[k].status != LockActive) ==>
      LockAge(c, o, r) == r.(lockStart := None, continuousLock := 0)
    ensures forall k :: k in o.lockIds && k in c.locks && c.locks[k].status == LockActive ==>
      var aged := LockAge(c, o, r);
      && aged.lockStart.Some? && aged.continuousLock == c.epoch - aged.lockStart.value
      && aged.lockStart.value <= c.locks[k].createdEpoch
      && aged.lockCount >= r.lockCount && aged.lockCount >= |o.lockIds| && aged.lockCount in {r.lockCount, |o.lockIds|}
      && aged == r.(lockStart := aged.lockStart, continuousLock := aged.continuousLock, lockCount := aged.lockCount)
      && exists m :: m in o.lockIds && m in c.locks && c.locks[m].status == LockActive
           && c.locks[m].createdEpoch == aged.lockStart.value
  {
    var active := ActiveLocks(c, o);
    if active == {} {
      forall k | k in o.lockIds && k in c.locks ensures c.locks[k].status != LockActive {
        assert k !in active;
      }
    } else {
      var m :| m in active && c.locks[m].createdEpoch == EarliestLock(c, active);
      forall k | k in o.lockIds && k in c.locks && c.locks[k].status == LockActive
        ensures EarliestLock(c, active) <= c.locks[k].createdEpoch
      {
        assert k in active;
      }
    }
  }

  /** The audit of one obligation, for each of its statuses. Work in hand is considered now; work that is over,
      or not persistent, is only reset; waiting work is hidden since it was last considered, ages with its
      locks, and is scored unless deferred to this epoch or a later one. */
  lemma AuditExactly(c: Calculus, o: Obligation, r: FairnessRecord)
    ensures !o.persistent || o.status in {Committed, Refused, Replaced, Impossible} ==>
      AuditRecord(c, o, r) == r.(status := Normal)
    ensures o.persistent && o.status in {Enabled, InProgress, Verifying, Verified} ==>
      AuditRecord(c, o, r) == r.(lastEnabled := Some(c.epoch), lastConsidered := c.epoch, hidden := 0, status := Normal)
    ensures o.persistent && o.status in {Available, Blocked, Locked, NeedsRevalidation} ==>
      var aged, after := LockAge(c, o, r), AuditRecord(c, o, r);
      var deferred := r.deferredUntil.Some? && r.deferredUntil.value >= c.epoch;
      && after == aged.(hidden := c.epoch - r.lastConsidered, status := after.status)
      && (after.status == Overdue <==>
            !deferred
            && (after.hidden > c.policy.maxHidden || after.continuousLock > c.policy.maxLockAge
                || after.lockCount > c.policy.maxLockCount))
      && (after.status == Normal <==>
            deferred
            || (after.hidden < c.policy.maxHidden && after.continuousLock < c.policy.maxLockAge
                && after.lockCount < c.policy.maxLockCount))
  {
    hide ActiveLocks, EarliestLock;
  }

  /** An obligation met for the first time has a clock that starts now. */
  lemma FirstAudit(c: Calculus, o: Id)
    requires o in c.obligations && o !in c.fairness
    ensures StoredRecord(c, o) == FairnessRecord(c.epoch, c.epoch, None, None, None, 0, 0, 0, Normal, None)
  {
  }
}
