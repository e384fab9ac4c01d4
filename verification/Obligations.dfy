/** Enabling, locking, unlocking and moving obligations
    (`_runtime_v31_activation.py`, `_runtime_v31_records.py`, `runtime_v21.py`). */
module Obligations {
  import opened Foundations
  import opened CalculusModel
  import opened Scopes
  import opened Conditions
  import opened Locks
  import opened Fairness

  predicate CanEnable(c: Calculus, o: Id) {
    o in c.obligations
    && (var ob := c.obligations[o];
        && (ob.scope == ROOT || (ob.scope in c.scopes && c.scopes[ob.scope].status.ActiveScope?))
        && (ob.status.Available? || ob.status.Blocked? || ob.status.NeedsRevalidation?)
        && ConditionHolds(ob.activation, EffectiveValues(c, ob.scope))
        && !HasActiveLock(c.locks, ob)
        && forall e :: e in ob.dependencies ==>
             e in c.obligations && (c.obligations[e].status.Verified? || c.obligations[e].status.Committed?))
  }

  function EnableObligation(c: Calculus, o: Id, sequence: nat): Calculus
    requires o in c.obligations
  {
    c.(obligations := c.obligations[o := c.obligations[o].(status := Enabled, changedAt := sequence)],
       fairness := c.fairness[o := StoredRecord(c, o).(
         lastEnabled := Some(c.epoch), lastConsidered := c.epoch, hidden := 0, status := Normal)])
  }

  /** Outside the root, the decision that a lock originates from must be one that may flow into the
      obligation's scope. */
  ghost predicate CanLock(c: Calculus, k: Id, lock: Lock) {
    Lockable(c, k, lock) && (RootLock(c, lock) || OriginFlows(c, lock))
  }

  predicate Lockable(c: Calculus, k: Id, lock: Lock) {
    && k !in c.locks && lock.obligation in c.obligations && lock.origin in c.decisions
    && (var ob := c.obligations[lock.obligation];
        && (ob.scope == ROOT || (ob.scope in c.scopes && c.scopes[ob.scope].status.ActiveScope?))
        && !Terminal(ob.status)
        && ConditionHolds(lock.condition, EffectiveValues(c, ob.scope)))
  }

  predicate RootLock(c: Calculus, lock: Lock)
    requires lock.obligation in c.obligations
  {
    c.obligations[lock.obligation].scope == ROOT && lock.scope == ROOT
  }

  ghost predicate OriginFlows(c: Calculus, lock: Lock)
    requires lock.obligation in c.obligations && lock.origin in c.decisions
  {
    FlowAllowed(c.scopes, c.scopeDeps, c.decisions[lock.origin].scope, c.obligations[lock.obligation].scope)
  }

  method CheckLockable(c: Calculus, k: Id, lock: Lock) returns (ok: bool)
    ensures ok == CanLock(c, k, lock)
  {
    if !Lockable(c, k, lock) {
      return false;
    }
    if RootLock(c, lock) {
      return true;
    }
    ok := CheckFlow(c.scopes, c.scopeDeps, c.decisions[lock.origin].scope, c.obligations[lock.obligation].scope);
  }

  /** The lock takes the obligation's scope and the current epoch. */
  function PlaceLock(c: Calculus, k: Id, lock: Lock): Calculus
    requires lock.obligation in c.obligations
  {
    var ob := c.obligations[lock.obligation];
    var r := StoredRecord(c, lock.obligation);
    c.(locks := c.locks[k := lock.(createdEpoch := c.epoch, scope := ob.scope)],
       obligations := c.obligations[lock.obligation := ob.(lockIds := ob.lockIds + {k}, status := Locked)],
       fairness := c.fairness[lock.obligation := r.(lockCount := r.lockCount + 1, lockStart := Some(c.epoch))])
  }

  /** `unlock_obligation` breaks an ACTIVE lock by hand and reevaluates the others. */
  function Unlocked(c: Calculus, k: Id): Calculus
    requires k in c.locks
  {
    if !c.locks[k].status.LockActive? then c
    else Relocked(c.(locks := c.locks[k := c.locks[k].(status := Broken, brokenEpoch := Some(c.epoch))]))
  }

  /** `set_obligation_status`: the table decides, and a final disposition needs a reason. Whether
      the evidence contract is met is decided outside the calculus. */
  predicate CanSetStatus(c: Calculus, o: Id, status: ObligationStatus, reason: Option<Id>, evidenceComplete: bool) {
    && o in c.obligations && Legal(c.obligations[o].status, status)
    && (Disposed(status) ==> reason.Some?)
    && (status.Verified? || status.Committed? ==> evidenceComplete)
  }

  function SetStatus(c: Calculus, o: Id, status: ObligationStatus, reason: Option<Id>, sequence: nat): Calculus
    requires o in c.obligations
  {
    c.(obligations := c.obligations[o := c.obligations[o].(status := status, reason := reason, changedAt := sequence)],
       fairness := c.fairness[o := StoredRecord(c, o).(
         lastConsidered := c.epoch, lastReviewed := Some(c.epoch), status := Normal)])
  }

  lemma LocksFrame(c: Calculus, c': Calculus)
    requires SameProjection(c, c')
    requires forall k :: k in c'.locks && c'.locks[k].status.LockActive? ==> LockConditionHolds(c, c'.locks[k])
    ensures LocksSound(c')
  {
    forall k | k in c'.locks && c'.locks[k].status.LockActive? ensures LockConditionHolds(c', c'.locks[k]) {
      EffectiveFrame(c, c', c'.locks[k].scope);
    }
  }

  /** Enabling and locking move no decision and no model, and keep every ACTIVE lock sound. */
  lemma ObligationStepsKeepLocks(c: Calculus, o: Id, k: Id, lock: Lock, sequence: nat)
    requires LocksSound(c)
    ensures CanEnable(c, o) ==> LocksSound(EnableObligation(c, o, sequence))
    ensures CanLock(c, k, lock) ==> LocksSound(PlaceLock(c, k, lock))
  {
    if CanEnable(c, o) {
      LocksFrame(c, EnableObligation(c, o, sequence));
    }
    if CanLock(c, k, lock) {
      LocksFrame(c, PlaceLock(c, k, lock));
    }
  }

  // ----- the moves on obligations, spelled out -----

  /** Work is enabled exactly from AVAILABLE, BLOCKED or NEEDS_REVALIDATION, in an ACTIVE scope, while its
      condition holds there, with no ACTIVE lock of its own, and when all it depends on is verified or
      committed. */
  lemma EnablingExactly(c: Calculus, o: Id)
    ensures CanEnable(c, o) <==>
      && o in c.obligations
      && c.obligations[o].status in {Available, Blocked, NeedsRevalidation}
      && (c.obligations[o].scope != ROOT ==>
            c.obligations[o].scope in c.scopes && c.scopes[c.obligations[o].scope].status == ActiveScope)
      && ConditionHolds(c.obligations[o].activation, EffectiveValues(c, c.obligations[o].scope))
      && (forall k :: k in c.obligations[o].lockIds && k in c.locks ==> c.locks[k].status != LockActive)
      && forall e :: e in c.obligations[o].dependencies ==>
           e in c.obligations && c.obligations[e].status in {Verified, Committed}
  {
    hide EffectiveValues, ConditionHolds;
  }

  /** Enabled work is considered now; nothing else moves. */
  lemma EnablingRecords(c: Calculus, o: Id, sequence: nat)
    requires CanEnable(c, o)
    ensures var c' := EnableObligation(c, o, sequence);
      && c' == c.(obligations := c'.obligations, fairness := c'.fairness)
      && c'.obligations == c.obligations[o := c.obligations[o].(status := Enabled, changedAt := sequence)]
      && c'.fairness == c.fairness[o := (if o in c.fairness then c.fairness[o] else NewRecord(c.epoch)).(
           lastEnabled := Some(c.epoch), lastConsidered := c.epoch, hidden := 0, status := Normal)]
  {
  }

  /** Work may be locked exactly while it is not over, in an ACTIVE scope, under a fresh name and a condition
      that holds there now, by a decision from which that scope may depend. */
  lemma LockingExactly(c: Calculus, k: Id, lock: Lock)
    ensures CanLock(c, k, lock) <==>
      && k !in c.locks && lock.obligation in c.obligations && lock.origin in c.decisions
      && (var ob := c.obligations[lock.obligation];
          && ob.status !in {Committed, Refused, Replaced, Impossible}
          && (ob.scope != ROOT ==> ob.scope in c.scopes && c.scopes[ob.scope].status == ActiveScope)
          && ConditionHolds(lock.condition, EffectiveValues(c, ob.scope))
          && ((ob.scope == ROOT && lock.scope == ROOT)
              || FlowAllowed(c.scopes, c.scopeDeps, c.decisions[lock.origin].scope, ob.scope)))
  {
    hide EffectiveValues, ConditionHolds, FlowAllowed;
  }

  /** A placed lock belongs to its obligation's scope and this epoch; the obligation is LOCKED, and its count of
      locks rises by one. */
  lemma LockingRecords(c: Calculus, k: Id, lock: Lock)
    requires lock.obligation in c.obligations
    ensures var c', o := PlaceLock(c, k, lock), lock.obligation;
      && c' == c.(locks := c'.locks, obligations := c'.obligations, fairness := c'.fairness)
      && c'.locks == c.locks[k := lock.(createdEpoch := c.epoch, scope := c.obligations[o].scope)]
      && c'.obligations == c.obligations[o := c.obligations[o].(lockIds := c.obligations[o].lockIds + {k}, status := Locked)]
      && c'.fairness.Keys == c.fairness.Keys + {o}
      && (forall m :: m in c.fairness && m != o ==> c'.fairness[m] == c.fairness[m])
      && c'.fairness[o].lockCount == 1 + (if o in c.fairness then c.fairness[o].lockCount else 0)
      && c'.fairness[o].lockStart == Some(c.epoch)
  {
  }

  /** Unlocking by hand breaks the lock at this epoch, if it was ACTIVE, before the others are reevaluated. */
  lemma UnlockingRecords(c: Calculus, k: Id)
    requires k in c.locks
    ensures k in Unlocked(c, k).locks && Unlocked(c, k).locks[k].status != LockActive
    ensures c.locks[k].status == LockActive ==>
      Unlocked(c, k).locks[k] == c.locks[k].(status := Broken, brokenEpoch := Some(c.epoch))
    ensures c.locks[k].status != LockActive ==> Unlocked(c, k) == c
  {
    hide EffectiveValues, ConditionHolds;
  }

  /** A status is set by hand exactly along the transition table; a final disposition needs a reason, and
      VERIFIED and COMMITTED need their evidence. The work counts as considered and reviewed now. */
  lemma StatusExactly(c: Calculus, o: Id, status: ObligationStatus, reason: Option<Id>, evidenceComplete: bool, sequence: nat)
    ensures CanSetStatus(c, o, status, reason, evidenceComplete) <==>
      && o in c.obligations && Legal(c.obligations[o].status, status)
      && (status in {Refused, Replaced, Impossible} ==> reason != None)
      && (status in {Verified, Committed} ==> evidenceComplete)
    ensures o in c.obligations ==>
      var c' := SetStatus(c, o, status, reason, sequence);
      && c' == c.(obligations := c'.obligations, fairness := c'.fairness)
      && c'.obligations == c.obligations[o := c.obligations[o].(status := status, reason := reason, changedAt := sequence)]
      && c'.fairness == c.fairness[o := (if o in c.fairness then c.fairness[o] else NewRecord(c.epoch)).(
           lastConsidered := c.epoch, lastReviewed := Some(c.epoch), status := Normal)]
  {
  }
}
