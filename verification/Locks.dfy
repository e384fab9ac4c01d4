/** Lock reevaluation (`reevaluate_locks` of `_calculus_logic.py`). */
module Locks {
  import opened Foundations
  import opened CalculusModel
  import opened Scopes
  import opened Conditions

  predicate LockConditionHolds(c: Calculus, lock: Lock) {
    ConditionHolds(lock.condition, EffectiveValues(c, lock.scope))
  }

  predicate Breaks(c: Calculus, lock: Lock) {
    lock.status.LockActive? && !LockConditionHolds(c, lock)
  }

  function CheckLock(c: Calculus, lock: Lock): Lock {
    if Breaks(c, lock) then lock.(status := Broken, brokenEpoch := Some(c.epoch)) else lock
  }

  function CheckLocks(c: Calculus): map<Id, Lock> {
    map k | k in c.locks :: CheckLock(c, c.locks[k])
  }

  function BrokenLocks(c: Calculus): set<Id> {
    set k | k in c.locks && Breaks(c, c.locks[k])
  }

  predicate HasActiveLock(locks: map<Id, Lock>, o: Obligation) {
    exists k :: k in o.lockIds && k in locks && locks[k].status.LockActive?
  }

  function Unlock(locks: map<Id, Lock>, o: Obligation): Obligation {
    if o.status.Locked? && !HasActiveLock(locks, o) then o.(status := Available) else o
  }

  function Relocked(c: Calculus): Calculus {
    var locks := CheckLocks(c);
    c.(locks := locks, obligations := map o | o in c.obligations :: Unlock(locks, c.obligations[o]))
  }

  method BreakLocks(c: Calculus) returns (locks: map<Id, Lock>, broken: set<Id>)
    ensures locks == CheckLocks(c) && broken == BrokenLocks(c)
  {
    locks, broken := c.locks, {};
    var rest := c.locks.Keys;
    while rest != {}
      invariant rest <= c.locks.Keys == locks.Keys
      invariant forall k :: k in c.locks ==>
        locks[k] == if k in rest then c.locks[k] else CheckLock(c, c.locks[k])
      invariant broken == BrokenLocks(c) - rest
      decreases rest
    {
      var k :| k in rest;
      rest := rest - {k};
      var lock := locks[k];
      if lock.status.LockActive? {
        var values := EffectiveValues(c, lock.scope);
        if !ConditionHolds(lock.condition, values) {
          locks := locks[k := lock.(status := Broken, brokenEpoch := Some(c.epoch))];
          broken := broken + {k};
        }
      }
    }
  }

  method ReleaseObligations(before: map<Id, Obligation>, locks: map<Id, Lock>) returns (out: map<Id, Obligation>)
    ensures out == map o | o in before :: Unlock(locks, before[o])
  {
    out := before;
    var rest := before.Keys;
    while rest != {}
      invariant rest <= before.Keys == out.Keys
      invariant forall o :: o in before ==> out[o] == if o in rest then before[o] else Unlock(locks, before[o])
      decreases rest
    {
      var o :| o in rest;
      rest := rest - {o};
      var active := set k | k in out[o].lockIds && k in locks && locks[k].status.LockActive?;
      assert active == {} <==> !HasActiveLock(locks, before[o]) by {
        if k :| k in before[o].lockIds && k in locks && locks[k].status.LockActive? {
          assert k in active;
        }
      }
      if out[o].status.Locked? && active == {} {
        out := out[o := out[o].(status := Available)];
      }
    }
  }

  /** `reevaluate_locks`. */
  method ReevaluateLocks(c: Calculus) returns (out: Calculus, broken: set<Id>)
    ensures out == Relocked(c) && broken == BrokenLocks(c)
  {
    var locks;
    locks, broken := BreakLocks(c);
    var obligations := ReleaseObligations(c.obligations, locks);
    out := c.(locks := locks, obligations := obligations);
  }

  /** Each ACTIVE lock's condition holds in its scope. */
  ghost predicate LocksSound(c: Calculus) {
    forall k :: k in c.locks && c.locks[k].status.LockActive? ==> LockConditionHolds(c, c.locks[k])
  }

  /** LOCKED obligations are held by some ACTIVE lock. */
  ghost predicate LockedIsHeld(c: Calculus) {
    forall o :: o in c.obligations && c.obligations[o].status.Locked? ==> HasActiveLock(c.locks, c.obligations[o])
  }

  lemma RelockedFrame(c: Calculus)
    ensures Relocked(c) == c.(locks := Relocked(c).locks, obligations := Relocked(c).obligations)
  {
  }

  lemma RelockedProjection(c: Calculus, scope: Id)
    ensures EffectiveValues(Relocked(c), scope) == EffectiveValues(c, scope)
  {
    EffectiveFrame(c, Relocked(c), scope);
  }

  /** Reevaluation makes every ACTIVE lock sound, whatever the state before it, and never revives
      a lock. */
  lemma RelockingSound(c: Calculus)
    ensures LocksSound(Relocked(c))
    ensures forall k :: k in c.locks && Relocked(c).locks[k].status.LockActive? ==>
      c.locks[k].status.LockActive? && Relocked(c).locks[k] == c.locks[k]
  {
    forall k | k in c.locks && Relocked(c).locks[k].status.LockActive?
      ensures Relocked(c).locks[k] == c.locks[k] && LockConditionHolds(Relocked(c), c.locks[k])
    {
      assert !Breaks(c, c.locks[k]);
      RelockedProjection(c, c.locks[k].scope);
    }
  }

  /** Only unheld LOCKED obligations change, to AVAILABLE, so LOCKED remains only where an ACTIVE
      lock does. */
  lemma RelockingReleases(c: Calculus)
    ensures LockedIsHeld(Relocked(c))
    ensures forall o :: o in c.obligations && Relocked(c).obligations[o] != c.obligations[o] ==>
      c.obligations[o].status.Locked? && Relocked(c).obligations[o] == c.obligations[o].(status := Available)
  {
    forall o | o in c.obligations && Relocked(c).obligations[o].status.Locked?
      ensures HasActiveLock(Relocked(c).locks, Relocked(c).obligations[o])
    {
      assert Relocked(c).obligations[o] == Unlock(CheckLocks(c), c.obligations[o]);
    }
  }

  /** Nothing changes exactly in the states that already satisfy both lock invariants. */
  lemma RelockingFixpoint(c: Calculus)
    ensures Relocked(c) == c <==> LocksSound(c) && LockedIsHeld(c)
  {
    if LocksSound(c) && LockedIsHeld(c) {
      assert CheckLocks(c) == c.locks;
      assert Relocked(c).obligations == c.obligations;
    }
    if Relocked(c) == c {
      RelockingSound(c);
      RelockingReleases(c);
    }
  }

  lemma RelockingIdempotent(c: Calculus)
    ensures Relocked(Relocked(c)) == Relocked(c)
  {
    RelockingSound(c);
    RelockingReleases(c);
    RelockingFixpoint(Relocked(c));
  }

  /** On record, an ACTIVE lock whose condition fails in the lock's scope is Broken at this epoch, and every
      other lock stays as it was. */
  lemma BreakingExactly(c: Calculus, k: Id)
    requires k in c.locks
    ensures k in Relocked(c).locks
    ensures Relocked(c).locks[k] ==
      if c.locks[k].status == LockActive && !ConditionHolds(c.locks[k].condition, EffectiveValues(c, c.locks[k].scope))
      then c.locks[k].(status := Broken, brokenEpoch := Some(c.epoch)) else c.locks[k]
  {
    hide EffectiveValues, ConditionHolds;
  }

  /** A LOCKED obligation is AVAILABLE again exactly when none of its locks is ACTIVE any more; nothing else
      about obligations changes. */
  lemma ReleaseExactly(c: Calculus, o: Id)
    requires o in c.obligations
    ensures o in Relocked(c).obligations
    ensures Relocked(c).obligations[o] ==
      if c.obligations[o].status == Locked
         && forall m :: m in c.obligations[o].lockIds && m in Relocked(c).locks ==> Relocked(c).locks[m].status != LockActive
      then c.obligations[o].(status := Available) else c.obligations[o]
  {
    hide CheckLock;
  }
}
