/** Reactive obligations: rules that watch the event history and owe one obligation per matching
    event (`derive_reactive_obligations` of `_runtime_v38_dependencies.py`). */
module Reactive {
  import opened Foundations

  /** The two events one derivation writes: registering the obligation patches the snapshot, and
      recording the derivation adds evidence. */
  const PATCHED: Id := "snapshot_patched"
  const RECORDED: Id := "evidence_added"

  datatype Event = Event(kind: Id, data: map<Id, Value>)

  datatype Rule = Rule(watch: set<Id>, equals: map<Id, Value>, once: bool)

  /** Obligation names: the derived ones are an injective function of rule and event. */
  datatype Name = Derived(rule: Id, event: nat) | Plain(id: Id)

  /** The rule an obligation row names, if any. */
  type Row = Option<Id>

  /** The durable history: event number `n` is `events[n - 1]`; `derivations` are the derivation
      records, in the order they were written. */
  datatype Journal = Journal(events: seq<Event>, store: map<Name, Row>, derivations: seq<(Id, nat)>)

  /** The data carried by the two events that one derivation writes. */
  type Stamp = (Id, nat) -> (map<Id, Value>, map<Id, Value>)

  /** How far a call came: it stops for good when a registration is refused. */
  datatype Progress = Progress(journal: Journal, stopped: bool)

  predicate Matches(e: Event, r: Rule) {
    e.kind in r.watch && forall k :: k in r.equals ==> k in e.data && e.data[k] == r.equals[k]
  }

  function Fire(j: Journal, rid: Id, n: nat, stamp: Stamp): Journal {
    Journal(j.events + [Event(PATCHED, stamp(rid, n).0), Event(RECORDED, stamp(rid, n).1)],
            j.store[Derived(rid, n) := Some(rid)],
            j.derivations + [(rid, n)])
  }

  // ----- one rule over a snapshot of the history -----

  /** The rule looks at the events of `seen` from number `i + 1` on. `admits` says whether the
      registration of its obligations is accepted. */
  function Scan(j: Journal, rid: Id, rule: Rule, seen: seq<Event>, i: nat, from: nat, admits: bool, stamp: Stamp): Progress
    requires i <= |seen|
    decreases |seen| - i
  {
    if i == |seen| then Progress(j, false)
    else if i + 1 < from || !Matches(seen[i], rule) then Scan(j, rid, rule, seen, i + 1, from, admits, stamp)
    else if Derived(rid, i + 1) in j.store then
      if rule.once then Progress(j, false) else Scan(j, rid, rule, seen, i + 1, from, admits, stamp)
    else if !admits then Progress(j, true)
    else
      var next := Fire(j, rid, i + 1, stamp);
      if rule.once then Progress(next, false) else Scan(next, rid, rule, seen, i + 1, from, admits, stamp)
  }

  predicate HasRow(store: map<Name, Row>, rid: Id) {
    exists o :: o in store && store[o] == Some(rid)
  }

  function ApplyRule(j: Journal, rid: Id, rule: Rule, from: nat, admits: bool, stamp: Stamp): Progress {
    if rule.once && HasRow(j.store, rid) then Progress(j, false)
    else Scan(j, rid, rule, j.events, 0, from, admits, stamp)
  }

  // ----- one call over all rules -----

  datatype Call = Call(rules: map<Id, Rule>, from: nat, admitted: set<Id>, stamp: Stamp)

  function DeriveAlong(j: Journal, call: Call, order: seq<Id>): Progress
    requires forall rid :: rid in order ==> rid in call.rules
    decreases |order|
  {
    if order == [] then Progress(j, false)
    else
      var p := ApplyRule(j, order[0], call.rules[order[0]], call.from, order[0] in call.admitted, call.stamp);
      if p.stopped then p else DeriveAlong(p.journal, call, order[1..])
  }

  /** The call turns `j` into `p`; rules are visited in the order of their names. */
  ghost predicate Derives(j: Journal, call: Call, p: Progress) {
    exists order :: IsSorting(call.rules.Keys, order) && p == DeriveAlong(j, call, order)
  }

  lemma DerivesUnique(j: Journal, call: Call, p: Progress, q: Progress)
    requires Derives(j, call, p) && Derives(j, call, q)
    ensures p == q
  {
    var order :| IsSorting(call.rules.Keys, order) && p == DeriveAlong(j, call, order);
    var other :| IsSorting(call.rules.Keys, other) && q == DeriveAlong(j, call, other);
    SortingUnique(call.rules.Keys, order, other);
  }

  class ReactiveRuntime {
    var events: seq<Event>
    var store: map<Name, Row>
    var derivations: seq<(Id, nat)>

    ghost function History(): Journal
      reads this
    {
      Journal(events, store, derivations)
    }

    constructor (j: Journal)
      ensures History() == j
    {
      events, store, derivations := j.events, j.store, j.derivations;
    }

    /** Registers the obligation, then adds its derivation record to the evidence; each writes one
        event of its own type. */
    method Create(rid: Id, n: nat, stamp: Stamp)
      modifies this
      ensures History() == Fire(old(History()), rid, n, stamp)
    {
      store := store[Derived(rid, n) := Some(rid)];
      events := events + [Event(PATCHED, stamp(rid, n).0)];
      derivations := derivations + [(rid, n)];
      events := events + [Event(RECORDED, stamp(rid, n).1)];
    }

    method Watch(rid: Id, rule: Rule, from: nat, admits: bool, stamp: Stamp) returns (stopped: bool)
      modifies this
      ensures Progress(History(), stopped) == ApplyRule(old(History()), rid, rule, from, admits, stamp)
    {
      if rule.once && HasRow(store, rid) {
        return false;
      }
      var seen := events;
      ghost var goal := Scan(History(), rid, rule, seen, 0, from, admits, stamp);
      for i := 0 to |seen|
        invariant Scan(History(), rid, rule, seen, i, from, admits, stamp) == goal
      {
        if i + 1 >= from && Matches(seen[i], rule) {
          if Derived(rid, i + 1) in store {
            if rule.once {
              return false;
            }
          } else {
            if !admits {
              return true;
            }
            Create(rid, i + 1, stamp);
            if rule.once {
              return false;
            }
          }
        }
      }
      return false;
    }

    /** `derive_reactive_obligations`. A refused registration ends the call with what it has
        already created. */
    method Derive(rules: map<Id, Rule>, fromSequence: int, admitted: set<Id>, stamp: Stamp) returns (r: Result<bool>)
      modifies this
      ensures fromSequence < 0 ==> r.Err? && History() == old(History())
      ensures fromSequence >= 0 ==>
        r.Ok? && Derives(old(History()), Call(rules, fromSequence, admitted, stamp), Progress(History(), r.value))
      ensures fromSequence >= 0 ==> forall p ::
        Derives(old(History()), Call(rules, fromSequence, admitted, stamp), p) ==> p == Progress(History(), r.value)
    {
      if fromSequence < 0 {
        return Err(ValueError("from_sequence must be non-negative"));
      }
      var order := SortIds(rules.Keys);
      ghost var call := Call(rules, fromSequence, admitted, stamp);
      ghost var goal := DeriveAlong(History(), call, order);
      assert Derives(old(History()), call, goal);
      forall p | Derives(old(History()), call, p) ensures p == goal {
        DerivesUnique(old(History()), call, p, goal);
      }
      for i := 0 to |order|
        invariant forall rid :: rid in order[i..] ==> rid in rules
        invariant DeriveAlong(History(), call, order[i..]) == goal
      {
        assert order[i..][0] == order[i] && order[i..][1..] == order[i + 1..];
        var stopped := Watch(order[i], rules[order[i]], fromSequence, order[i] in admitted, stamp);
        if stopped {
          return Ok(true);
        }
      }
      return Ok(false);
    }
  }

  // ----- what every call keeps -----

  /** No derivation twice; each is on record as an obligation of its rule, and looks at an event
      that was there before it wrote its own two. */
  ghost predicate Tidy(j: Journal) {
    && (forall i, k :: 0 <= i < k < |j.derivations| ==> j.derivations[i] != j.derivations[k])
    && (forall d :: d in j.derivations ==> Derived(d.0, d.1) in j.store)
    && (forall o :: o in j.store && o.Derived? ==> j.store[o] == Some(o.rule) && 0 < o.event && o.event + 2 <= |j.events|)
  }

  /** `k` only adds to `j`. */
  ghost predicate Grows(j: Journal, k: Journal) {
    && j.events <= k.events && j.derivations <= k.derivations
    && (forall o :: o in j.store ==> o in k.store && k.store[o] == j.store[o])
    && (forall n :: |j.events| <= n < |k.events| ==> k.events[n].kind == PATCHED || k.events[n].kind == RECORDED)
    && (|k.derivations| == |j.derivations| ==> k == j)
    && (|k.derivations| > |j.derivations| ==> |k.events| >= |j.events| + 2 && EndsWithDerivation(k.events))
  }

  /** The history ends with the two events of a derivation. */
  predicate EndsWithDerivation(events: seq<Event>) {
    |events| >= 2 && events[|events| - 2].kind == PATCHED && events[|events| - 1].kind == RECORDED
  }

  lemma GrowsChain(a: Journal, b: Journal, c: Journal)
    requires Grows(a, b) && Grows(b, c)
    ensures Grows(a, c)
  {
  }

  lemma FireKeeps(j: Journal, rid: Id, n: nat, stamp: Stamp)
    requires Tidy(j) && Derived(rid, n) !in j.store && 0 < n <= |j.events|
    ensures Tidy(Fire(j, rid, n, stamp)) && Grows(j, Fire(j, rid, n, stamp))
  {
    var k := Fire(j, rid, n, stamp);
    assert forall d :: d in k.derivations <==> d in j.derivations || d == (rid, n);
  }

  lemma {:induction false} ScanKeeps(j: Journal, rid: Id, rule: Rule, seen: seq<Event>, i: nat, from: nat,
                                     admits: bool, stamp: Stamp)
    requires i <= |seen| <= |j.events| && Tidy(j)
    ensures var k := Scan(j, rid, rule, seen, i, from, admits, stamp).journal;
      Tidy(k) && Grows(j, k)
    decreases |seen| - i
  {
    hide Tidy, Grows;
    assert Grows(j, j) by { GrowsSelf(j); }
    if i < |seen| {
      if i + 1 < from || !Matches(seen[i], rule) || Derived(rid, i + 1) in j.store {
        ScanKeeps(j, rid, rule, seen, i + 1, from, admits, stamp);
      } else if admits {
        var next := Fire(j, rid, i + 1, stamp);
        FireKeeps(j, rid, i + 1, stamp);
        if !rule.once {
          ScanKeeps(next, rid, rule, seen, i + 1, from, admits, stamp);
          GrowsChain(j, next, Scan(next, rid, rule, seen, i + 1, from, admits, stamp).journal);
        }
      }
    }
  }

  lemma GrowsSelf(j: Journal)
    ensures Grows(j, j)
  {
  }

  lemma {:induction false} AlongKeeps(j: Journal, call: Call, order: seq<Id>)
    requires Tidy(j) && forall rid :: rid in order ==> rid in call.rules
    ensures var k := DeriveAlong(j, call, order).journal; Tidy(k) && Grows(j, k)
    decreases |order|
  {
    hide Tidy, Grows;
    GrowsSelf(j);
    if order != [] {
      var rid := order[0];
      var rule := call.rules[rid];
      if !(rule.once && HasRow(j.store, rid)) {
        ScanKeeps(j, rid, rule, j.events, 0, call.from, rid in call.admitted, call.stamp);
      }
      var p := ApplyRule(j, rid, rule, call.from, rid in call.admitted, call.stamp);
      if !p.stopped {
        AlongKeeps(p.journal, call, order[1..]);
        GrowsChain(j, p.journal, DeriveAlong(p.journal, call, order[1..]).journal);
      }
    }
  }

  /** At most once per rule and event, whatever the call: nothing already on record is derived
      again, and the history only grows. */
  lemma CallKeeps(j: Journal, call: Call, p: Progress)
    requires Tidy(j) && Derives(j, call, p)
    ensures Tidy(p.journal) && Grows(j, p.journal)
  {
    var order :| IsSorting(call.rules.Keys, order) && p == DeriveAlong(j, call, order);
    AlongKeeps(j, call, order);
  }

  // ----- coverage -----

  /** Events number `from` and later that the rule watches for. */
  predicate Triggers(j: Journal, rule: Rule, from: nat, n: nat) {
    0 < n <= |j.events| && n >= from && Matches(j.events[n - 1], rule)
  }

  /** The rule has nothing left to derive: a once-rule that is on record or was never triggered, or
      any other rule all of whose triggers are on record. */
  ghost predicate Satisfied(j: Journal, rid: Id, rule: Rule, from: nat) {
    if rule.once then HasRow(j.store, rid) || forall n :: !Triggers(j, rule, from, n)
    else forall n :: Triggers(j, rule, from, n) ==> Derived(rid, n) in j.store
  }

  /** A completed scan leaves no trigger of the snapshot behind. */
  lemma {:induction false} ScanCovers(j: Journal, rid: Id, rule: Rule, seen: seq<Event>, i: nat, from: nat, admits: bool,
                                      stamp: Stamp, n: nat)
    requires i <= |seen| <= |j.events| && Tidy(j)
    requires !Scan(j, rid, rule, seen, i, from, admits, stamp).stopped
    requires i < n <= |seen| && n >= from && Matches(seen[n - 1], rule)
    ensures var k := Scan(j, rid, rule, seen, i, from, admits, stamp).journal;
      if rule.once then HasRow(k.store, rid) else Derived(rid, n) in k.store
    decreases |seen| - i
  {
    hide Tidy;
    var k := Scan(j, rid, rule, seen, i, from, admits, stamp).journal;
    ScanKeeps(j, rid, rule, seen, i, from, admits, stamp);
    if i + 1 < from || !Matches(seen[i], rule) {
      ScanCovers(j, rid, rule, seen, i + 1, from, admits, stamp, n);
    } else if Derived(rid, i + 1) in j.store {
      RowOf(j, rid, i + 1);
      if !rule.once && n > i + 1 {
        ScanCovers(j, rid, rule, seen, i + 1, from, admits, stamp, n);
      }
    } else {
      var next := Fire(j, rid, i + 1, stamp);
      FireKeeps(j, rid, i + 1, stamp);
      if rule.once {
        assert next.store[Derived(rid, i + 1)] == Some(rid);
      } else {
        ScanKeeps(next, rid, rule, seen, i + 1, from, admits, stamp);
        if n > i + 1 {
          ScanCovers(next, rid, rule, seen, i + 1, from, admits, stamp, n);
        }
      }
    }
  }

  lemma RowOf(j: Journal, rid: Id, n: nat)
    requires Tidy(j) && Derived(rid, n) in j.store
    ensures HasRow(j.store, rid) && j.store[Derived(rid, n)] == Some(rid)
  {
  }

  lemma HasRowGrows(j: Journal, k: Journal, rid: Id)
    requires Grows(j, k) && HasRow(j.store, rid)
    ensures HasRow(k.store, rid)
  {
    var o :| o in j.store && j.store[o] == Some(rid);
    assert o in k.store && k.store[o] == Some(rid);
  }

  lemma {:induction false} AlongCovers(j: Journal, call: Call, order: seq<Id>, rid: Id, n: nat)
    requires Tidy(j) && (forall r :: r in order ==> r in call.rules) && rid in order
    requires !DeriveAlong(j, call, order).stopped && Triggers(j, call.rules[rid], call.from, n)
    ensures var k := DeriveAlong(j, call, order).journal;
      if call.rules[rid].once then HasRow(k.store, rid) else Derived(rid, n) in k.store
    decreases |order|
  {
    hide Tidy, Scan;
    var first := order[0];
    var p := ApplyRule(j, first, call.rules[first], call.from, first in call.admitted, call.stamp);
    AlongKeeps(j, call, [first]);
    assert [first][1..] == [];
    assert p.journal == DeriveAlong(j, call, [first]).journal;
    AlongKeeps(p.journal, call, order[1..]);
    var k := DeriveAlong(p.journal, call, order[1..]).journal;
    if first == rid {
      if !(call.rules[rid].once && HasRow(j.store, rid)) {
        ScanCovers(j, rid, call.rules[rid], j.events, 0, call.from, rid in call.admitted, call.stamp, n);
      }
      if call.rules[rid].once {
        HasRowGrows(p.journal, k, rid);
      }
    } else {
      assert rid in order[1..];
      AlongCovers(p.journal, call, order[1..], rid, n);
    }
  }

  /** A completed call covers every event already present that a rule watches for: each one for an
      ordinary rule, some obligation at least for a once-rule. */
  lemma CallCovers(j: Journal, call: Call, p: Progress, rid: Id, n: nat)
    requires Tidy(j) && Derives(j, call, p) && !p.stopped
    requires rid in call.rules && Triggers(j, call.rules[rid], call.from, n)
    ensures if call.rules[rid].once then HasRow(p.journal.store, rid) else Derived(rid, n) in p.journal.store
  {
    var order :| IsSorting(call.rules.Keys, order) && p == DeriveAlong(j, call, order);
    AlongCovers(j, call, order, rid, n);
  }

  // ----- what is derived was triggered -----

  /** Whatever `k` adds to `j` was triggered by an event of `k`. */
  ghost predicate OnlyTriggered(j: Journal, k: Journal, call: Call) {
    forall d :: d in k.derivations ==> d in j.derivations || Caused(k, call, d)
  }

  predicate Caused(k: Journal, call: Call, d: (Id, nat)) {
    d.0 in call.rules && Triggers(k, call.rules[d.0], call.from, d.1)
  }

  lemma {:induction false} ScanTriggered(j: Journal, rid: Id, call: Call, seen: seq<Event>, i: nat, admits: bool)
    requires i <= |seen| && seen <= j.events && Tidy(j) && rid in call.rules
    ensures OnlyTriggered(j, Scan(j, rid, call.rules[rid], seen, i, call.from, admits, call.stamp).journal, call)
    decreases |seen| - i
  {
    hide Tidy;
    var rule := call.rules[rid];
    if i < |seen| {
      if i + 1 < call.from || !Matches(seen[i], rule) || Derived(rid, i + 1) in j.store {
        ScanTriggered(j, rid, call, seen, i + 1, admits);
      } else if admits {
        var next := Fire(j, rid, i + 1, call.stamp);
        FireKeeps(j, rid, i + 1, call.stamp);
        assert Caused(next, call, (rid, i + 1));
        if !rule.once {
          ScanTriggered(next, rid, call, seen, i + 1, admits);
          ScanKeeps(next, rid, rule, seen, i + 1, call.from, admits, call.stamp);
          TriggeredChain(j, next, Scan(next, rid, rule, seen, i + 1, call.from, admits, call.stamp).journal, call);
        }
      }
    }
  }

  lemma TriggeredChain(a: Journal, b: Journal, c: Journal, call: Call)
    requires OnlyTriggered(a, b, call) && OnlyTriggered(b, c, call) && Grows(b, c)
    ensures OnlyTriggered(a, c, call)
  {
    forall d | d in c.derivations && d !in a.derivations ensures Caused(c, call, d) {
      if d in b.derivations {
        assert Caused(b, call, d);
      }
    }
  }

  lemma {:induction false} AlongTriggered(j: Journal, call: Call, order: seq<Id>)
    requires Tidy(j) && forall rid :: rid in order ==> rid in call.rules
    ensures OnlyTriggered(j, DeriveAlong(j, call, order).journal, call)
    decreases |order|
  {
    hide Tidy, Scan, OnlyTriggered, Grows;
    if order == [] {
      assert OnlyTriggered(j, j, call) by { TriggeredSelf(j, call); }
    } else {
      var rid := order[0];
      var p := ApplyRule(j, rid, call.rules[rid], call.from, rid in call.admitted, call.stamp);
      AlongKeeps(j, call, [rid]);
      assert [rid][1..] == [];
      TriggeredSelf(j, call);
      ScanTriggered(j, rid, call, j.events, 0, rid in call.admitted);
      if !p.stopped {
        AlongTriggered(p.journal, call, order[1..]);
        AlongKeeps(p.journal, call, order[1..]);
        TriggeredChain(j, p.journal, DeriveAlong(p.journal, call, order[1..]).journal, call);
      }
    }
  }

  lemma TriggeredSelf(j: Journal, call: Call)
    ensures OnlyTriggered(j, j, call)
  {
  }

  /** Every derivation a call adds answers an event of at least the starting sequence that its rule
      watches for. */
  lemma CallTriggered(j: Journal, call: Call, p: Progress)
    requires Tidy(j) && Derives(j, call, p)
    ensures OnlyTriggered(j, p.journal, call)
  {
    var order :| IsSorting(call.rules.Keys, order) && p == DeriveAlong(j, call, order);
    AlongTriggered(j, call, order);
  }

  // ----- when a call has nothing to do -----

  lemma {:induction false} ScanIdle(j: Journal, rid: Id, rule: Rule, i: nat, from: nat, admits: bool, stamp: Stamp)
    requires i <= |j.events| && Satisfied(j, rid, rule, from) && !(rule.once && HasRow(j.store, rid))
    ensures Scan(j, rid, rule, j.events, i, from, admits, stamp) == Progress(j, false)
    decreases |j.events| - i
  {
    if i < |j.events| {
      ScanIdle(j, rid, rule, i + 1, from, admits, stamp);
      assert i + 1 >= from && Matches(j.events[i], rule) ==> Triggers(j, rule, from, i + 1);
    }
  }

  lemma {:induction false} AlongIdle(j: Journal, call: Call, order: seq<Id>)
    requires forall rid :: rid in order ==> rid in call.rules && Satisfied(j, rid, call.rules[rid], call.from)
    ensures DeriveAlong(j, call, order) == Progress(j, false)
    decreases |order|
  {
    hide Satisfied, Scan;
    if order != [] {
      var rid := order[0];
      if !(call.rules[rid].once && HasRow(j.store, rid)) {
        ScanIdle(j, rid, call.rules[rid], 0, call.from, rid in call.admitted, call.stamp);
      }
      AlongIdle(j, call, order[1..]);
    }
  }

  /** A call completes without writing anything exactly when every rule is satisfied. */
  lemma IdleExactly(j: Journal, call: Call, p: Progress)
    requires Tidy(j) && Derives(j, call, p)
    ensures p == Progress(j, false) <==>
      forall rid :: rid in call.rules ==> Satisfied(j, rid, call.rules[rid], call.from)
  {
    hide Tidy, Satisfied;
    var order :| IsSorting(call.rules.Keys, order) && p == DeriveAlong(j, call, order);
    if forall rid :: rid in call.rules ==> Satisfied(j, rid, call.rules[rid], call.from) {
      AlongIdle(j, call, order);
    }
    if p == Progress(j, false) {
      forall rid | rid in call.rules ensures Satisfied(j, rid, call.rules[rid], call.from) {
        SatisfiedAfter(j, call, p, rid);
      }
    }
  }

  lemma SatisfiedAfter(j: Journal, call: Call, p: Progress, rid: Id)
    requires Tidy(j) && Derives(j, call, p) && p == Progress(j, false) && rid in call.rules
    ensures Satisfied(j, rid, call.rules[rid], call.from)
  {
    forall n: nat | Triggers(j, call.rules[rid], call.from, n)
      ensures if call.rules[rid].once then HasRow(j.store, rid) else Derived(rid, n) in j.store
    {
      CallCovers(j, call, p, rid, n);
    }
  }

  /** When no rule watches either kind of event that derivation writes, a second call, started no
      earlier, creates nothing. */
  lemma SecondCallIdle(j: Journal, call: Call, p: Progress, again: Call, q: Progress)
    requires Tidy(j) && Derives(j, call, p) && !p.stopped
    requires again.rules == call.rules && again.from >= call.from && Derives(p.journal, again, q)
    requires forall rid :: rid in call.rules ==> call.rules[rid].watch !! {PATCHED, RECORDED}
    ensures q == Progress(p.journal, false)
  {
    CallKeeps(j, call, p);
    forall rid | rid in call.rules ensures Satisfied(p.journal, rid, call.rules[rid], again.from) {
      forall n: nat | Triggers(p.journal, call.rules[rid], again.from, n)
        ensures if call.rules[rid].once then HasRow(p.journal.store, rid) else Derived(rid, n) in p.journal.store
      {
        assert n <= |j.events|;
        assert Triggers(j, call.rules[rid], call.from, n);
        CallCovers(j, call, p, rid, n);
      }
    }
    IdleExactly(p.journal, again, q);
  }

  /** A rule without filter that does watch one of them, and is no once-rule, never comes to rest: a
      call that created anything leaves the next one something to create, unless that one starts
      beyond the event the rule watches for. */
  lemma NeverRests(j: Journal, call: Call, p: Progress, again: Call, q: Progress, rid: Id)
    requires Tidy(j) && Derives(j, call, p) && |p.journal.derivations| > |j.derivations|
    requires Derives(p.journal, again, q)
    requires rid in again.rules && !again.rules[rid].once && again.rules[rid].equals == map[]
    requires
      || (RECORDED in again.rules[rid].watch && again.from <= |p.journal.events|)
      || (PATCHED in again.rules[rid].watch && again.from < |p.journal.events|)
    ensures q != Progress(p.journal, false)
  {
    CallKeeps(j, call, p);
    var last := |p.journal.events|;
    var n := if RECORDED in again.rules[rid].watch && again.from <= last then last else last - 1;
    assert p.journal.events[last - 1].kind == RECORDED && p.journal.events[last - 2].kind == PATCHED;
    assert Triggers(p.journal, again.rules[rid], again.from, n);
    assert Derived(rid, n) !in p.journal.store;
    if q == Progress(p.journal, false) {
      CallCovers(p.journal, again, q, rid, n);
    }
  }

  // ----- once-rules over any sequence of calls -----

  ghost predicate AtMostOne(j: Journal, rid: Id) {
    forall i, k :: 0 <= i < k < |j.derivations| ==> !(j.derivations[i].0 == rid && j.derivations[k].0 == rid)
  }

  /** `k` adds derivations of `rid` alone, and only one if the rule is a once-rule. */
  ghost predicate AddsFor(j: Journal, k: Journal, rid: Id, once: bool) {
    && j.derivations <= k.derivations
    && (forall i :: |j.derivations| <= i < |k.derivations| ==> k.derivations[i].0 == rid)
    && (once ==> |k.derivations| <= |j.derivations| + 1)
  }

  lemma {:induction false} ScanAdds(j: Journal, rid: Id, rule: Rule, seen: seq<Event>, i: nat, from: nat,
                                    admits: bool, stamp: Stamp)
    requires i <= |seen|
    ensures AddsFor(j, Scan(j, rid, rule, seen, i, from, admits, stamp).journal, rid, rule.once)
    decreases |seen| - i
  {
    if i < |seen| {
      ScanAdds(j, rid, rule, seen, i + 1, from, admits, stamp);
      ScanAdds(Fire(j, rid, i + 1, stamp), rid, rule, seen, i + 1, from, admits, stamp);
    }
  }

  lemma ApplyKeepsOne(j: Journal, other: Id, rule: Rule, from: nat, admits: bool, stamp: Stamp, rid: Id)
    requires Tidy(j) && AtMostOne(j, rid) && (other == rid ==> rule.once)
    ensures AtMostOne(ApplyRule(j, other, rule, from, admits, stamp).journal, rid)
  {
    hide Scan;
    if !(rule.once && HasRow(j.store, other)) {
      var k := Scan(j, other, rule, j.events, 0, from, admits, stamp).journal;
      ScanAdds(j, other, rule, j.events, 0, from, admits, stamp);
      if other == rid {
        forall i | 0 <= i < |j.derivations| ensures j.derivations[i].0 != rid {
          var d := j.derivations[i];
          assert d in j.derivations;
          if d.0 == rid {
            RowOf(j, rid, d.1);
          }
        }
      }
    }
  }

  lemma {:induction false} AlongKeepsOne(j: Journal, call: Call, order: seq<Id>, rid: Id)
    requires Tidy(j) && AtMostOne(j, rid) && forall r :: r in order ==> r in call.rules
    requires rid in call.rules ==> call.rules[rid].once
    ensures AtMostOne(DeriveAlong(j, call, order).journal, rid)
    decreases |order|
  {
    hide Tidy, AtMostOne, Scan;
    if order != [] {
      var r := order[0];
      var p := ApplyRule(j, r, call.rules[r], call.from, r in call.admitted, call.stamp);
      ApplyKeepsOne(j, r, call.rules[r], call.from, r in call.admitted, call.stamp, rid);
      AlongKeeps(j, call, [r]);
      assert [r][1..] == [];
      if !p.stopped {
        AlongKeepsOne(p.journal, call, order[1..], rid);
      }
    }
  }

  /** Between calls the rest of the engine appends events and registers other obligations. */
  ghost predicate Elsewhere(j: Journal, k: Journal) {
    && j.events <= k.events && k.derivations == j.derivations
    && (forall o :: o in j.store ==> o in k.store && k.store[o] == j.store[o])
    && (forall o :: o in k.store && o !in j.store ==> o.Plain?)
  }

  datatype Move = Calling(call: Call, stopped: bool) | Other

  ghost predicate IsMove(j: Journal, m: Move, k: Journal) {
    match m
    case Calling(call, stopped) => Derives(j, call, Progress(k, stopped))
    case Other => Elsewhere(j, k)
  }

  ghost predicate IsHistory(journals: seq<Journal>, moves: seq<Move>) {
    |journals| == |moves| + 1
    && forall i {:trigger moves[i]} :: 0 <= i < |moves| ==> IsMove(journals[i], moves[i], journals[i + 1])
  }

  lemma MoveKeepsTidy(j: Journal, m: Move, k: Journal)
    requires Tidy(j) && IsMove(j, m, k)
    ensures Tidy(k) && j.events <= k.events && j.derivations <= k.derivations
  {
    match m
    case Calling(call, stopped) => CallKeeps(j, call, Progress(k, stopped));
    case Other =>
  }

  lemma MoveKeepsOne(j: Journal, m: Move, k: Journal, rid: Id)
    requires Tidy(j) && IsMove(j, m, k) && AtMostOne(j, rid)
    requires m.Calling? && rid in m.call.rules ==> m.call.rules[rid].once
    ensures AtMostOne(k, rid)
  {
    match m
    case Calling(call, stopped) =>
      var order :| IsSorting(call.rules.Keys, order) && Progress(k, stopped) == DeriveAlong(j, call, order);
      AlongKeepsOne(j, call, order, rid);
    case Other =>
  }

  /** Over any sequence of calls, whatever their starting sequences and wherever they stop: no rule
      and event derive twice, no derivation is withdrawn, and a once-rule derives at most once ever. */
  lemma {:induction false} AtMostOnceEver(journals: seq<Journal>, moves: seq<Move>, rid: Id, i: nat)
    requires IsHistory(journals, moves) && Tidy(journals[0]) && AtMostOne(journals[0], rid)
    requires forall k :: 0 <= k < |moves| && moves[k].Calling? && rid in moves[k].call.rules ==>
      moves[k].call.rules[rid].once
    requires i < |journals|
    ensures Tidy(journals[i]) && AtMostOne(journals[i], rid)
    ensures journals[0].derivations <= journals[i].derivations
    decreases i
  {
    hide Tidy, AtMostOne, Derives, Elsewhere;
    if i > 0 {
      AtMostOnceEver(journals, moves, rid, i - 1);
      assert IsMove(journals[i - 1], moves[i - 1], journals[i]);
      MoveKeepsTidy(journals[i - 1], moves[i - 1], journals[i]);
      MoveKeepsOne(journals[i - 1], moves[i - 1], journals[i], rid);
    }
  }

  /** A rule is triggered by an event from the starting number on, of a kind it watches, that carries every
      filtered key with the filtered value. */
  lemma TriggersExactly(j: Journal, rule: Rule, from: nat, n: nat)
    ensures Triggers(j, rule, from, n) <==>
      && n > 0 && from <= n <= |j.events| && j.events[n - 1].kind in rule.watch
      && forall k :: k in rule.equals.Keys ==> (k, rule.equals[k]) in j.events[n - 1].data.Items
  {
  }

  /** Every derivation that a call adds is of a rule and an event that bears the rule's filter. */
  lemma DerivationsBearTheFilter(j: Journal, call: Call, p: Progress, rid: Id, n: nat)
    requires Tidy(j) && Derives(j, call, p) && (rid, n) in p.journal.derivations && (rid, n) !in j.derivations
    ensures rid in call.rules && call.from <= n && 0 < n <= |p.journal.events|
    ensures var rule, e := call.rules[rid], p.journal.events[n - 1];
      e.kind in rule.watch && forall k :: k in rule.equals.Keys ==> (k, rule.equals[k]) in e.data.Items
  {
    CallTriggered(j, call, p);
    assert Caused(p.journal, call, (rid, n));
    TriggersExactly(p.journal, call.rules[rid], call.from, n);
  }
}
