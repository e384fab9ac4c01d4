/** Atomic activation of a candidate (`_stage_candidate_activation` of `_runtime_v31_search.py`). */
module Staging {
  import opened Foundations
  import opened CalculusModel
  import opened Reachability
  import opened Scopes
  import opened Conditions
  import opened Knowledge
  import opened DecisionGraph
  import opened Backjump
  import opened Locks
  import opened Fairness

  /** A candidate assigns scoped subject keys to decisions. */
  type Assignments = map<Id, Id>

  // ----- admission of the targets -----

  predicate Selectable(s: DecisionStatus) {
    s.Proposed? || s.Suspended? || s.Active?
  }

  predicate AntecedentsLive(c: Calculus, d: Decision) {
    forall k :: k in d.antecedents ==> k in c.constraints && Live(c.constraints[k])
  }

  predicate Admissible(c: Calculus, key: Id, d: Id) {
    d in c.decisions
    && (var r := c.decisions[d];
        && key == ScopedKey(r.scope, r.subject)
        && r.scope in c.scopes && c.scopes[r.scope].status.ActiveScope?
        && Selectable(r.status) && AntecedentsLive(c, r))
  }

  ghost predicate AllAdmissible(c: Calculus, assignments: Assignments) {
    forall key :: key in assignments ==> Admissible(c, key, assignments[key])
  }

  ghost predicate RowsAlong(assignments: Assignments, keys: seq<Id>, rows: seq<Id>) {
    |rows| == |keys|
    && forall i :: 0 <= i < |keys| ==> keys[i] in assignments && rows[i] == assignments[keys[i]]
  }

  /** The target decisions in the order of their keys. */
  ghost predicate IsRows(assignments: Assignments, rows: seq<Id>) {
    exists keys :: IsSorting(assignments.Keys, keys) && RowsAlong(assignments, keys, rows)
  }

  predicate SameSlot(r: Decision, q: Decision) {
    r.scope == q.scope && r.subject == q.subject
  }

  /** No two targets compete for a slot. */
  ghost predicate DistinctSlots(c: Calculus, targets: set<Id>) {
    targets <= c.decisions.Keys
    && forall d, e :: d in targets && e in targets && SameSlot(c.decisions[d], c.decisions[e]) ==> d == e
  }

  lemma AdmissibleAreDistinct(c: Calculus, assignments: Assignments)
    requires AllAdmissible(c, assignments)
    ensures DistinctSlots(c, assignments.Values)
  {
    forall d | d in assignments.Values ensures d in c.decisions {
      var key :| key in assignments && assignments[key] == d;
    }
    forall d, e | d in assignments.Values && e in assignments.Values && SameSlot(c.decisions[d], c.decisions[e])
      ensures d == e
    {
      var k :| k in assignments && assignments[k] == d;
      var m :| m in assignments && assignments[m] == e;
      assert Admissible(c, k, d) && Admissible(c, m, e);
    }
  }

  method AdmitTargets(c: Calculus, assignments: Assignments) returns (r: Result<seq<Id>>)
    ensures r.Ok? <==> AllAdmissible(c, assignments)
    ensures r.Ok? ==> IsRows(assignments, r.value)
  {
    var keys := SortIds(assignments.Keys);
    var rows: seq<Id> := [];
    for i := 0 to |keys|
      invariant |rows| == i
      invariant forall j :: 0 <= j < i ==>
        (keys[j] in assignments && Admissible(c, keys[j], assignments[keys[j]]) && rows[j] == assignments[keys[j]])
    {
      var key := keys[i];
      assert key in assignments;
      var d := assignments[key];
      if d !in c.decisions {
        return Err(KeyError(d));
      }
      if !Admissible(c, key, d) {
        return Err(ValueError("decision cannot activate"));
      }
      rows := rows + [d];
    }
    assert AllAdmissible(c, assignments) by {
      forall key | key in assignments ensures Admissible(c, key, assignments[key]) {
        var j :| 0 <= j < |keys| && keys[j] == key;
      }
    }
    return Ok(rows);
  }

  // ----- first pass: superseding what occupies the slots -----

  datatype Pass = Pass(state: Calculus, suspended: set<Id>, superseded: set<Id>)

  function MarkSuperseded(c: Calculus, current: Id, d: Id): Calculus
    requires current in c.decisions
  {
    c.(decisions := c.decisions[current :=
      c.decisions[current].(status := Superseded, supersededBy := Some(d))])
  }

  function ActiveAmong(c: Calculus, ids: set<Id>): set<Id> {
    set d | d in ids && IsActive(c, d)
  }

  function SuspendIn(decisions: map<Id, Decision>, ids: set<Id>): map<Id, Decision> {
    map d | d in decisions ::
      if d in ids && decisions[d].status.Active? then decisions[d].(status := Suspended) else decisions[d]
  }

  /** `current` is superseded by `d`; whatever depends on it is suspended; all leave the models. */
  ghost function Displace(p: Pass, current: Id, d: Id): Pass
    requires current in p.state.decisions
  {
    var marked := MarkSuperseded(p.state, current, d);
    var below := Descendants(marked, current) - {current};
    Pass(
      marked.(decisions := SuspendIn(marked.decisions, below),
              models := ModelsWithout(marked.models, below + {current})),
      p.suspended + ActiveAmong(marked, below),
      p.superseded + {current})
  }

  /** An inherited assignment of the subject may only be overridden explicitly. The root layer is
      still read from `active_model`, which the passes do not touch. */
  predicate OverrideRefused(c: Calculus, d: Id)
    requires d in c.decisions && c.decisions[d].scope in c.scopes
  {
    var r := c.decisions[d];
    var inherited := EffectiveDecisions(c, r.scope);
    r.subject in inherited && inherited[r.subject] != d
    && (c.scopes[r.scope].deniesOverride || !r.overrides)
  }

  predicate RowReady(c: Calculus, d: Id) {
    d in c.decisions && c.decisions[d].scope in c.scopes
  }

  ghost function SupersedeRow(p: Pass, d: Id): Result<Pass>
    requires RowReady(p.state, d)
  {
    var c := p.state;
    match Slot(c.models, c.decisions[d].scope, c.decisions[d].subject)
    case None =>
      if OverrideRefused(c, d) then Err(ValueError("override refused")) else Ok(p)
    case Some(current) =>
      if current == d then Ok(p)
      else if current !in c.decisions then Err(KeyError(current))
      else if c.decisions[current].pinned then Err(ValueError("pinned decision cannot be superseded"))
      else Ok(Displace(p, current, d))
  }

  lemma SupersedeRowKeepsReady(p: Pass, d: Id, e: Id)
    requires RowReady(p.state, d) && RowReady(p.state, e)
    ensures SupersedeRow(p, d).Ok? ==> RowReady(SupersedeRow(p, d).value.state, e)
  {
  }

  ghost function SupersedeAll(p: Pass, rows: seq<Id>): Result<Pass>
    requires forall d :: d in rows ==> RowReady(p.state, d)
    decreases |rows|
  {
    if rows == [] then Ok(p)
    else
      var next :- SupersedeRow(p, rows[0]);
      forall d | d in rows[1..] ensures RowReady(next.state, d) {
        SupersedeRowKeepsReady(p, rows[0], d);
      }
      SupersedeAll(next, rows[1..])
  }

  method SuspendDependents(decisions: map<Id, Decision>, below: set<Id>)
    returns (out: map<Id, Decision>, suspended: set<Id>)
    ensures out == SuspendIn(decisions, below)
    ensures suspended == set d | d in below && d in decisions && decisions[d].status.Active?
  {
    out, suspended := decisions, {};
    var rest := below;
    while rest != {}
      invariant rest <= below && out.Keys == decisions.Keys
      invariant forall d :: d in decisions ==>
        out[d] == if d in below && d !in rest && decisions[d].status.Active?
                  then decisions[d].(status := Suspended) else decisions[d]
      invariant forall d :: d in suspended <==>
        d in below && d !in rest && d in decisions && decisions[d].status.Active?
      decreases rest
    {
      var d :| d in rest;
      rest := rest - {d};
      if d in out && out[d].status.Active? {
        out := out[d := out[d].(status := Suspended)];
        suspended := suspended + {d};
      }
    }
  }

  method DisplaceCurrent(p: Pass, current: Id, d: Id) returns (q: Pass)
    requires current in p.state.decisions
    ensures q == Displace(p, current, d)
  {
    var marked := MarkSuperseded(p.state, current, d);
    var closure := DecisionDescendants(marked, current);
    var below := closure - {current};
    var decisions, suspended := SuspendDependents(marked.decisions, below);
    var models := PurgeModels(marked.models, below + {current});
    q := Pass(marked.(decisions := decisions, models := models),
              p.suspended + suspended, p.superseded + {current});
  }

  method Supersede(p: Pass, d: Id) returns (r: Result<Pass>)
    requires RowReady(p.state, d)
    ensures r == SupersedeRow(p, d)
  {
    var c := p.state;
    match Slot(c.models, c.decisions[d].scope, c.decisions[d].subject) {
      case None =>
        return if OverrideRefused(c, d) then Err(ValueError("override refused")) else Ok(p);
      case Some(current) =>
        if current == d {
          return Ok(p);
        }
        if current !in c.decisions {
          return Err(KeyError(current));
        }
        if c.decisions[current].pinned {
          return Err(ValueError("pinned decision cannot be superseded"));
        }
        var q := DisplaceCurrent(p, current, d);
        return Ok(q);
    }
  }

  method SupersedeOccupants(p: Pass, rows: seq<Id>) returns (r: Result<Pass>)
    requires forall d :: d in rows ==> RowReady(p.state, d)
    ensures r == SupersedeAll(p, rows)
  {
    var q := p;
    for i := 0 to |rows|
      invariant forall d :: d in rows[i..] ==> RowReady(q.state, d)
      invariant SupersedeAll(p, rows) == SupersedeAll(q, rows[i..])
    {
      assert rows[i..][0] == rows[i] && rows[i..][1..] == rows[i + 1..];
      var next := Supersede(q, rows[i]);
      if next.Err? {
        return next;
      }
      forall d | d in rows[i + 1..] ensures RowReady(next.value.state, d) {
        assert d in rows[i..];
        SupersedeRowKeepsReady(q, rows[i], d);
      }
      q := next.value;
    }
    return Ok(q);
  }

  // ----- second pass: activating the targets -----

  predicate ParentsReady(c: Calculus, d: Id, targets: set<Id>)
    requires d in c.decisions
  {
    forall p :: p in c.decisions[d].parents ==> IsActive(c, p) || p in targets
  }

  ghost predicate AllReady(c: Calculus, targets: set<Id>)
    requires targets <= c.decisions.Keys
  {
    forall d :: d in targets ==> ParentsReady(c, d, targets)
  }

  function ActivateDecision(d: Decision, sequence: nat): Decision {
    d.(status := Active, activatedAt := Some(sequence))
  }

  function LocalModel(models: map<Id, map<Id, Id>>, scope: Id): map<Id, Id> {
    if scope in models then models[scope] else NO_MODEL
  }

  function ActivateOne(c: Calculus, d: Id, sequence: nat): Calculus
    requires d in c.decisions
  {
    var r := c.decisions[d];
    c.(decisions := c.decisions[d := ActivateDecision(r, sequence)],
       models := c.models[r.scope := LocalModel(c.models, r.scope)[r.subject := d]])
  }

  /** The slot `(s, x)` is that of `d`. */
  predicate Owns(c: Calculus, d: Id, s: Id, x: Id) {
    d in c.decisions && c.decisions[d].scope == s && c.decisions[d].subject == x
  }

  ghost predicate SlotsFilled(c: Calculus, models: map<Id, map<Id, Id>>, done: set<Id>)
    requires done <= c.decisions.Keys
  {
    && (forall d :: d in done ==> Slot(models, c.decisions[d].scope, c.decisions[d].subject) == Some(d))
    && (forall s, x :: Slot(models, s, x) != Slot(c.models, s, x) ==>
          Slot(models, s, x).Some? && Slot(models, s, x).value in done && Owns(c, Slot(models, s, x).value, s, x))
    && models.Keys == c.models.Keys + (set d | d in done :: c.decisions[d].scope)
  }

  /** `c'` is `c` with the decisions of `done` ACTIVE in their slots and nothing else changed. */
  ghost predicate Activates(c: Calculus, c': Calculus, done: set<Id>, sequence: nat)
    requires done <= c.decisions.Keys
  {
    && c' == c.(decisions := c'.decisions, models := c'.models)
    && c'.decisions.Keys == c.decisions.Keys
    && (forall d :: d in c.decisions ==>
          c'.decisions[d] == if d in done then ActivateDecision(c.decisions[d], sequence) else c.decisions[d])
    && SlotsFilled(c, c'.models, done)
  }

  lemma SlotSet(models: map<Id, map<Id, Id>>, scope: Id, subject: Id, d: Id)
    ensures var next := models[scope := LocalModel(models, scope)[subject := d]];
      forall s, x :: Slot(next, s, x) == if s == scope && x == subject then Some(d) else Slot(models, s, x)
  {
  }

  lemma FillStep(c: Calculus, models: map<Id, map<Id, Id>>, done: set<Id>, d: Id)
    requires DistinctSlots(c, done + {d}) && d !in done && SlotsFilled(c, models, done)
    ensures var r := c.decisions[d];
      SlotsFilled(c, models[r.scope := LocalModel(models, r.scope)[r.subject := d]], done + {d})
  {
    var r := c.decisions[d];
    var next := models[r.scope := LocalModel(models, r.scope)[r.subject := d]];
    var all := done + {d};
    SlotSet(models, r.scope, r.subject, d);
    forall e | e in all ensures Slot(next, c.decisions[e].scope, c.decisions[e].subject) == Some(e) {
      assert d in all;
      assert e != d ==> !SameSlot(c.decisions[e], r);
    }
  }

  lemma ActivateStep(c: Calculus, c': Calculus, done: set<Id>, d: Id, targets: set<Id>, sequence: nat)
    requires DistinctSlots(c, done + {d}) && d !in done && Activates(c, c', done, sequence)
    requires done <= targets
    ensures d in c.decisions && d in c'.decisions
    ensures Activates(c, ActivateOne(c', d, sequence), done + {d}, sequence)
    ensures ParentsReady(c', d, targets) == ParentsReady(c, d, targets)
  {
    FillStep(c, c'.models, done, d);
    assert forall p :: IsActive(c', p) <==> IsActive(c, p) || p in done;
  }

  lemma NothingActivated(c: Calculus, sequence: nat)
    ensures Activates(c, c, {}, sequence)
  {
  }

  lemma FewerSlots(c: Calculus, targets: set<Id>, fewer: set<Id>)
    requires DistinctSlots(c, targets) && fewer <= targets
    ensures DistinctSlots(c, fewer) && fewer <= c.decisions.Keys
  {
  }
  /** The activation loop. The source visits targets by scope depth, level and key; the outcome is
      the same for every order, because targets are exempt from the parent check. */
  method ActivateTargets(c: Calculus, targets: set<Id>, sequence: nat) returns (r: Result<Calculus>)
    requires DistinctSlots(c, targets)
    ensures r.Ok? <==> AllReady(c, targets)
    ensures r.Ok? ==> Activates(c, r.value, targets, sequence)
  {
    hide ParentsReady, Activates, DistinctSlots, ActivateOne;
    var staged := c;
    var rest := targets;
    FewerSlots(c, targets, targets);
    NothingActivated(c, sequence);
    assert targets - rest == {};
    while rest != {}
      invariant rest <= targets <= c.decisions.Keys
      invariant forall d :: d in targets - rest ==> ParentsReady(c, d, targets)
      invariant Activates(c, staged, targets - rest, sequence)
      decreases rest
    {
      var d :| d in rest;
      ghost var done := targets - rest;
      rest := rest - {d};
      assert targets - rest == done + {d};
      FewerSlots(c, targets, done + {d});
      ActivateStep(c, staged, done, d, targets, sequence);
      if !ParentsReady(staged, d, targets) {
        return Err(ValueError("decision parents inactive"));
      }
      staged := ActivateOne(staged, d, sequence);
    }
    assert targets - rest == targets;
    return Ok(staged);
  }

  // ----- the whole activation -----

  function PreviousValues(c: Calculus): map<Id, Values> {
    map s | s in c.scopes :: EffectiveValues(c, s)
  }

  function Synchronised(c: Calculus): Calculus {
    c.(activeModel := RootModel(c.models))
  }

  /** The candidate becomes the model: a new epoch, locks reevaluated, fairness audited. */
  ghost function Finished(c: Calculus): Calculus {
    Settled(NextEpoch(c))
  }

  function NextEpoch(c: Calculus): Calculus {
    c.(epoch := c.epoch + 1)
  }

  /** The state between the passes. */
  ghost predicate FirstPass(start: Calculus, assignments: Assignments, rows: seq<Id>, p: Pass) {
    && AllAdmissible(start, assignments) && IsRows(assignments, rows)
    && (forall d :: d in rows ==> RowReady(start, d))
    && SupersedeAll(Pass(start, {}, {}), rows) == Ok(p)
  }

  /** `p` and `act` are the states after the two passes over the audited calculus. */
  ghost predicate StagePath(c: Calculus, assignments: Assignments, sequence: nat,
                            rows: seq<Id>, p: Pass, act: Calculus) {
    var targets := assignments.Values;
    && FirstPass(Audited(c), assignments, rows, p)
    && targets <= p.state.decisions.Keys && AllReady(p.state, targets)
    && (exists raw :: Activates(p.state, raw, targets, sequence) && act == Synchronised(raw))
  }

  ghost predicate GateOpen(c: Calculus, act: Calculus)
    requires act.scopes == c.scopes
  {
    Reported(c, Overdue) != {} && c.policy.enforcement.BlockPlanning? ==>
      GatePasses(act, PreviousValues(c))
  }

  /** The candidate model `act` passes both final checks. */
  ghost predicate Accepted(c: Calculus, act: Calculus) {
    Violated(act) == {} && act.scopes == c.scopes && GateOpen(c, act)
  }

  /** Staging the candidate in `c` succeeds and yields `c'`. */
  ghost predicate Stages(c: Calculus, assignments: Assignments, sequence: nat, c': Calculus) {
    exists rows, p, act ::
      StagePath(c, assignments, sequence, rows, p, act) && Accepted(c, act) && c' == Finished(act)
  }

  lemma RowsCover(assignments: Assignments, rows: seq<Id>)
    requires IsRows(assignments, rows)
    ensures forall d :: d in rows <==> d in assignments.Values
  {
    var keys :| IsSorting(assignments.Keys, keys) && RowsAlong(assignments, keys, rows);
    forall d | d in assignments.Values ensures d in rows {
      var k :| k in assignments && assignments[k] == d;
      var i :| 0 <= i < |keys| && keys[i] == k;
      assert rows[i] == d;
    }
    forall d | d in rows ensures d in assignments.Values {
      var i :| 0 <= i < |rows| && rows[i] == d;
      assert assignments[keys[i]] == d;
    }
  }

  lemma RowsUnique(assignments: Assignments, rows: seq<Id>, other: seq<Id>)
    requires IsRows(assignments, rows) && IsRows(assignments, other)
    ensures rows == other
  {
    var keys :| IsSorting(assignments.Keys, keys) && RowsAlong(assignments, keys, rows);
    var more :| IsSorting(assignments.Keys, more) && RowsAlong(assignments, more, other);
    SortingUnique(assignments.Keys, keys, more);
    assert forall i :: 0 <= i < |rows| ==> rows[i] == other[i];
  }

  lemma ActivatesUnique(c: Calculus, a: Calculus, b: Calculus, done: set<Id>, sequence: nat)
    requires done <= c.decisions.Keys && Activates(c, a, done, sequence) && Activates(c, b, done, sequence)
    ensures a == b
  {
    hide SlotsFilled;
    assert a.decisions == b.decisions;
    FilledUnique(c, a.models, b.models, done);
  }

  lemma FilledUnique(c: Calculus, a: map<Id, map<Id, Id>>, b: map<Id, map<Id, Id>>, done: set<Id>)
    requires done <= c.decisions.Keys && SlotsFilled(c, a, done) && SlotsFilled(c, b, done)
    ensures a == b
  {
    forall s, x ensures Slot(a, s, x) == Slot(b, s, x) {
      assert forall d :: d in done && Owns(c, d, s, x) ==> Slot(a, s, x) == Some(d) == Slot(b, s, x);
    }
    SlotsDetermine(a, b);
  }

  lemma SlotsDetermine(a: map<Id, map<Id, Id>>, b: map<Id, map<Id, Id>>)
    requires a.Keys == b.Keys && forall s, x :: Slot(a, s, x) == Slot(b, s, x)
    ensures a == b
  {
    forall s | s in a ensures a[s] == b[s] {
      forall x ensures x in a[s] <==> x in b[s] {
        assert Slot(a, s, x) == Slot(b, s, x);
      }
      forall x | x in a[s] ensures a[s][x] == b[s][x] {
        assert Slot(a, s, x) == Slot(b, s, x);
      }
    }
  }

  /** At most one state can result, whatever order the loops take. */
  lemma StageDeterministic(c: Calculus, assignments: Assignments, sequence: nat, a: Calculus, b: Calculus)
    requires Stages(c, assignments, sequence, a) && Stages(c, assignments, sequence, b)
    ensures a == b
  {
    var r1, p1, act1 :| StagePath(c, assignments, sequence, r1, p1, act1)
      && Accepted(c, act1) && a == Finished(act1);
    var r2, p2, act2 :| StagePath(c, assignments, sequence, r2, p2, act2)
      && Accepted(c, act2) && b == Finished(act2);
    PathUnique(c, assignments, sequence, r1, p1, act1, r2, p2, act2);
  }

  lemma PathUnique(c: Calculus, assignments: Assignments, sequence: nat,
                   r1: seq<Id>, p1: Pass, act1: Calculus, r2: seq<Id>, p2: Pass, act2: Calculus)
    requires StagePath(c, assignments, sequence, r1, p1, act1)
    requires StagePath(c, assignments, sequence, r2, p2, act2)
    ensures p1 == p2 && act1 == act2
  {
    RowsUnique(assignments, r1, r2);
    var raw1 :| Activates(p1.state, raw1, assignments.Values, sequence) && act1 == Synchronised(raw1);
    var raw2 :| Activates(p2.state, raw2, assignments.Values, sequence) && act2 == Synchronised(raw2);
    ActivatesUnique(p1.state, raw1, raw2, assignments.Values, sequence);
  }

  // ----- soundness of the first pass -----

  /** Decisions only leave ACTIVE, slots only empty, and nothing else of the state moves. */
  ghost predicate Shrinks(c: Calculus, c': Calculus) {
    && SameDecisions(c, c')
    && c' == c.(decisions := c'.decisions, models := c'.models)
    && (forall s, x :: Slot(c'.models, s, x).Some? ==> Slot(c'.models, s, x) == Slot(c.models, s, x))
    && (forall d :: d in c.decisions ==>
          c'.decisions[d] == c.decisions[d] || (IsActive(c, d) && !IsActive(c', d)))
  }

  /** Which decisions a displacement retires. */
  ghost function Displaced(p: Pass, current: Id, d: Id): set<Id>
    requires current in p.state.decisions
  {
    Descendants(MarkSuperseded(p.state, current, d), current)
  }

  lemma DisplacedDecision(p: Pass, current: Id, d: Id, e: Id)
    requires IsActive(p.state, current) && e in p.state.decisions
    ensures var r, r' := p.state.decisions[e], Displace(p, current, d).state.decisions[e];
      && r' == r.(status := r'.status, supersededBy := r'.supersededBy)
      && (r'.status.Active? <==> r.status.Active? && e !in Displaced(p, current, d))
      && (r' == r || (r.status.Active? && !r'.status.Active?))
      && (e !in Displaced(p, current, d) ==> r' == r)
  {
  }

  lemma DisplaceRetires(p: Pass, current: Id, d: Id)
    requires Slotted(p.state) && IsActive(p.state, current)
    ensures Retires(p.state, Displace(p, current, d).state, Displaced(p, current, d))
    ensures Shrinks(p.state, Displace(p, current, d).state)
  {
    var c, c' := p.state, Displace(p, current, d).state;
    assert Displaced(p, current, d) - {current} + {current} == Displaced(p, current, d);
    assert c'.decisions.Keys == c.decisions.Keys;
    forall e | e in c.decisions ensures var r, r' := c.decisions[e], c'.decisions[e];
      && r' == r.(status := r'.status, supersededBy := r'.supersededBy)
      && (r'.status.Active? <==> r.status.Active? && e !in Displaced(p, current, d))
      && (r' == r || (r.status.Active? && !r'.status.Active?))
    {
      DisplacedDecision(p, current, d, e);
    }
    assert SameDecisions(c, c');
  }

  lemma DisplaceKeepsParents(p: Pass, current: Id, d: Id)
    requires Slotted(p.state) && IsActive(p.state, current) && ParentsActive(p.state)
    ensures ParentsActive(Displace(p, current, d).state)
  {
    var c := p.state;
    var marked := MarkSuperseded(c, current, d);
    var gone := Displaced(p, current, d);
    DisplaceRetires(p, current, d);
    RetiringKeepsParents(c, Displace(p, current, d).state, gone);
    forall e | IsActive(c, e) && e !in gone ensures c.decisions[e].parents !! gone {
      assert forall q :: q in c.decisions[e].parents ==> (q, e) in DependentEdges(marked);
    }
  }

  /** The state after one row, relative to the state before it. */
  ghost predicate PassSound(c: Calculus, c': Calculus) {
    Slotted(c') && Shrinks(c, c') && (ParentsActive(c) ==> ParentsActive(c'))
  }

  lemma DisplaceSound(p: Pass, current: Id, d: Id)
    requires Slotted(p.state) && IsActive(p.state, current)
    ensures PassSound(p.state, Displace(p, current, d).state)
    ensures forall e :: e in p.state.decisions && e !in Descendants(p.state, current) ==>
      Displace(p, current, d).state.decisions[e] == p.state.decisions[e]
  {
    DisplaceRetires(p, current, d);
    RetiringKeepsSlots(p.state, Displace(p, current, d).state, Displaced(p, current, d));
    if ParentsActive(p.state) {
      DisplaceKeepsParents(p, current, d);
    }
    forall e | e in p.state.decisions && e !in Descendants(p.state, current)
      ensures Displace(p, current, d).state.decisions[e] == p.state.decisions[e]
    {
      DisplacedDecision(p, current, d, e);
      DisplacedShrinks(p, current, d);
    }
  }

  lemma DisplacedShrinks(p: Pass, current: Id, d: Id)
    requires current in p.state.decisions
    ensures Displaced(p, current, d) <= Descendants(p.state, current)
  {
    var marked := MarkSuperseded(p.state, current, d);
    assert DependentEdges(marked) <= DependentEdges(p.state);
    ClosureMonotone(DependentEdges(marked), DependentEdges(p.state), {current}, {current});
  }

  ghost predicate Cleared(c: Calculus, d: Id)
    requires d in c.decisions
  {
    var occupant := Slot(c.models, c.decisions[d].scope, c.decisions[d].subject);
    occupant == None || occupant == Some(d)
  }

  /** The occupants that the targets would displace. */
  ghost function Occupants(c: Calculus, targets: set<Id>): set<Id> {
    set d | d in targets && d in c.decisions && OccupantOf(c, d).Some? :: OccupantOf(c, d).value
  }

  function OccupantOf(c: Calculus, d: Id): Option<Id>
    requires d in c.decisions
  {
    var occupant := Slot(c.models, c.decisions[d].scope, c.decisions[d].subject);
    if occupant == Some(d) then None else occupant
  }

  /** Everything that depends on an occupant. */
  ghost function Disturbed(c: Calculus, targets: set<Id>): set<Id> {
    Closure(DependentEdges(c), Occupants(c, targets))
  }

  function Elements(rows: seq<Id>): set<Id> {
    set d | d in rows
  }

  lemma DisturbedShrinks(c: Calculus, c': Calculus, targets: set<Id>, fewer: set<Id>)
    requires fewer <= targets && Shrinks(c, c')
    ensures Disturbed(c', fewer) <= Disturbed(c, targets)
  {
    assert DependentEdges(c') <= DependentEdges(c);
    forall d | d in c.decisions && OccupantOf(c', d).Some? ensures OccupantOf(c, d) == OccupantOf(c', d) {
    }
    forall x | x in Occupants(c', fewer) ensures x in Occupants(c, targets) {
      var d :| d in fewer && d in c'.decisions && OccupantOf(c', d) == Some(x);
      assert OccupantOf(c, d) == Some(x);
    }
    ClosureMonotone(DependentEdges(c'), DependentEdges(c), Occupants(c', fewer), Occupants(c, targets));
  }

  /** Only the given decisions change. */
  ghost predicate Touches(c: Calculus, c': Calculus, touched: set<Id>) {
    c'.decisions.Keys == c.decisions.Keys
    && forall e :: e in c.decisions && e !in touched ==> c'.decisions[e] == c.decisions[e]
  }

  lemma SupersedeRowSound(p: Pass, d: Id, targets: set<Id>)
    requires RowReady(p.state, d) && Slotted(p.state) && SupersedeRow(p, d).Ok? && d in targets
    ensures PassSound(p.state, SupersedeRow(p, d).value.state)
    ensures Cleared(SupersedeRow(p, d).value.state, d)
    ensures Touches(p.state, SupersedeRow(p, d).value.state, Disturbed(p.state, targets))
  {
    var c := p.state;
    var occupant := Slot(c.models, c.decisions[d].scope, c.decisions[d].subject);
    if occupant.Some? && occupant.value != d {
      var current := occupant.value;
      assert IsActive(c, current);
      DisplaceSound(p, current, d);
      assert OccupantOf(c, d) == Some(current);
      ClosureMonotone(DependentEdges(c), DependentEdges(c), {current}, Occupants(c, targets));
    }
  }

  lemma ShrinksTransitive(a: Calculus, b: Calculus, c: Calculus)
    requires Shrinks(a, b) && Shrinks(b, c)
    ensures Shrinks(a, c)
  {
  }

  lemma StaysCleared(c: Calculus, c': Calculus, d: Id)
    requires Shrinks(c, c') && d in c.decisions && Cleared(c, d)
    ensures Cleared(c', d)
  {
  }

  lemma SupersedeAllStep(p: Pass, rows: seq<Id>) returns (next: Pass)
    requires forall d :: d in rows ==> RowReady(p.state, d)
    requires rows != [] && SupersedeAll(p, rows).Ok?
    ensures SupersedeRow(p, rows[0]) == Ok(next)
    ensures forall d :: d in rows[1..] ==> RowReady(next.state, d)
    ensures SupersedeAll(p, rows) == SupersedeAll(next, rows[1..])
    ensures forall d :: d in rows <==> d == rows[0] || d in rows[1..]
  {
    assert rows == [rows[0]] + rows[1..];
    next := SupersedeRow(p, rows[0]).value;
    forall d | d in rows[1..] ensures RowReady(next.state, d) {
      SupersedeRowKeepsReady(p, rows[0], d);
    }
  }

  lemma {:induction false} SupersedeAllSound(p: Pass, rows: seq<Id>)
    requires forall d :: d in rows ==> RowReady(p.state, d)
    requires Slotted(p.state) && SupersedeAll(p, rows).Ok?
    ensures PassSound(p.state, SupersedeAll(p, rows).value.state)
    ensures forall d :: d in rows ==> Cleared(SupersedeAll(p, rows).value.state, d)
    ensures Touches(p.state, SupersedeAll(p, rows).value.state, Disturbed(p.state, Elements(rows)))
    decreases |rows|
  {
    if rows != [] {
      var next := SupersedeAllStep(p, rows);
      SupersedeRowSound(p, rows[0], Elements(rows));
      SupersedeAllSound(next, rows[1..]);
      var q := SupersedeAll(next, rows[1..]).value;
      DisturbedShrinks(p.state, next.state, Elements(rows), Elements(rows[1..]));
      ShrinksTransitive(p.state, next.state, q.state);
      StaysCleared(next.state, q.state, rows[0]);
    }
  }

  // ----- soundness of the second pass -----

  /** The check after the activation loop can never reject: the loop's own check exempts the
      targets, and by then every target is ACTIVE. */
  lemma SecondParentCheckRedundant(c: Calculus, c': Calculus, targets: set<Id>, sequence: nat)
    requires targets <= c.decisions.Keys && AllReady(c, targets) && Activates(c, c', targets, sequence)
    ensures forall d, p :: d in targets && p in c'.decisions[d].parents ==> IsActive(c', p)
  {
    forall d, p | d in targets && p in c'.decisions[d].parents ensures IsActive(c', p) {
      assert ParentsReady(c, d, targets);
    }
  }

  lemma ActivationSlotsSound(c: Calculus, c': Calculus, targets: set<Id>, sequence: nat)
    requires SlotsSound(c) && targets <= c.decisions.Keys && Activates(c, c', targets, sequence)
    ensures SlotsSound(c')
  {
    forall s, x | s in c'.models && x in c'.models[s]
      ensures IsActive(c', c'.models[s][x]) && Owns(c', c'.models[s][x], s, x)
    {
      assert Slot(c'.models, s, x) == Some(c'.models[s][x]);
      if Slot(c'.models, s, x) == Slot(c.models, s, x) {
        assert s in c.models && x in c.models[s];
      }
    }
  }

  lemma ActivationSlotsComplete(c: Calculus, c': Calculus, targets: set<Id>, sequence: nat)
    requires SlotsComplete(c) && targets <= c.decisions.Keys && Activates(c, c', targets, sequence)
    requires forall d :: d in targets ==> Cleared(c, d)
    ensures SlotsComplete(c')
  {
    forall d | IsActive(c', d)
      ensures Slot(c'.models, c'.decisions[d].scope, c'.decisions[d].subject) == Some(d)
    {
      var s, x := c.decisions[d].scope, c.decisions[d].subject;
      if d !in targets {
        assert IsActive(c, d) && Slot(c.models, s, x) == Some(d);
      }
    }
  }

  lemma ActivationKeys(c: Calculus, c': Calculus, targets: set<Id>, sequence: nat)
    requires c.models.Keys == c.scopes.Keys && targets <= c.decisions.Keys && Activates(c, c', targets, sequence)
    requires forall d :: d in targets ==> c.decisions[d].scope in c.scopes
    ensures c'.models.Keys == c'.scopes.Keys && c'.scopes == c.scopes && c'.edges == c.edges
  {
  }

  lemma ActivationParents(c: Calculus, c': Calculus, targets: set<Id>, sequence: nat)
    requires targets <= c.decisions.Keys && Activates(c, c', targets, sequence)
    requires ParentsActive(c) && AllReady(c, targets)
    ensures ParentsActive(c')
  {
    hide SlotsFilled;
    SecondParentCheckRedundant(c, c', targets, sequence);
    forall d, p | IsActive(c', d) && p in c'.decisions[d].parents ensures IsActive(c', p) {
      if d !in targets {
        assert IsActive(c, d) && IsActive(c, p);
      }
    }
  }

  lemma ActivationSound(c: Calculus, c': Calculus, targets: set<Id>, sequence: nat)
    requires Slotted(c) && targets <= c.decisions.Keys && Activates(c, c', targets, sequence)
    requires forall d :: d in targets ==> Cleared(c, d) && c.decisions[d].scope in c.scopes
    ensures Slotted(c')
    ensures ParentsActive(c) && AllReady(c, targets) ==> ParentsActive(c')
  {
    hide SlotsSound, SlotsComplete, ParentsActive, AllReady, Registered, Activates, Cleared;
    ActivationSlotsSound(c, c', targets, sequence);
    ActivationSlotsComplete(c, c', targets, sequence);
    ActivationKeys(c, c', targets, sequence);
    ActivatesSameDecisions(c, c', targets, sequence);
    SameRegistered(c, c');
    if ParentsActive(c) && AllReady(c, targets) {
      ActivationParents(c, c', targets, sequence);
    }
  }

  // ----- the theorems about a staged candidate -----

  lemma FinishedSound(act: Calculus)
    ensures Indexed(Finished(act)) == Indexed(act) && ParentsActive(Finished(act)) == ParentsActive(act)
    ensures forall d :: IsActive(Finished(act), d) == IsActive(act, d)
    ensures Violated(Finished(act)) == Violated(act)
    ensures LocksSound(Finished(act)) && LockedIsHeld(Finished(act))
    ensures Finished(act) == act.(epoch := act.epoch + 1, locks := Finished(act).locks,
      obligations := Finished(act).obligations, fairness := Finished(act).fairness)
  {
    hide Settled, SlotsSound, SlotsComplete, Registered, ParentsActive, Violated, LocksSound, LockedIsHeld;
    SettledFrame(NextEpoch(act));
    SettledKeepsIndexes(NextEpoch(act));
    SettledLocks(NextEpoch(act));
    SameIndexes(act, NextEpoch(act));
    ViolationFrame(act, NextEpoch(act));
  }

  lemma AuditKeepsSlots(c: Calculus)
    requires Slotted(c)
    ensures Slotted(Audited(c)) && (ParentsActive(c) ==> ParentsActive(Audited(c)))
  {
  }

  lemma SynchronisedSound(raw: Calculus)
    requires Slotted(raw)
    ensures Indexed(Synchronised(raw)) && (ParentsActive(raw) ==> ParentsActive(Synchronised(raw)))
  {
  }

  /** The state after the first pass. */
  lemma FirstPassSound(c: Calculus, assignments: Assignments, rows: seq<Id>, p: Pass)
    requires Slotted(c) && FirstPass(Audited(c), assignments, rows, p)
    ensures Slotted(p.state) && (ParentsActive(c) ==> ParentsActive(p.state))
    ensures forall d :: d in assignments.Values ==>
      d in p.state.decisions && Cleared(p.state, d) && p.state.decisions[d].scope in p.state.scopes
    ensures Touches(c, p.state, Disturbed(c, assignments.Values))
  {
    var start := Audited(c);
    RowsReady(start, assignments, rows);
    AuditKeepsSlots(c);
    SupersedeAllSound(Pass(start, {}, {}), rows);
    FirstPassTargets(start, assignments, rows, p);
    DisturbedFrame(c, assignments.Values);
  }

  lemma FirstPassTargets(start: Calculus, assignments: Assignments, rows: seq<Id>, p: Pass)
    requires FirstPass(start, assignments, rows, p)
    ensures forall d :: d in assignments.Values ==> d in rows
    ensures forall d :: d in rows ==> d in p.state.decisions && p.state.decisions[d].scope in p.state.scopes
    ensures PassFrame(start, p.state)
  {
    RowsCover(assignments, rows);
    SupersedeAllFrame(Pass(start, {}, {}), rows);
    assert forall d :: d in rows ==> RowReady(start, d);
  }

  lemma StagePathSound(c: Calculus, assignments: Assignments, sequence: nat, rows: seq<Id>, p: Pass, act: Calculus)
    requires Slotted(c) && StagePath(c, assignments, sequence, rows, p, act)
    ensures Indexed(act) && (ParentsActive(c) ==> ParentsActive(act))
    ensures forall d :: d in assignments.Values ==> IsActive(act, d)
    ensures Touches(c, act, assignments.Values + Disturbed(c, assignments.Values))
  {
    FirstPassSound(c, assignments, rows, p);
    var raw :| Activates(p.state, raw, assignments.Values, sequence) && act == Synchronised(raw);
    SecondPassSound(p.state, raw, assignments.Values, sequence);
    assert Touches(p.state, act, assignments.Values);
  }

  lemma SecondPassSound(c: Calculus, raw: Calculus, targets: set<Id>, sequence: nat)
    requires Slotted(c) && targets <= c.decisions.Keys && AllReady(c, targets) && Activates(c, raw, targets, sequence)
    requires forall d :: d in targets ==> Cleared(c, d) && c.decisions[d].scope in c.scopes
    ensures Indexed(Synchronised(raw)) && (ParentsActive(c) ==> ParentsActive(Synchronised(raw)))
    ensures forall d :: d in targets ==> IsActive(Synchronised(raw), d)
    ensures Touches(c, Synchronised(raw), targets)
  {
    ActivationSound(c, raw, targets, sequence);
    SynchronisedSound(raw);
  }

  lemma DisturbedFrame(c: Calculus, targets: set<Id>)
    ensures Disturbed(Audited(c), targets) == Disturbed(c, targets)
  {
    assert DependentEdges(Audited(c)) == DependentEdges(c);
    assert forall d :: d in c.decisions ==> OccupantOf(Audited(c), d) == OccupantOf(c, d);
    assert Occupants(Audited(c), targets) == Occupants(c, targets);
  }

  /** A staged candidate keeps the slot index in both directions, the root mirror and the ACTIVE
      parents, through any interleaving of supersession, suspension and re-activation. */
  lemma StageKeepsIndexes(c: Calculus, assignments: Assignments, sequence: nat, c': Calculus)
    requires Indexed(c) && Stages(c, assignments, sequence, c')
    ensures Indexed(c') && (ParentsActive(c) ==> ParentsActive(c'))
  {
    var rows, p, act :|
      StagePath(c, assignments, sequence, rows, p, act) && Accepted(c, act) && c' == Finished(act);
    StagePathSound(c, assignments, sequence, rows, p, act);
    FinishedSound(act);
  }

  /** No decision changes its scope, subject, value, kind, pin or parents. */
  lemma StageSameDecisions(c: Calculus, assignments: Assignments, sequence: nat, c': Calculus)
    requires Indexed(c) && Stages(c, assignments, sequence, c')
    ensures SameDecisions(c, c')
  {
    hide StagePath, Accepted, Settled, SameDecisions;
    var rows, p, act :|
      StagePath(c, assignments, sequence, rows, p, act) && Accepted(c, act) && c' == Finished(act);
    SettledFrame(NextEpoch(act));
    StagePathSameDecisions(c, assignments, sequence, rows, p, act);
    SameByDecisions(c, act, c');
  }

  lemma StagePathSameDecisions(c: Calculus, assignments: Assignments, sequence: nat, rows: seq<Id>, p: Pass, act: Calculus)
    requires Slotted(c) && StagePath(c, assignments, sequence, rows, p, act)
    ensures SameDecisions(c, act)
  {
    hide SameDecisions, Activates, Slotted, AllReady, FirstPass;
    AuditKeepsSlots(c);
    FirstPassSame(Audited(c), assignments, rows, p);
    SameSource(c, Audited(c), p.state);
    var raw :| Activates(p.state, raw, assignments.Values, sequence) && act == Synchronised(raw);
    ActivatesSameDecisions(p.state, raw, assignments.Values, sequence);
    SameDecisionsChain(c, p.state, raw);
    SameByDecisions(c, raw, act);
  }

  lemma FirstPassSame(start: Calculus, assignments: Assignments, rows: seq<Id>, p: Pass)
    requires Slotted(start) && FirstPass(start, assignments, rows, p)
    ensures SameDecisions(start, p.state)
  {
    hide SameDecisions, AllAdmissible, IsRows;
    SupersedeAllSound(Pass(start, {}, {}), rows);
  }

  lemma ActivatesSameDecisions(c: Calculus, c': Calculus, targets: set<Id>, sequence: nat)
    requires targets <= c.decisions.Keys && Activates(c, c', targets, sequence)
    ensures SameDecisions(c, c')
  {
  }

  lemma SameRegistered(c: Calculus, c': Calculus)
    requires Registered(c) && SameDecisions(c, c') && c'.edges == c.edges
    ensures Registered(c')
  {
  }

  lemma SameByDecisions(c: Calculus, a: Calculus, b: Calculus)
    requires SameDecisions(c, a) && b.decisions == a.decisions
    ensures SameDecisions(c, b)
  {
  }

  lemma SameSource(c: Calculus, a: Calculus, b: Calculus)
    requires a.decisions == c.decisions && SameDecisions(a, b)
    ensures SameDecisions(c, b)
  {
  }

  lemma SameDecisionsChain(a: Calculus, b: Calculus, c: Calculus)
    requires SameDecisions(a, b) && SameDecisions(b, c)
    ensures SameDecisions(a, c)
  {
  }

  /** It enforces all it was given: every target is ACTIVE, no hard constraint is violated in its
      scope, every ACTIVE lock holds, and the knowledge base is untouched. */
  lemma StageEnforces(c: Calculus, assignments: Assignments, sequence: nat, c': Calculus)
    requires Indexed(c) && Stages(c, assignments, sequence, c')
    ensures forall d :: d in assignments.Values ==> IsActive(c', d)
    ensures Violated(c') == {} && LocksSound(c') && LockedIsHeld(c')
    ensures c'.constraints == c.constraints && c'.conflicts == c.conflicts
    ensures c'.explanations == c.explanations && c'.scopes == c.scopes && c'.epoch == c.epoch + 1
  {
    var rows, p, act :|
      StagePath(c, assignments, sequence, rows, p, act) && Accepted(c, act) && c' == Finished(act);
    StagePathSound(c, assignments, sequence, rows, p, act);
    StagePathFrame(c, assignments, sequence, rows, p, act);
    FinishedSound(act);
  }

  /** It is local: a decision that is not a target and depends on no displaced occupant keeps its
      whole record. */
  lemma StageIsLocal(c: Calculus, assignments: Assignments, sequence: nat, c': Calculus, d: Id)
    requires Indexed(c) && Stages(c, assignments, sequence, c')
    requires d in c.decisions && d !in assignments.Values && d !in Disturbed(c, assignments.Values)
    ensures d in c'.decisions && c'.decisions[d] == c.decisions[d]
  {
    var rows, p, act :|
      StagePath(c, assignments, sequence, rows, p, act) && Accepted(c, act) && c' == Finished(act);
    StagePathSound(c, assignments, sequence, rows, p, act);
    FinishedSound(act);
  }

  /** The passes touch decisions and models only. */
  lemma StagePathFrame(c: Calculus, assignments: Assignments, sequence: nat, rows: seq<Id>, p: Pass, act: Calculus)
    requires StagePath(c, assignments, sequence, rows, p, act)
    ensures act == Audited(c).(decisions := act.decisions, models := act.models, activeModel := act.activeModel)
  {
    SupersedeAllFrame(Pass(Audited(c), {}, {}), rows);
  }

  /** What the first pass leaves alone, whatever the state it starts from. */
  ghost predicate PassFrame(c: Calculus, c': Calculus) {
    && c' == c.(decisions := c'.decisions, models := c'.models)
    && c'.decisions.Keys == c.decisions.Keys
    && forall d :: d in c.decisions ==> SameSlot(c'.decisions[d], c.decisions[d])
  }

  lemma {:induction false} SupersedeAllFrame(p: Pass, rows: seq<Id>)
    requires forall d :: d in rows ==> RowReady(p.state, d)
    requires SupersedeAll(p, rows).Ok?
    ensures PassFrame(p.state, SupersedeAll(p, rows).value.state)
    decreases |rows|
  {
    if rows != [] {
      var next := SupersedeAllStep(p, rows);
      SupersedeAllFrame(next, rows[1..]);
    }
  }

  // ----- the activation method -----

  datatype StageReport = StageReport(
    broken: set<Id>, suspended: set<Id>, superseded: set<Id>, due: set<Id>, overdue: set<Id>)

  /** Whether some target still has an inactive parent after the activation loop. */
  method ParentsLeftInactive(c: Calculus, targets: set<Id>) returns (b: bool)
    requires targets <= c.decisions.Keys
    ensures b <==> exists d, p :: d in targets && p in c.decisions[d].parents && !IsActive(c, p)
  {
    var rest := targets;
    while rest != {}
      invariant rest <= targets
      invariant forall d, p :: d in targets && d !in rest && p in c.decisions[d].parents ==> IsActive(c, p)
      decreases rest
    {
      var d :| d in rest;
      rest := rest - {d};
      if exists p :: p in c.decisions[d].parents && !IsActive(c, p) {
        return true;
      }
    }
    return false;
  }

  lemma RowsReady(start: Calculus, assignments: Assignments, rows: seq<Id>)
    requires AllAdmissible(start, assignments) && IsRows(assignments, rows)
    ensures forall d :: d in rows ==> RowReady(start, d)
    ensures Elements(rows) == assignments.Values && DistinctSlots(start, assignments.Values)
  {
    RowsCover(assignments, rows);
    AdmissibleAreDistinct(start, assignments);
    forall d | d in rows ensures RowReady(start, d) {
      var key :| key in assignments && assignments[key] == d;
      assert Admissible(start, key, d);
    }
  }

  method RunFirstPass(start: Calculus, assignments: Assignments) returns (r: Result<Pass>, ghost rows: seq<Id>)
    ensures r.Ok? ==> FirstPass(start, assignments, rows, r.value) && DistinctSlots(r.value.state, assignments.Values)
    ensures r.Err? ==> forall rows, p :: !FirstPass(start, assignments, rows, p)
  {
    rows := [];
    var admitted := AdmitTargets(start, assignments);
    if admitted.Err? {
      return Err(admitted.error), rows;
    }
    rows := admitted.value;
    RowsReady(start, assignments, rows);
    r := SupersedeOccupants(Pass(start, {}, {}), admitted.value);
    forall other | IsRows(assignments, other) ensures other == rows {
      RowsUnique(assignments, other, rows);
    }
    if r.Ok? {
      SupersedeAllFrame(Pass(start, {}, {}), rows);
    }
  }

  method RunSecondPass(p: Pass, targets: set<Id>, sequence: nat) returns (r: Result<Calculus>)
    requires DistinctSlots(p.state, targets)
    ensures r.Ok? <==> AllReady(p.state, targets)
    ensures r.Ok? ==> exists raw :: Activates(p.state, raw, targets, sequence) && r.value == Synchronised(raw)
  {
    var raw :- ActivateTargets(p.state, targets, sequence);
    SecondParentCheckRedundant(p.state, raw, targets, sequence);
    var left := ParentsLeftInactive(raw, targets);
    assert !left;  // the source raises here when some parent is inactive, which never happens
    return Ok(Synchronised(raw));
  }

  /** Both passes over the audited calculus. */
  method RunPasses(c: Calculus, assignments: Assignments, sequence: nat)
    returns (r: Result<(Pass, Calculus)>, overdue: set<Id>)
    ensures r.Ok? ==> exists rows :: StagePath(c, assignments, sequence, rows, r.value.0, r.value.1)
    ensures r.Err? ==> forall rows, p, act :: !StagePath(c, assignments, sequence, rows, p, act)
    ensures overdue == Reported(c, Overdue)
  {
    var start, due;
    start, due, overdue := AuditFairness(c);
    var first; ghost var rows;
    first, rows := RunFirstPass(start, assignments);
    if first.Err? {
      r := Err(first.error);
      forall rows, p, act ensures !StagePath(c, assignments, sequence, rows, p, act) {
        assert !FirstPass(start, assignments, rows, p);
      }
      return;
    }
    var p := first.value;
    var second := RunSecondPass(p, assignments.Values, sequence);
    if second.Err? {
      r := Err(second.error);
      forall others, q, act ensures !StagePath(c, assignments, sequence, others, q, act) {
        SameFirstPass(start, assignments, rows, p, others, q);
      }
      return;
    }
    assert StagePath(c, assignments, sequence, rows, p, second.value);
    r := Ok((p, second.value));
  }

  lemma SameFirstPass(start: Calculus, assignments: Assignments, rows: seq<Id>, p: Pass, others: seq<Id>, q: Pass)
    requires FirstPass(start, assignments, rows, p)
    ensures FirstPass(start, assignments, others, q) ==> p == q
  {
    if FirstPass(start, assignments, others, q) {
      RowsUnique(assignments, rows, others);
    }
  }

  /** The two final checks on the candidate model. */
  method CheckAccepted(c: Calculus, act: Calculus, overdue: set<Id>) returns (r: Result<()>)
    requires act.scopes == c.scopes && act.policy == c.policy && overdue == Reported(c, Overdue)
    ensures r.Ok? <==> Accepted(c, act)
  {
    var violations := ViolatedHardConstraints(act);
    if violations != {} {
      return Err(ValueError("candidate model violates learned hard constraints"));
    }
    if overdue != {} && act.policy.enforcement.BlockPlanning? {
      var exposed := CheckGate(act, PreviousValues(c));
      if !exposed {
        return Err(ValueError("fairness blocks model selection"));
      }
    }
    return Ok(());
  }

  lemma OnlyOnePath(c: Calculus, assignments: Assignments, sequence: nat, rows: seq<Id>, p: Pass, act: Calculus)
    requires StagePath(c, assignments, sequence, rows, p, act)
    ensures forall c' :: Stages(c, assignments, sequence, c') ==> Accepted(c, act) && c' == Finished(act)
  {
    forall c' | Stages(c, assignments, sequence, c') ensures Accepted(c, act) && c' == Finished(act) {
      var others, q, other :|
        StagePath(c, assignments, sequence, others, q, other) && Accepted(c, other) && c' == Finished(other);
      PathUnique(c, assignments, sequence, rows, p, act, others, q, other);
    }
  }

  /** `_stage_candidate_activation`. A rejection leaves nothing behind: the caller's state is a
      value, and an error carries no state. */
  method StageCandidateActivation(c: Calculus, assignments: Assignments, sequence: nat)
    returns (r: Result<(Calculus, StageReport)>)
    ensures r.Ok? ==> Stages(c, assignments, sequence, r.value.0)
    ensures r.Err? ==> forall c' :: !Stages(c, assignments, sequence, c')
  {
    var passes, overdue := RunPasses(c, assignments, sequence);
    if passes.Err? {
      return Err(passes.error);
    }
    var (p, act) := passes.value;
    ghost var rows :| StagePath(c, assignments, sequence, rows, p, act);
    StagePathFrame(c, assignments, sequence, rows, p, act);
    OnlyOnePath(c, assignments, sequence, rows, p, act);
    var accepted := CheckAccepted(c, act, overdue);
    if accepted.Err? {
      return Err(accepted.error);
    }
    var out, broken, due, late := Settle(NextEpoch(act));
    return Ok((out, StageReport(broken, p.suspended - assignments.Values, p.superseded, due, late)));
  }
}
