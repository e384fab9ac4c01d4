/** What the steps that change the model leave on record: each decision, obligation, lock and scope before
    and after. */
module Outcomes {
  import opened Foundations
  import opened CalculusModel
  import opened Reachability
  import opened Scopes
  import opened Conditions
  import opened Knowledge
  import opened DecisionGraph
  import opened Backjump
  import opened Locks
  import opened Fairness
  import opened Staging
  import opened PassOrder
  import opened Restart
  import opened ScopeImpact
  import opened Recovery
  import opened Activation
  import opened Commits
  import opened Engine
  import opened TruthMaintenance

  // ----- who may be selected -----

  /** A candidate may take a decision exactly under the scoped key of its own subject, when it is PROPOSED,
      SUSPENDED or ACTIVE, in an ACTIVE scope, and every constraint it presupposes is ACTIVE or SOFT. */
  lemma AdmissibleExactly(c: Calculus, key: Id, d: Id)
    ensures Admissible(c, key, d) <==>
      && d in c.decisions && key == ScopedKey(c.decisions[d].scope, c.decisions[d].subject)
      && c.decisions[d].scope in c.scopes && c.scopes[c.decisions[d].scope].status == ActiveScope
      && c.decisions[d].status in {Proposed, Suspended, Active}
      && forall k :: k in c.decisions[d].antecedents ==>
           k in c.constraints && c.constraints[k].status in {ActiveConstraint, SoftConstraint}
  {
  }

  /** Superseded, invalidated, rejected and historical decisions may not. */
  lemma SelectableExactly(s: DecisionStatus)
    ensures Selectable(s) <==> s !in {Superseded, Invalidated, Rejected, Historical}
  {
  }

  // ----- displaced decisions -----

  /** `t` is to take the slot that `d` holds. */
  predicate Rivals(c: Calculus, d: Id, t: Id) {
    d in c.decisions && t in c.decisions && t != d
    && c.decisions[t].scope == c.decisions[d].scope && c.decisions[t].subject == c.decisions[d].subject
  }

  /** `e` was superseded by a target for its own slot. */
  ghost predicate Supplanted(c: Calculus, c': Calculus, targets: set<Id>, e: Id)
    requires e in c.decisions && e in c'.decisions
  {
    exists t :: t in targets && Rivals(c, e, t)
      && c'.decisions[e] == c.decisions[e].(status := Superseded, supersededBy := Some(t))
  }

  /** `e` was suspended because it depends on a superseded decision, and is otherwise as it was. */
  ghost predicate Dragged(c: Calculus, c': Calculus, e: Id)
    requires e in c.decisions && e in c'.decisions
  {
    c'.decisions[e] == c.decisions[e].(status := Suspended)
    && exists o :: o in c.decisions && o in c'.decisions && o != e && e in Descendants(c, o)
         && c.decisions[o].status == Active && c'.decisions[o].status == Superseded
  }

  /** Every decision is as it was, or was ACTIVE and is superseded or dragged along. */
  ghost predicate Displaces(c: Calculus, c': Calculus, targets: set<Id>) {
    c'.decisions.Keys == c.decisions.Keys
    && forall e :: e in c.decisions ==>
      || c'.decisions[e] == c.decisions[e]
      || (c.decisions[e].status == Active && (Supplanted(c, c', targets, e) || Dragged(c, c', e)))
  }

  /** One displacement, decision by decision. */
  lemma DisplaceRecords(p: Pass, current: Id, d: Id, e: Id)
    requires Slotted(p.state) && IsActive(p.state, current) && e in p.state.decisions
    ensures var c, c' := p.state, Displace(p, current, d).state;
      && c'.decisions.Keys == c.decisions.Keys
      && c'.decisions[e] ==
           if e == current then c.decisions[e].(status := Superseded, supersededBy := Some(d))
           else if c.decisions[e].status == Active && e in Descendants(c, current) then c.decisions[e].(status := Suspended)
           else c.decisions[e]
  {
    DisplacedExactly(p.state, current, d);
  }

  /** Marking the occupant first does not change what depends on it. */
  lemma DisplacedExactly(c: Calculus, o: Id, d: Id)
    requires Slotted(c) && IsActive(c, o)
    ensures Descendants(MarkSuperseded(c, o, d), o) == Descendants(c, o)
  {
    hide MarkSuperseded;
    NothingFallen(c);
    FallenGrows(c, {}, Pass(c, {}, {}), o, d);
    assert {} + {o} == {o};
  }

  lemma DisplacementDisplaces(c: Calculus, p: Pass, current: Id, d: Id, targets: set<Id>)
    requires Slotted(p.state) && Shrinks(c, p.state) && Displaces(c, p.state, targets)
    requires IsActive(p.state, current) && d in targets && Rivals(c, current, d)
    ensures Displaces(c, Displace(p, current, d).state, targets)
  {
    hide Displace, Descendants, Rivals;
    var c' := Displace(p, current, d).state;
    DisplaceRetires(p, current, d);
    assert current in c.decisions && IsActive(c, current) by { ShrinksActive(c, p.state, current); }
    DisplaceRecords(p, current, d, current);
    assert c'.decisions[current].status == Superseded;
    forall e | e in c.decisions
      ensures c'.decisions[e] == c.decisions[e]
        || (c.decisions[e].status == Active && (Supplanted(c, c', targets, e) || Dragged(c, c', e)))
    {
      DisplaceRecords(p, current, d, e);
      if e == current {
        assert Supplanted(c, c', targets, e) by { ActiveUnchanged(c, p.state, targets, e); }
      } else if c'.decisions[e] != p.state.decisions[e] {
        ActiveUnchanged(c, p.state, targets, e);
        FewerDependents(c, p.state, current);
      } else if c'.decisions[e] != c.decisions[e] {
        StillDisplaced(c, p.state, c', targets, e);
      }
    }
  }

  lemma ShrinksActive(c: Calculus, c': Calculus, d: Id)
    requires Shrinks(c, c') && IsActive(c', d)
    ensures IsActive(c, d)
  {
  }

  lemma ActiveUnchanged(c: Calculus, c': Calculus, targets: set<Id>, e: Id)
    requires Displaces(c, c', targets) && e in c.decisions && c'.decisions[e].status == Active
    ensures c'.decisions[e] == c.decisions[e]
  {
  }

  lemma FewerDependents(c: Calculus, c': Calculus, current: Id)
    requires Shrinks(c, c')
    ensures Descendants(c', current) <= Descendants(c, current)
  {
    assert DependentEdges(c') <= DependentEdges(c);
    ClosureMonotone(DependentEdges(c'), DependentEdges(c), {current}, {current});
  }

  /** What was displaced before stays displaced. */
  lemma StillDisplaced(c: Calculus, mid: Calculus, c': Calculus, targets: set<Id>, e: Id)
    requires Displaces(c, mid, targets) && Shrinks(mid, c') && e in c.decisions
    requires c'.decisions[e] == mid.decisions[e] != c.decisions[e]
    ensures e in c'.decisions && c.decisions[e].status == Active && (Supplanted(c, c', targets, e) || Dragged(c, c', e))
  {
    hide Descendants;
    if Dragged(c, mid, e) {
      var o :| o in c.decisions && o in mid.decisions && o != e && e in Descendants(c, o)
        && c.decisions[o].status == Active && mid.decisions[o].status == Superseded;
      assert c'.decisions[o] == mid.decisions[o];
    }
  }

  lemma RowDisplaces(c: Calculus, p: Pass, d: Id, targets: set<Id>)
    requires RowReady(p.state, d) && d in targets && SupersedeRow(p, d).Ok?
    requires Slotted(p.state) && Shrinks(c, p.state) && Displaces(c, p.state, targets)
    ensures Displaces(c, SupersedeRow(p, d).value.state, targets)
  {
    hide Displaces, Displace;
    var occupant := Slot(p.state.models, p.state.decisions[d].scope, p.state.decisions[d].subject);
    if occupant.Some? && occupant.value != d {
      assert IsActive(p.state, occupant.value);
      DisplacementDisplaces(c, p, occupant.value, d, targets);
    }
  }

  function SupersededSince(c: Calculus, c': Calculus): set<Id> {
    set o | o in c.decisions && o in c'.decisions && c.decisions[o].status == Active && c'.decisions[o].status == Superseded
  }

  /** The first pass fells exactly what depends on what it supersedes. */
  ghost predicate Fells(c: Calculus, targets: set<Id>, p: Pass) {
    Slotted(p.state) && Shrinks(c, p.state) && Displaces(c, p.state, targets) && Reached(c, SupersededSince(c, p.state), p)
  }

  lemma DisplacementFells(c: Calculus, p: Pass, current: Id, d: Id, targets: set<Id>)
    requires Slotted(c) && Fells(c, targets, p)
    requires IsActive(p.state, current) && d in targets && Rivals(c, current, d)
    ensures Reached(c, SupersededSince(c, Displace(p, current, d).state), Displace(p, current, d))
  {
    hide Displace, Descendants, Rivals, Slotted, Reached, Displaces;
    var q := Displace(p, current, d);
    DisplacementReaches(c, SupersededSince(c, p.state), p, current, d);
    assert SupersededSince(c, q.state) == SupersededSince(c, p.state) + {current} by {
      assert IsActive(c, current);
      forall e | e in c.decisions
        ensures e in SupersededSince(c, q.state) <==> e in SupersededSince(c, p.state) || e == current
      {
        DisplaceRecords(p, current, d, e);
      }
      assert current in SupersededSince(c, q.state);
    }
  }

  lemma RowFells(c: Calculus, p: Pass, d: Id, targets: set<Id>)
    requires Slotted(c) && Fells(c, targets, p)
    requires RowReady(p.state, d) && d in targets && SupersedeRow(p, d).Ok?
    ensures Fells(c, targets, SupersedeRow(p, d).value)
  {
    hide Displaces, Displace, Reached, SupersededSince, Shrinks;
    RowDisplaces(c, p, d, targets);
    RowShrinks(c, p, d, targets);
    var occupant := Slot(p.state.models, p.state.decisions[d].scope, p.state.decisions[d].subject);
    if occupant.Some? && occupant.value != d {
      OccupantRivals(c, p, occupant.value, d);
      DisplacementFells(c, p, occupant.value, d, targets);
    }
  }

  lemma OccupantRivals(c: Calculus, p: Pass, o: Id, d: Id)
    requires Slotted(p.state) && Shrinks(c, p.state) && RowReady(p.state, d) && o != d
    requires Slot(p.state.models, p.state.decisions[d].scope, p.state.decisions[d].subject) == Some(o)
    ensures IsActive(p.state, o) && Rivals(c, o, d)
  {
  }

  lemma RowShrinks(c: Calculus, p: Pass, d: Id, targets: set<Id>)
    requires RowReady(p.state, d) && d in targets && SupersedeRow(p, d).Ok?
    requires Slotted(p.state) && Shrinks(c, p.state)
    ensures var q := SupersedeRow(p, d).value.state;
      Slotted(q) && Shrinks(c, q)
  {
    hide Slotted, Shrinks, SupersedeRow;
    SupersedeRowSound(p, d, targets);
    ShrinksTransitive(c, p.state, SupersedeRow(p, d).value.state);
  }

  /** Of the ACTIVE decisions exactly those that depend on `tops` are no longer ACTIVE. */
  ghost predicate Felled(c: Calculus, c': Calculus, tops: set<Id>) {
    forall e :: IsActive(c, e) ==> (IsActive(c', e) <==> e !in Closure(DependentEdges(c), tops))
  }

  lemma ReachedFells(c: Calculus, tops: set<Id>, p: Pass)
    requires Reached(c, tops, p)
    ensures Felled(c, p.state, tops)
  {
  }

  lemma {:induction false} FirstPassFells(c: Calculus, p: Pass, rows: seq<Id>, targets: set<Id>)
    requires forall d :: d in rows ==> RowReady(p.state, d) && d in targets
    requires Slotted(c) && Fells(c, targets, p) && SupersedeAll(p, rows).Ok?
    ensures Fells(c, targets, SupersedeAll(p, rows).value)
    decreases |rows|
  {
    hide Slotted, Fells, SupersedeRow;
    if rows != [] {
      var next := SupersedeAllStep(p, rows);
      RowFells(c, p, rows[0], targets);
      FirstPassFells(c, next, rows[1..], targets);
    }
  }

  lemma NothingDisplaced(c: Calculus, targets: set<Id>)
    requires Slotted(c)
    ensures Fells(c, targets, Pass(c, {}, {}))
  {
    NothingFallen(c);
    assert SupersededSince(c, c) == {};
  }

  /** What a staged candidate leaves on record. A target is ACTIVE as of this step. Of the other decisions
      exactly some ACTIVE ones change: one is SUPERSEDED by the target for its own slot, and not selectable
      again; or it depends on such a one and is SUSPENDED, selectable again and otherwise as it was. */
  lemma StageRecords(c: Calculus, assignments: Assignments, at: nat, c': Calculus, e: Id)
    requires Indexed(c) && Stages(c, assignments, at, c') && e in c.decisions
    ensures e in c'.decisions
    ensures e in assignments.Values ==> c'.decisions[e] == c.decisions[e].(status := Active, activatedAt := Some(at))
    ensures e !in assignments.Values && !IsActive(c, e) ==> c'.decisions[e] == c.decisions[e]
    ensures e !in assignments.Values && IsActive(c, e) ==>
      || c'.decisions[e] == c.decisions[e]
      || (Supplanted(c, c', assignments.Values, e) && !Selectable(c'.decisions[e].status))
      || (Dragged(c, c', e) && Selectable(c'.decisions[e].status))
    ensures e !in assignments.Values && IsActive(c, e) ==>
      (IsActive(c', e) <==> e !in Closure(DependentEdges(c), SupersededSince(c, c')))
  {
    hide StagePath, Accepted, Settled, Displaces, Indexed, Descendants, SupersededSince, Felled;
    var rows, p, act :| StagePath(c, assignments, at, rows, p, act) && Accepted(c, act) && c' == Finished(act);
    SettledFrame(NextEpoch(act));
    PathRecords(c, assignments, at, rows, p, act);
    assert c'.decisions == act.decisions;
    AfterBothPasses(c, p.state, c', assignments.Values, at, e);
    SameSuperseded(c, p.state, c', assignments.Values, at);
    assert Felled(c, p.state, SupersededSince(c, c'));
    if e !in assignments.Values {
      FelledStays(c, p.state, c', SupersededSince(c, c'), e);
    }
  }

  lemma FelledStays(c: Calculus, mid: Calculus, c': Calculus, tops: set<Id>, e: Id)
    requires Felled(c, mid, tops) && IsActive(mid, e) == IsActive(c', e)
    ensures IsActive(c, e) ==> (IsActive(c', e) <==> e !in Closure(DependentEdges(c), tops))
  {
  }

  /** A target is never superseded: no two targets share a slot. */
  lemma SameSuperseded(c: Calculus, mid: Calculus, c': Calculus, targets: set<Id>, at: nat)
    requires Displaces(c, mid, targets) && DistinctSlots(c, targets) && c'.decisions.Keys == c.decisions.Keys
    requires forall d :: d in c.decisions ==>
      c'.decisions[d] ==
        if d in targets then mid.decisions[d].(status := Active, activatedAt := Some(at)) else mid.decisions[d]
    ensures SupersededSince(c, c') == SupersededSince(c, mid)
  {
    hide Displaces, DistinctSlots;
    assert mid.decisions.Keys == c.decisions.Keys by { DisplacementKeys(c, mid, targets); }
    forall e | e in SupersededSince(c, mid) ensures e !in targets {
      SupersededIsNoTarget(c, mid, targets, e);
    }
  }

  /** After the two passes: the first displaces, the second activates the targets. */
  lemma PathRecords(c: Calculus, assignments: Assignments, at: nat, rows: seq<Id>, p: Pass, act: Calculus)
    requires Indexed(c) && StagePath(c, assignments, at, rows, p, act)
    ensures Displaces(c, p.state, assignments.Values) && DistinctSlots(c, assignments.Values)
    ensures Felled(c, p.state, SupersededSince(c, p.state))
    ensures act.decisions.Keys == p.state.decisions.Keys == c.decisions.Keys
    ensures forall e :: e in c.decisions ==>
      act.decisions[e] ==
        if e in assignments.Values then p.state.decisions[e].(status := Active, activatedAt := Some(at))
        else p.state.decisions[e]
  {
    hide Audited, Displaces, Felled, Reached, SupersedeAll, AllAdmissible, IsRows, DistinctSlots, SlotsFilled, SlotsSound,
      SlotsComplete, Registered, AllReady;
    var start, targets := Audited(c), assignments.Values;
    AuditedOnly(c);
    AuditKeepsSlots(c);
    RowsReady(start, assignments, rows);
    RowsCover(assignments, rows);
    NothingDisplaced(start, targets);
    FirstPassFells(start, Pass(start, {}, {}), rows, targets);
    ReachedFells(start, SupersededSince(start, p.state), p);
    SameDisplacement(start, c, p.state, targets);
    assert DistinctSlots(c, targets) by { SameSlots(start, c, targets); }
    var raw :| Activates(p.state, raw, targets, at) && act == Synchronised(raw);
    SupersedeAllFrame(Pass(start, {}, {}), rows);
  }

  lemma SameSlots(a: Calculus, b: Calculus, targets: set<Id>)
    requires a.decisions == b.decisions && DistinctSlots(a, targets)
    ensures DistinctSlots(b, targets)
  {
  }

  lemma SameDisplacement(a: Calculus, b: Calculus, c': Calculus, targets: set<Id>)
    requires a.decisions == b.decisions && a.edges == b.edges
    requires Displaces(a, c', targets) && Felled(a, c', SupersededSince(a, c'))
    ensures Displaces(b, c', targets) && Felled(b, c', SupersededSince(b, c'))
  {
    hide Felled, Supplanted, Dragged;
    forall e | e in b.decisions && e in c'.decisions
      ensures Supplanted(a, c', targets, e) == Supplanted(b, c', targets, e) && Dragged(a, c', e) == Dragged(b, c', e)
    {
      SameFall(a, b, c', targets, e);
    }
    SameFelled(a, b, c');
  }

  lemma SameFall(a: Calculus, b: Calculus, c': Calculus, targets: set<Id>, e: Id)
    requires a.decisions == b.decisions && a.edges == b.edges && e in a.decisions && e in c'.decisions
    ensures Supplanted(a, c', targets, e) == Supplanted(b, c', targets, e) && Dragged(a, c', e) == Dragged(b, c', e)
  {
    hide Descendants;
    forall o ensures Descendants(a, o) == Descendants(b, o) {
      SameDependents(a, b, o);
    }
    assert forall t :: Rivals(a, e, t) == Rivals(b, e, t);
  }

  lemma SameFelled(a: Calculus, b: Calculus, c': Calculus)
    requires a.decisions == b.decisions && a.edges == b.edges && Felled(a, c', SupersededSince(a, c'))
    ensures Felled(b, c', SupersededSince(b, c'))
  {
    var tops := SupersededSince(a, c');
    assert tops == SupersededSince(b, c');
    assert DependentEdges(a) == DependentEdges(b);
    forall e | IsActive(b, e) ensures IsActive(c', e) <==> e !in Closure(DependentEdges(b), tops) {
      assert IsActive(a, e);
    }
  }

  lemma AfterBothPasses(c: Calculus, mid: Calculus, c': Calculus, targets: set<Id>, at: nat, e: Id)
    requires Displaces(c, mid, targets) && DistinctSlots(c, targets) && c'.decisions.Keys == c.decisions.Keys
    requires forall d :: d in c.decisions ==>
      c'.decisions[d] ==
        if d in targets then mid.decisions[d].(status := Active, activatedAt := Some(at)) else mid.decisions[d]
    requires e in c.decisions
    ensures e in targets ==> c'.decisions[e] == c.decisions[e].(status := Active, activatedAt := Some(at))
    ensures e !in targets && !IsActive(c, e) ==> c'.decisions[e] == c.decisions[e]
    ensures e !in targets && IsActive(c, e) ==>
      || c'.decisions[e] == c.decisions[e]
      || (Supplanted(c, c', targets, e) && !Selectable(c'.decisions[e].status))
      || (Dragged(c, c', e) && Selectable(c'.decisions[e].status))
  {
    hide Displaces, Supplanted, Dragged, DistinctSlots;
    DisplacementKeys(c, mid, targets);
    if e in targets {
      TargetAfter(c, mid, targets, e);
    } else if mid.decisions[e] != c.decisions[e] {
      OthersAfter(c, mid, c', targets, at, e);
    }
  }

  lemma TargetAfter(c: Calculus, mid: Calculus, targets: set<Id>, e: Id)
    requires Displaces(c, mid, targets) && DistinctSlots(c, targets) && e in c.decisions && e in targets
    ensures e in mid.decisions
    ensures mid.decisions[e] == c.decisions[e].(status := mid.decisions[e].status)
  {
    hide Descendants;
  }

  lemma OthersAfter(c: Calculus, mid: Calculus, c': Calculus, targets: set<Id>, at: nat, e: Id)
    requires Displaces(c, mid, targets) && DistinctSlots(c, targets) && c'.decisions.Keys == c.decisions.Keys
    requires forall d :: d in c.decisions ==>
      c'.decisions[d] ==
        if d in targets then mid.decisions[d].(status := Active, activatedAt := Some(at)) else mid.decisions[d]
    requires e in c.decisions && e !in targets && mid.decisions[e] != c.decisions[e]
    ensures IsActive(c, e)
    ensures Supplanted(c, c', targets, e) || Dragged(c, c', e)
    ensures Supplanted(c, c', targets, e) ==> !Selectable(c'.decisions[e].status)
    ensures Dragged(c, c', e) ==> Selectable(c'.decisions[e].status)
  {
    hide Descendants;
    if Dragged(c, mid, e) {
      var o :| o in c.decisions && o in mid.decisions && o != e && e in Descendants(c, o)
        && c.decisions[o].status == Active && mid.decisions[o].status == Superseded;
      SupersededIsNoTarget(c, mid, targets, o);
    }
  }

  lemma DisplacementKeys(c: Calculus, mid: Calculus, targets: set<Id>)
    requires Displaces(c, mid, targets)
    ensures mid.decisions.Keys == c.decisions.Keys
  {
  }

  lemma SupersededIsNoTarget(c: Calculus, mid: Calculus, targets: set<Id>, o: Id)
    requires Displaces(c, mid, targets) && DistinctSlots(c, targets) && o in c.decisions
    requires c.decisions[o].status == Active && mid.decisions[o].status == Superseded
    ensures o !in targets
  {
    hide Descendants;
  }

  /** Which of the two it is: a decision that no target rivals is never superseded, and one that depends on no
      superseded decision is never suspended. */
  lemma DisplacementCases(c: Calculus, c': Calculus, targets: set<Id>, e: Id)
    requires e in c.decisions && e in c'.decisions
    ensures (forall t :: t in targets ==> !Rivals(c, e, t)) ==> !Supplanted(c, c', targets, e)
    ensures Supplanted(c, c', targets, e) ==> !Dragged(c, c', e) && c'.decisions[e].status == Superseded
    ensures Dragged(c, c', e) ==> c'.decisions[e].status == Suspended
  {
    hide Descendants;
  }

  // ----- activating one decision -----

  /** What the activation of `d` leaves on record: `d` is ACTIVE as of this step; the former occupant of its
      slot, if another, is SUPERSEDED by it; the ACTIVE decisions that depend on that one are SUSPENDED and
      otherwise as they were; every other decision keeps its record. */
  lemma ActivationRecords(c: Calculus, d: Id, supersede: Option<Id>, at: nat, c': Calculus, e: Id)
    requires Indexed(c) && CommitsActivation(c, d, supersede, at, c') && e in c.decisions
    ensures d in c.decisions && e in c'.decisions
    ensures e == d ==> c'.decisions[e] == c.decisions[e].(status := Active, activatedAt := Some(at))
    ensures e != d && Local(c, d) == Some(e) ==>
      c'.decisions[e] == c.decisions[e].(status := Superseded, supersededBy := Some(d))
    ensures e != d && Local(c, d) != Some(e) ==>
      c'.decisions[e] ==
        if c.decisions[e].status == Active && Local(c, d).Some? && Local(c, d) != Some(d)
           && e in Descendants(c, Local(c, d).value)
        then c.decisions[e].(status := Suspended) else c.decisions[e]
  {
    hide MayActivate, ActivationAccepted, ModelsAgree, Settled, Candidate, Indexed, Audited, Descendants;
    var start := Audited(c);
    AuditKeepsIndexes(c);
    AuditedOnly(c);
    assert d in start.decisions by { WasActivatable(start, d, supersede); }
    assert !IsActive(start, d) by { WasActivatable(start, d, supersede); }
    SettledFrame(NextEpoch(Candidate(start, d, at)));
    CandidateRecords(start, d, at, e);
    assert Descendants(start, e) == Descendants(c, e) by { SameDependents(start, c, e); }
    if Local(c, d).Some? {
      SameDependents(start, c, Local(c, d).value);
    }
  }

  lemma WasActivatable(c: Calculus, d: Id, supersede: Option<Id>)
    requires MayActivate(c, d, supersede)
    ensures d in c.decisions && !IsActive(c, d)
  {
  }

  lemma SameDependents(a: Calculus, b: Calculus, d: Id)
    requires a.decisions == b.decisions && a.edges == b.edges
    ensures Descendants(a, d) == Descendants(b, d)
  {
    assert DependentEdges(a) == DependentEdges(b);
  }

  lemma CandidateRecords(c: Calculus, d: Id, at: nat, e: Id)
    requires Indexed(c) && d in c.decisions && !IsActive(c, d) && e in c.decisions
    ensures var act := Candidate(c, d, at);
      && e in act.decisions
      && (e == d ==> act.decisions[e] == c.decisions[e].(status := Active, activatedAt := Some(at)))
      && (e != d && Local(c, d) == Some(e) ==>
            act.decisions[e] == c.decisions[e].(status := Superseded, supersededBy := Some(d)))
      && (e != d && Local(c, d) != Some(e) ==>
            act.decisions[e] ==
              if c.decisions[e].status == Active && Local(c, d).Some? && Local(c, d) != Some(d)
                 && e in Descendants(c, Local(c, d).value)
              then c.decisions[e].(status := Suspended) else c.decisions[e])
  {
    hide Descendants, Displace, Candidate, SameDecisions, SlotsComplete, Registered;
    CandidateFrame(c, d, at);
    var occupant := Local(c, d);
    if occupant.Some? && occupant.value != d {
      assert IsActive(c, occupant.value);
      DisplaceRecords(Pass(c, {}, {}), occupant.value, d, e);
      DisplaceRecords(Pass(c, {}, {}), occupant.value, d, d);
    }
  }

  /** When one decision may be activated: it is PROPOSED or SUSPENDED, its parents are ACTIVE and what it
      presupposes is live, its scope is ACTIVE, and its slot is free of any other decision, or the caller
      names the unpinned one that is to yield; outside the root a free slot that inherits another assignment
      takes only a decision that overrides, in a scope that does not deny it. */
  lemma MayActivateExactly(c: Calculus, d: Id, supersede: Option<Id>)
    ensures MayActivate(c, d, supersede) <==>
      && d in c.decisions && c.decisions[d].status in {Proposed, Suspended}
      && (forall p :: p in c.decisions[d].parents ==> p in c.decisions && c.decisions[p].status == Active)
      && (forall k :: k in c.decisions[d].antecedents ==>
            k in c.constraints && c.constraints[k].status in {ActiveConstraint, SoftConstraint})
      && c.decisions[d].scope in c.scopes && c.scopes[c.decisions[d].scope].status == ActiveScope
      && (var s, x := c.decisions[d].scope, c.decisions[d].subject;
          if s in c.models && x in c.models[s] then
            c.models[s][x] != d ==>
              supersede == Some(c.models[s][x]) && c.models[s][x] in c.decisions && !c.decisions[c.models[s][x]].pinned
          else
            s != ROOT && x in EffectiveDecisions(c, s) && EffectiveDecisions(c, s)[x] != d ==>
              c.decisions[d].overrides && !c.scopes[s].deniesOverride)
  {
    hide EffectiveDecisions;
  }

  /** And when its model is accepted: it violates no no-good, in the root none in its own scope, elsewhere none
      that the scope answers to; and under BLOCK_PLANNING with overdue work, it exposes some. */
  lemma AcceptedExactly(c: Calculus, act: Calculus, scope: Id)
    ensures ActivationAccepted(c, act, scope) <==>
      && (if scope == ROOT then Violated(act) == {}
          else forall k :: k in act.constraints ==> !ViolatedBelow(act, act.constraints[k], scope))
      && (act.policy.enforcement == BlockPlanning && Reported(c, Overdue) != {} ==>
            ExposesOverdue(act, EffectiveValues(act, scope), EffectiveValues(Audited(c), scope)))
  {
    hide EffectiveValues, Audited, ExposesOverdue, ViolatedBelow, ConstraintViolated;
    assert Violated(act) == {} <==>
      forall k :: k in act.constraints ==> k !in Violated(act);
  }

  /** Under WARN, and whenever nothing is overdue, the gate of a candidate refuses nothing. */
  lemma GateOnlyBlocks(c: Calculus, act: Calculus)
    requires act.scopes == c.scopes
    ensures c.policy.enforcement != BlockPlanning || Reported(c, Overdue) == {} ==>
      (Accepted(c, act) <==> Violated(act) == {})
    ensures c.policy.enforcement == BlockPlanning && Reported(c, Overdue) != {} ==>
      (Accepted(c, act) <==> Violated(act) == {} && GatePasses(act, PreviousValues(c)))
  {
    hide Violated, GatePasses;
  }

  // ----- restarting -----

  /** What survives a restart: pinned decisions, and those of kind ROOT or PINNED. */
  predicate Survives(d: Decision) {
    d.pinned || d.kind in {RootKind, PinnedKind}
  }

  /** What a restart leaves on record: an ACTIVE decision that does not survive is SUSPENDED and otherwise as it
      was, so that a candidate may take it up again; every other decision keeps its record. The search begins
      anew in the next epoch. */
  lemma RestartRecords(c: Calculus, d: Id)
    requires Indexed(c) && d in c.decisions
    ensures var c' := AfterRestart(c);
      && d in c'.decisions
      && c'.decisions[d] ==
           (if c.decisions[d].status == Active && !Survives(c.decisions[d]) then c.decisions[d].(status := Suspended)
            else c.decisions[d])
      && c'.searchLocal == map[] && c'.epoch == c.epoch + 1 && c'.constraints == c.constraints && c'.conflicts == c.conflicts
    ensures IsActive(c, d) && !IsActive(AfterRestart(c), d) ==>
      Selectable(AfterRestart(c).decisions[d].status)
      && (c.decisions[d].scope in c.scopes && c.scopes[c.decisions[d].scope].status == ActiveScope
          && AntecedentsLive(c, c.decisions[d]) ==>
            Admissible(AfterRestart(c), ScopedKey(c.decisions[d].scope, c.decisions[d].subject), d))
  {
    hide Settled, Speculative;
    SettledFrame(Restart.Cleared(c));
    assert Slotted(c);
    if IsActive(c, d) {
      SpeculativeIffNotRetained(c, d);
    } else {
      assert SlotsSound(c);
      if d in Speculative(c) {
        SpeculativeIsActive(c, d);
      }
    }
  }

  lemma SpeculativeIsActive(c: Calculus, d: Id)
    requires SlotsSound(c) && d in Speculative(c)
    ensures IsActive(c, d)
  {
    var s :| s in c.models && d in SpeculativePart(c.decisions, c.models[s]);
    var x :| x in c.models[s] && c.models[s][x] == d;
  }

  /** The restart of one scope does the same to the decisions of its subtree, and to no other; and it reopens
      the obligations of the subtree that were not disposed of. */
  lemma ScopeRestartRecords(c: Calculus, scope: Id, at: nat, d: Id, o: Id)
    requires Indexed(c)
    ensures var c', below := AfterScopeRestart(c, scope, at), Subtree(c.scopes, scope);
      && (d in c.decisions ==>
            d in c'.decisions
            && c'.decisions[d] ==
                 (if c.decisions[d].status == Active && c.decisions[d].scope in below && !Survives(c.decisions[d])
                  then c.decisions[d].(status := Suspended) else c.decisions[d]))
      && (o in c.obligations && c.obligations[o].scope in below ==>
            o in c'.obligations
            && c'.obligations[o] ==
                 (if c.obligations[o].status in {Refused, Replaced, Impossible} then c.obligations[o]
                  else c.obligations[o].(status := NeedsRevalidation, changedAt := at)))
      && (o in c.obligations && c.obligations[o].scope !in below ==>
            o in c'.obligations
            && c'.obligations[o] in {c.obligations[o], c.obligations[o].(status := Available)}
            && (c'.obligations[o] != c.obligations[o] ==> c.obligations[o].status == Locked))
      && c'.searchLocal == map[] && c'.epoch == c.epoch + 1
    ensures d in c.decisions && IsActive(c, d) && !IsActive(AfterScopeRestart(c, scope, at), d) ==>
      Selectable(AfterScopeRestart(c, scope, at).decisions[d].status)
      && (c.decisions[d].scope in c.scopes && c.scopes[c.decisions[d].scope].status == ActiveScope
          && AntecedentsLive(c, c.decisions[d]) ==>
            Admissible(AfterScopeRestart(c, scope, at), ScopedKey(c.decisions[d].scope, c.decisions[d].subject), d))
  {
    hide Settled, Subtree;
    var mid := ScopeCleared(c, Subtree(c.scopes, scope), at);
    SettledFrame(mid);
    SettledObligation(mid, o);
  }

  /** A scope restart starts from a scope that is ACTIVE, and is refused when a no-good is violated after it. */
  lemma ScopeRestartExactly(c: Calculus, scope: Id, at: nat, c': Calculus)
    ensures ScopeRestarts(c, scope, at, c') <==>
      && scope in c.scopes && c.scopes[scope].status == ActiveScope && c' == AfterScopeRestart(c, scope, at)
      && forall k :: k in c'.constraints ==>
           !ConstraintViolated(c'.constraints[k], EffectiveValues(c', c'.constraints[k].scope))
  {
    hide AfterScopeRestart, ConstraintViolated, EffectiveValues;
    assert Violated(c') == {} <==> forall k :: k in c'.constraints ==> k !in Violated(c');
  }

  /** Settling releases LOCKED obligations at most. */
  lemma SettledObligation(c: Calculus, o: Id)
    ensures Settled(c).obligations.Keys == c.obligations.Keys
    ensures o in c.obligations ==>
      Settled(c).obligations[o] == c.obligations[o]
      || (c.obligations[o].status == Locked && Settled(c).obligations[o] == c.obligations[o].(status := Available))
  {
    RelockingReleases(c);
  }

  // ----- jumping back -----

  /** What the recovery leaves on record: the pivot's dependents, and the ACTIVE decisions of the scopes taken,
      are INVALIDATED by the conflict; the obligations that rest on any of them, or lie in a scope taken or
      doubted, wait to be revalidated unless disposed of; these scopes themselves too. */
  lemma RecoveryRecords(c: Calculus, cid: Id, eid: Id, plan: BackjumpPlan, at: nat, d: Id, o: Id, s: Id)
    requires Indexed(c) && SaneDependencies(c.scopes, c.scopeDeps)
    requires cid in c.conflicts && eid in c.explanations && IsPlan(c, cid, eid, plan) && plan.pivot.Some?
    requires IsActive(c, plan.pivot.value) && Applicable(c, WidenedPlan(c, plan))
    ensures var c', p := Settled(Recovered(c, plan, at)), plan.pivot.value;
      var gone := InvalidatedBy(c, p);
      var reopened := ReopenedBy(c, p);
      && (d in c.decisions ==>
            d in c'.decisions
            && c'.decisions[d] == (if d in gone then c.decisions[d].(status := Invalidated, invalidatedBy := Some(cid))
                                   else c.decisions[d]))
      && (o in c.obligations && o in reopened ==>
            o in c'.obligations
            && c'.obligations[o] == (if c.obligations[o].status in {Refused, Replaced, Impossible} then c.obligations[o]
                                     else c.obligations[o].(status := NeedsRevalidation, changedAt := at)))
      && (s in c.scopes ==>
            s in c'.scopes
            && c'.scopes[s] == (if s in TakenScopes(c, p) + DoubtedScopes(c, p)
                                then c.scopes[s].(status := RevalidateScope, updatedAt := at) else c.scopes[s]))
      && cid in c'.conflicts && c'.conflicts[cid].status == Resolved && c'.conflicts[cid].resolvedAt == Some(at)
      && c'.searchLocal == map[] && c'.epoch == c.epoch + 1
  {
    hide Settled, Indexed, TakenScopes, DoubtedScopes, Descendants, IsPlan;
    var after := Recovered(c, plan, at);
    RootUnmarked(c, plan.pivot.value);
    SettledFrame(after);
    SettledObligation(after, o);
    WidenedRecords(c, cid, eid, plan);
    BackjumpRecords(c, WidenedPlan(c, plan), at, d, o);
    AfterBackjumpFrame(c, WidenedPlan(c, plan), at, d, o);
  }

  lemma WidenedRecords(c: Calculus, cid: Id, eid: Id, plan: BackjumpPlan)
    requires cid in c.conflicts && eid in c.explanations && IsPlan(c, cid, eid, plan)
    requires plan.pivot.Some? && plan.pivot.value in c.decisions
    ensures WidenedPlan(c, plan).conflict == cid && WidenedPlan(c, plan).pivot == plan.pivot
    ensures WidenedPlan(c, plan).invalidated == InvalidatedBy(c, plan.pivot.value)
    ensures WidenedPlan(c, plan).obligations == ReopenedBy(c, plan.pivot.value)
  {
    hide TakenScopes, DoubtedScopes, Descendants, ImpactedPlanNodes;
  }

  lemma AfterBackjumpFrame(c: Calculus, plan: BackjumpPlan, at: nat, d: Id, o: Id)
    requires Applicable(c, plan)
    ensures var c' := AfterBackjump(c, plan, at);
      && c'.scopes == c.scopes
      && (d in c.decisions && d !in plan.invalidated ==> d in c'.decisions && c'.decisions[d] == c.decisions[d])
      && (o in c.obligations && o !in plan.obligations ==> o in c'.obligations && c'.obligations[o] == c.obligations[o])
  {
  }

  /** A backjump rests on a valid explanation: the one asked for, or else the first by name of those of the
      conflict that are validated or proven; and it leaves no no-good violated. */
  lemma JumpRestsOnExplanation(c: Calculus, cid: Id, requested: Option<Id>, at: nat, c': Calculus) returns (eid: Id)
    requires Jumps(c, cid, requested, at, c')
    ensures cid in c.conflicts && eid in c.explanations && ExplanationValid(c, c.explanations[eid])
    ensures requested.Some? ==> requested.value == eid
    ensures requested.None? ==> Acceptable(c, cid, eid) && forall e :: Acceptable(c, cid, e) ==> IdLeq(eid, e)
    ensures forall k :: k in c'.constraints ==>
      !ConstraintViolated(c'.constraints[k], EffectiveValues(c', c'.constraints[k].scope))
  {
    hide JumpsAlong, WidenedPlan, IsPlan, ExplanationValid, ConstraintViolated, EffectiveValues, Acceptable, Chosen;
    var plan :| IsJump(c, cid, requested, plan) && JumpsAlong(c, plan, at, c', WidenedPlan(c, plan));
    eid := plan.explanation;
    ChosenExactly(c, cid, eid);
    assert forall k :: k in c'.constraints ==> k !in Violated(c');
  }

  /** The plan that a backjump reports is determined by the request, and names what the backjump does. */
  lemma ReportedPlanExactly(c: Calculus, cid: Id, requested: Option<Id>, wide: BackjumpPlan, other: BackjumpPlan)
    requires IsWidePlan(c, cid, requested, wide) && IsWidePlan(c, cid, requested, other)
    ensures wide == other && wide.conflict == cid
    ensures wide.pivot.Some? && wide.pivot.value in c.decisions
    ensures wide.invalidated == InvalidatedBy(c, wide.pivot.value) && wide.obligations == ReopenedBy(c, wide.pivot.value)
  {
    hide WidenedPlan, IsPlan, Chosen, ExplanationValid, InvalidatedBy, ReopenedBy;
    var plan :| IsJump(c, cid, requested, plan) && wide == WidenedPlan(c, plan);
    var same :| IsJump(c, cid, requested, same) && other == WidenedPlan(c, same);
    JumpUnique(c, cid, requested, plan, same);
    WidenedRecords(c, cid, plan.explanation, plan);
  }

  ghost function InvalidatedBy(c: Calculus, pivot: Id): set<Id>
    requires pivot in c.decisions
  {
    Descendants(c, pivot)
    + set d | d in c.decisions && c.decisions[d].status == Active && c.decisions[d].scope in TakenScopes(c, pivot)
  }

  ghost function ReopenedBy(c: Calculus, pivot: Id): set<Id>
    requires pivot in c.decisions
  {
    set o | o in c.obligations
      && (c.obligations[o].scope in TakenScopes(c, pivot) + DoubtedScopes(c, pivot)
          || c.obligations[o].decisionDeps * InvalidatedBy(c, pivot) != {})
  }

  /** A pivot of the root takes and doubts no scope; any other takes its own subtree and what INVALIDATE
      dependencies reach, and doubts what else is impacted. */
  lemma TakenExactly(c: Calculus, pivot: Id)
    requires pivot in c.decisions
    ensures c.decisions[pivot].scope == ROOT ==> TakenScopes(c, pivot) == {} && DoubtedScopes(c, pivot) == {}
    ensures c.decisions[pivot].scope != ROOT ==>
      && TakenScopes(c, pivot) == InvalidatedScopes(c.scopes, c.scopeDeps, c.decisions[pivot].scope)
      && TakenScopes(c, pivot) + DoubtedScopes(c, pivot) >= Impacted(c.scopes, c.scopeDeps, c.decisions[pivot].scope)
      && TakenScopes(c, pivot) !! DoubtedScopes(c, pivot)
  {
    hide InvalidatedScopes, Impacted;
  }

  // ----- truth maintenance -----

  /** What a plan leaves on record: an affected decision that was PROPOSED, ACTIVE or SUSPENDED is INVALIDATED by
      the plan, and none that is affected can be selected; an affected obligation that had consumed the truth
      waits to be revalidated, by the plan; every other record stays, but for the release of a LOCKED
      obligation. */
  lemma TruthRecords(c: Calculus, plan: TruthPlan, at: nat, d: Id, o: Id)
    ensures var c' := TruthCalculus(c, plan, at);
      && (d in c.decisions ==>
            && d in c'.decisions
            && c'.decisions[d] ==
                 (if Ref(DecisionNode, d) in plan.affected && c.decisions[d].status in {Proposed, Active, Suspended}
                  then c.decisions[d].(status := Invalidated, invalidatedByPlan := Some(plan.id)) else c.decisions[d])
            && (Ref(DecisionNode, d) in plan.affected ==> !Selectable(c'.decisions[d].status)))
      && (o in c.obligations ==>
            && o in c'.obligations
            && (if Ref(ObligationNode, o) in plan.affected
                   && c.obligations[o].status in {Enabled, InProgress, Verifying, Verified, Committed, Blocked}
                then c'.obligations[o] ==
                  c.obligations[o].(status := NeedsRevalidation, changedAt := at, reason := Some(plan.id))
                else c'.obligations[o] in {c.obligations[o], c.obligations[o].(status := Available)}
                     && (c'.obligations[o] != c.obligations[o] ==> c.obligations[o].status == Locked)))
  {
    var mid := WithdrawTruth(c, plan, at);
    RelockingReleases(mid);
  }

  /** Every durable write is one event of the history. */
  lemma {:induction false} EveryWriteCounts(w: World, es: seq<Write>)
    ensures ReplayAll(w, es).sequence == w.sequence + |es|
    decreases |es|
  {
    if es != [] {
      EveryWriteCounts(Replay(w, es[0]), es[1..]);
    }
  }

  /** Which artifacts a plan marks: the affected ones that are neither STALE, nor refuted, nor rejected. */
  lemma StaleExactly(artifacts: map<Id, ArtifactState>, plan: TruthPlan, a: Id)
    requires Distinct(plan.affected)
    ensures a in StaleTargets(artifacts, plan.affected) <==>
      Ref(ArtifactNode, a) in plan.affected && a in artifacts && artifacts[a] !in {Stale, Refuted, RejectedArtifact}
  {
    TargetsNeedStale(artifacts, plan.affected);
  }

  /** What the applied record reports of the state it was computed from. */
  lemma ReportExactly(artifacts: map<Id, ArtifactState>, c: Calculus, plan: TruthPlan, at: nat, x: Id)
    ensures var r := ResultOf(artifacts, c, plan, at);
      && (x in r.stale <==>
            Ref(ArtifactNode, x) in plan.affected && x in artifacts && artifacts[x] !in {Refuted, RejectedArtifact})
      && (x in r.terminal <==>
            Ref(ArtifactNode, x) in plan.affected && x in artifacts && artifacts[x] in {Refuted, RejectedArtifact})
      && (x in r.withdrawn <==>
            Ref(DecisionNode, x) in plan.affected && x in c.decisions
            && c.decisions[x].status in {Proposed, Active, Suspended})
      && (x in r.reopened <==>
            Ref(ObligationNode, x) in plan.affected && x in c.obligations
            && c.obligations[x].status in
                 {NeedsRevalidation, Enabled, InProgress, Verifying, Verified, Committed, Blocked})
      && (x in r.preserved <==>
            Ref(ObligationNode, x) in plan.affected && x in c.obligations
            && c.obligations[x].status in {Available, Locked, Refused, Replaced, Impossible})
      && (x in r.brokenLocks <==>
            x in c.locks && c.locks[x].status == LockActive
            && x in TruthCalculus(c, plan, at).locks && TruthCalculus(c, plan, at).locks[x].status != LockActive)
  {
    hide TruthCalculus, WithdrawTruth, ReportedStale, ReportedTerminal, Withdrawn, ReportedReopened, ReportedPreserved,
      BrokenLocks;
    ReportedArtifacts(artifacts, plan, x);
    ReportedNodes(c, plan, x);
    ReportedLocks(c, plan, at, x);
  }

  lemma ReportedArtifacts(artifacts: map<Id, ArtifactState>, plan: TruthPlan, x: Id)
    ensures x in ReportedStale(artifacts, plan) <==>
      Ref(ArtifactNode, x) in plan.affected && x in artifacts && artifacts[x] !in {Refuted, RejectedArtifact}
    ensures x in ReportedTerminal(artifacts, plan) <==>
      Ref(ArtifactNode, x) in plan.affected && x in artifacts && artifacts[x] in {Refuted, RejectedArtifact}
  {
    var ref := Ref(ArtifactNode, x);
    assert ref.kind.ArtifactNode? && ref.id == x;
    assert forall r: Ref :: r.kind.ArtifactNode? && r.id == x ==> r == ref;
  }

  lemma ReportedNodes(c: Calculus, plan: TruthPlan, x: Id)
    ensures x in Withdrawn(c, plan) <==>
      Ref(DecisionNode, x) in plan.affected && x in c.decisions && c.decisions[x].status in {Proposed, Active, Suspended}
    ensures x in ReportedReopened(c, plan) <==>
      Ref(ObligationNode, x) in plan.affected && x in c.obligations
      && c.obligations[x].status in {NeedsRevalidation, Enabled, InProgress, Verifying, Verified, Committed, Blocked}
    ensures x in ReportedPreserved(c, plan) <==>
      Ref(ObligationNode, x) in plan.affected && x in c.obligations
      && c.obligations[x].status in {Available, Locked, Refused, Replaced, Impossible}
  {
  }

  lemma ReportedLocks(c: Calculus, plan: TruthPlan, at: nat, x: Id)
    ensures x in BrokenLocks(WithdrawTruth(c, plan, at)) <==>
      x in c.locks && c.locks[x].status == LockActive
      && x in TruthCalculus(c, plan, at).locks && TruthCalculus(c, plan, at).locks[x].status != LockActive
  {
    hide EffectiveValues, ConditionHolds;
    var mid := WithdrawTruth(c, plan, at);
    assert mid.locks == c.locks;
    if x in c.locks {
      BreakingExactly(mid, x);
    }
  }

  /** A completed plan has the same effect on the durable calculus, whenever it is recorded as applied. */
  lemma CompletedRecords(w: World, plan: TruthPlan, d: Id)
    requires Distinct(plan.affected) && plan.id !in w.applied && Indexed(w.calculus)
    requires plan.id in Completed(w, plan).applied && d in w.calculus.decisions
    ensures var before, after := w.calculus.decisions[d], Completed(w, plan).calculus;
      && d in after.decisions
      && after.decisions[d] ==
           (if Ref(DecisionNode, d) in plan.affected && before.status in {Proposed, Active, Suspended}
            then before.(status := Invalidated, invalidatedByPlan := Some(plan.id)) else before)
      && (Ref(DecisionNode, d) in plan.affected ==> !Selectable(after.decisions[d].status))
  {
    hide TruthCalculus, CommitAdmits, Indexed, Pending, Selectable;
    var n := |StaleTargets(w.artifacts, plan.affected)|;
    CompletedCalculus(w, plan);
    TruthRecords(w.calculus, plan, w.sequence + n + 1, d, "");
  }

  /** The calculus a completed plan leaves has the decisions and locks that the plan calls for. */
  lemma CompletedCalculus(w: World, plan: TruthPlan)
    requires Distinct(plan.affected) && plan.id !in w.applied && plan.id in Completed(w, plan).applied
    ensures var next := TruthCalculus(w.calculus, plan, w.sequence + |StaleTargets(w.artifacts, plan.affected)| + 1);
      Completed(w, plan).calculus.decisions == next.decisions && Completed(w, plan).calculus.locks == next.locks
  {
    hide CommitAdmits, TruthCalculus, TruthChanges, ResultOf, StaleTargets;
    var n := |StaleTargets(w.artifacts, plan.affected)|;
    var at := w.sequence + n + 1;
    TwoPhases(w, plan);
    var marked := Marked(w, plan, n);
    var record := AppliedWrite(plan.id, ResultOf(w.artifacts, w.calculus, plan, at));
    if !TruthChanges(w.calculus, plan, at) {
      ReplayOne(marked, record);
      UnchangedTruth(w.calculus, plan, at);
    } else {
      ReplayTwo(marked, CalculusWrite(Normalised(TruthCalculus(w.calculus, plan, at))), record);
    }
  }

  lemma UnchangedTruth(c: Calculus, plan: TruthPlan, at: nat)
    requires !TruthChanges(c, plan, at)
    ensures TruthCalculus(c, plan, at).decisions == c.decisions && TruthCalculus(c, plan, at).locks == c.locks
  {
    hide EffectiveValues, ConditionHolds;
    NothingWithdrawn(c, plan, at);
    forall k | k in c.locks ensures CheckLock(c, c.locks[k]) == c.locks[k] {
      assert k !in BrokenLocks(c);
    }
    assert CheckLocks(c) == c.locks;
  }
}
