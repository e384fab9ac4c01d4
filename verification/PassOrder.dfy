/** When the first pass of a candidate activation succeeds, and how that depends on the order of its
    rows (`_stage_candidate_activation` of `_runtime_v31_search.py`). */
module PassOrder {
  import opened Foundations
  import opened CalculusModel
  import opened Reachability
  import opened Scopes
  import opened DecisionGraph
  import opened Staging

  /** The occupants that the first `n` rows displace: an occupant that fell earlier, as a dependent of
      another one, is no longer there to be displaced. */
  ghost function Tops(c: Calculus, rows: seq<Id>, n: nat): set<Id>
    requires n <= |rows| && forall d :: d in rows ==> RowReady(c, d)
  {
    if n == 0 then {}
    else
      assert rows[n - 1] in rows;
      Tops(c, rows, n - 1) + Top(c, Tops(c, rows, n - 1), rows[n - 1])
  }

  ghost function Top(c: Calculus, tops: set<Id>, d: Id): set<Id>
    requires d in c.decisions
  {
    match OccupantOf(c, d)
    case None => {}
    case Some(o) => if o in Fallen(c, tops) then {} else {o}
  }

  ghost function Fallen(c: Calculus, tops: set<Id>): set<Id> {
    Closure(DependentEdges(c), tops)
  }

  /** What the rows before row `n` have taken out of the models. */
  ghost function GoneBefore(c: Calculus, rows: seq<Id>, n: nat): set<Id>
    requires n <= |rows| && forall d :: d in rows ==> RowReady(c, d)
  {
    Fallen(c, Tops(c, rows, n))
  }

  function Purged(c: Calculus, gone: set<Id>): (r: Calculus)
    ensures r.decisions == c.decisions && r.scopes == c.scopes
  {
    c.(models := ModelsWithout(c.models, gone))
  }

  /** A row passes when its slot holds an occupant that still stands and may be displaced, or when the
      slot is empty by now and what the scope inherits admits the assignment. */
  ghost predicate RowPasses(c: Calculus, gone: set<Id>, d: Id)
    requires RowReady(c, d)
  {
    var slot := Slot(c.models, c.decisions[d].scope, c.decisions[d].subject);
    if slot.Some? && slot.value !in gone then
      slot.value == d || (slot.value in c.decisions && !c.decisions[slot.value].pinned)
    else
      !RefusedOnce(c, gone, d)
  }

  /** Whether the override is refused once `gone` has left the models. */
  predicate RefusedOnce(c: Calculus, gone: set<Id>, d: Id)
    requires RowReady(c, d)
  {
    var purged := Purged(c, gone);
    OverrideRefused(purged, d)
  }

  /** `p` is reached from `c` by displacing `tops`: exactly what depends on them has fallen. */
  ghost predicate Reached(c: Calculus, tops: set<Id>, p: Pass) {
    && Retires(c, p.state, Fallen(c, tops))
    && p.state == c.(decisions := p.state.decisions, models := p.state.models)
    && forall d :: d in c.decisions ==> p.state.decisions[d].overrides == c.decisions[d].overrides
  }

  lemma SamePurgedValues(c: Calculus, tops: set<Id>, p: Pass, d: Id)
    requires Reached(c, tops, p) && RowReady(c, d)
    ensures RowReady(p.state, d)
    ensures OverrideRefused(p.state, d) == OverrideRefused(Purged(c, Fallen(c, tops)), d)
  {
    var s := c.decisions[d].scope;
    SameOverlay(p.state, Purged(c, Fallen(c, tops)), InheritanceChain(c.scopes, s));
  }

  lemma {:induction false} SameOverlay(a: Calculus, b: Calculus, chain: seq<Id>)
    requires a.scopes == b.scopes && a.models == b.models && a.activeModel == b.activeModel
    ensures Overlay(a, chain) == Overlay(b, chain)
  {
    if chain != [] {
      SameOverlay(a, b, chain[..|chain| - 1]);
    }
  }

  /** A displacement fells what depends on the new top, and nothing else. */
  lemma FallenGrows(c: Calculus, tops: set<Id>, p: Pass, o: Id, d: Id)
    requires Reached(c, tops, p) && IsActive(p.state, o)
    ensures Fallen(c, tops + {o}) == Fallen(c, tops) + Displaced(p, o, d)
  {
    hide Retires, Reached;
    var marked := MarkSuperseded(p.state, o, d);
    forall e | e in DependentEdges(c) ensures e in DependentEdges(marked) || e.1 == o || e.1 in Fallen(c, tops) {
      EdgeKept(c, tops, p, o, d, e);
    }
    DisplacedShrinks(p, o, d);
    EdgesShrink(c, tops, p);
    ClosureMonotone(DependentEdges(p.state), DependentEdges(c), {o}, {o});
    ClosureUnion(DependentEdges(c), tops, {o});
    ClosureSplit(DependentEdges(c), DependentEdges(marked), tops, o);
  }

  /** Dropping edges into what is reached already loses nothing of the whole. */
  lemma ClosureSplit(g: Graph, h: Graph, tops: set<Id>, o: Id)
    requires forall e :: e in g ==> e in h || e.1 == o || e.1 in Closure(g, tops)
    ensures Closure(g, {o}) <= Closure(g, tops) + Closure(h, {o})
  {
    var both := Closure(g, tops) + Closure(h, {o});
    assert o in both;
    assert Closed(g, both);
  }

  lemma EdgesShrink(c: Calculus, tops: set<Id>, p: Pass)
    requires Reached(c, tops, p)
    ensures DependentEdges(p.state) <= DependentEdges(c)
  {
  }

  /** An edge of the start that is missing now led into something fallen. */
  lemma EdgeKept(c: Calculus, tops: set<Id>, p: Pass, o: Id, d: Id, e: (Id, Id))
    requires Reached(c, tops, p) && IsActive(p.state, o) && e in DependentEdges(c)
    ensures e in DependentEdges(MarkSuperseded(p.state, o, d)) || e.1 == o || e.1 in Fallen(c, tops)
  {
    var marked := MarkSuperseded(p.state, o, d);
    assert marked.edges == c.edges;
    if e !in CausalPairs(c.edges) && e.1 != o && IsActive(p.state, e.1) {
      assert e.1 in marked.decisions && e.0 in marked.decisions[e.1].parents;
    }
  }

  lemma DisplacementReaches(c: Calculus, tops: set<Id>, p: Pass, o: Id, d: Id)
    requires Slotted(c) && Reached(c, tops, p) && IsActive(p.state, o)
    ensures Reached(c, tops + {o}, Displace(p, o, d))
  {
    var q := Displace(p, o, d);
    RetiringKeepsSlots(c, p.state, Fallen(c, tops));
    DisplaceRetires(p, o, d);
    FallenGrows(c, tops, p, o, d);
    RetiredTwice(c, p.state, q.state, Fallen(c, tops), Displaced(p, o, d));
    forall e | e in c.decisions ensures q.state.decisions[e].overrides == c.decisions[e].overrides {
      DisplacedDecision(p, o, d, e);
    }
  }

  lemma RetiredTwice(a: Calculus, b: Calculus, c: Calculus, some: set<Id>, more: set<Id>)
    requires Retires(a, b, some) && Retires(b, c, more)
    ensures Retires(a, c, some + more)
  {
    forall s | s in a.models ensures Without(Without(a.models[s], some), more) == Without(a.models[s], some + more) {
    }
    assert c.models == ModelsWithout(a.models, some + more);
  }

  lemma NothingFallen(c: Calculus)
    requires Slotted(c)
    ensures Fallen(c, {}) == {} && Reached(c, {}, Pass(c, {}, {}))
  {
    assert Closed(DependentEdges(c), {});
    assert c.models == ModelsWithout(c.models, {}) by {
      forall s | s in c.models ensures Without(c.models[s], {}) == c.models[s] {
      }
    }
  }

  /** The row succeeds exactly when it passes, and displaces its top. */
  lemma RowExactly(c: Calculus, tops: set<Id>, p: Pass, d: Id)
    requires Slotted(c) && Reached(c, tops, p) && RowReady(c, d)
    ensures RowReady(p.state, d)
    ensures SupersedeRow(p, d).Ok? <==> RowPasses(c, Fallen(c, tops), d)
    ensures SupersedeRow(p, d).Ok? ==> Reached(c, tops + Top(c, tops, d), SupersedeRow(p, d).value)
  {
    hide SlotsComplete, Registered, OverrideRefused, Displace, Purged, Fallen;
    SamePurgedValues(c, tops, p, d);
    var r := c.decisions[d];
    var slot := Slot(c.models, r.scope, r.subject);
    if slot.Some? && slot.value !in Fallen(c, tops) {
      assert IsActive(c, slot.value) && IsActive(p.state, slot.value);
      assert Slot(p.state.models, r.scope, r.subject) == slot;
      if slot.value != d {
        DisplacementReaches(c, tops, p, slot.value, d);
      } else {
        assert tops + {} == tops;
      }
    } else {
      assert Slot(p.state.models, r.scope, r.subject) == None;
      assert tops + {} == tops;
    }
  }

  lemma {:induction false} RowsExactly(c: Calculus, rows: seq<Id>, n: nat, p: Pass)
    requires Slotted(c) && (forall d :: d in rows ==> RowReady(c, d)) && n <= |rows|
    requires Reached(c, Tops(c, rows, n), p)
    ensures forall d :: d in rows[n..] ==> RowReady(p.state, d)
    ensures SupersedeAll(p, rows[n..]).Ok? <==>
      forall i :: n <= i < |rows| ==> RowPasses(c, GoneBefore(c, rows, i), rows[i])
    decreases |rows| - n
  {
    hide Reached, RowPasses, SupersedeRow, Fallen;
    forall d | d in rows[n..] ensures RowReady(p.state, d) {
      SamePurgedValues(c, Tops(c, rows, n), p, d);
    }
    if n < |rows| {
      var d := rows[n];
      assert rows[n..][0] == d && rows[n..][1..] == rows[n + 1..];
      RowExactly(c, Tops(c, rows, n), p, d);
      if SupersedeRow(p, d).Ok? {
        RowsExactly(c, rows, n + 1, SupersedeRow(p, d).value);
      }
    }
  }

  /** The first pass succeeds exactly when every row passes against what the rows before it felled. */
  lemma FirstPassExactly(c: Calculus, rows: seq<Id>)
    requires Slotted(c) && forall d :: d in rows ==> RowReady(c, d)
    ensures SupersedeAll(Pass(c, {}, {}), rows).Ok? <==>
      forall i :: 0 <= i < |rows| ==> RowPasses(c, GoneBefore(c, rows, i), rows[i])
  {
    NothingFallen(c);
    assert rows[0..] == rows;
    RowsExactly(c, rows, 0, Pass(c, {}, {}));
  }

  // ----- rows of the root scope -----

  /** A root row passes exactly when its slot was free, or its occupant still stands unpinned, or the
      occupant fell earlier and the decision may override: the pass still reads the fallen occupant
      from `active_model`. */
  lemma RootRowPasses(c: Calculus, gone: set<Id>, d: Id)
    requires Indexed(c) && RowReady(c, d) && c.decisions[d].scope == ROOT
    ensures RowPasses(c, gone, d) <==>
      match OccupantOf(c, d)
      case None => true
      case Some(o) =>
        if o in gone then c.decisions[d].overrides && !c.scopes[ROOT].deniesOverride
        else !c.decisions[o].pinned
  {
    hide EffectiveDecisions, SlotsComplete, Registered;
    var purged := Purged(c, gone);
    RootChain(purged);
    var occupant := Slot(c.models, ROOT, c.decisions[d].subject);
    if occupant.Some? {
      assert IsActive(c, occupant.value);
    }
  }

  /** No occupant depends on another one. */
  ghost predicate Independent(c: Calculus, occupants: set<Id>) {
    forall o, q :: o in occupants && q in occupants && o != q ==> q !in Descendants(c, o)
  }

  /** Rows about different slots, none twice. */
  ghost predicate DistinctRows(c: Calculus, rows: seq<Id>) {
    DistinctSlots(c, Elements(rows)) && forall i, j :: 0 <= i < j < |rows| ==> rows[i] != rows[j]
  }

  /** With independent occupants the order is immaterial: root rows succeed exactly when no occupant
      is pinned. */
  lemma IndependentRows(c: Calculus, rows: seq<Id>)
    requires Indexed(c) && (forall d :: d in rows ==> RowReady(c, d) && c.decisions[d].scope == ROOT)
    requires DistinctRows(c, rows) && Independent(c, Occupants(c, Elements(rows)))
    ensures SupersedeAll(Pass(c, {}, {}), rows).Ok? <==>
      forall o :: o in Occupants(c, Elements(rows)) ==> o in c.decisions && !c.decisions[o].pinned
  {
    hide RowPasses, Descendants, Slotted, SupersedeAll, Independent, DistinctRows, GoneBefore;
    FirstPassExactly(c, rows);
    forall i | 0 <= i < |rows|
      ensures RowPasses(c, GoneBefore(c, rows, i), rows[i]) <==> MayYield(c, rows[i])
    {
      IndependentRow(c, rows, i);
    }
    YieldingOccupants(c, rows);
  }

  /** The occupant of its slot, if any, is not pinned. */
  predicate MayYield(c: Calculus, d: Id) {
    d in c.decisions
    && match OccupantOf(c, d)
       case None => true
       case Some(o) => o in c.decisions && !c.decisions[o].pinned
  }

  lemma YieldingOccupants(c: Calculus, rows: seq<Id>)
    requires forall d :: d in rows ==> RowReady(c, d)
    ensures (forall i :: 0 <= i < |rows| ==> MayYield(c, rows[i])) <==>
      forall o :: o in Occupants(c, Elements(rows)) ==> o in c.decisions && !c.decisions[o].pinned
  {
    hide OccupantOf;
    forall i | 0 <= i < |rows| ensures rows[i] in Elements(rows) && RowReady(c, rows[i])
      ensures OccupantOf(c, rows[i]).Some? ==> OccupantOf(c, rows[i]).value in Occupants(c, Elements(rows))
    {
      assert rows[i] in rows;
    }
    forall o | o in Occupants(c, Elements(rows))
      ensures exists i :: 0 <= i < |rows| && rows[i] in c.decisions && OccupantOf(c, rows[i]) == Some(o)
    {
      var d :| d in Elements(rows) && d in c.decisions && OccupantOf(c, d).Some? && OccupantOf(c, d).value == o;
      var i :| 0 <= i < |rows| && rows[i] == d;
    }
  }

  lemma IndependentRow(c: Calculus, rows: seq<Id>, i: nat)
    requires Indexed(c) && (forall d :: d in rows ==> RowReady(c, d) && c.decisions[d].scope == ROOT)
    requires DistinctRows(c, rows) && Independent(c, Occupants(c, Elements(rows))) && i < |rows|
    ensures RowPasses(c, GoneBefore(c, rows, i), rows[i]) <==> MayYield(c, rows[i])
  {
    hide RowPasses, Descendants, Slotted, Independent, DistinctRows, GoneBefore, OccupantOf;
    var d := rows[i];
    assert d in rows && RowReady(c, d);
    RootRowPasses(c, GoneBefore(c, rows, i), d);
    if OccupantOf(c, d).Some? {
      StillStands(c, rows, i, d);
      OccupantKnown(c, d);
    }
  }

  lemma OccupantKnown(c: Calculus, d: Id)
    requires Slotted(c) && d in c.decisions && OccupantOf(c, d).Some?
    ensures IsActive(c, OccupantOf(c, d).value)
    ensures SameSlot(c.decisions[OccupantOf(c, d).value], c.decisions[d])
  {
  }

  /** The occupant of a later row is not among what the earlier rows fell. */
  lemma {:induction false} StillStands(c: Calculus, rows: seq<Id>, n: nat, d: Id)
    requires Slotted(c) && (forall e :: e in rows ==> RowReady(c, e)) && n <= |rows|
    requires DistinctRows(c, rows) && Independent(c, Occupants(c, Elements(rows)))
    requires d in rows[n..] && d in c.decisions && OccupantOf(c, d).Some?
    ensures OccupantOf(c, d).value !in GoneBefore(c, rows, n)
  {
    hide Descendants, Slotted, OccupantOf, Fallen, Independent, DistinctRows;
    if n == 0 {
      NothingFallen(c);
    } else {
      var tops, e := Tops(c, rows, n - 1), rows[n - 1];
      assert rows[n - 1..] == [e] + rows[n..];
      StillStands(c, rows, n - 1, d);
      assert e in rows && RowReady(c, e);
      if Top(c, tops, e) == {} {
        assert tops + {} == tops;
      } else {
        OtherOccupant(c, rows, n, d);
        FallenUnion(c, tops, OccupantOf(c, e).value);
      }
    }
  }

  lemma OtherOccupant(c: Calculus, rows: seq<Id>, n: nat, d: Id)
    requires Slotted(c) && 0 < n <= |rows| && d in rows[n..] && d in c.decisions && rows[n - 1] in c.decisions
    requires DistinctRows(c, rows) && Independent(c, Occupants(c, Elements(rows)))
    requires OccupantOf(c, d).Some? && OccupantOf(c, rows[n - 1]).Some?
    ensures OccupantOf(c, d).value !in Descendants(c, OccupantOf(c, rows[n - 1]).value)
  {
    hide Descendants, Slotted, OccupantOf;
    var e := rows[n - 1];
    OccupantKnown(c, d);
    OccupantKnown(c, e);
    assert d in Elements(rows) && e in Elements(rows);
    assert OccupantOf(c, d).value in Occupants(c, Elements(rows));
    assert OccupantOf(c, e).value in Occupants(c, Elements(rows));
    assert !SameSlot(c.decisions[d], c.decisions[e]) by { RowsApart(c, rows, n, d); }
  }

  lemma RowsApart(c: Calculus, rows: seq<Id>, n: nat, d: Id)
    requires 0 < n <= |rows| && d in rows[n..] && d in c.decisions && rows[n - 1] in c.decisions
    requires DistinctRows(c, rows)
    ensures !SameSlot(c.decisions[d], c.decisions[rows[n - 1]])
  {
    var j :| n <= j < |rows| && rows[j] == d;
    assert rows[n - 1] != rows[j];
  }

  lemma FallenUnion(c: Calculus, tops: set<Id>, o: Id)
    ensures Fallen(c, tops + {o}) == Fallen(c, tops) + Descendants(c, o)
  {
    ClosureUnion(DependentEdges(c), tops, {o});
  }

  lemma ClosureUnion(g: Graph, some: set<Id>, more: set<Id>)
    ensures Closure(g, some + more) == Closure(g, some) + Closure(g, more)
  {
    assert Closed(g, Closure(g, some) + Closure(g, more));
    ClosureMonotone(g, g, some, some + more);
    ClosureMonotone(g, g, more, some + more);
  }
}
