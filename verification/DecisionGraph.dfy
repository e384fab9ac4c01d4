/** Dependent closures and causal roots of decisions (`_calculus_logic.py`). */
module DecisionGraph {
  import opened Foundations
  import opened CalculusModel
  import opened Reachability

  predicate Causal(r: Relation) {
    r.DependsOn? || r.Derives?
  }

  /** From a decision to its ACTIVE children, and along every causal edge whatever the status. */
  function DependentEdges(c: Calculus): Graph {
    (set d, p | d in c.decisions && c.decisions[d].status.Active? && p in c.decisions[d].parents :: (p, d))
    + CausalPairs(c.edges)
  }

  function CausalPairs(edges: seq<Edge>): Graph {
    set e | e in edges && Causal(e.relation) :: (e.src, e.dst)
  }

  /** `decision_descendants`, the decision itself included. */
  ghost function Descendants(c: Calculus, root: Id): set<Id> {
    Closure(DependentEdges(c), {root})
  }

  function Children(children: map<Id, set<Id>>, p: Id): set<Id> {
    if p in children then children[p] else {}
  }

  function AddChild(children: map<Id, set<Id>>, p: Id, d: Id): (r: map<Id, set<Id>>)
    ensures forall x, y :: y in Children(r, x) <==> y in Children(children, x) || (y == d && x == p)
  {
    children[p := Children(children, p) + {d}]
  }

  method AddParents(children: map<Id, set<Id>>, parents: set<Id>, d: Id) returns (r: map<Id, set<Id>>)
    ensures forall x, y :: y in Children(r, x) <==> y in Children(children, x) || (y == d && x in parents)
  {
    hide AddChild, Children;
    r := children;
    var rest := parents;
    while rest != {}
      invariant rest <= parents
      invariant forall x, y :: y in Children(r, x) <==>
        y in Children(children, x) || (y == d && x in parents && x !in rest)
      decreases rest
    {
      var p :| p in rest;
      rest := rest - {p};
      r := AddChild(r, p, d);
    }
  }

  /** `_active_decision_children`. */
  method ActiveDecisionChildren(c: Calculus) returns (children: map<Id, set<Id>>)
    ensures Represents(children, DependentEdges(c))
  {
    children := map d | d in c.decisions :: {};
    var rest := c.decisions.Keys;
    while rest != {}
      invariant rest <= c.decisions.Keys
      invariant forall x, y :: y in Children(children, x) <==>
        y in c.decisions && y !in rest && c.decisions[y].status.Active? && x in c.decisions[y].parents
      decreases rest
    {
      var d :| d in rest;
      rest := rest - {d};
      if c.decisions[d].status.Active? {
        children := AddParents(children, c.decisions[d].parents, d);
      }
    }
    ghost var byParent := children;
    for i := 0 to |c.edges|
      invariant forall x, y :: y in Children(children, x) <==>
        y in Children(byParent, x) || (x, y) in CausalPairs(c.edges[..i])
    {
      var e := c.edges[i];
      assert c.edges[..i + 1] == c.edges[..i] + [e];
      if Causal(e.relation) {
        children := AddChild(children, e.src, e.dst);
      }
    }
    assert c.edges[..|c.edges|] == c.edges;
    forall x, y ensures (x, y) in DependentEdges(c) <==> y in Children(children, x) {
    }
  }

  method DecisionDescendants(c: Calculus, root: Id) returns (seen: set<Id>)
    ensures seen == Descendants(c, root)
  {
    var children := ActiveDecisionChildren(c);
    seen := Worklist(children, root, DependentEdges(c));
  }

  /** Descendants of a registered decision are registered. */
  lemma DescendantsRegistered(c: Calculus, root: Id)
    requires Registered(c) && root in c.decisions
    ensures Descendants(c, root) <= c.decisions.Keys
  {
    assert Closed(DependentEdges(c), c.decisions.Keys);
  }

  /** Nothing in the root scope rests on a decision of another scope. */
  ghost predicate FlowsDown(c: Calculus) {
    && (forall d, p :: d in c.decisions && c.decisions[d].scope == ROOT && p in c.decisions[d].parents && p in c.decisions ==>
          c.decisions[p].scope == ROOT)
    && (forall e :: e in c.edges && Causal(e.relation) && e.src in c.decisions && e.dst in c.decisions ==>
          c.decisions[e.dst].scope == ROOT ==> c.decisions[e.src].scope == ROOT)
  }

  /** Then only decisions of other scopes depend on a decision of another scope. */
  lemma DependentsStayBelow(c: Calculus, root: Id)
    requires Registered(c) && FlowsDown(c) && root in c.decisions && c.decisions[root].scope != ROOT
    ensures forall d :: d in Descendants(c, root) ==> d in c.decisions && c.decisions[d].scope != ROOT
  {
    var below := set d | d in c.decisions && c.decisions[d].scope != ROOT;
    forall e | e in DependentEdges(c) && e.0 in below ensures e.1 in below {
      StaysBelow(c, e);
    }
    assert {root} <= below && Closed(DependentEdges(c), below);
  }

  lemma StaysBelow(c: Calculus, e: (Id, Id))
    requires Registered(c) && FlowsDown(c) && e in DependentEdges(c)
    requires e.0 in c.decisions && c.decisions[e.0].scope != ROOT
    ensures e.1 in c.decisions && c.decisions[e.1].scope != ROOT
  {
  }

  // ----- causal roots -----

  function KnownParents(c: Calculus, d: Id): set<Id>
    requires d in c.decisions
  {
    c.decisions[d].parents * c.decisions.Keys
  }

  /** A derived decision is explained by its known parents, if it has any. */
  predicate Derivative(c: Calculus, d: Id) {
    d in c.decisions && c.decisions[d].kind.Derived? && KnownParents(c, d) != {}
  }

  function DerivationEdges(c: Calculus): Graph {
    set d, p | d in c.decisions && Derivative(c, d) && p in KnownParents(c, d) :: (d, p)
  }

  /** The known decisions at which the upward walk from `d` stops. */
  ghost function Roots(c: Calculus, d: Id): set<Id> {
    set x | x in Closure(DerivationEdges(c), {d}) && x in c.decisions && !Derivative(c, x)
  }

  /** What a visit owes its caller: the nodes it newly marks are exactly accounted for. */
  ghost predicate Visited(c: Calculus, from: set<Id>, before: set<Id>, after: set<Id>, found: set<Id>) {
    && before <= after <= before + Closure(DerivationEdges(c), from)
    && (forall e :: e in DerivationEdges(c) && e.0 in after && e.0 !in before ==> e.1 in after)
    && found == set x | x in after && x !in before && x in c.decisions && !Derivative(c, x)
  }

  /** The recursive `visit`, whose `seen` set is shared by the whole walk. */
  method Visit(c: Calculus, current: Id, before: set<Id>) returns (seen: set<Id>, roots: set<Id>)
    ensures Visited(c, {current}, before, seen, roots) && current in seen
    decreases c.decisions.Keys - before, 0
  {
    if current in before {
      return before, {};
    }
    seen := before + {current};
    if current !in c.decisions {
      return seen, {};
    }
    if !Derivative(c, current) {
      assert Closed(DerivationEdges(c), {current});
      return seen, {current};
    }
    seen, roots := VisitParents(c, current, KnownParents(c, current), seen);
    forall p | p in KnownParents(c, current) ensures (current, p) in DerivationEdges(c) {
    }
  }

  method VisitParents(c: Calculus, child: Id, parents: set<Id>, before: set<Id>)
    returns (seen: set<Id>, roots: set<Id>)
    requires Derivative(c, child) && parents <= KnownParents(c, child)
    ensures Visited(c, {child}, before, seen, roots) && parents <= seen
    decreases c.decisions.Keys - before, 1
  {
    seen, roots := before, {};
    var rest := parents;
    while rest != {}
      invariant rest <= parents
      invariant Visited(c, {child}, before, seen, roots)
      invariant parents - rest <= seen
      decreases rest
    {
      var p :| p in rest;
      rest := rest - {p};
      assert (child, p) in DerivationEdges(c);
      ClosureNested(DerivationEdges(c), child, p);
      var found;
      seen, found := Visit(c, p, seen);
      roots := roots + found;
    }
  }

  /** `causal_roots`. */
  method CausalRoots(c: Calculus, d: Id) returns (roots: set<Id>)
    ensures roots == Roots(c, d)
  {
    var seen;
    seen, roots := Visit(c, d, {});
    assert Closed(DerivationEdges(c), seen);
  }

  // ----- dependents and roots, one step at a time -----

  /** A decision depends directly on another one when a DEPENDS_ON or DERIVES edge says so, or when it is
      ACTIVE and has it as a parent, and in no other way. */
  lemma DirectDependents(c: Calculus, p: Id, d: Id)
    ensures (p, d) in DependentEdges(c) <==>
      || (d in c.decisions && c.decisions[d].status == Active && p in c.decisions[d].parents)
      || Edge(p, d, DependsOn) in c.edges || Edge(p, d, Derives) in c.edges
  {
    if (p, d) in CausalPairs(c.edges) {
      var e :| e in c.edges && Causal(e.relation) && (e.src, e.dst) == (p, d);
      assert e == Edge(p, d, e.relation);
    }
    forall r | Edge(p, d, r) in c.edges && Causal(r) ensures (p, d) in CausalPairs(c.edges) {
      assert (Edge(p, d, r).src, Edge(p, d, r).dst) == (p, d);
    }
  }

  /** A decision that is not derived, or has no known parent, is its own only causal root. */
  lemma RootsOfGiven(c: Calculus, d: Id)
    requires d in c.decisions
    requires c.decisions[d].kind != Derived || forall p :: p in c.decisions[d].parents ==> p !in c.decisions
    ensures Roots(c, d) == {d}
  {
    assert KnownParents(c, d) == {} || !c.decisions[d].kind.Derived?;
    assert Closed(DerivationEdges(c), {d});
    ClosureUnique(DerivationEdges(c), {d}, {d});
  }

  /** The causal roots of a derived decision with known parents are those of its known parents. */
  lemma RootsOfDerived(c: Calculus, d: Id, x: Id)
    requires d in c.decisions && c.decisions[d].kind == Derived
    requires exists p :: p in c.decisions[d].parents && p in c.decisions
    ensures x in Roots(c, d) <==> exists p :: p in c.decisions[d].parents && p in c.decisions && x in Roots(c, p)
  {
    var known := KnownParents(c, d);
    var w :| w in c.decisions[d].parents && w in c.decisions;
    assert w in known && Derivative(c, d);
    DerivedClosure(c, d, x);
  }

  lemma DerivedClosure(c: Calculus, d: Id, x: Id)
    requires Derivative(c, d)
    ensures x in Closure(DerivationEdges(c), {d}) <==>
      x == d || exists p :: p in KnownParents(c, d) && x in Closure(DerivationEdges(c), {p})
  {
    forall y ensures (d, y) in DerivationEdges(c) <==> y in KnownParents(c, d) {
    }
    ClosureFromNode(DerivationEdges(c), d, KnownParents(c, d), x);
  }

  /** Causal roots are on record, and an unknown decision has none. */
  lemma RootsAreKnown(c: Calculus, d: Id)
    ensures Roots(c, d) <= c.decisions.Keys
    ensures d !in c.decisions ==> Roots(c, d) == {}
  {
    if d !in c.decisions {
      assert Closed(DerivationEdges(c), {d});
      ClosureUnique(DerivationEdges(c), {d}, {d});
    }
  }
}
