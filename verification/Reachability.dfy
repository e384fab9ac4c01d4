/** Least closures in finite directed graphs, and the worklist that computes them. */
module Reachability {
  import opened Foundations

  type Graph = set<(Id, Id)>

  ghost predicate Closed(g: Graph, s: set<Id>) {
    forall e :: e in g && e.0 in s ==> e.1 in s
  }

  /** `s` is the least set that contains `from` and is closed under the edges of `g`. */
  ghost predicate IsLeastClosure(g: Graph, from: set<Id>, s: set<Id>) {
    from <= s && Closed(g, s) && forall t :: from <= t && Closed(g, t) ==> s <= t
  }

  function Targets(g: Graph): set<Id> {
    set e | e in g :: e.1
  }

  ghost function Closure(g: Graph, from: set<Id>): (s: set<Id>)
    ensures IsLeastClosure(g, from, s)
    ensures s <= from + Targets(g)
    decreases Targets(g) - from
  {
    if e :| e in g && e.0 in from && e.1 !in from then
      assert e.1 in Targets(g);
      Closure(g, from + {e.1})
    else
      from
  }

  lemma ClosureUnique(g: Graph, from: set<Id>, s: set<Id>)
    requires IsLeastClosure(g, from, s)
    ensures s == Closure(g, from)
  {
  }

  /** Starting from inside a closure never leads outside it. */
  lemma ClosureNested(g: Graph, x: Id, y: Id)
    requires y in Closure(g, {x})
    ensures Closure(g, {y}) <= Closure(g, {x})
  {
    assert {y} <= Closure(g, {x});
  }

  lemma ClosureMonotone(g: Graph, h: Graph, from: set<Id>, more: set<Id>)
    requires g <= h && from <= more
    ensures Closure(g, from) <= Closure(h, more)
  {
    assert Closed(g, Closure(h, more));
  }

  /** The `children` dictionary of the source represents the graph. */
  ghost predicate Represents(children: map<Id, set<Id>>, g: Graph) {
    forall x, y :: (x, y) in g <==> x in children && y in children[x]
  }

  /** The `seen`/`todo` worklist of `decision_descendants` and `scope_descendants`. */
  method Worklist(children: map<Id, set<Id>>, root: Id, ghost g: Graph) returns (seen: set<Id>)
    requires Represents(children, g)
    ensures seen == Closure(g, {root})
  {
    seen := {root};
    var todo := [root];
    ghost var goal := Closure(g, {root});
    while todo != []
      invariant root in seen && seen <= goal
      invariant forall x :: x in todo ==> x in seen
      invariant forall e :: e in g && e.0 in seen && e.0 !in todo ==> e.1 in seen
      decreases goal - seen, |todo|
    {
      var current := todo[|todo| - 1];
      ghost var rest := todo;
      todo := todo[..|todo| - 1];
      assert forall x :: x in rest <==> x in todo || x == current by {
        assert rest == todo + [current];
      }
      var pending := if current in children then children[current] else {};
      ghost var before := seen;
      ghost var kept := todo;
      while pending != {}
        invariant pending <= if current in children then children[current] else {}
        invariant before <= seen <= goal
        invariant forall x :: x in kept ==> x in todo
        invariant forall x :: x in todo ==> x in seen
        invariant forall x :: x in seen ==> x in before || x in todo
        invariant forall y :: (current, y) in g && y !in pending ==> y in seen
        invariant seen == before ==> todo == kept
        decreases pending
      {
        var child :| child in pending;
        pending := pending - {child};
        if child !in seen {
          assert (current, child) in g;
          seen := seen + {child};
          todo := todo + [child];
        }
      }
      if seen != before {
        assert exists x :: x in seen && x !in before;
        assert goal - seen < goal - before;
      }
    }
    assert Closed(g, seen);
  }

  /** What a node reaches is itself and what its successors reach. */
  lemma ClosureFromNode(g: Graph, d: Id, next: set<Id>, x: Id)
    requires forall y :: (d, y) in g <==> y in next
    ensures x in Closure(g, {d}) <==> x == d || exists p :: p in next && x in Closure(g, {p})
  {
    forall p | p in next ensures Closure(g, {p}) <= Closure(g, {d}) {
      assert (d, p) in g;
      ClosureNested(g, d, p);
    }
    var all := set y | y in Closure(g, {d}) && (y == d || FromSome(g, next, y));
    forall e | e in g && e.0 in all ensures e.1 in all {
      NextFromSome(g, d, next, e);
    }
    assert {d} <= all && Closed(g, all);
  }

  ghost predicate FromSome(g: Graph, next: set<Id>, y: Id) {
    exists p :: p in next && y in Closure(g, {p})
  }

  lemma NextFromSome(g: Graph, d: Id, next: set<Id>, e: (Id, Id))
    requires forall y :: (d, y) in g <==> y in next
    requires e in g && (e.0 == d || FromSome(g, next, e.0))
    ensures FromSome(g, next, e.1)
  {
    if e.0 == d {
      assert (d, e.1) in g && e.1 in Closure(g, {e.1});
    } else {
      var p :| p in next && e.0 in Closure(g, {p});
      assert e.1 in Closure(g, {p});
    }
  }
}
