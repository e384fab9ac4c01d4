/** Which scopes a backjump invalidates and which it only asks to revalidate
    (`dependency_impacted_scopes` of `_scopes_projection.py`). */
module ScopeImpact {
  import opened Foundations
  import opened CalculusModel
  import opened Reachability
  import opened Scopes

  /** Dependencies as validation admits them: known endpoints, and nothing upstream of the root. */
  ghost predicate SaneDependencies(scopes: map<Id, Scope>, deps: map<Id, ScopeDependency>) {
    forall k :: k in deps ==>
      deps[k].upstream in scopes && deps[k].downstream in scopes && deps[k].downstream != ROOT
  }

  /** Impact travels to the downstream scope, and to its whole subtree when the dependency says
      INVALIDATE. */
  ghost function SpreadEdges(scopes: map<Id, Scope>, deps: map<Id, ScopeDependency>): Graph {
    (set k | k in deps && deps[k].policy.Revalidate? :: (deps[k].upstream, deps[k].downstream))
    + (set k, s | k in deps && deps[k].policy.Invalidate? && s in Subtree(scopes, deps[k].downstream)
         :: (deps[k].upstream, s))
  }

  /** All scopes touched by a change in `origin`. */
  ghost function Impacted(scopes: map<Id, Scope>, deps: map<Id, ScopeDependency>, origin: Id): set<Id> {
    Closure(SpreadEdges(scopes, deps), Subtree(scopes, origin))
  }

  /** The touched scopes reached by hierarchy or by an INVALIDATE dependency. */
  ghost function InvalidatedScopes(scopes: map<Id, Scope>, deps: map<Id, ScopeDependency>, origin: Id): set<Id> {
    Subtree(scopes, origin)
    + (set k, s | k in deps && deps[k].policy.Invalidate? && deps[k].upstream in Impacted(scopes, deps, origin)
         && s in Subtree(scopes, deps[k].downstream) :: s)
  }

  ghost predicate Satisfied(scopes: map<Id, Scope>, d: ScopeDependency, invalid: set<Id>, revalid: set<Id>) {
    d.upstream in invalid + revalid ==>
      && (d.policy.Invalidate? ==> Subtree(scopes, d.downstream) <= invalid)
      && (d.policy.Revalidate? ==> d.downstream in invalid + revalid)
  }

  ghost predicate Bounded(scopes: map<Id, Scope>, deps: map<Id, ScopeDependency>, origin: Id,
                          invalid: set<Id>, revalid: set<Id>) {
    && Subtree(scopes, origin) <= invalid <= InvalidatedScopes(scopes, deps, origin)
    && invalid + revalid <= Impacted(scopes, deps, origin)
  }

  /** One dependency's contribution to the current round. */
  method Spread(scopes: map<Id, Scope>, deps: map<Id, ScopeDependency>, origin: Id, k: Id,
                before: set<Id>, pending: set<Id>)
    returns (invalid: set<Id>, revalid: set<Id>)
    requires SaneDependencies(scopes, deps) && k in deps && Bounded(scopes, deps, origin, before, pending)
    ensures Bounded(scopes, deps, origin, invalid, revalid)
    ensures before <= invalid && pending <= revalid
    ensures Satisfied(scopes, deps[k], invalid, revalid)
    ensures Satisfied(scopes, deps[k], before, pending) ==> invalid == before && revalid == pending
  {
    invalid, revalid := before, pending;
    var d := deps[k];
    if d.upstream !in invalid && d.upstream !in revalid {
      return;
    }
    match d.policy {
      case Ignore =>
      case Invalidate =>
        var below := ScopeDescendants(scopes, d.downstream);
        forall s | s in below.value ensures s in Impacted(scopes, deps, origin) {
          assert (d.upstream, s) in SpreadEdges(scopes, deps);
        }
        invalid := invalid + below.value;
      case Revalidate =>
        assert (d.upstream, d.downstream) in SpreadEdges(scopes, deps);
        if d.downstream !in invalid && d.downstream !in revalid {
          revalid := revalid + {d.downstream};
        }
    }
  }

  /** One sweep over all dependencies. */
  method Sweep(scopes: map<Id, Scope>, deps: map<Id, ScopeDependency>, origin: Id, before: set<Id>, pending: set<Id>)
    returns (invalid: set<Id>, revalid: set<Id>)
    requires SaneDependencies(scopes, deps) && Bounded(scopes, deps, origin, before, pending)
    ensures Bounded(scopes, deps, origin, invalid, revalid)
    ensures before <= invalid && pending <= revalid
    ensures invalid == before && revalid == pending ==>
      forall k :: k in deps ==> Satisfied(scopes, deps[k], before, pending)
  {
    invalid, revalid := before, pending;
    var rest := deps.Keys;
    while rest != {}
      invariant rest <= deps.Keys
      invariant Bounded(scopes, deps, origin, invalid, revalid)
      invariant before <= invalid && pending <= revalid
      invariant invalid == before && revalid == pending ==>
        forall k :: k in deps && k !in rest ==> Satisfied(scopes, deps[k], before, pending)
      decreases rest
    {
      var k :| k in rest;
      rest := rest - {k};
      invalid, revalid := Spread(scopes, deps, origin, k, invalid, revalid);
    }
  }

  /** A satisfied pair is exactly the invalidated and the merely touched scopes. */
  lemma SatisfiedIsExact(scopes: map<Id, Scope>, deps: map<Id, ScopeDependency>, origin: Id,
                       invalid: set<Id>, revalid: set<Id>)
    requires Bounded(scopes, deps, origin, invalid, revalid)
    requires forall k :: k in deps ==> Satisfied(scopes, deps[k], invalid, revalid)
    ensures invalid + revalid == Impacted(scopes, deps, origin)
    ensures invalid == InvalidatedScopes(scopes, deps, origin)
  {
    assert Closed(SpreadEdges(scopes, deps), invalid + revalid);
  }

  /** `dependency_impacted_scopes`. */
  method DependencyImpactedScopes(scopes: map<Id, Scope>, deps: map<Id, ScopeDependency>, origin: Id)
    returns (invalid: set<Id>, revalid: set<Id>)
    requires origin in scopes && SaneDependencies(scopes, deps)
    ensures invalid == InvalidatedScopes(scopes, deps, origin)
    ensures revalid == Impacted(scopes, deps, origin) - invalid
  {
    var subtree := ScopeDescendants(scopes, origin);
    invalid, revalid := subtree.value, {};
    ghost var goal := Impacted(scopes, deps, origin);
    var changed := true;
    while changed
      invariant Bounded(scopes, deps, origin, invalid, revalid)
      invariant !changed ==> forall k :: k in deps ==> Satisfied(scopes, deps[k], invalid, revalid)
      decreases goal - invalid, goal - revalid, changed
    {
      var before, pending := invalid, revalid;
      invalid, revalid := Sweep(scopes, deps, origin, before, pending);
      changed := invalid != before || revalid != pending;
      if invalid != before {
        assert exists s :: s in invalid && s !in before;
        assert goal - invalid < goal - before;
      } else if revalid != pending {
        assert exists s :: s in revalid && s !in pending;
        assert goal - revalid < goal - pending;
      }
    }
    SatisfiedIsExact(scopes, deps, origin, invalid, revalid);
    revalid := revalid - invalid;
  }

  /** Impact never reaches the root, and stays within the registered scopes. */
  lemma ImpactSparesRoot(scopes: map<Id, Scope>, deps: map<Id, ScopeDependency>, origin: Id)
    requires RootRecord(scopes) && SaneDependencies(scopes, deps) && origin in scopes && origin != ROOT
    ensures ROOT !in Impacted(scopes, deps, origin) && Impacted(scopes, deps, origin) <= scopes.Keys
  {
    var below := scopes.Keys - {ROOT};
    forall s | s in below ensures Subtree(scopes, s) <= below {
      SubtreeSparesRoot(scopes, s);
    }
    forall e | e in SpreadEdges(scopes, deps) && e.0 in below ensures e.1 in below {
      SpreadStays(scopes, deps, e, below);
    }
  }

  lemma SpreadStays(scopes: map<Id, Scope>, deps: map<Id, ScopeDependency>, e: (Id, Id), below: set<Id>)
    requires SaneDependencies(scopes, deps) && e in SpreadEdges(scopes, deps) && below == scopes.Keys - {ROOT}
    requires forall s :: s in below ==> Subtree(scopes, s) <= below
    ensures e.1 in below
  {
    hide Subtree;
  }

  lemma InvalidatedAreImpacted(scopes: map<Id, Scope>, deps: map<Id, ScopeDependency>, origin: Id)
    ensures InvalidatedScopes(scopes, deps, origin) <= Impacted(scopes, deps, origin)
  {
    forall k, s | k in deps && deps[k].policy.Invalidate? && deps[k].upstream in Impacted(scopes, deps, origin)
      && s in Subtree(scopes, deps[k].downstream)
      ensures s in Impacted(scopes, deps, origin)
    {
      assert (deps[k].upstream, s) in SpreadEdges(scopes, deps);
    }
  }

  // ----- the three policies -----

  /** An IGNORE dependency has no effect whatever. */
  lemma IgnoreIsInert(scopes: map<Id, Scope>, deps: map<Id, ScopeDependency>, k: Id, origin: Id)
    requires k in deps && deps[k].policy == Ignore
    ensures Impacted(scopes, deps - {k}, origin) == Impacted(scopes, deps, origin)
    ensures InvalidatedScopes(scopes, deps - {k}, origin) == InvalidatedScopes(scopes, deps, origin)
  {
    hide Subtree;
    var fewer := deps - {k};
    assert forall m :: m in fewer <==> m in deps && m != k;
    assert SpreadEdges(scopes, fewer) == SpreadEdges(scopes, deps);
    assert InvalidatedScopes(scopes, fewer, origin) == InvalidatedScopes(scopes, deps, origin);
  }

  /** An INVALIDATE dependency takes the whole subtree below its downstream scope, a REVALIDATE dependency
      touches that scope alone. */
  lemma PoliciesSpread(scopes: map<Id, Scope>, deps: map<Id, ScopeDependency>, k: Id, origin: Id)
    requires k in deps && deps[k].upstream in Impacted(scopes, deps, origin)
    ensures deps[k].policy == Invalidate ==> Subtree(scopes, deps[k].downstream) <= InvalidatedScopes(scopes, deps, origin)
    ensures deps[k].policy == Revalidate ==> deps[k].downstream in Impacted(scopes, deps, origin)
  {
    hide Subtree;
    assert deps[k].policy == Revalidate ==> (deps[k].upstream, deps[k].downstream) in SpreadEdges(scopes, deps);
  }

  /** Without INVALIDATE dependencies nothing is invalidated beyond the origin's own subtree, and nothing
      touched beyond it but the downstream scopes of REVALIDATE dependencies. */
  lemma RevalidationStaysShallow(scopes: map<Id, Scope>, deps: map<Id, ScopeDependency>, origin: Id)
    requires forall k :: k in deps ==> deps[k].policy != Invalidate
    ensures InvalidatedScopes(scopes, deps, origin) == Subtree(scopes, origin)
    ensures forall s :: s in Impacted(scopes, deps, origin) && s !in Subtree(scopes, origin) ==>
      exists k :: k in deps && deps[k].policy == Revalidate && deps[k].downstream == s
  {
    hide Subtree;
    var edges := SpreadEdges(scopes, deps);
    forall s | s in Impacted(scopes, deps, origin) && s !in Subtree(scopes, origin)
      ensures exists k :: k in deps && deps[k].policy == Revalidate && deps[k].downstream == s
    {
      assert s in Targets(edges);
      var e :| e in edges && e.1 == s;
    }
  }
}
