/** Scope inheritance and the effective model of a scope (`_scopes_graph.py`, `_scopes_projection.py`). */
module Scopes {
  import opened Foundations
  import opened CalculusModel
  import opened Reachability

  function ScopedKey(scope: Id, subject: Id): Id {
    if scope == ROOT then subject else scope + "::" + subject
  }

  /** Within one scope the key determines the subject. */
  lemma ScopedKeyInjective(scope: Id, x: Id, y: Id)
    requires ScopedKey(scope, x) == ScopedKey(scope, y)
    ensures x == y
  {
    if scope != ROOT {
      var p := scope + "::";
      assert x == (p + x)[|p|..] && y == (p + y)[|p|..];
    }
  }

  /** `scope_ancestors`: the chain from the top of the hierarchy down to `scope`. */
  function Ancestors(scopes: map<Id, Scope>, scope: Id, seen: set<Id> := {}): Result<seq<Id>>
    decreases scopes.Keys - seen
  {
    if scope !in scopes then Err(KeyError(scope))
    else if scope in seen then Err(ValueError("scope hierarchy cycle"))
    else match scopes[scope].parent
      case None => Ok([scope])
      case Some(p) =>
        var above :- Ancestors(scopes, p, seen + {scope});
        Ok(above + [scope])
  }

  /** The last isolated scope of the chain cuts off everything above it. */
  function ChainStart(scopes: map<Id, Scope>, chain: seq<Id>): (i: nat)
    ensures chain != [] ==> i < |chain|
  {
    if |chain| <= 1 then 0
    else
      var last := chain[|chain| - 1];
      if last in scopes && scopes[last].isolated then |chain| - 1
      else ChainStart(scopes, chain[..|chain| - 1])
  }

  /** `inheritance_chain`. A cyclic hierarchy, which validation rejects before any use, has none. */
  function InheritanceChain(scopes: map<Id, Scope>, scope: Id): seq<Id> {
    match Ancestors(scopes, scope)
    case Err(_) => []
    case Ok(chain) => chain[if chain == [] then 0 else ChainStart(scopes, chain)..]
  }

  /** What one scope of a chain contributes. Projections read the root layer from `active_model`. */
  function Layer(c: Calculus, scope: Id): map<Id, Id> {
    if scope !in c.scopes || !c.scopes[scope].status.ActiveScope? then NO_MODEL
    else if scope == ROOT then c.activeModel
    else if scope in c.models then c.models[scope]
    else NO_MODEL
  }

  function Overlay(c: Calculus, chain: seq<Id>): map<Id, Id> {
    if chain == [] then NO_MODEL
    else Overlay(c, chain[..|chain| - 1]) + Layer(c, chain[|chain| - 1])
  }

  /** `effective_scope_decisions`: lower scopes override what they inherit. */
  function EffectiveDecisions(c: Calculus, scope: Id): map<Id, Id> {
    Overlay(c, InheritanceChain(c.scopes, scope))
  }

  function ActiveValues(c: Calculus, model: map<Id, Id>): map<Id, Value> {
    map x | x in model && IsActive(c, model[x]) :: c.decisions[model[x]].value
  }

  /** `effective_scope_values`. */
  function EffectiveValues(c: Calculus, scope: Id): map<Id, Value> {
    ActiveValues(c, EffectiveDecisions(c, scope))
  }

  /** The root scope inherits nothing: its values are those of `active_model`. */
  lemma RootChain(c: Calculus)
    requires RootRecord(c.scopes)
    ensures InheritanceChain(c.scopes, ROOT) == [ROOT]
    ensures EffectiveDecisions(c, ROOT) == c.activeModel
    ensures EffectiveValues(c, ROOT) == ActiveValues(c, c.activeModel)
  {
    hide Ancestors, Overlay, Layer;
    var chain := [ROOT];
    RootAncestry(c.scopes);
    RootOverlay(c);
    assert chain[0..] == chain;
  }

  lemma RootAncestry(scopes: map<Id, Scope>)
    requires RootRecord(scopes)
    ensures Ancestors(scopes, ROOT) == Ok([ROOT]) && InheritanceChain(scopes, ROOT) == [ROOT]
  {
    assert [ROOT][0..] == [ROOT];
  }

  lemma RootOverlay(c: Calculus)
    requires RootRecord(c.scopes)
    ensures Overlay(c, [ROOT]) == c.activeModel
  {
    assert [ROOT][..0] == [];
    assert Overlay(c, [ROOT]) == Overlay(c, []) + Layer(c, ROOT);
  }

  /** The fields that effective values read. */
  ghost predicate SameProjection(c: Calculus, c': Calculus) {
    && c'.scopes == c.scopes && c'.models == c.models && c'.activeModel == c.activeModel
    && c'.decisions.Keys == c.decisions.Keys
    && forall d :: d in c.decisions ==>
      c'.decisions[d].status == c.decisions[d].status && c'.decisions[d].value == c.decisions[d].value
  }

  lemma {:induction false} OverlayFrame(c: Calculus, c': Calculus, chain: seq<Id>)
    requires SameProjection(c, c')
    ensures Overlay(c', chain) == Overlay(c, chain)
  {
    if chain != [] {
      OverlayFrame(c, c', chain[..|chain| - 1]);
    }
  }

  lemma EffectiveFrame(c: Calculus, c': Calculus, scope: Id)
    requires SameProjection(c, c')
    ensures EffectiveDecisions(c', scope) == EffectiveDecisions(c, scope)
    ensures EffectiveValues(c', scope) == EffectiveValues(c, scope)
  {
    OverlayFrame(c, c', InheritanceChain(c.scopes, scope));
  }

  /** An effective entry comes from the layer of some scope of the chain. */
  lemma {:induction false} OverlaySource(c: Calculus, chain: seq<Id>, x: Id) returns (s: Id)
    requires x in Overlay(c, chain)
    ensures s in chain && x in Layer(c, s) && Layer(c, s)[x] == Overlay(c, chain)[x]
  {
    var last := chain[|chain| - 1];
    if x in Layer(c, last) {
      s := last;
    } else {
      s := OverlaySource(c, chain[..|chain| - 1], x);
    }
  }

  /** Every effective decision of a committed state is ACTIVE, is about the subject it is listed
      under, and is listed in the slot of its own scope. */
  lemma EffectiveDecisionsActive(c: Calculus, scope: Id, x: Id)
    requires Indexed(c) && x in EffectiveDecisions(c, scope)
    ensures var d := EffectiveDecisions(c, scope)[x];
      IsActive(c, d) && c.decisions[d].subject == x && Slot(c.models, c.decisions[d].scope, x) == Some(d)
    ensures x in EffectiveValues(c, scope)
  {
    var s := OverlaySource(c, InheritanceChain(c.scopes, scope), x);
    assert s in c.models && c.models[s] == Layer(c, s);
  }

  // ----- scope subtrees and their dependencies -----

  function ScopeTree(scopes: map<Id, Scope>): Graph {
    set s | s in scopes && scopes[s].parent.Some? :: (scopes[s].parent.value, s)
  }

  /** `scope_descendants`, the scope itself included. */
  ghost function Subtree(scopes: map<Id, Scope>, scope: Id): set<Id> {
    Closure(ScopeTree(scopes), {scope})
  }

  method ScopeDescendants(scopes: map<Id, Scope>, scope: Id) returns (r: Result<set<Id>>)
    ensures r.Ok? <==> scope in scopes
    ensures r.Ok? ==> r.value == Subtree(scopes, scope)
  {
    if scope !in scopes {
      return Err(KeyError(scope));
    }
    var children: map<Id, set<Id>> := map[];
    var rest := scopes.Keys;
    while rest != {}
      invariant rest <= scopes.Keys
      invariant forall x, y :: x in children && y in children[x] <==>
          y in scopes && y !in rest && scopes[y].parent == Some(x)
      decreases rest
    {
      var s :| s in rest;
      rest := rest - {s};
      match scopes[s].parent {
        case None =>
        case Some(p) =>
          children := children[p := (if p in children then children[p] else {}) + {s}];
      }
    }
    assert Represents(children, ScopeTree(scopes)) by {
      forall x, y ensures (x, y) in ScopeTree(scopes) <==> x in children && y in children[x] {
        assert (x, y) in ScopeTree(scopes) <==> y in scopes && scopes[y].parent == Some(x);
      }
    }
    var seen := Worklist(children, scope, ScopeTree(scopes));
    return Ok(seen);
  }

  /** Nothing below a proper scope is the root. */
  lemma SubtreeSparesRoot(scopes: map<Id, Scope>, scope: Id)
    requires RootRecord(scopes) && scope in scopes && scope != ROOT
    ensures ROOT !in Subtree(scopes, scope) && Subtree(scopes, scope) <= scopes.Keys
  {
    var below := scopes.Keys - {ROOT};
    assert Closed(ScopeTree(scopes), below) by {
      forall e | e in ScopeTree(scopes) && e.0 in below ensures e.1 in below {
      }
    }
  }

  // ----- flow between scopes -----

  function DependencyEdges(deps: map<Id, ScopeDependency>): Graph {
    EdgesOf(deps, deps.Keys)
  }

  function EdgesOf(deps: map<Id, ScopeDependency>, keys: set<Id>): Graph {
    set k | k in keys && k in deps :: (deps[k].upstream, deps[k].downstream)
  }

  /** `scope_flow_allowed`: within a scope, down the inheritance chain, or along dependencies. */
  ghost predicate FlowAllowed(scopes: map<Id, Scope>, deps: map<Id, ScopeDependency>, source: Id, target: Id) {
    || source == target
    || source in Inherited(InheritanceChain(scopes, target))
    || target in Closure(DependencyEdges(deps), {source})
  }

  function Inherited(chain: seq<Id>): seq<Id> {
    if chain == [] then [] else chain[..|chain| - 1]
  }

  method DependencyChildren(deps: map<Id, ScopeDependency>) returns (children: map<Id, set<Id>>)
    ensures Represents(children, DependencyEdges(deps))
  {
    children := map[];
    var rest := deps.Keys;
    while rest != {}
      invariant rest <= deps.Keys
      invariant Represents(children, EdgesOf(deps, deps.Keys - rest))
      decreases rest
    {
      var k :| k in rest;
      ghost var before := EdgesOf(deps, deps.Keys - rest);
      rest := rest - {k};
      var up, down := deps[k].upstream, deps[k].downstream;
      assert EdgesOf(deps, deps.Keys - rest) == before + {(up, down)};
      children := children[up := (if up in children then children[up] else {}) + {down}];
    }
    assert deps.Keys - rest == deps.Keys;
  }

  method CheckFlow(scopes: map<Id, Scope>, deps: map<Id, ScopeDependency>, source: Id, target: Id) returns (ok: bool)
    ensures ok == FlowAllowed(scopes, deps, source, target)
  {
    if source == target || source in Inherited(InheritanceChain(scopes, target)) {
      return true;
    }
    var children := DependencyChildren(deps);
    var reached := Worklist(children, source, DependencyEdges(deps));
    return target in reached;
  }

  /** All the evidence is on record, in scopes from which it may flow to `target`. */
  ghost predicate EvidenceFlows(c: Calculus, recorded: map<Id, Id>, evidence: set<Id>, target: Id) {
    forall v :: v in evidence ==> v in recorded && FlowAllowed(c.scopes, c.scopeDeps, recorded[v], target)
  }

  /** `_require_evidence_flow`; `recorded` gives the scope of each evidence record. */
  method CheckEvidence(c: Calculus, recorded: map<Id, Id>, evidence: set<Id>, target: Id) returns (ok: bool)
    ensures ok == EvidenceFlows(c, recorded, evidence, target)
  {
    var rest := evidence;
    while rest != {}
      invariant rest <= evidence
      invariant EvidenceFlows(c, recorded, evidence - rest, target)
      decreases rest
    {
      var v :| v in rest;
      rest := rest - {v};
      if v !in recorded {
        return false;
      }
      var legal := CheckFlow(c.scopes, c.scopeDeps, recorded[v], target);
      if !legal {
        return false;
      }
    }
    assert evidence - rest == evidence;
    return true;
  }

  /** Nothing flows into the root from another scope, when no dependency ends there. */
  lemma NothingFlowsIntoRoot(scopes: map<Id, Scope>, deps: map<Id, ScopeDependency>, source: Id)
    requires RootRecord(scopes) && forall k :: k in deps ==> deps[k].downstream != ROOT
    requires FlowAllowed(scopes, deps, source, ROOT)
    ensures source == ROOT
  {
    RootAncestry(scopes);
    var edges := DependencyEdges(deps);
    assert ROOT in Closure(edges, {source}) ==> ROOT in {source} + Targets(edges);
  }

  // ----- the shape of a chain -----

  /** The chain of a scope leads from a scope without parent, parent by parent, to the scope itself. */
  lemma {:induction false} AncestryExactly(scopes: map<Id, Scope>, scope: Id, seen: set<Id>)
    requires Ancestors(scopes, scope, seen).Ok?
    ensures var chain := Ancestors(scopes, scope, seen).value;
      && chain != [] && chain[|chain| - 1] == scope
      && (forall k :: 0 <= k < |chain| ==> chain[k] in scopes)
      && scopes[chain[0]].parent == None
      && forall k :: 0 < k < |chain| ==> scopes[chain[k]].parent == Some(chain[k - 1])
    decreases scopes.Keys - seen
  {
    if scopes[scope].parent.Some? {
      AncestryExactly(scopes, scopes[scope].parent.value, seen + {scope});
    }
  }

  lemma {:induction false} ChainStartExactly(scopes: map<Id, Scope>, chain: seq<Id>)
    requires chain != [] && forall k :: 0 <= k < |chain| ==> chain[k] in scopes
    ensures var i := ChainStart(scopes, chain);
      && i < |chain| && (i > 0 ==> scopes[chain[i]].isolated)
      && forall k :: i < k < |chain| ==> !scopes[chain[k]].isolated
  {
    if |chain| > 1 {
      ChainStartExactly(scopes, chain[..|chain| - 1]);
    }
  }

  /** A scope inherits down to itself from the nearest isolated scope on its chain, or from the top if none
      below the top is isolated. */
  lemma InheritanceExactly(scopes: map<Id, Scope>, scope: Id) returns (i: nat)
    requires Ancestors(scopes, scope).Ok?
    ensures var chain := Ancestors(scopes, scope).value;
      && i < |chain| && InheritanceChain(scopes, scope) == chain[i..]
      && (forall k :: 0 <= k < |chain| ==> chain[k] in scopes)
      && (i > 0 ==> scopes[chain[i]].isolated) && forall k :: i < k < |chain| ==> !scopes[chain[k]].isolated
  {
    var chain := Ancestors(scopes, scope).value;
    AncestryExactly(scopes, scope, {});
    ChainStartExactly(scopes, chain);
    i := ChainStart(scopes, chain);
  }

  /** An isolated scope with a parent sees its own assignments alone. */
  lemma IsolatedSeesItself(c: Calculus, scope: Id)
    requires Ancestors(c.scopes, scope).Ok? && c.scopes[scope].isolated && c.scopes[scope].parent.Some?
    ensures EffectiveDecisions(c, scope) == Layer(c, scope)
  {
    hide Layer;
    var chain := Ancestors(c.scopes, scope).value;
    var i := InheritanceExactly(c.scopes, scope);
    AncestryExactly(c.scopes, scope, {});
    assert i == |chain| - 1;
    assert chain[i..] == [scope] && [scope][..0] == [];
    assert Overlay(c, [scope]) == Overlay(c, []) + Layer(c, scope);
  }

  /** Where no dependency ends in the root, only evidence of the root may flow there. */
  lemma RootEvidence(c: Calculus, recorded: map<Id, Id>, evidence: set<Id>)
    requires RootRecord(c.scopes) && forall k :: k in c.scopeDeps ==> c.scopeDeps[k].downstream != ROOT
    ensures EvidenceFlows(c, recorded, evidence, ROOT) <==> forall v :: v in evidence ==> v in recorded && recorded[v] == ROOT
  {
    forall v | v in evidence && v in recorded
      ensures FlowAllowed(c.scopes, c.scopeDeps, recorded[v], ROOT) <==> recorded[v] == ROOT
    {
      if FlowAllowed(c.scopes, c.scopeDeps, recorded[v], ROOT) {
        NothingFlowsIntoRoot(c.scopes, c.scopeDeps, recorded[v]);
      }
    }
  }

  /** What may flow where: nothing but what is inherited without dependencies; along each dependency from its
      upstream to its downstream scope, and on from there along others; and into a scope from outside its
      inheritance only where a dependency ends there. */
  lemma FlowLaws(scopes: map<Id, Scope>, deps: map<Id, ScopeDependency>, k: Id, source: Id, target: Id)
    requires Ancestors(scopes, target).Ok?
    ensures source in InheritanceChain(scopes, target) ==> FlowAllowed(scopes, deps, source, target)
    ensures k in deps && target in Closure(DependencyEdges(deps), {deps[k].downstream}) ==>
      FlowAllowed(scopes, deps, deps[k].upstream, target)
    ensures FlowAllowed(scopes, deps, source, target) && source !in InheritanceChain(scopes, target) ==>
      exists m :: m in deps && deps[m].downstream == target
  {
    ChainEndsInScope(scopes, target, source);
    var g := DependencyEdges(deps);
    if k in deps && target in Closure(g, {deps[k].downstream}) {
      assert (deps[k].upstream, deps[k].downstream) in g;
      ClosureNested(g, deps[k].upstream, deps[k].downstream);
    }
    if target in Closure(g, {source}) && target != source {
      assert target in Targets(g);
    }
  }

  lemma ChainEndsInScope(scopes: map<Id, Scope>, target: Id, x: Id)
    requires Ancestors(scopes, target).Ok?
    ensures x in InheritanceChain(scopes, target) <==> x == target || x in Inherited(InheritanceChain(scopes, target))
  {
    var chain := InheritanceChain(scopes, target);
    var i := InheritanceExactly(scopes, target);
    AncestryExactly(scopes, target, {});
    assert chain == Inherited(chain) + [target];
  }
}
