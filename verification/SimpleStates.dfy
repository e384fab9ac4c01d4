/** States small enough to show whole: every scope hangs directly below the root, no scope assigns a
    subject of the root, and nothing is locked. The commit accepts them and what becomes of them. */
module SimpleStates {
  import opened Foundations
  import opened CalculusModel
  import opened Reachability
  import opened Scopes
  import opened Conditions
  import opened Locks
  import opened Fairness
  import opened Staging
  import opened Commits
  import opened ScopeImpact
  import opened Engine

  // ----- flat hierarchies -----

  ghost predicate Flat(c: Calculus) {
    RootRecord(c.scopes)
    && forall s :: s in c.scopes && s != ROOT ==>
      && c.scopes[s].parent == Some(ROOT) && !c.scopes[s].isolated && !c.scopes[s].deniesOverride
      && (c.scopes[s].status.ActiveScope? || c.scopes[s].status.RevalidateScope?)
  }

  lemma FlatChain(c: Calculus, s: Id)
    requires Flat(c) && s in c.scopes && s != ROOT
    ensures InheritanceChain(c.scopes, s) == [ROOT, s] && Inherited([ROOT, s]) == [ROOT]
  {
    assert {} + {s} == {s};
    assert Ancestors(c.scopes, ROOT, {s}) == Ok([ROOT]);
    assert [ROOT] + [s] == [ROOT, s] && [ROOT, s][..1] == [ROOT] && [ROOT, s][0..] == [ROOT, s];
    assert Ancestors(c.scopes, s) == Ok([ROOT, s]);
    assert ChainStart(c.scopes, [ROOT, s]) == ChainStart(c.scopes, [ROOT]) == 0;
  }

  lemma FlatLineage(c: Calculus, s: Id)
    requires Flat(c) && s in c.scopes && s != ROOT
    ensures Lineage(c, s) == [ROOT, s]
  {
    assert {} + {s} == {s};
    assert Ancestors(c.scopes, ROOT, {s}) == Ok([ROOT]);
    assert [ROOT] + [s] == [ROOT, s];
  }

  lemma FlatDecisions(c: Calculus, s: Id)
    requires Flat(c) && s in c.scopes && s != ROOT
    ensures EffectiveDecisions(c, s) == c.activeModel + Layer(c, s)
  {
    FlatChain(c, s);
    RootOverlay(c);
    assert [ROOT, s][..1] == [ROOT];
  }

  /** The decision that a scope of a flat hierarchy sees for a subject. */
  function Seen(c: Calculus, s: Id, x: Id): Option<Id> {
    if s != ROOT && x in Layer(c, s) then Some(Layer(c, s)[x])
    else if x in c.activeModel then Some(c.activeModel[x])
    else None
  }

  lemma FlatValue(c: Calculus, s: Id, x: Id)
    requires Flat(c) && s in c.scopes
    ensures x in EffectiveValues(c, s) <==> Seen(c, s, x).Some? && IsActive(c, Seen(c, s, x).value)
    ensures x in EffectiveValues(c, s) ==> EffectiveValues(c, s)[x] == c.decisions[Seen(c, s, x).value].value
  {
    hide EffectiveDecisions, Layer;
    if s == ROOT {
      RootChain(c);
    } else {
      FlatDecisions(c, s);
    }
  }

  // ----- simple states -----

  predicate Upstream(c: Calculus, s: Id, t: Id) {
    exists k :: k in c.scopeDeps && c.scopeDeps[k].upstream == s && c.scopeDeps[k].downstream == t
  }

  /** Parents lie in the same scope, in the root, or in a scope upstream. */
  ghost predicate ParentsFlow(c: Calculus) {
    forall d, p :: d in c.decisions && p in c.decisions[d].parents && p in c.decisions ==>
      || c.decisions[p].scope == c.decisions[d].scope
      || c.decisions[p].scope == ROOT
      || Upstream(c, c.decisions[p].scope, c.decisions[d].scope)
  }

  /** No subject is assigned both in the root and below it. */
  ghost predicate Disjoint(c: Calculus) {
    forall s, x :: s in c.models && s != ROOT && x in c.models[s] ==> x !in c.activeModel
  }

  ghost predicate Simple(c: Calculus) {
    && Flat(c) && Disjoint(c) && ParentsFlow(c) && ScopesKnown(c)
    && c.constraints == map[] && c.locks == map[]
  }

  /** The edges are those that registering the decisions has written. */
  ghost predicate EdgesWritten(c: Calculus) {
    forall e :: e in c.edges <==>
      (e.relation.DependsOn? && e.dst in c.decisions && e.src in c.decisions[e.dst].parents)
  }

  /** A state as the engine commits it, with every parent ACTIVE. */
  ghost predicate Sound(c: Calculus) {
    Indexed(c) && ParentsActive(c) && CommitChecks(c) && EdgesWritten(c) && SaneDependencies(c.scopes, c.scopeDeps)
  }

  lemma FlowsInSimple(c: Calculus)
    requires Flat(c) && ParentsFlow(c) && ScopesKnown(c)
    ensures FlowsLegal(c)
  {
    forall d, p | d in c.decisions && p in c.decisions[d].parents && p in c.decisions
      ensures FlowAllowed(c.scopes, c.scopeDeps, c.decisions[p].scope, c.decisions[d].scope)
    {
      var s, t := c.decisions[p].scope, c.decisions[d].scope;
      if s != t && s == ROOT {
        FlatChain(c, t);
      } else if s != t {
        var k :| k in c.scopeDeps && c.scopeDeps[k].upstream == s && c.scopeDeps[k].downstream == t;
        assert (s, t) in DependencyEdges(c.scopeDeps);
        assert s in Closure(DependencyEdges(c.scopeDeps), {s});
      }
    }
  }

  /** Overrides are admitted where every child assignment of a root subject is one. */
  lemma OverridesInFlat(c: Calculus)
    requires Flat(c) && Indexed(c)
    requires forall s, x :: s in c.models && s != ROOT && x in c.models[s] && x in c.activeModel ==>
      c.models[s][x] in c.decisions && c.decisions[c.models[s][x]].overrides
    ensures OverridesRespected(c) && IdleScopesEmpty(c)
  {
    RootChain(c);
  }

  lemma SimpleCommits(c: Calculus)
    requires Simple(c) && Indexed(c)
    ensures CommitChecks(c)
  {
    hide FlowsLegal, OverridesRespected, IdleScopesEmpty;
    FlowsInSimple(c);
    OverridesInFlat(c);
    assert KnowledgeRespected(c) && ReferencesKnown(c);
  }

  /** A step that retires or replaces decisions keeps a state simple. */
  lemma SimpleStep(c: Calculus, c': Calculus)
    requires Simple(c) && Flat(c') && c'.scopes.Keys == c.scopes.Keys && c'.scopeDeps == c.scopeDeps
    requires c'.decisions.Keys == c.decisions.Keys
    requires forall d :: d in c.decisions ==>
      c'.decisions[d].scope == c.decisions[d].scope && c'.decisions[d].parents == c.decisions[d].parents
    requires c'.activeModel.Keys <= c.activeModel.Keys
    requires forall s, x :: s in c'.models && s != ROOT && x in c'.models[s] ==> s in c.models && x in c.models[s]
    requires c'.constraints == map[] && c'.locks == map[] && c'.obligations == c.obligations
    requires c'.explanations == c.explanations && c'.conflicts.Keys == c.conflicts.Keys
    requires forall k :: k in c.conflicts ==> c'.conflicts[k].scope == c.conflicts[k].scope
    ensures Simple(c')
  {
  }

  lemma SettledCommits(c: Calculus)
    requires Indexed(c) && SaneDependencies(c.scopes, c.scopeDeps)
    ensures CommitChecks(c) ==> CommitChecks(Settled(c))
  {
    hide CommitChecks, Indexed;
    SettledFrame(c);
    SettledRecords(c);
    SameForCommit(c, Settled(c));
  }

  lemma SettledRecords(c: Calculus)
    ensures RecordsKept(c, Settled(c))
  {
    assert Settled(c).locks == Relocked(c).locks && Settled(c).obligations == Relocked(c).obligations;
  }

  lemma NothingToAudit(c: Calculus)
    requires c.obligations == map[] && c.fairness == map[]
    ensures Audited(c) == c && Reported(c, Overdue) == {}
  {
    assert AuditedRecords(c) == map[];
  }

  // ----- candidates with one target -----

  /** A target for a free slot: nothing is inherited for its subject, and its parents are ACTIVE. */
  ghost predicate Free(c: Calculus, d: Id) {
    && d in c.decisions && c.decisions[d].status.Proposed? && c.decisions[d].antecedents == {}
    && c.decisions[d].scope in c.scopes && c.scopes[c.decisions[d].scope].status.ActiveScope?
    && Slot(c.models, c.decisions[d].scope, c.decisions[d].subject) == None
    && c.decisions[d].subject !in EffectiveDecisions(c, c.decisions[d].scope)
    && forall p :: p in c.decisions[d].parents ==> IsActive(c, p)
  }

  function Target(c: Calculus, d: Id): Assignments
    requires d in c.decisions
  {
    map[ScopedKey(c.decisions[d].scope, c.decisions[d].subject) := d]
  }

  function Selected(c: Calculus, d: Id, sequence: nat): Calculus
    requires d in c.decisions
  {
    Synchronised(ActivateOne(c, d, sequence))
  }

  /** Such a candidate is staged whenever its model passes the two final checks. */
  lemma FreeTargetStages(c: Calculus, d: Id, sequence: nat)
    requires Slotted(c) && Free(c, d) && Accepted(c, Selected(Audited(c), d, sequence))
    ensures Stages(c, Target(c, d), sequence, Finished(Selected(Audited(c), d, sequence)))
  {
    hide Accepted, Slotted, Audited, Settled, EffectiveDecisions, Activates, AllAdmissible, IsRows, SupersedeAll;
    var start := Audited(c);
    AuditedOnly(c);
    FreeAside(c, start, d);
    SoleRow(start, d);
    FirstPassOfOne(start, d);
    var p := Pass(start, {}, {});
    var raw := ActivateOne(start, d, sequence);
    SoleActivation(start, d, sequence);
    assert StagePath(c, Target(c, d), sequence, [d], p, Synchronised(raw));
  }

  lemma FreeAside(c: Calculus, start: Calculus, d: Id)
    requires Free(c, d) && SameProjection(c, start) && start.decisions == c.decisions
    ensures Free(start, d) && Target(start, d) == Target(c, d)
  {
    EffectiveFrame(c, start, c.decisions[d].scope);
  }

  lemma SoleRow(c: Calculus, d: Id)
    requires Free(c, d)
    ensures AllAdmissible(c, Target(c, d)) && IsRows(Target(c, d), [d]) && Target(c, d).Values == {d}
  {
    var key := ScopedKey(c.decisions[d].scope, c.decisions[d].subject);
    assert Target(c, d)[key] == d;
    assert IsSorting(Target(c, d).Keys, [key]);
    assert RowsAlong(Target(c, d), [key], [d]);
  }

  lemma FirstPassOfOne(c: Calculus, d: Id)
    requires Free(c, d)
    ensures RowReady(c, d) && SupersedeAll(Pass(c, {}, {}), [d]) == Ok(Pass(c, {}, {}))
  {
    hide EffectiveDecisions;
    var p := Pass(c, {}, {});
    assert SupersedeRow(p, d) == Ok(p);
    assert [d][1..] == [];
    assert SupersedeAll(p, []) == Ok(p);
  }

  lemma SoleActivation(c: Calculus, d: Id, sequence: nat)
    requires Free(c, d)
    ensures Activates(c, ActivateOne(c, d, sequence), {d}, sequence)
  {
    NothingActivated(c, sequence);
    assert {} + {d} == {d};
    ActivateStep(c, c, {}, d, {d}, sequence);
  }
}
