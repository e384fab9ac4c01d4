/** Explanations, the no-goods projected from them, and subsumption between no-goods
    (`_calculus_logic.py`, `runtime_v21.py`). */
module Knowledge {
  import opened Foundations
  import opened CalculusModel
  import opened Scopes
  import opened Conditions

  // ----- validating an explanation -----

  /** The literal names an ACTIVE-at-the-conflict assignment of its own decision. */
  ghost predicate Grounded(c: Calculus, snapshot: map<Id, Id>, l: Literal) {
    && l.decision.Some? && l.decision.value in c.decisions
    && (var d := c.decisions[l.decision.value];
        && SnapshotNames(snapshot, ScopedKey(d.scope, l.subject), l.decision.value)
        && d.subject == l.subject && d.value == l.value && l.op.EQ?)
  }

  predicate SnapshotNames(snapshot: map<Id, Id>, key: Id, d: Id) {
    key in snapshot && snapshot[key] == d
  }

  ghost predicate Consistent(ls: seq<Literal>) {
    forall l, m :: l in ls && m in ls && l.subject == m.subject ==> l.value == m.value
  }

  ghost predicate ExplanationValid(c: Calculus, e: Explanation) {
    && (e.literals != [] || e.status.RejectedExplanation?)
    && e.conflict in c.conflicts
    && e.evidence <= c.conflicts[e.conflict].evidence
    && (forall l :: l in e.literals ==> Grounded(c, c.conflicts[e.conflict].snapshot, l))
    && Consistent(e.literals)
    && (e.status.Proven? ==> e.certified)
  }

  method CheckLiteral(c: Calculus, snapshot: map<Id, Id>, l: Literal) returns (r: Result<()>)
    ensures r.Ok? <==> Grounded(c, snapshot, l)
  {
    if l.decision.None? {
      return Err(ValueError("explanation literals require decision_id provenance"));
    }
    if l.decision.value !in c.decisions {
      return Err(KeyError(l.decision.value));
    }
    var d := c.decisions[l.decision.value];
    if !SnapshotNames(snapshot, ScopedKey(d.scope, l.subject), l.decision.value) {
      return Err(ValueError("explanation literal was not active in the conflict snapshot"));
    }
    if d.subject != l.subject || d.value != l.value {
      return Err(ValueError("explanation literal does not match its decision"));
    }
    if !l.op.EQ? {
      return Err(ValueError("conflict explanations must name active assignment literals with EQ"));
    }
    return Ok(());
  }

  /** `validate_explanation`, with the record's own constructor check first. */
  method ValidateExplanation(c: Calculus, e: Explanation) returns (r: Result<()>)
    ensures r.Ok? <==> ExplanationValid(c, e)
  {
    if e.literals == [] && !e.status.RejectedExplanation? {
      return Err(ValueError("non-rejected explanation requires at least one assumption literal"));
    }
    if e.conflict !in c.conflicts {
      return Err(KeyError(e.conflict));
    }
    var conflict := c.conflicts[e.conflict];
    if !(e.evidence <= conflict.evidence) {
      return Err(ValueError("explanation evidence must be drawn from its conflict"));
    }
    var seen: map<Id, Value> := map[];
    for i := 0 to |e.literals|
      invariant forall l :: l in e.literals[..i] ==>
        Grounded(c, conflict.snapshot, l) && l.subject in seen && seen[l.subject] == l.value
      invariant forall x :: x in seen ==>
        exists l :: l in e.literals && l.subject == x && l.value == seen[x]
    {
      var l := e.literals[i];
      assert l in e.literals;
      assert e.literals[..i + 1] == e.literals[..i] + [l];
      var _ :- CheckLiteral(c, conflict.snapshot, l);
      if l.subject in seen && seen[l.subject] != l.value {
        return Err(ValueError("explanation contains contradictory literals for one subject"));
      }
      seen := seen[l.subject := l.value];
    }
    assert e.literals[..|e.literals|] == e.literals;
    if e.status.Proven? && !e.certified {
      return Err(ValueError("PROVEN explanation requires a certificate"));
    }
    return Ok(());
  }

  // ----- projecting a no-good -----

  function Assumptions(e: Explanation): set<Literal> {
    set l | l in e.literals
  }

  /** Only validated assumption conflicts may harden. */
  predicate HardAllowed(c: Calculus, e: Explanation)
    requires e.conflict in c.conflicts
  {
    c.conflicts[e.conflict].kind.AssumptionConflict? && (e.status.Validated? || e.status.Proven?)
  }

  function Projection(c: Calculus, eid: Id, e: Explanation, requested: Strength, sequence: nat): Constraint
    requires e.conflict in c.conflicts
  {
    var strength := if requested.Hard? && HardAllowed(c, e) then Hard else Soft;
    Constraint(
      Assumptions(e),
      if e.guard.Unset? then Const(true) else e.guard,
      strength,
      if strength.Hard? then ActiveConstraint else SoftConstraint,
      if e.status.Proven? then ByProof else if e.status.Validated? then ByValidation else Heuristic,
      e.conflict, eid, e.evidence, e.scope, sequence, None)
  }

  /** `project_constraint`: a rejected explanation without literals has no body to learn. */
  method ProjectConstraint(c: Calculus, eid: Id, e: Explanation, requested: Strength, sequence: nat)
    returns (r: Result<Constraint>)
    ensures r.Ok? <==> ExplanationValid(c, e) && e.literals != []
    ensures r.Ok? ==> r.value == Projection(c, eid, e, requested, sequence)
  {
    var _ :- ValidateExplanation(c, e);
    if e.literals == [] {
      return Err(ValueError("learned no-good requires a non-empty body"));
    }
    return Ok(Projection(c, eid, e, requested, sequence));
  }

  /** `v` assigns every explained subject as the conflict's decisions did. */
  ghost predicate AgreesWithSnapshot(c: Calculus, e: Explanation, v: Values)
    requires ExplanationValid(c, e)
  {
    forall l :: l in e.literals ==> l.subject in v && v[l.subject] == c.decisions[l.decision.value].value
  }

  /** The projected no-good excludes exactly the valuations that satisfy the guard and agree with
      the snapshot on every explained subject; it is enforced only for a validated or proven
      assumption conflict. */
  lemma NoGoodIsExact(c: Calculus, eid: Id, e: Explanation, requested: Strength, sequence: nat, v: Values)
    requires ExplanationValid(c, e)
    ensures Projection(c, eid, e, requested, sequence).strength.Hard? <==>
      (requested.Hard? && c.conflicts[e.conflict].kind.AssumptionConflict?
       && (e.status.Validated? || e.status.Proven?))
    ensures ConstraintViolated(Projection(c, eid, e, requested, sequence), v) <==>
      (Projection(c, eid, e, requested, sequence).strength.Hard?
       && ConditionHolds(e.guard, v) && AgreesWithSnapshot(c, e, v))
  {
    var k := Projection(c, eid, e, requested, sequence);
    assert ConditionHolds(k.guard, v) == ConditionHolds(e.guard, v);
    if AgreesWithSnapshot(c, e, v) {
      forall l | l in k.body ensures LiteralHolds(l, v) {
        assert Grounded(c, c.conflicts[e.conflict].snapshot, l);
      }
    }
    if forall l :: l in k.body ==> LiteralHolds(l, v) {
      forall l | l in e.literals
        ensures l.subject in v && v[l.subject] == c.decisions[l.decision.value].value
      {
        assert l in k.body && Grounded(c, c.conflicts[e.conflict].snapshot, l);
      }
    }
  }

  // ----- the conflict's own valuation -----

  /** `canonical_active_snapshot`: the effective model, each entry keyed by its owning scope. */
  ghost predicate IsCanonicalSnapshot(c: Calculus, scope: Id, snapshot: map<Id, Id>) {
    forall key :: key in snapshot ==>
      exists x :: x in EffectiveDecisions(c, scope)
        && EffectiveDecisions(c, scope)[x] == snapshot[key]
        && snapshot[key] in c.decisions
        && key == ScopedKey(c.decisions[snapshot[key]].scope, x)
  }

  method CanonicalSnapshot(c: Calculus, scope: Id) returns (snapshot: map<Id, Id>)
    requires Indexed(c)
    ensures IsCanonicalSnapshot(c, scope, snapshot)
    ensures forall x :: x in EffectiveDecisions(c, scope) ==>
      (EffectiveDecisions(c, scope)[x] in c.decisions
       && ScopedKey(c.decisions[EffectiveDecisions(c, scope)[x]].scope, x) in snapshot)
  {
    var effective := EffectiveDecisions(c, scope);
    forall x | x in effective ensures effective[x] in c.decisions {
      EffectiveDecisionsActive(c, scope, x);
    }
    snapshot := map[];
    var rest := effective.Keys;
    while rest != {}
      invariant rest <= effective.Keys
      invariant IsCanonicalSnapshot(c, scope, snapshot)
      invariant forall x :: x in effective && x !in rest ==>
        ScopedKey(c.decisions[effective[x]].scope, x) in snapshot
      decreases rest
    {
      var x :| x in rest;
      rest := rest - {x};
      snapshot := snapshot[ScopedKey(c.decisions[effective[x]].scope, x) := effective[x]];
    }
  }

  /** A conflict is raised in a scope. */
  ghost predicate Raises(c: Calculus, cid: Id, scope: Id, c': Calculus) {
    && cid !in c.conflicts && cid in c'.conflicts
    && c' == c.(conflicts := c.conflicts[cid := c'.conflicts[cid]])
    && c'.conflicts[cid].status.Open? && c'.conflicts[cid].scope == scope && scope in c.scopes
  }

  /** Its snapshot is the canonical one of that moment, as it is unless the caller supplies another. */
  ghost predicate RaisesHere(c: Calculus, cid: Id, scope: Id, c': Calculus) {
    Raises(c, cid, scope, c') && IsCanonicalSnapshot(c, scope, c'.conflicts[cid].snapshot)
  }

  function WithExplanation(k: Conflict, eid: Id, e: Explanation): Conflict {
    k.(explanations := k.explanations + {eid},
       status := if e.status.Validated? || e.status.Proven? then Explained else k.status)
  }

  /** A valid explanation is registered in the scope of its conflict; a validated or proven one makes
      the conflict EXPLAINED. */
  ghost predicate Explains(c: Calculus, eid: Id, e: Explanation, c': Calculus) {
    && eid !in c.explanations && ExplanationValid(c, e) && e.scope == c.conflicts[e.conflict].scope
    && c' == c.(explanations := c.explanations[eid := e],
                conflicts := c.conflicts[e.conflict := WithExplanation(c.conflicts[e.conflict], eid, e)])
  }

  /** An accepted explanation of a conflict snapshotted in `c` describes the effective values of
      the conflict's scope there, so the projected hard no-good is violated by that valuation
      whenever its guard holds. */
  lemma ConflictValuationIsExcluded(
    c: Calculus, now: Calculus, eid: Id, e: Explanation, sequence: nat, scope: Id)
    requires Indexed(c) && ExplanationValid(now, e) && HardAllowed(now, e)
    requires IsCanonicalSnapshot(c, scope, now.conflicts[e.conflict].snapshot)
    requires forall d :: d in c.decisions ==>
      (d in now.decisions
       && now.decisions[d].scope == c.decisions[d].scope && now.decisions[d].value == c.decisions[d].value)
    requires ConditionHolds(e.guard, EffectiveValues(c, scope))
    ensures ConstraintViolated(Projection(now, eid, e, Hard, sequence), EffectiveValues(c, scope))
  {
    var v := EffectiveValues(c, scope);
    forall l | l in e.literals
      ensures l.subject in v && v[l.subject] == now.decisions[l.decision.value].value
    {
      var snapshot := now.conflicts[e.conflict].snapshot;
      assert Grounded(now, snapshot, l);
      var d := l.decision.value;
      var key := ScopedKey(now.decisions[d].scope, l.subject);
      var x :| x in EffectiveDecisions(c, scope) && EffectiveDecisions(c, scope)[x] == snapshot[key]
        && snapshot[key] in c.decisions && key == ScopedKey(c.decisions[snapshot[key]].scope, x);
      ScopedKeyInjective(c.decisions[d].scope, x, l.subject);
      EffectiveDecisionsActive(c, scope, x);
    }
    NoGoodIsExact(now, eid, e, Hard, sequence, v);
  }

  // ----- subsumption between no-goods -----

  function LiteralKeys(body: set<Literal>): set<(Id, LiteralOp, Value)> {
    set l | l in body :: (l.subject, l.op, l.value)
  }

  predicate Live(k: Constraint) {
    k.status.ActiveConstraint? || k.status.SoftConstraint?
  }

  /** Both constrain under the same guard with the same force; scopes are not compared. */
  predicate Comparable(k: Constraint, m: Constraint) {
    Live(k) && k.strength == m.strength && k.guard == m.guard
  }

  /** `existing` already says at least as much as `k`. */
  predicate Covers(existing: Constraint, k: Constraint) {
    Comparable(existing, k) && LiteralKeys(existing.body) <= LiteralKeys(k.body)
  }

  /** `k` says strictly more than `existing`. */
  predicate Overtakes(k: Constraint, existing: Constraint) {
    Comparable(existing, k) && LiteralKeys(k.body) < LiteralKeys(existing.body)
  }

  function MarkSubsumed(k: Constraint, winner: Id): Constraint {
    k.(status := Subsumed, supersededBy := Some(winner))
  }

  ghost predicate Covered(known: map<Id, Constraint>, k: Constraint) {
    exists m :: m in known && Covers(known[m], k)
  }

  /** What the scan for subsumption makes of the stored constraints and of the new one. Which
      weaker constraints are retired before a covering one ends the scan depends on the store's
      order. */
  ghost predicate Subsumes(known: map<Id, Constraint>, kid: Id, k: Constraint,
                           stored: map<Id, Constraint>, added: Constraint) {
    && stored.Keys == known.Keys
    && (forall m :: m in known ==>
          || stored[m] == known[m]
          || (Overtakes(k, known[m]) && stored[m] == MarkSubsumed(known[m], kid)))
    && (Covered(known, k) ==> exists m :: m in known && Covers(known[m], k) && added == MarkSubsumed(k, m))
    && (!Covered(known, k) ==> added == k)
    && (!Covered(known, k) ==>
          forall m :: m in known && Overtakes(k, known[m]) ==> stored[m] == MarkSubsumed(known[m], kid))
  }

  method ScanForSubsumption(known: map<Id, Constraint>, kid: Id, k: Constraint)
    returns (stored: map<Id, Constraint>, added: Constraint)
    ensures Subsumes(known, kid, k, stored, added)
  {
    stored, added := known, k;
    var rest := known.Keys;
    while rest != {}
      invariant rest <= known.Keys == stored.Keys
      invariant added == k
      invariant forall m :: m in known ==>
        || stored[m] == known[m]
        || (m !in rest && Overtakes(k, known[m]) && stored[m] == MarkSubsumed(known[m], kid))
      invariant forall m :: m in known && m !in rest ==> !Covers(known[m], k)
      invariant forall m :: m in known && m !in rest && Overtakes(k, known[m]) ==> stored[m] == MarkSubsumed(known[m], kid)
      decreases rest
    {
      var m :| m in rest;
      rest := rest - {m};
      if Comparable(stored[m], k) {
        if LiteralKeys(stored[m].body) <= LiteralKeys(k.body) {
          added := MarkSubsumed(k, m);
          return;
        }
        if LiteralKeys(k.body) < LiteralKeys(stored[m].body) {
          stored := stored[m := MarkSubsumed(stored[m], kid)];
        }
      }
    }
  }

  /** The state after learning `k` under the name `kid`. */
  ghost predicate Learns(c: Calculus, c': Calculus, kid: Id, k: Constraint) {
    && kid !in c.constraints && k.conflict in c.conflicts
    && (exists stored, added :: Subsumes(c.constraints, kid, k, stored, added)
          && c'.constraints == stored[kid := added])
    && c' == c.(constraints := c'.constraints, conflicts := c.conflicts[k.conflict :=
         c.conflicts[k.conflict].(learned := c.conflicts[k.conflict].learned + {kid}, status := Learned)])
  }

  method LearnConstraint(c: Calculus, eid: Id, kid: Id, requested: Strength, sequence: nat)
    returns (r: Result<Calculus>)
    ensures r.Ok? <==>
      (kid !in c.constraints && eid in c.explanations
       && ExplanationValid(c, c.explanations[eid]) && c.explanations[eid].literals != [])
    ensures r.Ok? ==> Learns(c, r.value, kid, Projection(c, eid, c.explanations[eid], requested, sequence))
  {
    if kid in c.constraints {
      return Err(ValueError("constraint already exists"));
    }
    if eid !in c.explanations {
      return Err(KeyError(eid));
    }
    var k :- ProjectConstraint(c, eid, c.explanations[eid], requested, sequence);
    var stored, added := ScanForSubsumption(c.constraints, kid, k);
    var conflict := c.conflicts[k.conflict];
    return Ok(c.(
      constraints := stored[kid := added],
      conflicts := c.conflicts[k.conflict := conflict.(learned := conflict.learned + {kid}, status := Learned)]));
  }

  /** A fresh no-good of a known conflict can be learned in any store. */
  lemma LearningExists(c: Calculus, kid: Id, k: Constraint) returns (c': Calculus)
    requires kid !in c.constraints && k.conflict in c.conflicts
    ensures Learns(c, c', kid, k)
    ensures c.constraints == map[] ==> c'.constraints == map[kid := k]
  {
    hide LiteralKeys;
    var known := c.constraints;
    var stored, added := known, k;
    if m :| m in known && Covers(known[m], k) {
      added := MarkSubsumed(k, m);
    } else {
      stored := map m | m in known :: if Overtakes(k, known[m]) then MarkSubsumed(known[m], kid) else known[m];
    }
    assert Subsumes(known, kid, k, stored, added);
    c' := c.(constraints := stored[kid := added], conflicts := c.conflicts[k.conflict :=
      c.conflicts[k.conflict].(learned := c.conflicts[k.conflict].learned + {kid}, status := Learned)]);
  }

  lemma SmallerBodyHolds(small: set<Literal>, large: set<Literal>, v: Values)
    requires LiteralKeys(small) <= LiteralKeys(large)
    requires forall l :: l in large ==> LiteralHolds(l, v)
    ensures forall l :: l in small ==> LiteralHolds(l, v)
  {
    forall l | l in small ensures LiteralHolds(l, v) {
      assert (l.subject, l.op, l.value) in LiteralKeys(large);
      var m :| m in large && (m.subject, m.op, m.value) == (l.subject, l.op, l.value);
    }
  }

  /** Projection never stores a hard constraint with the soft status. */
  ghost predicate HardIsNeverSoft(c: Calculus) {
    forall k :: k in c.constraints && c.constraints[k].strength.Hard? ==> !c.constraints[k].status.SoftConstraint?
  }

  /** Comparable constraints live in the scope of the new one. */
  ghost predicate ComparableShareScope(c: Calculus, k: Constraint) {
    forall m :: m in c.constraints && Comparable(c.constraints[m], k) ==> c.constraints[m].scope == k.scope
  }

  /** Subsumption forgets nothing within a scope: whatever was excluded stays excluded, and the
      new no-good is enforced, if need be by a stronger one. */
  lemma LearningKeepsExclusions(c: Calculus, c': Calculus, kid: Id, k: Constraint, scope: Id, v: Values)
    requires Learns(c, c', kid, k) && k.strength.Hard? && k.status.ActiveConstraint?
    requires HardIsNeverSoft(c) && ComparableShareScope(c, k)
    ensures Excluded(c, scope, v) ==> Excluded(c', scope, v)
    ensures ConstraintViolated(k, v) ==> Excluded(c', k.scope, v)
    ensures HardIsNeverSoft(c')
  {
    hide ConstraintViolated, Subsumes, HardIsNeverSoft, ComparableShareScope;
    if ConstraintViolated(k, v) {
      NewNoGoodEnforced(c, c', kid, k, v);
    }
    if Excluded(c, scope, v) {
      var m :| m in c.constraints && c.constraints[m].scope == scope && ConstraintViolated(c.constraints[m], v);
      OldNoGoodEnforced(c, c', kid, k, m, v);
    }
    LearningKeepsHard(c, c', kid, k);
  }

  lemma LearningKeepsHard(c: Calculus, c': Calculus, kid: Id, k: Constraint)
    requires Learns(c, c', kid, k) && k.strength.Hard? && k.status.ActiveConstraint? && HardIsNeverSoft(c)
    ensures HardIsNeverSoft(c')
  {
  }

  /** A constraint enforced before is enforced after, if need be by the one that overtook it. */
  lemma OldNoGoodEnforced(c: Calculus, c': Calculus, kid: Id, k: Constraint, m: Id, v: Values)
    requires Learns(c, c', kid, k) && k.strength.Hard? && k.status.ActiveConstraint?
    requires HardIsNeverSoft(c) && ComparableShareScope(c, k)
    requires m in c.constraints && ConstraintViolated(c.constraints[m], v)
    ensures Excluded(c', c.constraints[m].scope, v)
  {
    if c'.constraints[m] != c.constraints[m] {
      SmallerBodyHolds(k.body, c.constraints[m].body, v);
      assert Comparable(c.constraints[m], k);
      NewNoGoodEnforced(c, c', kid, k, v);
    } else {
      assert m in c'.constraints;
    }
  }

  lemma NewNoGoodEnforced(c: Calculus, c': Calculus, kid: Id, k: Constraint, v: Values)
    requires Learns(c, c', kid, k) && k.strength.Hard? && ConstraintViolated(k, v)
    requires HardIsNeverSoft(c) && ComparableShareScope(c, k)
    ensures Excluded(c', k.scope, v)
  {
    hide LiteralKeys, LiteralHolds, ConditionHolds;
    if Covered(c.constraints, k) {
      var m :| m in c.constraints && Covers(c.constraints[m], k) && c'.constraints[kid] == MarkSubsumed(k, m);
      SmallerBodyHolds(c.constraints[m].body, k.body, v);
      assert !Overtakes(k, c.constraints[m]);
      assert c'.constraints[m] == c.constraints[m];
    } else {
      assert c'.constraints[kid] == k;
    }
  }

  /** `m` still excludes `v` in scope `s` after learning `k`. */
  ghost predicate StillExcludes(c: Calculus, k: Constraint, m: Id, s: Id, v: Values) {
    m in c.constraints && c.constraints[m].scope == s && ConstraintViolated(c.constraints[m], v)
    && !Overtakes(k, c.constraints[m])
  }

  /** What a scope excludes after learning, exactly. When no stored constraint covers the new one, it
      is what the new one excludes in its own scope, and what the constraints it does not overtake
      excluded before: a no-good of any scope that it overtakes is retired. */
  lemma LearningExactly(c: Calculus, c': Calculus, kid: Id, k: Constraint, s: Id, v: Values)
    requires Learns(c, c', kid, k) && !Covered(c.constraints, k)
    ensures Excluded(c', s, v) <==>
      (k.scope == s && ConstraintViolated(k, v)) || exists m :: StillExcludes(c, k, m, s, v)
  {
    hide Learns, Overtakes, Covered, ConstraintViolated;
    UncoveredIsStored(c, c', kid, k);
    if m :| StillExcludes(c, k, m, s, v) {
      NotOvertakenStays(c, c', kid, k, m);
    }
    if Excluded(c', s, v) {
      var m :| m in c'.constraints && c'.constraints[m].scope == s && ConstraintViolated(c'.constraints[m], v);
      ViolatedIsActive(c'.constraints[m], v);
      LiveAfter(c, c', kid, k, m);
      assert m != kid ==> StillExcludes(c, k, m, s, v);
    }
  }

  lemma UncoveredIsStored(c: Calculus, c': Calculus, kid: Id, k: Constraint)
    requires Learns(c, c', kid, k) && !Covered(c.constraints, k)
    ensures kid in c'.constraints && c'.constraints[kid] == k
  {
    hide Overtakes, Covers;
  }

  lemma NotOvertakenStays(c: Calculus, c': Calculus, kid: Id, k: Constraint, m: Id)
    requires Learns(c, c', kid, k) && m in c.constraints && !Overtakes(k, c.constraints[m])
    ensures m in c'.constraints && c'.constraints[m] == c.constraints[m]
  {
    hide Overtakes, Covers;
  }

  /** When a stored constraint, of whatever scope, covers the new one, learning excludes nothing new
      anywhere, not even in the scope that learned. It keeps what the constraints that the new one
      does not overtake excluded; of those it does overtake, the ones met before the covering one. */
  lemma CoveredLearningExactly(c: Calculus, c': Calculus, kid: Id, k: Constraint, s: Id, v: Values)
    requires Learns(c, c', kid, k) && Covered(c.constraints, k)
    ensures Excluded(c', s, v) <==>
      exists m :: m in c.constraints && c'.constraints[m] == c.constraints[m]
        && c.constraints[m].scope == s && ConstraintViolated(c.constraints[m], v)
    ensures forall m :: m in c.constraints && c'.constraints[m] != c.constraints[m] ==> Overtakes(k, c.constraints[m])
  {
    hide ConstraintViolated, Covers;
    assert c'.constraints[kid].status.Subsumed?;
    if Excluded(c', s, v) {
      var m :| m in c'.constraints && c'.constraints[m].scope == s && ConstraintViolated(c'.constraints[m], v);
      ViolatedIsActive(c'.constraints[m], v);
      assert m != kid && c'.constraints[m] == c.constraints[m];
    }
    forall m | m in c.constraints && c'.constraints[m] == c.constraints[m]
        && c.constraints[m].scope == s && ConstraintViolated(c.constraints[m], v)
      ensures Excluded(c', s, v)
    {
      assert m in c'.constraints;
    }
  }

  lemma ViolatedIsActive(k: Constraint, v: Values)
    requires ConstraintViolated(k, v)
    ensures k.status.ActiveConstraint? && k.strength.Hard?
  {
  }

  /** Subsumption does not compare scopes. Learning a hard no-good makes scope `s` forget that `v` is
      excluded exactly when it was learned for another scope and overtakes every no-good of `s` that
      excludes `v`. */
  lemma ForeignSubsumptionForgets(c: Calculus, c': Calculus, kid: Id, k: Constraint, s: Id, v: Values)
    requires Learns(c, c', kid, k) && !Covered(c.constraints, k)
    requires k.strength.Hard? && k.status.ActiveConstraint?
    ensures Excluded(c, s, v) && !Excluded(c', s, v) <==>
      Excluded(c, s, v) && k.scope != s && forall m :: !StillExcludes(c, k, m, s, v)
  {
    hide ConstraintViolated, Overtakes, Learns;
    LearningExactly(c, c', kid, k, s, v);
    if Excluded(c, s, v) && k.scope == s && forall m :: !StillExcludes(c, k, m, s, v) {
      var m :| m in c.constraints && c.constraints[m].scope == s && ConstraintViolated(c.constraints[m], v);
      assert !StillExcludes(c, k, m, s, v);
      OvertakerViolated(k, c.constraints[m], v);
    }
  }

  /** No live constraint says what another comparable one says already. Learning starts from such a
      store, the empty one, and keeps it so. */
  ghost predicate Irreducible(known: map<Id, Constraint>) {
    forall m, n :: m in known && n in known && m != n && Live(known[m]) && Live(known[n]) ==>
      !Covers(known[m], known[n])
  }

  lemma LearningKeepsIrreducible(c: Calculus, c': Calculus, kid: Id, k: Constraint)
    requires Learns(c, c', kid, k) && Irreducible(c.constraints)
    ensures Irreducible(c'.constraints)
  {
    hide LiteralKeys;
    var known, after := c.constraints, c'.constraints;
    forall m, n | m in after && n in after && m != n && Live(after[m]) && Live(after[n])
      ensures !Covers(after[m], after[n])
    {
      LiveAfter(c, c', kid, k, m);
      LiveAfter(c, c', kid, k, n);
    }
  }

  /** What is live after learning is the new constraint, unless covered, and what was not retired. */
  lemma LiveAfter(c: Calculus, c': Calculus, kid: Id, k: Constraint, m: Id)
    requires Learns(c, c', kid, k) && m in c'.constraints && Live(c'.constraints[m])
    ensures m == kid ==> c'.constraints[m] == k && !Covered(c.constraints, k)
    ensures m != kid ==> m in c.constraints && c'.constraints[m] == c.constraints[m]
    ensures m != kid && !Covered(c.constraints, k) ==> !Overtakes(k, c.constraints[m])
  {
    hide LiteralKeys;
  }

  /** In such a store a covered no-good retires nothing. */
  lemma CoveredRetiresNothing(known: map<Id, Constraint>, k: Constraint, n: Id)
    requires Irreducible(known) && Covered(known, k) && n in known
    ensures !Overtakes(k, known[n])
  {
    hide LiteralKeys;
    var m :| m in known && Covers(known[m], k);
    if Overtakes(k, known[n]) {
      CoversChain(known[m], k, known[n]);
    }
  }

  lemma CoversChain(m: Constraint, k: Constraint, n: Constraint)
    requires Covers(m, k) && Overtakes(k, n)
    ensures Covers(m, n) && m != n
  {
  }

  /** So the store before determines what each scope excludes afterwards, in every case and whatever the
      order of the scan. */
  lemma LearnedStoreExactly(c: Calculus, c': Calculus, kid: Id, k: Constraint, s: Id, v: Values)
    requires Learns(c, c', kid, k) && Irreducible(c.constraints)
    ensures Excluded(c', s, v) <==>
      || (k.scope == s && ConstraintViolated(k, v) && !Covered(c.constraints, k))
      || exists m :: StillExcludes(c, k, m, s, v)
  {
    hide ConstraintViolated, Learns, Overtakes, Irreducible, StillExcludes;
    if Covered(c.constraints, k) {
      CoveredLearningExactly(c, c', kid, k, s, v);
      LearningKeepsStore(c, c', kid, k);
      forall m | m in c.constraints ensures !Overtakes(k, c.constraints[m]) {
        CoveredRetiresNothing(c.constraints, k, m);
      }
      CoveredKeeps(c, k, s, v);
    } else {
      LearningExactly(c, c', kid, k, s, v);
    }
  }

  lemma LearningKeepsStore(c: Calculus, c': Calculus, kid: Id, k: Constraint)
    requires Learns(c, c', kid, k)
    ensures c.constraints.Keys <= c'.constraints.Keys
  {
  }

  lemma CoveredKeeps(c: Calculus, k: Constraint, s: Id, v: Values)
    requires forall m :: m in c.constraints ==> !Overtakes(k, c.constraints[m])
    ensures Excluded(c, s, v) <==> exists m :: StillExcludes(c, k, m, s, v)
  {
    hide ConstraintViolated, Overtakes;
    forall m | m in c.constraints && c.constraints[m].scope == s && ConstraintViolated(c.constraints[m], v)
      ensures StillExcludes(c, k, m, s, v)
    {
    }
  }

  lemma OvertakerViolated(k: Constraint, m: Constraint, v: Values)
    requires k.strength.Hard? && k.status.ActiveConstraint? && Overtakes(k, m) && ConstraintViolated(m, v)
    ensures ConstraintViolated(k, v)
  {
    SmallerBodyHolds(k.body, m.body, v);
  }

  // ----- the records, field by field -----

  /** What an acceptable explanation says: each literal is `subject = value` about the decision it names,
      which the conflict's snapshot lists under its own scoped key; no subject is given two values. */
  lemma ValidExactly(c: Calculus, e: Explanation)
    ensures ExplanationValid(c, e) <==>
      && (|e.literals| > 0 || e.status == RejectedExplanation)
      && e.conflict in c.conflicts && (forall v :: v in e.evidence ==> v in c.conflicts[e.conflict].evidence)
      && (forall l :: l in e.literals ==>
            exists d :: d in c.decisions && l == Literal(c.decisions[d].subject, EQ, c.decisions[d].value, Some(d))
              && (ScopedKey(c.decisions[d].scope, c.decisions[d].subject), d) in c.conflicts[e.conflict].snapshot.Items)
      && (forall l, m :: l in e.literals && m in e.literals && l.value != m.value ==> l.subject != m.subject)
      && (e.status == Proven ==> e.certified)
  {
    if e.conflict in c.conflicts {
      forall l
        ensures Grounded(c, c.conflicts[e.conflict].snapshot, l) <==>
          exists d :: d in c.decisions && l == Literal(c.decisions[d].subject, EQ, c.decisions[d].value, Some(d))
            && (ScopedKey(c.decisions[d].scope, c.decisions[d].subject), d) in c.conflicts[e.conflict].snapshot.Items
      {
        GroundedExactly(c, c.conflicts[e.conflict].snapshot, l);
      }
    }
  }

  lemma GroundedExactly(c: Calculus, snapshot: map<Id, Id>, l: Literal)
    ensures Grounded(c, snapshot, l) <==>
      exists d :: d in c.decisions && l == Literal(c.decisions[d].subject, EQ, c.decisions[d].value, Some(d))
        && (ScopedKey(c.decisions[d].scope, c.decisions[d].subject), d) in snapshot.Items
  {
    if Grounded(c, snapshot, l) {
      var d := l.decision.value;
      assert l == Literal(c.decisions[d].subject, EQ, c.decisions[d].value, Some(d));
    }
  }

  /** What a projected no-good carries besides its body, guard and strength: the standing of its explanation
      as its validation, an enforced or a soft status, and its sources. */
  lemma ProjectedRecord(c: Calculus, eid: Id, e: Explanation, requested: Strength, sequence: nat)
    requires e.conflict in c.conflicts
    ensures var k := Projection(c, eid, e, requested, sequence);
      && (k.validation == ByProof <==> e.status == Proven) && (k.validation == ByValidation <==> e.status == Validated)
      && (k.status == ActiveConstraint <==> k.strength == Hard) && (k.status == SoftConstraint <==> k.strength == Soft)
      && (k.strength == Hard ==> k.validation != Heuristic)
      && (forall l :: l in k.body <==> l in e.literals) && k.conflict == e.conflict && k.explanation == eid
      && k.evidence == e.evidence && k.scope == e.scope && k.createdAt == sequence && k.supersededBy == None
  {
  }

  /** A conflict begins OPEN. */
  lemma ConflictsBeginOpen(c: Calculus, c': Calculus, cid: Id, scope: Id)
    requires Raises(c, cid, scope, c')
    ensures c'.conflicts[cid].status == Open && c'.conflicts[cid].scope == scope
    ensures forall k :: k in c.conflicts ==> k in c'.conflicts && c'.conflicts[k] == c.conflicts[k]
  {
  }

  /** It becomes EXPLAINED with an explanation that is validated or proven, and with no other. */
  lemma ExplainedExactly(c: Calculus, c': Calculus, eid: Id, e: Explanation)
    requires Explains(c, eid, e, c')
    ensures e.conflict in c.conflicts && e.conflict in c'.conflicts
    ensures c'.conflicts[e.conflict] == c.conflicts[e.conflict].(
      explanations := c.conflicts[e.conflict].explanations + {eid},
      status := if e.status == Validated || e.status == Proven then Explained else c.conflicts[e.conflict].status)
  {
    hide Grounded, Consistent;
  }

  /** Learning from it makes it LEARNED and lists what was learned. */
  lemma LearnedFromExactly(c: Calculus, c': Calculus, kid: Id, k: Constraint)
    requires Learns(c, c', kid, k)
    ensures k.conflict in c.conflicts && k.conflict in c'.conflicts
    ensures c'.conflicts[k.conflict] == c.conflicts[k.conflict].(
      status := Learned, learned := c.conflicts[k.conflict].learned + {kid})
  {
    hide Subsumes;
  }

  /** A constraint retired by learning names what retired it, and was ACTIVE or SOFT, of equal strength and
      guard and with a strictly larger body; the new one, if retired, names one with a body no larger. */
  lemma RetirementRecords(c: Calculus, c': Calculus, kid: Id, k: Constraint, m: Id)
    requires Learns(c, c', kid, k) && m in c.constraints
    ensures m in c'.constraints && kid in c'.constraints
    ensures c'.constraints[m] == c.constraints[m]
      || (c'.constraints[m] == c.constraints[m].(status := Subsumed, supersededBy := Some(kid))
          && c.constraints[m].status in {ActiveConstraint, SoftConstraint}
          && c.constraints[m].strength == k.strength && c.constraints[m].guard == k.guard
          && LiteralKeys(k.body) < LiteralKeys(c.constraints[m].body))
    ensures c'.constraints[kid] == k
      || exists n :: n in c.constraints && c'.constraints[kid] == k.(status := Subsumed, supersededBy := Some(n))
           && c.constraints[n].status in {ActiveConstraint, SoftConstraint}
           && c.constraints[n].strength == k.strength && c.constraints[n].guard == k.guard
           && LiteralKeys(c.constraints[n].body) <= LiteralKeys(k.body)
    ensures (&& c.constraints[m].status in {ActiveConstraint, SoftConstraint}
             && c.constraints[m].strength == k.strength && c.constraints[m].guard == k.guard
             && LiteralKeys(c.constraints[m].body) <= LiteralKeys(k.body)) ==> c'.constraints[kid].status == Subsumed
  {
    hide LiteralKeys;
    var stored, added :| Subsumes(c.constraints, kid, k, stored, added) && c'.constraints == stored[kid := added];
    if Covered(c.constraints, k) {
      var n :| n in c.constraints && Covers(c.constraints[n], k) && added == MarkSubsumed(k, n);
      assert c'.constraints[kid] == k.(status := Subsumed, supersededBy := Some(n));
    }
  }

  /** Whether it is enforced or retired at once, the new constraint keeps its strength and what it says. */
  lemma LearnedKeepsStrength(c: Calculus, c': Calculus, kid: Id, k: Constraint)
    requires Learns(c, c', kid, k)
    ensures kid in c'.constraints && c'.constraints[kid].strength == k.strength
  {
    hide Covers, Overtakes;
  }
}
