/** How knowledge changes after it was learned: it expires with the evidence it cites, and a certificate
    makes it hard (`invalidate_evidence` of `runtime_v21.py`, `promote_constraint_hard` of
    `runtime_v24.py`). */
module Revision {
  import opened Foundations
  import opened CalculusModel
  import opened Conditions
  import opened Knowledge

  // ----- invalidated evidence -----

  function ExpireExplanation(e: Explanation, evidence: Id): Explanation {
    if evidence in e.evidence && (e.status.Validated? || e.status.Proven?) then e.(status := RejectedExplanation) else e
  }

  function ExpireConstraint(k: Constraint, evidence: Id): Constraint {
    if evidence in k.evidence && Live(k) then k.(status := Expired) else k
  }

  function RejectConflict(k: Conflict, evidence: Id): Conflict {
    if evidence in k.evidence && !k.status.Resolved? && !k.status.RejectedConflict? then k.(status := RejectedConflict)
    else k
  }

  /** Everything that cites the evidence loses its standing. */
  function WithoutEvidence(c: Calculus, evidence: Id): Calculus {
    c.(explanations := map e | e in c.explanations :: ExpireExplanation(c.explanations[e], evidence),
       constraints := map k | k in c.constraints :: ExpireConstraint(c.constraints[k], evidence),
       conflicts := map k | k in c.conflicts :: RejectConflict(c.conflicts[k], evidence))
  }

  method ExpireExplanations(explanations: map<Id, Explanation>, evidence: Id)
    returns (out: map<Id, Explanation>, changed: bool)
    ensures out == map e | e in explanations :: ExpireExplanation(explanations[e], evidence)
    ensures changed <==> out != explanations
  {
    out, changed := explanations, false;
    var rest := explanations.Keys;
    while rest != {}
      invariant rest <= explanations.Keys == out.Keys
      invariant forall e :: e in explanations ==>
        out[e] == if e in rest then explanations[e] else ExpireExplanation(explanations[e], evidence)
      invariant changed <==> exists e :: e in explanations && out[e] != explanations[e]
      decreases rest
    {
      var e :| e in rest;
      rest := rest - {e};
      if evidence in out[e].evidence && (out[e].status.Validated? || out[e].status.Proven?) {
        ghost var before := out;
        out, changed := out[e := out[e].(status := RejectedExplanation)], true;
        assert out[e] != explanations[e];
      }
    }
  }

  method ExpireConstraints(constraints: map<Id, Constraint>, evidence: Id)
    returns (out: map<Id, Constraint>, changed: bool)
    ensures out == map k | k in constraints :: ExpireConstraint(constraints[k], evidence)
    ensures changed <==> out != constraints
  {
    out, changed := constraints, false;
    var rest := constraints.Keys;
    while rest != {}
      invariant rest <= constraints.Keys == out.Keys
      invariant forall k :: k in constraints ==>
        out[k] == if k in rest then constraints[k] else ExpireConstraint(constraints[k], evidence)
      invariant changed <==> exists k :: k in constraints && out[k] != constraints[k]
      decreases rest
    {
      var k :| k in rest;
      rest := rest - {k};
      if evidence in out[k].evidence && Live(out[k]) {
        out, changed := out[k := out[k].(status := Expired)], true;
        assert out[k] != constraints[k];
      }
    }
  }

  method RejectConflicts(conflicts: map<Id, Conflict>, evidence: Id) returns (out: map<Id, Conflict>, changed: bool)
    ensures out == map k | k in conflicts :: RejectConflict(conflicts[k], evidence)
    ensures changed <==> out != conflicts
  {
    out, changed := conflicts, false;
    var rest := conflicts.Keys;
    while rest != {}
      invariant rest <= conflicts.Keys == out.Keys
      invariant forall k :: k in conflicts ==>
        out[k] == if k in rest then conflicts[k] else RejectConflict(conflicts[k], evidence)
      invariant changed <==> exists k :: k in conflicts && out[k] != conflicts[k]
      decreases rest
    {
      var k :| k in rest;
      rest := rest - {k};
      if evidence in out[k].evidence && !out[k].status.Resolved? && !out[k].status.RejectedConflict? {
        out, changed := out[k := out[k].(status := RejectedConflict)], true;
        assert out[k] != conflicts[k];
      }
    }
  }

  /** The three sweeps of `invalidate_evidence`. */
  method ExpireKnowledge(c: Calculus, evidence: Id) returns (next: Calculus, changed: bool)
    ensures next == WithoutEvidence(c, evidence) && (changed <==> next != c)
  {
    var explanations, first := ExpireExplanations(c.explanations, evidence);
    var constraints, second := ExpireConstraints(c.constraints, evidence);
    var conflicts, third := RejectConflicts(c.conflicts, evidence);
    next := c.(explanations := explanations, constraints := constraints, conflicts := conflicts);
    changed := first || second || third;
  }

  /** Some no-good of the scope excludes `v` and does not cite the evidence. */
  ghost predicate Spares(c: Calculus, evidence: Id, scope: Id, v: Values) {
    exists k :: k in c.constraints && c.constraints[k].scope == scope && evidence !in c.constraints[k].evidence
      && ConstraintViolated(c.constraints[k], v)
  }

  /** A valuation stays excluded exactly when some no-good that does not cite the evidence excludes it,
      and none becomes excluded: invalidating evidence opens valuations again. */
  lemma ExpiryExactly(c: Calculus, evidence: Id, scope: Id, v: Values)
    ensures Excluded(WithoutEvidence(c, evidence), scope, v) <==> Spares(c, evidence, scope, v)
    ensures Spares(c, evidence, scope, v) ==> Excluded(c, scope, v)
  {
    hide ConditionHolds, LiteralHolds;
    var c' := WithoutEvidence(c, evidence);
    forall k | k in c.constraints
      ensures ConstraintViolated(c'.constraints[k], v) <==>
        evidence !in c.constraints[k].evidence && ConstraintViolated(c.constraints[k], v)
    {
    }
    assert c'.constraints.Keys == c.constraints.Keys;
    assert forall k :: k in c.constraints ==> c'.constraints[k].scope == c.constraints[k].scope;
  }

  // ----- certified constraints -----

  function Hardened(k: Constraint): Constraint {
    k.(strength := Hard, status := ActiveConstraint)
  }

  /** The constraint is enforced from now on, whatever its strength and status were. */
  function Promoted(c: Calculus, kid: Id): Calculus
    requires kid in c.constraints
  {
    c.(constraints := c.constraints[kid := Hardened(c.constraints[kid])])
  }

  /** A promotion keeps every exclusion and adds exactly what the promoted no-good excludes in its scope. */
  lemma PromotionExactly(c: Calculus, kid: Id, scope: Id, v: Values)
    requires kid in c.constraints
    ensures Excluded(Promoted(c, kid), scope, v) <==>
      || Excluded(c, scope, v)
      || (c.constraints[kid].scope == scope && ConstraintViolated(Hardened(c.constraints[kid]), v))
  {
    hide ConditionHolds, LiteralHolds;
    var c' := Promoted(c, kid);
    if Excluded(c, scope, v) {
      var k :| k in c.constraints && c.constraints[k].scope == scope && ConstraintViolated(c.constraints[k], v);
      assert k in c'.constraints && ConstraintViolated(c'.constraints[k], v);
    }
    assert c'.constraints[kid] == Hardened(c.constraints[kid]);
  }

  // ----- irreducible stores -----

  lemma ExpiryKeepsIrreducible(c: Calculus, evidence: Id)
    requires Irreducible(c.constraints)
    ensures Irreducible(WithoutEvidence(c, evidence).constraints)
  {
    hide LiteralKeys;
  }

  /** A promotion makes no scan for subsumption. It keeps an irreducible store so exactly when the
      promoted no-good covers no live one and is covered by none. */
  lemma PromotionIrreducibleExactly(c: Calculus, kid: Id)
    requires Irreducible(c.constraints) && kid in c.constraints
    ensures Irreducible(Promoted(c, kid).constraints) <==>
      forall m :: m in c.constraints && m != kid && Live(c.constraints[m]) ==>
        !Covers(c.constraints[m], Hardened(c.constraints[kid])) && !Covers(Hardened(c.constraints[kid]), c.constraints[m])
  {
    hide LiteralKeys, Covers;
    var known, after := c.constraints, Promoted(c, kid).constraints;
    assert after[kid] == Hardened(known[kid]) && Live(after[kid]);
    assert forall m :: m in known && m != kid ==> after[m] == known[m];
  }

  // ----- the records, status by status -----

  /** Of all that cites the evidence, a validated or proven explanation is rejected, an ACTIVE or SOFT
      constraint expires, and a conflict that is OPEN, EXPLAINED or LEARNED is rejected; the rest stays. */
  lemma ExpiryRecords(c: Calculus, evidence: Id, e: Id, k: Id, q: Id)
    ensures var c' := WithoutEvidence(c, evidence);
      && c' == c.(explanations := c'.explanations, constraints := c'.constraints, conflicts := c'.conflicts)
      && c'.explanations.Keys == c.explanations.Keys && c'.constraints.Keys == c.constraints.Keys
      && c'.conflicts.Keys == c.conflicts.Keys
      && (e in c.explanations ==>
            c'.explanations[e] ==
            if evidence in c.explanations[e].evidence && c.explanations[e].status in {Validated, Proven}
            then c.explanations[e].(status := RejectedExplanation) else c.explanations[e])
      && (k in c.constraints ==>
            c'.constraints[k] ==
            if evidence in c.constraints[k].evidence && c.constraints[k].status in {ActiveConstraint, SoftConstraint}
            then c.constraints[k].(status := Expired) else c.constraints[k])
      && (q in c.conflicts ==>
            c'.conflicts[q] ==
            if evidence in c.conflicts[q].evidence && c.conflicts[q].status in {Open, Explained, Learned}
            then c.conflicts[q].(status := RejectedConflict) else c.conflicts[q])
  {
  }

  /** A promoted constraint is HARD and ACTIVE, whatever it was, and otherwise as it was. */
  lemma PromotionRecords(c: Calculus, kid: Id)
    requires kid in c.constraints
    ensures Promoted(c, kid) ==
      c.(constraints := c.constraints[kid := c.constraints[kid].(strength := Hard, status := ActiveConstraint)])
  {
  }
}
