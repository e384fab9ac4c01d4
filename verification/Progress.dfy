/** A conflict that was raised, explained and learned from can be jumped out of, and exactly when the
    commit accepts the jump. */
module Progress {
  import opened Foundations
  import opened CalculusModel
  import opened Reachability
  import opened Scopes
  import opened Conditions
  import opened Shrinking
  import opened Knowledge
  import opened DecisionGraph
  import opened Backjump
  import opened Locks
  import opened Fairness
  import opened ScopeImpact
  import opened Recovery
  import opened Activation
  import opened Commits
  import opened Engine
  import opened Search
  import opened Runs
  import opened Convergence
  import opened Admission

  // ----- a round can be finished -----

  lemma {:induction false} LeastPivotExists(c: Calculus, candidates: set<Id>) returns (p: Id)
    requires candidates <= c.decisions.Keys && candidates != {}
    ensures IsPivot(c, candidates, p)
  {
    var q :| q in candidates;
    IdLeqTotal(q, q);
    if candidates == {q} {
      p := q;
    } else {
      var best := LeastPivotExists(c, candidates - {q});
      IdLeqTotal(best, q);
      if PivotLeq(c, best, q) {
        p := best;
      } else {
        p := q;
        forall r | r in candidates ensures PivotLeq(c, q, r) {
          if r != q {
            PivotLeqChain(c, q, best, r);
          }
        }
      }
    }
  }

  /** The plan of an explanation with a revisable causal root. */
  lemma PlanExists(c: Calculus, cid: Id, eid: Id) returns (plan: BackjumpPlan)
    requires eid in c.explanations && RevisableRoots(c, c.explanations[eid].literals) != {}
    ensures IsPlan(c, cid, eid, plan) && plan.pivot.Some?
    ensures plan.pivot.value in RevisableRoots(c, c.explanations[eid].literals)
  {
    hide PivotLeq, ExplainedRoots;
    var candidates := RevisableRoots(c, c.explanations[eid].literals);
    var p := LeastPivotExists(c, candidates);
    var gone := Descendants(c, p);
    plan := BackjumpPlan(cid, eid, Some(p), gone, ImpactedObligations(c, gone),
                         ImpactedPlanNodes(c, gone, ImpactedObligations(c, gone)));
  }

  /** The causal roots of root decisions are root decisions. */
  lemma RootsStayAtRoot(c: Calculus, d: Id)
    requires FlowsDown(c) && d in c.decisions && c.decisions[d].scope == ROOT
    ensures forall x :: x in Roots(c, d) ==> x in c.decisions && c.decisions[x].scope == ROOT
  {
    var above := set x | x in c.decisions && c.decisions[x].scope == ROOT;
    assert {d} <= above && Closed(DerivationEdges(c), above);
  }

  lemma RevisableAtRoot(c: Calculus, literals: seq<Literal>, p: Id)
    requires FlowsDown(c) && p in RevisableRoots(c, literals)
    requires forall l :: l in literals ==>
      l.decision.Some? && l.decision.value in c.decisions && c.decisions[l.decision.value].scope == ROOT
    ensures p in c.decisions && c.decisions[p].scope == ROOT
  {
    hide FlowsDown, Roots;
    var l :| l in literals && l.decision.Some? && p in Roots(c, l.decision.value);
    RootsStayAtRoot(c, l.decision.value);
  }

  /** Every violated constraint belongs to the root and contains the explained literals, which name
      effective decisions of the root. */
  ghost predicate Explained(c: Calculus, eid: Id)
    requires eid in c.explanations
  {
    && (forall l :: l in c.explanations[eid].literals ==>
          Effective(c, ROOT, l) && c.decisions[l.decision.value].scope == ROOT)
    && (forall k :: k in Violated(c) ==> Assumptions(c.explanations[eid]) <= c.constraints[k].body)
  }

  /** The backjump of such a conflict succeeds whenever its explanation has a revisable causal root. */
  lemma JumpSucceeds(c: Calculus, cid: Id, eid: Id, at: nat) returns (plan: BackjumpPlan, c': Calculus)
    requires Indexed(c) && ParentsActive(c) && SaneDependencies(c.scopes, c.scopeDeps) && FlowsDown(c)
    requires RootKnowledge(c) && NegationFreeGuards(c)
    requires cid in c.conflicts && eid in c.explanations && ExplanationValid(c, c.explanations[eid]) && Explained(c, eid)
    requires RevisableRoots(c, c.explanations[eid].literals) != {}
    ensures Jumps(c, cid, Some(eid), at, c')
    ensures IsJump(c, cid, Some(eid), plan) && c.decisions[plan.pivot.value].scope == ROOT
    ensures Applicable(c, WidenedPlan(c, plan)) && c' == Settled(Recovered(c, plan, at))
  {
    hide Indexed, ParentsActive, FlowsDown, ExplanationValid, RevisableRoots, Violated, Settled, Recovered, WidenedPlan,
      AfterBackjump, SaneDependencies, Bares;
    plan := PlanExists(c, cid, eid);
    assert Registered(c) by { IndexedRegistered(c); }
    PlanIsApplicable(c, cid, eid, plan);
    RevisableAtRoot(c, c.explanations[eid].literals, plan.pivot.value);
    RootRecovery(c, cid, eid, plan, at);
    c' := Settled(Recovered(c, plan, at));
    ExplainedCleans(c, cid, eid, plan, at);
    SettledKeepsIndexes(Recovered(c, plan, at));
    assert IsJump(c, cid, Some(eid), plan);
    assert JumpsAlong(c, plan, at, c', WidenedPlan(c, plan));
  }

  lemma IndexedRegistered(c: Calculus)
    requires Indexed(c)
    ensures Registered(c)
  {
  }

  lemma ExplainedCleans(c: Calculus, cid: Id, eid: Id, plan: BackjumpPlan, at: nat)
    requires Indexed(c) && ParentsActive(c) && RootKnowledge(c) && NegationFreeGuards(c)
    requires eid in c.explanations && Explained(c, eid) && Applicable(c, plan)
    requires IsPlan(c, cid, eid, plan) && plan.pivot.Some?
    ensures Violated(AfterBackjump(c, plan, at)) == {}
  {
    hide Indexed, ParentsActive, IsPlan, Violated, AfterBackjump, Bares, Relieved, Effective, Applicable;
    var literals := c.explanations[eid].literals;
    forall k, x | k in c.constraints ensures !Bares(c, plan.invalidated, c.constraints[k].scope, x) {
      RootNeverBares(c, plan.invalidated, x);
    }
    assert Violated(c) <= c.constraints.Keys by { ViolatedKnown(c); }
    forall k | k in Violated(c) ensures Relieved(c, literals, plan.invalidated, c.constraints[k]) {
      assert forall l :: l in literals ==> l in c.constraints[k].body;
      RootRelieved(c, cid, eid, plan, c.constraints[k]);
    }
    BackjumpCheckPasses(c, eid, plan, at);
  }

  lemma ViolatedKnown(c: Calculus)
    ensures Violated(c) <= c.constraints.Keys
  {
  }

  // ----- the whole round -----

  /** Raising, explaining and learning, one after the other, from the clean state `c`. */
  ghost predicate LearnedFrom(c: Calculus, cid: Id, raised: Calculus, eid: Id, e: Explanation, explained: Calculus,
                              kid: Id, at: nat, learned: Calculus) {
    && Violated(c) == {} && RaisesHere(c, cid, ROOT, raised)
    && e.conflict == cid && Explains(raised, eid, e, explained)
    && LearnsFrom(explained, eid, kid, Hard, at, learned)
  }

  /** Only recorded knowledge differs. */
  lemma LearnedStructure(c: Calculus, cid: Id, raised: Calculus, eid: Id, e: Explanation, explained: Calculus,
                         kid: Id, at: nat, learned: Calculus)
    requires LearnedFrom(c, cid, raised, eid, e, explained, kid, at, learned)
    ensures learned == c.(constraints := learned.constraints, conflicts := learned.conflicts,
                          explanations := learned.explanations)
    ensures eid in learned.explanations && learned.explanations[eid] == e && explained.constraints == c.constraints
    ensures cid in learned.conflicts && learned.conflicts[cid].snapshot == raised.conflicts[cid].snapshot
    ensures ExplanationValid(explained, e) && ExplanationValid(learned, e)
  {
    hide Subsumes, IsCanonicalSnapshot, Violated, Consistent;
    forall l | l in e.literals ensures Grounded(learned, learned.conflicts[cid].snapshot, l) {
      assert Grounded(raised, raised.conflicts[cid].snapshot, l);
    }
  }

  /** An accepted explanation of a conflict just raised at the root names effective root decisions. */
  lemma LiteralsEffective(c: Calculus, raised: Calculus, cid: Id, e: Explanation, l: Literal)
    requires Indexed(c) && RaisesHere(c, cid, ROOT, raised) && e.conflict == cid
    requires ExplanationValid(raised, e) && l in e.literals
    ensures Effective(c, ROOT, l) && c.decisions[l.decision.value].scope == ROOT
  {
    hide EffectiveDecisions, Consistent, SlotsSound, SlotsComplete, Registered;
    var snapshot := raised.conflicts[cid].snapshot;
    assert Grounded(raised, snapshot, l);
    var d := l.decision.value;
    var key := ScopedKey(c.decisions[d].scope, l.subject);
    var x :| x in EffectiveDecisions(c, ROOT) && EffectiveDecisions(c, ROOT)[x] == snapshot[key]
      && snapshot[key] in c.decisions && key == ScopedKey(c.decisions[snapshot[key]].scope, x);
    ScopedKeyInjective(c.decisions[d].scope, x, l.subject);
    RootChain(c);
    RootEntryActive(c, x);
  }

  /** What learning left violated contains the explanation. */
  lemma OnlyLearnedViolated(c: Calculus, cid: Id, raised: Calculus, eid: Id, e: Explanation, explained: Calculus,
                            kid: Id, at: nat, learned: Calculus, k: Id)
    requires LearnedFrom(c, cid, raised, eid, e, explained, kid, at, learned) && k in Violated(learned)
    ensures k in learned.constraints && Assumptions(e) <= learned.constraints[k].body
  {
    hide ExplanationValid, IsCanonicalSnapshot, LiteralKeys, EffectiveValues;
    LearnedStructure(c, cid, raised, eid, e, explained, kid, at, learned);
    if k != kid {
      SameViolation(c, learned, k);
    }
  }

  lemma SameViolation(c: Calculus, c': Calculus, k: Id)
    requires c' == c.(constraints := c'.constraints, conflicts := c'.conflicts, explanations := c'.explanations)
    requires k in c.constraints && k in c'.constraints && k in Violated(c')
    requires c'.constraints[k] == c.constraints[k] || c'.constraints[k].status.Subsumed?
    ensures k in Violated(c)
  {
    hide EffectiveValues;
    SameReadingOf(c, c', c'.constraints[k].scope);
  }

  lemma SameReadingOf(c: Calculus, c': Calculus, scope: Id)
    requires c' == c.(constraints := c'.constraints, conflicts := c'.conflicts, explanations := c'.explanations)
    ensures EffectiveValues(c', scope) == EffectiveValues(c, scope)
  {
    EffectiveFrame(c, c', scope);
  }

  /** Taking the plan out uncovers, somewhere in the scope, an entry with another value. */
  ghost predicate Uncovers(c: Calculus, gone: set<Id>, s: Id) {
    exists x :: Bares(c, gone, s, x)
  }

  /** In `s` the learned no-good still applies once `gone` is out: its guard holds and all its literals
      are given, by what the scope assigns for itself or still inherits. */
  predicate StillGiven(c: Calculus, gone: set<Id>, e: Explanation, s: Id) {
    s in c.scopes && ROOT in Lineage(c, s)
    && ConditionHolds(e.guard, LeftValues(c, gone, s))
    && forall l :: l in e.literals ==> LiteralHolds(l, LeftValues(c, gone, s))
  }

  predicate Enforced(c: Calculus, kid: Id) {
    kid in c.constraints && c.constraints[kid].status.ActiveConstraint? && c.constraints[kid].strength.Hard?
  }

  /** What a caller can check before the jump: the learned no-good, if it is enforced, is still given in
      no scope, and no scope in which something is uncovered is left violating another no-good whose
      conflict is resolved. */
  ghost predicate Admissible(c: Calculus, gone: set<Id>, e: Explanation, kid: Id) {
    && (Enforced(c, kid) ==> forall s :: !StillGiven(c, gone, e, s))
    && forall s, k :: k != kid && Uncovers(c, gone, s) && LeftViolated(c, gone, s, k) ==> Unresolved(c, c.constraints[k])
  }

  /** The backjump of a round, exactly: from a clean committed state in which a conflict was raised at the
      root, explained and learned from, the jump passes its own check and leaves no violation in any
      no-good's own scope, whenever the explanation has a revisable causal root; and the commit, which
      reads the no-goods in every scope below, accepts it exactly when it is admissible. */
  lemma RoundCanFinish(c: Calculus, cid: Id, raised: Calculus, eid: Id, e: Explanation, explained: Calculus,
                       kid: Id, at: nat, learned: Calculus, jumpAt: nat) returns (plan: BackjumpPlan, c': Calculus)
    requires Steady(c) && ParentsActive(c) && FlowsDown(c) && RootKnowledge(c) && NegationFreeGuards(c) && CommitChecks(c)
    requires LearnedFrom(c, cid, raised, eid, e, explained, kid, at, learned)
    requires e.scope == ROOT && NegationFree(e.guard) && RevisableRoots(c, e.literals) != {}
    ensures IsJump(learned, cid, Some(eid), plan)
    ensures Jumps(learned, cid, Some(eid), jumpAt, c') && Violated(c') == {}
    ensures forall s :: EffectiveValues(c', s) == LeftValues(learned, plan.invalidated, s)
    ensures CommitAdmits(Normalised(c')) <==> Admissible(learned, plan.invalidated, e, kid)
  {
    hide LocksSound, SaneDependencies, ParentsActive, FlowsDown, Violated, Explains, LearnsFrom, RaisesHere, Indexed,
      ExplanationValid, RevisableRoots, Jumps, CommitChecks, Admissible, Settled, WidenedPlan, Recovered, CommitAdmits,
      IsJump, Applicable, ModelsAgree, EffectiveValues, LeftValues;
    LearnedStructure(c, cid, raised, eid, e, explained, kid, at, learned);
    LearnedKnowledge(c, cid, raised, eid, e, explained, kid, at, learned);
    LearnedShape(c, learned, e.literals);
    forall l | l in e.literals
      ensures Effective(learned, ROOT, l) && learned.decisions[l.decision.value].scope == ROOT
    {
      LearnedLiteral(c, cid, raised, eid, e, explained, kid, at, learned, l);
    }
    forall k | k in Violated(learned) ensures k in learned.constraints && Assumptions(e) <= learned.constraints[k].body {
      OnlyLearnedViolated(c, cid, raised, eid, e, explained, kid, at, learned, k);
    }
    plan, c' := JumpSucceeds(learned, cid, eid, jumpAt);
    assert Violated(c') == {} by { JumpIsClean(learned, cid, Some(eid), jumpAt, c'); }
    LearnedCommits(c, cid, raised, eid, e, explained, kid, at, learned);
    RootJumpCommits(learned, cid, eid, plan, jumpAt);
    AdmissibleExactly(c, cid, raised, eid, e, explained, kid, at, learned, plan.invalidated);
  }

  /** With the root as only scope a round can always be finished: the commit accepts the jump. */
  lemma RoundFinishesAlone(c: Calculus, cid: Id, raised: Calculus, eid: Id, e: Explanation, explained: Calculus,
                           kid: Id, at: nat, learned: Calculus, jumpAt: nat) returns (plan: BackjumpPlan, c': Calculus)
    requires Steady(c) && ParentsActive(c) && FlowsDown(c) && RootKnowledge(c) && NegationFreeGuards(c) && CommitChecks(c)
    requires LearnedFrom(c, cid, raised, eid, e, explained, kid, at, learned)
    requires e.scope == ROOT && NegationFree(e.guard) && RevisableRoots(c, e.literals) != {}
    requires c.scopes.Keys == {ROOT}
    ensures Jumps(learned, cid, Some(eid), jumpAt, c') && Violated(c') == {} && CommitAdmits(Normalised(c'))
  {
    hide LearnedFrom, Indexed, ParentsActive, FlowsDown, RootKnowledge, NegationFreeGuards, CommitChecks, RevisableRoots,
      Jumps, EffectiveValues, LeftValues, Bares, CommitAdmits, LocksSound, SaneDependencies, ConstraintViolated, Lineage,
      IsJump, StillGiven, Enforced;
    plan, c' := RoundCanFinish(c, cid, raised, eid, e, explained, kid, at, learned, jumpAt);
    LearnedStructure(c, cid, raised, eid, e, explained, kid, at, learned);
    LearnedRecord(c, cid, raised, eid, e, explained, kid, at, learned);
    JumpKnowledge(learned, cid, Some(eid), jumpAt, c');
    SameIndexes(c, learned);
    forall s, k | LeftViolated(learned, plan.invalidated, s, k) ensures k != kid && !Uncovers(learned, plan.invalidated, s) {
      AloneInRoot(learned, plan.invalidated, s, k, kid, c');
    }
    forall s | Enforced(learned, kid) ensures !StillGiven(learned, plan.invalidated, e, s) {
      LearnedLeft(c, cid, raised, eid, e, explained, kid, at, learned, plan.invalidated, s);
    }
  }

  lemma ViolatedMember(c: Calculus, k: Id)
    requires k in c.constraints && ConstraintViolated(c.constraints[k], EffectiveValues(c, c.constraints[k].scope))
    ensures k in Violated(c)
  {
  }

  lemma AloneInRoot(c: Calculus, gone: set<Id>, s: Id, k: Id, kid: Id, c': Calculus)
    requires Indexed(c) && c.scopes.Keys == {ROOT} && LeftViolated(c, gone, s, k)
    requires kid in c.constraints && c.constraints[kid].scope == ROOT && c'.constraints == c.constraints
    requires Violated(c') == {} && EffectiveValues(c', ROOT) == LeftValues(c, gone, ROOT)
    ensures k != kid && !Uncovers(c, gone, s)
  {
    hide Indexed, EffectiveValues, LeftValues, Bares, ConstraintViolated, Lineage, Violated;
    assert s == ROOT;
    if k == kid {
      ViolatedMember(c', k);
    }
    forall x ensures !Bares(c, gone, ROOT, x) {
      RootNeverBares(c, gone, x);
    }
  }

  lemma LearnedCommits(c: Calculus, cid: Id, raised: Calculus, eid: Id, e: Explanation, explained: Calculus,
                       kid: Id, at: nat, learned: Calculus)
    requires LearnedFrom(c, cid, raised, eid, e, explained, kid, at, learned) && CommitChecks(c)
    ensures CommitChecks(learned)
  {
    hide CommitChecks, Explains, Learns, Violated, Grounded, Consistent, IsCanonicalSnapshot;
    RaisingCommits(c, cid, ROOT, raised);
    ExplainingCommits(raised, eid, e, explained);
    LearningCommits(explained, learned, eid, kid, Hard, at);
  }

  /** With a root pivot exactly the plan's closure is taken out of effect. */
  lemma RootJumpCommits(c: Calculus, cid: Id, eid: Id, plan: BackjumpPlan, at: nat)
    requires Indexed(c) && SaneDependencies(c.scopes, c.scopeDeps) && CommitChecks(c) && IsJump(c, cid, Some(eid), plan)
    requires Applicable(c, WidenedPlan(c, plan)) && c.decisions[plan.pivot.value].scope == ROOT
    ensures CommitAdmits(Normalised(Settled(Recovered(c, plan, at)))) <==>
      forall s, k :: LeftViolated(c, plan.invalidated, s, k) ==>
        Unresolved(c, c.constraints[k]) && c.constraints[k].conflict != cid
    ensures forall s :: EffectiveValues(Settled(Recovered(c, plan, at)), s) == LeftValues(c, plan.invalidated, s)
  {
    hide Indexed, CommitChecks, Settled, Recovered, LeftValues, EffectiveValues, Lineage, ConstraintViolated, Unresolved,
      SaneDependencies, RecoveryHides, WidenedPlan, Applicable, IsPlan, ExplanationValid, Chosen, ModelsAgree;
    JumpCommitsExactly(c, cid, Some(eid), plan, at);
    assert Registered(c) by { IndexedRegistered(c); }
    RootHides(c, cid, eid, plan);
    RecoveryKeepsIndexes(c, cid, eid, plan, at);
    IndexedModelsAgree(Settled(Recovered(c, plan, at)));
    JumpMeans(c, cid, Some(eid), plan);
    forall s ensures EffectiveValues(Settled(Recovered(c, plan, at)), s) == LeftValues(c, plan.invalidated, s) {
      RecoveryLeaves(c, plan, at, s);
    }
  }

  lemma RootHides(c: Calculus, cid: Id, eid: Id, plan: BackjumpPlan)
    requires Registered(c) && IsJump(c, cid, Some(eid), plan) && c.decisions[plan.pivot.value].scope == ROOT
    ensures RecoveryHides(c, plan) == plan.invalidated && plan.explanation == eid
  {
    hide ExplanationValid, IsPlan, Chosen;
    assert plan.explanation == eid by { ChosenIsRequested(c, cid, eid, plan); }
    WidenedApplicable(c, cid, eid, plan);
  }

  lemma ChosenIsRequested(c: Calculus, cid: Id, eid: Id, plan: BackjumpPlan)
    requires IsJump(c, cid, Some(eid), plan)
    ensures plan.explanation == eid
  {
    hide ExplanationValid, IsPlan;
  }

  /** What the commit asks of all no-goods comes down to the learned one and to uncovered entries. */
  lemma AdmissibleExactly(c: Calculus, cid: Id, raised: Calculus, eid: Id, e: Explanation, explained: Calculus,
                          kid: Id, at: nat, learned: Calculus, gone: set<Id>)
    requires Indexed(c) && CommitChecks(c) && NegationFreeGuards(c)
    requires LearnedFrom(c, cid, raised, eid, e, explained, kid, at, learned) && e.scope == ROOT
    ensures (forall s, k :: LeftViolated(learned, gone, s, k) ==>
               Unresolved(learned, learned.constraints[k]) && learned.constraints[k].conflict != cid)
      <==> Admissible(learned, gone, e, kid)
  {
    hide Indexed, CommitChecks, LearnedFrom, LeftViolated, StillGiven, Enforced, Unresolved, Uncovers;
    LearnedRecord(c, cid, raised, eid, e, explained, kid, at, learned);
    forall s ensures LeftViolated(learned, gone, s, kid) <==> Enforced(learned, kid) && StillGiven(learned, gone, e, s) {
      LearnedLeft(c, cid, raised, eid, e, explained, kid, at, learned, gone, s);
    }
    forall s, k | k != kid && LeftViolated(learned, gone, s, k)
      ensures k in learned.constraints && learned.constraints[k].conflict != cid
      ensures !Uncovers(learned, gone, s) ==> Unresolved(learned, learned.constraints[k])
    {
      OtherLeft(c, cid, raised, eid, e, explained, kid, at, learned, gone, s, k);
    }
  }

  lemma LearnedRecord(c: Calculus, cid: Id, raised: Calculus, eid: Id, e: Explanation, explained: Calculus,
                      kid: Id, at: nat, learned: Calculus)
    requires LearnedFrom(c, cid, raised, eid, e, explained, kid, at, learned)
    ensures kid in learned.constraints && kid !in c.constraints && learned.constraints[kid].conflict == cid
    ensures learned.constraints[kid].body == Assumptions(e) && learned.constraints[kid].scope == e.scope
    ensures learned.constraints[kid].guard == if e.guard.Unset? then Const(true) else e.guard
    ensures cid !in c.conflicts
    ensures forall k :: k in learned.constraints && k != kid ==>
      k in c.constraints && (learned.constraints[k] == c.constraints[k] || learned.constraints[k].status.Subsumed?)
    ensures forall k :: k != cid && k in c.conflicts ==> k in learned.conflicts && learned.conflicts[k] == c.conflicts[k]
  {
    hide ExplanationValid, IsCanonicalSnapshot, LiteralKeys, Violated, Covers, Overtakes, Assumptions;
    LearnedStructure(c, cid, raised, eid, e, explained, kid, at, learned);
  }

  lemma LearnedLeft(c: Calculus, cid: Id, raised: Calculus, eid: Id, e: Explanation, explained: Calculus,
                    kid: Id, at: nat, learned: Calculus, gone: set<Id>, s: Id)
    requires LearnedFrom(c, cid, raised, eid, e, explained, kid, at, learned) && e.scope == ROOT
    ensures LeftViolated(learned, gone, s, kid) <==> Enforced(learned, kid) && StillGiven(learned, gone, e, s)
  {
    hide LearnedFrom, LeftValues, Lineage, LiteralHolds;
    LearnedRecord(c, cid, raised, eid, e, explained, kid, at, learned);
  }

  lemma OtherLeft(c: Calculus, cid: Id, raised: Calculus, eid: Id, e: Explanation, explained: Calculus,
                  kid: Id, at: nat, learned: Calculus, gone: set<Id>, s: Id, k: Id)
    requires Indexed(c) && CommitChecks(c) && NegationFreeGuards(c)
    requires LearnedFrom(c, cid, raised, eid, e, explained, kid, at, learned)
    requires k != kid && LeftViolated(learned, gone, s, k)
    ensures k in learned.constraints && learned.constraints[k].conflict != cid
    ensures !Uncovers(learned, gone, s) ==> Unresolved(learned, learned.constraints[k])
  {
    hide Indexed, LearnedFrom, LeftValues, Lineage, LiteralHolds, ConditionHolds, EffectiveValues, OverridesRespected,
      FlowsLegal, IdleScopesEmpty, ScopesKnown, Bares;
    LearnedRecord(c, cid, raised, eid, e, explained, kid, at, learned);
    LearnedStructure(c, cid, raised, eid, e, explained, kid, at, learned);
    assert learned.constraints[k] == c.constraints[k];
    if !Uncovers(learned, gone, s) {
      NothingUncovered(c, learned, gone, s, k);
    }
  }

  /** Where nothing is uncovered, only what the commit tolerated before is left violated. */
  lemma NothingUncovered(c: Calculus, learned: Calculus, gone: set<Id>, s: Id, k: Id)
    requires Indexed(c) && KnowledgeRespected(c) && k in c.constraints && k in learned.constraints
    requires NegationFree(c.constraints[k].guard) && learned.constraints[k] == c.constraints[k]
    requires learned == c.(constraints := learned.constraints, conflicts := learned.conflicts,
                           explanations := learned.explanations)
    requires LeftViolated(learned, gone, s, k) && !Uncovers(learned, gone, s)
    ensures Unresolved(c, c.constraints[k])
  {
    hide Indexed, LeftValues, Lineage, EffectiveValues, Bares, ConstraintViolated;
    LeftFrame(c, learned, gone, s);
    if !ViolatedBelow(c, c.constraints[k], s) {
      LeftViolatedUncovers(c, gone, s, k);
    }
  }

  lemma LeftFrame(c: Calculus, c': Calculus, gone: set<Id>, s: Id)
    requires c' == c.(constraints := c'.constraints, conflicts := c'.conflicts, explanations := c'.explanations)
    ensures LeftValues(c', gone, s) == LeftValues(c, gone, s) && Lineage(c', s) == Lineage(c, s)
    ensures Uncovers(c', gone, s) <==> Uncovers(c, gone, s)
  {
    hide EffectiveValues, InheritanceChain;
    SurvivorsFrame(c, c', gone, InheritanceChain(c.scopes, s));
    EffectiveFrame(c, c', s);
    assert forall x :: Bares(c', gone, s, x) <==> Bares(c, gone, s, x);
  }

  lemma {:induction false} SurvivorsFrame(c: Calculus, c': Calculus, gone: set<Id>, chain: seq<Id>)
    requires c' == c.(constraints := c'.constraints, conflicts := c'.conflicts, explanations := c'.explanations)
    ensures Survivors(c', gone, chain) == Survivors(c, gone, chain)
  {
    hide Layer;
    if chain != [] {
      LayerFrame(c, c', chain[|chain| - 1]);
      SurvivorsFrame(c, c', gone, chain[..|chain| - 1]);
    }
  }

  lemma LayerFrame(c: Calculus, c': Calculus, s: Id)
    requires c' == c.(constraints := c'.constraints, conflicts := c'.conflicts, explanations := c'.explanations)
    ensures Layer(c', s) == Layer(c, s)
  {
  }

  lemma JumpIsClean(c: Calculus, cid: Id, requested: Option<Id>, at: nat, c': Calculus)
    requires Jumps(c, cid, requested, at, c')
    ensures Violated(c') == {}
  {
  }

  lemma LearnedLiteral(c: Calculus, cid: Id, raised: Calculus, eid: Id, e: Explanation, explained: Calculus,
                       kid: Id, at: nat, learned: Calculus, l: Literal)
    requires Indexed(c) && LearnedFrom(c, cid, raised, eid, e, explained, kid, at, learned) && l in e.literals
    ensures Effective(learned, ROOT, l) && learned.decisions[l.decision.value].scope == ROOT
  {
    hide Indexed, LearnsFrom, EffectiveDecisions, ExplanationValid, Violated;
    LearnedStructure(c, cid, raised, eid, e, explained, kid, at, learned);
    LiteralsEffective(c, raised, cid, e, l);
    EffectiveFrame(c, learned, ROOT);
  }

  lemma LearnedKnowledge(c: Calculus, cid: Id, raised: Calculus, eid: Id, e: Explanation, explained: Calculus,
                         kid: Id, at: nat, learned: Calculus)
    requires RootKnowledge(c) && NegationFreeGuards(c)
    requires LearnedFrom(c, cid, raised, eid, e, explained, kid, at, learned)
    requires e.scope == ROOT && NegationFree(e.guard)
    ensures RootKnowledge(learned) && NegationFreeGuards(learned)
  {
    hide ExplanationValid, IsCanonicalSnapshot, LiteralKeys, Violated, Assumptions;
    LearnedStructure(c, cid, raised, eid, e, explained, kid, at, learned);
  }

  /** Indexes, parents, flow and causal roots do not depend on recorded knowledge. */
  lemma LearnedShape(c: Calculus, c': Calculus, literals: seq<Literal>)
    requires c' == c.(constraints := c'.constraints, conflicts := c'.conflicts, explanations := c'.explanations)
    ensures Indexed(c') == Indexed(c) && ParentsActive(c') == ParentsActive(c) && FlowsDown(c') == FlowsDown(c)
    ensures RevisableRoots(c', literals) == RevisableRoots(c, literals)
  {
    SameIndexes(c, c');
    assert DerivationEdges(c') == DerivationEdges(c);
    forall d ensures Roots(c', d) == Roots(c, d) {
      assert forall x :: Derivative(c', x) == Derivative(c, x);
    }
    assert ExplainedRoots(c', literals) == ExplainedRoots(c, literals);
  }
}
