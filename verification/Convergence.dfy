/** Conflict-driven search over whole runs of the engine: how often it can conflict, what later states
    are spared, and that a round can always be finished. */
module Convergence {
  import opened Foundations
  import opened CalculusModel
  import opened Scopes
  import opened Conditions
  import opened Shrinking
  import opened Knowledge
  import opened Backjump
  import opened Locks
  import opened Fairness
  import opened Staging
  import opened Restart
  import opened ScopeImpact
  import opened Recovery
  import opened Activation
  import opened Obligations
  import opened Commits
  import opened Revision
  import opened Engine
  import opened Search
  import opened TruthMaintenance
  import opened Runs

  // ----- clean states stay clean -----

  lemma TruthStaysClean(c: Calculus, plan: TruthPlan, at: nat)
    requires Indexed(c) && RootKnowledge(c) && NegationFreeGuards(c) && Violated(c) == {}
    ensures Violated(TruthCalculus(c, plan, at)) == {}
  {
    hide Indexed, Withdraws, Bares, Retires, WithdrawTruth, Violated;
    var mid := WithdrawTruth(c, plan, at);
    TruthRetires(c, plan, at);
    TruthScopes(c, plan, at);
    RetiringWithdraws(c, mid, Withdrawn(c, plan));
    forall k, x | k in c.constraints ensures !Bares(c, Withdrawn(c, plan), c.constraints[k].scope, x) {
      RootNeverBares(c, Withdrawn(c, plan), x);
    }
    ShrinkingIsSafe(c, mid, Withdrawn(c, plan));
    RelockedFrame(mid);
    ViolationFrame(mid, Relocked(mid));
  }

  lemma TruthScopes(c: Calculus, plan: TruthPlan, at: nat)
    requires Indexed(c)
    ensures WithdrawTruth(c, plan, at).scopes == c.scopes && WithdrawTruth(c, plan, at).constraints == c.constraints
    ensures Mirror(WithdrawTruth(c, plan, at))
  {
    TruthRetires(c, plan, at);
  }

  lemma NormalisedViolations(c: Calculus)
    ensures Violated(Normalised(c)) == Violated(c)
  {
    forall s ensures EffectiveValues(Normalised(c), s) == EffectiveValues(c, s) {
      NormalisedProjection(c, s);
    }
  }

  /** The violations of the state that an activation commits are those of its candidate. */
  lemma ActivationViolations(c: Calculus, d: Id, supersede: Option<Id>, at: nat, c': Calculus)
    requires Indexed(c) && CommitsActivation(c, d, supersede, at, c')
    ensures d in c.decisions && d in Audited(c).decisions
    ensures Violated(c') == Violated(Candidate(Audited(c), d, at))
    ensures RespectsKnowledge(Candidate(Audited(c), d, at), c.decisions[d].scope)
  {
    hide MayActivate, ModelsAgree, Settled, Candidate, Indexed, Audited, Violated, RespectsKnowledge;
    AuditedOnly(c);
    assert d in Audited(c).decisions by { MayKnown(Audited(c), d, supersede); }
    var act := Candidate(Audited(c), d, at);
    ViolationFrame(act, NextEpoch(act));
    SettledKeepsIndexes(NextEpoch(act));
    NormalisedViolations(Settled(NextEpoch(act)));
  }

  /** An activation in another scope changes no value of the root, but may end some. */
  lemma ScopedActivationShrinksRoot(c: Calculus, d: Id, at: nat)
    requires Indexed(c) && d in c.decisions && c.decisions[d].scope != ROOT && !c.decisions[d].status.Active?
    ensures Extends(EffectiveValues(c, ROOT), EffectiveValues(Candidate(c, d, at), ROOT))
    ensures Candidate(c, d, at).constraints == c.constraints
  {
    hide Freed, Ousted, SlotsSound, SlotsComplete, Registered, EffectiveDecisions, InheritanceChain;
    var act := Candidate(c, d, at);
    FreedFrame(c, d);
    CandidateFrame(c, d, at);
    RootChain(c);
    RootChain(act);
    assert act.activeModel == c.activeModel;
    forall x | x in EffectiveValues(act, ROOT)
      ensures x in EffectiveValues(c, ROOT) && EffectiveValues(c, ROOT)[x] == EffectiveValues(act, ROOT)[x]
    {
      RootEntryActive(c, x);
      assert c.activeModel[x] in c.decisions;
    }
  }

  lemma ScopedActivationIsSafe(c: Calculus, d: Id, at: nat)
    requires Indexed(c) && d in c.decisions && c.decisions[d].scope != ROOT && !c.decisions[d].status.Active?
    requires RootKnowledge(c) && NegationFreeGuards(c)
    ensures Violated(Candidate(c, d, at)) <= Violated(c)
  {
    hide Candidate, Indexed, EffectiveValues, ConstraintViolated;
    var act := Candidate(c, d, at);
    ScopedActivationShrinksRoot(c, d, at);
    forall k | k in Violated(act) ensures k in Violated(c) {
      ViolationMonotone(c.constraints[k], EffectiveValues(act, ROOT), EffectiveValues(c, ROOT));
    }
  }

  lemma RootEntryActive(c: Calculus, x: Id)
    requires Indexed(c) && x in c.activeModel
    ensures IsActive(c, c.activeModel[x]) && c.decisions[c.activeModel[x]].scope == ROOT
  {
    assert x in c.models[ROOT];
  }

  lemma ActivationStaysClean(c: Calculus, d: Id, supersede: Option<Id>, at: nat, c': Calculus)
    requires Indexed(c) && RootKnowledge(c) && NegationFreeGuards(c) && Violated(c) == {}
    requires CommitsActivation(c, d, supersede, at, c')
    ensures Violated(c') == {}
  {
    hide ModelsAgree, ActivatesDecision, Settled, Candidate, Indexed, Audited, EffectiveValues, ConstraintViolated;
    ActivationViolations(c, d, supersede, at, c');
    AuditKeepsIndexes(c);
    AuditedOnly(c);
    var start := Audited(c);
    var act := Candidate(start, d, at);
    ViolationFrame(c, start);
    if c.decisions[d].scope != ROOT {
      CandidateWasIdle(c, d, supersede, at, c');
      ScopedActivationIsSafe(start, d, at);
    } else {
      CandidateFrame(start, d, at);
    }
  }

  lemma CandidateWasIdle(c: Calculus, d: Id, supersede: Option<Id>, at: nat, c': Calculus)
    requires CommitsActivation(c, d, supersede, at, c')
    ensures d in Audited(c).decisions && !Audited(c).decisions[d].status.Active?
  {
    hide ModelsAgree, ActivationAccepted, Settled, Candidate, Audited;
  }

  // ----- knowledge that only expires -----

  /** No constraint is new or changed, except that some have expired. */
  ghost predicate OnlyExpires(c: Calculus, c': Calculus) {
    c'.constraints.Keys == c.constraints.Keys
    && forall k :: k in c.constraints ==>
      c'.constraints[k] == c.constraints[k] || c'.constraints[k] == c.constraints[k].(status := Expired)
  }

  /** Steps after which more may be excluded than before. */
  predicate Strengthens(s: Step) {
    s.LearnStep? || s.PromoteStep?
  }

  lemma StepOnlyExpires(c: Calculus, s: Step, at: nat, c': Calculus)
    requires Steady(c) && Takes(c, s, at, c') && !Strengthens(s)
    ensures OnlyExpires(c, c')
  {
    hide Steady;
    if s.ExpireStep? {
      ExpiryOnlyExpires(c, s.evidence);
    } else {
      StepKeepsKnowledge(c, s, at, c');
    }
  }

  lemma ExpiryOnlyExpires(c: Calculus, evidence: Id)
    ensures OnlyExpires(c, WithoutEvidence(c, evidence))
  {
  }

  lemma OnlyExpiresChain(a: Calculus, b: Calculus, c: Calculus)
    requires OnlyExpires(a, b) && OnlyExpires(b, c)
    ensures OnlyExpires(a, c)
  {
  }

  /** Expiry opens valuations and never closes one. */
  lemma ExpiryOpens(c: Calculus, c': Calculus, scope: Id, v: Values)
    requires OnlyExpires(c, c')
    ensures Excluded(c', scope, v) ==> Excluded(c, scope, v)
    ensures RootKnowledge(c) ==> RootKnowledge(c')
    ensures NegationFreeGuards(c) ==> NegationFreeGuards(c')
  {
    hide ConditionHolds, LiteralHolds;
  }

  lemma QuietStaysClean(c: Calculus, s: Step, at: nat, c': Calculus)
    requires Steady(c) && Takes(c, s, at, c') && LeavesModel(s) && !Strengthens(s)
    ensures Violated(c') <= Violated(c)
  {
    hide Takes, Steady, EffectiveValues, OnlyExpires;
    ModelLeft(c, s, at, c');
    SameModelKeeps(c, c');
    StepOnlyExpires(c, s, at, c');
    FewerViolations(c, c');
  }

  lemma FewerViolations(c: Calculus, c': Calculus)
    requires OnlyExpires(c, c') && SameProjection(c, c')
    ensures Violated(c') <= Violated(c)
  {
    hide ConditionHolds, LiteralHolds, EffectiveValues;
    forall k | k in Violated(c') ensures k in Violated(c) {
      EffectiveFrame(c, c', c'.constraints[k].scope);
    }
  }

  /** No step but learning and promotion can make a clean state violate a root no-good whose guard is free
      of `not`. */
  lemma StepStaysClean(c: Calculus, s: Step, at: nat, c': Calculus)
    requires Steady(c) && RootKnowledge(c) && NegationFreeGuards(c) && Violated(c) == {}
    requires Takes(c, s, at, c') && !Strengthens(s)
    ensures Violated(c') == {}
  {
    hide Stages, CommitsActivation, TruthCalculus, AfterRestart, AfterScopeRestart, Violated, Indexed, LocksSound,
      SaneDependencies, RootKnowledge, NegationFreeGuards;
    match s
    case StageStep(assignments) => StageEnforces(c, assignments, at, c');
    case ActivateStep(d, supersede) => ActivationStaysClean(c, d, supersede, at, c');
    case JumpStep(cid, requested) =>
    case RestartStep =>
    case ScopeRestartStep(scope) =>
    case TruthStep(plan) => TruthStaysClean(c, plan, at);
    case _ => QuietStaysClean(c, s, at, c');
  }

  /** Nothing is learned or promoted between `i` and `j`. */
  ghost predicate NoLearning(steps: seq<Step>, i: nat, j: nat) {
    forall k :: i <= k < j && k < |steps| ==> !Strengthens(steps[k])
  }

  lemma {:induction false} KnowledgeOnlyExpires(states: seq<Calculus>, steps: seq<Step>, first: nat, i: nat, j: nat)
    requires IsRun(states, steps, first) && Steady(states[0]) && i <= j <= |steps| && NoLearning(steps, i, j)
    ensures OnlyExpires(states[i], states[j])
    decreases j
  {
    hide Takes, Steady, OnlyExpires;
    if i < j {
      KnowledgeOnlyExpires(states, steps, first, i, j - 1);
      RunKeepsSteady(states, steps, first);
      assert Takes(states[j - 1], steps[j - 1], first + j - 1, states[j]);
      StepOnlyExpires(states[j - 1], steps[j - 1], first + j - 1, states[j]);
      OnlyExpiresChain(states[i], states[j - 1], states[j]);
    } else {
      NothingExpires(states[i]);
    }
  }

  lemma NothingExpires(c: Calculus)
    ensures OnlyExpires(c, c)
  {
  }

  /** From a clean state on, until something is learned or promoted, no state of a run violates a
      no-good: no later state satisfies a learned body. */
  lemma {:induction false} RunStaysClean(states: seq<Calculus>, steps: seq<Step>, first: nat, i: nat, j: nat)
    requires IsRun(states, steps, first) && Steady(states[0]) && i <= j <= |steps| && NoLearning(steps, i, j)
    requires RootKnowledge(states[i]) && NegationFreeGuards(states[i]) && Violated(states[i]) == {}
    ensures Violated(states[j]) == {} && !Excluded(states[j], ROOT, EffectiveValues(states[j], ROOT))
    decreases j
  {
    hide Takes, Steady, Violated, EffectiveValues, Excluded, OnlyExpires, RootKnowledge, NegationFreeGuards;
    if i < j {
      RunStaysClean(states, steps, first, i, j - 1);
      RunKeepsSteady(states, steps, first);
      KnowledgeOnlyExpires(states, steps, first, i, j - 1);
      ExpiryOpens(states[i], states[j - 1], ROOT, map[]);
      assert Takes(states[j - 1], steps[j - 1], first + j - 1, states[j]);
      StepStaysClean(states[j - 1], steps[j - 1], first + j - 1, states[j]);
    }
    ExcludedIsViolated(states[j]);
  }

  /** In particular after every backjump: the round it ends leaves a clean state, and all states
      until the next learning avoid every valuation that any round so far has excluded. */
  lemma RoundEndsClean(states: seq<Calculus>, steps: seq<Step>, first: nat, i: nat, j: nat)
    requires IsRun(states, steps, first) && Steady(states[0]) && i < j <= |steps|
    requires steps[i].JumpStep? && NoLearning(steps, i + 1, j)
    requires RootKnowledge(states[i]) && NegationFreeGuards(states[i])
    ensures Violated(states[j]) == {} && !Excluded(states[j], ROOT, EffectiveValues(states[j], ROOT))
  {
    hide Takes, Steady, Violated, EffectiveValues, Excluded, OnlyExpires, RootKnowledge, NegationFreeGuards;
    assert Takes(states[i], steps[i], first + i, states[i + 1]);
    JumpStepIsClean(states[i], steps[i], first + i, states[i + 1]);
    KnowledgeOnlyExpires(states, steps, first, i, i + 1);
    ExpiryOpens(states[i], states[i + 1], ROOT, map[]);
    RunStaysClean(states, steps, first, i + 1, j);
  }

  /** Every store that a run without promotions reaches from an irreducible one is irreducible, so that
      `Knowledge.LearnedStoreExactly` speaks about every learning step of the run. What a promotion
      does is in `Revision.PromotionIrreducibleExactly`. */
  lemma {:induction false} RunKeepsIrreducible(states: seq<Calculus>, steps: seq<Step>, first: nat, i: nat)
    requires IsRun(states, steps, first) && Steady(states[0]) && Irreducible(states[0].constraints) && i <= |steps|
    requires forall j :: 0 <= j < i ==> !steps[j].PromoteStep?
    ensures Irreducible(states[i].constraints)
  {
    hide Takes, Steady, Irreducible, Learns;
    if i > 0 {
      RunKeepsIrreducible(states, steps, first, i - 1);
      RunKeepsSteady(states, steps, first);
      assert Takes(states[i - 1], steps[i - 1], first + i - 1, states[i]);
      StepKeepsIrreducible(states[i - 1], steps[i - 1], first + i - 1, states[i]);
    }
  }

  lemma StepKeepsIrreducible(c: Calculus, s: Step, at: nat, c': Calculus)
    requires Steady(c) && Takes(c, s, at, c') && !s.PromoteStep? && Irreducible(c.constraints)
    ensures Irreducible(c'.constraints)
  {
    hide Steady, Irreducible, Learns;
    if s.LearnStep? {
      LearnStepMeans(c, s, at, c');
      LearningKeepsIrreducible(c, c', s.constraintId, Projected(c, s.explanationId, s.strength, at));
    } else if s.ExpireStep? {
      ExpiryKeepsIrreducible(c, s.evidence);
    } else {
      StepKeepsKnowledge(c, s, at, c');
    }
  }

  lemma JumpStepIsClean(c: Calculus, s: Step, at: nat, c': Calculus)
    requires s.JumpStep? && Takes(c, s, at, c')
    ensures Violated(c') == {}
  {
    hide IsJump, JumpsAlong;
  }

  // ----- every conflict closes a valuation -----

  /** All learning concerns the root scope. */
  ghost predicate LearnsAtRoot(states: seq<Calculus>, steps: seq<Step>)
    requires |states| == |steps| + 1
  {
    forall i :: 0 <= i < |steps| ==> AtRoot(states[i], steps[i])
  }

  ghost predicate AtRoot(c: Calculus, s: Step) {
    s.LearnStep? ==> s.explanationId in c.explanations && c.explanations[s.explanationId].scope == ROOT
  }

  lemma StepKeepsSearching(c: Calculus, s: Step, at: nat, c': Calculus, subjects: seq<Id>, domain: Domain)
    requires Steady(c) && Searching(c, subjects, domain) && Takes(c, s, at, c') && AtRoot(c, s)
    ensures Searching(c', subjects, domain)
  {
    hide Searching, Steady, SameDecisions, Drifts;
    StepKeepsSteady(c, s, at, c');
    SteadyMeans(c');
    if s.LearnStep? {
      LearnKeepsSearching(c, s.explanationId, s.constraintId, s.strength, at, c', subjects, domain);
    } else if RevisesKnowledge(s) {
      RevisionKeepsSearching(c, s, at, c', subjects, domain);
    } else {
      StepDrifts(c, s, at, c');
      DriftKeepsSearching(c, c', subjects, domain);
    }
  }

  lemma RevisionKeepsSearching(c: Calculus, s: Step, at: nat, c': Calculus, subjects: seq<Id>, domain: Domain)
    requires Searching(c, subjects, domain) && Takes(c, s, at, c') && (s.ExpireStep? || s.PromoteStep?) && Indexed(c')
    ensures Searching(c', subjects, domain)
  {
    hide Indexed;
  }

  lemma DriftKeepsSearching(c: Calculus, c': Calculus, subjects: seq<Id>, domain: Domain)
    requires Searching(c, subjects, domain) && Drifts(c, c')
    ensures Searching(c', subjects, domain)
  {
    SearchingFrame(c, c', subjects, domain);
  }

  /** No step but an expiry forgets an exclusion of the root; an expiry forgets it exactly when every
      no-good that excludes the valuation cites the evidence. */
  lemma StepKeepsExclusion(c: Calculus, s: Step, at: nat, c': Calculus, subjects: seq<Id>, domain: Domain, v: Values)
    requires Steady(c) && Searching(c, subjects, domain) && Takes(c, s, at, c') && AtRoot(c, s)
    requires Excluded(c, ROOT, v)
    ensures Excluded(c', ROOT, v) <==> (s.ExpireStep? ==> Spares(c, s.evidence, ROOT, v))
  {
    hide Steady, Indexed, Excluded, LearnsFrom, Drifts, Spares;
    if s.LearnStep? {
      LearningExcludes(c, s.explanationId, s.constraintId, s.strength, at, c', v);
    } else if s.ExpireStep? {
      ExpiryExactly(c, s.evidence, ROOT, v);
    } else if s.PromoteStep? {
      PromotionExactly(c, s.promoted, ROOT, v);
    } else {
      StepDrifts(c, s, at, c');
      assert c'.constraints == c.constraints by { DriftsMean(c, c'); }
      ExclusionFrame(c, c', v);
    }
  }

  lemma DriftsMean(c: Calculus, c': Calculus)
    requires Drifts(c, c')
    ensures c'.constraints == c.constraints
  {
  }

  /** The step enforces, from now on, a root no-good that excludes `v`. */
  predicate Rules(c: Calculus, s: Step, at: nat, v: Values) {
    match s
    case LearnStep(eid, _, strength) =>
      eid in c.explanations && c.explanations[eid].conflict in c.conflicts
      && ConstraintViolated(Projected(c, eid, strength, at), v)
    case PromoteStep(kid) =>
      kid in c.constraints && c.constraints[kid].scope == ROOT && ConstraintViolated(Hardened(c.constraints[kid]), v)
    case _ => false
  }

  /** It excludes some valuation that was open. */
  ghost predicate Closes(c: Calculus, s: Step, at: nat, space: set<Values>) {
    exists v :: v in Allowed(c, space) && Rules(c, s, at, v)
  }

  /** Expiry apart, no step opens a valuation, and a closing step shrinks the open space strictly. */
  lemma ClosingShrinks(c: Calculus, s: Step, at: nat, c': Calculus, subjects: seq<Id>, domain: Domain)
    requires Steady(c) && Searching(c, subjects, domain) && Takes(c, s, at, c') && AtRoot(c, s)
    ensures var space := Partial(subjects, domain);
      && (Allowed(c', space) <= Allowed(c, space) <==>
          forall v :: v in space && Excluded(c, ROOT, v) && s.ExpireStep? ==> Spares(c, s.evidence, ROOT, v))
      && (Closes(c, s, at, space) ==> Allowed(c', space) < Allowed(c, space))
  {
    hide Steady, Excluded, LearnsFrom, Takes, Rules, Indexed, Spares, Searching;
    var space := Partial(subjects, domain);
    forall v | v in space && Excluded(c, ROOT, v)
      ensures Excluded(c', ROOT, v) <==> (s.ExpireStep? ==> Spares(c, s.evidence, ROOT, v))
    {
      StepKeepsExclusion(c, s, at, c', subjects, domain, v);
    }
    OpensNothing(c, c', space);
    if Closes(c, s, at, space) {
      var v :| v in Allowed(c, space) && Rules(c, s, at, v);
      RuledIsExcluded(c, s, at, c', subjects, domain, v);
      assert v in Allowed(c, space) && v !in Allowed(c', space);
    }
  }

  lemma OpensNothing(c: Calculus, c': Calculus, space: set<Values>)
    ensures Allowed(c', space) <= Allowed(c, space) <==>
      forall v :: v in space && Excluded(c, ROOT, v) ==> Excluded(c', ROOT, v)
  {
    hide Excluded;
    if Allowed(c', space) <= Allowed(c, space) {
      forall v | v in space && Excluded(c, ROOT, v) ensures Excluded(c', ROOT, v) {
        assert v !in Allowed(c, space);
      }
    }
  }

  lemma RuledIsExcluded(c: Calculus, s: Step, at: nat, c': Calculus, subjects: seq<Id>, domain: Domain, v: Values)
    requires Searching(c, subjects, domain) && Takes(c, s, at, c') && AtRoot(c, s) && Rules(c, s, at, v)
    ensures Excluded(c', ROOT, v) && !s.ExpireStep?
  {
    hide Indexed, Excluded, LearnsFrom, ConstraintViolated, Projected;
    if s.LearnStep? {
      LearnStepMeans(c, s, at, c');
      LearningExcludes(c, s.explanationId, s.constraintId, s.strength, at, c', v);
    } else {
      PromotionExactly(c, s.promoted, ROOT, v);
    }
  }

  lemma LearnStepMeans(c: Calculus, s: Step, at: nat, c': Calculus)
    requires s.LearnStep? && Takes(c, s, at, c')
    ensures LearnsFrom(c, s.explanationId, s.constraintId, s.strength, at, c')
  {
  }

  /** How many steps of the run close a valuation. */
  ghost function Closings(states: seq<Calculus>, steps: seq<Step>, first: nat, space: set<Values>): nat
    requires |states| == |steps| + 1
  {
    if steps == [] then 0
    else
      var n := |steps| - 1;
      Closings(states[..n + 1], steps[..n], first, space)
      + if Closes(states[n], steps[n], first + n, space) then 1 else 0
  }

  /** How often evidence is invalidated. */
  function Expiries(steps: seq<Step>): nat {
    if steps == [] then 0
    else Expiries(steps[..|steps| - 1]) + if steps[|steps| - 1].ExpireStep? then 1 else 0
  }

  /** A step that closes a valuation takes one away; an expiry gives back at most all of them. */
  lemma StepCostsSpace(c: Calculus, s: Step, at: nat, c': Calculus, subjects: seq<Id>, domain: Domain)
    requires Steady(c) && Searching(c, subjects, domain) && Takes(c, s, at, c') && AtRoot(c, s)
    ensures var space := Partial(subjects, domain);
      (if Closes(c, s, at, space) then 1 else 0) + |Allowed(c', space)|
      <= |Allowed(c, space)| + if s.ExpireStep? then |space| else 0
  {
    hide Takes, Steady, Searching, Allowed, Closes, Excluded, Spares, AtRoot;
    var space := Partial(subjects, domain);
    ClosingShrinks(c, s, at, c', subjects, domain);
    if s.ExpireStep? {
      NoRuleExpires(c, s, at, space);
      AllowedSize(c', space);
    } else {
      SubsetSize(Allowed(c', space), Allowed(c, space));
      if Closes(c, s, at, space) {
        SmallerSet(Allowed(c', space), Allowed(c, space));
      }
    }
  }

  /** One full space at the start and another one for each expiry. */
  function Budget(size: nat, steps: seq<Step>): nat {
    if steps == [] then size
    else Budget(size, steps[..|steps| - 1]) + if steps[|steps| - 1].ExpireStep? then size else 0
  }

  lemma {:induction false} BudgetIsProduct(size: nat, steps: seq<Step>)
    ensures Budget(size, steps) == size * (1 + Expiries(steps))
  {
    if steps != [] {
      BudgetIsProduct(size, steps[..|steps| - 1]);
      OnceMore(size, 1 + Expiries(steps[..|steps| - 1]));
    }
  }

  lemma {:induction false} ClosingsCostSpace(
    states: seq<Calculus>, steps: seq<Step>, first: nat, subjects: seq<Id>, domain: Domain)
    requires IsRun(states, steps, first) && Steady(states[0]) && LearnsAtRoot(states, steps)
    requires Searching(states[0], subjects, domain)
    ensures Searching(states[|steps|], subjects, domain)
    ensures var space := Partial(subjects, domain);
      Closings(states, steps, first, space) + |Allowed(states[|steps|], space)| <= Budget(|space|, steps)
    decreases |steps|
  {
    hide Takes, Steady, Searching, Allowed, Closes, AtRoot, Partial, LearnsAtRoot;
    var space := Partial(subjects, domain);
    if steps == [] {
      AllowedSize(states[0], space);
    } else {
      var n := |steps| - 1;
      ShorterRun(states, steps, first);
      assert states[..n + 1][0] == states[0] && states[..n + 1][n] == states[n];
      ShorterLearns(states, steps);
      ClosingsCostSpace(states[..n + 1], steps[..n], first, subjects, domain);
      RunKeepsSteady(states[..n + 1], steps[..n], first);
      StepKeepsSearching(states[n], steps[n], first + n, states[n + 1], subjects, domain);
      StepCostsSpace(states[n], steps[n], first + n, states[n + 1], subjects, domain);
    }
  }

  lemma OnceMore(m: nat, k: nat)
    ensures m * (k + 1) == m * k + m
  {
  }

  lemma AllowedSize(c: Calculus, space: set<Values>)
    ensures |Allowed(c, space)| <= |space|
  {
    SubsetSize(Allowed(c, space), space);
  }

  lemma NoRuleExpires(c: Calculus, s: Step, at: nat, space: set<Values>)
    requires s.ExpireStep?
    ensures !Closes(c, s, at, space)
  {
  }

  lemma ShorterLearns(states: seq<Calculus>, steps: seq<Step>)
    requires |states| == |steps| + 1 && steps != [] && LearnsAtRoot(states, steps)
    ensures LearnsAtRoot(states[..|steps|], steps[..|steps| - 1])
    ensures AtRoot(states[|steps| - 1], steps[|steps| - 1])
  {
    hide AtRoot;
  }

  /** However a run of the engine goes, whatever activates its models, hardens or softens its
      knowledge and jumps or does not: between two invalidations of evidence, the steps that close an
      open valuation number at most the partial valuations. */
  lemma SearchIsBounded(states: seq<Calculus>, steps: seq<Step>, first: nat, subjects: seq<Id>, domain: Domain)
    requires IsRun(states, steps, first) && Steady(states[0]) && LearnsAtRoot(states, steps)
    requires Searching(states[0], subjects, domain)
    ensures Closings(states, steps, first, Partial(subjects, domain)) <= Bound(subjects, domain) * (1 + Expiries(steps))
  {
    hide Takes, Steady, Searching, Closings;
    ClosingsCostSpace(states, steps, first, subjects, domain);
    PartialSize(subjects, domain);
    BudgetIsProduct(|Partial(subjects, domain)|, steps);
    ProductMonotone(|Partial(subjects, domain)|, Bound(subjects, domain), 1 + Expiries(steps));
  }

  lemma ProductMonotone(m: nat, n: nat, k: nat)
    requires m <= n
    ensures m * k <= n * k
  {
  }

  lemma {:induction false} SearchingThroughout(
    states: seq<Calculus>, steps: seq<Step>, first: nat, subjects: seq<Id>, domain: Domain, j: nat)
    requires IsRun(states, steps, first) && Steady(states[0]) && LearnsAtRoot(states, steps) && j <= |steps|
    requires Searching(states[0], subjects, domain)
    ensures Searching(states[j], subjects, domain) && Steady(states[j])
    decreases j
  {
    hide Takes, Steady, Searching, AtRoot;
    RunKeepsSteady(states, steps, first);
    if j > 0 {
      SearchingThroughout(states, steps, first, subjects, domain, j - 1);
      assert Takes(states[j - 1], steps[j - 1], first + j - 1, states[j]);
      assert AtRoot(states[j - 1], steps[j - 1]);
      StepKeepsSearching(states[j - 1], steps[j - 1], first + j - 1, states[j], subjects, domain);
    }
  }

  /** Every expiry of the run from `i` to `j` spares `v`. */
  ghost predicate AllSpare(states: seq<Calculus>, steps: seq<Step>, i: nat, j: nat, v: Values)
    requires |states| == |steps| + 1 && j <= |steps|
  {
    forall m :: i <= m < j && steps[m].ExpireStep? ==> Spares(states[m], steps[m].evidence, ROOT, v)
  }

  /** What is excluded at the root stays excluded throughout, exactly when every expiry on the way
      spares it; without expiries, always. */
  lemma {:induction false} ExclusionsPersist(
    states: seq<Calculus>, steps: seq<Step>, first: nat, subjects: seq<Id>, domain: Domain, i: nat, j: nat, v: Values)
    requires IsRun(states, steps, first) && Steady(states[0]) && LearnsAtRoot(states, steps) && i <= j <= |steps|
    requires Searching(states[0], subjects, domain) && Excluded(states[i], ROOT, v)
    ensures (forall m :: i <= m <= j ==> Excluded(states[m], ROOT, v)) <==> AllSpare(states, steps, i, j, v)
    decreases j
  {
    hide Takes, Steady, Searching, AtRoot, Excluded, Spares;
    if i < j {
      ExclusionsPersist(states, steps, first, subjects, domain, i, j - 1, v);
      SearchingThroughout(states, steps, first, subjects, domain, j - 1);
      assert Takes(states[j - 1], steps[j - 1], first + j - 1, states[j]);
      assert AtRoot(states[j - 1], steps[j - 1]);
      if Excluded(states[j - 1], ROOT, v) {
        StepKeepsExclusion(states[j - 1], steps[j - 1], first + j - 1, states[j], subjects, domain, v);
      }
    }
  }

  // ----- from conflict to closing -----

  /** Conflicts keep what explanations are checked against. */
  ghost predicate ConflictsKept(c: Calculus, c': Calculus) {
    forall k :: k in c.conflicts ==>
      && k in c'.conflicts && c'.conflicts[k].snapshot == c.conflicts[k].snapshot
      && c'.conflicts[k].kind == c.conflicts[k].kind && c'.conflicts[k].scope == c.conflicts[k].scope
  }

  lemma ConflictsKeptChain(a: Calculus, b: Calculus, c: Calculus)
    requires ConflictsKept(a, b) && ConflictsKept(b, c)
    ensures ConflictsKept(a, c)
  {
  }

  lemma KeptByItself(c: Calculus)
    ensures ConflictsKept(c, c) && SameDecisions(c, c)
  {
  }

  lemma JumpKeepsConflicts(c: Calculus, cid: Id, requested: Option<Id>, at: nat, c': Calculus)
    requires Jumps(c, cid, requested, at, c')
    ensures ConflictsKept(c, c')
  {
    hide Settled, WidenedPlan, Applicable, IsPlan, Chosen, ExplanationValid, Violated;
    var plan :| IsJump(c, cid, requested, plan) && JumpsAlong(c, plan, at, c', WidenedPlan(c, plan));
    SettledFrame(Recovered(c, plan, at));
  }

  lemma ActivationKeepsConflicts(c: Calculus, d: Id, supersede: Option<Id>, at: nat, c': Calculus)
    requires Indexed(c) && CommitsActivation(c, d, supersede, at, c')
    ensures c'.conflicts == c.conflicts
  {
    hide MayActivate, ActivationAccepted, ModelsAgree, Settled, Candidate, Indexed, Audited;
    AuditedOnly(c);
    AuditKeepsIndexes(c);
    assert d in Audited(c).decisions by { MayKnown(Audited(c), d, supersede); }
    CandidateFrame(Audited(c), d, at);
    SettledFrame(NextEpoch(Candidate(Audited(c), d, at)));
  }

  lemma StepKeepsConflicts(c: Calculus, s: Step, at: nat, c': Calculus)
    requires Steady(c) && Takes(c, s, at, c')
    ensures ConflictsKept(c, c')
  {
    hide Stages, CommitsActivation, Jumps, Settled, Indexed, LocksSound, SaneDependencies, WithdrawTruth, Relocked,
      Violated, LearnsFrom, Explains, Raises, CanEnable, CanLock, CanSetStatus;
    match s
    case StageStep(assignments) => StageEnforces(c, assignments, at, c');
    case ActivateStep(d, supersede) => ActivationKeepsConflicts(c, d, supersede, at, c');
    case JumpStep(cid, requested) => JumpKeepsConflicts(c, cid, requested, at, c');
    case RestartStep => SettledFrame(Restart.Cleared(c));
    case ScopeRestartStep(scope) => SettledFrame(ScopeCleared(c, Subtree(c.scopes, scope), at));
    case TruthStep(plan) => TruthConflicts(c, plan, at);
    case _ => QuietKeepsConflicts(c, s, at, c');
  }

  lemma QuietKeepsConflicts(c: Calculus, s: Step, at: nat, c': Calculus)
    requires Takes(c, s, at, c') && LeavesModel(s)
    ensures ConflictsKept(c, c')
  {
    hide Unlocked, Audited, CanEnable, CanLock, CanSetStatus, Explains, LearnsFrom, ConflictsKept;
    match s
    case UnlockStep(k) => UnlockConflicts(c, k); ConflictsUntouched(c, c');
    case AuditStep => AuditedOnly(c); ConflictsUntouched(c, c');
    case RaiseStep(cid, scope) => RaisingKeepsConflicts(c, cid, scope, c');
    case ExplainStep(eid, e) => ExplainingKeepsConflicts(c, eid, e, c');
    case LearnStep(eid, kid, strength) => LearningKeepsConflicts(c, eid, kid, strength, at, c');
    case ExpireStep(evidence) => ExpiryKeepsConflicts(c, evidence);
    case _ => ConflictsUntouched(c, c');
  }

  lemma ConflictsUntouched(c: Calculus, c': Calculus)
    requires c'.conflicts == c.conflicts
    ensures ConflictsKept(c, c')
  {
  }

  lemma ExpiryKeepsConflicts(c: Calculus, evidence: Id)
    ensures ConflictsKept(c, WithoutEvidence(c, evidence))
  {
  }

  lemma RaisingKeepsConflicts(c: Calculus, cid: Id, scope: Id, c': Calculus)
    requires Raises(c, cid, scope, c')
    ensures ConflictsKept(c, c')
  {
  }

  lemma ExplainingKeepsConflicts(c: Calculus, eid: Id, e: Explanation, c': Calculus)
    requires Explains(c, eid, e, c')
    ensures ConflictsKept(c, c')
  {
  }

  lemma LearningKeepsConflicts(c: Calculus, eid: Id, kid: Id, strength: Strength, at: nat, c': Calculus)
    requires LearnsFrom(c, eid, kid, strength, at, c')
    ensures ConflictsKept(c, c')
  {
    hide Subsumes, ExplanationValid;
  }

  lemma TruthConflicts(c: Calculus, plan: TruthPlan, at: nat)
    ensures TruthCalculus(c, plan, at).conflicts == c.conflicts
  {
  }

  lemma UnlockConflicts(c: Calculus, k: Id)
    requires k in c.locks
    ensures Unlocked(c, k).conflicts == c.conflicts
  {
  }

  lemma {:induction false} RunKeepsConflicts(states: seq<Calculus>, steps: seq<Step>, first: nat, i: nat, j: nat)
    requires IsRun(states, steps, first) && Steady(states[0]) && i <= j <= |steps|
    ensures ConflictsKept(states[i], states[j]) && SameDecisions(states[i], states[j])
    decreases j
  {
    hide Takes, Steady, ConflictsKept, SameDecisions;
    if i < j {
      RunKeepsConflicts(states, steps, first, i, j - 1);
      RunKeepsSteady(states, steps, first);
      assert Takes(states[j - 1], steps[j - 1], first + j - 1, states[j]);
      StepKeepsConflicts(states[j - 1], steps[j - 1], first + j - 1, states[j]);
      ConflictsKeptChain(states[i], states[j - 1], states[j]);
      StepKeepsSteady(states[j - 1], steps[j - 1], first + j - 1, states[j]);
      SameDecisionsChain(states[i], states[j - 1], states[j]);
    } else {
      KeptByItself(states[i]);
    }
  }

  /** A conflict raised at `i` on a clean state, whatever step built its model, and learned from HARD at
      `j` before anything else is learned. */
  ghost predicate IsRound(states: seq<Calculus>, steps: seq<Step>, cid: Id, i: nat, j: nat)
    requires |states| == |steps| + 1
  {
    && i < j < |steps| && NoLearning(steps, i, j)
    && Violated(states[i]) == {} && RaisesHere(states[i], cid, ROOT, states[i + 1])
    && steps[j].LearnStep? && steps[j].strength.Hard? && steps[j].explanationId in states[j].explanations
    && (var e := states[j].explanations[steps[j].explanationId];
        && e.conflict == cid && cid in states[j].conflicts && HardAllowed(states[j], e)
        && ConditionHolds(e.guard, EffectiveValues(states[i], ROOT)))
  }

  /** The valuation in which a round's conflict arose is open until the round learns, and closed from
      then on. */
  lemma RoundCloses(states: seq<Calculus>, steps: seq<Step>, first: nat, subjects: seq<Id>, domain: Domain,
                    cid: Id, i: nat, j: nat)
    requires IsRun(states, steps, first) && Steady(states[0]) && LearnsAtRoot(states, steps)
    requires Searching(states[0], subjects, domain) && IsRound(states, steps, cid, i, j)
    ensures var v := EffectiveValues(states[i], ROOT);
      !Excluded(states[j], ROOT, v) && Excluded(states[j + 1], ROOT, v)
    ensures Closes(states[j], steps[j], first + j, Partial(subjects, domain))
  {
    hide Takes, Steady, Searching, ConflictsKept, SameDecisions, Excluded, Violated, AtRoot, EffectiveValues;
    var v := EffectiveValues(states[i], ROOT);
    SearchingThroughout(states, steps, first, subjects, domain, i);
    SearchingThroughout(states, steps, first, subjects, domain, j);
    KnowledgeOnlyExpires(states, steps, first, i, j);
    ExcludedIsViolated(states[i]);
    ExpiryOpens(states[i], states[j], ROOT, v);
    RootValuation(states[i], subjects, domain);
    RunKeepsConflicts(states, steps, first, i, j);
    RunKeepsConflicts(states, steps, first, i + 1, j);
    assert AtRoot(states[j], steps[j]);
    assert Takes(states[j], steps[j], first + j, states[j + 1]);
    RoundLearns(states[i], states[i + 1], states[j], steps[j], first + j, states[j + 1], cid, subjects, domain);
  }

  lemma RoundLearns(clean: Calculus, raised: Calculus, c: Calculus, s: Step, at: nat, c': Calculus, cid: Id,
                    subjects: seq<Id>, domain: Domain)
    requires Steady(clean) && Steady(c) && Searching(c, subjects, domain) && RaisesHere(clean, cid, ROOT, raised)
    requires ConflictsKept(raised, c) && SameDecisions(clean, c)
    requires s.LearnStep? && s.strength.Hard? && Takes(c, s, at, c') && AtRoot(c, s)
    requires s.explanationId in c.explanations && c.explanations[s.explanationId].conflict == cid
    requires cid in c.conflicts && HardAllowed(c, c.explanations[s.explanationId])
    requires ConditionHolds(c.explanations[s.explanationId].guard, EffectiveValues(clean, ROOT))
    requires EffectiveValues(clean, ROOT) in Allowed(c, Partial(subjects, domain))
    ensures Excluded(c', ROOT, EffectiveValues(clean, ROOT)) && Closes(c, s, at, Partial(subjects, domain))
  {
    hide Learns, LocksSound, SaneDependencies, EffectiveValues, ConditionHolds, Excluded, SlotsSound, SlotsComplete,
      Registered, ConstraintViolated, IsCanonicalSnapshot, HardAllowed, Partial, Grounded;
    var e := c.explanations[s.explanationId];
    ConflictValuationIsExcluded(clean, c, s.explanationId, e, at, ROOT);
    LearningExcludes(c, s.explanationId, s.constraintId, s.strength, at, c', EffectiveValues(clean, ROOT));
  }

  /** No learned no-good is ever revisited while it stands: until an expiry fails to spare it, no clean
      state after a round has the valuation in which the round's conflict arose; in particular two
      rounds never conflict on the same valuation. */
  lemma ValuationsNeverRepeat(states: seq<Calculus>, steps: seq<Step>, first: nat, subjects: seq<Id>, domain: Domain,
                              cid: Id, i: nat, j: nat, m: nat)
    requires IsRun(states, steps, first) && Steady(states[0]) && LearnsAtRoot(states, steps)
    requires Searching(states[0], subjects, domain) && IsRound(states, steps, cid, i, j)
    requires j < m <= |steps| && Violated(states[m]) == {}
    requires AllSpare(states, steps, j + 1, m, EffectiveValues(states[i], ROOT))
    ensures EffectiveValues(states[m], ROOT) != EffectiveValues(states[i], ROOT)
  {
    hide Takes, Steady, Searching, Excluded, Violated, AtRoot, EffectiveValues, IsRound, Closes;
    assert i < j < |steps| by { RoundRange(states, steps, cid, i, j); }
    RoundCloses(states, steps, first, subjects, domain, cid, i, j);
    ExclusionsPersist(states, steps, first, subjects, domain, j + 1, m, EffectiveValues(states[i], ROOT));
    ExcludedIsViolated(states[m]);
  }

  lemma RoundRange(states: seq<Calculus>, steps: seq<Step>, cid: Id, i: nat, j: nat)
    requires |states| == |steps| + 1 && IsRound(states, steps, cid, i, j)
    ensures i < j < |steps|
  {
  }
}
