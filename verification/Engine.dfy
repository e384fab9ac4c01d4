/** The engine that owns the durable calculus: it loads it, stages a change, and commits
    (`runtime_v21.py`, `runtime_v23.py` and the `_runtime_v31_*` mixins). */
module Engine {
  import opened Foundations
  import opened CalculusModel
  import opened Scopes
  import opened Conditions
  import opened Knowledge
  import opened Backjump
  import opened Locks
  import opened Fairness
  import opened Staging
  import opened Restart
  import opened ScopeImpact
  import opened Recovery
  import opened Activation
  import opened Obligations
  import opened Commits
  import opened Revision

  // ----- the engine -----

  class Engine {
    var calculus: Calculus
    var sequence: nat

    /** Every committed state satisfies this. */
    ghost predicate Valid()
      reads this
    {
      Indexed(calculus) && SaneDependencies(calculus.scopes, calculus.scopeDeps)
    }

    constructor (initial: Calculus)
      requires Indexed(initial) && SaneDependencies(initial.scopes, initial.scopeDeps)
      ensures Valid() && calculus == initial && sequence == 0
    {
      calculus, sequence := initial, 0;
    }

    /** `_commit_calculus`: normalise, check, store, and advance the event sequence. */
    method Commit(next: Calculus) returns (ok: bool)
      modifies this
      ensures ok == CommitAdmits(Normalised(next))
      ensures ok ==> calculus == Normalised(next) && sequence == old(sequence) + 1
      ensures !ok ==> calculus == old(calculus) && sequence == old(sequence)
    {
      var normal := Normalised(next);
      ok := CheckCommit(normal);
      if ok {
        calculus, sequence := normal, sequence + 1;
      }
    }

    /** `activate_candidate`, once the candidate itself is on record. */
    method ActivateCandidate(assignments: Assignments) returns (r: Result<StageReport>)
      requires Valid()
      modifies this
      ensures Valid()
      ensures r.Ok? ==> Stages(old(calculus), assignments, old(sequence) + 1, calculus)
      ensures r.Ok? ==> sequence == old(sequence) + 1
      ensures r.Err? ==> calculus == old(calculus) && sequence == old(sequence)
      ensures r.Err? ==> forall c' :: Stages(old(calculus), assignments, old(sequence) + 1, c') ==>
        !CommitChecks(c')
    {
      var staged := StageForCommit(calculus, assignments, sequence + 1);
      if staged.Err? {
        return Err(staged.error);
      }
      var ok := Commit(staged.value.0);
      if !ok {
        return Err(ValueError("scope models violate hard constraints"));
      }
      return Ok(staged.value.1);
    }

    /** `activate_decision`. Unlike the other steps it can reach the commit with slots that do not
        agree, and is then refused there. */
    method ActivateDecision(d: Id, supersede: Option<Id>) returns (r: Result<()>)
      requires Valid()
      modifies this
      ensures Valid()
      ensures r.Ok? ==> CommitsActivation(old(calculus), d, supersede, old(sequence) + 1, calculus)
      ensures r.Ok? ==> sequence == old(sequence) + 1
      ensures r.Err? ==> calculus == old(calculus) && sequence == old(sequence)
      ensures r.Err? ==> forall c' :: CommitsActivation(old(calculus), d, supersede, old(sequence) + 1, c') ==>
        !CommitChecks(c')
    {
      hide ActivatesDecision, ModelsAgree, CommitChecks, Indexed;
      var staged := StageActivation(calculus, d, supersede, sequence + 1);
      if staged.Err? {
        return Err(staged.error);
      }
      var next := staged.value;
      ghost var before, at := calculus, sequence + 1;
      ActivationUnique(before, d, supersede, at);
      var ok := Commit(next);
      if !ok {
        return Err(ValueError("scope models are inconsistent or violate hard constraints"));
      }
      assert CommitsActivation(before, d, supersede, at, calculus);
      ActivationKeepsIndexes(before, d, supersede, at, calculus);
      return Ok(());
    }

    /** `backjump_conflict`, up to the commit. */
    method BackjumpConflict(cid: Id, requested: Option<Id>) returns (r: Result<BackjumpPlan>)
      requires Valid()
      modifies this
      ensures Valid()
      ensures r.Ok? ==> Jumps(old(calculus), cid, requested, old(sequence) + 1, calculus)
      ensures r.Ok? ==> IsWidePlan(old(calculus), cid, requested, r.value)
      ensures r.Ok? ==> sequence == old(sequence) + 1
      ensures r.Err? ==> calculus == old(calculus) && sequence == old(sequence)
      ensures r.Err? ==> forall c' :: Jumps(old(calculus), cid, requested, old(sequence) + 1, c') ==>
        !CommitChecks(c')
    {
      var jumped := JumpForCommit(calculus, cid, requested, sequence + 1);
      if jumped.Err? {
        return Err(jumped.error);
      }
      var ok := Commit(jumped.value.0);
      if !ok {
        return Err(ValueError("scope models violate hard constraints"));
      }
      return Ok(jumped.value.1);
    }

    /** `restart_search`. */
    method RestartSearch() returns (r: Result<set<Id>>)
      requires Valid()
      modifies this
      ensures Valid()
      ensures r.Ok? ==> calculus == AfterRestart(old(calculus)) && r.value == Speculative(old(calculus))
      ensures r.Ok? ==> sequence == old(sequence) + 1 && Violated(calculus) == {}
      ensures r.Err? ==> calculus == old(calculus) && sequence == old(sequence)
      ensures r.Err? ==>
        Violated(AfterRestart(old(calculus))) != {} || !CommitChecks(AfterRestart(old(calculus)))
    {
      var next, suspended := RestartForCommit(calculus);
      var violations := ViolatedHardConstraints(next);
      if violations != {} {
        return Err(ValueError("pinned decisions violate learned hard constraints"));
      }
      var ok := Commit(next);
      if !ok {
        return Err(ValueError("scope models violate hard constraints"));
      }
      return Ok(suspended);
    }

    /** `restart_scope`; restarting the root scope is restarting the search. */
    method RestartScope(scope: Id) returns (r: Result<set<Id>>)
      requires Valid()
      modifies this
      ensures Valid()
      ensures scope == ROOT && r.Ok? ==>
        calculus == AfterRestart(old(calculus)) && r.value == Speculative(old(calculus)) && Violated(calculus) == {}
      ensures scope != ROOT && r.Ok? ==>
        && ScopeRestarts(old(calculus), scope, old(sequence) + 1, calculus)
        && r.value == SpeculativeIn(old(calculus), Subtree(old(calculus).scopes, scope))
      ensures r.Ok? ==> sequence == old(sequence) + 1
      ensures r.Err? ==> calculus == old(calculus) && sequence == old(sequence)
      ensures scope == ROOT && r.Err? ==>
        Violated(AfterRestart(old(calculus))) != {} || !CommitChecks(AfterRestart(old(calculus)))
      ensures scope != ROOT && r.Err? ==>
        forall c' :: ScopeRestarts(old(calculus), scope, old(sequence) + 1, c') ==> !CommitChecks(c')
    {
      if scope == ROOT {
        r := RestartSearch();
        return;
      }
      var restarted := ScopeRestartForCommit(calculus, scope, sequence + 1);
      if restarted.Err? {
        return Err(restarted.error);
      }
      var ok := Commit(restarted.value.0);
      if !ok {
        return Err(ValueError("scope models violate hard constraints"));
      }
      return Ok(restarted.value.1);
    }

    /** `raise_conflict`. A conflict without a scope of its own takes that of the obligation at which it
        was observed; without a supplied snapshot the canonical one is taken here. `recorded` gives
        the scope of each evidence record. */
    method RaiseConflict(cid: Id, kind: ConflictKind, evidence: set<Id>, named: Option<Id>, observed: Option<Id>,
                         supplied: map<Id, Id>, recorded: map<Id, Id>)
      returns (r: Result<()>)
      requires Valid()
      modifies this
      ensures Valid()
      ensures r.Ok? ==>
        Raises(old(calculus), cid, ConflictScope(old(calculus), named, observed), calculus) && sequence == old(sequence) + 1
      ensures r.Ok? ==> calculus.conflicts[cid].kind == kind && calculus.conflicts[cid].evidence == evidence
      ensures r.Ok? && supplied == map[] ==>
        RaisesHere(old(calculus), cid, ConflictScope(old(calculus), named, observed), calculus)
      ensures r.Ok? && supplied != map[] ==> calculus.conflicts[cid].snapshot == supplied
      ensures r.Err? ==> calculus == old(calculus) && sequence == old(sequence)
      ensures CommitChecks(old(calculus)) ==>
        (r.Ok? <==> MayRaise(old(calculus), cid, evidence, named, observed, recorded))
    {
      hide CommitChecks, IsCanonicalSnapshot, ConflictScope, MayRaise, Indexed, SaneDependencies;
      var scope :- CheckRaise(calculus, cid, evidence, named, observed, recorded);
      var snapshot := supplied;
      if supplied == map[] {
        snapshot := CanonicalSnapshot(calculus, scope);
      }
      var conflict := Conflict(kind, evidence, snapshot, Open, {}, {}, None, None, scope);
      var next := calculus.(conflicts := calculus.conflicts[cid := conflict]);
      KnowledgeForCommit(calculus, next);
      RaisingCommits(calculus, cid, scope, next);
      var ok := Commit(next);
      return if ok then Ok(()) else Err(ValueError("scope models violate hard constraints"));
    }

    /** `register_explanation`. A scope named by the caller must be that of the conflict, which the
        explanation takes in any case. */
    method RegisterExplanation(eid: Id, e: Explanation, scope: Option<Id>, recorded: map<Id, Id>) returns (r: Result<()>)
      requires Valid()
      modifies this
      ensures Valid()
      ensures r.Ok? ==>
        && e.conflict in old(calculus).conflicts && sequence == old(sequence) + 1
        && Explains(old(calculus), eid, e.(scope := old(calculus).conflicts[e.conflict].scope), calculus)
      ensures r.Err? ==> calculus == old(calculus) && sequence == old(sequence)
      ensures CommitChecks(old(calculus)) ==>
        (r.Ok? <==> eid !in old(calculus).explanations && e.conflict in old(calculus).conflicts
                    && (scope.None? || scope.value == old(calculus).conflicts[e.conflict].scope)
                    && EvidenceFlows(old(calculus), recorded, e.evidence, old(calculus).conflicts[e.conflict].scope)
                    && ExplanationValid(old(calculus), e.(scope := old(calculus).conflicts[e.conflict].scope)))
    {
      hide CommitChecks;
      if e.conflict !in calculus.conflicts {
        return Err(KeyError(e.conflict));
      }
      var own := calculus.conflicts[e.conflict].scope;
      if scope.Some? && scope.value != own {
        return Err(ValueError("explanation scope must match its conflict scope"));
      }
      var flows := CheckEvidence(calculus, recorded, e.evidence, own);
      if !flows {
        return Err(ValueError("evidence cannot flow to the scope"));
      }
      if eid in calculus.explanations {
        return Err(ValueError("explanation already exists"));
      }
      var record := e.(scope := own);
      var _ :- ValidateExplanation(calculus, record);
      var next := calculus.(
        explanations := calculus.explanations[eid := record],
        conflicts := calculus.conflicts[e.conflict := WithExplanation(calculus.conflicts[e.conflict], eid, record)]);
      KnowledgeForCommit(calculus, next);
      ExplainingCommits(calculus, eid, record, next);
      var ok := Commit(next);
      return if ok then Ok(()) else Err(ValueError("scope models violate hard constraints"));
    }

    /** `learn_constraint`. Under a policy that demands certificates, HARD is learned as SOFT. A valid
        explanation is always learned from: its conflict is unresolved, so the commit tolerates that
        the new no-good is violated. */
    method Learn(eid: Id, kid: Id, requested: Strength, certificateRequired: bool) returns (r: Result<()>)
      requires Valid()
      modifies this
      ensures Valid()
      ensures r.Ok? ==>
        && eid in old(calculus).explanations
        && old(calculus).explanations[eid].conflict in old(calculus).conflicts
        && Learns(old(calculus), calculus, kid,
             Projection(old(calculus), eid, old(calculus).explanations[eid], Granted(requested, certificateRequired),
                        old(sequence) + 1))
      ensures r.Ok? ==> sequence == old(sequence) + 1
      ensures r.Ok? && certificateRequired ==> kid in calculus.constraints && calculus.constraints[kid].strength == Soft
      ensures r.Ok? && !certificateRequired ==>
        Learns(old(calculus), calculus, kid,
          Projection(old(calculus), eid, old(calculus).explanations[eid], requested, old(sequence) + 1))
      ensures r.Err? ==> calculus == old(calculus) && sequence == old(sequence)
      ensures CommitChecks(old(calculus)) ==>
        (r.Ok? <==> kid !in old(calculus).constraints && eid in old(calculus).explanations
                    && ExplanationValid(old(calculus), old(calculus).explanations[eid])
                    && old(calculus).explanations[eid].literals != [])
    {
      hide CommitChecks, Subsumes;
      var strength := Granted(requested, certificateRequired);
      var learned := LearnConstraint(calculus, eid, kid, strength, sequence + 1);
      if learned.Err? {
        return Err(learned.error);
      }
      KnowledgeForCommit(calculus, learned.value);
      LearningCommits(calculus, learned.value, eid, kid, strength, sequence + 1);
      LearnedKeepsStrength(calculus, learned.value, kid,
        Projection(calculus, eid, calculus.explanations[eid], strength, sequence + 1));
      var ok := Commit(learned.value);
      return if ok then Ok(()) else Err(ValueError("scope models violate hard constraints"));
    }

    /** `invalidate_evidence`, once the ledger has recorded the invalidation, which is an event of its
        own: a refused commit leaves the knowledge as it was, and the evidence invalid. */
    method InvalidateEvidence(evidence: Id) returns (r: Result<bool>)
      requires Valid()
      modifies this
      ensures Valid()
      ensures r.Ok? ==> calculus == WithoutEvidence(old(calculus), evidence) && (r.value <==> calculus != old(calculus))
      ensures r.Ok? ==> sequence == old(sequence) + if r.value then 2 else 1
      ensures r.Err? ==> calculus == old(calculus) && sequence == old(sequence) + 1
      ensures CommitChecks(old(calculus)) ==> (r.Ok? <==> ExpiryTolerated(old(calculus), evidence))
    {
      hide CommitChecks, WithoutEvidence, ExpiryTolerated;
      var next, changed := ExpireKnowledge(calculus, evidence);
      sequence := sequence + 1;
      ExpiryForCommit(calculus, evidence);
      ExpiryCommitsExactly(calculus, evidence);
      if !changed {
        return Ok(false);
      }
      var ok := Commit(next);
      return if ok then Ok(true) else Err(ValueError("scope models violate hard constraints"));
    }

    /** `promote_constraint_hard`, for a constraint whose certificate the assurance layer accepts. */
    method PromoteConstraint(kid: Id, certified: bool) returns (r: Result<()>)
      requires Valid()
      modifies this
      ensures Valid()
      ensures r.Ok? ==>
        certified && kid in old(calculus).constraints && calculus == Promoted(old(calculus), kid)
        && sequence == old(sequence) + 1
      ensures r.Err? ==> calculus == old(calculus) && sequence == old(sequence)
      ensures CommitChecks(old(calculus)) ==>
        (r.Ok? <==> certified && kid in old(calculus).constraints && PromotionTolerated(old(calculus), kid))
    {
      hide CommitChecks, PromotionTolerated;
      if !certified {
        return Err(ValueError("hard promotion requires a verified certificate"));
      }
      if kid !in calculus.constraints {
        return Err(KeyError(kid));
      }
      var next := Promoted(calculus, kid);
      KnowledgeForCommit(calculus, next);
      PromotionCommitsExactly(calculus, kid);
      var ok := Commit(next);
      return if ok then Ok(()) else Err(ValueError("scope models violate hard constraints"));
    }

    /** `enable_obligation`. */
    method Enable(o: Id) returns (r: Result<()>)
      requires Valid()
      modifies this
      ensures Valid()
      ensures r.Ok? ==> CanEnable(old(calculus), o) && sequence == old(sequence) + 1
      ensures r.Ok? ==> calculus == EnableObligation(old(calculus), o, old(sequence) + 1)
      ensures r.Err? ==> calculus == old(calculus) && sequence == old(sequence)
      ensures r.Err? ==> !CanEnable(old(calculus), o) || !CommitChecks(calculus)
    {
      hide CommitChecks, Indexed, SaneDependencies, ModelsAgree, ConditionHolds, EffectiveValues;
      if !CanEnable(calculus, o) {
        return Err(ValueError("obligation cannot be enabled"));
      }
      var next := EnableObligation(calculus, o, sequence + 1);
      SameForCommit(calculus, next);
      var ok := Commit(next);
      return if ok then Ok(()) else Err(ValueError("scope models violate hard constraints"));
    }

    /** `set_obligation_status`; asking for the present status changes nothing. */
    method SetObligationStatus(o: Id, status: ObligationStatus, reason: Option<Id>, evidenceComplete: bool)
      returns (r: Result<()>)
      requires Valid()
      modifies this
      ensures Valid()
      ensures r.Ok? && calculus != old(calculus) ==>
        && CanSetStatus(old(calculus), o, status, reason, evidenceComplete) && sequence == old(sequence) + 1
        && calculus == SetStatus(old(calculus), o, status, reason, old(sequence) + 1)
      ensures r.Ok? && calculus == old(calculus) && sequence == old(sequence) ==>
        o in calculus.obligations && calculus.obligations[o].status == status
      ensures r.Err? ==> calculus == old(calculus) && sequence == old(sequence)
      ensures r.Err? ==> !CanSetStatus(old(calculus), o, status, reason, evidenceComplete) || !CommitChecks(calculus)
    {
      if o in calculus.obligations && calculus.obligations[o].status == status {
        return Ok(());
      }
      if !CanSetStatus(calculus, o, status, reason, evidenceComplete) {
        return Err(ValueError("illegal obligation transition"));
      }
      var next := SetStatus(calculus, o, status, reason, sequence + 1);
      SameForCommit(calculus, next);
      var ok := Commit(next);
      return if ok then Ok(()) else Err(ValueError("scope models violate hard constraints"));
    }

    /** `unlock_obligation`. */
    method UnlockObligation(k: Id) returns (r: Result<()>)
      requires Valid()
      modifies this
      ensures Valid()
      ensures r.Ok? ==> k in old(calculus).locks && calculus == Unlocked(old(calculus), k)
      ensures r.Err? ==> calculus == old(calculus) && sequence == old(sequence)
      ensures r.Err? ==> k !in old(calculus).locks || !CommitChecks(calculus)
    {
      if k !in calculus.locks {
        return Err(KeyError(k));
      }
      if !calculus.locks[k].status.LockActive? {
        return Ok(());
      }
      var released := calculus.(locks := calculus.locks[k :=
        calculus.locks[k].(status := Broken, brokenEpoch := Some(calculus.epoch))]);
      var next, broken := ReevaluateLocks(released);
      SameForCommit(calculus, next);
      var ok := Commit(next);
      return if ok then Ok(()) else Err(ValueError("scope models violate hard constraints"));
    }

    /** `audit_calculus_fairness`. */
    method Audit() returns (r: Result<(set<Id>, set<Id>)>)
      requires Valid()
      modifies this
      ensures Valid()
      ensures r.Ok? ==> calculus == Audited(old(calculus)) && sequence == old(sequence) + 1
      ensures r.Ok? ==> r.value == (Reported(old(calculus), Due), Reported(old(calculus), Overdue))
      ensures r.Err? ==> calculus == old(calculus) && sequence == old(sequence) && !CommitChecks(calculus)
    {
      var next, due, overdue := AuditFairness(calculus);
      SameForCommit(calculus, next);
      var ok := Commit(next);
      return if ok then Ok((due, overdue)) else Err(ValueError("scope models violate hard constraints"));
    }

    /** `lock_obligation`. */
    method PlaceLockOn(k: Id, lock: Lock) returns (r: Result<()>)
      requires Valid()
      modifies this
      ensures Valid()
      ensures r.Ok? ==> CanLock(old(calculus), k, lock) && sequence == old(sequence) + 1
      ensures r.Ok? ==> calculus == PlaceLock(old(calculus), k, lock)
      ensures r.Err? ==> calculus == old(calculus) && sequence == old(sequence)
      ensures r.Err? ==> !CanLock(old(calculus), k, lock) || !CommitChecks(calculus)
    {
      var lockable := CheckLockable(calculus, k, lock);
      if !lockable {
        return Err(ValueError("obligation cannot be locked"));
      }
      var next := PlaceLock(calculus, k, lock);
      SameForCommit(calculus, next);
      var ok := Commit(next);
      return if ok then Ok(()) else Err(ValueError("scope models violate hard constraints"));
    }
  }

  // ----- steps of the methods -----

  /** What a step must hand to the commit for the slot checks to pass. */
  ghost predicate Committable(c: Calculus) {
    Indexed(c) && Normalised(c) == c && ModelsAgree(c) && SaneDependencies(c.scopes, c.scopeDeps)
  }

  lemma IndexedCommittable(c: Calculus, c': Calculus)
    requires Indexed(c') && SaneDependencies(c.scopes, c.scopeDeps)
    requires c'.scopes.Keys == c.scopes.Keys && c'.scopeDeps == c.scopeDeps
    ensures Committable(c')
  {
    IndexedModelsAgree(c');
  }

  /** Obligations and locks may change, and new ones appear with known scopes and references. */
  ghost predicate RecordsKept(c: Calculus, c': Calculus) {
    && c.obligations.Keys <= c'.obligations.Keys
    && (forall o :: o in c'.obligations ==>
          if o in c.obligations then c'.obligations[o].scope == c.obligations[o].scope
          else c'.obligations[o].scope in c.scopes)
    && (forall k :: k in c'.locks ==>
          if k in c.locks then
            c'.locks[k].obligation == c.locks[k].obligation && c'.locks[k].origin == c.locks[k].origin
            && c'.locks[k].scope == c.locks[k].scope
          else
            c'.locks[k].obligation in c.obligations && c'.locks[k].origin in c.decisions
            && (c'.locks[k].scope in c.scopes || c'.locks[k].scope == c.obligations[c'.locks[k].obligation].scope))
  }

  /** Where decisions, models and scopes stay, so do overrides, idle scopes and flows. */
  lemma SameStructure(c: Calculus, c': Calculus)
    requires c'.decisions == c.decisions && c'.models == c.models && c'.activeModel == c.activeModel
    requires c'.scopes == c.scopes && c'.scopeDeps == c.scopeDeps
    ensures OverridesRespected(c') == OverridesRespected(c) && IdleScopesEmpty(c') == IdleScopesEmpty(c)
    ensures FlowsLegal(c') == FlowsLegal(c)
  {
    forall s ensures EffectiveDecisions(c', s) == EffectiveDecisions(c, s) {
      EffectiveFrame(c, c', s);
    }
    assert forall s, x :: s in c.scopes && s in c.models && x in c.models[s] && c.scopes[s].parent.Some? ==>
      OverrideAdmitted(c', s, x, EffectiveDecisions(c', c.scopes[s].parent.value))
      == OverrideAdmitted(c, s, x, EffectiveDecisions(c, c.scopes[s].parent.value));
  }

  /** Steps that touch obligations, locks and fairness alone are accepted whenever the state before
      them is. */
  lemma SameForCommit(c: Calculus, c': Calculus)
    requires Indexed(c) && SaneDependencies(c.scopes, c.scopeDeps)
    requires c' == c.(obligations := c'.obligations, locks := c'.locks, fairness := c'.fairness)
    requires RecordsKept(c, c')
    ensures Committable(c') && (CommitChecks(c) ==> CommitChecks(c'))
  {
    hide OverridesRespected, IdleScopesEmpty, FlowsLegal, KnowledgeRespected, ScopesKnown, ReferencesKnown, RecordsKept;
    SameIndexes(c, c');
    IndexedCommittable(c, c');
    SameStructure(c, c');
    SameKnowledge(c, c');
    KeptReferences(c, c');
  }

  lemma SameKnowledge(c: Calculus, c': Calculus)
    requires c' == c.(obligations := c'.obligations, locks := c'.locks, fairness := c'.fairness)
    ensures KnowledgeRespected(c') == KnowledgeRespected(c)
  {
    hide ViolatedBelow;
    SameReading(c, c');
    assert forall k :: k in c.constraints ==> Unresolved(c', c.constraints[k]) == Unresolved(c, c.constraints[k]);
  }

  lemma KeptReferences(c: Calculus, c': Calculus)
    requires c' == c.(obligations := c'.obligations, locks := c'.locks, fairness := c'.fairness)
    requires RecordsKept(c, c')
    ensures ScopesKnown(c) ==> ScopesKnown(c')
    ensures ReferencesKnown(c) ==> ReferencesKnown(c')
  {
  }

  /** The strength that the assurance policy grants. */
  function Granted(requested: Strength, certificateRequired: bool): Strength {
    if certificateRequired then Soft else requested
  }

  predicate ScopeActive(c: Calculus, scope: Id) {
    scope in c.scopes && c.scopes[scope].status.ActiveScope?
  }

  /** Recording knowledge moves no decision and no model. */
  lemma KnowledgeForCommit(c: Calculus, c': Calculus)
    requires Indexed(c) && SaneDependencies(c.scopes, c.scopeDeps)
    requires c' == c.(constraints := c'.constraints, conflicts := c'.conflicts, explanations := c'.explanations)
    ensures Committable(c')
  {
    SameIndexes(c, c');
    IndexedCommittable(c, c');
  }

  /** What a step that records knowledge owes the commit: conflicts stay unresolved, and a constraint
      that is new or changed is retired, or has an unresolved conflict and known sources. */
  ghost predicate Records(c: Calculus, c': Calculus) {
    && (forall k :: k in c.conflicts ==> k in c'.conflicts && c'.conflicts[k].scope == c.conflicts[k].scope)
    && (forall k :: k in c'.conflicts && k !in c.conflicts ==> c'.conflicts[k].scope in c.scopes)
    && (forall k :: Unresolved(c, k) ==> Unresolved(c', k))
    && (forall e :: e in c.explanations ==> e in c'.explanations && c'.explanations[e] == c.explanations[e])
    && (forall e :: e in c'.explanations && e !in c.explanations ==>
          c'.explanations[e].conflict in c.conflicts
          && c'.explanations[e].scope == c.conflicts[c'.explanations[e].conflict].scope)
    && (forall m :: m in c'.constraints ==> Recorded(c, c', m))
  }

  ghost predicate Recorded(c: Calculus, c': Calculus, m: Id)
    requires m in c'.constraints
  {
    var k := c'.constraints[m];
    || (m in c.constraints && k == c.constraints[m])
    || (m in c.constraints && k.status.Subsumed? && k.scope == c.constraints[m].scope)
    || (Unresolved(c', k) && k.explanation in c.explanations && k.scope == c.explanations[k.explanation].scope
        && (k.strength.Hard? ==> !k.validation.Heuristic?))
  }

  /** Recording knowledge is accepted whenever the state before it is. */
  lemma RecordingCommits(c: Calculus, c': Calculus)
    requires c' == c.(constraints := c'.constraints, conflicts := c'.conflicts, explanations := c'.explanations)
    requires Records(c, c') && CommitChecks(c)
    ensures CommitChecks(c')
  {
    hide OverridesRespected, IdleScopesEmpty, FlowsLegal, KnowledgeRespected, ScopesKnown, ReferencesKnown, Records;
    SameStructure(c, c');
    RecordingRespects(c, c');
    RecordedScopes(c, c');
    RecordedReferences(c, c');
  }

  lemma RecordedScopes(c: Calculus, c': Calculus)
    requires c' == c.(constraints := c'.constraints, conflicts := c'.conflicts, explanations := c'.explanations)
    requires Records(c, c') && ScopesKnown(c)
    ensures ScopesKnown(c')
  {
    forall m | m in c'.constraints ensures c'.constraints[m].scope in c'.scopes {
      assert Recorded(c, c', m);
    }
  }

  lemma RecordedReferences(c: Calculus, c': Calculus)
    requires c' == c.(constraints := c'.constraints, conflicts := c'.conflicts, explanations := c'.explanations)
    requires Records(c, c') && ReferencesKnown(c)
    ensures ReferencesKnown(c')
  {
    forall m | m in c'.constraints && c'.constraints[m].strength.Hard? && c'.constraints[m].status.ActiveConstraint?
      ensures !c'.constraints[m].validation.Heuristic?
        && c'.constraints[m].explanation in c'.explanations && c'.constraints[m].conflict in c'.conflicts
    {
      assert Recorded(c, c', m);
    }
  }

  lemma RecordingRespects(c: Calculus, c': Calculus)
    requires c' == c.(constraints := c'.constraints, conflicts := c'.conflicts, explanations := c'.explanations)
    requires Records(c, c') && KnowledgeRespected(c)
    ensures KnowledgeRespected(c')
  {
    hide Lineage;
    SameReading(c, c');
    forall s, m | s in c'.scopes && m in c'.constraints && ViolatedBelow(c', c'.constraints[m], s)
      ensures Unresolved(c', c'.constraints[m])
    {
      assert Recorded(c, c', m);
    }
  }

  lemma RaisingCommits(c: Calculus, cid: Id, scope: Id, c': Calculus)
    requires Raises(c, cid, scope, c')
    ensures CommitChecks(c) ==> CommitChecks(c')
  {
    hide CommitChecks;
    assert Records(c, c');
    if CommitChecks(c) {
      RecordingCommits(c, c');
    }
  }

  lemma ExplainingCommits(c: Calculus, eid: Id, e: Explanation, c': Calculus)
    requires Explains(c, eid, e, c')
    ensures CommitChecks(c) ==> CommitChecks(c')
  {
    hide CommitChecks, ExplanationValid;
    hide Records;
    ExplainingRecords(c, eid, e, c');
    if CommitChecks(c) {
      RecordingCommits(c, c');
    }
  }

  lemma ExplainingRecords(c: Calculus, eid: Id, e: Explanation, c': Calculus)
    requires Explains(c, eid, e, c')
    ensures Records(c, c')
  {
    hide ExplanationValid;
    assert e.conflict in c.conflicts by { ValidNamesConflict(c, e); }
    assert forall k :: Unresolved(c, k) ==> Unresolved(c', k);
    assert forall m :: m in c'.constraints ==> Recorded(c, c', m);
  }

  lemma ValidNamesConflict(c: Calculus, e: Explanation)
    requires ExplanationValid(c, e)
    ensures e.conflict in c.conflicts
  {
  }

  /** Learning is never refused: the source conflict of the new no-good counts as unresolved. */
  lemma LearningCommits(c: Calculus, c': Calculus, eid: Id, kid: Id, requested: Strength, sequence: nat)
    requires eid in c.explanations && c.explanations[eid].conflict in c.conflicts
    requires Learns(c, c', kid, Projection(c, eid, c.explanations[eid], requested, sequence))
    ensures CommitChecks(c) ==> CommitChecks(c')
  {
    hide CommitChecks;
    LearningRecords(c, c', eid, kid, requested, sequence);
    if CommitChecks(c) {
      RecordingCommits(c, c');
    }
  }

  lemma LearningRecords(c: Calculus, c': Calculus, eid: Id, kid: Id, requested: Strength, sequence: nat)
    requires eid in c.explanations && c.explanations[eid].conflict in c.conflicts
    requires Learns(c, c', kid, Projection(c, eid, c.explanations[eid], requested, sequence))
    ensures Records(c, c')
  {
    hide Recorded;
    forall m | m in c'.constraints ensures Recorded(c, c', m) {
      LearnedIsRecorded(c, c', eid, kid, requested, sequence, m);
    }
    assert forall k :: Unresolved(c, k) ==> Unresolved(c', k);
  }

  lemma LearnedIsRecorded(c: Calculus, c': Calculus, eid: Id, kid: Id, requested: Strength, sequence: nat, m: Id)
    requires eid in c.explanations && c.explanations[eid].conflict in c.conflicts
    requires Learns(c, c', kid, Projection(c, eid, c.explanations[eid], requested, sequence)) && m in c'.constraints
    ensures Recorded(c, c', m)
  {
    hide Covers, Overtakes, Assumptions;
    var k := Projection(c, eid, c.explanations[eid], requested, sequence);
    var stored, added :| Subsumes(c.constraints, kid, k, stored, added) && c'.constraints == stored[kid := added];
    assert added == k || exists m :: m in c.constraints && added == MarkSubsumed(k, m);
    assert Unresolved(c', k) && Unresolved(c', added);
  }

  /** The scope a conflict is raised in. */
  function ConflictScope(c: Calculus, named: Option<Id>, observed: Option<Id>): Id {
    match named
    case Some(scope) => scope
    case None =>
      if observed.Some? && observed.value in c.obligations then c.obligations[observed.value].scope else ROOT
  }

  ghost predicate MayRaise(c: Calculus, cid: Id, evidence: set<Id>, named: Option<Id>, observed: Option<Id>,
                           recorded: map<Id, Id>) {
    var scope := ConflictScope(c, named, observed);
    && cid !in c.conflicts && evidence != {} && (observed.Some? ==> observed.value in c.obligations)
    && ScopeActive(c, scope) && EvidenceFlows(c, recorded, evidence, scope)
  }

  method CheckRaise(c: Calculus, cid: Id, evidence: set<Id>, named: Option<Id>, observed: Option<Id>, recorded: map<Id, Id>)
    returns (r: Result<Id>)
    ensures r.Ok? <==> MayRaise(c, cid, evidence, named, observed, recorded)
    ensures r.Ok? ==> r.value == ConflictScope(c, named, observed) && r.value in c.scopes && cid !in c.conflicts
  {
    if evidence == {} {
      return Err(ValueError("conflict_id and evidence_ids are required"));
    }
    if observed.Some? && observed.value !in c.obligations {
      return Err(KeyError(observed.value));
    }
    if cid in c.conflicts {
      return Err(ValueError("conflict already exists"));
    }
    var scope := ConflictScope(c, named, observed);
    if !ScopeActive(c, scope) {
      return Err(KeyError(scope));
    }
    var flows := CheckEvidence(c, recorded, evidence, scope);
    return if flows then Ok(scope) else Err(ValueError("evidence cannot flow to the scope"));
  }

  // ----- revising knowledge -----

  /** No violated no-good loses its conflict to the evidence without expiring with it. */
  predicate ExpiryTolerated(c: Calculus, evidence: Id) {
    forall s, k :: s in c.scopes && k in c.constraints && ViolatedBelow(c, c.constraints[k], s) ==>
      || evidence in c.constraints[k].evidence
      || (c.constraints[k].conflict in c.conflicts && evidence !in c.conflicts[c.constraints[k].conflict].evidence)
  }

  lemma ExpiryForCommit(c: Calculus, evidence: Id)
    requires Indexed(c) && SaneDependencies(c.scopes, c.scopeDeps)
    ensures Committable(WithoutEvidence(c, evidence))
  {
    KnowledgeForCommit(c, WithoutEvidence(c, evidence));
  }

  /** The commit accepts an expiry exactly when it is tolerated: a no-good need not cite all the
      evidence of its conflict, and a rejected conflict excuses no violation. */
  lemma ExpiryCommitsExactly(c: Calculus, evidence: Id)
    ensures CommitChecks(c) ==> (CommitChecks(WithoutEvidence(c, evidence)) <==> ExpiryTolerated(c, evidence))
  {
    hide OverridesRespected, IdleScopesEmpty, FlowsLegal, KnowledgeRespected, ScopesKnown, ReferencesKnown, WithoutEvidence,
      ExpiryTolerated;
    var c' := WithoutEvidence(c, evidence);
    ExpiryFrame(c, evidence);
    SameStructure(c, c');
    ExpiryKeepsRecords(c, evidence);
    if KnowledgeRespected(c) {
      ExpiryRespectsExactly(c, evidence);
    }
  }

  lemma ExpiryFrame(c: Calculus, evidence: Id)
    ensures var c' := WithoutEvidence(c, evidence);
      c' == c.(explanations := c'.explanations, constraints := c'.constraints, conflicts := c'.conflicts)
  {
  }

  lemma ExpiryKeepsRecords(c: Calculus, evidence: Id)
    ensures ScopesKnown(c) ==> ScopesKnown(WithoutEvidence(c, evidence))
    ensures ReferencesKnown(c) ==> ReferencesKnown(WithoutEvidence(c, evidence))
  {
  }

  lemma ExpiryRespectsExactly(c: Calculus, evidence: Id)
    requires KnowledgeRespected(c)
    ensures KnowledgeRespected(WithoutEvidence(c, evidence)) <==> ExpiryTolerated(c, evidence)
  {
    hide Lineage, ConditionHolds, LiteralHolds, EffectiveValues;
    var c' := WithoutEvidence(c, evidence);
    SameReading(c, c');
    forall s, k | s in c.scopes && k in c.constraints
      ensures ViolatedBelow(c', c'.constraints[k], s) <==>
        ViolatedBelow(c, c.constraints[k], s) && evidence !in c.constraints[k].evidence
    {
    }
    forall k | k in c.constraints && Unresolved(c, c.constraints[k])
      ensures Unresolved(c', c'.constraints[k]) <==> evidence !in c.conflicts[c.constraints[k].conflict].evidence
    {
    }
  }

  /** A validated no-good with known sources, whose conflict is unresolved or which no scope violates. */
  predicate PromotionTolerated(c: Calculus, kid: Id)
    requires kid in c.constraints
  {
    var k := Hardened(c.constraints[kid]);
    && !k.validation.Heuristic? && k.explanation in c.explanations && k.conflict in c.conflicts
    && (Unresolved(c, k) || forall s :: s in c.scopes ==> !ViolatedBelow(c, k, s))
  }

  lemma PromotionCommitsExactly(c: Calculus, kid: Id)
    requires kid in c.constraints
    ensures CommitChecks(c) ==> (CommitChecks(Promoted(c, kid)) <==> PromotionTolerated(c, kid))
  {
    hide OverridesRespected, IdleScopesEmpty, FlowsLegal, KnowledgeRespected, ScopesKnown, ReferencesKnown, Promoted,
      ViolatedBelow, Unresolved;
    var c' := Promoted(c, kid);
    assert c' == c.(constraints := c'.constraints) by { PromotionFrame(c, kid); }
    SameStructure(c, c');
    PromotionKeepsRecords(c, kid);
    PromotionRespectsExactly(c, kid);
  }

  lemma PromotionFrame(c: Calculus, kid: Id)
    requires kid in c.constraints
    ensures Promoted(c, kid) == c.(constraints := Promoted(c, kid).constraints)
  {
  }

  lemma PromotionKeepsRecords(c: Calculus, kid: Id)
    requires kid in c.constraints
    ensures ScopesKnown(Promoted(c, kid)) == ScopesKnown(c)
    ensures ReferencesKnown(c) ==>
      (ReferencesKnown(Promoted(c, kid)) <==>
       (var k := c.constraints[kid];
        !k.validation.Heuristic? && k.explanation in c.explanations && k.conflict in c.conflicts))
  {
    hide ScopesKnown;
    var c' := Promoted(c, kid);
    PromotionKeepsScopes(c, kid);
    assert c'.constraints[kid] == Hardened(c.constraints[kid]);
    assert forall k :: k in c.constraints && k != kid ==> c'.constraints[k] == c.constraints[k];
  }

  lemma PromotionKeepsScopes(c: Calculus, kid: Id)
    requires kid in c.constraints
    ensures ScopesKnown(Promoted(c, kid)) == ScopesKnown(c)
  {
    assert forall k :: k in c.constraints ==> Promoted(c, kid).constraints[k].scope == c.constraints[k].scope;
  }

  lemma PromotionRespectsExactly(c: Calculus, kid: Id)
    requires kid in c.constraints
    ensures KnowledgeRespected(c) ==>
      (KnowledgeRespected(Promoted(c, kid)) <==>
       (Unresolved(c, Hardened(c.constraints[kid]))
        || forall s :: s in c.scopes ==> !ViolatedBelow(c, Hardened(c.constraints[kid]), s)))
  {
    hide ViolatedBelow;
    var c' := Promoted(c, kid);
    SameReading(c, c');
    assert c'.constraints[kid] == Hardened(c.constraints[kid]);
    assert forall k :: k in c.constraints && k != kid ==> c'.constraints[k] == c.constraints[k];
    assert forall k :: Unresolved(c', k) == Unresolved(c, k);
  }

  /** No-goods are read alike in states with the same models. */
  lemma SameReading(c: Calculus, c': Calculus)
    requires SameProjection(c, c')
    ensures forall k, s :: ViolatedBelow(c', k, s) == ViolatedBelow(c, k, s)
  {
    forall s ensures EffectiveValues(c', s) == EffectiveValues(c, s) {
      EffectiveFrame(c, c', s);
    }
  }

  lemma StageKeepsDependencies(c: Calculus, assignments: Assignments, sequence: nat, c': Calculus)
    requires Stages(c, assignments, sequence, c')
    ensures c'.scopeDeps == c.scopeDeps && c'.scopes == c.scopes
  {
    hide StagePath, Accepted, Indexed;
    var rows, p, act :|
      StagePath(c, assignments, sequence, rows, p, act) && Accepted(c, act) && c' == Finished(act);
    StagePathFrame(c, assignments, sequence, rows, p, act);
    FinishedSound(act);
  }

  method StageForCommit(c: Calculus, assignments: Assignments, sequence: nat)
    returns (r: Result<(Calculus, StageReport)>)
    requires Indexed(c) && SaneDependencies(c.scopes, c.scopeDeps)
    ensures r.Ok? ==> Stages(c, assignments, sequence, r.value.0) && Committable(r.value.0)
    ensures r.Ok? ==> forall c' :: Stages(c, assignments, sequence, c') ==> c' == r.value.0
    ensures r.Err? ==> forall c' :: !Stages(c, assignments, sequence, c')
  {
    r := StageCandidateActivation(c, assignments, sequence);
    if r.Ok? {
      var next := r.value.0;
      StageKeepsIndexes(c, assignments, sequence, next);
      StageKeepsDependencies(c, assignments, sequence, next);
      IndexedCommittable(c, next);
      forall c' | Stages(c, assignments, sequence, c') ensures c' == next {
        StageDeterministic(c, assignments, sequence, c', next);
      }
    }
  }

  // ----- activating one decision -----

  /** `c'` is the normal form of what the activation hands over, and its slots agree. */
  ghost predicate CommitsActivation(c: Calculus, d: Id, supersede: Option<Id>, sequence: nat, c': Calculus) {
    ModelsAgree(c')
    && exists next :: ActivatesDecision(c, d, supersede, sequence, next) && c' == Normalised(next)
  }

  lemma ActivationUnique(c: Calculus, d: Id, supersede: Option<Id>, sequence: nat)
    ensures forall a, b ::
      ActivatesDecision(c, d, supersede, sequence, a) && ActivatesDecision(c, d, supersede, sequence, b) ==> a == b
  {
  }

  /** A normalised state whose slots agree is indexed. */
  lemma AgreeingIsIndexed(c: Calculus)
    requires Registered(c) && RootRecord(c.scopes) && ModelsAgree(Normalised(c))
    ensures Indexed(Normalised(c))
  {
  }

  /** What the activation hands over, against the state it started from. */
  lemma ActivationFrame(c: Calculus, d: Id, supersede: Option<Id>, sequence: nat, next: Calculus)
    requires Indexed(c) && ActivatesDecision(c, d, supersede, sequence, next)
    ensures SameDecisions(c, next) && Registered(next) && RootRecord(next.scopes)
    ensures next.scopes == c.scopes && next.scopeDeps == c.scopeDeps && next.constraints == c.constraints
    ensures next.policy == c.policy && next.epoch == c.epoch + 1
  {
    hide Candidate, Settled, ActivationAccepted, SlotsSound, SlotsComplete, Audited, SameDecisions, Registered;
    AuditKeepsIndexes(c);
    AuditedOnly(c);
    CandidateFrame(Audited(c), d, sequence);
    var act := Candidate(Audited(c), d, sequence);
    SettledFrame(NextEpoch(act));
    SameSource(c, Audited(c), act);
    SameByDecisions(c, act, next);
    SameRegistered(c, next);
  }

  /** An activation that the commit accepts keeps the indexes. */
  lemma ActivationKeepsIndexes(c: Calculus, d: Id, supersede: Option<Id>, sequence: nat, c': Calculus)
    requires Indexed(c) && CommitsActivation(c, d, supersede, sequence, c')
    ensures Indexed(c') && SameDecisions(c, c') && LocksSound(c')
    ensures c'.scopes == c.scopes && c'.scopeDeps == c.scopeDeps
  {
    hide ActivatesDecision, ModelsAgree, SameDecisions, Settled, LocksSound;
    var next :| ActivatesDecision(c, d, supersede, sequence, next) && c' == Normalised(next);
    ActivationFrame(c, d, supersede, sequence, next);
    AgreeingIsIndexed(next);
    SameByDecisions(c, next, c');
    ActivationSettles(c, d, supersede, sequence, next);
    NormalisedLocks(next);
  }

  lemma ActivationSettles(c: Calculus, d: Id, supersede: Option<Id>, sequence: nat, next: Calculus)
    requires ActivatesDecision(c, d, supersede, sequence, next)
    ensures LocksSound(next)
  {
    hide Settled, LocksSound, Candidate, Audited;
    SettledLocks(NextEpoch(Candidate(Audited(c), d, sequence)));
  }

  // ----- jumping -----

  /** `plan` is what the causal analysis of the conflict yields, and it names a pivot. */
  ghost predicate IsJump(c: Calculus, cid: Id, requested: Option<Id>, plan: BackjumpPlan) {
    && cid in c.conflicts && plan.explanation in c.explanations
    && Chosen(c, cid, requested, plan.explanation)
    && ExplanationValid(c, c.explanations[plan.explanation])
    && IsPlan(c, cid, plan.explanation, plan) && plan.pivot.Some? && plan.pivot.value in c.decisions
  }

  /** The backjump leads from `c` to `c'` along the widened plan, leaving no violation. */
  ghost predicate Jumps(c: Calculus, cid: Id, requested: Option<Id>, sequence: nat, c': Calculus) {
    Violated(c') == {}
    && exists plan :: IsJump(c, cid, requested, plan) && JumpsAlong(c, plan, sequence, c', WidenedPlan(c, plan))
  }

  ghost predicate IsWidePlan(c: Calculus, cid: Id, requested: Option<Id>, wide: BackjumpPlan) {
    exists plan :: IsJump(c, cid, requested, plan) && wide == WidenedPlan(c, plan)
  }

  ghost predicate JumpsAlong(c: Calculus, plan: BackjumpPlan, sequence: nat, c': Calculus, wide: BackjumpPlan) {
    && plan.pivot.Some? && plan.pivot.value in c.decisions && Applicable(c, WidenedPlan(c, plan))
    && c' == Settled(Recovered(c, plan, sequence)) && wide == WidenedPlan(c, plan)
  }

  lemma JumpUnique(c: Calculus, cid: Id, requested: Option<Id>, plan: BackjumpPlan, other: BackjumpPlan)
    requires cid in c.conflicts && plan.explanation in c.explanations
    requires Chosen(c, cid, requested, plan.explanation) && IsPlan(c, cid, plan.explanation, plan)
    requires IsJump(c, cid, requested, other)
    ensures other == plan
  {
    IdLeqAntisymmetricWhenBoth(plan.explanation, other.explanation);
    PlanUnique(c, cid, plan.explanation, plan, other);
  }

  method JumpForCommit(c: Calculus, cid: Id, requested: Option<Id>, sequence: nat)
    returns (r: Result<(Calculus, BackjumpPlan)>)
    requires Indexed(c) && SaneDependencies(c.scopes, c.scopeDeps)
    ensures r.Ok? ==> Jumps(c, cid, requested, sequence, r.value.0) && Committable(r.value.0)
    ensures r.Ok? ==> IsWidePlan(c, cid, requested, r.value.1)
    ensures r.Ok? ==> forall c' :: Jumps(c, cid, requested, sequence, c') ==> c' == r.value.0
    ensures r.Err? ==> forall c' :: !Jumps(c, cid, requested, sequence, c')
  {
    hide Settled, Recovered, WidenedPlan, IsPlan, ExplanationValid, Indexed;
    var computed := ComputeBackjump(c, cid, requested);
    if computed.Err? {
      return Err(computed.error);
    }
    var plan := computed.value;
    forall other | IsJump(c, cid, requested, other) ensures other == plan {
      JumpUnique(c, cid, requested, plan, other);
    }
    if plan.pivot.None? {
      return Err(ValueError("conflict has no revisable causal pivot"));
    }
    var next, wide := JumpTo(c, cid, plan, sequence);
    var violations := ViolatedHardConstraints(next);
    if violations != {} {
      return Err(ValueError("backjump did not remove all active hard-constraint violations"));
    }
    return Ok((next, wide));
  }

  /** Widens the plan by the scopes it touches, applies it, and settles. */
  method JumpTo(c: Calculus, cid: Id, plan: BackjumpPlan, sequence: nat)
    returns (next: Calculus, wide: BackjumpPlan)
    requires Indexed(c) && SaneDependencies(c.scopes, c.scopeDeps)
    requires cid in c.conflicts && plan.explanation in c.explanations
    requires IsPlan(c, cid, plan.explanation, plan) && plan.pivot.Some?
    ensures JumpsAlong(c, plan, sequence, next, wide) && Committable(next)
  {
    WidenedApplicable(c, cid, plan.explanation, plan);
    var taken, doubted := FindScopes(c, plan.pivot.value);
    wide := Widened(c, plan, taken, doubted);
    var jumped := ApplyBackjump(c, wide, sequence);
    var marked := MarkAll(jumped.value, taken - {ROOT} + doubted, sequence);
    var broken, due, overdue;
    next, broken, due, overdue := Settle(marked);
    JumpCommittable(c, cid, plan, sequence);
  }

  method FindScopes(c: Calculus, pivot: Id) returns (taken: set<Id>, doubted: set<Id>)
    requires Indexed(c) && SaneDependencies(c.scopes, c.scopeDeps) && IsActive(c, pivot)
    ensures taken == TakenScopes(c, pivot) && doubted == DoubtedScopes(c, pivot)
    ensures taken + doubted <= c.scopes.Keys
  {
    var scope := c.decisions[pivot].scope;
    assert Slot(c.models, scope, c.decisions[pivot].subject) == Some(pivot);
    if scope == ROOT {
      return {}, {};
    }
    ImpactSparesRoot(c.scopes, c.scopeDeps, scope);
    taken, doubted := DependencyImpactedScopes(c.scopes, c.scopeDeps, scope);
    InvalidatedAreImpacted(c.scopes, c.scopeDeps, scope);
  }

  lemma JumpCommittable(c: Calculus, cid: Id, plan: BackjumpPlan, sequence: nat)
    requires Indexed(c) && SaneDependencies(c.scopes, c.scopeDeps)
    requires cid in c.conflicts && plan.explanation in c.explanations
    requires IsPlan(c, cid, plan.explanation, plan) && plan.pivot.Some?
    requires Applicable(c, WidenedPlan(c, plan))
    ensures Committable(Settled(Recovered(c, plan, sequence)))
  {
    RecoveryKeepsIndexes(c, cid, plan.explanation, plan, sequence);
    RecoveryScopes(c, plan, sequence);
    IndexedCommittable(c, Settled(Recovered(c, plan, sequence)));
  }

  lemma RecoveryScopes(c: Calculus, plan: BackjumpPlan, sequence: nat)
    requires plan.pivot.Some? && plan.pivot.value in c.decisions && Applicable(c, WidenedPlan(c, plan))
    ensures Settled(Recovered(c, plan, sequence)).scopes.Keys == c.scopes.Keys
    ensures Settled(Recovered(c, plan, sequence)).scopeDeps == c.scopeDeps
  {
    SettledFrame(Recovered(c, plan, sequence));
  }

  // ----- restarting -----

  method RestartForCommit(c: Calculus) returns (next: Calculus, suspended: set<Id>)
    requires Indexed(c) && SaneDependencies(c.scopes, c.scopeDeps)
    ensures next == AfterRestart(c) && suspended == Speculative(c) && Committable(next)
  {
    var decisions, models;
    decisions, models, suspended := SuspendSpeculative(c);
    var cleared := c.(decisions := decisions, models := models, activeModel := RootModel(models),
                      searchLocal := map[], epoch := c.epoch + 1);
    var broken, due, overdue;
    next, broken, due, overdue := Settle(cleared);
    RestartKeepsIndexes(c);
    SettledFrame(cleared);
    IndexedCommittable(c, next);
  }

  ghost predicate ScopeRestarts(c: Calculus, scope: Id, sequence: nat, c': Calculus) {
    && scope in c.scopes && c.scopes[scope].status.ActiveScope?
    && c' == AfterScopeRestart(c, scope, sequence)
    && Violated(c') == {}
  }

  method ScopeRestartForCommit(c: Calculus, scope: Id, sequence: nat) returns (r: Result<(Calculus, set<Id>)>)
    requires Indexed(c) && SaneDependencies(c.scopes, c.scopeDeps) && scope != ROOT
    ensures r.Ok? ==> ScopeRestarts(c, scope, sequence, r.value.0) && Committable(r.value.0)
    ensures r.Ok? ==> r.value.1 == SpeculativeIn(c, Subtree(c.scopes, scope))
    ensures r.Err? ==> forall c' :: !ScopeRestarts(c, scope, sequence, c')
  {
    if scope !in c.scopes {
      return Err(KeyError(scope));
    }
    if !c.scopes[scope].status.ActiveScope? {
      return Err(ValueError("scope is not active"));
    }
    var targets := ScopeDescendants(c.scopes, scope);
    var next, suspended := RestartSubtree(c, scope, targets.value, sequence);
    var violations := ViolatedHardConstraints(next);
    if violations != {} {
      return Err(ValueError("retained decisions violate learned hard constraints"));
    }
    return Ok((next, suspended));
  }

  method RestartSubtree(c: Calculus, scope: Id, targets: set<Id>, sequence: nat)
    returns (next: Calculus, suspended: set<Id>)
    requires Indexed(c) && SaneDependencies(c.scopes, c.scopeDeps)
    requires scope in c.scopes && scope != ROOT && targets == Subtree(c.scopes, scope)
    ensures next == AfterScopeRestart(c, scope, sequence) && suspended == SpeculativeIn(c, targets)
    ensures Committable(next)
  {
    hide Indexed, Subtree, Settled, SpeculativeIn;
    var decisions;
    decisions, suspended := SuspendScopes(c, targets);
    var models := PurgeSome(c.models, targets, suspended);
    var obligations := ReopenScopes(c.obligations, targets, sequence);
    var cleared := c.(decisions := decisions, models := models, obligations := obligations,
                      searchLocal := map[], epoch := c.epoch + 1);
    var broken, due, overdue;
    next, broken, due, overdue := Settle(cleared);
    ScopeRestartKeepsIndexes(c, scope, sequence);
    SettledFrame(cleared);
    IndexedCommittable(c, next);
  }

  method PurgeSome(models: map<Id, map<Id, Id>>, targets: set<Id>, gone: set<Id>)
    returns (out: map<Id, map<Id, Id>>)
    ensures out == map s | s in models :: if s in targets then Without(models[s], gone) else models[s]
  {
    out := models;
    var rest := targets;
    while rest != {}
      invariant rest <= targets && out.Keys == models.Keys
      invariant forall s :: s in models ==>
        out[s] == if s in targets && s !in rest then Without(models[s], gone) else models[s]
      decreases rest
    {
      var s :| s in rest;
      rest := rest - {s};
      if s in out {
        out := out[s := Without(out[s], gone)];
      }
    }
  }

  method ReopenScopes(obligations: map<Id, Obligation>, targets: set<Id>, sequence: nat)
    returns (out: map<Id, Obligation>)
    ensures out == map o | o in obligations ::
      if obligations[o].scope in targets then ReopenObligation(obligations[o], sequence) else obligations[o]
  {
    out := obligations;
    var rest := obligations.Keys;
    while rest != {}
      invariant rest <= obligations.Keys == out.Keys
      invariant forall o :: o in obligations ==>
        out[o] == if o !in rest && obligations[o].scope in targets
                  then ReopenObligation(obligations[o], sequence) else obligations[o]
      decreases rest
    {
      var o :| o in rest;
      rest := rest - {o};
      if out[o].scope in targets && !Disposed(out[o].status) {
        out := out[o := out[o].(status := NeedsRevalidation, changedAt := sequence)];
      }
    }
  }

  /** A conflict is raised where it is named, else where the observing obligation is, else at the root; only
      in an ACTIVE scope, on recorded evidence that may flow there. */
  lemma RaisingExactly(c: Calculus, cid: Id, evidence: set<Id>, named: Option<Id>, observed: Option<Id>, recorded: map<Id, Id>)
    ensures named != None ==> Some(ConflictScope(c, named, observed)) == named
    ensures named == None && observed.Some? && observed.value in c.obligations ==>
      ConflictScope(c, named, observed) == c.obligations[observed.value].scope
    ensures named == None && observed == None ==> ConflictScope(c, named, observed) == ROOT
    ensures MayRaise(c, cid, evidence, named, observed, recorded) <==>
      var scope := ConflictScope(c, named, observed);
      && cid !in c.conflicts && |evidence| > 0
      && (observed.Some? ==> observed.value in c.obligations)
      && scope in c.scopes && c.scopes[scope].status == ActiveScope
      && forall v :: v in evidence ==> v in recorded && FlowAllowed(c.scopes, c.scopeDeps, recorded[v], scope)
  {
    hide FlowAllowed;
    assert |evidence| > 0 <==> evidence != {};
  }
}
