/** Typed patterns: state machines whose current state is a decision of the calculus
    (`_runtime_v39_typed.py`, `typed_protocol.py`). */
module Typed {
  import opened Foundations
  import opened CalculusModel
  import opened Reachability
  import opened Scopes
  import opened Locks
  import opened Fairness
  import opened Knowledge
  import opened Backjump
  import opened Staging
  import opened Restart
  import opened Recovery
  import opened TruthMaintenance
  import opened Admission
  import opened Activation
  import opened ScopeImpact
  import opened Obligations
  import opened Commits
  import opened Engine
  import opened Runs

  datatype Transition = Transition(source: Value, event: Id, target: Value)

  datatype Pattern = Pattern(id: Id, scope: Id, states: set<Value>, initial: Value, transitions: set<Transition>)

  /** What admission checks of a pattern. */
  ghost predicate WellFormed(p: Pattern) {
    && p.initial in p.states
    && (forall t :: t in p.transitions ==> t.source in p.states && t.target in p.states)
    && (forall t, u :: t in p.transitions && u in p.transitions && t.source == u.source && t.event == u.event ==> t == u)
  }

  datatype Proposal = Proposal(pattern: Id, transition: Transition, obligations: set<Id>)

  function StateSubject(pid: Id): Id {
    "typed.pattern." + pid + ".state"
  }

  lemma StateSubjectInjective(p: Id, q: Id)
    requires StateSubject(p) == StateSubject(q)
    ensures p == q
  {
    var a, z := "typed.pattern.", ".state";
    assert |p| == |q|;
    assert p == (a + p + z)[|a|..|a| + |p|] && q == (a + q + z)[|a|..|a| + |q|];
  }

  // ----- the current state -----

  /** `_typed_current_state`: the local model of the pattern's scope, never an inherited one. */
  function CurrentDecision(c: Calculus, p: Pattern): Option<Id> {
    var own := LocalModel(c.models, p.scope);
    var model := if p.scope == ROOT && own == NO_MODEL then c.activeModel else own;
    var x := StateSubject(p.id);
    if x in model && IsActive(c, model[x]) then Some(model[x]) else None
  }

  function CurrentState(c: Calculus, p: Pattern): Value {
    match CurrentDecision(c, p)
    case Some(d) => if d in c.decisions then c.decisions[d].value else p.initial
    case None => p.initial
  }

  lemma CurrentIsSlot(c: Calculus, p: Pattern)
    requires Indexed(c)
    ensures CurrentDecision(c, p) == Slot(c.models, p.scope, StateSubject(p.id))
    ensures CurrentDecision(c, p).Some? ==>
      var d := CurrentDecision(c, p).value;
      IsActive(c, d) && c.decisions[d].scope == p.scope && c.decisions[d].subject == StateSubject(p.id)
      && CurrentState(c, p) == c.decisions[d].value
  {
  }

  // ----- which states a pattern can reach -----

  function Moves(p: Pattern): Graph {
    set t | t in p.transitions :: (t.source, t.target)
  }

  ghost function Reachable(p: Pattern): set<Value> {
    Closure(Moves(p), {p.initial})
  }

  lemma ReachableStep(p: Pattern, t: Transition)
    requires t in p.transitions && t.source in Reachable(p)
    ensures t.target in Reachable(p)
  {
    assert (t.source, t.target) in Moves(p);
  }

  lemma ReachableAreStates(p: Pattern)
    requires WellFormed(p)
    ensures p.initial in Reachable(p) && Reachable(p) <= p.states
  {
    assert Closed(Moves(p), p.states);
  }

  // ----- proposing and authorising -----

  /** The durable typed records beside the calculus. `authorized` lists the authorisations. */
  datatype Protocol = Protocol(
    calculus: Calculus, patterns: map<Id, Pattern>, proposals: map<Id, Proposal>, authorized: seq<Id>)

  function ProposedDecision(p: Pattern, target: Value, level: nat): Decision {
    Decision(StateSubject(p.id), target, Explicit, Proposed, level, {}, {}, {}, p.scope, false, false, None, None, None, None)
  }

  function GuardObligation(d: Id, scope: Id, sequence: nat): Obligation {
    Obligation(Unset, Available, {}, {d}, {}, {}, true, true, sequence, None, scope)
  }

  function WithDecision(c: Calculus, d: Id, record: Decision): Calculus {
    c.(decisions := c.decisions[d := record])
  }

  function WithObligation(c: Calculus, o: Id, record: Obligation): Calculus {
    c.(obligations := c.obligations[o := record], fairness := c.fairness[o := NewRecord(c.epoch)])
  }

  function TransitionsFor(p: Pattern, state: Value, event: Id): set<Transition> {
    set t | t in p.transitions && t.source == state && t.event == event
  }

  /** `t` is the pattern's answer to `event` in the current state. */
  predicate Offers(c: Calculus, p: Pattern, event: Id, t: Transition) {
    t in p.transitions && t.source == CurrentState(c, p) && t.event == event
  }

  /** `c'` adds obligations of `d` and nothing else. */
  ghost predicate AddsGuards(c: Calculus, c': Calculus, d: Id, scope: Id) {
    && c' == c.(obligations := c'.obligations, fairness := c'.fairness)
    && (forall o :: o in c.obligations ==> o in c'.obligations && c'.obligations[o] == c.obligations[o])
    && (forall o :: o in c'.obligations && o !in c.obligations ==>
          c'.obligations[o].status.Available? && c'.obligations[o].decisionDeps == {d} && c'.obligations[o].scope == scope)
  }

  /** The calculus after the decision of a proposal, and possibly its obligations, are registered. */
  ghost predicate RegistersProposal(c: Calculus, p: Pattern, d: Id, t: Transition, c': Calculus) {
    && d !in c.decisions && p.scope in c.scopes && c.scopes[p.scope].status.ActiveScope?
    && exists level ::
      IsNextLevel(c, level) && AddsGuards(WithDecision(c, d, ProposedDecision(p, t.target, level)), c', d, p.scope)
  }

  /** A decision without parents is placed one level above every ACTIVE decision. */
  ghost predicate IsNextLevel(c: Calculus, level: nat) {
    && 0 < level && (forall d :: IsActive(c, d) ==> c.decisions[d].level < level)
    && (level == 1 || exists d :: IsActive(c, d) && c.decisions[d].level + 1 == level)
  }

  predicate ObligationsDone(c: Calculus, obligations: set<Id>) {
    forall o :: o in obligations ==>
      o in c.obligations && (c.obligations[o].status.Verified? || c.obligations[o].status.Committed?)
  }

  /** The proposal still starts in the current state, and everything it owes is done. */
  predicate MayAuthorize(s: Protocol, d: Id) {
    && d in s.proposals && s.proposals[d].pattern in s.patterns
    && s.proposals[d].transition.source == CurrentState(s.calculus, s.patterns[s.proposals[d].pattern])
    && ObligationsDone(s.calculus, s.proposals[d].obligations)
  }

  datatype TypedMove =
    | Propose(pattern: Id, event: Id, decision: Id, transition: Transition, obligations: set<Id>)
    | Interrupted(pattern: Id, event: Id, decision: Id, transition: Transition)
    | Authorize(decision: Id)
    | EngineMove(step: Step)
    | OtherDecision(decision: Id, record: Decision)

  /** A decision registered by hand, about a pattern's state, carries a reachable state. Nothing
      checks this: the state's subject is open to any writer. */
  ghost predicate Lawful(s: Protocol, record: Decision) {
    forall pid :: pid in s.patterns && AboutState(s.patterns[pid], record) ==> record.value in Reachable(s.patterns[pid])
  }

  predicate AboutState(p: Pattern, record: Decision) {
    record.scope == p.scope && record.subject == StateSubject(p.id)
  }

  /** One move; any step of the engine may come between the moves of the protocol, and a proposal
      may be interrupted before its record is written. */
  ghost predicate TypedStep(s: Protocol, m: TypedMove, at: nat, s': Protocol) {
    && s'.patterns == s.patterns
    && match m
       case Propose(pid, event, d, t, owed) =>
         && pid in s.patterns && Offers(s.calculus, s.patterns[pid], event, t)
         && RegistersProposal(s.calculus, s.patterns[pid], d, t, s'.calculus)
         && s' == s.(calculus := s'.calculus, proposals := s.proposals[d := Proposal(pid, t, owed)])
       case Interrupted(pid, event, d, t) =>
         && pid in s.patterns && Offers(s.calculus, s.patterns[pid], event, t)
         && RegistersProposal(s.calculus, s.patterns[pid], d, t, s'.calculus)
         && s' == s.(calculus := s'.calculus)
       case Authorize(d) =>
         && MayAuthorize(s, d)
         && CommitsActivation(s.calculus, d, CurrentDecision(s.calculus, s.patterns[s.proposals[d].pattern]), at, s'.calculus)
         && s' == s.(calculus := s'.calculus, authorized := s.authorized + [d])
       case EngineMove(step) =>
         Takes(s.calculus, step, at, s'.calculus) && s' == s.(calculus := s'.calculus)
       case OtherDecision(d, record) =>
         && d !in s.calculus.decisions && !record.status.Active? && record.parents <= s.calculus.decisions.Keys
         && Lawful(s, record)
         && s' == s.(calculus := WithDecision(s.calculus, d, record))
  }

  // ----- what the protocol keeps -----

  ghost predicate PatternsAdmitted(s: Protocol) {
    forall pid :: pid in s.patterns ==> s.patterns[pid].id == pid && WellFormed(s.patterns[pid])
  }

  /** Every decision about a pattern's state proposes a reachable state. */
  ghost predicate ValuesReachable(s: Protocol) {
    forall pid, d :: pid in s.patterns && IsStateDecision(s.calculus, s.patterns[pid], d) ==>
      s.calculus.decisions[d].value in Reachable(s.patterns[pid])
  }

  predicate IsStateDecision(c: Calculus, p: Pattern, d: Id) {
    d in c.decisions && c.decisions[d].scope == p.scope && c.decisions[d].subject == StateSubject(p.id)
  }

  /** Each proposal is a transition of its pattern, and its decision carries the target. */
  ghost predicate ProposalsKnown(s: Protocol) {
    forall d :: d in s.proposals ==>
      var r := s.proposals[d];
      && r.pattern in s.patterns && r.transition in s.patterns[r.pattern].transitions
      && IsStateDecision(s.calculus, s.patterns[r.pattern], d)
      && s.calculus.decisions[d].value == r.transition.target
  }

  ghost predicate TypedSound(s: Protocol) {
    Steady(s.calculus) && PatternsAdmitted(s) && ValuesReachable(s) && ProposalsKnown(s)
  }

  /** In a sound state every pattern's current state is reachable from its initial one. */
  lemma CurrentReachable(s: Protocol, pid: Id)
    requires TypedSound(s) && pid in s.patterns
    ensures CurrentState(s.calculus, s.patterns[pid]) in Reachable(s.patterns[pid])
  {
    hide Steady;
    SteadyMeans(s.calculus);
    CurrentIsSlot(s.calculus, s.patterns[pid]);
    ReachableAreStates(s.patterns[pid]);
  }

  lemma RegisteringIndexed(c: Calculus, d: Id, record: Decision)
    requires Indexed(c) && d !in c.decisions && !record.status.Active? && record.parents <= c.decisions.Keys
    ensures Indexed(WithDecision(c, d, record))
  {
    var c' := WithDecision(c, d, record);
    assert forall e :: IsActive(c', e) <==> IsActive(c, e);
    assert SlotsSound(c') && SlotsComplete(c');
  }

  /** Registering a decision that is not ACTIVE disturbs nothing. */
  lemma RegisteringSteady(c: Calculus, d: Id, record: Decision)
    requires Steady(c) && d !in c.decisions && !record.status.Active? && record.parents <= c.decisions.Keys
    ensures Steady(WithDecision(c, d, record))
  {
    var c' := WithDecision(c, d, record);
    RegisteringIndexed(c, d, record);
    forall k | k in c'.locks && c'.locks[k].status.LockActive? ensures LockConditionHolds(c', c'.locks[k]) {
      assert LockConditionHolds(c, c.locks[k]);
      NewDecisionProjection(c, d, record, c.locks[k].scope);
    }
  }

  lemma NewDecisionProjection(c: Calculus, d: Id, record: Decision, scope: Id)
    requires Indexed(c) && d !in c.decisions
    ensures EffectiveValues(WithDecision(c, d, record), scope) == EffectiveValues(c, scope)
  {
    hide EffectiveDecisions, InheritanceChain;
    var c' := WithDecision(c, d, record);
    SameEffective(c, c', scope);
    forall x | x in EffectiveDecisions(c, scope) ensures EffectiveDecisions(c, scope)[x] in c.decisions {
      EffectiveDecisionsActive(c, scope, x);
    }
    OldValues(c, c', EffectiveDecisions(c, scope));
  }

  lemma OldValues(c: Calculus, c': Calculus, model: map<Id, Id>)
    requires forall x :: x in model ==> model[x] in c.decisions
    requires forall d :: d in c.decisions ==> d in c'.decisions && c'.decisions[d] == c.decisions[d]
    ensures ActiveValues(c', model) == ActiveValues(c, model)
  {
  }

  lemma SameEffective(c: Calculus, c': Calculus, scope: Id)
    requires c'.models == c.models && c'.activeModel == c.activeModel && c'.scopes == c.scopes
    ensures EffectiveDecisions(c', scope) == EffectiveDecisions(c, scope)
  {
    SameOverlay(c, c', InheritanceChain(c.scopes, scope));
  }

  lemma {:induction false} SameOverlay(c: Calculus, c': Calculus, chain: seq<Id>)
    requires c'.models == c.models && c'.activeModel == c.activeModel && c'.scopes == c.scopes
    ensures Overlay(c', chain) == Overlay(c, chain)
  {
    if chain != [] {
      SameOverlay(c, c', chain[..|chain| - 1]);
    }
  }

  lemma GuardsSteady(c: Calculus, c': Calculus, d: Id, scope: Id)
    requires Steady(c) && AddsGuards(c, c', d, scope)
    ensures Steady(c')
  {
    hide Indexed;
    SameIndexes(c, c');
    LocksFrame(c, c');
  }

  lemma ProposalSteady(c: Calculus, p: Pattern, d: Id, t: Transition, c': Calculus)
    requires Steady(c) && RegistersProposal(c, p, d, t, c')
    ensures Steady(c')
    ensures exists level :: c'.decisions == c.decisions[d := ProposedDecision(p, t.target, level)]
  {
    hide Steady;
    var level :|
      IsNextLevel(c, level) && AddsGuards(WithDecision(c, d, ProposedDecision(p, t.target, level)), c', d, p.scope);
    RegisteringSteady(c, d, ProposedDecision(p, t.target, level));
    GuardsSteady(WithDecision(c, d, ProposedDecision(p, t.target, level)), c', d, p.scope);
    assert c'.decisions == c.decisions[d := ProposedDecision(p, t.target, level)];
  }

  lemma ProposingKeeps(s: Protocol, pid: Id, event: Id, d: Id, t: Transition, s': Protocol)
    requires TypedSound(s) && pid in s.patterns && Offers(s.calculus, s.patterns[pid], event, t)
    requires RegistersProposal(s.calculus, s.patterns[pid], d, t, s'.calculus)
    requires s' == s.(calculus := s'.calculus, proposals := s'.proposals)
    requires s'.proposals == s.proposals || exists owed :: s'.proposals == s.proposals[d := Proposal(pid, t, owed)]
    ensures TypedSound(s')
  {
    hide Steady, RegistersProposal, Reachable, WellFormed, ProposalsKnown, CurrentState;
    var p := s.patterns[pid];
    ProposalSteady(s.calculus, p, d, t, s'.calculus);
    CurrentReachable(s, pid);
    ReachableStep(p, t);
    assert d !in s.calculus.decisions by { ProposalFresh(s.calculus, p, d, t, s'.calculus); }
    ProposalsStayKnown(s, pid, d, t, s');
    var level :| s'.calculus.decisions == s.calculus.decisions[d := ProposedDecision(p, t.target, level)];
    forall q, e | q in s'.patterns && IsStateDecision(s'.calculus, s'.patterns[q], e)
      ensures s'.calculus.decisions[e].value in Reachable(s'.patterns[q])
    {
      if e == d {
        StateSubjectInjective(q, pid);
      } else {
        assert IsStateDecision(s.calculus, s.patterns[q], e);
      }
    }
  }

  lemma ProposalsStayKnown(s: Protocol, pid: Id, d: Id, t: Transition, s': Protocol)
    requires ProposalsKnown(s) && pid in s.patterns && t in s.patterns[pid].transitions && s'.patterns == s.patterns
    requires d !in s.calculus.decisions
    requires exists level ::
      s'.calculus.decisions == s.calculus.decisions[d := ProposedDecision(s.patterns[pid], t.target, level)]
    requires s'.proposals == s.proposals || exists owed :: s'.proposals == s.proposals[d := Proposal(pid, t, owed)]
    ensures ProposalsKnown(s')
  {
  }

  lemma ProposalFresh(c: Calculus, p: Pattern, d: Id, t: Transition, c': Calculus)
    requires RegistersProposal(c, p, d, t, c')
    ensures d !in c.decisions
  {
  }

  lemma SameDecisionsKeep(s: Protocol, s': Protocol)
    requires TypedSound(s) && Steady(s'.calculus) && SameDecisions(s.calculus, s'.calculus)
    requires s'.patterns == s.patterns && s'.proposals == s.proposals
    ensures TypedSound(s')
  {
    hide Steady, Reachable;
  }

  lemma AuthorizingKeeps(s: Protocol, d: Id, at: nat, s': Protocol)
    requires TypedSound(s) && TypedStep(s, Authorize(d), at, s')
    ensures TypedSound(s')
  {
    hide CommitsActivation, Reachable, MayAuthorize, Steady, ValuesReachable;
    SteadyMeans(s.calculus);
    assert d in s.proposals && s.proposals[d].pattern in s.patterns by { AuthorizedKnown(s, d); }
    ActivateSteady(s.calculus, d, CurrentDecision(s.calculus, s.patterns[s.proposals[d].pattern]), at, s'.calculus);
    SameDecisionsKeep(s, s');
  }

  lemma AuthorizedKnown(s: Protocol, d: Id)
    requires MayAuthorize(s, d)
    ensures d in s.proposals && s.proposals[d].pattern in s.patterns
  {
  }

  /** Every move keeps every typed value, and so every current state, reachable. */
  lemma TypedStepKeeps(s: Protocol, m: TypedMove, at: nat, s': Protocol)
    requires TypedSound(s) && TypedStep(s, m, at, s')
    ensures TypedSound(s')
  {
    hide TypedSound, Takes, CommitsActivation, RegistersProposal, MayAuthorize, Offers;
    match m
    case Propose(pid, event, d, t, owed) => ProposingKeeps(s, pid, event, d, t, s');
    case Interrupted(pid, event, d, t) => ProposingKeeps(s, pid, event, d, t, s');
    case Authorize(d) => AuthorizingKeeps(s, d, at, s');
    case EngineMove(step) => EngineKeeps(s, step, at, s');
    case OtherDecision(d, record) => HandRegistrationExactly(s, d, record, s');
  }

  lemma EngineKeeps(s: Protocol, step: Step, at: nat, s': Protocol)
    requires TypedSound(s) && Takes(s.calculus, step, at, s'.calculus) && s' == s.(calculus := s'.calculus)
    ensures TypedSound(s')
  {
    hide Takes, Steady, Reachable;
    StepKeepsSteady(s.calculus, step, at, s'.calculus);
    SameDecisionsKeep(s, s');
  }

  /** A decision registered by hand keeps the protocol sound exactly when it is lawful. */
  lemma HandRegistrationExactly(s: Protocol, d: Id, record: Decision, s': Protocol)
    requires TypedSound(s) && d !in s.calculus.decisions && !record.status.Active?
    requires record.parents <= s.calculus.decisions.Keys && s' == s.(calculus := WithDecision(s.calculus, d, record))
    ensures TypedSound(s') <==> Lawful(s, record)
  {
    hide Steady, Reachable, WellFormed;
    RegisteringSteady(s.calculus, d, record);
    forall pid | pid in s.patterns
      ensures IsStateDecision(s'.calculus, s.patterns[pid], d) <==> AboutState(s.patterns[pid], record)
      ensures forall e :: e != d ==>
        (IsStateDecision(s'.calculus, s.patterns[pid], e) <==> IsStateDecision(s.calculus, s.patterns[pid], e))
    {
    }
    assert ProposalsKnown(s');
    assert ValuesReachable(s') <==> Lawful(s, record) by { hide ProposalsKnown; }
  }

  // ----- when an unreachable state becomes current -----

  /** The decisions that a step of the engine can make ACTIVE; whenever it succeeds they are. */
  function Entering(s: Step): set<Id> {
    match s
    case StageStep(assignments) => assignments.Values
    case ActivateStep(d, _) => {d}
    case _ => {}
  }

  ghost predicate EntersOnly(c: Calculus, c': Calculus, entering: set<Id>) {
    (forall d :: d in entering ==> IsActive(c', d)) && forall d :: IsActive(c', d) && d !in entering ==> IsActive(c, d)
  }

  lemma StageEnters(c: Calculus, assignments: Assignments, at: nat, c': Calculus)
    requires Indexed(c) && Stages(c, assignments, at, c')
    ensures EntersOnly(c, c', assignments.Values)
  {
    hide StagePath, Accepted, Settled, Indexed;
    StageEnforces(c, assignments, at, c');
    var rows, p, act :| StagePath(c, assignments, at, rows, p, act) && Accepted(c, act) && c' == Finished(act);
    FinishedSound(act);
    forall d | IsActive(c', d) && d !in assignments.Values ensures IsActive(c, d) {
      assert IsActive(act, d);
      PathEnters(c, assignments, at, rows, p, act, d);
    }
  }

  lemma PathEnters(c: Calculus, assignments: Assignments, at: nat, rows: seq<Id>, p: Pass, act: Calculus, d: Id)
    requires Indexed(c) && StagePath(c, assignments, at, rows, p, act) && IsActive(act, d) && d !in assignments.Values
    ensures IsActive(c, d)
  {
    hide AllAdmissible, IsRows, Audited, AllReady, SlotsFilled, SupersedeAll, SlotsSound, SlotsComplete, Registered;
    AuditedOnly(c);
    assert Slotted(Audited(c)) by { AuditKeepsSlots(c); }
    SupersedeAllSound(Pass(Audited(c), {}, {}), rows);
    var raw :| Activates(p.state, raw, assignments.Values, at) && act == Synchronised(raw);
    assert IsActive(p.state, d);
  }

  lemma ActivateEnters(c: Calculus, d: Id, supersede: Option<Id>, at: nat, c': Calculus)
    requires Indexed(c) && CommitsActivation(c, d, supersede, at, c')
    ensures EntersOnly(c, c', {d})
  {
    hide MayActivate, ActivationAccepted, ModelsAgree, Settled, Candidate, Indexed, Audited;
    ActivatedIsActive(c, d, supersede, at, c');
    AuditKeepsIndexes(c);
    var start := Audited(c);
    assert d in start.decisions by { MayKnown(start, d, supersede); }
    SettledFrame(NextEpoch(Candidate(start, d, at)));
    forall e | IsActive(c', e) && e != d ensures IsActive(c, e) {
      CandidateEnters(start, d, at, e);
    }
  }

  lemma CandidateEnters(c: Calculus, d: Id, at: nat, e: Id)
    requires Indexed(c) && d in c.decisions && IsActive(Candidate(c, d, at), e) && e != d
    ensures IsActive(c, e)
  {
    hide Candidate, Indexed, Freed, Ousted;
    CandidateFrame(c, d, at);
    assert Slotted(c) by { IndexedParts(c); }
    FreedSound(c, d);
    assert IsActive(Freed(c, d), e);
  }

  lemma RetiringEnters(c: Calculus, c': Calculus, gone: set<Id>)
    requires Retires(c, c', gone)
    ensures EntersOnly(c, c', {})
  {
  }

  lemma JumpEnters(c: Calculus, cid: Id, requested: Option<Id>, at: nat, c': Calculus)
    requires Indexed(c) && SaneDependencies(c.scopes, c.scopeDeps) && Jumps(c, cid, requested, at, c')
    ensures EntersOnly(c, c', {})
  {
    hide Indexed, Settled, Recovered, WidenedPlan, Applicable, IsPlan, ExplanationValid, Chosen, Retires, SaneDependencies;
    var plan :| IsJump(c, cid, requested, plan) && JumpsAlong(c, plan, at, c', WidenedPlan(c, plan));
    JumpMeans(c, cid, requested, plan);
    RecoveryRetires(c, plan, at);
    RetiringEnters(c, Recovered(c, plan, at), WidenedPlan(c, plan).invalidated);
    SettledKeepsIndexes(Recovered(c, plan, at));
  }

  lemma StepEnters(c: Calculus, s: Step, at: nat, c': Calculus)
    requires Steady(c) && Takes(c, s, at, c')
    ensures EntersOnly(c, c', Entering(s))
  {
    hide Stages, CommitsActivation, Jumps, Settled, Indexed, LocksSound, EntersOnly, Retires, Relocked, WithdrawTruth;
    match s
    case StageStep(assignments) => StageEnters(c, assignments, at, c');
    case ActivateStep(d, supersede) => ActivateEnters(c, d, supersede, at, c');
    case JumpStep(cid, requested) => JumpEnters(c, cid, requested, at, c');
    case RestartStep =>
      RestartRetires(c);
      RetiringEnters(c, Restart.Cleared(c), Speculative(c));
      SettledEnters(c, Restart.Cleared(c));
    case ScopeRestartStep(scope) =>
      ScopeRestartRetires(c, scope, at);
      RetiringEnters(c, ScopeCleared(c, Subtree(c.scopes, scope), at), SpeculativeIn(c, Subtree(c.scopes, scope)));
      SettledEnters(c, ScopeCleared(c, Subtree(c.scopes, scope), at));
    case TruthStep(plan) =>
      TruthRetires(c, plan, at);
      RetiringEnters(c, WithdrawTruth(c, plan, at), Withdrawn(c, plan));
      RelockedEnters(c, WithdrawTruth(c, plan, at));
    case _ =>
      ModelLeft(c, s, at, c');
      SameEnters(c, c');
  }

  lemma SettledEnters(c: Calculus, mid: Calculus)
    requires EntersOnly(c, mid, {})
    ensures EntersOnly(c, Settled(mid), {})
  {
    hide Settled;
    SettledFrame(mid);
  }

  lemma RelockedEnters(c: Calculus, mid: Calculus)
    requires EntersOnly(c, mid, {})
    ensures EntersOnly(c, Relocked(mid), {})
  {
    hide Relocked;
    RelockedFrame(mid);
  }

  lemma SameEnters(c: Calculus, c': Calculus)
    requires c'.decisions == c.decisions
    ensures EntersOnly(c, c', {})
  {
  }

  /** The entering decisions about the pattern's state carry reachable states. */
  ghost predicate EntersReachable(c: Calculus, p: Pattern, entering: set<Id>) {
    forall d :: d in entering && IsStateDecision(c, p, d) ==> c.decisions[d].value in Reachable(p)
  }

  /** From a reachable current state a step leads to an unreachable one exactly when it activates a
      decision about the pattern's state that carries an unreachable value, however that decision came
      to be registered. */
  lemma StepReachesExactly(c: Calculus, s: Step, at: nat, c': Calculus, p: Pattern)
    requires Steady(c) && Takes(c, s, at, c') && CurrentState(c, p) in Reachable(p)
    ensures CurrentState(c', p) in Reachable(p) <==> EntersReachable(c, p, Entering(s))
  {
    hide Takes, Steady, Reachable, SameDecisions, EntersOnly;
    StepKeepsSteady(c, s, at, c');
    SteadyMeans(c);
    SteadyMeans(c');
    StepEnters(c, s, at, c');
    EnteringDecides(c, c', p, Entering(s));
  }

  lemma EnteringDecides(c: Calculus, c': Calculus, p: Pattern, entering: set<Id>)
    requires Indexed(c) && Indexed(c') && SameDecisions(c, c') && EntersOnly(c, c', entering)
    requires CurrentState(c, p) in Reachable(p)
    ensures CurrentState(c', p) in Reachable(p) <==> EntersReachable(c, p, entering)
  {
    hide Indexed, CurrentState, CurrentDecision;
    CurrentIsSlot(c, p);
    CurrentIsSlot(c', p);
    forall d | IsActive(c', d) && IsStateDecision(c, p, d) ensures CurrentState(c', p) == c.decisions[d].value {
      StateIsCurrent(c', p, d);
    }
    var now := CurrentDecision(c', p);
    if now.Some? && now.value !in entering {
      StateIsCurrent(c, p, now.value);
    }
    if now.None? {
      NoneIsInitial(c', p);
    }
  }

  lemma StateIsCurrent(c: Calculus, p: Pattern, d: Id)
    requires Indexed(c) && IsActive(c, d) && IsStateDecision(c, p, d)
    ensures CurrentDecision(c, p) == Some(d) && CurrentState(c, p) == c.decisions[d].value
  {
    CurrentIsSlot(c, p);
  }

  lemma NoneIsInitial(c: Calculus, p: Pattern)
    requires CurrentDecision(c, p).None?
    ensures CurrentState(c, p) in Reachable(p)
  {
  }

  /** Over a whole run: every current state is reachable exactly when no step activates an unreachable
      one. */
  lemma {:induction false} RunReachesExactly(states: seq<Calculus>, steps: seq<Step>, first: nat, p: Pattern)
    requires IsRun(states, steps, first) && Steady(states[0]) && CurrentState(states[0], p) in Reachable(p)
    ensures (forall i :: 0 <= i < |states| ==> CurrentState(states[i], p) in Reachable(p)) <==>
      forall i {:trigger steps[i]} :: 0 <= i < |steps| ==> EntersReachable(states[0], p, Entering(steps[i]))
    decreases |steps|
  {
    hide Takes, Steady, Reachable, CurrentState, EntersReachable, SameDecisions;
    if steps != [] {
      var n := |steps| - 1;
      ShorterRun(states, steps, first);
      RunReachesExactly(states[..n + 1], steps[..n], first, p);
      assert forall i :: 0 <= i <= n ==> states[..n + 1][i] == states[i];
      assert forall i :: 0 <= i < n ==> steps[..n][i] == steps[i];
      RunKeepsSteady(states, steps, first);
      SameEntering(states[0], states[n], p, Entering(steps[n]));
      if CurrentState(states[n], p) in Reachable(p) {
        StepReachesExactly(states[n], steps[n], first + n, states[n + 1], p);
      }
    }
  }

  lemma SameEntering(c: Calculus, c': Calculus, p: Pattern, entering: set<Id>)
    requires SameDecisions(c, c')
    ensures EntersReachable(c', p, entering) == EntersReachable(c, p, entering)
  {
    hide Reachable;
  }

  // ----- authorisation moves the machine along its transitions -----

  lemma ActivatedIsActive(c: Calculus, d: Id, supersede: Option<Id>, at: nat, c': Calculus)
    requires Indexed(c) && CommitsActivation(c, d, supersede, at, c')
    ensures IsActive(c', d)
  {
    hide MayActivate, ActivationAccepted, ModelsAgree, Settled, Candidate, Indexed, Audited, Freed;
    AuditKeepsIndexes(c);
    assert d in Audited(c).decisions by { MayKnown(Audited(c), d, supersede); }
    CandidateFrame(Audited(c), d, at);
    SettledFrame(NextEpoch(Candidate(Audited(c), d, at)));
  }

  /** An authorised proposal leaves from the current state and arrives at its target. */
  lemma AuthorizationArrives(s: Protocol, d: Id, at: nat, s': Protocol)
    requires TypedSound(s) && TypedStep(s, Authorize(d), at, s')
    ensures d in s.proposals && s.proposals[d].pattern in s.patterns
    ensures var p, t := s.patterns[s.proposals[d].pattern], s.proposals[d].transition;
      && t in p.transitions && t.source == CurrentState(s.calculus, p)
      && CurrentDecision(s'.calculus, p) == Some(d) && CurrentState(s'.calculus, p) == t.target
  {
    hide CommitsActivation, Steady, ValuesReachable, Reachable, WellFormed;
    SteadyMeans(s.calculus);
    var p := s.patterns[s.proposals[d].pattern];
    var occupant := CurrentDecision(s.calculus, p);
    AuthorizingKeeps(s, d, at, s');
    SteadyMeans(s'.calculus);
    ActivatedIsActive(s.calculus, d, occupant, at, s'.calculus);
    CurrentIsSlot(s'.calculus, p);
    assert IsStateDecision(s'.calculus, p, d);
  }

  // ----- what proposing and authorising ask for -----

  /** A proposal may be authorised exactly while its pattern still stands in the state that the transition
      leaves, and every obligation it owes is on record as VERIFIED or COMMITTED. */
  lemma AuthorizableExactly(s: Protocol, d: Id)
    ensures MayAuthorize(s, d) <==>
      && d in s.proposals && s.proposals[d].pattern in s.patterns
      && CurrentState(s.calculus, s.patterns[s.proposals[d].pattern]) == s.proposals[d].transition.source
      && forall o :: o in s.proposals[d].obligations ==>
           o in s.calculus.obligations && s.calculus.obligations[o].status in {Verified, Committed}
  {
    hide CurrentState;
  }

  /** Some obligation that the proposal owes is missing, or is neither VERIFIED nor COMMITTED. */
  predicate Owing(s: Protocol, d: Id) {
    d in s.proposals
    && exists o :: o in s.proposals[d].obligations
         && (o !in s.calculus.obligations || s.calculus.obligations[o].status !in {Verified, Committed})
  }

  lemma AuthorizationStep(s: Protocol, d: Id, at: nat, s': Protocol)
    requires MayAuthorize(s, d)
    requires CommitsActivation(s.calculus, d, CurrentDecision(s.calculus, s.patterns[s.proposals[d].pattern]), at, s'.calculus)
    requires s' == s.(calculus := s'.calculus, authorized := s.authorized + [d])
    ensures TypedStep(s, Authorize(d), at, s')
  {
    hide CommitsActivation, CurrentDecision;
  }

  lemma OwingIsNotAuthorizable(s: Protocol, d: Id)
    requires Owing(s, d)
    ensures !MayAuthorize(s, d)
  {
    AuthorizableExactly(s, d);
  }

  /** A proposal that still owes work is authorised by no step. */
  lemma OwingIsNotAuthorized(s: Protocol, d: Id, at: nat, s': Protocol)
    requires Owing(s, d)
    ensures !TypedStep(s, Authorize(d), at, s')
  {
    hide CommitsActivation;
    AuthorizableExactly(s, d);
  }

  /** In every run, whatever was authorised had all its work done at that moment, and left the state its
      pattern was in. */
  lemma RunAuthorizesFinishedWork(states: seq<Protocol>, moves: seq<TypedMove>, ats: seq<nat>, i: nat, o: Id)
    requires IsTypedRun(states, moves, ats) && i < |moves| && moves[i].Authorize?
    ensures moves[i].decision in states[i].proposals && states[i].proposals[moves[i].decision].pattern in states[i].patterns
    ensures var s, r := states[i], states[i].proposals[moves[i].decision];
      && CurrentState(s.calculus, s.patterns[r.pattern]) == r.transition.source
      && (o in r.obligations ==> o in s.calculus.obligations && s.calculus.obligations[o].status in {Verified, Committed})
  {
    hide CommitsActivation, CurrentState;
    assert TypedStep(states[i], moves[i], ats[i], states[i + 1]);
    AuthorizableExactly(states[i], moves[i].decision);
  }

  /** What a proposal registers: an unpinned PROPOSED decision for the transition's target, without parents or
      antecedents, one level above every ACTIVE decision; and obligations that wait, all resting on it. */
  lemma ProposalRecords(c: Calculus, p: Pattern, d: Id, t: Transition, c': Calculus)
    requires RegistersProposal(c, p, d, t, c')
    ensures d !in c.decisions && d in c'.decisions
    ensures p.scope in c.scopes && c.scopes[p.scope].status == ActiveScope
    ensures c' == c.(decisions := c.decisions[d := c'.decisions[d]], obligations := c'.obligations, fairness := c'.fairness)
    ensures var r := c'.decisions[d];
      && r == Decision(StateSubject(p.id), t.target, Explicit, Proposed, r.level, {}, {}, {}, p.scope, false, false,
                       None, None, None, None)
      && (forall e :: e in c.decisions && c.decisions[e].status == Active ==> c.decisions[e].level < r.level)
      && r.level >= 1
      && (r.level > 1 ==>
            exists e :: e in c.decisions && c.decisions[e].status == Active && c.decisions[e].level == r.level - 1)
    ensures forall o :: o in c.obligations ==> o in c'.obligations && c'.obligations[o] == c.obligations[o]
    ensures forall o :: o in c'.obligations && o !in c.obligations ==>
      c'.obligations[o].status == Available && c'.obligations[o].decisionDeps == {d} && c'.obligations[o].scope == p.scope
  {
    var level :|
      IsNextLevel(c, level) && AddsGuards(WithDecision(c, d, ProposedDecision(p, t.target, level)), c', d, p.scope);
    if level > 1 {
      var e :| IsActive(c, e) && c.decisions[e].level + 1 == level;
    }
    assert forall e :: e in c.decisions && c.decisions[e].status == Active ==> IsActive(c, e);
  }

  ghost predicate IsTypedRun(states: seq<Protocol>, moves: seq<TypedMove>, ats: seq<nat>) {
    |states| == |moves| + 1 && |ats| == |moves|
    && forall i {:trigger moves[i]} :: 0 <= i < |moves| ==> TypedStep(states[i], moves[i], ats[i], states[i + 1])
  }

  lemma ShorterTypedRun(states: seq<Protocol>, moves: seq<TypedMove>, ats: seq<nat>)
    requires IsTypedRun(states, moves, ats) && moves != []
    ensures var n := |moves| - 1;
      IsTypedRun(states[..n + 1], moves[..n], ats[..n]) && TypedStep(states[n], moves[n], ats[n], states[n + 1])
  {
    hide TypedStep;
    var n := |moves| - 1;
    assert TypedStep(states[n], moves[n], ats[n], states[n + 1]);
    forall i | 0 <= i < n ensures TypedStep(states[..n + 1][i], moves[..n][i], ats[..n][i], states[..n + 1][i + 1]) {
      assert TypedStep(states[i], moves[i], ats[i], states[i + 1]);
    }
  }

  /** Under any interleaving of proposals, authorisations and engine steps, every typed decision's
      value and every current state stay reachable from the initial state. */
  lemma {:induction false} TypedRunSound(states: seq<Protocol>, moves: seq<TypedMove>, ats: seq<nat>)
    requires IsTypedRun(states, moves, ats) && TypedSound(states[0])
    ensures forall i :: 0 <= i < |states| ==> TypedSound(states[i]) && states[i].patterns == states[0].patterns
    ensures forall i, pid :: 0 <= i < |states| && pid in states[0].patterns ==>
      CurrentState(states[i].calculus, states[0].patterns[pid]) in Reachable(states[0].patterns[pid])
    decreases |moves|
  {
    hide TypedSound, Reachable, CurrentState;
    if moves != [] {
      var n := |moves|;
      ShorterTypedRun(states, moves, ats);
      TypedRunSound(states[..n], moves[..n - 1], ats[..n - 1]);
      assert states[..n][n - 1] == states[n - 1] && states[..n][0] == states[0];
      StepPatterns(states[n - 1], moves[n - 1], ats[n - 1], states[n]);
      TypedStepKeeps(states[n - 1], moves[n - 1], ats[n - 1], states[n]);
      forall i | 0 <= i < n ensures TypedSound(states[i]) && states[i].patterns == states[0].patterns {
        assert states[..n][i] == states[i];
      }
    }
    forall i, pid | 0 <= i < |states| && pid in states[0].patterns
      ensures CurrentState(states[i].calculus, states[0].patterns[pid]) in Reachable(states[0].patterns[pid])
    {
      CurrentReachable(states[i], pid);
    }
  }

  lemma StepPatterns(s: Protocol, m: TypedMove, at: nat, s': Protocol)
    requires TypedStep(s, m, at, s')
    ensures s'.patterns == s.patterns
  {
  }

  // ----- the path between losses -----

  predicate Authorizes(s: Protocol, m: TypedMove, pid: Id) {
    m.Authorize? && m.decision in s.proposals && s.proposals[m.decision].pattern == pid
  }

  /** No move but an authorisation of the pattern itself changes its current state. */
  ghost predicate NothingLost(states: seq<Protocol>, moves: seq<TypedMove>, p: Pattern)
    requires |states| == |moves| + 1
  {
    forall i :: 0 <= i < |moves| && !Authorizes(states[i], moves[i], p.id) ==>
      CurrentState(states[i + 1].calculus, p) == CurrentState(states[i].calculus, p)
  }

  /** The transitions of the pattern that the run authorises, in order. */
  ghost function AuthorizedPath(states: seq<Protocol>, moves: seq<TypedMove>, pid: Id): seq<Transition>
    requires |states| == |moves| + 1
  {
    if moves == [] then []
    else
      var n := |moves| - 1;
      AuthorizedPath(states[..n + 1], moves[..n], pid)
      + if Authorizes(states[n], moves[n], pid) then [states[n].proposals[moves[n].decision].transition] else []
  }

  /** Where the machine stands before transition `k` of the path. */
  function StateBefore(path: seq<Transition>, from: Value, k: nat): Value
    requires k <= |path|
  {
    if k == 0 then from else path[k - 1].target
  }

  ghost predicate Contiguous(path: seq<Transition>, from: Value) {
    forall k :: 0 <= k < |path| ==> path[k].source == StateBefore(path, from, k)
  }

  function EndOf(path: seq<Transition>, from: Value): Value {
    StateBefore(path, from, |path|)
  }

  /** Between losses of the state decision, the authorised transitions form one path of the pattern:
      it starts in the current state and ends in the current state. */
  lemma {:induction false} AuthorizedPathContiguous(states: seq<Protocol>, moves: seq<TypedMove>, ats: seq<nat>, pid: Id)
    requires IsTypedRun(states, moves, ats) && TypedSound(states[0]) && pid in states[0].patterns
    requires NothingLost(states, moves, states[0].patterns[pid])
    ensures var p := states[0].patterns[pid];
      var path := AuthorizedPath(states, moves, pid);
      && Contiguous(path, CurrentState(states[0].calculus, p))
      && EndOf(path, CurrentState(states[0].calculus, p)) == CurrentState(states[|moves|].calculus, p)
      && forall t :: t in path ==> t in p.transitions
    decreases |moves|
  {
    hide TypedSound, TypedStep, CurrentState, Contiguous, EndOf, NothingLost;
    if moves == [] {
      EmptyPath(CurrentState(states[0].calculus, states[0].patterns[pid]));
    } else {
      var n := |moves| - 1;
      ShorterTypedRun(states, moves, ats);
      ShorterNothingLost(states, moves, ats, pid);
      AuthorizedPathContiguous(states[..n + 1], moves[..n], ats[..n], pid);
      assert states[..n + 1][n] == states[n];
      LastMove(states, moves, ats, pid);
      var all := PathStep(states[n], moves[n], ats[n], states[n + 1], pid, AuthorizedPath(states[..n + 1], moves[..n], pid),
                          CurrentState(states[0].calculus, states[0].patterns[pid]));
      assert all == AuthorizedPath(states, moves, pid);
    }
  }

  lemma LastMove(states: seq<Protocol>, moves: seq<TypedMove>, ats: seq<nat>, pid: Id)
    requires IsTypedRun(states, moves, ats) && moves != [] && TypedSound(states[0]) && pid in states[0].patterns
    requires NothingLost(states, moves, states[0].patterns[pid])
    ensures var n, p := |moves| - 1, states[0].patterns[pid];
      && TypedSound(states[n]) && states[n].patterns == states[0].patterns
      && (!Authorizes(states[n], moves[n], pid) ==>
          CurrentState(states[n + 1].calculus, p) == CurrentState(states[n].calculus, p))
  {
    hide TypedSound, TypedStep, CurrentState, Authorizes;
    TypedRunSound(states, moves, ats);
    AdmittedId(states[0], pid);
  }

  lemma EmptyPath(from: Value)
    ensures Contiguous([], from) && EndOf([], from) == from
  {
  }

  lemma ExtendPath(path: seq<Transition>, from: Value, t: Transition)
    requires Contiguous(path, from) && t.source == EndOf(path, from)
    ensures Contiguous(path + [t], from) && EndOf(path + [t], from) == t.target
  {
    var all := path + [t];
    forall k | 0 <= k < |all| ensures all[k].source == StateBefore(all, from, k) {
      assert StateBefore(all, from, k) == StateBefore(path, from, k);
      assert k < |path| ==> all[k] == path[k];
    }
  }

  lemma PathReturns(path: seq<Transition>, from: Value, i: nat, j: nat)
    requires Contiguous(path, from) && i < j < |path| && path[i].source == path[j].source
    ensures exists k :: i <= k < j && path[k].target == path[i].source
  {
    assert path[j].source == StateBefore(path, from, j) == path[j - 1].target;
  }

  lemma ShorterNothingLost(states: seq<Protocol>, moves: seq<TypedMove>, ats: seq<nat>, pid: Id)
    requires IsTypedRun(states, moves, ats) && moves != [] && pid in states[0].patterns
    requires NothingLost(states, moves, states[0].patterns[pid])
    ensures var n := |moves| - 1; NothingLost(states[..n + 1], moves[..n], states[0].patterns[pid])
  {
    hide TypedStep, CurrentState;
    var n, p := |moves| - 1, states[0].patterns[pid];
    forall i | 0 <= i < n && !Authorizes(states[..n + 1][i], moves[..n][i], p.id)
      ensures CurrentState(states[..n + 1][i + 1].calculus, p) == CurrentState(states[..n + 1][i].calculus, p)
    {
      assert !Authorizes(states[i], moves[i], p.id);
    }
  }

  /** The last move of a run either extends the path or leaves the current state where it is. */
  lemma PathStep(s: Protocol, m: TypedMove, at: nat, s': Protocol, pid: Id, path: seq<Transition>, from: Value)
    returns (all: seq<Transition>)
    requires TypedSound(s) && TypedStep(s, m, at, s') && pid in s.patterns
    requires !Authorizes(s, m, pid) ==>
      CurrentState(s'.calculus, s.patterns[pid]) == CurrentState(s.calculus, s.patterns[pid])
    requires Contiguous(path, from) && EndOf(path, from) == CurrentState(s.calculus, s.patterns[pid])
    requires forall t :: t in path ==> t in s.patterns[pid].transitions
    ensures all == path + if Authorizes(s, m, pid) then [s.proposals[m.decision].transition] else []
    ensures Contiguous(all, from) && EndOf(all, from) == CurrentState(s'.calculus, s.patterns[pid])
    ensures forall t :: t in all ==> t in s.patterns[pid].transitions
  {
    hide TypedSound, TypedStep, CurrentState, Contiguous, EndOf;
    all := path;
    if Authorizes(s, m, pid) {
      AuthorizationArrives(s, m.decision, at, s');
      var t := s.proposals[m.decision].transition;
      ExtendPath(path, from, t);
      all := path + [t];
    }
  }

  lemma AdmittedId(s: Protocol, pid: Id)
    requires TypedSound(s) && pid in s.patterns
    ensures s.patterns[pid].id == pid
  {
  }

  /** Two proposals that start in one state cannot both be authorised unless the machine came back to
      that state in between. */
  lemma NoDoubleAuthorization(states: seq<Protocol>, moves: seq<TypedMove>, ats: seq<nat>, pid: Id, i: nat, j: nat)
    requires IsTypedRun(states, moves, ats) && TypedSound(states[0]) && pid in states[0].patterns
    requires NothingLost(states, moves, states[0].patterns[pid])
    requires i < j < |AuthorizedPath(states, moves, pid)|
    requires AuthorizedPath(states, moves, pid)[i].source == AuthorizedPath(states, moves, pid)[j].source
    ensures exists k ::
      i <= k < j && AuthorizedPath(states, moves, pid)[k].target == AuthorizedPath(states, moves, pid)[i].source
  {
    hide TypedStep, TypedSound, NothingLost, AuthorizedPath, CurrentState, Contiguous;
    AuthorizedPathContiguous(states, moves, ats, pid);
    PathReturns(AuthorizedPath(states, moves, pid), CurrentState(states[0].calculus, states[0].patterns[pid]), i, j);
  }

  // ----- the runtime -----

  method NextLevel(c: Calculus) returns (level: nat)
    ensures IsNextLevel(c, level)
  {
    level := 1;
    var rest := c.decisions.Keys;
    while rest != {}
      invariant rest <= c.decisions.Keys && 0 < level
      invariant forall d :: IsActive(c, d) && d !in rest ==> c.decisions[d].level < level
      invariant level == 1 || exists d :: IsActive(c, d) && c.decisions[d].level + 1 == level
      decreases rest
    {
      var d :| d in rest;
      rest := rest - {d};
      if c.decisions[d].status.Active? && c.decisions[d].level >= level {
        level := c.decisions[d].level + 1;
        assert IsActive(c, d);
      }
    }
  }

  lemma NoGuards(c: Calculus, d: Id, scope: Id)
    ensures AddsGuards(c, c, d, scope)
  {
  }

  lemma OneMoreGuard(c: Calculus, c': Calculus, d: Id, scope: Id, o: Id, sequence: nat)
    requires AddsGuards(c, c', d, scope) && o !in c'.obligations && scope in c'.scopes
    ensures var next := WithObligation(c', o, GuardObligation(d, scope, sequence));
      && AddsGuards(c, next, d, scope) && RecordsKept(c', next)
      && next == c'.(obligations := next.obligations, locks := next.locks, fairness := next.fairness)
      && next.obligations.Keys == c'.obligations.Keys + {o} && next.scopes == c'.scopes
  {
  }

  class TypedRuntime {
    const engine: Engine
    var patterns: map<Id, Pattern>
    var proposals: map<Id, Proposal>
    var authorized: seq<Id>

    ghost function State(): Protocol
      reads this, engine
    {
      Protocol(engine.calculus, patterns, proposals, authorized)
    }

    constructor (engine: Engine, patterns: map<Id, Pattern>, proposals: map<Id, Proposal>, authorized: seq<Id>)
      ensures this.engine == engine
      ensures State() == Protocol(engine.calculus, patterns, proposals, authorized)
    {
      this.engine, this.patterns, this.proposals, this.authorized := engine, patterns, proposals, authorized;
    }

    /** Registers the decision; a refused commit leaves the calculus alone. */
    method RegisterDecision(p: Pattern, d: Id, target: Value) returns (ok: bool)
      requires engine.Valid() && d !in engine.calculus.decisions
      modifies engine
      ensures engine.Valid()
      ensures ok ==> CommitChecks(engine.calculus)
      ensures ok ==> exists level ::
        IsNextLevel(old(engine.calculus), level)
        && engine.calculus == WithDecision(old(engine.calculus), d, ProposedDecision(p, target, level))
      ensures !ok ==> engine.calculus == old(engine.calculus)
    {
      var level := NextLevel(engine.calculus);
      var next := WithDecision(engine.calculus, d, ProposedDecision(p, target, level));
      RegisteringIndexed(engine.calculus, d, ProposedDecision(p, target, level));
      IndexedModelsAgree(next);
      ok := engine.Commit(next);
    }

    /** Registers the obligations of the proposal that do not exist yet. */
    method RegisterGuards(d: Id, scope: Id, obligations: set<Id>) returns (ok: bool)
      requires engine.Valid() && CommitChecks(engine.calculus) && scope in engine.calculus.scopes
      modifies engine
      ensures engine.Valid() && AddsGuards(old(engine.calculus), engine.calculus, d, scope)
      ensures ok ==> obligations <= engine.calculus.obligations.Keys
    {
      hide CommitChecks, Indexed, SaneDependencies, AddsGuards, RecordsKept, WithObligation;
      var rest := obligations;
      NoGuards(engine.calculus, d, scope);
      while rest != {}
        invariant rest <= obligations && engine.Valid() && CommitChecks(engine.calculus)
        invariant AddsGuards(old(engine.calculus), engine.calculus, d, scope)
        invariant obligations - rest <= engine.calculus.obligations.Keys && scope in engine.calculus.scopes
        decreases rest
      {
        var o :| o in rest;
        rest := rest - {o};
        if o !in engine.calculus.obligations {
          var next := WithObligation(engine.calculus, o, GuardObligation(d, scope, engine.sequence + 1));
          OneMoreGuard(old(engine.calculus), engine.calculus, d, scope, o, engine.sequence + 1);
          SameForCommit(engine.calculus, next);
          ok := engine.Commit(next);
          if !ok {
            return;
          }
        }
      }
      ok := true;
    }

    /** `propose_typed_transition`. A failure after the decision is registered leaves it behind
        without a proposal. */
    method ProposeTypedTransition(pid: Id, event: Id, payloadValid: bool, d: Id, obligations: set<Id>)
      returns (r: Result<Transition>)
      requires engine.Valid()
      modifies this, engine
      ensures engine.Valid() && patterns == old(patterns) && authorized == old(authorized)
      ensures r.Ok? ==> TypedStep(old(State()), Propose(pid, event, d, r.value, obligations), 0, State())
      ensures r.Err? ==>
        State() == old(State()) || exists t :: TypedStep(old(State()), Interrupted(pid, event, d, t), 0, State())
      ensures !payloadValid ==> r.Err? && State() == old(State())
    {
      hide Indexed, CommitChecks, AddsGuards, SaneDependencies, CurrentState, IsNextLevel, ProposedDecision;
      if pid !in patterns {
        return Err(KeyError(pid));
      }
      var p := patterns[pid];
      var offers := TransitionsFor(p, CurrentState(engine.calculus, p), event);
      if !payloadValid || offers == {} {
        return Err(ValueError("illegal typed transition"));
      }
      var t :| t in offers;
      if d in engine.calculus.decisions || p.scope !in engine.calculus.scopes
        || !engine.calculus.scopes[p.scope].status.ActiveScope? {
        return Err(ValueError("decision cannot be registered"));
      }
      ghost var before := State();
      var registered := RegisterDecision(p, d, t.target);
      if !registered {
        return Err(ValueError("scope models violate hard constraints"));
      }
      ghost var level :| IsNextLevel(before.calculus, level)
        && engine.calculus == WithDecision(before.calculus, d, ProposedDecision(p, t.target, level));
      var guarded := RegisterGuards(d, p.scope, obligations);
      assert RegistersProposal(before.calculus, p, d, t, engine.calculus);
      if !guarded {
        assert TypedStep(before, Interrupted(pid, event, d, t), 0, State());
        return Err(ValueError("obligation cannot be registered"));
      }
      proposals := proposals[d := Proposal(pid, t, obligations)];
      return Ok(t);
    }

    /** The proposal is not stale, and everything it owes is done. */
    method CheckProposal(d: Id) returns (r: Result<()>)
      ensures r.Ok? <==> MayAuthorize(State(), d)
      ensures r.Ok? ==> d in proposals && proposals[d].pattern in patterns
    {
      if d !in proposals || proposals[d].pattern !in patterns {
        return Err(KeyError(d));
      }
      if proposals[d].transition.source != CurrentState(engine.calculus, patterns[proposals[d].pattern]) {
        return Err(ValueError("typed transition proposal is stale"));
      }
      if !ObligationsDone(engine.calculus, proposals[d].obligations) {
        return Err(ValueError("typed transition obligations are incomplete"));
      }
      return Ok(());
    }

    /** `authorize_typed_transition`, for a POLICY or CONTROLLER authority. */
    method AuthorizeTypedTransition(d: Id, mayActivate: bool) returns (r: Result<()>)
      requires engine.Valid()
      modifies this, engine
      ensures engine.Valid() && patterns == old(patterns) && proposals == old(proposals)
      ensures r.Ok? ==> mayActivate && TypedStep(old(State()), Authorize(d), old(engine.sequence) + 1, State())
      ensures r.Err? ==> State() == old(State())
      ensures Owing(old(State()), d) ==> r.Err?
      ensures r.Err? ==>
        || !mayActivate || !MayAuthorize(old(State()), d)
        || forall c' :: CommitsActivation(old(engine.calculus), d,
             CurrentDecision(old(engine.calculus), old(patterns)[old(proposals)[d].pattern]), old(engine.sequence) + 1, c') ==>
             !CommitChecks(c')
    {
      hide CommitsActivation, Indexed, CommitChecks, SaneDependencies, CurrentDecision, CurrentState, Owing, MayAuthorize,
        TypedStep;
      ghost var before := State();
      if Owing(before, d) {
        OwingIsNotAuthorizable(before, d);
      }
      if !mayActivate {
        return Err(ValueError("typed transition activation requires POLICY or CONTROLLER authority"));
      }
      var checked := CheckProposal(d);
      if checked.Err? {
        return Err(checked.error);
      }
      var p := patterns[proposals[d].pattern];
      var activated := engine.ActivateDecision(d, CurrentDecision(engine.calculus, p));
      if activated.Err? {
        return Err(activated.error);
      }
      authorized := authorized + [d];
      AuthorizationStep(before, d, old(engine.sequence) + 1, State());
      return Ok(());
    }
  }

  /** A proposal answers its event with a transition of the pattern from the current state; it is recorded as
      proposed, and leaves every pattern's current state alone. */
  lemma ProposingMovesNothing(s: Protocol, pid: Id, event: Id, d: Id, t: Transition, owed: set<Id>, at: nat, s': Protocol,
                              p: Pattern)
    requires TypedStep(s, Propose(pid, event, d, t, owed), at, s') && Slotted(s.calculus)
    ensures pid in s.patterns && t in s.patterns[pid].transitions && t.event == event
    ensures t.source == CurrentState(s.calculus, s.patterns[pid])
    ensures s'.proposals == s.proposals[d := Proposal(pid, t, owed)] && s'.authorized == s.authorized
    ensures d in s'.calculus.decisions && s'.calculus.decisions[d].value == t.target
    ensures CurrentState(s'.calculus, p) == CurrentState(s.calculus, p)
  {
    ProposalRecords(s.calculus, s.patterns[pid], d, t, s'.calculus);
  }
}
