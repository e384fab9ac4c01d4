/** The durable record types of the calculus (`_calculus_model.py`, `_scopes_model.py`). */
module CalculusModel {
  import opened Foundations

  /** The permanent root scope. */
  const ROOT: Id := "root"

  /** The empty decision model, that is, no subject assigned. */
  const NO_MODEL: map<Id, Id> := map[]

  // ----- conditions over decision values -----

  datatype LiteralOp = EQ | NEQ

  datatype Literal = Literal(subject: Id, op: LiteralOp, value: Value, decision: Option<Id>)

  /** `Unset` is a missing condition, which holds. */
  datatype Condition =
    | Unset
    | Const(truth: bool)
    | Holds(literal: Literal)
    | All(parts: seq<Condition>)
    | Any(parts: seq<Condition>)
    | Not(inner: Condition)

  // ----- decisions -----

  datatype DecisionKind = RootKind | PinnedKind | Explicit | Derived

  datatype DecisionStatus =
    | Proposed | Active | Suspended | Superseded | Invalidated | Rejected | Historical

  datatype Decision = Decision(
    subject: Id,
    value: Value,
    kind: DecisionKind,
    status: DecisionStatus,
    level: nat,
    parents: set<Id>,
    antecedents: set<Id>,
    planNodes: set<Id>,
    scope: Id,
    overrides: bool,
    pinned: bool,
    activatedAt: Option<nat>,
    invalidatedBy: Option<Id>,
    invalidatedByPlan: Option<Id>,
    supersededBy: Option<Id>)

  datatype Relation = DependsOn | Derives | OtherRelation

  datatype Edge = Edge(src: Id, dst: Id, relation: Relation)

  /** Kept by every restart. */
  predicate Retained(d: Decision) {
    d.pinned || d.kind.RootKind? || d.kind.PinnedKind?
  }

  // ----- obligations and locks -----

  datatype ObligationStatus =
    | Available | Enabled | InProgress | Verifying | Verified | Committed
    | Blocked | Locked | NeedsRevalidation | Refused | Replaced | Impossible

  /** The dispositions an obligation never leaves: REJECTED, SUPERSEDED, IMPOSSIBLE. */
  predicate Disposed(s: ObligationStatus) {
    s.Refused? || s.Replaced? || s.Impossible?
  }

  predicate Terminal(s: ObligationStatus) {
    s.Committed? || Disposed(s)
  }

  /** Work that counts as considered: the audit resets its fairness clock. */
  predicate InHand(s: ObligationStatus) {
    s.Enabled? || s.InProgress? || s.Verifying? || s.Verified? || s.Committed?
  }

  /** `OBLIGATION_TRANSITIONS`. */
  predicate Legal(before: ObligationStatus, after: ObligationStatus) {
    match before
    case Available => after.Enabled? || after.Blocked? || after.Locked? || Disposed(after)
    case Enabled =>
      after.InProgress? || after.Blocked? || after.Locked? || after.NeedsRevalidation? || Disposed(after)
    case InProgress => after.Verifying? || after.Blocked? || after.NeedsRevalidation? || Disposed(after)
    case Verifying => after.Verified? || after.Blocked? || after.NeedsRevalidation? || Disposed(after)
    case Verified => after.Committed? || after.NeedsRevalidation? || after.Replaced?
    case Committed => after.NeedsRevalidation? || after.Replaced?
    case Blocked =>
      after.Available? || after.Enabled? || after.Locked? || after.NeedsRevalidation? || Disposed(after)
    case Locked => after.Available? || Disposed(after)
    case NeedsRevalidation => after.Available? || after.Enabled? || after.Verifying? || Disposed(after)
    case Refused => false
    case Replaced => false
    case Impossible => false
  }

  /** Only work that already consumed something may be reopened by the table. */
  predicate MayReopen(s: ObligationStatus) {
    Legal(s, NeedsRevalidation)
  }

  datatype Obligation = Obligation(
    activation: Condition,
    status: ObligationStatus,
    dependencies: set<Id>,
    decisionDeps: set<Id>,
    planNodes: set<Id>,
    lockIds: set<Id>,
    persistent: bool,
    mandatory: bool,
    changedAt: nat,
    reason: Option<Id>,
    scope: Id)

  datatype ObligationEdge = ObligationEdge(src: Id, dst: Id, relation: Id)

  datatype LockStatus = LockActive | Broken | ExpiredLock | SupersededLock

  datatype Lock = Lock(
    obligation: Id,
    condition: Condition,
    origin: Id,
    status: LockStatus,
    createdEpoch: int,
    brokenEpoch: Option<int>,
    scope: Id)

  // ----- conflicts and learned knowledge -----

  datatype ConflictKind = AssumptionConflict | EvidenceConflict | RootConflict | PolicyConflict

  datatype ConflictStatus = Open | Explained | Learned | Resolved | RejectedConflict

  datatype BackjumpPlan = BackjumpPlan(
    conflict: Id,
    explanation: Id,
    pivot: Option<Id>,
    invalidated: set<Id>,
    obligations: set<Id>,
    planNodes: set<Id>)

  /** The snapshot maps scoped subject keys to decision identifiers. */
  datatype Conflict = Conflict(
    kind: ConflictKind,
    evidence: set<Id>,
    snapshot: map<Id, Id>,
    status: ConflictStatus,
    explanations: set<Id>,
    learned: set<Id>,
    resolvedAt: Option<nat>,
    backjump: Option<BackjumpPlan>,
    scope: Id)

  datatype ExplanationStatus = ProposedExplanation | Validated | Proven | RejectedExplanation

  datatype Explanation = Explanation(
    conflict: Id,
    literals: seq<Literal>,
    evidence: set<Id>,
    status: ExplanationStatus,
    guard: Condition,
    certified: bool,
    scope: Id)

  datatype Strength = Hard | Soft

  datatype ConstraintStatus =
    | ProposedConstraint | ActiveConstraint | SoftConstraint | Expired | Subsumed | RejectedConstraint

  datatype Validation = ByProof | ByValidation | Heuristic

  /** The body is a conjunction of literals, so its order and repetitions carry no meaning. */
  datatype Constraint = Constraint(
    body: set<Literal>,
    guard: Condition,
    strength: Strength,
    status: ConstraintStatus,
    validation: Validation,
    conflict: Id,
    explanation: Id,
    evidence: set<Id>,
    scope: Id,
    createdAt: nat,
    supersededBy: Option<Id>)

  // ----- fairness -----

  datatype FairnessStatus = Normal | Due | Overdue

  datatype FairnessRecord = FairnessRecord(
    createdEpoch: int,
    lastConsidered: int,
    lastEnabled: Option<int>,
    lastReviewed: Option<int>,
    lockStart: Option<int>,
    lockCount: int,
    hidden: int,
    continuousLock: int,
    status: FairnessStatus,
    deferredUntil: Option<int>)

  datatype Enforcement = Warn | BlockPlanning

  datatype FairnessPolicy = FairnessPolicy(
    maxHidden: int,
    maxLockAge: int,
    maxLockCount: int,
    maxDeferral: int,
    enforcement: Enforcement)

  // ----- scopes -----

  datatype ScopeStatus = ActiveScope | SuspendedScope | RevalidateScope | InvalidatedScope | RetiredScope

  datatype Scope = Scope(
    parent: Option<Id>,
    status: ScopeStatus,
    isolated: bool,
    deniesOverride: bool,
    updatedAt: nat)

  datatype InvalidationPolicy = Ignore | Revalidate | Invalidate

  datatype ScopeDependency = ScopeDependency(upstream: Id, downstream: Id, policy: InvalidationPolicy)

  // ----- the calculus state -----

  /** `models` maps each scope to its local model, subject by subject; `activeModel` is the
      historical projection of the root scope's model. */
  datatype Calculus = Calculus(
    epoch: int,
    activeModel: map<Id, Id>,
    decisions: map<Id, Decision>,
    edges: seq<Edge>,
    obligations: map<Id, Obligation>,
    obligationEdges: seq<ObligationEdge>,
    locks: map<Id, Lock>,
    conflicts: map<Id, Conflict>,
    explanations: map<Id, Explanation>,
    constraints: map<Id, Constraint>,
    policy: FairnessPolicy,
    fairness: map<Id, FairnessRecord>,
    searchLocal: map<Id, Value>,
    scopes: map<Id, Scope>,
    scopeDeps: map<Id, ScopeDependency>,
    models: map<Id, map<Id, Id>>)

  predicate IsActive(c: Calculus, d: Id) {
    d in c.decisions && c.decisions[d].status.Active?
  }

  /** The decision assigned to `subject` in `scope`, if any. */
  function Slot(models: map<Id, map<Id, Id>>, scope: Id, subject: Id): Option<Id> {
    if scope in models && subject in models[scope] then Some(models[scope][subject]) else None
  }

  // ----- the invariants of a committed state -----

  /** Every model entry is an ACTIVE decision of that scope and subject. */
  ghost predicate SlotsSound(c: Calculus) {
    forall s, x :: s in c.models && x in c.models[s] ==>
      var d := c.models[s][x];
      IsActive(c, d) && c.decisions[d].scope == s && c.decisions[d].subject == x
  }

  /** Every ACTIVE decision occupies the slot of its own scope and subject. */
  ghost predicate SlotsComplete(c: Calculus) {
    forall d :: IsActive(c, d) ==>
      Slot(c.models, c.decisions[d].scope, c.decisions[d].subject) == Some(d)
  }

  /** `active_model` mirrors the root scope's model. */
  ghost predicate Mirror(c: Calculus) {
    ROOT in c.models && c.activeModel == c.models[ROOT]
  }

  /** Parents and causal edges name registered decisions. */
  ghost predicate Registered(c: Calculus) {
    && (forall d :: d in c.decisions ==> c.decisions[d].parents <= c.decisions.Keys)
    && (forall e :: e in c.edges ==> e.src in c.decisions && e.dst in c.decisions)
  }

  /** Normalisation rewrites the root scope's record on every load. */
  predicate RootRecord(scopes: map<Id, Scope>) {
    ROOT in scopes && scopes[ROOT].parent.None? && scopes[ROOT].status.ActiveScope?
  }

  /** The slot index and the decision records agree with each other. */
  ghost predicate Slotted(c: Calculus) {
    SlotsSound(c) && SlotsComplete(c) && Registered(c)
    && c.models.Keys == c.scopes.Keys && RootRecord(c.scopes)
  }

  /** The indexes of a committed state agree with each other. */
  ghost predicate Indexed(c: Calculus) {
    Slotted(c) && Mirror(c)
  }

  /** Every parent of an ACTIVE decision is ACTIVE. */
  ghost predicate ParentsActive(c: Calculus) {
    forall d, p :: IsActive(c, d) && p in c.decisions[d].parents ==> IsActive(c, p)
  }

  /** A model without the given decisions. */
  function Without(model: map<Id, Id>, gone: set<Id>): map<Id, Id> {
    map x | x in model && model[x] !in gone :: model[x]
  }

  function ModelsWithout(models: map<Id, map<Id, Id>>, gone: set<Id>): map<Id, map<Id, Id>> {
    map s | s in models :: Without(models[s], gone)
  }

  /** `c'` keeps every field of a decision that its slot and its place in the graph depend on. */
  ghost predicate SameDecisions(c: Calculus, c': Calculus) {
    && c'.decisions.Keys == c.decisions.Keys
    && forall d :: d in c.decisions ==>
      && c'.decisions[d].scope == c.decisions[d].scope
      && c'.decisions[d].subject == c.decisions[d].subject
      && c'.decisions[d].value == c.decisions[d].value
      && c'.decisions[d].parents == c.decisions[d].parents
      && c'.decisions[d].pinned == c.decisions[d].pinned
      && c'.decisions[d].kind == c.decisions[d].kind
  }

  /** Exactly the given decisions stop being ACTIVE, and leave every model. */
  ghost predicate Retires(c: Calculus, c': Calculus, gone: set<Id>) {
    && SameDecisions(c, c')
    && (forall d :: d in c.decisions ==>
          (c'.decisions[d].status.Active? <==> c.decisions[d].status.Active? && d !in gone))
    && c'.models == ModelsWithout(c.models, gone)
    && c'.edges == c.edges && c'.scopes.Keys == c.scopes.Keys && RootRecord(c'.scopes)
  }

  /** Whatever is removed from every model and leaves ACTIVE together keeps the slots agreeing.
      Every step that retires decisions is an instance of this lemma. */
  lemma RetiringKeepsSlots(c: Calculus, c': Calculus, gone: set<Id>)
    requires Slotted(c) && Retires(c, c', gone)
    ensures Slotted(c')
  {
    assert SlotsSound(c') by {
      forall s, x | s in c'.models && x in c'.models[s]
        ensures var d := c'.models[s][x];
          IsActive(c', d) && c'.decisions[d].scope == s && c'.decisions[d].subject == x
      {
        assert s in c.models && x in c.models[s];
      }
    }
    assert SlotsComplete(c') by {
      forall d | IsActive(c', d)
        ensures Slot(c'.models, c'.decisions[d].scope, c'.decisions[d].subject) == Some(d)
      {
        assert IsActive(c, d) && d !in gone;
      }
    }
  }

  /** It keeps every parent ACTIVE exactly when no surviving decision has a retired parent. */
  lemma RetiringKeepsParents(c: Calculus, c': Calculus, gone: set<Id>)
    requires ParentsActive(c) && Retires(c, c', gone)
    ensures ParentsActive(c') <==>
      forall d :: IsActive(c, d) && d !in gone ==> c.decisions[d].parents !! gone
  {
    if ParentsActive(c') {
      forall d | IsActive(c, d) && d !in gone ensures c.decisions[d].parents !! gone {
        assert IsActive(c', d);
        assert forall p :: p in c.decisions[d].parents ==> IsActive(c', p);
      }
    }
    if forall d :: IsActive(c, d) && d !in gone ==> c.decisions[d].parents !! gone {
      forall d, p | IsActive(c', d) && p in c'.decisions[d].parents ensures IsActive(c', p) {
        assert IsActive(c, d) && IsActive(c, p);
      }
    }
  }

  /** The transition table read from its other side: from where each status may be reached. */
  lemma ReachedFrom(before: ObligationStatus, after: ObligationStatus)
    ensures Legal(before, after) <==>
      match after
      case Available => before in {Blocked, Locked, NeedsRevalidation}
      case Enabled => before in {Available, Blocked, NeedsRevalidation}
      case InProgress => before == Enabled
      case Verifying => before in {InProgress, NeedsRevalidation}
      case Verified => before == Verifying
      case Committed => before == Verified
      case Blocked => before in {Available, Enabled, InProgress, Verifying}
      case Locked => before in {Available, Enabled, Blocked}
      case NeedsRevalidation => before in {Enabled, InProgress, Verifying, Verified, Committed, Blocked}
      case Replaced => before !in {Refused, Replaced, Impossible}
      case Refused => before !in {Verified, Committed, Refused, Replaced, Impossible}
      case Impossible => before !in {Verified, Committed, Refused, Replaced, Impossible}
  {
  }
}
