/** Activating one decision (`_runtime_v31_activation.py`, `runtime_v21.py`). */
module Activation {
  import opened Foundations
  import opened CalculusModel
  import opened Scopes
  import opened Conditions
  import opened DecisionGraph
  import opened Locks
  import opened Fairness
  import opened Staging

  // ----- activating one decision -----

  /** Its parents are ACTIVE and its antecedents live, before anything is displaced. */
  predicate Activatable(c: Calculus, d: Id) {
    d in c.decisions
    && (c.decisions[d].status.Proposed? || c.decisions[d].status.Suspended?)
    && (forall p :: p in c.decisions[d].parents ==> IsActive(c, p))
    && AntecedentsLive(c, c.decisions[d])
  }

  function Local(c: Calculus, d: Id): Option<Id>
    requires d in c.decisions
  {
    Slot(c.models, c.decisions[d].scope, c.decisions[d].subject)
  }

  /** What an activation takes out of ACTIVE: the occupant and its ACTIVE dependents. */
  ghost function Ousted(c: Calculus, d: Id): (r: set<Id>)
    requires d in c.decisions
    ensures r <= c.decisions.Keys
  {
    match Local(c, d)
    case None => {}
    case Some(current) =>
      if current == d || current !in c.decisions then {}
      else {current} + ActiveAmong(MarkSuperseded(c, current, d), Descendants(MarkSuperseded(c, current, d), current))
  }

  /** What a commit stores: the root scope's model is copied from `active_model`. */
  function Normalised(c: Calculus): Calculus {
    c.(models := map s | s in c.scopes :: if s == ROOT then c.activeModel else LocalModel(c.models, s))
  }

  /** Root activation as the older runtime performs it: suspended dependents leave `active_model`
      only. */
  ghost function RootFreed(c: Calculus, d: Id): Calculus
    requires d in c.decisions
  {
    match Local(c, d)
    case None => c
    case Some(current) =>
      if current == d || current !in c.decisions then c
      else
        var freed := Displace(Pass(c, {}, {}), current, d).state;
        freed.(models := c.models, activeModel := Without(c.activeModel, Ousted(c, d) - {current}))
  }

  ghost function RootActivation(c: Calculus, d: Id, sequence: nat): Calculus
    requires d in c.decisions
  {
    TakeRootSlot(RootFreed(c, d), d, c.decisions[d].subject, sequence)
  }

  function TakeRootSlot(c: Calculus, d: Id, subject: Id, sequence: nat): Calculus
    requires d in c.decisions
  {
    c.(decisions := c.decisions[d := ActivateDecision(c.decisions[d], sequence)],
       activeModel := c.activeModel[subject := d])
  }

  lemma ActivateOneSound(c: Calculus, d: Id, sequence: nat)
    requires Slotted(c) && d in c.decisions && Cleared(c, d) && c.decisions[d].scope in c.scopes
    ensures Slotted(ActivateOne(c, d, sequence))
    ensures Activates(c, ActivateOne(c, d, sequence), {d}, sequence)
  {
    assert Activates(c, c, {}, sequence);
    ActivateStep(c, c, {}, d, {}, sequence);
    assert {} + {d} == {d};
    ActivationSound(c, ActivateOne(c, d, sequence), {d}, sequence);
  }

  /** The state in which `d` takes its slot. */
  ghost function Freed(c: Calculus, d: Id): Calculus
    requires d in c.decisions
  {
    match Local(c, d)
    case None => c
    case Some(current) =>
      if current == d || current !in c.decisions then c else Displace(Pass(c, {}, {}), current, d).state
  }

  lemma FreedSound(c: Calculus, d: Id)
    requires Slotted(c) && d in c.decisions
    ensures PassSound(c, Freed(c, d)) && Cleared(Freed(c, d), d)
    ensures forall e :: IsActive(Freed(c, d), e) <==> IsActive(c, e) && e !in Ousted(c, d)
    ensures Freed(c, d).models == ModelsWithout(c.models, Ousted(c, d))
  {
    var occupant := Local(c, d);
    if occupant.Some? && occupant.value != d {
      assert IsActive(c, occupant.value);
      DisplaceSound(Pass(c, {}, {}), occupant.value, d);
      OustedIsRetired(c, d);
    } else {
      assert ModelsWithout(c.models, {}) == c.models by {
        forall s | s in c.models ensures Without(c.models[s], {}) == c.models[s] {
        }
      }
    }
  }

  lemma OustedMember(c: Calculus, d: Id, e: Id)
    requires Slotted(c) && d in c.decisions && Local(c, d).Some? && Local(c, d).value != d
    requires IsActive(c, Local(c, d).value)
    ensures e in Ousted(c, d) <==> IsActive(c, e) && e in Displaced(Pass(c, {}, {}), Local(c, d).value, d)
  {
    var current := Local(c, d).value;
    var marked := MarkSuperseded(c, current, d);
    assert IsActive(marked, e) <==> IsActive(c, e) && e != current;
  }

  lemma OustedIsRetired(c: Calculus, d: Id)
    requires Slotted(c) && d in c.decisions && Local(c, d).Some? && Local(c, d).value != d
    ensures forall e :: IsActive(Freed(c, d), e) <==> IsActive(c, e) && e !in Ousted(c, d)
    ensures Freed(c, d).models == ModelsWithout(c.models, Ousted(c, d))
  {
    var current := Local(c, d).value;
    assert IsActive(c, current);
    var gone, ousted := Displaced(Pass(c, {}, {}), current, d), Ousted(c, d);
    DisplaceRetires(Pass(c, {}, {}), current, d);
    forall e ensures e in ousted <==> e in gone && IsActive(c, e) {
      OustedMember(c, d, e);
    }
    SamePurge(c, gone, ousted);
  }

  lemma SamePurge(c: Calculus, gone: set<Id>, ousted: set<Id>)
    requires SlotsSound(c) && forall e :: e in ousted <==> e in gone && IsActive(c, e)
    ensures ModelsWithout(c.models, gone) == ModelsWithout(c.models, ousted)
  {
    forall s | s in c.models ensures Without(c.models[s], gone) == Without(c.models[s], ousted) {
    }
  }

  lemma TakingSlotParents(c: Calculus, d: Id, sequence: nat)
    requires ParentsActive(c) && d in c.decisions
    ensures ParentsActive(ActivateOne(c, d, sequence)) <==>
      forall p :: p in c.decisions[d].parents ==> IsActive(c, p) || p == d
  {
    var c' := ActivateOne(c, d, sequence);
    assert forall e :: IsActive(c', e) <==> e == d || IsActive(c, e);
    assert forall e :: e in c.decisions ==> c'.decisions[e].parents == c.decisions[e].parents;
    if ParentsActive(c') {
      assert IsActive(c', d);
    }
  }

  /** Scoped activation checks parents before it displaces the occupant and does not look again:
      ACTIVE parents survive exactly when no parent of the new decision is itself ousted. */
  lemma ScopedActivationParents(c: Calculus, d: Id, sequence: nat)
    requires Slotted(c) && ParentsActive(c) && Activatable(c, d)
    ensures ParentsActive(ActivateOne(Freed(c, d), d, sequence)) <==> c.decisions[d].parents !! Ousted(c, d)
  {
    FreedSound(c, d);
    TakingSlotParents(Freed(c, d), d, sequence);
    assert forall p :: p in c.decisions[d].parents ==> IsActive(c, p) && p != d;
  }

  /** The slots agree after a scoped activation, whatever it ousts. */
  lemma ScopedActivationSlots(c: Calculus, d: Id, sequence: nat)
    requires Slotted(c) && Activatable(c, d) && c.decisions[d].scope in c.scopes
    ensures Slotted(ActivateOne(Freed(c, d), d, sequence))
  {
    FreedSound(c, d);
    ActivateOneSound(Freed(c, d), d, sequence);
  }

  /** Root activation leaves the models of child scopes alone. The commit accepts the slots of the
      new state exactly when every ousted decision belongs to the root scope. */
  lemma RootActivationCommits(c: Calculus, d: Id, sequence: nat)
    requires Indexed(c) && Activatable(c, d) && c.decisions[d].scope == ROOT
    ensures Indexed(Normalised(RootActivation(c, d, sequence))) <==>
      forall e :: e in Ousted(c, d) ==> c.decisions[e].scope == ROOT
  {
    if e :| e in Ousted(c, d) && c.decisions[e].scope != ROOT {
      LeftBehind(c, d, e, sequence);
    } else {
      RootActivationIndexed(c, d, sequence);
    }
  }

  lemma RootActivationIndexed(c: Calculus, d: Id, sequence: nat)
    requires Indexed(c) && Activatable(c, d) && c.decisions[d].scope == ROOT
    requires forall e :: e in Ousted(c, d) ==> c.decisions[e].scope == ROOT
    ensures Indexed(Normalised(RootActivation(c, d, sequence)))
  {
    ScopedActivationSlots(c, d, sequence);
    RootMatchesScoped(c, d, sequence);
    SynchronisedSound(ActivateOne(Freed(c, d), d, sequence));
  }

  lemma LeftBehind(c: Calculus, d: Id, e: Id, sequence: nat)
    requires Indexed(c) && Activatable(c, d) && c.decisions[d].scope == ROOT
    requires e in Ousted(c, d) && c.decisions[e].scope != ROOT
    ensures !SlotsSound(Normalised(RootActivation(c, d, sequence)))
  {
    hide Freed, RootFreed, Ousted, Indexed, SlotsSound;
    var c' := Normalised(RootActivation(c, d, sequence));
    var s, x := c.decisions[e].scope, c.decisions[e].subject;
    assert Slotted(c) && d in c.decisions by { IndexedParts(c); }
    FreedSound(c, d);
    OustedWasActive(c, d, e);
    ActiveHasSlot(c, e);
    RootFreedDecisions(c, d);
    StaleEntry(c', s, x, e);
  }

  lemma IndexedParts(c: Calculus)
    requires Indexed(c)
    ensures Slotted(c) && Mirror(c)
  {
  }

  lemma ActiveHasSlot(c: Calculus, e: Id)
    requires Indexed(c) && IsActive(c, e)
    ensures c.decisions[e].scope in c.scopes && Slot(c.models, c.decisions[e].scope, c.decisions[e].subject) == Some(e)
  {
  }

  /** An entry whose decision is not ACTIVE spoils the slots. */
  lemma StaleEntry(c: Calculus, s: Id, x: Id, e: Id)
    requires Slot(c.models, s, x) == Some(e) && !IsActive(c, e)
    ensures !SlotsSound(c)
  {
  }

  lemma RootMatchesScoped(c: Calculus, d: Id, sequence: nat)
    requires Indexed(c) && Activatable(c, d) && c.decisions[d].scope == ROOT
    requires forall e :: e in Ousted(c, d) ==> c.decisions[e].scope == ROOT
    ensures d in Freed(c, d).decisions
    ensures Normalised(RootActivation(c, d, sequence)) == Synchronised(ActivateOne(Freed(c, d), d, sequence))
  {
    FreedAgrees(c, d);
    SameNormalForm(c, RootFreed(c, d), Freed(c, d), d, c.decisions[d].subject, sequence);
  }

  /** `root` and `freed` differ in the root model alone, and there not beyond the subject `x`. */
  ghost predicate AgreeButRoot(c: Calculus, root: Calculus, freed: Calculus, d: Id, x: Id) {
    && ROOT in c.models && c.models.Keys == c.scopes.Keys
    && d in freed.decisions && freed.decisions[d].scope == ROOT && freed.decisions[d].subject == x
    && root == freed.(activeModel := root.activeModel, models := c.models) && freed.scopes == c.scopes
    && freed.models.Keys == c.models.Keys
    && (forall s :: s in c.models && s != ROOT ==> freed.models[s] == c.models[s])
    && freed.models[ROOT][x := d] == root.activeModel[x := d]
  }

  lemma FreedAgrees(c: Calculus, d: Id)
    requires Indexed(c) && Activatable(c, d) && c.decisions[d].scope == ROOT
    requires forall e :: e in Ousted(c, d) ==> c.decisions[e].scope == ROOT
    ensures AgreeButRoot(c, RootFreed(c, d), Freed(c, d), d, c.decisions[d].subject)
  {
    RootFreedMatches(c, d);
    RootModelMatches(c, d);
    FreedModels(c, d);
  }

  lemma SameNormalForm(c: Calculus, root: Calculus, freed: Calculus, d: Id, x: Id, sequence: nat)
    requires AgreeButRoot(c, root, freed, d, x)
    ensures Normalised(TakeRootSlot(root, d, x, sequence)) == Synchronised(ActivateOne(freed, d, sequence))
  {
    var acted := TakeRootSlot(root, d, x, sequence);
    assert Normalised(acted).models == ActivateOne(freed, d, sequence).models;
  }

  lemma FreedModels(c: Calculus, d: Id)
    requires Indexed(c) && d in c.decisions
    requires forall e :: e in Ousted(c, d) ==> c.decisions[e].scope == ROOT
    ensures Freed(c, d).models.Keys == c.models.Keys
    ensures forall s :: s in c.models && s != ROOT ==> Freed(c, d).models[s] == c.models[s]
    ensures Freed(c, d).models[ROOT] == Without(c.models[ROOT], Ousted(c, d))
  {
    hide Freed, Ousted, Registered, SlotsComplete;
    FreedSound(c, d);
  }

  lemma RootFreedMatches(c: Calculus, d: Id)
    requires Indexed(c) && Activatable(c, d)
    ensures RootFreed(c, d) == Freed(c, d).(activeModel := RootFreed(c, d).activeModel, models := c.models)
    ensures d in Freed(c, d).decisions && Freed(c, d).decisions[d] == c.decisions[d] && Freed(c, d).scopes == c.scopes
  {
    var occupant := Local(c, d);
    if occupant.Some? && occupant.value != d {
      assert IsActive(c, occupant.value);
      DisplacedDecision(Pass(c, {}, {}), occupant.value, d, d);
    }
  }

  lemma RootModelMatches(c: Calculus, d: Id)
    requires Indexed(c) && d in c.decisions && c.decisions[d].scope == ROOT
    ensures var x := c.decisions[d].subject;
      RootFreed(c, d).activeModel[x := d] == Without(c.models[ROOT], Ousted(c, d))[x := d]
  {
    var occupant := Local(c, d);
    if occupant.Some? && occupant.value != d {
      assert IsActive(c, occupant.value);
    } else {
      assert Without(c.models[ROOT], {}) == c.models[ROOT];
    }
  }

  // ----- the whole step -----

  /** What is checked before anything is displaced: an occupant only yields when it is named. */
  predicate MayActivate(c: Calculus, d: Id, supersede: Option<Id>) {
    && Activatable(c, d)
    && c.decisions[d].scope in c.scopes && c.scopes[c.decisions[d].scope].status.ActiveScope?
    && match Local(c, d)
       case None => c.decisions[d].scope == ROOT || !OverrideRefused(c, d)
       case Some(current) =>
         current == d || (supersede == Some(current) && current in c.decisions && !c.decisions[current].pinned)
  }

  /** The candidate model, before it is checked. */
  ghost function Candidate(c: Calculus, d: Id, sequence: nat): Calculus
    requires d in c.decisions
  {
    if c.decisions[d].scope == ROOT then RootActivation(c, d, sequence) else ActivateOne(Freed(c, d), d, sequence)
  }

  /** The root scope checks every no-good in its own scope; another scope checks those it inherits. */
  predicate RespectsKnowledge(c: Calculus, scope: Id) {
    forall k :: k in c.constraints ==>
      if scope == ROOT then !ConstraintViolated(c.constraints[k], EffectiveValues(c, c.constraints[k].scope))
      else !ViolatedBelow(c, c.constraints[k], scope)
  }

  ghost predicate ActivationAccepted(c: Calculus, act: Calculus, scope: Id) {
    && RespectsKnowledge(act, scope)
    && (Reported(c, Overdue) != {} && act.policy.enforcement.BlockPlanning? ==>
          ExposesOverdue(act, EffectiveValues(act, scope), EffectiveValues(Audited(c), scope)))
  }

  /** `activate_decision` hands `next` to the commit. */
  ghost predicate ActivatesDecision(c: Calculus, d: Id, supersede: Option<Id>, sequence: nat, next: Calculus) {
    && MayActivate(Audited(c), d, supersede)
    && ActivationAccepted(c, Candidate(Audited(c), d, sequence), c.decisions[d].scope)
    && next == Settled(NextEpoch(Candidate(Audited(c), d, sequence)))
  }

  lemma FreedFrame(c: Calculus, d: Id)
    requires Indexed(c) && d in c.decisions
    ensures var freed := Freed(c, d);
      && SameDecisions(c, freed) && freed == c.(decisions := freed.decisions, models := freed.models)
  {
    hide Freed, Ousted, SlotsSound, SlotsComplete, Registered;
    FreedSound(c, d);
  }

  lemma TakingSlotFrame(c: Calculus, freed: Calculus, d: Id, sequence: nat)
    requires SameDecisions(c, freed) && d in freed.decisions
    ensures SameDecisions(c, ActivateOne(freed, d, sequence))
    ensures ActivateOne(freed, d, sequence) ==
      freed.(decisions := ActivateOne(freed, d, sequence).decisions, models := ActivateOne(freed, d, sequence).models)
  {
  }

  /** An activation touches decisions and models only, and no decision's identity. */
  lemma CandidateFrame(c: Calculus, d: Id, sequence: nat)
    requires Indexed(c) && d in c.decisions
    ensures var act := Candidate(c, d, sequence);
      && act == c.(decisions := act.decisions, models := act.models, activeModel := act.activeModel)
      && SameDecisions(c, act)
      && d in Freed(c, d).decisions && act.decisions == ActivateOne(Freed(c, d), d, sequence).decisions
  {
    hide Freed, RootFreed, Ousted, Indexed, SameDecisions;
    FreedFrame(c, d);
    var freed := Freed(c, d);
    assert d in freed.decisions by { KeysKept(c, freed); }
    TakingSlotFrame(c, freed, d, sequence);
    if c.decisions[d].scope == ROOT {
      RootFreedDecisions(c, d);
      assert Candidate(c, d, sequence).decisions == ActivateOne(freed, d, sequence).decisions;
      SameByDecisions(c, ActivateOne(freed, d, sequence), Candidate(c, d, sequence));
    }
  }

  lemma KeysKept(c: Calculus, c': Calculus)
    requires SameDecisions(c, c')
    ensures c'.decisions.Keys == c.decisions.Keys
  {
  }

  lemma RootFreedDecisions(c: Calculus, d: Id)
    requires Indexed(c) && d in c.decisions
    ensures RootFreed(c, d).decisions == Freed(c, d).decisions
    ensures RootFreed(c, d) ==
      c.(decisions := RootFreed(c, d).decisions, activeModel := RootFreed(c, d).activeModel)
  {
    var occupant := Local(c, d);
    if occupant.Some? && occupant.value != d {
      assert IsActive(c, occupant.value);
    }
  }

  /** A scoped activation leaves `active_model` alone. The commit accepts its slots exactly when
      nothing it ousts belongs to the root scope. */
  lemma ScopedActivationCommits(c: Calculus, d: Id, sequence: nat)
    requires Indexed(c) && Activatable(c, d) && c.decisions[d].scope in c.scopes && c.decisions[d].scope != ROOT
    ensures Indexed(Normalised(Candidate(c, d, sequence))) <==>
      forall e :: e in Ousted(c, d) ==> c.decisions[e].scope != ROOT
  {
    hide Freed, Ousted, SlotsSound, SlotsComplete, Registered, AntecedentsLive;
    ScopedActivationSlots(c, d, sequence);
    if e :| e in Ousted(c, d) && c.decisions[e].scope == ROOT {
      StaysInRoot(c, d, e, sequence);
    } else {
      RootModelUntouched(c, d);
      MirroredIsNormal(Candidate(c, d, sequence));
    }
  }

  lemma MirroredIsNormal(c: Calculus)
    requires c.models.Keys == c.scopes.Keys && Mirror(c)
    ensures Normalised(c) == c
  {
    assert Normalised(c).models == c.models;
  }

  lemma RootModelUntouched(c: Calculus, d: Id)
    requires Indexed(c) && d in c.decisions && forall e :: e in Ousted(c, d) ==> c.decisions[e].scope != ROOT
    ensures Freed(c, d).models.Keys == c.models.Keys && Freed(c, d).models[ROOT] == c.models[ROOT]
    ensures Freed(c, d) == c.(decisions := Freed(c, d).decisions, models := Freed(c, d).models)
    ensures d in Freed(c, d).decisions && Freed(c, d).decisions[d].scope == c.decisions[d].scope
  {
    hide Freed, Ousted;
    FreedSound(c, d);
    assert Without(c.models[ROOT], Ousted(c, d)) == c.models[ROOT] by {
      forall x | x in c.models[ROOT] ensures c.models[ROOT][x] !in Ousted(c, d) {
        assert c.decisions[c.models[ROOT][x]].scope == ROOT;
      }
    }
  }

  lemma StaysInRoot(c: Calculus, d: Id, e: Id, sequence: nat)
    requires Indexed(c) && Activatable(c, d) && c.decisions[d].scope in c.scopes && c.decisions[d].scope != ROOT
    requires e in Ousted(c, d) && c.decisions[e].scope == ROOT
    ensures !SlotsSound(Normalised(Candidate(c, d, sequence)))
  {
    hide Freed, Ousted, Indexed, SlotsSound, SlotsComplete, Registered;
    assert Slotted(c) && Mirror(c) by { IndexedParts(c); }
    FreedSound(c, d);
    FreedFrame(c, d);
    OustedWasActive(c, d, e);
    ActiveHasSlot(c, e);
    StaleEntry(Normalised(Candidate(c, d, sequence)), ROOT, c.decisions[e].subject, e);
  }

  lemma OustedWasActive(c: Calculus, d: Id, e: Id)
    requires Indexed(c) && d in c.decisions && e in Ousted(c, d)
    ensures IsActive(c, e)
  {
    var current := Local(c, d).value;
    assert IsActive(c, current);
  }

  // ----- the activation method -----

  lemma OustedIsSuspended(c: Calculus, d: Id, current: Id)
    requires d in c.decisions && Local(c, d) == Some(current) && current != d && current in c.decisions
    ensures Ousted(c, d) - {current} == Displace(Pass(c, {}, {}), current, d).suspended
  {
    var marked := MarkSuperseded(c, current, d);
    assert !IsActive(marked, current);
  }

  /** Displaces the occupant and takes the slot. */
  method BuildCandidate(c: Calculus, d: Id, sequence: nat) returns (act: Calculus)
    requires Indexed(c) && d in c.decisions
    ensures act == Candidate(c, d, sequence)
  {
    hide Displace, SlotsSound, SlotsComplete, Registered;
    var scope, subject := c.decisions[d].scope, c.decisions[d].subject;
    var freed := c;
    FreedFrame(c, d);
    match Local(c, d) {
      case None =>
      case Some(current) =>
        if current != d && current in c.decisions {
          var p := DisplaceCurrent(Pass(c, {}, {}), current, d);
          freed := p.state;
          if scope == ROOT {
            OustedIsSuspended(c, d, current);
            RootFreedDecisions(c, d);
            freed := freed.(models := c.models, activeModel := Without(c.activeModel, p.suspended));
          }
        }
    }
    act := if scope == ROOT then TakeRootSlot(freed, d, subject, sequence) else ActivateOne(freed, d, sequence);
  }

  method CheckActivation(c: Calculus, act: Calculus, scope: Id, overdue: set<Id>) returns (ok: bool)
    requires overdue == Reported(c, Overdue)
    ensures ok == ActivationAccepted(c, act, scope)
  {
    if !RespectsKnowledge(act, scope) {
      return false;
    }
    if overdue == {} || !act.policy.enforcement.BlockPlanning? {
      return true;
    }
    AuditedProjection(c, scope);
    ok := CandidateExposesOverdue(act, EffectiveValues(act, scope), EffectiveValues(c, scope));
  }

  lemma AuditedProjection(c: Calculus, scope: Id)
    ensures EffectiveValues(Audited(c), scope) == EffectiveValues(c, scope)
  {
    EffectiveFrame(c, Audited(c), scope);
  }

  /** `activate_decision`, up to the commit. */
  method StageActivation(c: Calculus, d: Id, supersede: Option<Id>, sequence: nat) returns (r: Result<Calculus>)
    requires Indexed(c)
    ensures r.Ok? ==> ActivatesDecision(c, d, supersede, sequence, r.value)
    ensures r.Err? ==> forall next :: !ActivatesDecision(c, d, supersede, sequence, next)
  {
    hide Audited, Candidate, Settled, ActivationAccepted, SlotsSound, SlotsComplete, Registered, Activatable;
    var audited, due, overdue := AuditFairness(c);
    AuditKeepsIndexes(c);
    if !MayActivate(audited, d, supersede) {
      return Err(ValueError("decision cannot activate"));
    }
    assert d in audited.decisions by { ActivatableKnown(audited, d); }
    var act := BuildCandidate(audited, d, sequence);
    var accepted := CheckActivation(c, act, c.decisions[d].scope, overdue);
    if !accepted {
      return Err(ValueError("candidate model refused"));
    }
    var next, broken, dueAfter, late := Settle(NextEpoch(act));
    return Ok(next);
  }

  lemma AuditKeepsIndexes(c: Calculus)
    requires Indexed(c)
    ensures Indexed(Audited(c)) && Audited(c).decisions == c.decisions
  {
    SameIndexes(c, Audited(c));
  }

  lemma ActivatableKnown(c: Calculus, d: Id)
    requires Activatable(c, d)
    ensures d in c.decisions
  {
  }

  // ----- committing the activation -----

  lemma {:induction false} NormalisedOverlay(c: Calculus, chain: seq<Id>)
    ensures Overlay(Normalised(c), chain) == Overlay(c, chain)
  {
    if chain != [] {
      NormalisedOverlay(c, chain[..|chain| - 1]);
    }
  }

  /** Normalisation moves no effective value. */
  lemma NormalisedProjection(c: Calculus, scope: Id)
    ensures EffectiveValues(Normalised(c), scope) == EffectiveValues(c, scope)
  {
    NormalisedOverlay(c, InheritanceChain(c.scopes, scope));
  }

  lemma NormalisedLocks(c: Calculus)
    requires LocksSound(c)
    ensures LocksSound(Normalised(c))
  {
    forall k | k in c.locks && c.locks[k].status.LockActive? ensures LockConditionHolds(Normalised(c), c.locks[k]) {
      NormalisedProjection(c, c.locks[k].scope);
    }
  }

  /** A commit stores one model for each scope: for the root `active_model`, for any other what was there. */
  lemma NormalisedExactly(c: Calculus, s: Id)
    ensures Normalised(c) == c.(models := Normalised(c).models) && Normalised(c).models.Keys == c.scopes.Keys
    ensures s in c.scopes ==>
      Normalised(c).models[s] == if s == ROOT then c.activeModel else if s in c.models then c.models[s] else map[]
  {
  }
}
