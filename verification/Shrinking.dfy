/** What happens to conditions and no-goods when decisions are taken out of the models: by a restart, a
    backjump or a truth plan (`_calculus_logic.py`, `_runtime_v31_recovery.py`). */
module Shrinking {
  import opened Foundations
  import opened CalculusModel
  import opened Scopes
  import opened Conditions

  /** `c'` is `c` with the entries of `hidden` taken out of every layer; nothing else that effective
      values depend on has changed. */
  ghost predicate Withdraws(c: Calculus, c': Calculus, hidden: set<Id>) {
    && (forall s :: InheritanceChain(c'.scopes, s) == InheritanceChain(c.scopes, s))
    && (forall s :: Layer(c', s) == Without(Layer(c, s), hidden))
    && (forall d :: d in c.decisions ==> d in c'.decisions && c'.decisions[d].value == c.decisions[d].value)
    && (forall d :: d !in hidden ==> IsActive(c', d) == IsActive(c, d))
  }

  /** Retiring decisions, with the scopes as they were, withdraws them. */
  lemma RetiringWithdraws(c: Calculus, c': Calculus, gone: set<Id>)
    requires Indexed(c) && Mirror(c') && Retires(c, c', gone) && c'.scopes == c.scopes
    ensures Withdraws(c, c', gone)
  {
    hide SlotsSound, SlotsComplete, Registered;
    forall s ensures Layer(c', s) == Without(Layer(c, s), gone) {
    }
  }

  /** The overlay of what is left of each layer. */
  function Survivors(c: Calculus, hidden: set<Id>, chain: seq<Id>): map<Id, Id> {
    if chain == [] then NO_MODEL
    else Survivors(c, hidden, chain[..|chain| - 1]) + Without(Layer(c, chain[|chain| - 1]), hidden)
  }

  function SurvivorsIn(c: Calculus, hidden: set<Id>, scope: Id): map<Id, Id> {
    Survivors(c, hidden, InheritanceChain(c.scopes, scope))
  }

  lemma {:induction false} WithdrawnOverlay(c: Calculus, c': Calculus, hidden: set<Id>, chain: seq<Id>)
    requires Withdraws(c, c', hidden)
    ensures Overlay(c', chain) == Survivors(c, hidden, chain)
  {
    if chain != [] {
      WithdrawnOverlay(c, c', hidden, chain[..|chain| - 1]);
    }
  }

  lemma WithdrawnDecisions(c: Calculus, c': Calculus, hidden: set<Id>, scope: Id)
    requires Withdraws(c, c', hidden)
    ensures EffectiveDecisions(c', scope) == SurvivorsIn(c, hidden, scope)
  {
    WithdrawnOverlay(c, c', hidden, InheritanceChain(c.scopes, scope));
  }

  /** A survivor was effective before, unless what was effective is hidden; and whatever is effective
      and not hidden survives. */
  lemma {:induction false} SurvivorsMember(c: Calculus, hidden: set<Id>, chain: seq<Id>, x: Id)
    ensures x in Survivors(c, hidden, chain) ==> x in Overlay(c, chain) && Survivors(c, hidden, chain)[x] !in hidden
    ensures x in Overlay(c, chain) && Overlay(c, chain)[x] !in hidden ==>
      x in Survivors(c, hidden, chain) && Survivors(c, hidden, chain)[x] == Overlay(c, chain)[x]
  {
    if chain != [] {
      SurvivorsMember(c, hidden, chain[..|chain| - 1], x);
    }
  }

  lemma {:induction false} SurvivorSource(c: Calculus, hidden: set<Id>, chain: seq<Id>, x: Id) returns (s: Id)
    requires x in Survivors(c, hidden, chain)
    ensures s in chain && x in Layer(c, s) && Layer(c, s)[x] == Survivors(c, hidden, chain)[x]
  {
    var last := chain[|chain| - 1];
    if x in Without(Layer(c, last), hidden) {
      s := last;
    } else {
      s := SurvivorSource(c, hidden, chain[..|chain| - 1], x);
    }
  }

  lemma SurvivorActive(c: Calculus, hidden: set<Id>, scope: Id, x: Id)
    requires Indexed(c) && x in SurvivorsIn(c, hidden, scope)
    ensures IsActive(c, SurvivorsIn(c, hidden, scope)[x])
  {
    var s := SurvivorSource(c, hidden, InheritanceChain(c.scopes, scope), x);
    assert s in c.models && c.models[s] == Layer(c, s);
  }

  // ----- uncovering what was overridden -----

  /** Hiding uncovers another value: the effective entry of `x` in the scope is hidden, and an entry
      with a different value that it overrode survives. */
  predicate Bares(c: Calculus, hidden: set<Id>, scope: Id, x: Id) {
    var left, values := SurvivorsIn(c, hidden, scope), EffectiveValues(c, scope);
    x in left && x in values && left[x] in c.decisions && c.decisions[left[x]].value != values[x]
  }

  lemma EffectiveDecisionsAreActive(c: Calculus, scope: Id, x: Id, hidden: set<Id>)
    requires Indexed(c) && x in SurvivorsIn(c, hidden, scope)
    ensures IsActive(c, SurvivorsIn(c, hidden, scope)[x]) && x in EffectiveValues(c, scope)
  {
    SurvivorActive(c, hidden, scope, x);
    SurvivorsMember(c, hidden, InheritanceChain(c.scopes, scope), x);
    EffectiveDecisionsActive(c, scope, x);
  }

  ghost predicate NothingBared(c: Calculus, hidden: set<Id>) {
    forall s, x :: !Bares(c, hidden, s, x)
  }

  /** Bared entries are overrides: what was effective is hidden. */
  lemma BaredWasOverridden(c: Calculus, hidden: set<Id>, scope: Id, x: Id)
    requires Indexed(c) && Bares(c, hidden, scope, x)
    ensures x in EffectiveDecisions(c, scope) && EffectiveDecisions(c, scope)[x] in hidden
  {
    SurvivorsMember(c, hidden, InheritanceChain(c.scopes, scope), x);
    EffectiveDecisionsActive(c, scope, x);
  }

  /** The root overrides nothing, so nothing can be bared there. */
  lemma RootNeverBares(c: Calculus, hidden: set<Id>, x: Id)
    requires Indexed(c)
    ensures !Bares(c, hidden, ROOT, x)
  {
    if Bares(c, hidden, ROOT, x) {
      BaredWasOverridden(c, hidden, ROOT, x);
      RootSurvivors(c, hidden);
    }
  }

  lemma RootSurvivors(c: Calculus, hidden: set<Id>)
    requires RootRecord(c.scopes)
    ensures SurvivorsIn(c, hidden, ROOT) == Without(c.activeModel, hidden)
    ensures EffectiveDecisions(c, ROOT) == c.activeModel
  {
    hide InheritanceChain, Overlay, EffectiveDecisions;
    RootChain(c);
    assert [ROOT][..0] == [];
    assert Survivors(c, hidden, [ROOT]) == Survivors(c, hidden, []) + Without(Layer(c, ROOT), hidden);
  }

  /** One subject after the withdrawal: it had a value before, and keeps it unless it is bared. */
  lemma SubjectAfter(c: Calculus, c': Calculus, hidden: set<Id>, scope: Id, x: Id)
    requires Indexed(c) && Withdraws(c, c', hidden)
    ensures Bares(c, hidden, scope, x) ==> x in EffectiveValues(c', scope)
    ensures x in EffectiveValues(c', scope) ==>
      && x in EffectiveValues(c, scope)
      && (EffectiveValues(c', scope)[x] == EffectiveValues(c, scope)[x] <==> !Bares(c, hidden, scope, x))
  {
    hide Indexed, Withdraws, EffectiveValues, SurvivorsIn;
    if x in SurvivorsIn(c, hidden, scope) {
      ValueAfter(c, c', hidden, scope, x);
      EffectiveDecisionsAreActive(c, scope, x, hidden);
    } else {
      GoneAfter(c, c', hidden, scope, x);
    }
  }

  lemma GoneAfter(c: Calculus, c': Calculus, hidden: set<Id>, scope: Id, x: Id)
    requires Withdraws(c, c', hidden) && x !in SurvivorsIn(c, hidden, scope)
    ensures x !in EffectiveValues(c', scope)
  {
    WithdrawnDecisions(c, c', hidden, scope);
  }

  /** A scope's valuation only shrinks exactly when nothing is bared in it. */
  lemma ShrinksExactly(c: Calculus, c': Calculus, hidden: set<Id>, scope: Id)
    requires Indexed(c) && Withdraws(c, c', hidden)
    ensures Extends(EffectiveValues(c, scope), EffectiveValues(c', scope)) <==> forall x :: !Bares(c, hidden, scope, x)
  {
    hide Indexed, Withdraws, EffectiveValues, Bares;
    forall x
      ensures Bares(c, hidden, scope, x) ==> x in EffectiveValues(c', scope)
      ensures x in EffectiveValues(c', scope) ==>
        && x in EffectiveValues(c, scope)
        && (EffectiveValues(c', scope)[x] == EffectiveValues(c, scope)[x] <==> !Bares(c, hidden, scope, x))
    {
      SubjectAfter(c, c', hidden, scope, x);
    }
  }

  lemma ValueAfter(c: Calculus, c': Calculus, hidden: set<Id>, scope: Id, x: Id)
    requires Indexed(c) && Withdraws(c, c', hidden) && x in SurvivorsIn(c, hidden, scope)
    ensures IsActive(c, SurvivorsIn(c, hidden, scope)[x])
    ensures x in EffectiveValues(c', scope)
    ensures EffectiveValues(c', scope)[x] == c.decisions[SurvivorsIn(c, hidden, scope)[x]].value
  {
    WithdrawnDecisions(c, c', hidden, scope);
    SurvivorActive(c, hidden, scope, x);
    SurvivorsMember(c, hidden, InheritanceChain(c.scopes, scope), x);
  }

  // ----- explained literals under shrinking -----

  /** The literal names the decision that is effective for its subject in the scope. */
  ghost predicate Effective(c: Calculus, scope: Id, l: Literal) {
    && l.op.EQ? && l.decision.Some?
    && l.subject in EffectiveDecisions(c, scope) && EffectiveDecisions(c, scope)[l.subject] == l.decision.value
    && l.decision.value in c.decisions && c.decisions[l.decision.value].value == l.value
  }

  /** What is left still gives the subject the explained value. */
  predicate Reinstated(c: Calculus, hidden: set<Id>, scope: Id, l: Literal) {
    var left := SurvivorsIn(c, hidden, scope);
    l.subject in left && left[l.subject] in c.decisions && c.decisions[left[l.subject]].value == l.value
  }

  /** After the withdrawal the literal holds exactly when it is reinstated. A literal whose decision
      is not hidden always is; at the root, no other is. */
  lemma LiteralAfter(c: Calculus, c': Calculus, hidden: set<Id>, scope: Id, l: Literal)
    requires Indexed(c) && Withdraws(c, c', hidden) && Effective(c, scope, l)
    ensures LiteralHolds(l, EffectiveValues(c', scope)) <==> Reinstated(c, hidden, scope, l)
    ensures l.decision.value !in hidden ==> Reinstated(c, hidden, scope, l)
    ensures scope == ROOT ==> (Reinstated(c, hidden, scope, l) <==> l.decision.value !in hidden)
  {
    hide Indexed, Withdraws, EffectiveValues, EffectiveDecisions, SurvivorsIn;
    var x := l.subject;
    if x in SurvivorsIn(c, hidden, scope) {
      ValueAfter(c, c', hidden, scope, x);
    } else {
      GoneAfter(c, c', hidden, scope, x);
    }
    KeptEffective(c, hidden, scope, x);
    if scope == ROOT {
      assert RootRecord(c.scopes) by { IndexedRoot(c); }
      RootSurvivors(c, hidden);
    }
  }

  lemma KeptEffective(c: Calculus, hidden: set<Id>, scope: Id, x: Id)
    requires x in EffectiveDecisions(c, scope)
    ensures EffectiveDecisions(c, scope)[x] !in hidden ==>
      x in SurvivorsIn(c, hidden, scope) && SurvivorsIn(c, hidden, scope)[x] == EffectiveDecisions(c, scope)[x]
  {
    SurvivorsMember(c, hidden, InheritanceChain(c.scopes, scope), x);
  }

  lemma IndexedRoot(c: Calculus)
    requires Indexed(c)
    ensures RootRecord(c.scopes)
  {
  }

  // ----- no-goods under shrinking -----

  /** Withdrawing decisions creates no hard violation when guards are free of `not` and nothing is
      bared in a scope that has knowledge. */
  lemma ShrinkingIsSafe(c: Calculus, c': Calculus, hidden: set<Id>)
    requires Indexed(c) && Withdraws(c, c', hidden)
    requires c'.constraints == c.constraints && NegationFreeGuards(c)
    requires forall k, x :: k in c.constraints ==> !Bares(c, hidden, c.constraints[k].scope, x)
    ensures Violated(c') <= Violated(c)
  {
    forall k | k in Violated(c') ensures k in Violated(c) {
      var scope := c.constraints[k].scope;
      ShrinksExactly(c, c', hidden, scope);
      ViolationMonotone(c.constraints[k], EffectiveValues(c', scope), EffectiveValues(c, scope));
    }
  }

  ghost predicate GuardsFree(knowledge: map<Id, Constraint>) {
    forall k :: k in knowledge ==> NegationFree(knowledge[k].guard)
  }

  ghost predicate SafeFor(c: Calculus, c': Calculus, knowledge: map<Id, Constraint>) {
    GuardsFree(knowledge) && Violated(c.(constraints := knowledge)) == {} ==>
      Violated(c'.(constraints := knowledge)) == {}
  }

  lemma KnowledgeAside(c: Calculus, knowledge: map<Id, Constraint>, scope: Id)
    ensures EffectiveValues(c.(constraints := knowledge), scope) == EffectiveValues(c, scope)
  {
    EffectiveFrame(c, c.(constraints := knowledge), scope);
  }

  /** Exactly: a withdrawal leaves every clean negation-free knowledge base clean if and only if it
      bares nothing in any scope. */
  lemma ShrinkingSafeExactly(c: Calculus, c': Calculus, hidden: set<Id>)
    requires Indexed(c) && Withdraws(c, c', hidden)
    ensures (forall knowledge :: SafeFor(c, c', knowledge)) <==> NothingBared(c, hidden)
  {
    if NothingBared(c, hidden) {
      forall knowledge ensures SafeFor(c, c', knowledge) {
        SafeWhenNothingBared(c, c', hidden, knowledge);
      }
    }
    if s, x :| Bares(c, hidden, s, x) {
      UnsafeWhenBared(c, c', hidden, s, x);
    }
  }

  lemma SafeWhenNothingBared(c: Calculus, c': Calculus, hidden: set<Id>, knowledge: map<Id, Constraint>)
    requires Indexed(c) && Withdraws(c, c', hidden) && NothingBared(c, hidden)
    ensures SafeFor(c, c', knowledge)
  {
    forall s ensures EffectiveValues(c.(constraints := knowledge), s) == EffectiveValues(c, s)
      && EffectiveValues(c'.(constraints := knowledge), s) == EffectiveValues(c', s)
    {
      KnowledgeAside(c, knowledge, s);
      KnowledgeAside(c', knowledge, s);
    }
    if GuardsFree(knowledge) {
      forall k | k in knowledge && ConstraintViolated(knowledge[k], EffectiveValues(c', knowledge[k].scope))
        ensures ConstraintViolated(knowledge[k], EffectiveValues(c, knowledge[k].scope))
      {
        ShrinksExactly(c, c', hidden, knowledge[k].scope);
        ViolationMonotone(knowledge[k], EffectiveValues(c', knowledge[k].scope), EffectiveValues(c, knowledge[k].scope));
      }
      if k :| k in Violated(c'.(constraints := knowledge)) {
        assert k in Violated(c.(constraints := knowledge));
      }
    }
  }

  /** The no-good that forbids one value in one scope. */
  function Forbids(scope: Id, x: Id, value: Value): Constraint {
    Constraint({Literal(x, EQ, value, None)}, Const(true), Hard, ActiveConstraint, ByValidation, "", "", {}, scope, 0, None)
  }

  lemma UnsafeWhenBared(c: Calculus, c': Calculus, hidden: set<Id>, s: Id, x: Id)
    requires Indexed(c) && Withdraws(c, c', hidden) && Bares(c, hidden, s, x)
    ensures exists knowledge :: !SafeFor(c, c', knowledge)
  {
    hide Indexed, Withdraws, EffectiveValues, SurvivorsIn;
    ValueAfter(c, c', hidden, s, x);
    var value := EffectiveValues(c', s)[x];
    var k := Forbids(s, x, value);
    var knowledge := map["n" := k];
    KnowledgeAside(c, knowledge, s);
    KnowledgeAside(c', knowledge, s);
    ForbiddenExactly(s, x, value, EffectiveValues(c, s));
    ForbiddenExactly(s, x, value, EffectiveValues(c', s));
    assert Violated(c.(constraints := knowledge)) == {};
    assert "n" in Violated(c'.(constraints := knowledge));
    assert !SafeFor(c, c', knowledge);
  }

  lemma ForbiddenExactly(s: Id, x: Id, value: Value, v: Values)
    ensures ConstraintViolated(Forbids(s, x, value), v) <==> x in v && v[x] == value
  {
    assert Literal(x, EQ, value, None) in Forbids(s, x, value).body;
  }
}
