/** Small states that show where a guarantee of the calculus ends. Each goes with the exact condition
    proved in the module it names. Unless said otherwise the state is one the engine commits, and so is
    the state it leads to. */
module Witnesses {
  import opened Foundations
  import opened CalculusModel
  import opened Reachability
  import opened Scopes
  import opened Conditions
  import opened Shrinking
  import opened Knowledge
  import opened DecisionGraph
  import opened Backjump
  import opened Locks
  import opened Fairness
  import opened Staging
  import opened PassOrder
  import opened Restart
  import opened ScopeImpact
  import opened Recovery
  import opened Activation
  import opened Commits
  import opened Engine
  import opened TruthMaintenance
  import opened SimpleStates

  function Choice(subject: Id, status: DecisionStatus, parents: set<Id>, scope: Id, pinned: bool): Decision {
    Decision(subject, "1", Explicit, status, 1, parents, {}, {}, scope, false, pinned, None, None, None, None)
  }

  function TopScope(): Scope {
    Scope(None, ActiveScope, false, false, 0)
  }

  function SubScope(): Scope {
    Scope(Some(ROOT), ActiveScope, false, false, 0)
  }

  function Rests(d: Id, p: Id): Edge {
    Edge(p, d, DependsOn)
  }

  /** A calculus with decisions and scopes alone; the root model is mirrored. */
  function Plain(decisions: map<Id, Decision>, edges: seq<Edge>, scopes: map<Id, Scope>,
                 models: map<Id, map<Id, Id>>): Calculus
    requires ROOT in models
  {
    Calculus(0, models[ROOT], decisions, edges, map[], [], map[], map[], map[], map[],
             FairnessPolicy(2, 2, 2, 2, Warn), map[], map[], scopes, map[], models)
  }

  lemma DistinctNames()
    ensures "o" != "p" && "o" != "d" && "p" != "d" && "x" != "y" && "s" != ROOT && "t" != ROOT && "u" != ROOT
    ensures "s" != "t" && "s" != "u" && "t" != "u" && "a" != "b" && "a" != "e" && "b" != "e" && "d" != "e"
    ensures "o" != "a" && "o" != "b" && "p" != "a" && "p" != "b"
    ensures "f" != "d" && "f" != "b" && "f" != "e" && "b" != "d"
  {
    assert "o"[0] != "p"[0] && "o"[0] != "d"[0] && "p"[0] != "d"[0] && "x"[0] != "y"[0];
    assert |"s"| == |"t"| == |"u"| == 1 && |ROOT| == 4;
    assert "s"[0] != "t"[0] && "s"[0] != "u"[0] && "t"[0] != "u"[0];
    assert "a"[0] != "b"[0] && "a"[0] != "e"[0] && "b"[0] != "e"[0] && "d"[0] != "e"[0];
    assert "o"[0] != "a"[0] && "o"[0] != "b"[0] && "p"[0] != "a"[0] && "p"[0] != "b"[0];
    assert "f"[0] != "d"[0] && "f"[0] != "b"[0] && "f"[0] != "e"[0] && "b"[0] != "d"[0];
  }

  /** From a simple state, retiring decisions leads to one that the commit accepts. */
  lemma RetiredCommits(c: Calculus, c': Calculus, gone: set<Id>)
    requires Indexed(c) && Simple(c) && Retires(c, c', gone) && Mirror(c') && SaneDependencies(c.scopes, c.scopeDeps)
    requires Flat(c') && c'.scopeDeps == c.scopeDeps && c'.constraints == map[] && c'.locks == map[]
    requires c'.obligations == c.obligations && c'.explanations == c.explanations
    requires c'.conflicts.Keys == c.conflicts.Keys
    requires forall k :: k in c.conflicts ==> c'.conflicts[k].scope == c.conflicts[k].scope
    ensures Indexed(Settled(c')) && CommitChecks(Settled(c'))
  {
    hide CommitChecks, Settled, Simple;
    RetiringKeepsSlots(c, c', gone);
    RetiredSimple(c, c', gone);
    SimpleCommits(c');
    SettledCommits(c');
    SettledKeepsIndexes(c');
  }

  lemma RetiredSimple(c: Calculus, c': Calculus, gone: set<Id>)
    requires Indexed(c) && Simple(c) && Retires(c, c', gone) && Mirror(c')
    requires Flat(c') && c'.scopeDeps == c.scopeDeps && c'.constraints == map[] && c'.locks == map[]
    requires c'.obligations == c.obligations && c'.explanations == c.explanations
    requires c'.conflicts.Keys == c.conflicts.Keys
    requires forall k :: k in c.conflicts ==> c'.conflicts[k].scope == c.conflicts[k].scope
    ensures Simple(c')
  {
    hide SlotsSound, SlotsComplete, Registered;
    SimpleStep(c, c');
  }

  // ----- restarting -----

  /** A pinned decision "d" rests on an unpinned decision "p". */
  function PinnedOnSpeculative(): Calculus {
    Plain(map["p" := Choice("p", Active, {}, ROOT, false), "d" := Choice("d", Active, {"p"}, ROOT, true)],
          [Rests("d", "p")], map[ROOT := TopScope()], map[ROOT := map["p" := "p", "d" := "d"]])
  }

  lemma PinnedSound()
    ensures Sound(PinnedOnSpeculative()) && Simple(PinnedOnSpeculative())
  {
    hide CommitChecks, Simple, SlotsSound, SlotsComplete;
    PinnedOnSpeculativeSlots();
    PinnedOnSpeculativeSimple();
    SimpleCommits(PinnedOnSpeculative());
  }

  lemma PinnedOnSpeculativeSlots()
    ensures Indexed(PinnedOnSpeculative()) && ParentsActive(PinnedOnSpeculative())
  {
    hide SlotsSound, SlotsComplete;
    DistinctNames();
    assert SlotsSound(PinnedOnSpeculative()) by { PinnedOnSpeculativeSlotsSound(); }
    assert SlotsComplete(PinnedOnSpeculative()) by { PinnedOnSpeculativeSlotsComplete(); }
  }

  lemma PinnedOnSpeculativeSlotsSound()
    ensures SlotsSound(PinnedOnSpeculative())
  {
    DistinctNames();
  }

  lemma PinnedOnSpeculativeSlotsComplete()
    ensures SlotsComplete(PinnedOnSpeculative())
  {
    DistinctNames();
  }

  lemma PinnedOnSpeculativeSimple()
    ensures Simple(PinnedOnSpeculative()) && EdgesWritten(PinnedOnSpeculative())
  {
    DistinctNames();
  }

  /** A restart can leave a retained decision without its parent (`Restart.RestartKeepsParents`). */
  lemma RestartCanOrphan()
    ensures var c := PinnedOnSpeculative();
      Sound(c) && CommitChecks(AfterRestart(c)) && !ParentsActive(AfterRestart(c))
  {
    hide Settled, Restart.Cleared, Indexed, ParentsActive, CommitChecks, Speculative, Retires, Simple;
    var c := PinnedOnSpeculative();
    DistinctNames();
    PinnedSound();
    RestartKeepsParents(c);
    assert IsActive(c, "d") && Retained(c.decisions["d"]) && "p" in c.decisions["d"].parents;
    assert !Retained(c.decisions["p"]);
    RestartRetires(c);
    RestartFrame(c);
    RetiredCommits(c, Restart.Cleared(c), Speculative(c));
  }

  lemma RestartFrame(c: Calculus)
    requires Indexed(c) && Simple(c)
    ensures var c' := Restart.Cleared(c);
      Mirror(c') && Flat(c') && c' == c.(decisions := c'.decisions, models := c'.models, activeModel := c'.activeModel,
        searchLocal := c'.searchLocal, epoch := c'.epoch) && c.constraints == map[] && c.locks == map[]
  {
  }

  /** Scope "s" holds a pinned decision "d" that rests on an unpinned one, "p". */
  function PinnedInScope(): Calculus {
    Plain(map["p" := Choice("p", Active, {}, "s", false), "d" := Choice("d", Active, {"p"}, "s", true)],
          [Rests("d", "p")], map[ROOT := TopScope(), "s" := SubScope()],
          map[ROOT := NO_MODEL, "s" := map["p" := "p", "d" := "d"]])
  }

  lemma PinnedInScopeSound()
    ensures Sound(PinnedInScope()) && Simple(PinnedInScope())
  {
    hide CommitChecks, Simple, SlotsSound, SlotsComplete;
    PinnedInScopeSlots();
    PinnedInScopeSimple();
    SimpleCommits(PinnedInScope());
  }

  lemma PinnedInScopeSlots()
    ensures Indexed(PinnedInScope()) && ParentsActive(PinnedInScope())
  {
    hide SlotsSound, SlotsComplete;
    DistinctNames();
    assert SlotsSound(PinnedInScope()) by { PinnedInScopeSlotsSound(); }
    assert SlotsComplete(PinnedInScope()) by { PinnedInScopeSlotsComplete(); }
  }

  lemma PinnedInScopeSlotsSound()
    ensures SlotsSound(PinnedInScope())
  {
    DistinctNames();
  }

  lemma PinnedInScopeSlotsComplete()
    ensures SlotsComplete(PinnedInScope())
  {
    DistinctNames();
  }

  lemma PinnedInScopeSimple()
    ensures Simple(PinnedInScope()) && EdgesWritten(PinnedInScope())
  {
    DistinctNames();
  }

  /** So can the restart of one scope (`Restart.ScopeRestartKeepsParents`). */
  lemma ScopeRestartCanOrphan()
    ensures var c := PinnedInScope();
      Sound(c) && CommitChecks(AfterScopeRestart(c, "s", 1)) && !ParentsActive(AfterScopeRestart(c, "s", 1))
  {
    hide Settled, ScopeCleared, Indexed, ParentsActive, CommitChecks, Retires, Simple, Subtree;
    var c := PinnedInScope();
    DistinctNames();
    PinnedInScopeSound();
    SoleScope(c.scopes, "s");
    ScopeRestartKeepsParents(c, "s", 1);
    assert IsActive(c, "d") && Retained(c.decisions["d"]) && "p" in c.decisions["d"].parents;
    assert "p" in SpeculativeIn(c, {"s"}) && "d" !in SpeculativeIn(c, {"s"});
    ScopeRestartRetires(c, "s", 1);
    ScopeRestartFrame(c, {"s"}, 1);
    RetiredCommits(c, ScopeCleared(c, {"s"}, 1), SpeculativeIn(c, {"s"}));
  }

  lemma ScopeRestartFrame(c: Calculus, targets: set<Id>, sequence: nat)
    requires Indexed(c) && Simple(c) && c.obligations == map[] && Indexed(ScopeCleared(c, targets, sequence))
    ensures var c' := ScopeCleared(c, targets, sequence);
      Mirror(c') && Flat(c') && c' == c.(decisions := c'.decisions, models := c'.models,
        searchLocal := c'.searchLocal, epoch := c'.epoch) && c.constraints == map[] && c.locks == map[]
  {
    assert ScopeCleared(c, targets, sequence).obligations == map[];
  }

  /** `c` having learned, from an explained conflict, that `l` may not hold under the guard. */
  function Knowing(c: Calculus, l: Literal, guard: Condition, scope: Id): Calculus {
    c.(constraints := map["n" := NoGood(l, guard, scope)],
       conflicts := map["k" := Conflict(AssumptionConflict, {"v"}, Snapshot(l), Learned, {"e"}, {"n"}, None, None, scope)],
       explanations := map["e" := Explanation("k", [l], {"v"}, Validated, guard, false, scope)])
  }

  /** What the conflict's snapshot says about a root decision. */
  function Snapshot(l: Literal): map<Id, Id> {
    if l.decision.Some? then map[l.subject := l.decision.value] else map[]
  }

  function NoGood(l: Literal, guard: Condition, scope: Id): Constraint {
    Constraint({l}, guard, Hard, ActiveConstraint, ByValidation, "k", "e", {"v"}, scope, 0, None)
  }

  lemma KnowingCommits(c: Calculus, l: Literal, guard: Condition, scope: Id)
    requires Flat(c) && Indexed(c) && ParentsFlow(c) && ScopesKnown(c) && c.locks == map[] && scope in c.scopes
    requires forall s, x :: s in c.models && s != ROOT && x in c.models[s] && x in c.activeModel ==>
      c.models[s][x] in c.decisions && c.decisions[c.models[s][x]].overrides
    ensures Indexed(Knowing(c, l, guard, scope)) && CommitChecks(Knowing(c, l, guard, scope))
    ensures ParentsActive(Knowing(c, l, guard, scope)) == ParentsActive(c)
  {
    hide FlowsLegal, OverridesRespected, IdleScopesEmpty, Registered, SlotsSound, SlotsComplete;
    var c' := Knowing(c, l, guard, scope);
    SameIndexes(c, c');
    FlowsInSimple(c');
    OverridesInFlat(c');
    KnowingRefers(c, l, guard, scope);
  }

  lemma KnowingRefers(c: Calculus, l: Literal, guard: Condition, scope: Id)
    requires ScopesKnown(c) && c.locks == map[] && scope in c.scopes
    ensures var c' := Knowing(c, l, guard, scope); KnowledgeRespected(c') && ReferencesKnown(c') && ScopesKnown(c')
  {
    hide ViolatedBelow;
  }

  /** What is known and what the root assigns decide a violation at the root. */
  lemma KnownViolation(c: Calculus, l: Literal, guard: Condition, scope: Id)
    requires c.constraints == map["n" := NoGood(l, guard, scope)]
    ensures Violated(c) == (
      if ConditionHolds(guard, EffectiveValues(c, scope)) && LiteralHolds(l, EffectiveValues(c, scope)) then {"n"} else {})
  {
    hide EffectiveValues, LiteralHolds, ConditionHolds;
    assert l in NoGood(l, guard, scope).body;
  }

  // ----- restarting into a violation -----

  function TakesD(): Literal {
    Literal("d", EQ, "1", Some("d"))
  }

  function WithoutP(): Condition {
    Not(Holds(Literal("p", EQ, "1", Some("p"))))
  }

  /** "d" is ruled out, but only while "p" is not chosen. */
  function NegatedGuard(): Calculus {
    Knowing(PinnedOnSpeculative(), TakesD(), WithoutP(), ROOT)
  }

  /** Under a guard with `not`, removing a decision can create a violation, so that a restart from a
      clean state is refused (`Shrinking.ShrinkingIsSafe`, `Restart.RestartCheckPasses`). */
  lemma RestartCanViolate()
    ensures var c := NegatedGuard();
      Sound(c) && RootKnowledge(c) && Violated(c) == {} && Violated(AfterRestart(c)) != {}
  {
    hide Settled, Restart.Cleared, Indexed, ParentsActive, EffectiveValues, CommitChecks, Violated;
    var c := NegatedGuard();
    PinnedSound();
    KnowingCommits(PinnedOnSpeculative(), TakesD(), WithoutP(), ROOT);
    PinnedValues();
    KnownViolation(c, TakesD(), WithoutP(), ROOT);
    ClearedPinned();
    KnownViolation(Restart.Cleared(c), TakesD(), WithoutP(), ROOT);
    SettledKeepsIndexes(Restart.Cleared(c));
  }

  lemma PinnedValues()
    ensures !ConditionHolds(WithoutP(), EffectiveValues(NegatedGuard(), ROOT))
  {
    hide EffectiveValues;
    DistinctNames();
    FlatValue(NegatedGuard(), ROOT, "p");
    assert IsActive(NegatedGuard(), "p");
  }

  lemma ClearedPinned()
    ensures var c' := Restart.Cleared(NegatedGuard());
      && c'.constraints == map["n" := NoGood(TakesD(), WithoutP(), ROOT)]
      && ConditionHolds(WithoutP(), EffectiveValues(c', ROOT)) && LiteralHolds(TakesD(), EffectiveValues(c', ROOT))
  {
    hide EffectiveValues, Restart.Cleared, Indexed, ParentsActive, CommitChecks, Simple, EdgesWritten;
    DistinctNames();
    var c := NegatedGuard();
    PinnedSound();
    SameIndexes(PinnedOnSpeculative(), c);
    ClearedKnowledge(c);
    RootAfterRestart(c, "p");
    RootAfterRestart(c, "d");
  }

  lemma ClearedKnowledge(c: Calculus)
    ensures Restart.Cleared(c).constraints == c.constraints
  {
  }

  /** Of the root's values a restart leaves those of retained decisions. */
  lemma RootAfterRestart(c: Calculus, x: Id)
    requires Indexed(c) && x in c.activeModel
    ensures var d, v := c.activeModel[x], EffectiveValues(Restart.Cleared(c), ROOT);
      && d in c.decisions && (Retained(c.decisions[d]) ==> x in v && v[x] == c.decisions[d].value)
      && (!Retained(c.decisions[d]) ==> x !in v)
  {
    hide EffectiveDecisions, Speculative;
    var d := c.activeModel[x];
    assert IsActive(c, d);
    SpeculativeIffNotRetained(c, d);
    RootChain(Restart.Cleared(c));
  }

  /** A suspended override gives way to the retained value of the root. */
  lemma ScopeAfterRestart(c: Calculus, s: Id, x: Id)
    requires Indexed(c) && Flat(c) && s in c.models && s != ROOT && x in c.models[s] && x in c.activeModel
    requires c.models[s][x] in c.decisions && !Retained(c.decisions[c.models[s][x]])
    requires c.activeModel[x] in c.decisions && Retained(c.decisions[c.activeModel[x]])
    ensures var v := EffectiveValues(Restart.Cleared(c), s); x in v && v[x] == c.decisions[c.activeModel[x]].value
  {
    hide EffectiveDecisions, Speculative;
    var c' := Restart.Cleared(c);
    assert IsActive(c, c.models[s][x]) && IsActive(c, c.activeModel[x]);
    SpeculativeIffNotRetained(c, c.models[s][x]);
    SpeculativeIffNotRetained(c, c.activeModel[x]);
    FlatDecisions(c', s);
    assert x in c'.activeModel && x !in Layer(c', s);
  }

  /** The root pins x = 1, and scope "s" overrides it, speculatively, with x = 2. */
  function Overriding(): Calculus {
    Plain(map["d" := Choice("x", Active, {}, ROOT, true),
              "e" := Choice("x", Active, {}, "s", false).(value := "2", overrides := true)],
          [], map[ROOT := TopScope(), "s" := SubScope()],
          map[ROOT := map["x" := "d"], "s" := map["x" := "e"]])
  }

  /** Scope "s" knows that x = 1 is ruled out. */
  function BaredOverride(): Calculus {
    Knowing(Overriding(), OverriddenX(), Const(true), "s")
  }

  function OverriddenX(): Literal {
    Literal("x", EQ, "1", Some("d"))
  }

  /** Without any `not`, a restart that suspends an override uncovers the value it overrode, and is
      refused when the scope has ruled that value out (`Restart.RestartCheckExactly`). */
  lemma RestartCanBare()
    ensures var c := BaredOverride();
      && Sound(c) && NegationFreeGuards(c) && Violated(c) == {} && Violated(AfterRestart(c)) != {}
      && !NothingBared(c, Speculative(c))
  {
    hide Settled, Restart.Cleared, Indexed, ParentsActive, EffectiveValues, CommitChecks, Violated, NothingBared,
      LiteralHolds, Speculative, Flat, ParentsFlow, ScopesKnown;
    var c := BaredOverride();
    OverridingSlots();
    OverridingFlat();
    KnowingCommits(Overriding(), OverriddenX(), Const(true), "s");
    OverridingValues();
    KnownViolation(c, OverriddenX(), Const(true), "s");
    OverrideGone();
    KnownViolation(Restart.Cleared(c), OverriddenX(), Const(true), "s");
    SettledKeepsIndexes(Restart.Cleared(c));
    if NothingBared(c, Speculative(c)) {
      RestartMustPass(c);
    }
  }

  lemma RestartMustPass(c: Calculus)
    requires Indexed(c) && NegationFreeGuards(c) && Violated(c) == {} && NothingBared(c, Speculative(c))
    ensures Violated(AfterRestart(c)) == {}
  {
    RestartCheckPasses(c);
  }

  lemma OverridingSlots()
    ensures Indexed(Overriding()) && ParentsActive(Overriding())
  {
    hide SlotsSound, SlotsComplete;
    DistinctNames();
    assert SlotsSound(Overriding()) by { OverridingSlotsSound(); }
    assert SlotsComplete(Overriding()) by { OverridingSlotsComplete(); }
  }

  lemma OverridingSlotsSound()
    ensures SlotsSound(Overriding())
  {
    DistinctNames();
  }

  lemma OverridingSlotsComplete()
    ensures SlotsComplete(Overriding())
  {
    DistinctNames();
  }

  lemma OverridingFlat()
    ensures Flat(Overriding()) && EdgesWritten(Overriding())
    ensures ParentsFlow(Overriding()) && ScopesKnown(Overriding())
  {
    DistinctNames();
  }

  lemma OverridingValues()
    ensures !LiteralHolds(OverriddenX(), EffectiveValues(BaredOverride(), "s"))
  {
    hide EffectiveValues;
    DistinctNames();
    FlatValue(BaredOverride(), "s", "x");
    assert IsActive(BaredOverride(), "e");
    assert "2" != "1" by { assert "2"[0] != "1"[0]; }
  }

  lemma OverridingEntries()
    ensures var c := Overriding();
      && "s" in c.models && c.models["s"] == map["x" := "e"] && c.activeModel == map["x" := "d"]
      && "d" in c.decisions && "e" in c.decisions && c.decisions["d"].value == "1"
      && Retained(c.decisions["d"]) && !Retained(c.decisions["e"])
  {
    DistinctNames();
  }

  lemma FlatKept(c: Calculus, c': Calculus)
    requires Flat(c) && c'.scopes == c.scopes
    ensures Flat(c')
  {
  }

  lemma OverrideGone()
    ensures var c' := Restart.Cleared(BaredOverride());
      && c'.constraints == map["n" := NoGood(OverriddenX(), Const(true), "s")]
      && LiteralHolds(OverriddenX(), EffectiveValues(c', "s"))
  {
    hide EffectiveValues, Restart.Cleared, Indexed, ParentsActive, EdgesWritten, Overriding, Flat, ParentsFlow, ScopesKnown;
    DistinctNames();
    OverridingEntries();
    var c := BaredOverride();
    ClearedKnowledge(c);
    OverridingSlots();
    OverridingFlat();
    FlatKept(Overriding(), c);
    SameIndexes(Overriding(), c);
    ScopeAfterRestart(c, "s", "x");
  }

  /** The root pins x = 1. Scope "s" pins y = 1 for itself and overrides x, speculatively, with x = 2; "f"
      once gave y = 1 at the root. */
  function Divided(): Calculus {
    Plain(map["d" := Choice("x", Active, {}, ROOT, true), "f" := Choice("y", Invalidated, {}, ROOT, false),
              "b" := Choice("y", Active, {}, "s", true),
              "e" := Choice("x", Active, {}, "s", false).(value := "2", overrides := true)],
          [], map[ROOT := TopScope(), "s" := SubScope()],
          map[ROOT := map["x" := "d"], "s" := map["x" := "e", "y" := "b"]])
  }

  function GivenX(): Literal {
    Literal("x", EQ, "1", Some("d"))
  }

  function GivenY(): Literal {
    Literal("y", EQ, "1", Some("f"))
  }

  /** The root rules out x = 1 with y = 1, from a conflict resolved long ago. */
  function Settling(): Calculus {
    Divided().(
    constraints := map["n" := NoGood(GivenX(), Const(true), ROOT).(body := {GivenX(), GivenY()})],
    conflicts := map["k" := Conflict(AssumptionConflict, {"v"}, map["x" := "d", "y" := "f"], Resolved, {"e"}, {"n"},
                                     Some(1), None, ROOT)],
    explanations := map["e" := Explanation("k", [GivenX(), GivenY()], {"v"}, Validated, Unset, false, ROOT)])
  }

  /** A restart can pass its own check, which reads the root's no-good at the root, and be refused by the
      commit, which reads it in "s" as well: there the suspended override uncovers x = 1
      (`Admission.RestartCommitsExactly`). */
  lemma RestartCanBeRefused()
    ensures var c := Settling();
      && Sound(c) && NegationFreeGuards(c) && Violated(c) == {}
      && Violated(AfterRestart(c)) == {} && !CommitChecks(AfterRestart(c))
  {
    hide Settled, Restart.Cleared, Indexed, ParentsActive, EffectiveValues, Violated, KnowledgeRespected,
      OverridesRespected, IdleScopesEmpty, FlowsLegal, ScopesKnown, ReferencesKnown, EdgesWritten;
    var c := Settling();
    SettlingSound();
    SettlingClean();
    var c' := Restart.Cleared(c);
    SettlingUncovered();
    SettledKeepsIndexes(c');
    SettledRefuses(c');
  }

  lemma SettledRefuses(c: Calculus)
    requires !KnowledgeRespected(c)
    ensures !KnowledgeRespected(Settled(c))
  {
    hide KnowledgeRespected;
    SettledFrame(c);
    SameKnowledge(c, Settled(c));
  }

  lemma DividedSlots()
    ensures Indexed(Divided()) && ParentsActive(Divided())
  {
    hide SlotsSound, SlotsComplete;
    DistinctNames();
    assert SlotsSound(Divided()) by { DividedSlotsSound(); }
    assert SlotsComplete(Divided()) by { DividedSlotsComplete(); }
  }

  lemma DividedSlotsSound()
    ensures SlotsSound(Divided())
  {
    DistinctNames();
  }

  lemma DividedSlotsComplete()
    ensures SlotsComplete(Divided())
  {
    DistinctNames();
  }

  lemma SettlingFlat()
    ensures Flat(Settling()) && EdgesWritten(Settling()) && ParentsFlow(Settling()) && ScopesKnown(Settling())
    ensures ReferencesKnown(Settling())
  {
    hide EdgesWritten, ScopesKnown, ReferencesKnown;
    DistinctNames();
    SettlingScopes();
    SettlingEdges();
    SettlingReferences();
  }

  lemma SettlingReferences()
    ensures ReferencesKnown(Settling())
  {
  }

  lemma SettlingScopes()
    ensures ScopesKnown(Settling())
  {
    DistinctNames();
  }

  lemma SettlingEdges()
    ensures EdgesWritten(Settling())
  {
    DistinctNames();
  }

  lemma SettlingSound()
    ensures Sound(Settling())
  {
    hide Indexed, ParentsActive, Flat, EdgesWritten, ParentsFlow, ScopesKnown, ReferencesKnown, FlowsLegal,
      OverridesRespected, IdleScopesEmpty, KnowledgeRespected;
    var c := Settling();
    DividedSlots();
    SettlingFlat();
    SameIndexes(Divided(), c);
    FlowsInSimple(c);
    SettlingOverrides();
    OverridesInFlat(c);
    SettlingClean();
  }

  lemma SettlingOverrides()
    ensures var c := Settling(); forall s, x :: s in c.models && s != ROOT && x in c.models[s] && x in c.activeModel ==>
      c.models[s][x] in c.decisions && c.decisions[c.models[s][x]].overrides
  {
    DistinctNames();
  }

  /** Before the restart neither scope has both values. */
  lemma SettlingClean()
    ensures KnowledgeRespected(Settling()) && Violated(Settling()) == {} && NegationFreeGuards(Settling())
  {
    hide EffectiveValues, Lineage, Flat, Divided, EdgesWritten, ParentsFlow, ScopesKnown, ReferencesKnown,
      KnowledgeRespected, Violated;
    var c := Settling();
    SettlingFlat();
    SettlingSeen();
    FlatValue(c, ROOT, "y");
    FlatValue(c, "s", "x");
    Apart(c, GivenX(), GivenY(), "s");
  }

  /** A no-good of which neither scope gives both literals. */
  lemma Apart(c: Calculus, l: Literal, m: Literal, s: Id)
    requires c.constraints == map["n" := NoGood(l, Const(true), ROOT).(body := {l, m})] && c.scopes.Keys == {ROOT, s}
    requires !LiteralHolds(m, EffectiveValues(c, ROOT)) && !LiteralHolds(l, EffectiveValues(c, s))
    ensures KnowledgeRespected(c) && Violated(c) == {}
  {
    hide EffectiveValues, LiteralHolds, Lineage;
    assert l in c.constraints["n"].body && m in c.constraints["n"].body;
  }

  lemma SettlingSeen()
    ensures var c := Settling();
      && c.scopes.Keys == {ROOT, "s"}
      && Seen(c, ROOT, "y") == None && Seen(c, "s", "x") == Some("e") && "e" in c.decisions
      && c.decisions["e"].value != "1"
  {
    DistinctNames();
    assert "2"[0] != "1"[0];
  }

  /** After it, "s" has both, and the root has x alone. */
  lemma SettlingUncovered()
    ensures var c' := Restart.Cleared(Settling()); !KnowledgeRespected(c') && Violated(c') == {}
  {
    hide EffectiveValues, Restart.Cleared, Flat, EdgesWritten, Lineage, ScopesKnown, ParentsFlow, ReferencesKnown,
      LiteralHolds, KnowledgeRespected, Violated;
    var c := Settling();
    ClearedKnowledge(c);
    SettlingValues();
    ClearedShape(c);
    SettlingFlat();
    FlatLineage(c, "s");
    DistinctNames();
    OnlyBelow(Restart.Cleared(c), GivenX(), GivenY(), "s");
  }

  /** A no-good that only a scope below violates, after its conflict was resolved. */
  lemma OnlyBelow(c: Calculus, l: Literal, m: Literal, s: Id)
    requires c.constraints == map["n" := NoGood(l, Const(true), ROOT).(body := {l, m})]
    requires s in c.scopes && Lineage(c, s) == [ROOT, s] && !Unresolved(c, c.constraints["n"])
    requires LiteralHolds(l, EffectiveValues(c, s)) && LiteralHolds(m, EffectiveValues(c, s))
    requires !LiteralHolds(m, EffectiveValues(c, ROOT))
    ensures !KnowledgeRespected(c) && Violated(c) == {}
  {
    hide EffectiveValues, LiteralHolds, Lineage;
    assert ROOT == [ROOT, s][0];
    assert ViolatedBelow(c, c.constraints["n"], s);
    assert m in c.constraints["n"].body;
  }

  lemma SettlingValues()
    ensures var c' := Restart.Cleared(Settling());
      && "s" in Settling().scopes
      && LiteralHolds(GivenX(), EffectiveValues(c', "s")) && LiteralHolds(GivenY(), EffectiveValues(c', "s"))
      && !LiteralHolds(GivenY(), EffectiveValues(c', ROOT))
  {
    hide EffectiveValues, Restart.Cleared, Indexed, ParentsActive, Flat, EdgesWritten, ScopesKnown, ParentsFlow,
      ReferencesKnown;
    DistinctNames();
    var c := Settling();
    DividedSlots();
    SameIndexes(Divided(), c);
    SettlingFlat();
    ScopeAfterRestart(c, "s", "x");
    ScopeKeepsRetained(c, "s", "y");
    RootLacks(c, "y");
  }

  lemma ClearedShape(c: Calculus)
    ensures Restart.Cleared(c).scopes == c.scopes && Restart.Cleared(c).conflicts == c.conflicts
    ensures forall s :: Lineage(Restart.Cleared(c), s) == Lineage(c, s)
  {
  }

  /** What the root does not assign, it does not assign after a restart. */
  lemma RootLacks(c: Calculus, x: Id)
    requires Indexed(c) && x !in c.activeModel
    ensures x !in EffectiveValues(Restart.Cleared(c), ROOT)
  {
    hide EffectiveDecisions, Speculative;
    RootChain(Restart.Cleared(c));
  }

  /** A retained assignment of a scope survives a restart. */
  lemma ScopeKeepsRetained(c: Calculus, s: Id, x: Id)
    requires Indexed(c) && Flat(c) && s in c.models && s != ROOT && x in c.models[s] && c.scopes[s].status.ActiveScope?
    requires c.models[s][x] in c.decisions && Retained(c.decisions[c.models[s][x]])
    ensures var v := EffectiveValues(Restart.Cleared(c), s); x in v && v[x] == c.decisions[c.models[s][x]].value
  {
    hide EffectiveDecisions, Speculative;
    var c' := Restart.Cleared(c);
    assert IsActive(c, c.models[s][x]);
    SpeculativeIffNotRetained(c, c.models[s][x]);
    FlatDecisions(c', s);
  }

  // ----- truth maintenance -----

  /** A plan that names the parent "p" and not its child "d", as a plan does that was recorded before
      "d" was registered. */
  function ParentOnly(): TruthPlan {
    TruthPlan("t", [Ref(DecisionNode, "p")])
  }

  /** Applied, it leaves "d" ACTIVE without its parent (`Runs.StepKeepsParents`). */
  lemma TruthPlanCanOrphan()
    ensures var c := PinnedOnSpeculative();
      && Sound(c) && TruthChanges(c, ParentOnly(), 1)
      && CommitAdmits(Normalised(TruthCalculus(c, ParentOnly(), 1))) && !ParentsActive(TruthCalculus(c, ParentOnly(), 1))
  {
    hide Indexed, CommitChecks, Retires, Simple, ModelsAgree;
    var c, plan := PinnedOnSpeculative(), ParentOnly();
    DistinctNames();
    PinnedSound();
    var mid := WithdrawTruth(c, plan, 1);
    var next := TruthCalculus(c, plan, 1);
    assert plan.affected[0] == Ref(DecisionNode, "p");
    assert Withdrawn(c, plan) == {"p"};
    TruthRetires(c, plan, 1);
    assert mid.locks == map[] && mid.obligations == map[];
    assert next == mid by { assert CheckLocks(mid) == map[]; }
    RetiredSimple(c, mid, {"p"});
    SimpleCommits(mid);
    IndexedModelsAgree(mid);
    assert IsActive(mid, "d") && !IsActive(mid, "p") && "p" in mid.decisions["d"].parents;
  }

  // ----- activating one decision -----

  /** In scope "s", "p" depends on the occupant "o" of subject "x"; "d" is proposed for "x" on "p". */
  function ParentBelowOccupant(): Calculus {
    Plain(map["o" := Choice("x", Active, {}, "s", false), "p" := Choice("y", Active, {"o"}, "s", false),
              "d" := Choice("x", Proposed, {"p"}, "s", false)],
          [Rests("p", "o"), Rests("d", "p")],
          map[ROOT := TopScope(), "s" := SubScope()],
          map[ROOT := NO_MODEL, "s" := map["x" := "o", "y" := "p"]])
  }

  lemma ParentBelowSound()
    ensures Sound(ParentBelowOccupant()) && Simple(ParentBelowOccupant())
  {
    hide CommitChecks;
    DistinctNames();
    var c := ParentBelowOccupant();
    ParentBelowSlots();
    ParentBelowEdges();
    SimpleCommits(c);
  }

  lemma ParentBelowSlots()
    ensures Indexed(ParentBelowOccupant()) && ParentsActive(ParentBelowOccupant())
  {
    hide SlotsSound, SlotsComplete;
    DistinctNames();
    assert SlotsSound(ParentBelowOccupant()) by { ParentBelowSlotsSound(); }
    assert SlotsComplete(ParentBelowOccupant()) by { ParentBelowSlotsComplete(); }
  }

  lemma ParentBelowSlotsSound()
    ensures SlotsSound(ParentBelowOccupant())
  {
    DistinctNames();
  }

  lemma ParentBelowSlotsComplete()
    ensures SlotsComplete(ParentBelowOccupant())
  {
    DistinctNames();
  }

  lemma ParentBelowEdges()
    ensures EdgesWritten(ParentBelowOccupant()) && Simple(ParentBelowOccupant())
  {
    hide EdgesWritten;
    DistinctNames();
    ParentBelowEdgesWritten();
  }

  lemma ParentBelowEdgesWritten()
    ensures EdgesWritten(ParentBelowOccupant())
  {
    DistinctNames();
  }

  lemma DependentOusted(c: Calculus, d: Id, o: Id, p: Id)
    requires d in c.decisions && Local(c, d) == Some(o) && o != d && o in c.decisions
    requires IsActive(c, p) && p != o && o in c.decisions[p].parents
    ensures p in Ousted(c, d)
  {
    var marked := MarkSuperseded(c, o, d);
    assert (o, p) in DependentEdges(marked);
    assert o in Descendants(marked, o);
  }

  /** A scoped activation can suspend the very parents it checked, and the commit accepts the result
      (`Activation.ScopedActivationParents`). */
  lemma ActivationCanOrphan() returns (c': Calculus)
    ensures var c := ParentBelowOccupant();
      && Sound(c) && CommitsActivation(c, "d", Some("o"), 1, c') && CommitChecks(c') && !ParentsActive(c')
  {
    hide Indexed, ParentsActive, CommitChecks, Simple, Candidate, Settled, Ousted, Freed, ModelsAgree, Audited;
    var c := ParentBelowOccupant();
    ParentBelowSound();
    DistinctNames();
    NothingToAudit(c);
    assert MayActivate(c, "d", Some("o"));
    ScopedCandidate(c, "d", 1);
    var act := Candidate(c, "d", 1);
    NoKnowledge(act, "s");
    var next := Settled(NextEpoch(act));
    assert ActivatesDecision(c, "d", Some("o"), 1, next);
    SettledKeepsIndexes(NextEpoch(act));
    SettledCommits(NextEpoch(act));
    IndexedModelsAgree(next);
    c' := next;
    ParentOusted();
    SameIndexes(act, NextEpoch(act));
  }

  lemma ParentOusted()
    ensures !ParentsActive(Candidate(ParentBelowOccupant(), "d", 1))
  {
    hide Indexed, ParentsActive, CommitChecks, Simple, Candidate, Ousted, Freed;
    var c := ParentBelowOccupant();
    ParentBelowSound();
    DistinctNames();
    DependentOusted(c, "d", "o", "p");
    ScopedActivationParents(c, "d", 1);
    CandidateIsActivateOne(c, "d", 1);
  }

  lemma CandidateIsActivateOne(c: Calculus, d: Id, sequence: nat)
    requires d in c.decisions && c.decisions[d].scope != ROOT
    ensures Candidate(c, d, sequence) == ActivateOne(Freed(c, d), d, sequence)
  {
  }

  lemma NoKnowledge(c: Calculus, scope: Id)
    requires c.constraints == map[]
    ensures RespectsKnowledge(c, scope)
  {
  }

  /** Where everything ousted belongs to other scopes, the candidate is indexed and stays simple. */
  lemma ScopedCandidate(c: Calculus, d: Id, sequence: nat)
    requires Indexed(c) && Simple(c) && Activatable(c, d) && c.decisions[d].scope in c.scopes && c.decisions[d].scope != ROOT
    requires forall e :: e in c.decisions ==> c.decisions[e].scope == c.decisions[d].scope
    requires c.activeModel == map[] && Local(c, d).Some?
    ensures var act := Candidate(c, d, sequence);
      && Indexed(act) && Simple(act) && act.constraints == map[] && act.policy == c.policy
      && Indexed(NextEpoch(act)) && CommitChecks(NextEpoch(act))
      && act.scopeDeps == c.scopeDeps && act.scopes == c.scopes
  {
    hide CommitChecks, Indexed, Simple, Candidate, Activatable;
    assert d in c.decisions by { ActivatableKnown(c, d); }
    var act := Candidate(c, d, sequence);
    ScopedCandidateSimple(c, d, sequence);
    SameIndexes(act, NextEpoch(act));
    EpochAside(act);
    SimpleCommits(NextEpoch(act));
  }

  lemma EpochAside(c: Calculus)
    requires Simple(c)
    ensures Simple(NextEpoch(c))
  {
    SimpleStep(c, NextEpoch(c));
  }

  lemma ScopedCandidateSimple(c: Calculus, d: Id, sequence: nat)
    requires Indexed(c) && Simple(c) && Activatable(c, d) && c.decisions[d].scope in c.scopes && c.decisions[d].scope != ROOT
    requires forall e :: e in c.decisions ==> c.decisions[e].scope == c.decisions[d].scope
    requires c.activeModel == map[] && Local(c, d).Some?
    ensures var act := Candidate(c, d, sequence);
      && Indexed(act) && Simple(act) && act.constraints == map[] && act.policy == c.policy
      && act.scopeDeps == c.scopeDeps && act.scopes == c.scopes
  {
    hide Freed, Ousted, SlotsComplete, Registered, AntecedentsLive;
    var act := Candidate(c, d, sequence);
    RootModelUntouched(c, d);
    ScopedActivationSlots(c, d, sequence);
    CandidateFrame(c, d, sequence);
    FreedSound(c, d);
    assert Mirror(act);
    SimpleStep(c, act);
  }

  /** "p" in a child scope depends on the root occupant "o". */
  function DependentInChild(): Calculus {
    Plain(map["o" := Choice("x", Active, {}, ROOT, false), "p" := Choice("y", Active, {"o"}, "s", false),
              "d" := Choice("x", Proposed, {}, ROOT, false)],
          [Rests("p", "o")],
          map[ROOT := TopScope(), "s" := SubScope()],
          map[ROOT := map["x" := "o"], "s" := map["y" := "p"]])
  }

  lemma DependentSound()
    ensures Sound(DependentInChild())
  {
    hide CommitChecks;
    DistinctNames();
    DependentSlots();
    DependentSimple();
    SimpleCommits(DependentInChild());
  }

  lemma DependentSlots()
    ensures Indexed(DependentInChild()) && ParentsActive(DependentInChild())
  {
    hide SlotsSound, SlotsComplete;
    DistinctNames();
    assert SlotsSound(DependentInChild()) by { DependentSlotsSound(); }
    assert SlotsComplete(DependentInChild()) by { DependentSlotsComplete(); }
  }

  lemma DependentSlotsSound()
    ensures SlotsSound(DependentInChild())
  {
    DistinctNames();
  }

  lemma DependentSlotsComplete()
    ensures SlotsComplete(DependentInChild())
  {
    DistinctNames();
  }

  lemma DependentSimple()
    ensures Simple(DependentInChild()) && EdgesWritten(DependentInChild())
  {
    hide EdgesWritten;
    DistinctNames();
    DependentEdgesWritten();
  }

  lemma DependentEdgesWritten()
    ensures EdgesWritten(DependentInChild())
  {
    DistinctNames();
  }

  /** A root activation that ousts a child-scope decision is refused by the commit, although every
      check before it passes (`Activation.RootActivationCommits`). */
  lemma RootActivationCanBeRefused()
    ensures var c := DependentInChild();
      && Sound(c) && MayActivate(c, "d", Some("o"))
      && Violated(Candidate(c, "d", 1)) == {} && !Indexed(Normalised(Candidate(c, "d", 1)))
  {
    hide Sound, Indexed, Ousted, Candidate, RootActivation, SameDecisions, DependentInChild, MayActivate, Activatable, Local;
    var c := DependentInChild();
    DependentSound();
    assert Indexed(c) by { SoundIndexed(c); }
    DependentMay();
    RootCandidate(c, "d", 1);
    RootActivationCommits(c, "d", 1);
    CandidateFrame(c, "d", 1);
    NoViolation(Candidate(c, "d", 1));
  }

  lemma SoundIndexed(c: Calculus)
    requires Sound(c)
    ensures Indexed(c)
  {
  }

  lemma DependentMay()
    ensures var c := DependentInChild();
      && MayActivate(c, "d", Some("o")) && Activatable(c, "d") && "d" in c.decisions && c.decisions["d"].scope == ROOT
      && "p" in Ousted(c, "d") && "p" in c.decisions && c.decisions["p"].scope == "s" && "s" != ROOT
      && c.constraints == map[]
  {
    hide Ousted;
    var c := DependentInChild();
    DistinctNames();
    DependentOusted(c, "d", "o", "p");
    assert AntecedentsLive(c, c.decisions["d"]);
  }

  lemma RootCandidate(c: Calculus, d: Id, sequence: nat)
    requires d in c.decisions && c.decisions[d].scope == ROOT
    ensures Candidate(c, d, sequence) == RootActivation(c, d, sequence)
  {
  }

  // ----- the order of a candidate's rows -----

  /** "p" rests on "o"; "a" is to replace "o", and "b" is to replace "p". */
  function Chained(): Calculus {
    Plain(map["o" := Choice("x", Active, {}, ROOT, false), "p" := Choice("y", Active, {"o"}, ROOT, false),
              "a" := Choice("x", Proposed, {}, ROOT, false), "b" := Choice("y", Proposed, {}, ROOT, false)],
          [Rests("p", "o")], map[ROOT := TopScope()], map[ROOT := map["x" := "o", "y" := "p"]])
  }

  lemma ChainedIndexed()
    ensures Indexed(Chained()) && ParentsActive(Chained())
  {
    hide SlotsSound, SlotsComplete;
    DistinctNames();
    assert SlotsSound(Chained()) by { ChainedSlotsSound(); }
    assert SlotsComplete(Chained()) by { ChainedSlotsComplete(); }
  }

  lemma ChainedSound()
    ensures Sound(Chained())
  {
    hide CommitChecks, Simple;
    ChainedIndexed();
    ChainedSimple();
    SimpleCommits(Chained());
  }

  lemma ChainedSimple()
    ensures Simple(Chained()) && EdgesWritten(Chained())
  {
    hide EdgesWritten, ScopesKnown;
    DistinctNames();
    ChainedEdges();
    ChainedScopes();
  }

  lemma ChainedEdges()
    ensures EdgesWritten(Chained())
  {
    DistinctNames();
  }

  lemma ChainedScopes()
    ensures ScopesKnown(Chained())
  {
    DistinctNames();
  }

  lemma ChainedSlotsSound()
    ensures SlotsSound(Chained())
  {
    DistinctNames();
  }

  lemma ChainedSlotsComplete()
    ensures SlotsComplete(Chained())
  {
    DistinctNames();
  }

  /** The candidate gives "x" to "a" and "y" to "b". */
  function Replacement(): Assignments {
    map["x" := "a", "y" := "b"]
  }

  /** The candidate is admissible and its rows come in the order of their keys, which the first pass
      refuses and so the whole staging does; in the other order the pass would succeed. The row of "x"
      fells "p", which the row of "y" still finds in `active_model`
      (`PassOrder.FirstPassExactly`, `PassOrder.RootRowPasses`). */
  lemma RowOrderMatters()
    ensures var c := Chained();
      && Sound(c) && AllAdmissible(c, Replacement()) && IsRows(Replacement(), ["a", "b"])
      && (forall d :: d in ["a", "b"] ==> RowReady(c, d)) && (forall d :: d in ["b", "a"] ==> RowReady(c, d))
      && SupersedeAll(Pass(c, {}, {}), ["a", "b"]).Err? && SupersedeAll(Pass(c, {}, {}), ["b", "a"]).Ok?
      && forall sequence, c' :: !Stages(c, Replacement(), sequence, c')
  {
    hide SupersedeAll, Indexed, RowPasses, Fallen, Slotted, CommitChecks, EdgesWritten, Stages, ParentsActive, IsRows,
      AllAdmissible;
    var c := Chained();
    DistinctNames();
    ChainedSound();
    assert Slotted(c) by { IndexedSlotted(c); }
    ChainedRows();
    FirstPassExactly(c, ["a", "b"]);
    FirstPassExactly(c, ["b", "a"]);
    FallenFirst();
    RootRowPasses(c, GoneBefore(c, ["a", "b"], 1), ["a", "b"][1]);
    RootRowPasses(c, GoneBefore(c, ["b", "a"], 0), ["b", "a"][0]);
    RootRowPasses(c, GoneBefore(c, ["b", "a"], 1), ["b", "a"][1]);
    ReplacementRows();
    NothingToAudit(c);
    forall sequence, c' ensures !Stages(c, Replacement(), sequence, c') {
      RefusedRowsNeverStage(c, Replacement(), ["a", "b"], sequence, c');
    }
  }

  lemma ReplacementRows()
    ensures AllAdmissible(Chained(), Replacement()) && IsRows(Replacement(), ["a", "b"])
  {
    DistinctNames();
    var keys := ["x", "y"];
    assert "x"[0] < "y"[0];
    assert IsSorting(Replacement().Keys, keys);
    assert RowsAlong(Replacement(), keys, ["a", "b"]);
  }

  /** A candidate whose rows the first pass refuses is never staged. */
  lemma RefusedRowsNeverStage(c: Calculus, assignments: Assignments, rows: seq<Id>, sequence: nat, c': Calculus)
    requires IsRows(assignments, rows) && (forall d :: d in rows ==> RowReady(c, d)) && Audited(c) == c
    requires SupersedeAll(Pass(c, {}, {}), rows).Err?
    ensures !Stages(c, assignments, sequence, c')
  {
    hide IsRows, Accepted, SupersedeAll, Settled, Audited;
    if Stages(c, assignments, sequence, c') {
      var others, p, act :|
        StagePath(c, assignments, sequence, others, p, act) && Accepted(c, act) && c' == Finished(act);
      RowsUnique(assignments, rows, others);
    }
  }

  lemma IndexedSlotted(c: Calculus)
    requires Indexed(c)
    ensures Slotted(c)
  {
  }

  lemma ChainedRows()
    ensures var c := Chained();
      && "a" in c.decisions && "b" in c.decisions && OccupantOf(c, "a") == Some("o") && OccupantOf(c, "b") == Some("p")
      && (forall d :: d in ["a", "b"] ==> RowReady(c, d)) && (forall d :: d in ["b", "a"] ==> RowReady(c, d))
  {
    DistinctNames();
  }

  lemma ChainedTops()
    ensures var c := Chained();
      && (forall d :: d in ["a", "b"] ==> RowReady(c, d)) && (forall d :: d in ["b", "a"] ==> RowReady(c, d))
      && Tops(c, ["a", "b"], 1) == {"o"} && Tops(c, ["b", "a"], 1) == {"p"} && Fallen(c, {}) == {}
  {
    hide Fallen, OccupantOf, Slotted, Reached;
    var c := Chained();
    ChainedRows();
    assert Slotted(c) by { ChainedIndexed(); IndexedSlotted(c); }
    NothingFallen(c);
    assert Tops(c, ["a", "b"], 0) == {} == Tops(c, ["b", "a"], 0);
    assert {} + {"o"} == {"o"} && {} + {"p"} == {"p"};
  }

  lemma FallenFirst()
    ensures var c := Chained();
      && (forall d :: d in ["a", "b"] ==> RowReady(c, d)) && (forall d :: d in ["b", "a"] ==> RowReady(c, d))
      && "p" in GoneBefore(c, ["a", "b"], 1) && GoneBefore(c, ["b", "a"], 0) == {} && "o" !in GoneBefore(c, ["b", "a"], 1)
  {
    hide Fallen;
    ChainedTops();
    ChainedClosures();
    assert Tops(Chained(), ["b", "a"], 0) == {};
  }

  lemma ChainedClosures()
    ensures "p" in Fallen(Chained(), {"o"}) && "o" !in Fallen(Chained(), {"p"})
  {
    var c := Chained();
    DistinctNames();
    assert IsActive(c, "p") && "o" in c.decisions["p"].parents;
    assert ("o", "p") in DependentEdges(c);
    assert Closed(DependentEdges(c), {"p"});
    ClosureUnique(DependentEdges(c), {"p"}, {"p"});
  }

  // ----- backjumping out of a child scope -----

  /** Scope "t" depends on "s" with INVALIDATE; "e" in "u" rests on "b" in "t", which "u" depends on
      with IGNORE. */
  function Neighbours(): Calculus {
    Plain(map["a" := Choice("a", Active, {}, "s", false), "b" := Choice("b", Active, {}, "t", false),
              "e" := Choice("e", Active, {"b"}, "u", false)],
          [Rests("e", "b")],
          map[ROOT := TopScope(), "s" := SubScope(), "t" := SubScope(), "u" := SubScope()],
          map[ROOT := NO_MODEL, "s" := map["a" := "a"], "t" := map["b" := "b"], "u" := map["e" := "e"]]).(
    scopeDeps := map["st" := ScopeDependency("s", "t", Invalidate), "tu" := ScopeDependency("t", "u", Ignore)],
    conflicts := map["k" := Conflict(AssumptionConflict, {"v"}, map["s::a" := "a"], Explained, {"x"}, {}, None, None, "s")],
    explanations := map["x" := Explanation("k", [Literal("a", EQ, "1", Some("a"))], {"v"}, Validated, Unset, false, "s")])
  }

  function NeighboursPlan(): BackjumpPlan {
    BackjumpPlan("k", "x", Some("a"), {"a"}, {}, {})
  }

  lemma AloneBelow(c: Calculus, a: Id)
    requires a in c.decisions && forall d :: d in c.decisions ==> a !in c.decisions[d].parents
    requires forall e :: e in c.edges ==> e.src != a
    ensures Descendants(c, a) == {a}
  {
    assert Closed(DependentEdges(c), {a});
    ClosureUnique(DependentEdges(c), {a}, {a});
  }

  lemma OwnRoot(c: Calculus, a: Id)
    requires a in c.decisions && !c.decisions[a].kind.Derived?
    ensures Roots(c, a) == {a}
  {
    assert Closed(DerivationEdges(c), {a});
    ClosureUnique(DerivationEdges(c), {a}, {a});
  }

  lemma NeighboursJump()
    ensures var c := Neighbours();
      IsPlan(c, "k", "x", NeighboursPlan())
  {
    hide Roots, Descendants, Indexed;
    var c := Neighbours();
    DistinctNames();
    AloneBelow(c, "a");
    OwnRoot(c, "a");
    var literals := c.explanations["x"].literals;
    assert Literal("a", EQ, "1", Some("a")) in literals;
    assert ExplainedRoots(c, literals) == {"a"};
    assert RevisableRoots(c, literals) == {"a"};
    IdLeqTotal("a", "a");
    assert ImpactedPlanNodes(c, {"a"}, {}) == {};
  }

  lemma NeighboursTaken()
    ensures var c := Neighbours();
      SaneDependencies(c.scopes, c.scopeDeps) && "t" in TakenScopes(c, "a") && "u" !in TakenScopes(c, "a")
  {
    hide Subtree, Impacted, InvalidatedScopes;
    var c := Neighbours();
    DistinctNames();
    SoleScope(c.scopes, "s");
    SoleScope(c.scopes, "t");
    OriginImpacted(c.scopes, c.scopeDeps, "s");
    assert c.scopeDeps["st"] == ScopeDependency("s", "t", Invalidate);
    TakenDownstream(c.scopes, c.scopeDeps, "st");
    NotTaken(c.scopes, c.scopeDeps, "s", "st", "u");
  }

  lemma TakenDownstream(scopes: map<Id, Scope>, deps: map<Id, ScopeDependency>, k: Id)
    requires k in deps && deps[k].policy.Invalidate?
    requires deps[k].upstream in Impacted(scopes, deps, deps[k].upstream)
    ensures deps[k].downstream in InvalidatedScopes(scopes, deps, deps[k].upstream)
  {
    hide Impacted;
    assert deps[k].downstream in Subtree(scopes, deps[k].downstream);
  }

  /** With one INVALIDATE dependency, only the two subtrees are taken. */
  lemma NotTaken(scopes: map<Id, Scope>, deps: map<Id, ScopeDependency>, origin: Id, k: Id, u: Id)
    requires k in deps && forall m :: m in deps && deps[m].policy.Invalidate? ==> m == k
    requires u !in Subtree(scopes, origin) && u !in Subtree(scopes, deps[k].downstream)
    ensures u !in InvalidatedScopes(scopes, deps, origin)
  {
    hide Subtree, Impacted;
  }

  lemma OriginImpacted(scopes: map<Id, Scope>, deps: map<Id, ScopeDependency>, origin: Id)
    ensures origin in Impacted(scopes, deps, origin)
  {
    assert origin in Subtree(scopes, origin);
  }

  lemma SoleScope(scopes: map<Id, Scope>, s: Id)
    requires forall t :: t in scopes ==> scopes[t].parent != Some(s)
    ensures Subtree(scopes, s) == {s}
  {
    assert Closed(ScopeTree(scopes), {s});
    ClosureUnique(ScopeTree(scopes), {s}, {s});
  }

  lemma NeighboursSound()
    ensures Sound(Neighbours()) && Simple(Neighbours())
  {
    hide CommitChecks;
    DistinctNames();
    NeighboursSlots();
    NeighboursSimple();
    SimpleCommits(Neighbours());
  }

  lemma NeighboursSlots()
    ensures Indexed(Neighbours()) && ParentsActive(Neighbours())
  {
    hide SlotsSound, SlotsComplete;
    DistinctNames();
    assert SlotsSound(Neighbours()) by { NeighboursSlotsSound(); }
    assert SlotsComplete(Neighbours()) by { NeighboursSlotsComplete(); }
  }

  lemma NeighboursSlotsSound()
    ensures SlotsSound(Neighbours())
  {
    DistinctNames();
  }

  lemma NeighboursSlotsComplete()
    ensures SlotsComplete(Neighbours())
  {
    DistinctNames();
  }

  lemma NeighboursSimple()
    ensures Simple(Neighbours()) && EdgesWritten(Neighbours()) && SaneDependencies(Neighbours().scopes, Neighbours().scopeDeps)
  {
    hide Flat, Disjoint, ParentsFlow, ScopesKnown;
    NeighboursFlat();
    NeighboursScopes();
    NeighboursFlow();
    NeighboursEdges();
  }

  lemma NeighboursFlat()
    ensures Flat(Neighbours()) && Disjoint(Neighbours())
  {
    DistinctNames();
  }

  lemma NeighboursScopes()
    ensures ScopesKnown(Neighbours()) && SaneDependencies(Neighbours().scopes, Neighbours().scopeDeps)
  {
    DistinctNames();
  }

  lemma NeighboursEdges()
    ensures EdgesWritten(Neighbours())
  {
    DistinctNames();
  }

  lemma NeighboursFlow()
    ensures ParentsFlow(Neighbours())
  {
    DistinctNames();
    var c := Neighbours();
    assert "tu" != "st" by { assert "tu"[0] != "st"[0]; }
    assert c.scopeDeps["tu"] == ScopeDependency("t", "u", Ignore);
    assert Upstream(c, "t", "u");
  }

  lemma NeighboursExplained()
    ensures var c := Neighbours(); ExplanationValid(c, c.explanations["x"])
  {
    assert ScopedKey("s", "a") == "s::a" by { DistinctNames(); assert "s" + "::" + "a" == "s::a"; }
    var e := Neighbours().explanations["x"];
    forall l, m | l in e.literals && m in e.literals ensures l == m {
      assert l == e.literals[0] && m == e.literals[0];
    }
  }

  /** A backjump whose pivot lies in a child scope takes whole scopes along without closing them
      under dependents again, and can leave an ACTIVE decision without its parent
      (`Recovery.RecoveryKeepsIndexes`). */
  lemma BackjumpCanOrphan() returns (c': Calculus)
    ensures var c := Neighbours();
      Sound(c) && Jumps(c, "k", Some("x"), 1, c') && CommitChecks(c') && !ParentsActive(c')
  {
    hide TakenScopes, DoubtedScopes, Settled, Recovered, Indexed, IsPlan, CommitChecks, Simple, WidenedPlan, ParentsActive,
      ExplanationValid, Violated;
    var c, plan := Neighbours(), NeighboursPlan();
    DistinctNames();
    NeighboursSound();
    NeighboursExplained();
    NeighboursJump();
    WidenedApplicable(c, "k", "x", plan);
    NeighboursOrphan();
    var after := Recovered(c, plan, 1);
    c' := Settled(after);
    NeighboursCommits();
    SettledKeepsIndexes(after);
    assert Violated(after) == {} by { NoViolation(after); }
    assert IsJump(c, "k", Some("x"), plan);
    assert JumpsAlong(c, plan, 1, c', WidenedPlan(c, plan));
  }

  lemma NoViolation(c: Calculus)
    requires c.constraints == map[]
    ensures Violated(c) == {}
  {
  }

  lemma NeighboursOrphan()
    ensures var c, plan := Neighbours(), NeighboursPlan();
      Applicable(c, WidenedPlan(c, plan)) && !ParentsActive(Settled(Recovered(c, plan, 1)))
  {
    hide TakenScopes, DoubtedScopes, Settled, Recovered, Indexed, IsPlan, CommitChecks, Simple, ParentsActive, EdgesWritten;
    var c, plan := Neighbours(), NeighboursPlan();
    DistinctNames();
    NeighboursSound();
    NeighboursJump();
    NeighboursTaken();
    WidenedApplicable(c, "k", "x", plan);
    RecoveryKeepsIndexes(c, "k", "x", plan, 1);
    assert IsActive(c, "e") && "b" in c.decisions["e"].parents;
    assert IsActive(c, "b") && "b" in WidenedPlan(c, plan).invalidated;
    assert "e" !in WidenedPlan(c, plan).invalidated;
  }

  lemma NeighboursCommits()
    ensures var c, plan := Neighbours(), NeighboursPlan();
      && Applicable(c, WidenedPlan(c, plan)) && Recovered(c, plan, 1).constraints == map[]
      && CommitChecks(Settled(Recovered(c, plan, 1)))
  {
    hide IsPlan, Simple, WidenedPlan, Indexed, CommitChecks, Flat, ParentsActive, EdgesWritten, Settled;
    var c, plan := Neighbours(), NeighboursPlan();
    NeighboursSound();
    NeighboursJump();
    WidenedApplicable(c, "k", "x", plan);
    SimpleRecoveryCommits(c, plan, 1);
  }

  lemma SimpleRecoveryCommits(c: Calculus, plan: BackjumpPlan, sequence: nat)
    requires Indexed(c) && Simple(c) && SaneDependencies(c.scopes, c.scopeDeps) && c.obligations == map[]
    requires plan.pivot.Some? && IsActive(c, plan.pivot.value) && Applicable(c, WidenedPlan(c, plan))
    ensures Recovered(c, plan, sequence).constraints == map[]
    ensures CommitChecks(Settled(Recovered(c, plan, sequence)))
  {
    hide TakenScopes, DoubtedScopes, Settled, Indexed, CommitChecks, Retires, WidenedPlan, Recovered, Disjoint, ParentsFlow,
      ScopesKnown, Flat;
    RecoveryRetires(c, plan, sequence);
    RecoveredFlat(c, plan, sequence);
    RetiredCommits(c, Recovered(c, plan, sequence), WidenedPlan(c, plan).invalidated);
  }

  lemma RecoveredFlat(c: Calculus, plan: BackjumpPlan, sequence: nat)
    requires Flat(c) && plan.pivot.Some? && plan.pivot.value in c.decisions && Applicable(c, WidenedPlan(c, plan))
    requires Indexed(Recovered(c, plan, sequence)) && c.obligations == map[] && c.constraints == map[] && c.locks == map[]
    ensures var c' := Recovered(c, plan, sequence);
      && Mirror(c') && Flat(c') && c'.scopeDeps == c.scopeDeps && c'.constraints == map[] && c'.locks == map[]
      && c'.obligations == map[] && c'.explanations == c.explanations && c'.conflicts.Keys == c.conflicts.Keys
      && forall k :: k in c.conflicts ==> c'.conflicts[k].scope == c.conflicts[k].scope
  {
    hide TakenScopes, DoubtedScopes, WidenedPlan;
    assert Recovered(c, plan, sequence).obligations == map[];
  }
}
