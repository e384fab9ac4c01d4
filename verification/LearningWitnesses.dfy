/** Runs of a few committed steps in which learning forgets, and in which the backjump after it is
    refused. */
module LearningWitnesses {
  import opened Foundations
  import opened CalculusModel
  import opened Scopes
  import opened Conditions
  import opened Shrinking
  import opened Knowledge
  import opened DecisionGraph
  import opened Backjump
  import opened Locks
  import opened ScopeImpact
  import opened Activation
  import opened Commits
  import opened Engine
  import opened Search
  import opened Runs
  import opened Revision
  import opened Progress
  import opened SimpleStates
  import opened Witnesses

  // ----- subsumption across scopes -----

  function GivenD(): Literal {
    Literal("d", EQ, "1", Some("d"))
  }

  function GivenE(): Literal {
    Literal("e", EQ, "1", Some("e"))
  }

  function Raised(explanations: set<Id>, scope: Id): Conflict {
    Conflict(AssumptionConflict, {"v"}, map["d" := "d", "e" := "e"], Explained, explanations, {}, None, None, scope)
  }

  function Because(conflict: Id, literals: seq<Literal>, scope: Id): Explanation {
    Explanation(conflict, literals, {"v"}, Validated, Unset, false, scope)
  }

  /** Two root decisions. A conflict at the root is explained by "d" alone ("x") and by both ("y"), one in
      scope "s" by "d" alone ("z"). */
  function Informed(): Calculus {
    Plain(map["d" := Choice("d", Active, {}, ROOT, false), "e" := Choice("e", Active, {}, ROOT, false)],
          [], map[ROOT := TopScope(), "s" := SubScope()],
          map[ROOT := map["d" := "d", "e" := "e"], "s" := NO_MODEL]).(
    conflicts := map["r" := Raised({"x", "y"}, ROOT), "q" := Raised({"z"}, "s")],
    explanations := map["x" := Because("r", [GivenD()], ROOT), "y" := Because("r", [GivenD(), GivenE()], ROOT),
                        "z" := Because("q", [GivenD()], "s")])
  }

  lemma InformedNames()
    ensures "r" != "q" && "x" != "y" && "x" != "z" && "y" != "z" && "m" != "n" && "d" != "e" && "s" != ROOT
  {
    DistinctNames();
    assert "r"[0] != "q"[0] && "x"[0] != "y"[0] && "x"[0] != "z"[0] && "y"[0] != "z"[0] && "m"[0] != "n"[0];
  }

  lemma InformedSound()
    ensures Sound(Informed()) && Simple(Informed())
  {
    hide CommitChecks, Simple, EdgesWritten, Indexed, ParentsActive;
    InformedSlots();
    InformedSimple();
    SimpleCommits(Informed());
  }

  lemma InformedSlots()
    ensures Indexed(Informed()) && ParentsActive(Informed())
  {
    hide SlotsSound, SlotsComplete;
    InformedNames();
    assert SlotsSound(Informed()) by { InformedSlotsSound(); }
    assert SlotsComplete(Informed()) by { InformedSlotsComplete(); }
  }

  lemma InformedSlotsSound()
    ensures SlotsSound(Informed())
  {
    InformedNames();
  }

  lemma InformedSlotsComplete()
    ensures SlotsComplete(Informed())
  {
    InformedNames();
  }

  lemma InformedSimple()
    ensures Simple(Informed()) && EdgesWritten(Informed())
  {
    hide ScopesKnown, EdgesWritten;
    InformedNames();
    InformedScopes();
    InformedEdges();
  }

  lemma InformedEdges()
    ensures EdgesWritten(Informed())
  {
    InformedNames();
  }

  lemma InformedScopes()
    ensures ScopesKnown(Informed())
  {
    InformedNames();
  }

  lemma InformedValues()
    ensures var v := EffectiveValues(Informed(), ROOT);
      "d" in v && v["d"] == "1" && "e" in v && v["e"] == "1"
  {
    hide EffectiveValues, Flat;
    InformedNames();
    assert Flat(Informed()) by { InformedSimple(); SimpleIsFlat(Informed()); }
    FlatValue(Informed(), ROOT, "d");
    FlatValue(Informed(), ROOT, "e");
  }

  lemma SimpleIsFlat(c: Calculus)
    requires Simple(c)
    ensures Flat(c)
  {
  }

  lemma BecauseValid(c: Calculus, e: Explanation)
    requires c.decisions == Informed().decisions && e.conflict in c.conflicts
    requires c.conflicts[e.conflict].snapshot == map["d" := "d", "e" := "e"] && c.conflicts[e.conflict].evidence == {"v"}
    requires e == Because(e.conflict, [GivenD()], e.scope) || e == Because(e.conflict, [GivenD(), GivenE()], e.scope)
    ensures ExplanationValid(c, e)
  {
    InformedNames();
    forall l | l in e.literals ensures l == GivenD() || l == GivenE() {
    }
    assert Grounded(c, c.conflicts[e.conflict].snapshot, GivenD());
    assert Grounded(c, c.conflicts[e.conflict].snapshot, GivenE());
  }

  /** A valid explanation can be learned from under a fresh name, and the commit accepts it. */
  lemma LearnOnce(c: Calculus, eid: Id, kid: Id, at: nat) returns (c': Calculus)
    requires CommitChecks(c) && eid in c.explanations && ExplanationValid(c, c.explanations[eid])
    requires c.explanations[eid].literals != [] && kid !in c.constraints
    ensures LearnsFrom(c, eid, kid, Hard, at, c') && CommitChecks(c') && SameProjection(c, c')
    ensures c'.explanations == c.explanations && c'.decisions == c.decisions && SameCases(c, c')
    ensures c.explanations[eid].conflict in c.conflicts
    ensures c.constraints == map[] ==> c'.constraints == map[kid := Projected(c, eid, Hard, at)]
  {
    hide CommitChecks, Subsumes, Consistent, Grounded;
    c' := LearningExists(c, kid, Projected(c, eid, Hard, at));
    LearningCommits(c, c', eid, kid, Hard, at);
  }

  /** The conflicts are those there were, whatever has become of them. */
  ghost predicate SameCases(c: Calculus, c': Calculus) {
    c'.conflicts.Keys == c.conflicts.Keys
    && forall k :: k in c.conflicts ==>
      && c'.conflicts[k].kind == c.conflicts[k].kind && c'.conflicts[k].snapshot == c.conflicts[k].snapshot
      && c'.conflicts[k].evidence == c.conflicts[k].evidence
  }

  /** What is learned HARD from such an explanation. */
  function Ruled(conflict: Id, eid: Id, body: set<Literal>, scope: Id, sequence: nat): Constraint {
    Constraint(body, Const(true), Hard, ActiveConstraint, ByValidation, conflict, eid, {"v"}, scope, sequence, None)
  }

  lemma InformedCases(c: Calculus)
    requires c.decisions == Informed().decisions && c.explanations == Informed().explanations && SameCases(Informed(), c)
    ensures c.explanations.Keys == {"x", "y", "z"} && c.explanations["x"].scope == ROOT
    ensures forall e :: e in c.explanations ==>
      ExplanationValid(c, c.explanations[e]) && c.explanations[e].literals != []
      && c.explanations[e].conflict in c.conflicts
    ensures forall sequence :: Projected(c, "x", Hard, sequence) == Ruled("r", "x", {GivenD()}, ROOT, sequence)
    ensures forall sequence :: Projected(c, "y", Hard, sequence) == Ruled("r", "y", {GivenD(), GivenE()}, ROOT, sequence)
    ensures forall sequence :: Projected(c, "z", Hard, sequence) == Ruled("q", "z", {GivenD()}, "s", sequence)
  {
    hide ExplanationValid;
    InformedNames();
    BecauseValid(c, c.explanations["x"]);
    BecauseValid(c, c.explanations["y"]);
    BecauseValid(c, c.explanations["z"]);
    assert Assumptions(Because("r", [GivenD()], ROOT)) == {GivenD()} == Assumptions(Because("q", [GivenD()], "s"));
    assert Assumptions(Because("r", [GivenD(), GivenE()], ROOT)) == {GivenD(), GivenE()};
  }

  /** The two steps: learning from `first` and then from `second`. */
  lemma LearnTwice(first: Id, second: Id) returns (c: Calculus, c': Calculus)
    requires first in {"x", "y", "z"} && second in {"x", "y", "z"}
    ensures LearnsFrom(Informed(), first, "m", Hard, 1, c) && LearnsFrom(c, second, "n", Hard, 2, c')
    ensures CommitChecks(c) && CommitChecks(c') && SameProjection(Informed(), c')
    ensures first in Informed().explanations && Informed().explanations[first].conflict in Informed().conflicts
    ensures c.constraints == map["m" := Projected(Informed(), first, Hard, 1)]
    ensures c.decisions == Informed().decisions && c.explanations == Informed().explanations && SameCases(Informed(), c)
  {
    hide CommitChecks, ExplanationValid, LearnsFrom, SameProjection, Sound, SameCases;
    InformedNames();
    var base := Informed();
    assert CommitChecks(base) by { InformedSound(); SoundCommits(base); }
    assert SameCases(base, base) by { SameCasesItself(base); }
    InformedCases(base);
    c := LearnOnce(base, first, "m", 1);
    InformedCases(c);
    c' := LearnOnce(c, second, "n", 2);
    assert SameProjection(base, c') by { ProjectionChain(base, c, c'); }
  }

  lemma SameCasesItself(c: Calculus)
    ensures SameCases(c, c)
  {
  }

  lemma ProjectionChain(a: Calculus, b: Calculus, c: Calculus)
    requires SameProjection(a, b) && SameProjection(b, c)
    ensures SameProjection(a, c)
  {
  }

  lemma SoundCommits(c: Calculus)
    requires Sound(c)
    ensures CommitChecks(c)
  {
  }

  /** Two committed steps after which a no-good learned for the root is not enforced there, because a child
      scope knew it already: the root's own valuation violates what was learned, and is not excluded
      (`Knowledge.CoveredLearningExactly`). */
  lemma LearningCanForget() returns (c: Calculus, c': Calculus)
    ensures Sound(Informed()) && CommitChecks(c) && CommitChecks(c')
    ensures LearnsFrom(Informed(), "z", "m", Hard, 1, c) && LearnsFrom(c, "x", "n", Hard, 2, c')
    ensures var v := EffectiveValues(c', ROOT);
      && "x" in c.explanations && c.explanations["x"].conflict in c.conflicts && c.explanations["x"].scope == ROOT
      && ConstraintViolated(Projected(c, "x", Hard, 2), v) && !Excluded(c', ROOT, v)
  {
    hide LearnsFrom, CommitChecks, EffectiveValues, Sound, LiteralKeys, Informed, SameCases, SameProjection, Projected,
      ConstraintViolated, Excluded, Covers, Ruled;
    InformedSound();
    InformedValues();
    assert SameCases(Informed(), Informed()) by { SameCasesItself(Informed()); }
    InformedCases(Informed());
    c, c' := LearnTwice("z", "x");
    InformedCases(c);
    EffectiveFrame(Informed(), c', ROOT);
    var v := EffectiveValues(c', ROOT);
    LearnsMeans(c, "x", "n", 2, c');
    TakesBothValues(v);
    OwnCover();
    ForeignCover(c, c', Ruled("q", "z", {GivenD()}, "s", 1), Ruled("r", "x", {GivenD()}, ROOT, 2), v);
  }

  lemma OwnCover()
    ensures Covers(Ruled("q", "z", {GivenD()}, "s", 1), Ruled("r", "x", {GivenD()}, ROOT, 2))
    ensures Ruled("q", "z", {GivenD()}, "s", 1).scope != ROOT
  {
    InformedNames();
  }

  lemma TakesBothValues(v: Values)
    requires "d" in v && v["d"] == "1" && "e" in v && v["e"] == "1"
    ensures forall conflict, eid, scope, at :: ConstraintViolated(Ruled(conflict, eid, {GivenD()}, scope, at), v)
    ensures forall conflict, eid, scope, at :: ConstraintViolated(Ruled(conflict, eid, {GivenD(), GivenE()}, scope, at), v)
  {
  }

  /** A no-good of another scope that covers the new one keeps it from being enforced. */
  lemma ForeignCover(c: Calculus, c': Calculus, known: Constraint, k: Constraint, v: Values)
    requires c.constraints == map["m" := known] && Learns(c, c', "n", k)
    requires Covers(known, k) && known.scope != ROOT
    ensures !Excluded(c', ROOT, v)
  {
    hide Learns, Covers, ConstraintViolated;
    assert c.constraints["m"] == known;
    assert Covered(c.constraints, k);
    CoveredLearningExactly(c, c', "n", k, ROOT, v);
  }

  /** A no-good of another scope retires one that it overtakes. */
  lemma ForeignOvertaking(c: Calculus, c': Calculus, known: Constraint, k: Constraint, v: Values)
    requires c.constraints == map["m" := known] && Learns(c, c', "n", k)
    requires Overtakes(k, known) && k.scope != ROOT && known.scope == ROOT && ConstraintViolated(known, v)
    ensures Excluded(c, ROOT, v) && !Excluded(c', ROOT, v)
  {
    hide Learns, ConstraintViolated, LiteralKeys;
    assert c.constraints["m"] == known;
    assert !(LiteralKeys(known.body) <= LiteralKeys(k.body));
    assert !Covers(known, k);
    assert !Covered(c.constraints, k);
    LearningExactly(c, c', "n", k, ROOT, v);
  }

  lemma LearnsMeans(c: Calculus, eid: Id, kid: Id, sequence: nat, c': Calculus)
    requires LearnsFrom(c, eid, kid, Hard, sequence, c')
    ensures eid in c.explanations && c.explanations[eid].conflict in c.conflicts
    ensures Learns(c, c', kid, Projected(c, eid, Hard, sequence))
  {
  }

  /** Two committed steps after which the root allows again what it excluded: a no-good learned for a child
      scope retires a wider one of the root (`Knowledge.LearningExactly`). */
  lemma LearningCanRetire() returns (c: Calculus, c': Calculus)
    ensures Sound(Informed()) && CommitChecks(c) && CommitChecks(c')
    ensures LearnsFrom(Informed(), "y", "m", Hard, 1, c) && LearnsFrom(c, "z", "n", Hard, 2, c')
    ensures var v := EffectiveValues(c', ROOT); Excluded(c, ROOT, v) && !Excluded(c', ROOT, v)
  {
    hide LearnsFrom, CommitChecks, EffectiveValues, Sound, LiteralKeys, Informed, SameCases, SameProjection, Projected,
      ConstraintViolated, Excluded;
    InformedNames();
    InformedSound();
    InformedValues();
    assert SameCases(Informed(), Informed()) by { SameCasesItself(Informed()); }
    InformedCases(Informed());
    c, c' := LearnTwice("y", "z");
    InformedCases(c);
    EffectiveFrame(Informed(), c', ROOT);
    var v := EffectiveValues(c', ROOT);
    WiderBody();
    LearnsMeans(c, "z", "n", 2, c');
    TakesBothValues(v);
    ForeignOvertaking(c, c', Ruled("r", "y", {GivenD(), GivenE()}, ROOT, 1), Ruled("q", "z", {GivenD()}, "s", 2), v);
  }

  lemma WiderBody()
    ensures LiteralKeys({GivenD()}) < LiteralKeys({GivenD(), GivenE()})
  {
    InformedNames();
    assert GivenD() in {GivenD(), GivenE()} && GivenE() in {GivenD(), GivenE()};
    assert ("e", EQ, "1") in LiteralKeys({GivenD(), GivenE()});
  }

  // ----- invalidated evidence -----

  /** Two committed steps after which the root's own valuation, ruled out by the first, is open again: the
      evidence of the no-good was invalidated (`Revision.ExpiryExactly`). */
  lemma ExpiryReopens() returns (c: Calculus, c': Calculus)
    ensures Sound(Informed()) && CommitChecks(c) && CommitChecks(c')
    ensures LearnsFrom(Informed(), "x", "m", Hard, 1, c) && Takes(c, ExpireStep("v"), 2, c')
    ensures var v := EffectiveValues(c', ROOT); Excluded(c, ROOT, v) && !Excluded(c', ROOT, v)
  {
    hide LearnsFrom, CommitChecks, EffectiveValues, Sound, Informed, SameCases, SameProjection, Projected, Excluded,
      ConstraintViolated, ExplanationValid, WithoutEvidence;
    InformedSound();
    SoundCommits(Informed());
    InformedValues();
    SameCasesItself(Informed());
    InformedCases(Informed());
    InformedFresh();
    c := LearnOnce(Informed(), "x", "m", 1);
    c' := WithoutEvidence(c, "v");
    TakesBothValues(EffectiveValues(Informed(), ROOT));
    EffectiveFrame(Informed(), c, ROOT);
    ExpiryKeepsValues(c, "v");
    SoleExpires(c, Ruled("r", "x", {GivenD()}, ROOT, 1), EffectiveValues(c, ROOT));
    ExpiryCommitsExactly(c, "v");
  }

  lemma InformedFresh()
    ensures Informed().constraints == map[]
  {
  }

  lemma ExpiryKeepsValues(c: Calculus, evidence: Id)
    ensures EffectiveValues(WithoutEvidence(c, evidence), ROOT) == EffectiveValues(c, ROOT)
  {
    EffectiveFrame(c, WithoutEvidence(c, evidence), ROOT);
  }

  lemma SoleExpires(c: Calculus, k: Constraint, v: Values)
    requires c.constraints == map["m" := k] && "v" in k.evidence && k.scope == ROOT && ConstraintViolated(k, v)
    ensures Excluded(c, ROOT, v) && !Excluded(WithoutEvidence(c, "v"), ROOT, v) && ExpiryTolerated(c, "v")
  {
    hide ConstraintViolated, ViolatedBelow;
    assert c.constraints["m"] == k;
    ExpiryExactly(c, "v", ROOT, v);
  }

  // ----- a refused backjump -----

  /** The root takes x = 1, and scope "s" takes it for itself, by an explicit override. */
  function Doubled(): Calculus {
    Plain(map["d" := Choice("x", Active, {}, ROOT, false),
              "e" := Choice("x", Active, {}, "s", false).(overrides := true)],
          [], map[ROOT := TopScope(), "s" := SubScope()],
          map[ROOT := map["x" := "d"], "s" := map["x" := "e"]])
  }

  function TakenX(): Literal {
    Literal("x", EQ, "1", Some("d"))
  }

  function Blame(): Explanation {
    Because("k", [TakenX()], ROOT)
  }

  function DoubledRaised(): Calculus {
    Doubled().(conflicts := map["k" := Conflict(AssumptionConflict, {"v"}, map["x" := "d"], Open, {}, {}, None, None, ROOT)])
  }

  function DoubledExplained(): Calculus {
    DoubledRaised().(
    explanations := map["w" := Blame()],
    conflicts := map["k" := WithExplanation(DoubledRaised().conflicts["k"], "w", Blame())])
  }

  lemma DoubledSound()
    ensures Sound(Doubled()) && Steady(Doubled()) && FlowsDown(Doubled())
  {
    hide Indexed, ParentsActive, Flat, EdgesWritten, ParentsFlow, ScopesKnown, FlowsLegal, OverridesRespected,
      IdleScopesEmpty, FlowsDown;
    var c := Doubled();
    DoubledSlots();
    DoubledFlat();
    FlowsInSimple(c);
    DoubledOverrides();
    OverridesInFlat(c);
    assert KnowledgeRespected(c) && ReferencesKnown(c) && LocksSound(c);
  }

  lemma DoubledSlots()
    ensures Indexed(Doubled()) && ParentsActive(Doubled())
  {
    hide SlotsSound, SlotsComplete;
    DistinctNames();
    assert SlotsSound(Doubled()) by { DoubledSlotsSound(); }
    assert SlotsComplete(Doubled()) by { DoubledSlotsComplete(); }
  }

  lemma DoubledSlotsSound()
    ensures SlotsSound(Doubled())
  {
    DistinctNames();
  }

  lemma DoubledSlotsComplete()
    ensures SlotsComplete(Doubled())
  {
    DistinctNames();
  }

  lemma DoubledFlat()
    ensures Flat(Doubled()) && EdgesWritten(Doubled()) && ParentsFlow(Doubled()) && ScopesKnown(Doubled())
    ensures FlowsDown(Doubled())
  {
    DistinctNames();
  }

  lemma DoubledOverrides()
    ensures var c := Doubled(); forall s, x :: s in c.models && s != ROOT && x in c.models[s] && x in c.activeModel ==>
      c.models[s][x] in c.decisions && c.decisions[c.models[s][x]].overrides
  {
    DistinctNames();
  }

  /** The conflict is raised at the root, explained by "d" and learned from. */
  lemma DoubledLearned() returns (learned: Calculus)
    ensures LearnedFrom(Doubled(), "k", DoubledRaised(), "w", Blame(), DoubledExplained(), "n", 1, learned)
    ensures Enforced(learned, "n")
  {
    hide LearnsFrom, EffectiveDecisions, CommitChecks, ExplanationValid, IsCanonicalSnapshot, Violated, Sound, Steady,
      FlowsDown;
    DistinctNames();
    var c, raised, explained := Doubled(), DoubledRaised(), DoubledExplained();
    DoubledSound();
    SoundCommits(c);
    DoubledSnapshot();
    BlameValid(raised);
    BlameValid(explained);
    RaisingCommits(c, "k", ROOT, raised);
    ExplainingCommits(raised, "w", Blame(), explained);
    learned := LearnOnce(explained, "w", "n", 1);
    NoViolation(c);
  }

  lemma DoubledSnapshot()
    ensures IsCanonicalSnapshot(Doubled(), ROOT, map["x" := "d"])
  {
    hide EffectiveDecisions;
    DistinctNames();
    DoubledFlat();
    RootChain(Doubled());
    assert EffectiveDecisions(Doubled(), ROOT)["x"] == "d";
  }

  lemma BlameValid(c: Calculus)
    requires c.decisions == Doubled().decisions && "k" in c.conflicts
    requires c.conflicts["k"].snapshot == map["x" := "d"] && c.conflicts["k"].evidence == {"v"}
    ensures ExplanationValid(c, Blame())
  {
    DistinctNames();
    assert forall l :: l in Blame().literals ==> l == TakenX();
    assert Grounded(c, c.conflicts["k"].snapshot, TakenX());
  }

  /** A conflict on a clean committed state, raised, explained and learned from in committed steps, whose
      backjump passes its own check and is refused by the commit: "s" still takes x = 1
      (`Progress.RoundCanFinish`). */
  lemma BackjumpCanBeRefused() returns (learned: Calculus, plan: BackjumpPlan, c': Calculus)
    ensures Sound(Doubled()) && CommitChecks(learned)
    ensures LearnedFrom(Doubled(), "k", DoubledRaised(), "w", Blame(), DoubledExplained(), "n", 1, learned)
    ensures IsJump(learned, "k", Some("w"), plan) && Jumps(learned, "k", Some("w"), 2, c')
    ensures !CommitAdmits(Normalised(c'))
  {
    hide Steady, ParentsActive, FlowsDown, CommitChecks, LearnedFrom, Jumps, CommitAdmits, IsJump, Indexed, Enforced,
      StillGiven, EdgesWritten, RevisableRoots, SaneDependencies;
    var c := Doubled();
    DoubledSound();
    learned := DoubledLearned();
    DoubledRevisable();
    plan, c' := RoundCanFinish(c, "k", DoubledRaised(), "w", Blame(), DoubledExplained(), "n", 1, learned, 2);
    LearnedCommits(c, "k", DoubledRaised(), "w", Blame(), DoubledExplained(), "n", 1, learned);
    LearnedStructure(c, "k", DoubledRaised(), "w", Blame(), DoubledExplained(), "n", 1, learned);
    DoubledPlan(learned, plan);
    DoubledStillGiven(learned, plan.invalidated);
  }

  lemma DoubledRevisable()
    ensures RevisableRoots(Doubled(), Blame().literals) == {"d"}
  {
    hide Roots;
    DistinctNames();
    OwnRoot(Doubled(), "d");
    assert TakenX() in Blame().literals;
    assert forall l :: l in Blame().literals ==> l == TakenX();
  }

  /** The plan takes out nothing but "d". */
  lemma DoubledPlan(c: Calculus, plan: BackjumpPlan)
    requires c == Doubled().(constraints := c.constraints, conflicts := c.conflicts, explanations := c.explanations)
    requires "w" in c.explanations && c.explanations["w"] == Blame() && IsJump(c, "k", Some("w"), plan)
    ensures plan.invalidated == {"d"}
  {
    hide Roots, Descendants, ExplanationValid, RevisableRoots, Indexed, ParentsActive, FlowsDown;
    DoubledRevisable();
    LearnedShape(Doubled(), c, Blame().literals);
    ChosenIsRequested(c, "k", "w", plan);
    assert plan.pivot.value == "d";
    DoubledAlone(c);
  }

  lemma DoubledAlone(c: Calculus)
    requires c.decisions == Doubled().decisions && c.edges == Doubled().edges
    ensures Descendants(c, "d") == {"d"}
  {
    DistinctNames();
    AloneBelow(c, "d");
  }

  lemma DoubledStillGiven(c: Calculus, gone: set<Id>)
    requires c == Doubled().(constraints := c.constraints, conflicts := c.conflicts, explanations := c.explanations)
    requires gone == {"d"}
    ensures StillGiven(c, gone, Blame(), "s")
  {
    hide EffectiveDecisions, SurvivorsIn, Lineage;
    DistinctNames();
    DoubledFlat();
    FlatKept(Doubled(), c);
    FlatLineage(c, "s");
    FlatDecisions(c, "s");
    KeptEffective(c, gone, "s", "x");
    assert ROOT == [ROOT, "s"][0];
    assert IsActive(c, "e") && c.decisions["e"].value == "1";
    assert forall l :: l in Blame().literals ==> l == TakenX();
  }
}
