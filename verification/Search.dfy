/** The space that a conflict-driven search explores: the partial valuations of finitely many decisions,
    and what learning takes away from them. */
module Search {
  import opened Foundations
  import opened CalculusModel
  import opened Scopes
  import opened Conditions
  import opened Knowledge
  import opened ScopeImpact

  // ----- the finite space of valuations -----

  /** The values that decisions may give to each subject. */
  type Domain = map<Id, set<Value>>

  function Choices(domain: Domain, x: Id): set<Value> {
    if x in domain then domain[x] else {}
  }

  ghost function Extended(vs: set<Values>, x: Id, values: set<Value>): set<Values> {
    vs + set v, a | v in vs && a in values :: v[x := a]
  }

  /** All partial valuations of the given subjects. */
  ghost function Partial(subjects: seq<Id>, domain: Domain): set<Values>
  {
    if subjects == [] then {map[]}
    else Extended(Partial(subjects[1..], domain), subjects[0], Choices(domain, subjects[0]))
  }

  /** One more than the number of values, multiplied over the subjects. */
  ghost function Bound(subjects: seq<Id>, domain: Domain): nat
  {
    if subjects == [] then 1 else (|Choices(domain, subjects[0])| + 1) * Bound(subjects[1..], domain)
  }

  lemma {:induction false} ImageSize(vs: set<Values>, x: Id, values: set<Value>)
    ensures |set v, a | v in vs && a in values :: v[x := a]| <= |vs| * |values|
    decreases |values|
  {
    var image := set v, a | v in vs && a in values :: v[x := a];
    if values == {} {
      assert image == {};
    } else {
      var a :| a in values;
      var rest := set v, b | v in vs && b in values - {a} :: v[x := b];
      var single := set v | v in vs :: v[x := a];
      ImageSize(vs, x, values - {a});
      SingleSize(vs, x, a);
      forall w | w in image ensures w in rest + single {
        var v, b :| v in vs && b in values && w == v[x := b];
        assert b == a || b in values - {a};
      }
      assert image == rest + single;
      assert |vs| * |values| == |vs| * (|values| - 1) + |vs|;
      assert |values - {a}| == |values| - 1;
    }
  }

  lemma {:induction false} SingleSize(vs: set<Values>, x: Id, a: Value)
    ensures |set v | v in vs :: v[x := a]| <= |vs|
    decreases |vs|
  {
    var image := set v | v in vs :: v[x := a];
    if vs == {} {
      assert image == {};
    } else {
      var v :| v in vs;
      var rest := set w | w in vs - {v} :: w[x := a];
      SingleSize(vs - {v}, x, a);
      forall w | w in image ensures w in rest + {v[x := a]} {
        var u :| u in vs && w == u[x := a];
        assert u == v || u in vs - {v};
      }
      assert image == rest + {v[x := a]};
    }
  }

  lemma {:induction false} PartialSize(subjects: seq<Id>, domain: Domain)
    ensures |Partial(subjects, domain)| <= Bound(subjects, domain)
  {
    if subjects != [] {
      var x, vs := subjects[0], Partial(subjects[1..], domain);
      PartialSize(subjects[1..], domain);
      ImageSize(vs, x, Choices(domain, x));
      var image := set v, a | v in vs && a in Choices(domain, x) :: v[x := a];
      assert |vs + image| <= |vs| + |image|;
      OneMore(|Choices(domain, x)|, |vs|, Bound(subjects[1..], domain));
    }
  }

  lemma OneMore(k: nat, m: nat, n: nat)
    requires m <= n
    ensures m + m * k <= (k + 1) * n
  {
    assert m * k <= n * k;
  }

  ghost predicate Respects(v: Values, subjects: seq<Id>, domain: Domain)
  {
    forall x :: x in v ==> x in subjects && v[x] in Choices(domain, x)
  }

  lemma {:induction false} PartialComplete(v: Values, subjects: seq<Id>, domain: Domain)
    requires Respects(v, subjects, domain)
    ensures v in Partial(subjects, domain)
  {
    if subjects == [] {
      assert v == map[];
    } else {
      var x, tail := subjects[0], subjects[1..];
      var w := map y | y in v && y != x :: v[y];
      assert forall y :: y in subjects <==> y == x || y in tail;
      PartialComplete(w, tail, domain);
      if x in v {
        assert v == w[x := v[x]];
      } else {
        assert v == w;
      }
    }
  }

  // ----- what the search keeps -----

  /** Any other step: the indexes, the registered decisions and the learned knowledge stay. */
  ghost predicate Drifts(c: Calculus, c': Calculus) {
    && (Indexed(c) ==> Indexed(c')) && SameDecisions(c, c')
    && c'.constraints == c.constraints
    && c'.scopes.Keys == c.scopes.Keys && c'.scopeDeps == c.scopeDeps
  }

  /** What the search keeps. */
  ghost predicate Searching(c: Calculus, subjects: seq<Id>, domain: Domain)
  {
    && Indexed(c) && SaneDependencies(c.scopes, c.scopeDeps)
    && RootKnowledge(c) && HardIsNeverSoft(c)
    && forall d :: d in c.decisions && c.decisions[d].scope == ROOT ==>
         c.decisions[d].subject in subjects && c.decisions[d].value in Choices(domain, c.decisions[d].subject)
  }

  /** The valuations still open to the search. */
  ghost function Allowed(c: Calculus, space: set<Values>): set<Values> {
    set v | v in space && !Excluded(c, ROOT, v)
  }

  lemma RootValuation(c: Calculus, subjects: seq<Id>, domain: Domain)
    requires Searching(c, subjects, domain)
    ensures EffectiveValues(c, ROOT) in Partial(subjects, domain)
  {
    RootChain(c);
    forall x | x in EffectiveValues(c, ROOT)
      ensures x in subjects && EffectiveValues(c, ROOT)[x] in Choices(domain, x)
    {
      assert ROOT in c.models && x in c.models[ROOT];
    }
    PartialComplete(EffectiveValues(c, ROOT), subjects, domain);
  }

  lemma ExcludedIsViolated(c: Calculus)
    ensures Excluded(c, ROOT, EffectiveValues(c, ROOT)) ==> Violated(c) != {}
  {
    if Excluded(c, ROOT, EffectiveValues(c, ROOT)) {
      var k :| k in c.constraints && c.constraints[k].scope == ROOT
        && ConstraintViolated(c.constraints[k], EffectiveValues(c, ROOT));
      assert k in Violated(c);
    }
  }

  /** Exclusions depend on the constraints alone. */
  lemma ExclusionFrame(c: Calculus, c': Calculus, v: Values)
    requires c'.constraints == c.constraints
    ensures Excluded(c', ROOT, v) == Excluded(c, ROOT, v)
  {
  }

  lemma SearchingFrame(c: Calculus, c': Calculus, subjects: seq<Id>, domain: Domain)
    requires Searching(c, subjects, domain) && Indexed(c') && SameDecisions(c, c')
    requires c'.constraints == c.constraints
    requires c'.scopes.Keys == c.scopes.Keys && c'.scopeDeps == c.scopeDeps
    ensures Searching(c', subjects, domain)
  {
  }

  // ----- learning -----

  /** `learn_constraint` on a registered explanation. */
  ghost predicate LearnsFrom(c: Calculus, eid: Id, kid: Id, requested: Strength, sequence: nat, c': Calculus) {
    && eid in c.explanations && ExplanationValid(c, c.explanations[eid]) && c.explanations[eid].literals != []
    && Learns(c, c', kid, Projection(c, eid, c.explanations[eid], requested, sequence))
  }

  function Projected(c: Calculus, eid: Id, requested: Strength, sequence: nat): Constraint
    requires eid in c.explanations && c.explanations[eid].conflict in c.conflicts
  {
    Projection(c, eid, c.explanations[eid], requested, sequence)
  }

  lemma SoftLearningKeeps(c: Calculus, c': Calculus, kid: Id, k: Constraint, scope: Id, v: Values)
    requires Learns(c, c', kid, k) && k.strength.Soft?
    ensures Excluded(c, scope, v) ==> Excluded(c', scope, v)
  {
    hide LiteralKeys, ConditionHolds;
    if Excluded(c, scope, v) {
      var m :| m in c.constraints && c.constraints[m].scope == scope && ConstraintViolated(c.constraints[m], v);
      assert !Overtakes(k, c.constraints[m]);
      assert c'.constraints[m] == c.constraints[m];
    }
  }

  /** Learning at the root forgets no exclusion of the root; learning HARD adds what the new no-good
      excludes. */
  lemma LearningExcludes(c: Calculus, eid: Id, kid: Id, requested: Strength, sequence: nat, c': Calculus, v: Values)
    requires RootKnowledge(c) && HardIsNeverSoft(c) && LearnsFrom(c, eid, kid, requested, sequence, c')
    requires c.explanations[eid].scope == ROOT
    ensures Excluded(c, ROOT, v) || ConstraintViolated(Projected(c, eid, requested, sequence), v) ==> Excluded(c', ROOT, v)
  {
    hide Learns, ConstraintViolated, Excluded, HardIsNeverSoft, Assumptions;
    var k := Projected(c, eid, requested, sequence);
    if k.strength.Hard? {
      assert ComparableShareScope(c, k);
      LearningKeepsExclusions(c, c', kid, k, ROOT, v);
    } else {
      SoftLearningKeeps(c, c', kid, k, ROOT, v);
      SoftNeverViolated(k, v);
    }
  }

  lemma SoftNeverViolated(k: Constraint, v: Values)
    requires k.strength.Soft?
    ensures !ConstraintViolated(k, v)
  {
  }

  /** Learning at the root keeps what the search needs. */
  lemma LearnKeepsSearching(c: Calculus, eid: Id, kid: Id, requested: Strength, sequence: nat, c': Calculus,
                            subjects: seq<Id>, domain: Domain)
    requires Searching(c, subjects, domain) && Indexed(c') && LearnsFrom(c, eid, kid, requested, sequence, c')
    requires c.explanations[eid].scope == ROOT
    ensures Searching(c', subjects, domain)
  {
    hide Indexed, SaneDependencies, LiteralKeys;
    LearnKeepsKinds(c, eid, kid, requested, sequence, c');
  }

  lemma LearnKeepsKinds(c: Calculus, eid: Id, kid: Id, requested: Strength, sequence: nat, c': Calculus)
    requires RootKnowledge(c) && HardIsNeverSoft(c) && LearnsFrom(c, eid, kid, requested, sequence, c')
    requires c.explanations[eid].scope == ROOT
    ensures RootKnowledge(c') && HardIsNeverSoft(c')
  {
    hide LiteralKeys, ExplanationValid, Assumptions;
  }

  // ----- sizes -----

  lemma {:induction false} SmallerSet<T>(s: set<T>, t: set<T>)
    requires s < t
    ensures |s| < |t|
  {
    var x :| x in t && x !in s;
    assert s <= t - {x};
    SubsetSize(s, t - {x});
  }

  lemma {:induction false} SubsetSize<T>(s: set<T>, t: set<T>)
    requires s <= t
    ensures |s| <= |t|
  {
    if s != {} {
      var x :| x in s;
      SubsetSize(s - {x}, t - {x});
    }
  }
}
