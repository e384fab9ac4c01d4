/** Epistemic debt: an accounting view of the obligation store (`_epistemic_debt.py`). */
module Debt {
  import opened Foundations
  import opened CalculusModel
  import opened Locks
  import opened Fairness
  import opened Backjump
  import opened Recovery

  datatype DebtClass = Outstanding | TerminalUnresolved

  datatype DebtItem = DebtItem(
    obligation: Id,
    status: ObligationStatus,
    classification: DebtClass,
    dependencies: set<Id>,
    mandatory: bool,
    persistent: bool,
    scope: Id)

  const REQUIRES: Id := "REQUIRES"

  predicate Satisfied(s: ObligationStatus) {
    s.Verified? || s.Committed?
  }

  // ----- the canonical edges -----

  /** The edges that the obligations' own dependency sets call for. */
  function ExpectedEdges(c: Calculus): set<ObligationEdge> {
    set o, d | o in c.obligations && d in c.obligations[o].dependencies :: ObligationEdge(d, o, REQUIRES)
  }

  function EdgeSet(edges: seq<ObligationEdge>): set<ObligationEdge> {
    set e | e in edges
  }

  ghost predicate NoRepeats(edges: seq<ObligationEdge>) {
    forall i, j :: 0 <= i < j < |edges| ==> edges[i] != edges[j]
  }

  /** The stored edges represent the dependencies exactly: every edge once, none missing, none extra,
      and none to an unknown obligation. */
  ghost predicate EdgesCanonical(c: Calculus) {
    && NoRepeats(c.obligationEdges) && EdgeSet(c.obligationEdges) == ExpectedEdges(c)
    && forall e :: e in c.obligationEdges ==> e.src in c.obligations && e.dst in c.obligations
  }

  /** `_validate_canonical_edges`. */
  method ValidateCanonicalEdges(c: Calculus) returns (r: Result<()>)
    ensures r.Ok? <==> EdgesCanonical(c)
  {
    var actual: set<ObligationEdge> := {};
    var edges := c.obligationEdges;
    for i := 0 to |edges|
      invariant NoRepeats(edges[..i])
      invariant forall e :: e in actual <==> e in edges[..i]
      invariant forall e :: e in edges[..i] ==> e.src in c.obligations && e.dst in c.obligations
    {
      var e := edges[i];
      assert edges[..i + 1] == edges[..i] + [e];
      if e.src !in c.obligations || e.dst !in c.obligations {
        return Err(ValueError("edge with unknown canonical obligation"));
      }
      if e in actual {
        var j :| 0 <= j < i && edges[j] == e;
        return Err(ValueError("duplicate canonical obligation edge"));
      }
      actual := actual + {e};
    }
    assert edges[..|edges|] == edges;
    assert actual == EdgeSet(edges);
    if actual != ExpectedEdges(c) {
      return Err(ValueError("obligation edges must exactly represent the dependencies"));
    }
    return Ok(());
  }

  // ----- the projection -----

  function ItemOf(c: Calculus, o: Id): DebtItem
    requires o in c.obligations
  {
    var ob := c.obligations[o];
    DebtItem(o, ob.status, if Disposed(ob.status) then TerminalUnresolved else Outstanding,
             ob.dependencies, ob.mandatory, ob.persistent, ob.scope)
  }

  predicate InDebt(c: Calculus, o: Id) {
    o in c.obligations && !Satisfied(c.obligations[o].status)
  }

  /** The obligations in debt, in the order of their names, each described as it stands. */
  ghost predicate IsProjection(c: Calculus, items: seq<DebtItem>) {
    && (forall i :: 0 <= i < |items| ==> InDebt(c, items[i].obligation) && items[i] == ItemOf(c, items[i].obligation))
    && (forall o :: InDebt(c, o) ==> exists i :: 0 <= i < |items| && items[i].obligation == o)
    && (forall i, j :: 0 <= i < j < |items| ==>
          IdLeq(items[i].obligation, items[j].obligation) && items[i].obligation != items[j].obligation)
  }

  /** `project_epistemic_debt`. */
  method ProjectEpistemicDebt(c: Calculus) returns (r: Result<seq<DebtItem>>)
    ensures r.Ok? <==> EdgesCanonical(c)
    ensures r.Ok? ==> IsProjection(c, r.value)
  {
    var _ :- ValidateCanonicalEdges(c);
    var names := SortIds(c.obligations.Keys);
    var items: seq<DebtItem> := [];
    for i := 0 to |names|
      invariant forall k :: 0 <= k < |items| ==>
        items[k].obligation in names[..i] && InDebt(c, items[k].obligation) && items[k] == ItemOf(c, items[k].obligation)
      invariant forall o :: o in names[..i] && InDebt(c, o) ==> exists k :: 0 <= k < |items| && items[k].obligation == o
      invariant forall k, m :: 0 <= k < m < |items| ==>
        IdLeq(items[k].obligation, items[m].obligation) && items[k].obligation != items[m].obligation
    {
      var o := names[i];
      assert o in names && names[..i + 1] == names[..i] + [o];
      if InDebt(c, o) {
        ghost var before := items;
        items := items + [ItemOf(c, o)];
        assert items[|before|].obligation == o;
        assert forall k :: 0 <= k < |before| ==> items[k] == before[k];
      }
    }
    assert names[..|names|] == names;
    return Ok(items);
  }

  // ----- counting -----

  function Classified(c: Calculus, k: DebtClass): set<Id> {
    set o | o in c.obligations && InDebt(c, o) && ItemOf(c, o).classification == k
  }

  /** The count properties of a projection. */
  method CountClass(items: seq<DebtItem>, k: DebtClass) returns (n: nat)
    ensures n == Count(items, k)
  {
    n := 0;
    for i := 0 to |items|
      invariant n == Count(items[..i], k)
    {
      assert items[..i + 1][..i] == items[..i];
      if items[i].classification == k {
        n := n + 1;
      }
    }
    assert items[..|items|] == items;
  }

  function Count(items: seq<DebtItem>, k: DebtClass): nat {
    if items == [] then 0
    else Count(items[..|items| - 1], k) + if items[|items| - 1].classification == k then 1 else 0
  }

  function Named(items: seq<DebtItem>, k: DebtClass): set<Id> {
    if items == [] then {}
    else
      var last := items[|items| - 1];
      Named(items[..|items| - 1], k) + if last.classification == k then {last.obligation} else {}
  }

  lemma {:induction false} NamedMember(items: seq<DebtItem>, k: DebtClass, o: Id)
    ensures o in Named(items, k) <==>
      exists i :: 0 <= i < |items| && items[i].classification == k && items[i].obligation == o
  {
    if items != [] {
      var n := |items| - 1;
      NamedMember(items[..n], k, o);
      assert items == items[..n] + [items[n]];
    }
  }

  lemma {:induction false} CountIsSize(items: seq<DebtItem>, k: DebtClass)
    requires forall i, j :: 0 <= i < j < |items| ==> items[i].obligation != items[j].obligation
    ensures Count(items, k) == |Named(items, k)|
  {
    if items != [] {
      var n := |items| - 1;
      CountIsSize(items[..n], k);
      NamedMember(items[..n], k, items[n].obligation);
    }
  }

  /** The counts of a projection are the sizes of the two classes of debt in the store. */
  lemma CountsAreExact(c: Calculus, items: seq<DebtItem>, k: DebtClass)
    requires IsProjection(c, items)
    ensures Count(items, k) == |Classified(c, k)|
  {
    CountIsSize(items, k);
    forall o ensures o in Named(items, k) <==> o in Classified(c, k) {
      NamedMember(items, k, o);
      if o in Classified(c, k) {
        var i :| 0 <= i < |items| && items[i].obligation == o;
      }
    }
    assert Named(items, k) == Classified(c, k);
  }

  // ----- validating a projection -----

  function NamesOf(items: seq<DebtItem>): (r: seq<Id>)
    ensures |r| == |items| && forall i :: 0 <= i < |items| ==> r[i] == items[i].obligation
  {
    seq(|items|, i requires 0 <= i < |items| => items[i].obligation)
  }

  function Debtors(c: Calculus): set<Id> {
    set o | o in c.obligations && InDebt(c, o)
  }

  lemma ProjectionNames(c: Calculus, items: seq<DebtItem>)
    requires IsProjection(c, items)
    ensures IsSorting(Debtors(c), NamesOf(items))
  {
    forall o | o in Debtors(c) ensures o in NamesOf(items) {
      var i :| 0 <= i < |items| && items[i].obligation == o;
      assert NamesOf(items)[i] == o;
    }
  }

  /** A state has one projection. */
  lemma ProjectionUnique(c: Calculus, items: seq<DebtItem>, other: seq<DebtItem>)
    requires IsProjection(c, items) && IsProjection(c, other)
    ensures items == other
  {
    ProjectionNames(c, items);
    ProjectionNames(c, other);
    SortingUnique(Debtors(c), NamesOf(items), NamesOf(other));
    assert forall i :: 0 <= i < |items| ==> items[i].obligation == NamesOf(items)[i];
  }

  datatype DebtCounts = DebtCounts(total: nat, outstanding: nat, terminal: nat)

  /** `validate_epistemic_debt_projection`: recomputes the projection and compares. */
  method ValidateProjection(c: Calculus, items: seq<DebtItem>) returns (r: Result<DebtCounts>)
    ensures r.Ok? <==> EdgesCanonical(c) && IsProjection(c, items)
    ensures r.Ok? ==>
      && r.value.total == |Debtors(c)|
      && r.value.outstanding == |Classified(c, Outstanding)|
      && r.value.terminal == |Classified(c, TerminalUnresolved)|
  {
    var expected :- ProjectEpistemicDebt(c);
    if items != expected {
      if IsProjection(c, items) {
        ProjectionUnique(c, items, expected);
      }
      return Err(ValueError("debt projection is stale"));
    }
    var outstanding := CountClass(items, Outstanding);
    var terminal := CountClass(items, TerminalUnresolved);
    CountsAreExact(c, items, Outstanding);
    CountsAreExact(c, items, TerminalUnresolved);
    ProjectionNames(c, items);
    SortedSize(Debtors(c), NamesOf(items));
    return Ok(DebtCounts(|items|, outstanding, terminal));
  }

  lemma {:induction false} SortedSize(s: set<Id>, r: seq<Id>)
    requires IsSorting(s, r)
    ensures |s| == |r|
    decreases |r|
  {
    if r == [] {
      assert s == {};
    } else {
      assert r[0] in s;
      TailSorting(s, r);
      SortedSize(s - {r[0]}, r[1..]);
    }
  }

  // ----- what a backjump does to the debt -----

  /** The impacted obligations that were satisfied. */
  function Reverted(c: Calculus, impacted: set<Id>): set<Id> {
    set o | o in impacted && o in c.obligations && Satisfied(c.obligations[o].status)
  }

  /** `c'` owes what `c` owed and, newly, exactly the given obligations; nothing was disposed. */
  ghost predicate Owes(c: Calculus, c': Calculus, reverted: set<Id>) {
    && c'.obligations.Keys == c.obligations.Keys
    && (EdgesCanonical(c') <==> EdgesCanonical(c))
    && (forall o :: InDebt(c, o) ==> InDebt(c', o))
    && Classified(c', TerminalUnresolved) == Classified(c, TerminalUnresolved)
    && Classified(c', Outstanding) == Classified(c, Outstanding) + reverted
    && Classified(c, Outstanding) !! reverted
  }

  lemma SameEdges(c: Calculus, c': Calculus)
    requires c'.obligationEdges == c.obligationEdges && c'.obligations.Keys == c.obligations.Keys
    requires forall o :: o in c.obligations ==> c'.obligations[o].dependencies == c.obligations[o].dependencies
    ensures EdgesCanonical(c') <==> EdgesCanonical(c)
  {
    assert ExpectedEdges(c') == ExpectedEdges(c);
  }

  lemma BackjumpOwes(c: Calculus, plan: BackjumpPlan, sequence: nat)
    requires Applicable(c, plan)
    ensures Owes(c, AfterBackjump(c, plan, sequence), Reverted(c, plan.obligations))
  {
    ReopeningOwes(c, AfterBackjump(c, plan, sequence), plan.obligations, sequence);
  }

  /** Reopening some obligations, and nothing else, makes the satisfied ones among them owed. */
  lemma ReopeningOwes(c: Calculus, c': Calculus, impacted: set<Id>, sequence: nat)
    requires c'.obligationEdges == c.obligationEdges && c'.obligations.Keys == c.obligations.Keys
    requires forall o :: o in c.obligations ==>
      c'.obligations[o] == if o in impacted then ReopenObligation(c.obligations[o], sequence) else c.obligations[o]
    ensures Owes(c, c', Reverted(c, impacted))
  {
    hide EdgesCanonical;
    SameEdges(c, c');
    forall o, k
      ensures InDebt(c', o) <==> InDebt(c, o) || o in Reverted(c, impacted)
      ensures o in Classified(c', k) <==> o in Classified(c, k) || (k.Outstanding? && o in Reverted(c, impacted))
    {
    }
  }

  lemma SettledObligations(c: Calculus)
    ensures Settled(c).obligations.Keys == c.obligations.Keys && Settled(c).obligationEdges == c.obligationEdges
    ensures forall o :: o in c.obligations ==>
      (Settled(c).obligations[o] == c.obligations[o]
       || (c.obligations[o].status.Locked? && Settled(c).obligations[o] == c.obligations[o].(status := Available)))
  {
    RelockingReleases(c);
  }

  lemma SettlingOwes(c: Calculus)
    ensures Owes(c, Settled(c), {})
  {
    hide Settled, EdgesCanonical;
    var c' := Settled(c);
    SettledObligations(c);
    SameEdges(c, c');
    assert Classified(c', TerminalUnresolved) == Classified(c, TerminalUnresolved);
    assert Classified(c', Outstanding) == Classified(c, Outstanding);
  }

  lemma OwesChain(a: Calculus, b: Calculus, c: Calculus, reverted: set<Id>)
    requires Owes(a, b, reverted) && Owes(b, c, {})
    ensures Owes(a, c, reverted)
  {
    assert Classified(b, Outstanding) + {} == Classified(b, Outstanding);
  }

  /** Nothing is forgiven by a recovery: all debt stays, the terminal part unchanged, and the
      outstanding part grows by exactly the impacted obligations that were VERIFIED or COMMITTED. */
  lemma RecoveryOwes(c: Calculus, plan: BackjumpPlan, sequence: nat)
    requires plan.pivot.Some? && plan.pivot.value in c.decisions && Applicable(c, WidenedPlan(c, plan))
    ensures Owes(c, Settled(Recovered(c, plan, sequence)), Reverted(c, WidenedPlan(c, plan).obligations))
  {
    hide Settled, WidenedPlan, Applicable;
    var wide := WidenedPlan(c, plan);
    var jumped, recovered := AfterBackjump(c, wide, sequence), Recovered(c, plan, sequence);
    BackjumpOwes(c, wide, sequence);
    SameStore(jumped, recovered);
    OwesChain(c, jumped, recovered, Reverted(c, wide.obligations));
    SettlingOwes(recovered);
    OwesChain(c, recovered, Settled(recovered), Reverted(c, wide.obligations));
  }

  lemma SameStore(c: Calculus, c': Calculus)
    requires c'.obligations == c.obligations && c'.obligationEdges == c.obligationEdges
    ensures Owes(c, c', {})
  {
    SameEdges(c, c');
    assert Classified(c', TerminalUnresolved) == Classified(c, TerminalUnresolved);
    assert Classified(c', Outstanding) == Classified(c, Outstanding);
  }

  /** In the figures of the two projections: the terminal-unresolved count stays, and the outstanding
      count rises by the number of reverted obligations. The projection stays admissible. */
  lemma RecoveryAccounting(c: Calculus, plan: BackjumpPlan, sequence: nat, before: seq<DebtItem>, after: seq<DebtItem>)
    requires plan.pivot.Some? && plan.pivot.value in c.decisions && Applicable(c, WidenedPlan(c, plan))
    requires IsProjection(c, before) && IsProjection(Settled(Recovered(c, plan, sequence)), after)
    ensures EdgesCanonical(c) <==> EdgesCanonical(Settled(Recovered(c, plan, sequence)))
    ensures Count(after, TerminalUnresolved) == Count(before, TerminalUnresolved)
    ensures Count(after, Outstanding) == Count(before, Outstanding) + |Reverted(c, WidenedPlan(c, plan).obligations)|
  {
    hide Settled, WidenedPlan, Applicable, IsProjection, Recovered, EdgesCanonical;
    var c' := Settled(Recovered(c, plan, sequence));
    RecoveryOwes(c, plan, sequence);
    CountsAreExact(c, before, Outstanding);
    CountsAreExact(c, before, TerminalUnresolved);
    CountsAreExact(c', after, Outstanding);
    CountsAreExact(c', after, TerminalUnresolved);
  }

  // ----- which work is debt -----

  /** The work in a projection is, status by status, all that was neither VERIFIED nor COMMITTED; what was
      rejected, superseded or found impossible is terminal, the rest outstanding. */
  lemma DebtExactly(c: Calculus, items: seq<DebtItem>, o: Id)
    requires IsProjection(c, items)
    ensures (exists i :: 0 <= i < |items| && items[i].obligation == o) <==>
      o in c.obligations
      && c.obligations[o].status in {Available, Enabled, InProgress, Verifying, Blocked, Locked, NeedsRevalidation,
                                     Refused, Replaced, Impossible}
    ensures forall i :: 0 <= i < |items| && items[i].obligation == o ==>
      && (items[i].classification.TerminalUnresolved? <==> c.obligations[o].status in {Refused, Replaced, Impossible})
      && items[i].status == c.obligations[o].status && items[i].dependencies == c.obligations[o].dependencies
      && items[i].mandatory == c.obligations[o].mandatory && items[i].persistent == c.obligations[o].persistent
      && items[i].scope == c.obligations[o].scope
  {
    assert o in c.obligations ==> (InDebt(c, o) <==> !c.obligations[o].status.Verified? && !c.obligations[o].status.Committed?);
  }

  /** Edges are admissible exactly when they lead, each once, from each dependency to the obligation that has it,
      as REQUIRES, and none from an unknown obligation. */
  lemma EdgesExactly(c: Calculus)
    ensures EdgesCanonical(c) <==>
      && (forall i, j :: 0 <= i < j < |c.obligationEdges| ==> c.obligationEdges[i] != c.obligationEdges[j])
      && (forall e :: e in c.obligationEdges <==>
            e.relation == "REQUIRES" && e.dst in c.obligations && e.src in c.obligations[e.dst].dependencies)
      && (forall e :: e in c.obligationEdges ==> e.src in c.obligations)
  {
    assert forall e :: e in EdgeSet(c.obligationEdges) <==> e in c.obligationEdges;
    assert forall e :: e in ExpectedEdges(c) <==>
      e.relation == "REQUIRES" && e.dst in c.obligations && e.src in c.obligations[e.dst].dependencies;
  }
}
