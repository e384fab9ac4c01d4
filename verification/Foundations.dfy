/** Identifiers, failure types, and the string order that every `sorted(...)` of the calculus uses. */
module Foundations {

  /** Decision, obligation, scope, subject and plan names are all strings in the calculus. */
  type Id = string

  /** Decision values. Only equality of values matters to the calculus. */
  type Value = string

  datatype Option<+T> = None | Some(value: T)

  /** The two exception classes the calculus raises. */
  datatype Error =
    | KeyError(key: Id)
    | ValueError(reason: string)

  datatype Result<+T> = Ok(value: T) | Err(error: Error) {
    predicate IsFailure() {
      Err?
    }

    function PropagateFailure<U>(): Result<U>
      requires Err?
    {
      Err(error)
    }

    function Extract(): T
      requires Ok?
    {
      value
    }
  }

  /** Lexicographic order on strings, by code point. */
  predicate IdLeq(a: Id, b: Id) {
    a == "" || (b != "" && (a[0] < b[0] || (a[0] == b[0] && IdLeq(a[1..], b[1..]))))
  }

  lemma {:induction false} IdLeqTotal(a: Id, b: Id)
    ensures IdLeq(a, b) || IdLeq(b, a)
  {
    if a != "" && b != "" && a[0] == b[0] {
      IdLeqTotal(a[1..], b[1..]);
    }
  }

  lemma {:induction false} IdLeqAntisymmetric(a: Id, b: Id)
    requires IdLeq(a, b) && IdLeq(b, a)
    ensures a == b
  {
    if a != "" && b != "" {
      IdLeqAntisymmetric(a[1..], b[1..]);
      assert a == [a[0]] + a[1..] && b == [b[0]] + b[1..];
    }
  }

  lemma {:induction false} IdLeqTransitive(a: Id, b: Id, c: Id)
    requires IdLeq(a, b) && IdLeq(b, c)
    ensures IdLeq(a, c)
  {
    if a != "" && a[0] == b[0] && b[0] == c[0] {
      IdLeqTransitive(a[1..], b[1..], c[1..]);
    }
  }

  ghost predicate IsLeastId(s: set<Id>, m: Id) {
    m in s && forall x :: x in s ==> IdLeq(m, x)
  }

  /** The first element of `sorted(s)`. */
  method LeastId(s: set<Id>) returns (m: Id)
    requires s != {}
    ensures IsLeastId(s, m)
  {
    m :| m in s;
    var rest := s - {m};
    IdLeqTotal(m, m);
    while rest != {}
      invariant m in s && rest <= s
      invariant forall x :: x in s - rest ==> IdLeq(m, x)
      decreases |rest|
    {
      var x :| x in rest;
      rest := rest - {x};
      IdLeqTotal(m, x);
      IdLeqTotal(x, x);
      if !IdLeq(m, x) {
        forall y | y in s - rest ensures IdLeq(x, y) {
          if y != x { IdLeqTransitive(x, m, y); }
        }
        m := x;
      }
    }
  }

  /** Strictly ascending, hence without repetition. */
  ghost predicate Ascending(r: seq<Id>) {
    forall i, j :: 0 <= i < j < |r| ==> IdLeq(r[i], r[j]) && r[i] != r[j]
  }

  ghost predicate IsSorting(s: set<Id>, r: seq<Id>) {
    Ascending(r) && forall x :: x in s <==> x in r
  }

  /** `sorted(s)`. */
  method SortIds(s: set<Id>) returns (r: seq<Id>)
    ensures IsSorting(s, r)
  {
    r := [];
    var rest := s;
    while rest != {}
      invariant rest <= s
      invariant forall x :: x in s - rest <==> x in r
      invariant Ascending(r)
      invariant forall x, y :: x in r && y in rest ==> IdLeq(x, y)
      decreases |rest|
    {
      var m := LeastId(rest);
      assert m !in r;
      r := r + [m];
      rest := rest - {m};
    }
  }

  /** A set has one sorting, so a result computed along it is a function of the set. */
  lemma {:induction false} SortingUnique(s: set<Id>, r: seq<Id>, t: seq<Id>)
    requires IsSorting(s, r) && IsSorting(s, t)
    ensures r == t
    decreases |r|
  {
    assert r != [] ==> r[0] in s && r[0] in t;
    assert t != [] ==> t[0] in s && t[0] in r;
    if r != [] {
      var i :| 0 <= i < |t| && t[i] == r[0];
      var j :| 0 <= j < |r| && r[j] == t[0];
      IdLeqTotal(r[0], r[0]);
      if r[0] != t[0] {
        IdLeqAntisymmetric(r[0], t[0]);
      }
      TailSorting(s, r);
      TailSorting(s, t);
      SortingUnique(s - {r[0]}, r[1..], t[1..]);
      assert r == [r[0]] + r[1..] && t == [t[0]] + t[1..];
    }
  }

  lemma TailSorting(s: set<Id>, r: seq<Id>)
    requires IsSorting(s, r) && r != []
    ensures IsSorting(s - {r[0]}, r[1..])
  {
    forall x | x in s - {r[0]} ensures x in r[1..] {
      var i :| 0 <= i < |r| && r[i] == x;
      assert r[1..][i - 1] == x;
    }
    forall x | x in r[1..] ensures x in s - {r[0]} {
      var i :| 0 <= i < |r[1..]| && r[1..][i] == x;
      assert r[i + 1] == x;
    }
  }

  /** `i` is the first position at which the two strings differ. */
  predicate DiffersAt(a: Id, b: Id, i: nat) {
    i < |a| && i < |b| && a[..i] == b[..i] && a[i] != b[i]
  }

  /** The order by code point: one string continues the other, or comes first where they first differ. */
  lemma {:induction false} IdLeqExactly(a: Id, b: Id)
    ensures IdLeq(a, b) <==> a <= b || exists i: nat :: DiffersAt(a, b, i) && a[i] < b[i]
  {
    if a == "" || b == "" {
    } else if a[0] != b[0] {
      assert DiffersAt(a, b, 0);
      forall i: nat | DiffersAt(a, b, i) ensures i == 0 {
        if i > 0 {
          FirstAgrees(a, b, i);
        }
      }
    } else {
      IdLeqExactly(a[1..], b[1..]);
      assert a <= b <==> a[1..] <= b[1..];
      forall i: nat ensures DiffersAt(a[1..], b[1..], i) <==> DiffersAt(a, b, i + 1) {
        DiffersLater(a, b, i);
      }
      if j: nat :| DiffersAt(a, b, j) && a[j] < b[j] {
        assert DiffersAt(a[1..], b[1..], j - 1) && a[1..][j - 1] < b[1..][j - 1];
      }
      if i: nat :| DiffersAt(a[1..], b[1..], i) && a[1..][i] < b[1..][i] {
        assert DiffersAt(a, b, i + 1) && a[i + 1] < b[i + 1];
      }
    }
  }

  lemma FirstAgrees(a: Id, b: Id, i: nat)
    requires DiffersAt(a, b, i) && i > 0
    ensures a[0] == b[0]
  {
    assert a[..i][0] == a[0] && b[..i][0] == b[0];
  }

  lemma DiffersLater(a: Id, b: Id, i: nat)
    requires a != "" && b != "" && a[0] == b[0]
    ensures DiffersAt(a[1..], b[1..], i) <==> DiffersAt(a, b, i + 1)
  {
    if i < |a| - 1 && i < |b| - 1 {
      assert a[..i + 1] == [a[0]] + a[1..][..i] && b[..i + 1] == [b[0]] + b[1..][..i];
      assert a[1..][..i] == a[..i + 1][1..] && b[1..][..i] == b[..i + 1][1..];
    }
  }
}
