/** Small vocabulary shared by the models. */
module Common {

  datatype Option<+T> = None | Some(value: T)

  predicate Distinct<T(==)>(s: seq<T>) {
    forall i, j :: 0 <= i < j < |s| ==> s[i] != s[j]
  }

  /** `s` without any occurrence of `x`: deleting a key of an insertion-ordered map. */
  function Without<T(==)>(s: seq<T>, x: T): (r: seq<T>)
    ensures |r| <= |s|
    ensures forall y :: y in r ==> y in s && y != x
    ensures forall y :: y in s && y != x ==> y in r
  {
    if s == [] then []
    else if s[0] == x then Without(s[1..], x)
    else [s[0]] + Without(s[1..], x)
  }

  lemma {:induction false} WithoutKeepsDistinct<T>(s: seq<T>, x: T)
    requires Distinct(s)
    ensures Distinct(Without(s, x))
    ensures x in s ==> |Without(s, x)| == |s| - 1
    ensures x !in s ==> Without(s, x) == s
  {
    if s == [] {
    } else {
      WithoutKeepsDistinct(s[1..], x);
      if s[0] == x {
        assert x !in s[1..];
      } else {
        var rest := Without(s[1..], x);
        assert forall y :: y in rest ==> y in s[1..];
        assert s[0] !in s[1..];
      }
    }
  }

  lemma {:induction false} DistinctOnce<T>(s: seq<T>, x: T)
    requires Distinct(s)
    ensures multiset(s)[x] <= 1
  {
    if s != [] {
      var n := |s| - 1;
      DistinctOnce(s[..n], x);
      assert s == s[..n] + [s[n]];
      assert x == s[n] ==> x !in s[..n];
    }
  }

  lemma {:induction false} DistinctSize<T>(s: seq<T>, elements: set<T>)
    requires Distinct(s) && (forall x :: x in s ==> x in elements) && (forall x :: x in elements ==> x in s)
    ensures |elements| == |s|
  {
    if s == [] {
      assert elements == {};
    } else {
      assert s[0] in s;
      DistinctSize(s[1..], elements - {s[0]});
    }
  }

  /** A left fold: what a loop over `ts` makes of `s`. */
  function Fold<S, T>(f: (S, T) -> S, s: S, ts: seq<T>): S {
    if ts == [] then s else f(Fold(f, s, ts[..|ts| - 1]), ts[|ts| - 1])
  }

  lemma FoldOneMore<S, T>(f: (S, T) -> S, s: S, ts: seq<T>, t: T)
    ensures Fold(f, s, ts + [t]) == f(Fold(f, s, ts), t)
  {
    assert (ts + [t])[..|ts|] == ts;
  }

  lemma FoldPrefix<S, T>(f: (S, T) -> S, s: S, ts: seq<T>, k: nat)
    requires k < |ts|
    ensures Fold(f, s, ts[..k + 1]) == f(Fold(f, s, ts[..k]), ts[k])
  {
    assert ts[..k + 1][..k] == ts[..k];
  }

  // ----- Filtering an insertion-ordered map -----

  function Where<T>(s: seq<T>, p: T -> bool): seq<T> {
    if s == [] then []
    else Where(s[..|s| - 1], p) + if p(s[|s| - 1]) then [s[|s| - 1]] else []
  }

  function Both<T>(p: T -> bool, q: T -> bool): T -> bool {
    t => p(t) && q(t)
  }

  function Not<T>(p: T -> bool): T -> bool {
    t => !p(t)
  }

  lemma {:induction false} WhereIn<T(!new)>(s: seq<T>, p: T -> bool)
    ensures forall t :: t in Where(s, p) <==> t in s && p(t)
  {
    if s != [] {
      var n := |s| - 1;
      WhereIn(s[..n], p);
      assert forall t :: t in s <==> t in s[..n] || t == s[n];
    }
  }

  lemma WhereExtend<T>(s: seq<T>, k: nat, p: T -> bool)
    requires k < |s|
    ensures Where(s[..k + 1], p) == Where(s[..k], p) + if p(s[k]) then [s[k]] else []
  {
    assert s[..k + 1][..k] == s[..k];
  }

  lemma {:induction false} WhereConcat<T>(a: seq<T>, b: seq<T>, p: T -> bool)
    ensures Where(a + b, p) == Where(a, p) + Where(b, p)
  {
    if b == [] {
      assert a + b == a;
    } else {
      var n := |b| - 1;
      assert (a + b)[..|a + b| - 1] == a + b[..n];
      WhereConcat(a, b[..n], p);
    }
  }

  lemma WhereSplit<T>(s: seq<T>, p: T -> bool, k: nat)
    requires k <= |s|
    ensures Where(s, p) == Where(s[..k], p) + Where(s[k..], p)
  {
    assert s == s[..k] + s[k..];
    WhereConcat(s[..k], s[k..], p);
  }

  lemma {:induction false} WhereWhere<T>(s: seq<T>, p: T -> bool, q: T -> bool)
    ensures Where(Where(s, p), q) == Where(s, Both(p, q))
  {
    if s != [] {
      var n := |s| - 1;
      WhereWhere(s[..n], p, q);
      var last := if p(s[n]) then [s[n]] else [];
      WhereConcat(Where(s[..n], p), last, q);
      assert p(s[n]) ==> last[..0] == [];
    }
  }

  lemma {:induction false} WhereAgree<T>(s: seq<T>, p: T -> bool, q: T -> bool)
    requires forall i :: 0 <= i < |s| ==> p(s[i]) == q(s[i])
    ensures Where(s, p) == Where(s, q)
  {
    if s != [] {
      WhereAgree(s[..|s| - 1], p, q);
    }
  }

  lemma WhereCommutes<T>(s: seq<T>, p: T -> bool, q: T -> bool)
    ensures Where(Where(s, p), q) == Where(Where(s, q), p)
  {
    WhereWhere(s, p, q);
    WhereWhere(s, q, p);
    WhereAgree(s, Both(p, q), Both(q, p));
  }

  lemma {:induction false} WhereAll<T>(s: seq<T>, p: T -> bool)
    requires forall i :: 0 <= i < |s| ==> p(s[i])
    ensures Where(s, p) == s
  {
    if s != [] {
      WhereAll(s[..|s| - 1], p);
      assert s == s[..|s| - 1] + [s[|s| - 1]];
    }
  }

  lemma {:induction false} WhereNone<T>(s: seq<T>, p: T -> bool)
    requires forall i :: 0 <= i < |s| ==> !p(s[i])
    ensures Where(s, p) == []
  {
    if s != [] {
      WhereNone(s[..|s| - 1], p);
    }
  }

  // ----- Iterating over a map while deleting from it -----

  /** What an iteration doing `f` at each `p` has made of `s` after visiting `k` entries of `ts`. */
  ghost function Visited<S, T>(f: (S, T) -> S, s: S, ts: seq<T>, k: nat, p: T -> bool): S
    requires k <= |ts|
  {
    if k == 0 then s
    else
      var before := Visited(f, s, ts, k - 1, p);
      if p(ts[k - 1]) then f(before, ts[k - 1]) else before
  }

  lemma {:induction false} VisitedIsFold<S, T>(f: (S, T) -> S, s: S, ts: seq<T>, k: nat, p: T -> bool)
    requires k <= |ts|
    ensures Visited(f, s, ts, k, p) == Fold(f, s, Where(ts[..k], p))
  {
    if k != 0 {
      VisitedIsFold(f, s, ts, k - 1, p);
      WhereExtend(ts, k - 1, p);
      FoldOneMore(f, s, Where(ts[..k - 1], p), ts[k - 1]);
      assert Where(ts[..k - 1], p) + [] == Where(ts[..k - 1], p);
    }
  }

  /** How many of the first `k` entries satisfy `p`. */
  ghost function CountUpTo<T>(ts: seq<T>, k: nat, p: T -> bool): nat
    requires k <= |ts|
  {
    if k == 0 then 0 else CountUpTo(ts, k - 1, p) + if p(ts[k - 1]) then 1 else 0
  }

  lemma {:induction false} CountIsWhere<T>(ts: seq<T>, k: nat, p: T -> bool)
    requires k <= |ts|
    ensures CountUpTo(ts, k, p) == |Where(ts[..k], p)|
  {
    if k != 0 {
      WhereExtend(ts, k - 1, p);
      CountIsWhere(ts, k - 1, p);
    }
  }
}
