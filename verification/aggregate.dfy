/** The reductions every screen applies to a collection snapshot: an
    order-preserving filter and an integer sum of one field. */
module Aggregate {

  /** `r` can be obtained from `s` by deleting elements, keeping the order of the rest. */
  ghost predicate IsSubsequence<T>(r: seq<T>, s: seq<T>)
    decreases |s|
  {
    if r == [] then true
    else if s == [] then false
    else if r[0] == s[0] then IsSubsequence(r[1..], s[1..])
    else IsSubsequence(r, s[1..])
  }

  /** `s.filter(p)`. */
  function Filter<T(!new)>(s: seq<T>, p: T -> bool): (r: seq<T>)
    ensures |r| <= |s|
    ensures forall x :: x in r <==> x in s && p(x)
  {
    if s == [] then []
    else if p(s[0]) then [s[0]] + Filter(s[1..], p)
    else Filter(s[1..], p)
  }

  lemma FilterCons<T(!new)>(x: T, s: seq<T>, p: T -> bool)
    ensures Filter([x] + s, p) == (if p(x) then [x] else []) + Filter(s, p)
  {
    assert ([x] + s)[1..] == s;
  }

  lemma {:induction false} FilterNone<T(!new)>(s: seq<T>, p: T -> bool)
    requires forall i | 0 <= i < |s| :: !p(s[i])
    ensures Filter(s, p) == []
  {
    if s != [] {
      FilterNone(s[1..], p);
    }
  }

  lemma {:induction false} FilterAll<T(!new)>(s: seq<T>, p: T -> bool)
    requires forall i | 0 <= i < |s| :: p(s[i])
    ensures Filter(s, p) == s
  {
    if s != [] {
      FilterAll(s[1..], p);
    }
  }

  /** The filter keeps every selected record as often as it occurs, and no other record. */
  lemma {:induction false} FilterCounts<T(!new)>(s: seq<T>, p: T -> bool, x: T)
    ensures multiset(Filter(s, p))[x] == if p(x) then multiset(s)[x] else 0
  {
    if s != [] {
      FilterCounts(s[1..], p, x);
      assert s == [s[0]] + s[1..];
    }
  }

  /** The filter keeps the selected records in snapshot order. */
  lemma {:induction false} FilterIsSubsequence<T(!new)>(s: seq<T>, p: T -> bool)
    ensures IsSubsequence(Filter(s, p), s)
  {
    if s != [] {
      FilterIsSubsequence(s[1..], p);
      var t := Filter(s[1..], p);
      if !p(s[0]) && t != [] {
        assert t[0] in t;
        assert t[0] != s[0];
      }
    }
  }

  /** `s.map(f)`. */
  function Map<A, B>(s: seq<A>, f: A -> B): (r: seq<B>)
    ensures |r| == |s|
    ensures forall i | 0 <= i < |s| :: r[i] == f(s[i])
  {
    if s == [] then [] else [f(s[0])] + Map(s[1..], f)
  }

  /** `s.reduce((sum, x) => sum + f(x), 0)`: over integers the order of addition does not matter. */
  function Sum<T>(s: seq<T>, f: T -> int): (r: int)
    ensures s == [] ==> r == 0
    ensures (forall i | 0 <= i < |s| :: f(s[i]) >= 0) ==> r >= 0
  {
    if s == [] then 0 else f(s[0]) + Sum(s[1..], f)
  }

  /** Reference definition of a guarded total: every element is visited and
      contributes `f(x)` when `p(x)` holds and nothing otherwise. */
  function SumWhere<T>(s: seq<T>, p: T -> bool, f: T -> int): int
  {
    if s == [] then 0 else (if p(s[0]) then f(s[0]) else 0) + SumWhere(s[1..], p, f)
  }

  /** Summing a filtered snapshot is the guarded total of the whole snapshot. */
  lemma {:induction false} SumOfFilter<T(!new)>(s: seq<T>, p: T -> bool, f: T -> int)
    ensures Sum(Filter(s, p), f) == SumWhere(s, p, f)
  {
    if s != [] {
      SumOfFilter(s[1..], p, f);
    }
  }

  lemma {:induction false} SumAppend<T>(a: seq<T>, b: seq<T>, f: T -> int)
    ensures Sum(a + b, f) == Sum(a, f) + Sum(b, f)
  {
    if a == [] {
      assert a + b == b;
    } else {
      assert (a + b)[1..] == a[1..] + b;
      SumAppend(a[1..], b, f);
    }
  }

  lemma {:induction false} FilterAppend<T(!new)>(a: seq<T>, b: seq<T>, p: T -> bool)
    ensures Filter(a + b, p) == Filter(a, p) + Filter(b, p)
  {
    if a == [] {
      assert a + b == b;
    } else {
      assert (a + b)[1..] == a[1..] + b;
      FilterAppend(a[1..], b, p);
    }
  }

  /** Two complementary guards split a total: paid plus pending is everything. */
  lemma {:induction false} SumSplit<T>(s: seq<T>, p: T -> bool, q: T -> bool, f: T -> int)
    requires forall x :: q(x) == !p(x)
    ensures SumWhere(s, p, f) + SumWhere(s, q, f) == Sum(s, f)
  {
    if s != [] {
      SumSplit(s[1..], p, q, f);
    }
  }

  /** Taking one record out of a snapshot lowers its total by that record's amount. */
  lemma {:induction false} SumRemove<T>(b: seq<T>, i: nat, f: T -> int)
    requires i < |b|
    ensures Sum(b, f) == f(b[i]) + Sum(b[..i] + b[i + 1..], f)
  {
    assert b == b[..i] + ([b[i]] + b[i + 1..]);
    SumAppend(b[..i], [b[i]] + b[i + 1..], f);
    assert ([b[i]] + b[i + 1..])[1..] == b[i + 1..];
    SumAppend(b[..i], b[i + 1..], f);
  }

  /** A total does not depend on the order in which the feed delivered the records. */
  lemma {:induction false} SumPermutation<T>(a: seq<T>, b: seq<T>, f: T -> int)
    requires multiset(a) == multiset(b)
    ensures Sum(a, f) == Sum(b, f)
    decreases |a|
  {
    if a == [] {
      assert |b| == |multiset(b)| == 0;
    } else {
      var x := a[0];
      assert x in multiset(b);
      var i :| 0 <= i < |b| && b[i] == x;
      var rest := b[..i] + b[i + 1..];
      assert b == b[..i] + [x] + b[i + 1..];
      assert a == [x] + a[1..];
      assert multiset(a[1..]) == multiset(rest) by {
        calc {
          multiset(rest);
          multiset(b[..i]) + multiset(b[i + 1..]);
          multiset(b) - multiset{x};
          multiset(a) - multiset{x};
          multiset(a[1..]);
        }
      }
      SumPermutation(a[1..], rest, f);
      SumRemove(b, i, f);
    }
  }

  /** With non-negative amounts, filtering first can only lower a guarded total. */
  lemma {:induction false} FilteredTotalAtMost<T(!new)>(s: seq<T>, q: T -> bool, p: T -> bool, f: T -> int)
    requires forall i | 0 <= i < |s| :: f(s[i]) >= 0
    ensures SumWhere(Filter(s, q), p, f) <= SumWhere(s, p, f)
  {
    if s != [] {
      FilteredTotalAtMost(s[1..], q, p, f);
    }
  }

  /** Summing a projected field of mapped records is summing the field before mapping. */
  lemma {:induction false} SumOfMap<A, B>(s: seq<A>, f: A -> B, g: B -> int, h: A -> int)
    requires forall x :: g(f(x)) == h(x)
    ensures Sum(Map(s, f), g) == Sum(s, h)
  {
    if s != [] {
      SumOfMap(s[1..], f, g, h);
    }
  }
}
