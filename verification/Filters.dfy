/** Filtering a sequence, and what does not depend on its order. */
module Filters {
  function Filter<T>(s: seq<T>, p: T -> bool): seq<T> {
    if s == [] then []
    else Filter(s[..|s| - 1], p) + (if p(s[|s| - 1]) then [s[|s| - 1]] else [])
  }

  lemma {:induction false} FilterConcat<T>(s: seq<T>, t: seq<T>, p: T -> bool)
    ensures Filter(s + t, p) == Filter(s, p) + Filter(t, p)
  {
    if t == [] {
      assert s + t == s;
    } else {
      assert (s + t)[..|s + t| - 1] == s + t[..|t| - 1];
      FilterConcat(s, t[..|t| - 1], p);
    }
  }

  lemma {:induction false} FilterNone<T>(s: seq<T>, p: T -> bool)
    requires forall x :: x in s ==> !p(x)
    ensures Filter(s, p) == []
  {
    if s != [] {
      FilterNone(s[..|s| - 1], p);
    }
  }

  lemma {:induction false} FilterAll<T>(s: seq<T>, p: T -> bool)
    requires forall x :: x in s ==> p(x)
    ensures Filter(s, p) == s
  {
    if s != [] {
      FilterAll(s[..|s| - 1], p);
      assert s == s[..|s| - 1] + [s[|s| - 1]];
    }
  }

  /** How often an element passes depends on how often it is there. */
  lemma {:induction false} FilterCounts<T>(s: seq<T>, p: T -> bool, x: T)
    ensures multiset(Filter(s, p))[x] == if p(x) then multiset(s)[x] else 0
  {
    if s != [] {
      assert s == s[..|s| - 1] + [s[|s| - 1]];
      FilterCounts(s[..|s| - 1], p, x);
    }
  }

  lemma FilterKeeps<T>(s: seq<T>, p: T -> bool, x: T)
    ensures x in Filter(s, p) <==> x in s && p(x)
  {
    FilterCounts(s, p, x);
    assert x in s <==> multiset(s)[x] > 0;
    assert x in Filter(s, p) <==> multiset(Filter(s, p))[x] > 0;
  }

  /** The same elements in another order. */
  ghost predicate Permuted<T>(s: seq<T>, t: seq<T>) {
    multiset(s) == multiset(t)
  }

  /** One element more in the middle of a sequence. */
  lemma MiddleCounts<T>(a: seq<T>, x: T, b: seq<T>, p: T -> bool)
    ensures multiset(a + [x] + b) == multiset(a + b) + multiset{x}
    ensures multiset(Filter(a + [x] + b, p)) == multiset(Filter(a + b, p)) + multiset(Filter([x], p))
  {
    hide Filter;
    FilterConcat(a, b, p);
    FilterConcat(a + [x], b, p);
    FilterConcat(a, [x], p);
  }

  lemma SplitAt<T>(t: seq<T>, x: T) returns (a: seq<T>, b: seq<T>)
    requires x in t
    ensures t == a + [x] + b
  {
    var k :| 0 <= k < |t| && t[k] == x;
    a, b := t[..k], t[k + 1..];
  }

  lemma {:induction false} FilterPermuted<T>(s: seq<T>, t: seq<T>, p: T -> bool)
    requires Permuted(s, t)
    ensures Permuted(Filter(s, p), Filter(t, p))
    decreases |s|
  {
    if s == [] {
      assert |t| == |multiset(t)| == 0;
    } else {
      hide Filter;
      var x := s[0];
      PermutedMembers(s, t, x);
      var a, b := SplitAt(s, x);
      var c, d := SplitAt(t, x);
      MiddleCounts(a, x, b, p);
      MiddleCounts(c, x, d, p);
      SameRest(multiset(a + b), multiset(c + d), x);
      FilterPermuted(a + b, c + d, p);
    }
  }

  lemma SameRest<T>(m: multiset<T>, n: multiset<T>, x: T)
    requires m + multiset{x} == n + multiset{x}
    ensures m == n
  {
    assert m == m + multiset{x} - multiset{x};
    assert n == n + multiset{x} - multiset{x};
  }

  lemma PermutedSize<T>(s: seq<T>, t: seq<T>)
    requires Permuted(s, t)
    ensures |s| == |t|
  {
    assert |s| == |multiset(s)| && |t| == |multiset(t)|;
  }

  lemma PermutedMembers<T>(s: seq<T>, t: seq<T>, x: T)
    requires Permuted(s, t)
    ensures x in s <==> x in t
  {
    assert x in s <==> x in multiset(s);
    assert x in t <==> x in multiset(t);
  }

  function Not<T>(p: T -> bool): T -> bool {
    (x: T) => !p(x)
  }

  lemma {:induction false} SplitCounts<T>(s: seq<T>, p: T -> bool)
    ensures multiset(Filter(s, p)) + multiset(Filter(s, Not(p))) == multiset(s)
  {
    if s != [] {
      assert s == s[..|s| - 1] + [s[|s| - 1]];
      SplitCounts(s[..|s| - 1], p);
    }
  }

  /** What passes, followed by what does not, is the whole in another order. */
  lemma SplitPermuted<T>(s: seq<T>, p: T -> bool, part: seq<T>)
    requires Permuted(part, Filter(s, p))
    ensures Permuted(part + Filter(s, Not(p)), s)
  {
    SplitCounts(s, p);
  }
}
