/**
 Spot preemption: which pods of a node that is about to vanish are migrated, under the node's
 memory budget.  Smallest first is claimed to preserve the most workloads.
*/
module Preemption {
  import opened Api
  import opened Sets
  import opened Strings

  datatype Candidate = Candidate(uid: Uid, name: string, created: Time, size: nat)

  /** Smaller first, then older, then by name. */
  predicate Before(a: Candidate, b: Candidate) {
    || a.size < b.size
    || (a.size == b.size && a.created < b.created)
    || (a.size == b.size && a.created == b.created && Less(a.name, b.name))
  }

  predicate Sorted(s: seq<Candidate>) {
    forall i, k :: 0 <= i < k < |s| ==> !Before(s[k], s[i])
  }

  lemma SortedBySize(s: seq<Candidate>)
    requires Sorted(s)
    ensures forall i, k :: 0 <= i <= k < |s| ==> s[i].size <= s[k].size
  {
  }

  lemma NotBeforeTransitive(a: Candidate, b: Candidate, c: Candidate)
    requires !Before(b, a) && !Before(c, b)
    ensures !Before(c, a)
  {
    LessTotal(a.name, b.name);
    LessTotal(b.name, c.name);
    if a.size == b.size == c.size && a.created == b.created == c.created && Less(c.name, a.name) {
      if Less(a.name, b.name) {
        LessTransitive(c.name, a.name, b.name);
      }
    }
  }

  lemma BeforeAsymmetric(a: Candidate, b: Candidate)
    requires Before(a, b)
    ensures !Before(b, a)
  {
    if Less(a.name, b.name) && Less(b.name, a.name) {
      LessTransitive(a.name, b.name, a.name);
      LessIrreflexive(a.name);
    }
  }

  /** The stable sort of the candidates. */
  method Sort(list: seq<Candidate>) returns (sorted: seq<Candidate>)
    ensures Sorted(sorted) && multiset(sorted) == multiset(list)
    ensures forall i, k :: 0 <= i < k < |sorted| ==>
      var a, b := sorted[i], sorted[k];
      && a.size <= b.size
      && (a.size == b.size ==> a.created <= b.created)
      && (a.size == b.size && a.created == b.created ==> a.name == b.name || Less(a.name, b.name))
  {
    sorted := [];
    for n := 0 to |list|
      invariant Sorted(sorted) && multiset(sorted) == multiset(list[..n])
    {
      assert list[..n + 1] == list[..n] + [list[n]];
      sorted := Insert(sorted, list[n]);
    }
    assert list[..|list|] == list;
    forall i, k | 0 <= i < k < |sorted| ensures
      sorted[i].name == sorted[k].name || Less(sorted[i].name, sorted[k].name) || Less(sorted[k].name, sorted[i].name)
    {
      LessTotal(sorted[i].name, sorted[k].name);
    }
  }

  method Insert(sorted: seq<Candidate>, c: Candidate) returns (r: seq<Candidate>)
    requires Sorted(sorted)
    ensures Sorted(r) && multiset(r) == multiset(sorted) + multiset{c}
  {
    var k := |sorted|;
    while k > 0 && Before(c, sorted[k - 1])
      invariant 0 <= k <= |sorted| && forall i :: k <= i < |sorted| ==> Before(c, sorted[i])
    {
      k := k - 1;
    }
    r := sorted[..k] + [c] + sorted[k..];
    assert sorted == sorted[..k] + sorted[k..];
    forall i | 0 <= i < k ensures !Before(c, sorted[i]) {
      if i < k - 1 {
        NotBeforeTransitive(sorted[i], sorted[k - 1], c);
      }
    }
    forall i | k <= i < |sorted| ensures !Before(sorted[i], c) {
      BeforeAsymmetric(c, sorted[i]);
    }
  }

  function Sum(s: seq<Candidate>): nat {
    if s == [] then 0 else Sum(s[..|s| - 1]) + s[|s| - 1].size
  }

  lemma {:induction false} SumPrefix(s: seq<Candidate>, k: nat)
    requires k <= |s|
    ensures Sum(s[..k]) <= Sum(s)
  {
    if k < |s| {
      SumPrefix(s[..|s| - 1], k);
      assert s[..|s| - 1][..k] == s[..k];
    } else {
      assert s[..k] == s;
    }
  }

  // ----- Sets of candidates -----

  ghost function Weight(t: set<Candidate>): nat {
    if t == {} then 0 else var c :| c in t; c.size + Weight(t - {c})
  }

  lemma {:induction false} WeightWithout(t: set<Candidate>, c: Candidate)
    requires c in t
    ensures Weight(t) == c.size + Weight(t - {c})
    decreases |t|
  {
    var d :| d in t && Weight(t) == d.size + Weight(t - {d});
    if d != c {
      WeightWithout(t - {d}, c);
      WeightWithout(t - {c}, d);
      assert t - {d} - {c} == t - {c} - {d};
    }
  }

  function Elements(s: seq<Candidate>): set<Candidate> {
    set c | c in s
  }

  lemma {:induction false} ElementsAtMost(s: seq<Candidate>)
    ensures |Elements(s)| <= |s|
  {
    if s == [] {
      assert Elements(s) == {};
    } else {
      var init, last := s[..|s| - 1], s[|s| - 1];
      ElementsAtMost(init);
      assert Elements(s) == Elements(init) + {last};
    }
  }

  lemma ElementsLast(s: seq<Candidate>)
    requires s != []
    ensures Elements(s) == Elements(s[..|s| - 1]) + {s[|s| - 1]}
  {
  }

  lemma ElementsBound(s: seq<Candidate>, t: set<Candidate>)
    requires t <= Elements(s)
    ensures |t| <= |s|
  {
    SubsetSize(t, Elements(s));
    ElementsAtMost(s);
  }

  lemma SumLast(s: seq<Candidate>, n: nat)
    requires 0 < n <= |s|
    ensures Sum(s[..n]) == Sum(s[..n - 1]) + s[n - 1].size
  {
    assert s[..n][..n - 1] == s[..n - 1];
  }

  /** Any set of candidates weighs at least as much as the same number of smallest ones. */
  lemma {:induction false} SmallestWeighLeast(s: seq<Candidate>, t: set<Candidate>)
    requires Sorted(s) && t <= Elements(s)
    ensures |t| <= |s| && Sum(s[..|t|]) <= Weight(t)
    decreases |s|
  {
    hide Sum, Weight, Before, Elements;
    ElementsBound(s, t);
    if t == {} {
      EmptyWeighsNothing(s);
    } else {
      var init, last := s[..|s| - 1], s[|s| - 1];
      ElementsLast(s);
      if last in t {
        WeightWithout(t, last);
        SmallestWeighLeast(init, t - {last});
        SortedBySize(s);
        SumLast(s, |t|);
        assert init[..|t| - 1] == s[..|t| - 1];
      } else {
        SmallestWeighLeast(init, t);
        assert init[..|t|] == s[..|t|];
      }
    }
  }

  lemma EmptyWeighsNothing(s: seq<Candidate>)
    ensures Sum(s[..0]) == 0 == Weight({})
  {
  }

  // ----- The budget loop -----

  /** `DefaultSpotPreemptionNodeBudget` applies when none is configured. */
  function Budget(configured: int, standard: nat): nat {
    if configured <= 0 then standard else configured
  }

  /** The loop over the sorted candidates: one that does not fit is skipped, and the loop goes on. */
  method Spend(sorted: seq<Candidate>, budget: nat) returns (admitted: seq<Candidate>, remaining: nat)
    requires Sorted(sorted)
    ensures admitted <= sorted && Sum(admitted) + remaining == budget
    ensures |admitted| < |sorted| ==> sorted[|admitted|].size > remaining
  {
    admitted, remaining := [], budget;
    SortedBySize(sorted);
    for i := 0 to |sorted|
      invariant admitted <= sorted[..i] && Sum(admitted) + remaining == budget
      invariant |admitted| < i ==> sorted[|admitted|].size > remaining
    {
      if sorted[i].size > remaining {
        continue;
      }
      assert |admitted| == i;
      assert (admitted + [sorted[i]])[..i] == admitted;
      admitted := admitted + [sorted[i]];
      remaining := remaining - sorted[i].size;
    }
  }

  /**
   The admitted pods are a prefix of the sorted candidates, they fit the budget, and no set of
   candidates that fits the budget has more members.
  */
  method Admit(candidates: seq<Candidate>, configured: int, standard: nat)
      returns (sorted: seq<Candidate>, admitted: seq<Candidate>)
    ensures Sorted(sorted) && multiset(sorted) == multiset(candidates)
    ensures admitted <= sorted && Sum(admitted) <= Budget(configured, standard)
    ensures forall t: set<Candidate> :: t <= Elements(candidates) && Weight(t) <= Budget(configured, standard) ==>
        |t| <= |admitted|
  {
    sorted := Sort(candidates);
    var remaining;
    admitted, remaining := Spend(sorted, Budget(configured, standard));
    forall t: set<Candidate> | t <= Elements(candidates) && Weight(t) <= Budget(configured, standard)
      ensures |t| <= |admitted|
    {
      forall c | c in t ensures c in Elements(sorted) {
        assert c in multiset(candidates);
      }
      SmallestWeighLeast(sorted, t);
      assert sorted[..|admitted|] == admitted;
      if |t| > |admitted| {
        OneMoreOverspends(sorted, |admitted|, |t|, remaining);
      }
    }
  }

  /** One more than the admitted pods already exceeds the budget. */
  lemma OneMoreOverspends(sorted: seq<Candidate>, k: nat, m: nat, remaining: nat)
    requires k < m <= |sorted| && sorted[k].size > remaining
    ensures Sum(sorted[..m]) > Sum(sorted[..k]) + remaining
  {
    assert sorted[..k + 1][..k] == sorted[..k];
    SumPrefix(sorted[..m], k + 1);
    assert sorted[..m][..k + 1] == sorted[..k + 1];
  }
}
