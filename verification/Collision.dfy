/**
 Collision resolution: several pods can be assigned to one job, and every loser moves to another
 unassigned job or becomes a scale-up pod.  One step at a time, on current reads, this ends.
*/
module Collision {
  import opened Api
  import opened Sets
  import opened Strings

  datatype Pod = Pod(uid: Uid, name: string, created: Time)

  /** The jobs with their source's UID, the pods, and who is assigned to what. */
  datatype State = State(jobs: map<string, Uid>, pods: set<Pod>, assignment: map<Pod, string>)

  /** Pod names are unique, and only pods that exist are assigned. */
  ghost predicate Valid(s: State) {
    && s.assignment.Keys <= s.pods
    && (forall p, q :: p in s.pods && q in s.pods && p.name == q.name ==> p == q)
    && (forall p, q :: p in s.pods && q in s.pods && p.uid == q.uid ==> p == q)
  }

  /** The pods assigned to job j, without the pod that is being migrated. */
  function Contenders(s: State, j: string): set<Pod>
    requires j in s.jobs
  {
    set p | p in s.assignment && s.assignment[p] == j && p.uid != s.jobs[j]
  }

  // ----- The winner -----

  /** Older first, then by name. */
  predicate Before(p: Pod, q: Pod) {
    p.created < q.created || (p.created == q.created && Less(p.name, q.name))
  }

  lemma BeforeTransitive(p: Pod, q: Pod, r: Pod)
    requires Before(p, q) && Before(q, r)
    ensures Before(p, r)
  {
    if p.created == q.created == r.created {
      LessTransitive(p.name, q.name, r.name);
    }
  }

  lemma BeforeTotal(p: Pod, q: Pod)
    requires p.name != q.name
    ensures Before(p, q) || Before(q, p)
    ensures !(Before(p, q) && Before(q, p))
  {
    LessTotal(p.name, q.name);
    if Less(p.name, q.name) && Less(q.name, p.name) {
      LessTransitive(p.name, q.name, p.name);
      LessIrreflexive(p.name);
    }
  }

  ghost predicate Wins(p: Pod, contenders: set<Pod>) {
    p in contenders && forall q :: q in contenders && q != p ==> Before(p, q)
  }

  ghost predicate NamesUnique(pods: set<Pod>) {
    forall p, q :: p in pods && q in pods && p.name == q.name ==> p == q
  }

  /** There is exactly one winner, so no listing order can change it. */
  lemma WinnerUnique(p: Pod, q: Pod, contenders: set<Pod>)
    requires NamesUnique(contenders) && Wins(p, contenders) && Wins(q, contenders)
    ensures p == q
  {
    if p != q {
      BeforeTotal(p, q);
    }
  }

  lemma {:induction false} WinnerExists(contenders: set<Pod>) returns (w: Pod)
    requires NamesUnique(contenders) && contenders != {}
    ensures Wins(w, contenders)
    decreases |contenders|
  {
    var p :| p in contenders;
    var rest := contenders - {p};
    assert contenders == rest + {p};
    if rest == {} {
      w := p;
    } else {
      var v := WinnerExists(rest);
      BeforeTotal(p, v);
      if Before(p, v) {
        w := p;
        forall q | q in contenders && q != p ensures Before(p, q) {
          if q != v {
            BeforeTransitive(p, v, q);
          }
        }
      } else {
        w := v;
      }
    }
  }

  predicate Sorted(s: seq<Pod>) {
    forall i, k :: 0 <= i < k < |s| ==> Before(s[i], s[k])
  }

  /** Sorts a listing, in whatever order the list came. */
  method SortContenders(list: seq<Pod>) returns (sorted: seq<Pod>)
    requires forall i, k :: 0 <= i < k < |list| ==> list[i].name != list[k].name
    ensures Sorted(sorted) && multiset(sorted) == multiset(list)
  {
    sorted := [];
    for n := 0 to |list|
      invariant Sorted(sorted) && multiset(sorted) == multiset(list[..n])
    {
      assert list[..n + 1] == list[..n] + [list[n]];
      forall q | q in sorted ensures q.name != list[n].name {
        assert q in multiset(list[..n]);
        var k :| 0 <= k < n && list[k] == q;
      }
      sorted := Insert(sorted, list[n]);
    }
    assert list[..|list|] == list;
  }

  method Insert(sorted: seq<Pod>, p: Pod) returns (r: seq<Pod>)
    requires Sorted(sorted) && forall q :: q in sorted ==> q.name != p.name
    ensures Sorted(r) && multiset(r) == multiset(sorted) + multiset{p}
  {
    var k := 0;
    while k < |sorted| && Before(sorted[k], p)
      invariant k <= |sorted| && forall i :: 0 <= i < k ==> Before(sorted[i], p)
    {
      k := k + 1;
    }
    r := sorted[..k] + [p] + sorted[k..];
    assert sorted == sorted[..k] + sorted[k..];
    forall i | k <= i < |sorted| ensures Before(p, sorted[i]) {
      assert sorted[k] in sorted;
      BeforeTotal(p, sorted[k]);
      if i > k {
        BeforeTransitive(p, sorted[k], sorted[i]);
      }
    }
  }

  /** The pod that keeps the job: the first of the sorted contenders. */
  method Winner(list: seq<Pod>) returns (w: Pod)
    requires list != [] && forall i, k :: 0 <= i < k < |list| ==> list[i].name != list[k].name
    ensures Wins(w, set p | p in list)
    ensures forall q :: q in list ==> w.created <= q.created
    ensures forall q :: q in list && q.created == w.created && q != w ==> Less(w.name, q.name)
  {
    var sorted := SortContenders(list);
    assert |sorted| == |multiset(sorted)| == |list|;
    w := sorted[0];
    forall q | q in list && q != w ensures Before(w, q) {
      assert q in multiset(sorted);
      var k :| 0 <= k < |sorted| && sorted[k] == q;
    }
    assert w in multiset(list);
  }

  lemma WinsMeans(p: Pod, contenders: set<Pod>)
    requires NamesUnique(contenders) && p in contenders
    ensures Wins(p, contenders) <==>
      !exists q :: q in contenders && (q.created < p.created || (q.created == p.created && Less(q.name, p.name)))
  {
    LessIrreflexive(p.name);
    forall q | q in contenders && q != p ensures Before(p, q) <==> !Before(q, p) {
      BeforeTotal(p, q);
    }
  }

  // ----- The steps -----

  /** Pod p has to give up its job: others hold it too, and one of them wins. */
  ghost predicate Loses(s: State, p: Pod) {
    && p in s.assignment
    && s.assignment[p] in s.jobs
    && |Contenders(s, s.assignment[p])| > 1
    && !Wins(p, Contenders(s, s.assignment[p]))
  }

  ghost function Losers(s: State): set<Pod> {
    set p | p in s.assignment && Loses(s, p)
  }

  /** No pod is assigned to job j. */
  ghost predicate Unassigned(s: State, j: string) {
    forall p :: p in s.assignment ==> s.assignment[p] != j
  }

  /** A loser moves to an unassigned job, or drops its assignment. */
  ghost function Resolve(s: State, p: Pod, alternative: Option<string>): State {
    if alternative.Some? then s.(assignment := s.assignment[p := alternative.value])
    else s.(assignment := s.assignment - {p})
  }

  /** A step on current reads: the alternative, if there is one, exists and is unassigned. */
  ghost predicate Enabled(s: State, p: Pod, alternative: Option<string>) {
    Loses(s, p) && (alternative.Some? ==> alternative.value in s.jobs && Unassigned(s, alternative.value))
  }

  /** Whoever held another job than p's keeps the same contenders. */
  lemma OtherJobsUnchanged(s: State, p: Pod, alternative: Option<string>, j: string)
    requires Enabled(s, p, alternative) && j in s.jobs && j != s.assignment[p] && alternative != Some(j)
    ensures Contenders(Resolve(s, p, alternative), j) == Contenders(s, j)
  {
  }

  lemma LeftJobShrinks(s: State, p: Pod, alternative: Option<string>)
    requires Enabled(s, p, alternative)
    ensures Contenders(Resolve(s, p, alternative), s.assignment[p]) == Contenders(s, s.assignment[p]) - {p}
  {
  }

  lemma NewJobHasOne(s: State, p: Pod, j: string)
    requires Enabled(s, p, Some(j))
    ensures Contenders(Resolve(s, p, Some(j)), j) <= {p}
  {
  }

  lemma WinsAmongFewer(q: Pod, all: set<Pod>, some: set<Pod>)
    requires some <= all
    ensures Wins(q, all) && q in some ==> Wins(q, some)
  {
  }

  lemma StillLoses(s: State, p: Pod, alternative: Option<string>, q: Pod)
    requires Valid(s) && Enabled(s, p, alternative) && Loses(Resolve(s, p, alternative), q)
    ensures q != p && Loses(s, q)
  {
    var t := Resolve(s, p, alternative);
    var j := t.assignment[q];
    if alternative == Some(j) {
      NewJobHasOne(s, p, j);
      SubsetSize(Contenders(t, j), {p});
      assert false;
    } else if j == s.assignment[p] {
      LeftJobShrinks(s, p, alternative);
      SubsetSize(Contenders(t, j), Contenders(s, j));
      assert q != p;
      WinsAmongFewer(q, Contenders(s, j), Contenders(t, j));
    } else {
      OtherJobsUnchanged(s, p, alternative, j);
    }
  }

  /** Every step leaves strictly fewer losers. */
  lemma StepShrinks(s: State, p: Pod, alternative: Option<string>)
    requires Valid(s) && Enabled(s, p, alternative)
    ensures Valid(Resolve(s, p, alternative))
    ensures Losers(Resolve(s, p, alternative)) < Losers(s)
    ensures |Losers(Resolve(s, p, alternative))| < |Losers(s)|
  {
    var t := Resolve(s, p, alternative);
    forall q | q in Losers(t) ensures q in Losers(s) - {p} {
      StillLoses(s, p, alternative, q);
    }
    assert p in Losers(s);
    SubsetSize(Losers(t), Losers(s) - {p});
  }

  datatype Step = Step(pod: Pod, alternative: Option<string>)

  ghost predicate AllEnabled(s: State, steps: seq<Step>)
    decreases |steps|
  {
    steps == [] ||
    (Enabled(s, steps[0].pod, steps[0].alternative)
     && AllEnabled(Resolve(s, steps[0].pod, steps[0].alternative), steps[1..]))
  }

  ghost function Run(s: State, steps: seq<Step>): State
    decreases |steps|
  {
    if steps == [] then s else Run(Resolve(s, steps[0].pod, steps[0].alternative), steps[1..])
  }

  /** From any assignment, resolution takes no more steps than there are losers. */
  lemma {:induction false} Terminates(s: State, steps: seq<Step>)
    requires Valid(s) && AllEnabled(s, steps)
    ensures Valid(Run(s, steps)) && |steps| + |Losers(Run(s, steps))| <= |Losers(s)|
    decreases |steps|
  {
    if steps != [] {
      StepShrinks(s, steps[0].pod, steps[0].alternative);
      Terminates(Resolve(s, steps[0].pod, steps[0].alternative), steps[1..]);
    }
  }

  /** Where no step is enabled, every job has at most one pod besides its source. */
  lemma StuckMeansResolved(s: State, j: string)
    requires Valid(s) && j in s.jobs && forall p :: !Enabled(s, p, None)
    ensures |Contenders(s, j)| <= 1
  {
    var c := Contenders(s, j);
    if |c| > 1 {
      var w := WinnerExists(c);
      assert |c - {w}| == |c| - 1;
      var q :| q in c - {w};
      assert Before(w, q);
      if Wins(q, c) {
        WinnerUnique(w, q, c);
      }
      assert Enabled(s, q, None);
    }
  }

  /** The winner of a collision keeps the job through every step of every other pod. */
  lemma WinnerStays(s: State, p: Pod, alternative: Option<string>, w: Pod, j: string)
    requires Valid(s) && Enabled(s, p, alternative) && j in s.jobs && Wins(w, Contenders(s, j)) && w.uid != s.jobs[j]
    ensures Wins(w, Contenders(Resolve(s, p, alternative), j))
  {
  }

  /** Of every job's contenders, all but the winner are losers: the losers count the contenders beyond one. */
  lemma LosersPerJob(s: State, j: string)
    requires Valid(s) && j in s.jobs
    ensures |Losers(s) * Contenders(s, j)| == if Contenders(s, j) == {} then 0 else |Contenders(s, j)| - 1
  {
    var c := Contenders(s, j);
    if c == {} {
      assert Losers(s) * c == {};
    } else {
      var w := WinnerExists(c);
      forall q | q in c ensures q in Losers(s) <==> q != w {
        if q != w {
          if |c| <= 1 {
            SubsetSize({q, w}, c);
          }
          assert Wins(q, c) ==> q == w by {
            if Wins(q, c) {
              WinnerUnique(q, w, c);
            }
          }
        }
      }
      assert Losers(s) * c == c - {w};
    }
  }

  // ----- The call -----

  /** A listing of the pods assigned to job j, in any order. */
  ghost predicate Lists(list: seq<Pod>, s: State, j: string) {
    && (forall i, k :: 0 <= i < k < |list| ==> list[i] != list[k])
    && (forall p :: p in list <==> p in s.assignment && s.assignment[p] == j)
  }

  /** The contenders of a listing, without the source. */
  method DropSource(list: seq<Pod>, source: Uid) returns (contenders: seq<Pod>)
    requires forall i, k :: 0 <= i < k < |list| ==> list[i] != list[k]
    ensures forall i, k :: 0 <= i < k < |contenders| ==> contenders[i] != contenders[k]
    ensures forall p :: p in contenders <==> p in list && p.uid != source
  {
    contenders := [];
    for n := 0 to |list|
      invariant forall p :: p in contenders <==> p in list[..n] && p.uid != source
      invariant forall i, k :: 0 <= i < k < |contenders| ==> contenders[i] != contenders[k]
    {
      assert list[..n + 1] == list[..n] + [list[n]];
      if list[n].uid != source {
        assert list[n] !in list[..n];
        contenders := contenders + [list[n]];
      }
    }
    assert list[..|list|] == list;
  }

  lemma {:induction false} DistinctSize(list: seq<Pod>)
    requires forall i, k :: 0 <= i < k < |list| ==> list[i] != list[k]
    ensures |set p | p in list| == |list|
  {
    if list == [] {
      assert (set p | p in list) == {};
    } else {
      var init, last := list[..|list| - 1], list[|list| - 1];
      DistinctSize(init);
      assert last !in init;
      assert (set p | p in list) == (set p | p in init) + {last};
    }
  }

  /**
   What one reconcile decides for pod p: whatever the listing order, p moves exactly when it
   loses, to the alternative that the lookup found, if any.
  */
  method ResolveCollision(s: State, p: Pod, list: seq<Pod>, alternative: Option<string>)
      returns (job: Option<string>, changed: bool)
    requires Valid(s) && p in s.assignment && Lists(list, s, s.assignment[p])
    ensures changed <==> Loses(s, p)
    ensures changed <==>
      && s.assignment[p] in s.jobs
      && |Contenders(s, s.assignment[p])| > 1
      && (|| p.uid == s.jobs[s.assignment[p]]
          || exists q :: q in Contenders(s, s.assignment[p])
               && (q.created < p.created || (q.created == p.created && Less(q.name, p.name))))
    ensures job == if changed then alternative else Some(s.assignment[p])
  {
    var held := s.assignment[p];
    if held !in s.jobs {
      return Some(held), false;
    }
    var contenders := DropSource(list, s.jobs[held]);
    assert (set q | q in contenders) == Contenders(s, held);
    DistinctSize(contenders);
    if p.uid != s.jobs[held] {
      WinsMeans(p, Contenders(s, held));
    }
    if |contenders| <= 1 {
      return Some(held), false;
    }
    var w := Winner(contenders);
    if w.uid == p.uid {
      return Some(held), false;
    }
    if Wins(p, Contenders(s, held)) {
      WinnerUnique(w, p, Contenders(s, held));
    }
    return alternative, true;
  }
}
