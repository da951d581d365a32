/**
 The indexed lookup, whose index lists come in any order, against the full scan: what does not
 depend on the order, and exactly when nothing does.
*/
module LookupOrder {
  import opened Api
  import opened Filters
  import opened Lookup

  // ----- Candidates in another order -----

  lemma ByRankPermuted(s: seq<Job>)
    ensures Permuted(ByRank(s), s)
  {
    forall x ensures multiset(ByRank(s))[x] == multiset(s)[x] {
      FilterCounts(s, OfRank(0), x);
      FilterCounts(s, OfRank(1), x);
      FilterCounts(s, OfRank(2), x);
    }
  }

  lemma CandidatesPermuted(q: Query, a: seq<Job>, b: seq<Job>)
    requires Permuted(a, b)
    ensures Permuted(Candidates(q, a), Candidates(q, b))
  {
    var f, g := Filter(a, Matching(q)), Filter(b, Matching(q));
    FilterPermuted(a, b, Matching(q));
    FilterPermuted(f, g, SameReplica(q));
    PermutedSize(Filter(f, SameReplica(q)), Filter(g, SameReplica(q)));
    ByRankPermuted(f);
    ByRankPermuted(g);
  }

  lemma AllCandidatesPermuted(q: Query, a: seq<Job>, b: seq<Job>)
    requires Permuted(a, b)
    ensures Permuted(AllCandidates(q, a), AllCandidates(q, b))
  {
    CandidatesPermuted(q, a, b);
    CandidatesPermuted(BareQuery(q), a, b);
    PermutedSize(Candidates(q, a), Candidates(q, b));
  }

  lemma AllCandidatesSorted(q: Query, jobs: seq<Job>)
    ensures SortedByRank(AllCandidates(q, jobs))
  {
    ByRankIsStableSort(Filter(jobs, Matching(q)), 0);
    ByRankIsStableSort(Filter(jobs, Matching(BareQuery(q))), 0);
  }

  // ----- What the walk finds -----

  /** The walk ends at this candidate: it is free, or its replica is ambiguous. */
  predicate Decides(q: Query, j: Job, pods: seq<Pod>, ambiguous: set<string>) {
    Stops(q, j, ambiguous) || Free(j, pods)
  }

  predicate Stops(q: Query, j: Job, ambiguous: set<string>) {
    Operator(q) && j.name in ambiguous
  }

  function Outcome(q: Query, j: Job, ambiguous: set<string>): Option<string> {
    if Stops(q, j, ambiguous) then None else Some(j.name)
  }

  /** The first candidate that decides, or the length. */
  lemma {:induction false} PickIsFirst(q: Query, c: seq<Job>, pods: seq<Pod>, ambiguous: set<string>) returns (i: nat)
    ensures i <= |c| && forall k :: 0 <= k < i ==> !Decides(q, c[k], pods, ambiguous)
    ensures i < |c| ==> Decides(q, c[i], pods, ambiguous) && Pick(q, c, pods, ambiguous) == Outcome(q, c[i], ambiguous)
    ensures i == |c| ==> Pick(q, c, pods, ambiguous) == None
    decreases |c|
  {
    i := 0;
    if c != [] && !Decides(q, c[0], pods, ambiguous) {
      var k := PickIsFirst(q, c[1..], pods, ambiguous);
      i := k + 1;
    }
  }

  /** A candidate that decides, with no deciding candidate of a lower rank. */
  ghost predicate Lowest(q: Query, c: seq<Job>, pods: seq<Pod>, ambiguous: set<string>, j: Job) {
    && j in c && Decides(q, j, pods, ambiguous)
    && forall k :: k in c && Decides(q, k, pods, ambiguous) ==> PhaseRank(j.phase) <= PhaseRank(k.phase)
  }

  ghost predicate NoneDecides(q: Query, c: seq<Job>, pods: seq<Pod>, ambiguous: set<string>) {
    forall j :: j in c ==> !Decides(q, j, pods, ambiguous)
  }

  /** Whatever the listing order, the lookup ends at a candidate of the lowest deciding rank, if there is one. */
  lemma FindsLowest(q: Query, jobs: seq<Job>, pods: seq<Pod>, ambiguous: set<string>) returns (found: Option<Job>)
    ensures found.None? ==>
      && NoneDecides(q, AllCandidates(q, jobs), pods, ambiguous)
      && Find(q, jobs, pods, ambiguous) == None
    ensures found.Some? ==>
      && Lowest(q, AllCandidates(q, jobs), pods, ambiguous, found.value)
      && Find(q, jobs, pods, ambiguous) == Outcome(q, found.value, ambiguous)
  {
    var c := AllCandidates(q, jobs);
    AllCandidatesSorted(q, jobs);
    var i := PickIsFirst(q, c, pods, ambiguous);
    if i == |c| {
      found := None;
    } else {
      found := Some(c[i]);
      forall k | k in c && Decides(q, k, pods, ambiguous) ensures PhaseRank(c[i].phase) <= PhaseRank(k.phase) {
        var n :| 0 <= n < |c| && c[n] == k;
      }
    }
  }

  lemma LowestPermuted(q: Query, a: seq<Job>, b: seq<Job>, pods: seq<Pod>, ambiguous: set<string>, j: Job)
    requires Permuted(a, b) && Lowest(q, a, pods, ambiguous, j)
    ensures Lowest(q, b, pods, ambiguous, j)
  {
    PermutedMembers(a, b, j);
    forall k | k in b && Decides(q, k, pods, ambiguous) ensures PhaseRank(j.phase) <= PhaseRank(k.phase) {
      PermutedMembers(a, b, k);
    }
  }

  /** Two listings of the same jobs end at candidates of the same rank. */
  lemma SameRankInAnyOrder(q: Query, a: seq<Job>, b: seq<Job>, pods: seq<Pod>, ambiguous: set<string>)
      returns (x: Option<Job>, y: Option<Job>)
    requires Permuted(a, b)
    ensures x.Some? <==> y.Some?
    ensures x.Some? ==> PhaseRank(x.value.phase) == PhaseRank(y.value.phase)
    ensures Find(q, a, pods, ambiguous) == (if x.Some? then Outcome(q, x.value, ambiguous) else None)
    ensures Find(q, b, pods, ambiguous) == (if y.Some? then Outcome(q, y.value, ambiguous) else None)
  {
    x := FindsLowest(q, a, pods, ambiguous);
    y := FindsLowest(q, b, pods, ambiguous);
    AllCandidatesPermuted(q, a, b);
    if x.Some? {
      LowestPermuted(q, AllCandidates(q, a), AllCandidates(q, b), pods, ambiguous, x.value);
    }
    if y.Some? {
      LowestPermuted(q, AllCandidates(q, b), AllCandidates(q, a), pods, ambiguous, y.value);
    }
  }

  // ----- When the order does not matter -----

  /** All candidates at which some listing could end have the same outcome. */
  ghost predicate Settled(q: Query, jobs: seq<Job>, pods: seq<Pod>, ambiguous: set<string>) {
    var c := AllCandidates(q, jobs);
    forall j, k :: Lowest(q, c, pods, ambiguous, j) && Lowest(q, c, pods, ambiguous, k) ==>
      Outcome(q, j, ambiguous) == Outcome(q, k, ambiguous)
  }

  lemma SettledAgrees(q: Query, jobs: seq<Job>, other: seq<Job>, pods: seq<Pod>, ambiguous: set<string>)
    requires Settled(q, jobs, pods, ambiguous) && Permuted(other, jobs)
    ensures Find(q, other, pods, ambiguous) == Find(q, jobs, pods, ambiguous)
  {
    var f := FindsLowest(q, jobs, pods, ambiguous);
    var g := FindsLowest(q, other, pods, ambiguous);
    AllCandidatesPermuted(q, other, jobs);
    if g.Some? {
      LowestPermuted(q, AllCandidates(q, other), AllCandidates(q, jobs), pods, ambiguous, g.value);
    }
    if f.Some? {
      LowestPermuted(q, AllCandidates(q, jobs), AllCandidates(q, other), pods, ambiguous, f.value);
    }
  }

  /** The listing that starts with the k-th job. */
  function Fronted(jobs: seq<Job>, k: nat): seq<Job>
    requires k < |jobs|
  {
    [jobs[k]] + jobs[..k] + jobs[k + 1..]
  }

  lemma FrontedPermuted(jobs: seq<Job>, k: nat)
    requires k < |jobs|
    ensures Permuted(Fronted(jobs, k), jobs)
  {
    assert jobs == jobs[..k] + [jobs[k]] + jobs[k + 1..];
  }

  lemma FilterFront(j: Job, rest: seq<Job>, p: Job -> bool)
    requires p(j)
    ensures Filter([j] + rest, p) == [j] + Filter(rest, p)
  {
    FilterConcat([j], rest, p);
    FilterAll([j], p);
  }

  /** In a listing that starts with j, j is the first of its rank. */
  lemma FrontIsFirstOfRank(q: Query, j: Job, rest: seq<Job>)
    requires Matches(q, j)
    ensures var found := Filter([j] + rest, Matching(q));
      Filter(found, OfRank(PhaseRank(j.phase))) != [] && Filter(found, OfRank(PhaseRank(j.phase)))[0] == j
  {
    hide Filter;
    FilterFront(j, rest, Matching(q));
    FilterFront(j, Filter(rest, Matching(q)), OfRank(PhaseRank(j.phase)));
  }

  /** Where the first of a rank stands among the candidates: behind those of lower rank. */
  lemma FirstOfRankAt(s: seq<Job>, r: nat) returns (at: nat)
    requires r <= 2 && Filter(s, OfRank(r)) != []
    ensures at < |ByRank(s)| && ByRank(s)[at] == Filter(s, OfRank(r))[0]
    ensures forall k :: 0 <= k < at ==> PhaseRank(ByRank(s)[k].phase) < r
  {
    hide Filter;
    var a, b, c := Filter(s, OfRank(0)), Filter(s, OfRank(1)), Filter(s, OfRank(2));
    RankWithinRank(s, 0, 0);
    RankWithinRank(s, 1, 1);
    at := if r == 0 then 0 else if r == 1 then |a| else |a| + |b|;
    var t := a + b + c;
    forall k | 0 <= k < at ensures PhaseRank(t[k].phase) < r {
      assert t[k] in (if k < |a| then a else b);
    }
  }

  lemma LowestIsCandidate(q: Query, c: seq<Job>, pods: seq<Pod>, ambiguous: set<string>, j: Job)
    requires Lowest(q, c, pods, ambiguous, j)
    ensures j in c
  {
  }

  /** Candidates for q of a listing that starts with j, where the replica is not refused. */
  lemma FrontedFinds(q: Query, p: Query, jobs: seq<Job>, k: nat, pods: seq<Pod>, ambiguous: set<string>)
    requires k < |jobs| && p == (if Candidates(q, jobs) == [] && HasPodNameKey(q) then BareQuery(q) else q)
    requires Lowest(q, AllCandidates(q, jobs), pods, ambiguous, jobs[k])
    ensures Find(q, Fronted(jobs, k), pods, ambiguous) == Outcome(q, jobs[k], ambiguous)
  {
    hide Filter, ByRank, Lowest, Matches, Pick;
    var j := jobs[k];
    var other := Fronted(jobs, k);
    FrontedPermuted(jobs, k);
    assert AllCandidates(q, jobs) == Candidates(p, jobs);
    CandidatesPermuted(q, other, jobs);
    PermutedSize(Candidates(q, other), Candidates(q, jobs));
    CandidatesPermuted(p, other, jobs);
    PermutedSize(Candidates(p, other), Candidates(p, jobs));
    LowestIsCandidate(q, Candidates(p, jobs), pods, ambiguous, j);
    CandidatesAreJobs(p, jobs, j);
    assert other == [j] + (jobs[..k] + jobs[k + 1..]);
    FrontIsFirstOfRank(p, j, jobs[..k] + jobs[k + 1..]);
    var found := Filter(other, Matching(p));
    assert Candidates(p, other) != [];
    var at := FirstOfRankAt(found, PhaseRank(j.phase));
    FirstDecides(q, ByRank(found), Candidates(p, jobs), at, pods, ambiguous);
  }

  /** The walk over c ends at position `at`: everything before it has a rank at which nothing decides. */
  lemma FirstDecides(q: Query, c: seq<Job>, all: seq<Job>, at: nat, pods: seq<Pod>, ambiguous: set<string>)
    requires Permuted(c, all) && at < |c| && Lowest(q, all, pods, ambiguous, c[at])
    requires forall k :: 0 <= k < at ==> PhaseRank(c[k].phase) < PhaseRank(c[at].phase)
    ensures Pick(q, c, pods, ambiguous) == Outcome(q, c[at], ambiguous)
  {
    forall k | 0 <= k < at ensures !Decides(q, c[k], pods, ambiguous) {
      PermutedMembers(c, all, c[k]);
    }
    var i := PickIsFirst(q, c, pods, ambiguous);
  }

  /**
   Exactly when the listing order does not matter: every listing of the jobs yields the same result
   if and only if all deciding candidates of the lowest deciding rank have the same outcome.
  */
  lemma OrderIrrelevantIffSettled(q: Query, jobs: seq<Job>, pods: seq<Pod>, ambiguous: set<string>)
    ensures (forall other :: Permuted(other, jobs) ==>
        Find(q, other, pods, ambiguous) == Find(q, jobs, pods, ambiguous))
      <==> Settled(q, jobs, pods, ambiguous)
  {
    if Settled(q, jobs, pods, ambiguous) {
      forall other | Permuted(other, jobs) ensures Find(q, other, pods, ambiguous) == Find(q, jobs, pods, ambiguous) {
        SettledAgrees(q, jobs, other, pods, ambiguous);
      }
    }
    if forall other :: Permuted(other, jobs) ==> Find(q, other, pods, ambiguous) == Find(q, jobs, pods, ambiguous) {
      var c := AllCandidates(q, jobs);
      forall j | Lowest(q, c, pods, ambiguous, j) ensures Outcome(q, j, ambiguous) == Find(q, jobs, pods, ambiguous) {
        AllCandidatesAreJobs(q, jobs, j);
        var k :| 0 <= k < |jobs| && jobs[k] == j;
        var asked := if Candidates(q, jobs) == [] && HasPodNameKey(q) then BareQuery(q) else q;
        FrontedFinds(q, asked, jobs, k, pods, ambiguous);
        FrontedPermuted(jobs, k);
      }
    }
  }

  /** With distinct names that means: one deciding candidate of the lowest rank, or none but ambiguous ones. */
  lemma SettledMeans(q: Query, jobs: seq<Job>, pods: seq<Pod>, ambiguous: set<string>)
    requires forall j, k :: j in jobs && k in jobs && j.name == k.name ==> j == k
    ensures Settled(q, jobs, pods, ambiguous) <==>
      || (forall j :: Lowest(q, AllCandidates(q, jobs), pods, ambiguous, j) ==> Stops(q, j, ambiguous))
      || OnlyOneLowest(q, AllCandidates(q, jobs), pods, ambiguous)
  {
    hide Lowest, AllCandidates;
    var c := AllCandidates(q, jobs);
    forall j | Lowest(q, c, pods, ambiguous, j) ensures j in jobs {
      LowestIsJob(q, jobs, pods, ambiguous, j);
    }
  }

  ghost predicate OnlyOneLowest(q: Query, c: seq<Job>, pods: seq<Pod>, ambiguous: set<string>) {
    forall j, k :: Lowest(q, c, pods, ambiguous, j) && Lowest(q, c, pods, ambiguous, k) ==> j == k
  }

  lemma LowestIsJob(q: Query, jobs: seq<Job>, pods: seq<Pod>, ambiguous: set<string>, j: Job)
    requires Lowest(q, AllCandidates(q, jobs), pods, ambiguous, j)
    ensures j in jobs
  {
    AllCandidatesAreJobs(q, jobs, j);
  }

  // ----- The indexed lookup -----

  /** Some listing of the jobs yields this result. */
  ghost predicate FoundInSomeOrder(q: Query, jobs: seq<Job>, pods: seq<Pod>, ambiguous: set<string>,
      r: Option<string>) {
    exists other :: Permuted(other, jobs) && Find(q, other, pods, ambiguous) == r
  }

  function Key(q: Query): string {
    ParentKey(q.parentName, q.parentKind, q.podName)
  }

  /** A listing that starts with what the index holds has the candidates that the index yields. */
  lemma IndexFirst(q: Query, jobs: seq<Job>, key: string, list: seq<Job>)
    requires Permuted(list, Indexed(jobs, key))
    requires forall j :: j in jobs && Matches(q, j) ==> IndexValue(j) == Some(key)
    ensures var other := list + Filter(jobs, Not(UnderKey(key)));
      Permuted(other, jobs) && Candidates(q, other) == Candidates(q, list)
  {
    hide Filter, Matches, IndexValue, ByRank;
    var rest := Filter(jobs, Not(UnderKey(key)));
    SplitPermuted(jobs, UnderKey(key), list);
    forall j | j in rest ensures !Matches(q, j) {
      FilterKeeps(jobs, Not(UnderKey(key)), j);
    }
    FilterNone(rest, Matching(q));
    FilterConcat(list, rest, Matching(q));
    assert Filter(list + rest, Matching(q)) == Filter(list, Matching(q));
  }

  /** Nothing indexed matches a parent that is known by name but not by kind. */
  lemma KindlessIsNotIndexed(q: Query, jobs: seq<Job>, key: string, list: seq<Job>)
    requires !WellFormed(q) && Permuted(list, Indexed(jobs, key))
    ensures Candidates(q, list) == []
  {
    forall j | j in list ensures !Matches(q, j) {
      PermutedMembers(list, Indexed(jobs, key), j);
      FilterKeeps(jobs, UnderKey(key), j);
    }
    FilterNone(list, Matching(q));
  }

  lemma NamelessMatchesNothing(q: Query, jobs: seq<Job>)
    requires q.parentName == "" && q.podName == "" && forall j :: j in jobs ==> j.podName != ""
    ensures Candidates(q, jobs) == []
  {
    FilterNone(jobs, Matching(q));
  }

  /** The result of a walk over the candidates of the two index lists is one of the full scan. */
  lemma IndexedIsSomeOrder(q: Query, main: seq<Job>, bare: seq<Job>, jobs: seq<Job>, pods: seq<Pod>,
      ambiguous: set<string>)
    requires WellFormed(q) && Key(q) != "" && forall j :: j in jobs ==> j.podName != ""
    requires Permuted(main, Indexed(jobs, Key(q))) && Permuted(bare, Indexed(jobs, q.podName + "/Pod"))
    ensures var c :=
          if Candidates(q, main) == [] && HasPodNameKey(q) then Candidates(BareQuery(q), bare) else Candidates(q, main);
      FoundInSomeOrder(q, jobs, pods, ambiguous, Pick(q, c, pods, ambiguous)) && forall j :: j in c ==> j in jobs
  {
    hide Filter;
    forall j | j in jobs && Matches(q, j) ensures IndexValue(j) == Some(Key(q)) {
      IndexIsComplete(q, j);
    }
    IndexFirst(q, jobs, Key(q), main);
    var other := main + Filter(jobs, Not(UnderKey(Key(q))));
    if Candidates(q, main) == [] && HasPodNameKey(q) {
      forall j | j in jobs && Matches(BareQuery(q), j) ensures IndexValue(j) == Some(q.podName + "/Pod") {
        IndexIsComplete(BareQuery(q), j);
      }
      IndexFirst(BareQuery(q), jobs, q.podName + "/Pod", bare);
      var spare := bare + Filter(jobs, Not(UnderKey(q.podName + "/Pod")));
      CandidatesPermuted(q, other, spare);
      PermutedSize(Candidates(q, other), Candidates(q, spare));
      other := spare;
    }
    assert Find(q, other, pods, ambiguous) == Pick(q, AllCandidates(q, other), pods, ambiguous);
    forall j | j in AllCandidates(q, other) ensures j in jobs {
      AllCandidatesAreJobs(q, other, j);
      PermutedMembers(other, jobs, j);
    }
  }

  /**
   The indexed lookup, with the two index lists in whatever order the cache yields them: it finds
   what the full scan finds in some listing order, and nothing for a parent without a kind.
  */
  method FindIndexed(q: Query, main: seq<Job>, bare: seq<Job>, ghost jobs: seq<Job>, pods: seq<Pod>,
      ambiguous: set<string>)
    returns (r: Option<string>)
    requires Consistent(jobs, pods)
    requires Permuted(main, Indexed(jobs, Key(q))) && Permuted(bare, Indexed(jobs, q.podName + "/Pod"))
    ensures WellFormed(q) ==> FoundInSomeOrder(q, jobs, pods, ambiguous, r)
    ensures !WellFormed(q) ==> r == None
  {
    hide Find, Indexed, Candidates, Pick, FoundInSomeOrder;
    if Key(q) == "" {
      NothingFound(q, jobs, pods, ambiguous);
      return None;
    }
    var candidates := FilterCandidates(q, main);
    if candidates == [] && HasPodNameKey(q) {
      candidates := FilterCandidates(BareQuery(q), bare);
    }
    if WellFormed(q) {
      IndexedIsSomeOrder(q, main, bare, jobs, pods, ambiguous);
    } else {
      KindlessIsNotIndexed(q, jobs, Key(q), main);
      PickNothing(q, pods, ambiguous);
    }
    r := WalkIndexed(q, candidates, jobs, pods, ambiguous);
  }

  lemma NothingFound(q: Query, jobs: seq<Job>, pods: seq<Pod>, ambiguous: set<string>)
    requires Key(q) == "" && forall i :: 0 <= i < |jobs| ==> jobs[i].podName != ""
    ensures WellFormed(q) ==> FoundInSomeOrder(q, jobs, pods, ambiguous, None)
  {
    if WellFormed(q) {
      NamelessMatchesNothing(q, jobs);
      NamelessMatchesNothing(BareQuery(q), jobs);
      assert Find(q, jobs, pods, ambiguous) == None;
    }
  }

  lemma PickNothing(q: Query, pods: seq<Pod>, ambiguous: set<string>)
    ensures Pick(q, [], pods, ambiguous) == None
  {
  }

  /**
   The indexed lookup and the full scan agree, whatever order each lists the jobs in, exactly when
   the result is settled.
  */
  lemma LookupsAgreeIffSettled(q: Query, jobs: seq<Job>, pods: seq<Pod>, ambiguous: set<string>)
    ensures Settled(q, jobs, pods, ambiguous) <==>
      forall r :: FoundInSomeOrder(q, jobs, pods, ambiguous, r) ==> r == Find(q, jobs, pods, ambiguous)
  {
    hide Settled, Find;
    OrderIrrelevantIffSettled(q, jobs, pods, ambiguous);
    if forall r :: FoundInSomeOrder(q, jobs, pods, ambiguous, r) ==> r == Find(q, jobs, pods, ambiguous) {
      forall other | Permuted(other, jobs) ensures Find(q, other, pods, ambiguous) == Find(q, jobs, pods, ambiguous) {
        assert FoundInSomeOrder(q, jobs, pods, ambiguous, Find(q, other, pods, ambiguous));
      }
    }
  }

  /** For a parent without a kind the full scan finds a lone free job that the index does not hold. */
  lemma KindlessLookupsDiffer(q: Query, j: Job, pods: seq<Pod>, ambiguous: set<string>)
    requires !WellFormed(q) && Matches(q, j) && Free(j, pods)
    ensures Find(q, [j], pods, ambiguous) == Some(j.name) && IndexValue(j) == None
  {
    hide Filter, ByRank, Free;
    var c := Candidates(q, [j]);
    FilterAll([j], Matching(q));
    ByRankPermuted([j]);
    assert |c| == |multiset(c)| == |multiset([j])| == 1;
    PermutedMembers(c, [j], c[0]);
  }
}
