/** What a lookup's answer means, in fields of the jobs and pods that were listed. */
module LookupMeans {
  import opened Api
  import opened Filters
  import opened Lookup
  import opened LookupOrder

  /** A kind that the controller knows by itself; pods of any other kind have an operator. */
  predicate HasOperator(q: Query) {
    q.parentKind !in {"Deployment", "ReplicaSet", "StatefulSet", "Job", ""}
  }

  /** The job's source was a pod of the same parent. */
  predicate SameParent(q: Query, j: Job) {
    if q.parentName == "" then j.parentName == "" && j.podName == q.podName
    else
      && j.parentName == q.parentName
      && j.parentKind == q.parentKind
      && (q.parentUID != "" && j.parentUID != "" ==> j.parentUID == q.parentUID)
  }

  /** The pod is a replica that can take the place of the job's source. */
  predicate SamePlace(q: Query, j: Job) {
    q.parentName != "" ==>
      && (q.parentKind == "StatefulSet" ==> j.podName == q.podName)
      && (q.parentKind == "Deployment" ==> j.templateHash == q.templateHash)
      && (q.parentKind == "Job" ==> q.completionIndex == "" || j.completionIndex == q.completionIndex)
      && (HasOperator(q) ==> q.replicaKey != "" && j.replicaKey == q.replicaKey)
  }

  predicate Waiting(j: Job) {
    !j.consumed && j.phase in {Snapshotting, Evicting, Restoring}
  }

  predicate Fits(q: Query, j: Job) {
    Waiting(j) && SameParent(q, j) && SamePlace(q, j)
  }

  /** The pod's job was recorded by an older controller, as that of a bare pod. */
  predicate FitsBare(q: Query, j: Job) {
    Waiting(j) && j.parentName == "" && j.podName == q.podName
  }

  /** No pod has the job yet, and before Restoring its source no longer runs. */
  predicate Open(j: Job, pods: seq<Pod>) {
    && (forall p :: p in pods ==> p.claimed != j.name)
    && (j.phase != Restoring ==> forall p :: p in pods && p.alive ==>
          if j.target != "" then p.uid != j.target else p.name != j.podName)
  }

  lemma MatchesMeansFits(q: Query, j: Job)
    ensures Matches(q, j) <==> Fits(q, j)
    ensures Matches(BareQuery(q), j) <==> FitsBare(q, j)
  {
  }

  lemma FreeMeansOpen(j: Job, pods: seq<Pod>)
    requires Waiting(j)
    ensures Free(j, pods) <==> Open(j, pods)
  {
    if Free(j, pods) {
      forall p | p in pods ensures p.claimed != j.name {
        var i :| 0 <= i < |pods| && pods[i] == p;
      }
      forall p | p in pods && p.alive && j.phase != Restoring
        ensures if j.target != "" then p.uid != j.target else p.name != j.podName
      {
        var i :| 0 <= i < |pods| && pods[i] == p;
      }
    }
  }

  /** An operator's pods are told apart by their replica key: no second listed job has it. */
  predicate OnlyReplica(q: Query, jobs: seq<Job>, i: nat)
    requires i < |jobs|
  {
    HasOperator(q) && q.replicaKey != "" ==>
      forall k :: 0 <= k < |jobs| && k != i ==> !(Fits(q, jobs[k]) && jobs[k].replicaKey == q.replicaKey)
  }

  lemma TwoPass<T>(s: seq<T>, p: T -> bool, i: nat, k: nat)
    requires i < k < |s| && p(s[i]) && p(s[k])
    ensures |Filter(s, p)| >= 2
  {
    assert s == s[..k] + s[k..];
    FilterConcat(s[..k], s[k..], p);
    assert s[..k][i] == s[i] && s[k..][0] == s[k];
    FilterKeeps(s[..k], p, s[i]);
    FilterKeeps(s[k..], p, s[k]);
  }

  lemma OnePasses<T>(s: seq<T>, p: T -> bool, i: nat)
    requires i < |s| && forall k :: 0 <= k < |s| && k != i ==> !p(s[k])
    ensures |Filter(s, p)| <= 1
  {
    var a, b := s[..i], s[i + 1..];
    assert s == a + [s[i]] + b;
    FilterConcat(a + [s[i]], b, p);
    FilterConcat(a, [s[i]], p);
    FilterNone(a, p);
    FilterNone(b, p);
  }

  function Both<T>(p: T -> bool, q: T -> bool): T -> bool {
    (x: T) => p(x) && q(x)
  }

  lemma {:induction false} FilterTwice<T>(s: seq<T>, p: T -> bool, q: T -> bool)
    ensures Filter(Filter(s, p), q) == Filter(s, Both(p, q))
  {
    if s != [] {
      var init, last := s[..|s| - 1], s[|s| - 1];
      FilterTwice(init, p, q);
      FilterConcat(Filter(init, p), [last], q);
      assert Filter([last], q) == if q(last) then [last] else [] by { assert [last][..0] == []; }
      if !p(last) {
        assert Filter(s, p) == Filter(init, p);
      }
    }
  }

  /** With a unique replica, or none to tell apart, what fits is a candidate. */
  lemma FittingIsCandidate(q: Query, jobs: seq<Job>, i: nat)
    requires i < |jobs| && Fits(q, jobs[i]) && OnlyReplica(q, jobs, i)
    ensures jobs[i] in Candidates(q, jobs)
  {
    hide Filter, Fits;
    var found := Filter(jobs, Matching(q));
    MatchesMeansFits(q, jobs[i]);
    FilterKeeps(jobs, Matching(q), jobs[i]);
    if Operator(q) {
      forall k | 0 <= k < |jobs| && k != i ensures !Both(Matching(q), SameReplica(q))(jobs[k]) {
        MatchesMeansFits(q, jobs[k]);
      }
      OnePasses(jobs, Both(Matching(q), SameReplica(q)), i);
      FilterTwice(jobs, Matching(q), SameReplica(q));
    }
    FilterKeeps(found, OfRank(PhaseRank(jobs[i].phase)), jobs[i]);
  }

  /** A candidate for an operator's pod is the only listed job that fits it. */
  lemma CandidateIsAlone(q: Query, jobs: seq<Job>, i: nat)
    requires i < |jobs| && jobs[i] in Candidates(q, jobs) && q.parentName != ""
    ensures Fits(q, jobs[i]) && OnlyReplica(q, jobs, i)
  {
    hide Filter;
    CandidatesAreJobs(q, jobs, jobs[i]);
    MatchesMeansFits(q, jobs[i]);
    var found := Filter(jobs, Matching(q));
    if HasOperator(q) && q.replicaKey != "" {
      forall k | 0 <= k < |jobs| && k != i ensures !Fits(q, jobs[k]) {
        MatchesMeansFits(q, jobs[k]);
        if Fits(q, jobs[k]) {
          TwoPass(jobs, Matching(q), if i < k then i else k, if i < k then k else i);
          forall j | j in found ensures SameReplica(q)(j) {
            FilterKeeps(jobs, Matching(q), j);
            MatchesMeansFits(q, j);
          }
          FilterAll(found, SameReplica(q));
        }
      }
    }
  }

  /** Which of the listed jobs the lookup ended at. */
  lemma FoundIsListed(q: Query, jobs: seq<Job>, pods: seq<Pod>, ambiguous: set<string>) returns (i: nat)
    requires Find(q, jobs, pods, ambiguous).Some?
    ensures i < |jobs| && Find(q, jobs, pods, ambiguous) == Some(jobs[i].name)
    ensures Lowest(q, AllCandidates(q, jobs), pods, ambiguous, jobs[i]) && Free(jobs[i], pods)
    ensures !Stops(q, jobs[i], ambiguous)
  {
    hide AllCandidates, Find;
    var found := FindsLowest(q, jobs, pods, ambiguous);
    AllCandidatesAreJobs(q, jobs, found.value);
    i :| 0 <= i < |jobs| && jobs[i] == found.value;
  }

  /** A job of a phase that comes first: evicted sources before restoring jobs, and these before the rest. */
  predicate Precedes(j: Job, k: Job) {
    (j.phase == Evicting && k.phase != Evicting) || (j.phase == Restoring && k.phase == Snapshotting)
  }

  /**
   What the lookup returns: a listed job, unconsumed and active, that no pod has and whose source does
   not run, of the pod's own parent and place; for an operator's pod the only one with its replica
   key, and not ambiguous.  Only where nothing else fits is it a job recorded for a bare pod.  No other
   job that fits and is open is of a phase that comes first.
  */
  lemma FoundMeans(q: Query, jobs: seq<Job>, pods: seq<Pod>, ambiguous: set<string>) returns (i: nat)
    requires Find(q, jobs, pods, ambiguous).Some?
    ensures i < |jobs| && Find(q, jobs, pods, ambiguous) == Some(jobs[i].name) && Open(jobs[i], pods)
    ensures || Fits(q, jobs[i])
            || (HasOperator(q) && "pod-name=" <= q.replicaKey && FitsBare(q, jobs[i]))
    ensures HasOperator(q) && q.replicaKey != "" ==> jobs[i].name !in ambiguous
    ensures q.parentName != "" && Fits(q, jobs[i]) ==> OnlyReplica(q, jobs, i)
    ensures !HasOperator(q) ==>
      forall k :: 0 <= k < |jobs| && Fits(q, jobs[k]) && Open(jobs[k], pods) ==> !Precedes(jobs[k], jobs[i])
  {
    hide Candidates, Find, Fits, Open;
    i := FoundIsListed(q, jobs, pods, ambiguous);
    MatchesMeansFits(q, jobs[i]);
    if jobs[i] in Candidates(q, jobs) {
      CandidatesAreJobs(q, jobs, jobs[i]);
      if q.parentName != "" {
        CandidateIsAlone(q, jobs, i);
      }
    } else {
      CandidatesAreJobs(BareQuery(q), jobs, jobs[i]);
      if q.parentName != "" {
        BareHasNoParent(q, jobs[i]);
      }
    }
    WaitingIfFits(q, jobs[i]);
    FreeMeansOpen(jobs[i], pods);
    if !HasOperator(q) {
      forall k | 0 <= k < |jobs| && Fits(q, jobs[k]) && Open(jobs[k], pods) ensures !Precedes(jobs[k], jobs[i]) {
        FittingIsCandidate(q, jobs, k);
        WaitingIfFits(q, jobs[k]);
        FreeMeansOpen(jobs[k], pods);
      }
    }
  }

  lemma WaitingIfFits(q: Query, j: Job)
    requires Fits(q, j) || FitsBare(q, j)
    ensures Waiting(j)
  {
  }

  lemma BareHasNoParent(q: Query, j: Job)
    requires FitsBare(q, j) && q.parentName != ""
    ensures !Fits(q, j)
  {
  }

  /** Conversely, a job that fits and is open is not passed over for nothing. */
  lemma FittingIsFound(q: Query, jobs: seq<Job>, pods: seq<Pod>, ambiguous: set<string>, i: nat)
    requires i < |jobs| && Fits(q, jobs[i]) && Open(jobs[i], pods) && OnlyReplica(q, jobs, i)
    requires HasOperator(q) && q.replicaKey != "" ==>
      forall k :: 0 <= k < |jobs| && Fits(q, jobs[k]) ==> jobs[k].name !in ambiguous
    ensures Find(q, jobs, pods, ambiguous).Some?
  {
    hide Candidates, Find, Fits, Open;
    FittingIsCandidate(q, jobs, i);
    WaitingIfFits(q, jobs[i]);
    FreeMeansOpen(jobs[i], pods);
    var found := FindsLowest(q, jobs, pods, ambiguous);
    if found.Some? {
      CandidatesAreJobs(q, jobs, found.value);
      MatchesMeansFits(q, found.value);
    }
  }
}
