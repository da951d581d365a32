/**
 Finding the job a new pod replaces: the indexed lookup over the cache, and the full scan that
 the live reader falls back to.
*/
module Lookup {
  import opened Api
  import opened Filters

  datatype Job = Job(
    name: string,
    phase: Phase,
    consumed: bool,
    podName: string,
    target: string,
    parentName: string,
    parentKind: string,
    parentUID: string,
    templateHash: string,
    completionIndex: string,
    replicaKey: string)

  /** `claimed` is the pod's assigned-pmj annotation, empty if there is none. */
  datatype Pod = Pod(uid: string, name: string, alive: bool, enabled: bool, claimed: string)

  /** What is known of the pod that looks for its job. */
  datatype Query = Query(
    podName: string,
    parentName: string,
    parentKind: string,
    parentUID: string,
    templateHash: string,
    completionIndex: string,
    replicaKey: string)

  predicate BuiltInKind(kind: string) {
    kind == "Deployment" || kind == "ReplicaSet" || kind == "StatefulSet" || kind == "Job" || kind == ""
  }

  // ----- Index keys -----

  function ParentKey(name: string, kind: string, podName: string): string {
    if name != "" && kind != "" then name + "/" + kind
    else if podName != "" then podName + "/Pod"
    else ""
  }

  /** The key a job is indexed under, if it is indexed at all. */
  function IndexValue(j: Job): Option<string> {
    if j.parentName != "" && j.parentKind != "" then Some(j.parentName + "/" + j.parentKind)
    else if j.parentName == "" && j.podName != "" then Some(j.podName + "/Pod")
    else None
  }

  // ----- Candidates -----

  /** A job whose replacement the pod can be. */
  predicate Matches(q: Query, j: Job) {
    && !j.consumed
    && (if q.parentName == "" then j.podName == q.podName && j.parentName == ""
        else
          && j.parentName == q.parentName && j.parentKind == q.parentKind
          && (q.parentUID == "" || j.parentUID == "" || j.parentUID == q.parentUID)
          && (q.parentKind == "Deployment" ==> j.templateHash == q.templateHash)
          && (q.parentKind == "Job" && q.completionIndex != "" ==> j.completionIndex == q.completionIndex)
          && (q.parentKind == "StatefulSet" ==> j.podName == q.podName)
          && (!BuiltInKind(q.parentKind) ==> q.replicaKey != "" && j.replicaKey == q.replicaKey))
    && (j.phase.Snapshotting? || j.phase.Evicting? || j.phase.Restoring?)
  }

  function PhaseRank(p: Phase): nat {
    match p
    case Evicting => 0
    case Restoring => 1
    case _ => 2
  }

  function OfRank(r: nat): Job -> bool {
    (j: Job) => PhaseRank(j.phase) == r
  }

  /** The stable sort by phase rank. */
  function ByRank(s: seq<Job>): seq<Job> {
    Filter(s, OfRank(0))
    + Filter(s, OfRank(1))
    + Filter(s, OfRank(2))
  }

  predicate SortedByRank(s: seq<Job>) {
    forall i, k :: 0 <= i < k < |s| ==> PhaseRank(s[i].phase) <= PhaseRank(s[k].phase)
  }

  lemma ByRankSorted(a: seq<Job>, b: seq<Job>, c: seq<Job>)
    requires forall x :: x in a ==> PhaseRank(x.phase) == 0
    requires forall x :: x in b ==> PhaseRank(x.phase) == 1
    requires forall x :: x in c ==> PhaseRank(x.phase) == 2
    ensures SortedByRank(a + b + c)
  {
  }

  lemma RankWithinRank(s: seq<Job>, r: nat, q: nat)
    ensures forall x :: x in Filter(s, OfRank(r)) ==> PhaseRank(x.phase) == r
    ensures Filter(Filter(s, OfRank(r)), OfRank(q)) == if r == q then Filter(s, OfRank(r)) else []
  {
    var t := Filter(s, OfRank(r));
    forall x | x in t ensures PhaseRank(x.phase) == r {
      FilterKeeps(s, OfRank(r), x);
    }
    if r == q {
      FilterAll(t, OfRank(q));
    } else {
      FilterNone(t, OfRank(q));
    }
  }

  /** Within one rank, `ByRank` keeps the jobs and their order: it is a stable sort. */
  lemma ByRankIsStableSort(s: seq<Job>, r: nat)
    requires r <= 2
    ensures SortedByRank(ByRank(s))
    ensures Filter(ByRank(s), OfRank(r)) == Filter(s, OfRank(r))
  {
    hide Filter;
    var a, b, c := Filter(s, OfRank(0)), Filter(s, OfRank(1)), Filter(s, OfRank(2));
    RankWithinRank(s, 0, r);
    RankWithinRank(s, 1, r);
    RankWithinRank(s, 2, r);
    FilterConcat(a + b, c, OfRank(r));
    FilterConcat(a, b, OfRank(r));
    ByRankSorted(a, b, c);
  }

  predicate Operator(q: Query) {
    !BuiltInKind(q.parentKind) && q.replicaKey != ""
  }

  function Matching(q: Query): Job -> bool {
    (j: Job) => Matches(q, j)
  }

  function SameReplica(q: Query): Job -> bool {
    (j: Job) => j.replicaKey == q.replicaKey
  }

  function Candidates(q: Query, jobs: seq<Job>): seq<Job> {
    var found := Filter(jobs, Matching(q));
    if Operator(q) && |Filter(found, SameReplica(q))| > 1 then [] else ByRank(found)
  }

  /** The query that finds jobs an older controller recorded as bare pods. */
  function BareQuery(q: Query): Query {
    Query(q.podName, "", "", "", "", "", "")
  }

  predicate HasPodNameKey(q: Query) {
    !BuiltInKind(q.parentKind) && "pod-name=" <= q.replicaKey
  }

  function AllCandidates(q: Query, jobs: seq<Job>): seq<Job> {
    if Candidates(q, jobs) == [] && HasPodNameKey(q) then Candidates(BareQuery(q), jobs) else Candidates(q, jobs)
  }

  // ----- The rule -----

  predicate RequiresSourceGone(p: Phase) {
    p.Evicting? || p.Snapshotting?
  }

  /** The job's source still runs. */
  predicate SourceAlive(j: Job, pods: seq<Pod>) {
    exists i :: 0 <= i < |pods| && pods[i].alive
      && (if j.target != "" then pods[i].uid == j.target else pods[i].name == j.podName)
  }

  predicate Assigned(j: Job, pods: seq<Pod>) {
    exists i :: 0 <= i < |pods| && pods[i].claimed == j.name
  }

  predicate Free(j: Job, pods: seq<Pod>) {
    !(RequiresSourceGone(j.phase) && SourceAlive(j, pods)) && !Assigned(j, pods)
  }

  /** The first free candidate, unless a job before it, or it, has an ambiguous sibling. */
  function Pick(q: Query, candidates: seq<Job>, pods: seq<Pod>, ambiguous: set<string>): Option<string> {
    if candidates == [] then None
    else if Operator(q) && candidates[0].name in ambiguous then None
    else if Free(candidates[0], pods) then Some(candidates[0].name)
    else Pick(q, candidates[1..], pods, ambiguous)
  }

  /** The job that a pod with query q replaces. */
  function Find(q: Query, jobs: seq<Job>, pods: seq<Pod>, ambiguous: set<string>): Option<string> {
    Pick(q, AllCandidates(q, jobs), pods, ambiguous)
  }

  /** A parent is known by name and kind or not at all, as the owner lookup reports it. */
  predicate WellFormed(q: Query) {
    q.parentName != "" ==> q.parentKind != ""
  }

  /** Jobs name their pod, and a pod with a job's target UID has the name the job says. */
  predicate Consistent(jobs: seq<Job>, pods: seq<Pod>) {
    && (forall i :: 0 <= i < |jobs| ==> jobs[i].podName != "" && jobs[i].name != "")
    && (forall i, k :: 0 <= i < |jobs| && 0 <= k < |pods| && jobs[i].target != "" && pods[k].uid == jobs[i].target ==>
          pods[k].name == jobs[i].podName)
    && (forall i, k :: 0 <= i < k < |pods| ==> pods[i].name != pods[k].name)
  }

  /** Every pod that a migration is about is opted in. */
  predicate OptedIn(jobs: seq<Job>, pods: seq<Pod>) {
    forall k :: 0 <= k < |pods| ==>
      pods[k].enabled || (pods[k].claimed == "" && forall i :: 0 <= i < |jobs| ==> pods[k].name != jobs[i].podName)
  }

  // ----- Both lookups -----

  /** The loops of the candidate filter. */
  method FilterCandidates(q: Query, jobs: seq<Job>) returns (candidates: seq<Job>)
    ensures candidates == Candidates(q, jobs)
  {
    candidates := [];
    for i := 0 to |jobs|
      invariant candidates == Filter(jobs[..i], Matching(q))
    {
      assert jobs[..i + 1][..i] == jobs[..i];
      if Matches(q, jobs[i]) {
        candidates := candidates + [jobs[i]];
      }
    }
    assert jobs[..|jobs|] == jobs;
    if Operator(q) {
      var matching := 0;
      for i := 0 to |candidates|
        invariant matching == |Filter(candidates[..i], SameReplica(q))|
      {
        assert candidates[..i + 1][..i] == candidates[..i];
        if candidates[i].replicaKey == q.replicaKey {
          matching := matching + 1;
        }
      }
      assert candidates[..|candidates|] == candidates;
      if matching > 1 {
        return [];
      }
    }
    candidates := ByRank(candidates);
  }

  function UnderKey(key: string): Job -> bool {
    (j: Job) => IndexValue(j) == Some(key)
  }

  /** What the index holds under a key; the cache may list it in any order. */
  function Indexed(jobs: seq<Job>, key: string): seq<Job> {
    Filter(jobs, UnderKey(key))
  }

  /** The index loses no candidate: every job that matches is under the query's key. */
  lemma IndexIsComplete(q: Query, j: Job)
    requires WellFormed(q) && j.podName != "" && Matches(q, j)
    ensures ParentKey(q.parentName, q.parentKind, q.podName) != ""
    ensures IndexValue(j) == Some(ParentKey(q.parentName, q.parentKind, q.podName))
  {
  }

  lemma CandidatesAreJobs(q: Query, jobs: seq<Job>, j: Job)
    requires j in Candidates(q, jobs)
    ensures j in jobs && Matches(q, j)
  {
    var found := Filter(jobs, Matching(q));
    FilterKeeps(found, OfRank(0), j);
    FilterKeeps(found, OfRank(1), j);
    FilterKeeps(found, OfRank(2), j);
    FilterKeeps(jobs, Matching(q), j);
  }

  lemma AllCandidatesAreJobs(q: Query, jobs: seq<Job>, j: Job)
    requires j in AllCandidates(q, jobs)
    ensures j in jobs
  {
    if j in Candidates(q, jobs) {
      CandidatesAreJobs(q, jobs, j);
    } else {
      CandidatesAreJobs(BareQuery(q), jobs, j);
    }
  }

  /** The read of the origin pod by name, and the comparison of its UID. */
  method OriginAlive(j: Job, pods: seq<Pod>) returns (alive: bool)
    requires j.podName != ""
    requires forall i, k :: 0 <= i < k < |pods| ==> pods[i].name != pods[k].name
    requires forall k :: 0 <= k < |pods| && j.target != "" && pods[k].uid == j.target ==> pods[k].name == j.podName
    ensures alive <==> SourceAlive(j, pods)
  {
    for i := 0 to |pods|
      invariant forall k :: 0 <= k < i ==> pods[k].name != j.podName
    {
      if pods[i].name == j.podName {
        alive := pods[i].alive && (j.target == "" || pods[i].uid == j.target);
        assert forall k :: 0 <= k < |pods| && k != i ==> pods[k].name != j.podName;
        return;
      }
    }
    return false;
  }

  method IsAssigned(j: Job, pods: seq<Pod>) returns (claimed: bool)
    ensures claimed <==> Assigned(j, pods)
  {
    for i := 0 to |pods|
      invariant forall k :: 0 <= k < i ==> pods[k].claimed != j.name
    {
      if pods[i].claimed == j.name {
        return true;
      }
    }
    return false;
  }

  /** The walk over the candidates, with a read of each source and a lookup of each assignment. */
  method WalkIndexed(q: Query, candidates: seq<Job>, ghost jobs: seq<Job>, pods: seq<Pod>, ambiguous: set<string>)
    returns (r: Option<string>)
    requires Consistent(jobs, pods) && forall j :: j in candidates ==> j in jobs
    ensures r == Pick(q, candidates, pods, ambiguous)
  {
    for i := 0 to |candidates|
      invariant Pick(q, candidates, pods, ambiguous) == Pick(q, candidates[i..], pods, ambiguous)
    {
      var job := candidates[i];
      assert job in jobs;
      if Operator(q) && job.name in ambiguous {
        return None;
      }
      if RequiresSourceGone(job.phase) {
        var alive := OriginAlive(job, pods);
        if alive {
          continue;
        }
      }
      var claimed := IsAssigned(job, pods);
      if !claimed {
        return Some(job.name);
      }
    }
    return None;
  }

  /** The full scan finds what the rule says. */
  method FindLive(q: Query, jobs: seq<Job>, pods: seq<Pod>, ambiguous: set<string>) returns (r: Option<string>)
    requires Consistent(jobs, pods) && OptedIn(jobs, pods)
    ensures r == Find(q, jobs, pods, ambiguous)
  {
    var candidates := FilterCandidates(q, jobs);
    if candidates == [] && HasPodNameKey(q) {
      candidates := FilterCandidates(BareQuery(q), jobs);
    }
    if candidates == [] {
      return None;
    }
    forall j | j in candidates ensures j in jobs {
      AllCandidatesAreJobs(q, jobs, j);
    }
    r := WalkLive(q, candidates, jobs, pods, ambiguous);
  }

  method CollectPods(pods: seq<Pod>) returns (claimed: set<string>, uids: set<string>, names: set<string>)
    ensures forall n :: n in claimed <==> exists i :: 0 <= i < |pods| && pods[i].enabled && pods[i].claimed == n
    ensures forall u :: u in uids <==> exists i ::
        0 <= i < |pods| && pods[i].enabled && pods[i].alive && pods[i].uid == u
    ensures forall n :: n in names <==> exists i ::
        0 <= i < |pods| && pods[i].enabled && pods[i].alive && pods[i].name == n
  {
    claimed, uids, names := {}, {}, {};
    for i := 0 to |pods|
      invariant forall n :: n in claimed <==> exists k :: 0 <= k < i && pods[k].enabled && pods[k].claimed == n
      invariant forall u :: u in uids <==> exists k ::
          0 <= k < i && pods[k].enabled && pods[k].alive && pods[k].uid == u
      invariant forall n :: n in names <==> exists k ::
          0 <= k < i && pods[k].enabled && pods[k].alive && pods[k].name == n
    {
      if pods[i].enabled {
        if pods[i].alive {
          uids := uids + {pods[i].uid};
          names := names + {pods[i].name};
        }
        claimed := claimed + {pods[i].claimed};
      }
    }
  }

  method WalkLive(q: Query, candidates: seq<Job>, jobs: seq<Job>, pods: seq<Pod>, ambiguous: set<string>)
    returns (r: Option<string>)
    requires Consistent(jobs, pods) && OptedIn(jobs, pods) && forall j :: j in candidates ==> j in jobs
    ensures r == Pick(q, candidates, pods, ambiguous)
  {
    var claimed, uids, names := CollectPods(pods);
    for i := 0 to |candidates|
      invariant Pick(q, candidates, pods, ambiguous) == Pick(q, candidates[i..], pods, ambiguous)
    {
      var job := candidates[i];
      assert job in jobs;
      if Operator(q) && job.name in ambiguous {
        return None;
      }
      OptedInSuffices(job, jobs, pods);
      if RequiresSourceGone(job.phase) {
        var present := if job.target != "" then job.target in uids else job.podName in names;
        if present {
          continue;
        }
      }
      if job.name !in claimed {
        return Some(job.name);
      }
    }
    return None;
  }

  /** Looking only at opted-in pods loses nothing that concerns the job. */
  lemma OptedInSuffices(j: Job, jobs: seq<Job>, pods: seq<Pod>)
    requires Consistent(jobs, pods) && OptedIn(jobs, pods) && j in jobs
    ensures Assigned(j, pods) <==> exists i :: 0 <= i < |pods| && pods[i].enabled && pods[i].claimed == j.name
    ensures j.target != "" ==>
      (SourceAlive(j, pods) <==> exists i ::
        0 <= i < |pods| && pods[i].enabled && pods[i].alive && pods[i].uid == j.target)
    ensures j.target == "" ==>
      (SourceAlive(j, pods) <==> exists i ::
        0 <= i < |pods| && pods[i].enabled && pods[i].alive && pods[i].name == j.podName)
  {
  }
}
