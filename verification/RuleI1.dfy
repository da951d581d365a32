/** Invariant rule I1 (at-most-once restore), and why it never fires on what the gate protocol wrote. */
module RuleI1 {
  import opened Api
  import Gate = GateProtocol

  /** A pod as the rule sees it: the snapshot it is ordered to restore, if any. */
  datatype PodView = PodView(uid: Uid, snapshot: Option<string>)

  datatype Violation =
    | DuplicateSnapshotConsumption(snapshot: string, first: Uid, second: Uid)
    | ConsumedSnapshotRebound(snapshot: string, consumer: Uid, pod: Uid)

  /** No snapshot is bound to two pods. */
  ghost predicate BoundOnce(pods: seq<PodView>) {
    forall i, k :: (0 <= i < |pods| && 0 <= k < |pods|
                    && pods[i].snapshot.Some? && pods[k].snapshot == pods[i].snapshot) ==>
      pods[i].uid == pods[k].uid
  }

  predicate Rebound(v: Gate.Status, p: PodView) {
    v.consumed && v.gateReleased && v.ref != "" && p.snapshot == Some(v.ref) && v.consumer.Some?
      && v.consumer.value != p.uid
  }

  /** No released snapshot is bound to a pod other than the recorded consumer. */
  ghost predicate NeverRebound(pods: seq<PodView>, jobs: seq<Gate.Status>) {
    forall i, k :: 0 <= i < |jobs| && 0 <= k < |pods| ==> !Rebound(jobs[i], pods[k])
  }

  /** What a reported violation claims, in terms of the lists alone. */
  ghost predicate Genuine(v: Violation, pods: seq<PodView>, jobs: seq<Gate.Status>) {
    match v
    case DuplicateSnapshotConsumption(snapshot, first, second) =>
      first != second && PodView(first, Some(snapshot)) in pods && PodView(second, Some(snapshot)) in pods
    case ConsumedSnapshotRebound(snapshot, consumer, pod) =>
      exists i, k :: 0 <= i < |jobs| && 0 <= k < |pods| && Rebound(jobs[i], pods[k])
        && jobs[i].ref == snapshot && jobs[i].consumer == Some(consumer) && pods[k].uid == pod
  }

  /** The first loop of the rule: it remembers, per snapshot, the first pod bound to it. */
  method FindDuplicates(pods: seq<PodView>) returns (violations: seq<Violation>)
    ensures violations == [] <==> BoundOnce(pods)
    ensures forall v :: v in violations ==> v.DuplicateSnapshotConsumption? && Genuine(v, pods, [])
  {
    violations := [];
    var consumers: map<string, Uid> := map[];
    for n := 0 to |pods|
      invariant forall r :: r in consumers ==> PodView(consumers[r], Some(r)) in pods[..n]
      invariant forall i :: 0 <= i < n && pods[i].snapshot.Some? ==> pods[i].snapshot.value in consumers
      invariant violations == [] ==>
        forall i :: 0 <= i < n && pods[i].snapshot.Some? ==> consumers[pods[i].snapshot.value] == pods[i].uid
      invariant violations != [] ==> !BoundOnce(pods)
      invariant forall v :: v in violations ==> v.DuplicateSnapshotConsumption? && Genuine(v, pods, [])
    {
      var pod := pods[n];
      if pod.snapshot.Some? {
        var snap := pod.snapshot.value;
        if snap in consumers && consumers[snap] != pod.uid {
          var k :| 0 <= k < n && pods[k] == PodView(consumers[snap], Some(snap));
          assert pods[k].uid != pods[n].uid;
          violations := violations + [DuplicateSnapshotConsumption(snap, consumers[snap], pod.uid)];
        } else {
          consumers := consumers[snap := pod.uid];
        }
      }
    }
  }

  /** The rule: both loops, over the pods and the jobs of the namespace. */
  method Evaluate(pods: seq<PodView>, jobs: seq<Gate.Status>) returns (violations: seq<Violation>)
    ensures violations == [] <==> BoundOnce(pods) && NeverRebound(pods, jobs)
    ensures forall v :: v in violations ==> Genuine(v, pods, jobs)
  {
    violations := FindDuplicates(pods);
    for i := 0 to |jobs|
      invariant violations == [] <==>
        BoundOnce(pods) && forall a, k :: 0 <= a < i && 0 <= k < |pods| ==> !Rebound(jobs[a], pods[k])
      invariant forall v :: v in violations ==> Genuine(v, pods, jobs)
    {
      for n := 0 to |pods|
        invariant violations == [] <==>
          BoundOnce(pods)
          && (forall a, k :: 0 <= a < i && 0 <= k < |pods| ==> !Rebound(jobs[a], pods[k]))
          && (forall k :: 0 <= k < n ==> !Rebound(jobs[i], pods[k]))
        invariant forall v :: v in violations ==> Genuine(v, pods, jobs)
      {
        if Rebound(jobs[i], pods[n]) {
          violations := violations + [ConsumedSnapshotRebound(jobs[i].ref, jobs[i].consumer.value, pods[n].uid)];
        }
      }
    }
  }

  /** A pod list that a cache may show: every order on it was written on that pod at some time. */
  ghost predicate PodsSeen(s: Gate.State, pods: seq<PodView>) {
    forall i :: 0 <= i < |pods| && pods[i].snapshot.Some? ==> Ordered(s, pods[i].uid, pods[i].snapshot.value)
  }

  ghost predicate Ordered(s: Gate.State, u: Uid, ref: string) {
    exists j :: (u, j, ref) in s.orders
  }

  /** A job list that a cache may show: every entry is some version of some job. */
  ghost predicate JobsSeen(s: Gate.State, jobs: seq<Gate.Status>) {
    forall i :: 0 <= i < |jobs| ==> Version(s, jobs[i])
  }

  ghost predicate Version(s: Gate.State, v: Gate.Status) {
    exists j, at :: j in s.jobs && 0 <= at < |s.jobs[j]| && s.jobs[j][at] == v
  }

  /**
   I1 holds on every snapshot a reconcile can take of a reachable state: not only on the
   current objects, but on any mix of older pod and job versions that the caches may show.
  */
  lemma HoldsOnEveryRun(steps: seq<Gate.Step>, pods: seq<PodView>, jobs: seq<Gate.Status>)
    requires PodsSeen(Gate.Run(Gate.Init(), steps), pods) && JobsSeen(Gate.Run(Gate.Init(), steps), jobs)
    ensures BoundOnce(pods) && NeverRebound(pods, jobs)
  {
    var s := Gate.Run(Gate.Init(), steps);
    Gate.RunKeeps(steps);
    forall i, k | 0 <= i < |pods| && 0 <= k < |pods| && pods[i].snapshot.Some? && pods[k].snapshot == pods[i].snapshot
      ensures pods[i].uid == pods[k].uid
    {
      var ref := pods[i].snapshot.value;
      assert Ordered(s, pods[i].uid, ref) && Ordered(s, pods[k].uid, ref);
      var a :| (pods[i].uid, a, ref) in s.orders;
      var b :| (pods[k].uid, b, ref) in s.orders;
      Gate.OneOrderPerSnapshot(s, pods[i].uid, pods[k].uid, a, b, ref);
    }
    forall i, k | 0 <= i < |jobs| && 0 <= k < |pods| ensures !Rebound(jobs[i], pods[k]) {
      if Rebound(jobs[i], pods[k]) {
        assert Version(s, jobs[i]) && Ordered(s, pods[k].uid, pods[k].snapshot.value);
        var j, at :| j in s.jobs && 0 <= at < |s.jobs[j]| && s.jobs[j][at] == jobs[i];
        var c :| (pods[k].uid, c, jobs[i].ref) in s.orders;
        Gate.OrderMatchesReleasedVersion(s, j, at, pods[k].uid, c);
      }
    }
  }

  /** In particular, the rule reports nothing on the current pods and jobs. */
  lemma CurrentPodsSeen(steps: seq<Gate.Step>, pods: seq<PodView>)
    requires var s := Gate.Run(Gate.Init(), steps);
      forall i :: 0 <= i < |pods| ==>
        && pods[i].uid in s.pods
        && pods[i].snapshot == (match s.pods[pods[i].uid].order case Restore(_, ref) => Some(ref) case _ => None)
    ensures PodsSeen(Gate.Run(Gate.Init(), steps), pods)
  {
    var s := Gate.Run(Gate.Init(), steps);
    Gate.RunKeeps(steps);
    forall i | 0 <= i < |pods| && pods[i].snapshot.Some? ensures Ordered(s, pods[i].uid, pods[i].snapshot.value) {
      assert (pods[i].uid, s.pods[pods[i].uid].order.job, pods[i].snapshot.value) in s.orders;
    }
  }
}
