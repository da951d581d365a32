/** The restore verdict: when a replacement pod's restore is accepted. */
module RestoreVerdict {
  import opened Api

  /** What the snapshot engine says about a replacement's restore. */
  datatype Outcome = RestoreInProgress | Restored | ColdStart | RestoreFailed

  datatype Verdict = Verdict(outcome: Outcome, confirmed: bool, evidence: string)

  /** The pod's Ready condition; the transition time can be missing. */
  datatype Readiness = NotReady | Ready(since: Option<Time>)

  /** The job's two fallback times. */
  datatype Anchors = Anchors(restoring: Option<Time>, created: Option<Time>)

  predicate Usable(t: Option<Time>, now: Time) {
    t.Some? && t.value <= now
  }

  /** Since when the pod counts as Ready, on the controller's clock. */
  function EffectiveReadySince(pod: Readiness, job: Anchors, now: Time): (r: Option<Time>)
    ensures r.Some? <==> pod.Ready?
    ensures r.Some? ==> r.value <= now
    ensures pod.Ready? && Usable(pod.since, now) ==> r == pod.since
  {
    match pod
    case NotReady => None
    case Ready(since) =>
      if Usable(since, now) then since
      else if Usable(job.restoring, now) then job.restoring
      else if Usable(job.created, now) then job.created
      else Some(now)
  }

  /** How much longer an inferred restore has to wait. */
  function StabilizationRemaining(window: Time, pod: Readiness, job: Anchors, now: Time): (r: Time)
    ensures 0 <= r && (window > 0 ==> r <= window)
  {
    if window <= 0 then 0
    else
      match EffectiveReadySince(pod, job, now)
      case None => 0
      case Some(since) =>
        var remaining := window - (now - since);
        if remaining > 0 then (if remaining > window then window else remaining) else 0
  }

  /** The pod has been Ready for the whole window. */
  predicate Stable(window: Time, pod: Readiness, job: Anchors, now: Time) {
    pod.Ready? && (window <= 0 || now - EffectiveReadySince(pod, job, now).value >= window)
  }

  /** The wait of the normal path and the test at the restore ceiling accept the same pods. */
  lemma WaitAgreesWithCeiling(window: Time, pod: Readiness, job: Anchors, now: Time)
    requires pod.Ready?
    ensures StabilizationRemaining(window, pod, job, now) == 0 <==> Stable(window, pod, job, now)
  {
  }

  /** A time that lay ahead of the controller's clock at `now` and does not any more. */
  predicate Arrives(t: Option<Time>, now: Time, later: Time) {
    t.Some? && now < t.value <= later
  }

  /** The anchor that the effective Ready time moves to between `now` and `later`, if it moves. */
  function MovesTo(pod: Readiness, job: Anchors, now: Time, later: Time): Option<Time>
    requires pod.Ready?
  {
    if Arrives(pod.since, now, later) then pod.since
    else if Usable(pod.since, now) then None
    else if Arrives(job.restoring, now, later) then job.restoring
    else if Usable(job.restoring, now) then None
    else if Arrives(job.created, now, later) then job.created
    else if Usable(job.created, now) then None
    else Some(later)
  }

  lemma EffectiveReadyMoves(pod: Readiness, job: Anchors, now: Time, later: Time)
    requires pod.Ready? && now <= later
    ensures EffectiveReadySince(pod, job, later)
         == var t := MovesTo(pod, job, now, later); if t.Some? then t else EffectiveReadySince(pod, job, now)
  {
  }

  /**
   Whether a pod that stays Ready is accepted after the wait that the controller asked for, or stays
   accepted: exactly if its effective Ready time does not move, or moved at least a window ago.  It
   moves when a clock that ran ahead is overtaken, and always when no anchor is usable.
  */
  lemma WaitIsEnoughIffAnchorHolds(window: Time, pod: Readiness, job: Anchors, now: Time, later: Time)
    requires pod.Ready? && now <= later && later >= now + StabilizationRemaining(window, pod, job, now)
    ensures Stable(window, pod, job, later) <==>
      (window > 0 && MovesTo(pod, job, now, later).Some? ==> later - MovesTo(pod, job, now, later).value >= window)
  {
    EffectiveReadyMoves(pod, job, now, later);
  }

  /** A container's restart count, as the pod's status lists it. */
  datatype ContainerStatus = ContainerStatus(name: string, restarts: nat)

  function Total(statuses: seq<ContainerStatus>, counted: set<string>): nat {
    if statuses == [] then 0
    else Total(statuses[..|statuses| - 1], counted)
         + (var last := statuses[|statuses| - 1]; if last.name in counted then last.restarts else 0)
  }

  predicate Restarted(statuses: seq<ContainerStatus>, counted: set<string>) {
    exists i :: 0 <= i < |statuses| && statuses[i].name in counted && statuses[i].restarts > 0
  }

  lemma {:induction false} TotalCountsRestarts(statuses: seq<ContainerStatus>, counted: set<string>)
    ensures Total(statuses, counted) > 0 <==> Restarted(statuses, counted)
  {
    if statuses != [] {
      var init, last := statuses[..|statuses| - 1], statuses[|statuses| - 1];
      TotalCountsRestarts(init, counted);
      if Restarted(init, counted) {
        var i :| 0 <= i < |init| && init[i].name in counted && init[i].restarts > 0;
        assert statuses[i] == init[i];
      }
      if last.name in counted && last.restarts > 0 {
        assert statuses[|statuses| - 1] == last;
      }
    }
  }

  function Names(statuses: seq<ContainerStatus>): set<string> {
    set i | 0 <= i < |statuses| :: statuses[i].name
  }

  /** The restarts of the app containers and of the restartable init containers, with the first that restarted. */
  method ContainerRestarts(apps: seq<ContainerStatus>, inits: seq<ContainerStatus>, sidecars: set<string>)
    returns (total: nat, first: Option<string>)
    ensures total == Total(apps, Names(apps)) + Total(inits, sidecars)
    ensures total == 0 <==> !Restarted(apps, Names(apps)) && !Restarted(inits, sidecars)
    ensures first.Some? <==> total > 0
  {
    total, first := 0, None;
    for i := 0 to |apps|
      invariant total == Total(apps[..i], Names(apps))
      invariant first.Some? <==> total > 0
    {
      assert apps[..i + 1][..i] == apps[..i];
      if apps[i].restarts > 0 {
        total := total + apps[i].restarts;
        if first.None? { first := Some(apps[i].name); }
      }
    }
    assert apps[..|apps|] == apps;
    for i := 0 to |inits|
      invariant total == Total(apps, Names(apps)) + Total(inits[..i], sidecars)
      invariant first.Some? <==> total > 0
    {
      assert inits[..i + 1][..i] == inits[..i];
      if inits[i].name in sidecars && inits[i].restarts > 0 {
        total := total + inits[i].restarts;
        if first.None? { first := Some(inits[i].name); }
      }
    }
    assert inits[..|inits|] == inits;
    TotalCountsRestarts(apps, Names(apps));
    TotalCountsRestarts(inits, sidecars);
  }
}
