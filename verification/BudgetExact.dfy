/**
 What the budget check answers when it sees the truth: it refuses exactly if the healthy pods
 that no other migration has a claim on would fall below what the budget desires.
*/
module BudgetExact {
  import opened Api
  import opened BudgetChecker
  import opened BudgetProtocol

  /** Job j was let through, may still disrupt its source, or holds a reservation that has not expired. */
  predicate Claims(s: State, j: JobId) {
    && j in s.jobs
    && (|| j in s.admitted
        || s.jobs[j].phase in {Snapshotting, Evicting, Restoring}
        || (j in s.reserved && !Terminal(s.jobs[j].phase) && s.now - s.reserved[j] <= 120))
  }

  /** The truly healthy pods that no other job claims. */
  ghost function Unclaimed(s: State, job: JobId): set<Uid> {
    set u | u in s.pods && s.pods[u].ready && !s.pods[u].terminating
         && forall j :: j != job && Claims(s, j) ==> !Targets(s, j, u)
  }

  /** The worker's lists, and what it read of its source, are the truth. */
  predicate SeesTruth(s: State, wk: Worker) {
    wk.Listed? && wk.jobs == s.jobs && wk.pods == s.pods && SourceKnown(s, wk.job)
    && (wk.sourceHealthy <==> SourceHealthy(s, wk.job))
  }

  predicate SourceHealthy(s: State, job: JobId)
    requires SourceKnown(s, job)
  {
    Source(s, job) in s.pods && s.pods[Source(s, job)].ready && !s.pods[Source(s, job)].terminating
  }

  /** Only jobs that were let through hold reservations, and maybe the one that is checked again. */
  predicate ReservationsHonest(s: State, job: JobId) {
    forall j :: j in s.reserved ==> j in s.admitted || j == job || !Claims(s, j)
  }

  lemma ClaimedIsInFlight(s: State, wk: Worker, j: JobId, u: Uid)
    requires Inv(s) && SeesTruth(s, wk) && HealthyIn(s.pods, u) && j != wk.job && Targets(s, j, u)
    ensures var res := Pruned(s.reserved, s.jobs, s.now); Claims(s, j) <==> Disrupts(s.jobs, res, s.pods, j)
  {
    hide HoldersOk, WorkersOk, PastOk;
    if j in s.admitted {
      assert ShowsAdmitted(s, s.jobCache) && AdmittedJobOk(s, j);
      assert Covers(s, s.jobCache, j);
    }
  }

  /** Neither more nor less: what the check counts is what nobody else claims. */
  lemma CountedIsUnclaimed(s: State, wk: Worker)
    requires Inv(s) && SeesTruth(s, wk)
    ensures Counted(s, wk) == Unclaimed(s, wk.job)
  {
    hide Inv, Claims, Disrupts;
    var res := Pruned(s.reserved, s.jobs, s.now);
    forall u | HealthyIn(s.pods, u) ensures u in Counted(s, wk) <==> u in Unclaimed(s, wk.job) {
      forall j | j != wk.job && Targets(s, j, u) ensures Claims(s, j) <==> Disrupts(s.jobs, res, s.pods, j) {
        ClaimedIsInFlight(s, wk, j, u);
      }
      assert u in InFlight(wk.job, s.jobs, res, s.pods) <==>
        exists j :: j != wk.job && Targets(s, j, u) && Disrupts(s.jobs, res, s.pods, j) by { InFlightMeans(s, wk, u); }
    }
  }

  lemma InFlightMeans(s: State, wk: Worker, u: Uid)
    requires SeesTruth(s, wk)
    ensures var res := Pruned(s.reserved, s.jobs, s.now);
      u in InFlight(wk.job, s.jobs, res, s.pods) <==>
      exists j :: j != wk.job && Targets(s, j, u) && Disrupts(s.jobs, res, s.pods, j)
  {
    var res := Pruned(s.reserved, s.jobs, s.now);
    if j :| j != wk.job && Targets(s, j, u) && Disrupts(s.jobs, res, s.pods, j) {
      assert s.jobs[j].target.value == u;
    }
  }

  /**
   A check that sees the truth lets its job through if and only if an unhealthy source may always go,
   or the pods that nobody else claims, the source apart, are at least as many as desired.
  */
  lemma AllowsExactly(s: State, wk: Worker)
    requires Inv(s) && SeesTruth(s, wk)
    ensures Allows(s, wk) <==>
      || (s.alwaysAllow && !SourceHealthy(s, wk.job))
      || |Unclaimed(s, wk.job)| - (if SourceHealthy(s, wk.job) then 1 else 0) >= s.desired
  {
    hide Inv;
    CountedIsUnclaimed(s, wk);
  }

  /** Job j was let through, or is past the check. */
  predicate Disrupting(s: State, j: JobId)
    requires j in s.jobs
  {
    j in s.admitted || s.jobs[j].phase in {Snapshotting, Evicting, Restoring}
  }

  /** The healthy pods that no other job, let through or past the check, is about to disrupt. */
  ghost function Free(s: State, job: JobId): set<Uid> {
    set u | u in s.pods && s.pods[u].ready && !s.pods[u].terminating
         && forall j :: j != job && j in s.jobs && Disrupting(s, j) ==> !Targets(s, j, u)
  }

  /** Where only jobs that were let through hold reservations, the verdict is about pods and jobs alone. */
  lemma AllowsExactlyWhatIsFree(s: State, wk: Worker)
    requires Inv(s) && SeesTruth(s, wk) && ReservationsHonest(s, wk.job)
    ensures Allows(s, wk) <==>
      || (s.alwaysAllow && !SourceHealthy(s, wk.job))
      || |Free(s, wk.job)| - (if SourceHealthy(s, wk.job) then 1 else 0) >= s.desired
  {
    hide Inv, Allows;
    AllowsExactly(s, wk);
    assert Free(s, wk.job) == Unclaimed(s, wk.job);
  }

  /** A job's own reservation, whatever lists the check uses, does not count against it. */
  lemma OwnReservationIsFree(s: State, wk: Worker, at: Time)
    requires wk.Listed?
    ensures Allows(s.(reserved := s.reserved - {wk.job}), wk) == Allows(s, wk)
    ensures Allows(s.(reserved := s.reserved[wk.job := at]), wk) == Allows(s, wk)
  {
    SameInFlight(s, wk, s.reserved - {wk.job});
    SameInFlight(s, wk, s.reserved[wk.job := at]);
  }

  lemma SameInFlight(s: State, wk: Worker, res: Reservations)
    requires wk.Listed? && res - {wk.job} == s.reserved - {wk.job}
    ensures InFlight(wk.job, wk.jobs, Pruned(res, wk.jobs, s.now), wk.pods)
         == InFlight(wk.job, wk.jobs, Pruned(s.reserved, wk.jobs, s.now), wk.pods)
  {
    var a, b := Pruned(res, wk.jobs, s.now), Pruned(s.reserved, wk.jobs, s.now);
    forall k | k != wk.job ensures Disrupts(wk.jobs, a, wk.pods, k) == Disrupts(wk.jobs, b, wk.pods, k) {
      assert k in res <==> k in res - {wk.job};
      assert k in s.reserved <==> k in s.reserved - {wk.job};
      assert k in res ==> (res - {wk.job})[k] == res[k];
    }
  }
}
