/**
 The in-flight disruption budget check.  A dry-run eviction reserves nothing, so the checker
 counts, for each PodDisruptionBudget, the sources of the other migrations in flight as
 disrupted already, and keeps an in-memory reservation for every job it lets through until the
 cache shows that job past Pending.

 A list read from the cache is a map from UID to what the cache shows of that object.
*/
module BudgetChecker {
  import opened Api

  datatype JobView = JobView(target: Option<Uid>, phase: Phase)

  datatype PodView = PodView(ready: bool, terminating: bool)

  type Reservations = map<JobId, Time>

  /** `inFlightReservationTTL`, in seconds. */
  const RESERVATION_TTL: Time := 120

  /** A job that passed the budget check and may still disrupt its source. */
  predicate PastBudgetCheck(p: Phase) {
    p.Snapshotting? || p.Evicting? || p.Restoring?
  }

  /** The disruption controller counts a pod as healthy when it is Ready and not terminating. */
  predicate CountsHealthy(p: PodView) {
    p.ready && !p.terminating
  }

  predicate HealthyIn(pods: map<Uid, PodView>, u: Uid) {
    u in pods && CountsHealthy(pods[u])
  }

  /** A reservation stays while the cache shows its job before the check, for at most the TTL. */
  predicate Keeps(jobs: map<JobId, JobView>, now: Time, j: JobId, at: Time) {
    j in jobs && !PastBudgetCheck(jobs[j].phase) && !Terminal(jobs[j].phase) && now - at <= RESERVATION_TTL
  }

  function Pruned(res: Reservations, jobs: map<JobId, JobView>, now: Time): Reservations {
    map j | j in res && Keeps(jobs, now, j, res[j]) :: res[j]
  }

  /** The reservations once all but those in `todo` were looked at. */
  function PrunedExcept(res: Reservations, jobs: map<JobId, JobView>, now: Time, todo: set<JobId>): Reservations {
    map j | j in res && (j in todo || Keeps(jobs, now, j, res[j])) :: res[j]
  }

  /** The reservations kept so far. */
  function KeptOutside(res: Reservations, jobs: map<JobId, JobView>, now: Time, todo: set<JobId>): Reservations {
    map j | j in res && j !in todo && Keeps(jobs, now, j, res[j]) :: res[j]
  }

  lemma PruneOne(res: Reservations, jobs: map<JobId, JobView>, now: Time, todo: set<JobId>, j: JobId)
    requires j in res && j in todo
    ensures KeptOutside(res, jobs, now, todo - {j})
         == var kept := KeptOutside(res, jobs, now, todo);
            if Keeps(jobs, now, j, res[j]) then kept[j := res[j]] else kept
    ensures PrunedExcept(res, jobs, now, todo - {j})
         == var rest := PrunedExcept(res, jobs, now, todo); if Keeps(jobs, now, j, res[j]) then rest else rest - {j}
  {
  }

  /** Job k's migration disrupts its source, as far as the list and the reservations tell. */
  predicate Disrupts(jobs: map<JobId, JobView>, res: Reservations, pods: map<Uid, PodView>, k: JobId) {
    && k in jobs
    && (k in res || PastBudgetCheck(jobs[k].phase))
    && jobs[k].target.Some?
    && jobs[k].target.value in pods
    && !pods[jobs[k].target.value].terminating
  }

  /** The sources of the other migrations in flight. */
  function InFlight(job: JobId, jobs: map<JobId, JobView>, res: Reservations, pods: map<Uid, PodView>): set<Uid> {
    set k | k in jobs && k != job && Disrupts(jobs, res, pods, k) :: jobs[k].target.value
  }

  /** The healthy pods that no other migration in flight takes away. */
  function Undisrupted(pods: map<Uid, PodView>, inFlight: set<Uid>): set<Uid> {
    set u | u in pods && u !in inFlight && CountsHealthy(pods[u])
  }

  /** How many healthy pods would remain if `job` disrupted its source as well. */
  function Remaining(job: JobId, sourceHealthy: bool, jobs: map<JobId, JobView>, res: Reservations,
      pods: map<Uid, PodView>): int {
    |Undisrupted(pods, InFlight(job, jobs, res, pods))| - (if sourceHealthy then 1 else 0)
  }

  class InFlightBudgetChecker {
    /** Per PodDisruptionBudget: the jobs let through, and when. */
    var reserved: map<string, Reservations>

    constructor ()
      ensures reserved == map[]
    {
      reserved := map[];
    }

    function Held(key: string): Reservations
      reads this
    {
      if key in reserved then reserved[key] else map[]
    }

    method Reserve(key: string, job: JobId, now: Time)
      modifies this
      ensures reserved == old(reserved)[key := old(Held(key))[job := now]]
    {
      if key !in reserved {
        var none: Reservations := map[];
        reserved := reserved[key := none];
      }
      var held: Reservations := reserved[key][job := now];
      reserved := reserved[key := held];
    }

    /** Drops the reservations that the list covers or outlives, in place, and returns the rest. */
    method PruneReservations(key: string, jobs: map<JobId, JobView>, now: Time) returns (kept: Reservations)
      modifies this
      ensures kept == Pruned(old(Held(key)), jobs, now)
      ensures reserved == if key in old(reserved) then old(reserved)[key := kept] else old(reserved)
    {
      var res := Held(key);
      kept := map[];
      if res == map[] {
        assert key in reserved ==> reserved[key := reserved[key]] == reserved;
        return;
      }
      var todo := res.Keys;
      var rest := res;
      assert rest == PrunedExcept(res, jobs, now, todo) && kept == KeptOutside(res, jobs, now, todo);
      while todo != {}
        invariant todo <= res.Keys
        invariant kept == KeptOutside(res, jobs, now, todo)
        invariant rest == PrunedExcept(res, jobs, now, todo)
        invariant reserved == old(reserved)[key := rest]
        decreases |todo|
      {
        var j :| j in todo;
        PruneOne(res, jobs, now, todo, j);
        todo := todo - {j};
        if Keeps(jobs, now, j, res[j]) {
          kept := kept[j := res[j]];
        } else {
          rest := rest - {j};
          reserved := reserved[key := rest];
        }
      }
      assert rest == kept == Pruned(res, jobs, now);
    }

    /** The loop that collects the sources of the other migrations in flight. */
    method CollectInFlight(job: JobId, jobs: map<JobId, JobView>, res: Reservations, pods: map<Uid, PodView>)
      returns (inFlight: set<Uid>)
      ensures inFlight == InFlight(job, jobs, res, pods)
    {
      inFlight := {};
      var todo := jobs.Keys;
      while todo != {}
        invariant todo <= jobs.Keys
        invariant inFlight == set k | k in jobs && k !in todo && k != job && Disrupts(jobs, res, pods, k) ::
            jobs[k].target.value
        decreases |todo|
      {
        var k :| k in todo;
        todo := todo - {k};
        if k != job && Disrupts(jobs, res, pods, k) {
          inFlight := inFlight + {jobs[k].target.value};
        }
      }
    }

    /** The loop that counts the healthy pods. */
    method CountHealthy(pods: map<Uid, PodView>, inFlight: set<Uid>) returns (healthy: int)
      ensures healthy == |Undisrupted(pods, inFlight)|
    {
      healthy := 0;
      var todo := pods.Keys;
      ghost var counted: set<Uid> := {};
      while todo != {}
        invariant todo <= pods.Keys
        invariant counted == set u | u in pods && u !in todo && u !in inFlight && CountsHealthy(pods[u])
        invariant healthy == |counted|
        decreases |todo|
      {
        var u :| u in todo;
        todo := todo - {u};
        if u !in inFlight && CountsHealthy(pods[u]) {
          healthy := healthy + 1;
          counted := counted + {u};
        }
      }
      assert counted == Undisrupted(pods, inFlight);
    }

    /**
     Checks one budget against one pair of lists.  A check that reserves records the job it
     lets through; either kind prunes, except on the AlwaysAllow path, which touches nothing.
    */
    method CheckPDB(key: string, job: JobId, sourceHealthy: bool, alwaysAllow: bool, jobs: map<JobId, JobView>,
                    pods: map<Uid, PodView>, desiredHealthy: int, reserve: bool, now: Time)
      returns (allowed: bool)
      modifies this
      ensures !sourceHealthy && alwaysAllow ==> allowed && reserved == old(reserved)
      ensures sourceHealthy || !alwaysAllow ==>
        var kept := Pruned(old(Held(key)), jobs, now);
        && (allowed <==> Remaining(job, sourceHealthy, jobs, kept, pods) >= desiredHealthy)
        && Held(key) == (if allowed && reserve then kept[job := now] else kept)
        && reserved - {key} == old(reserved) - {key}
    {
      if !sourceHealthy && alwaysAllow {
        return true;
      }
      var kept := PruneReservations(key, jobs, now);
      var inFlight := CollectInFlight(job, jobs, kept, pods);
      var healthy := CountHealthy(pods, inFlight);
      if sourceHealthy {
        healthy := healthy - 1;
      }
      if healthy < desiredHealthy {
        return false;
      }
      if reserve {
        Reserve(key, job, now);
      }
      return true;
    }
  }
}
