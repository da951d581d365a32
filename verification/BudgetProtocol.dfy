/**
 The disruption budget under concurrency: workers that check one PodDisruptionBudget, a job
 cache and a pod cache that lag behind the API server, reservations in memory, and everything
 else that moves meanwhile.

 What is protected is the set of healthy pods that no admitted job is about to disrupt, in
 truth, not in any cache.  A check only sees the caches and the reservations.
*/
module BudgetProtocol {
  import opened Api
  import opened Sets
  import opened BudgetChecker

  /**
   A worker on its way through the reserving check, or a lock-free pre-check that only prunes.
   `Listing` and `Listed` hold the budget's lock: first the jobs are listed, then the pods.
   `Admitting` passed and has yet to write Snapshotting.
  */
  datatype Worker =
    | Checking(job: JobId, sourceHealthy: bool)
    | Listing(job: JobId, sourceHealthy: bool, jobs: map<JobId, JobView>)
    | Listed(job: JobId, sourceHealthy: bool, jobs: map<JobId, JobView>, pods: map<Uid, PodView>)
    | PreListed(jobs: map<JobId, JobView>)
    | Admitting(job: JobId)

  /**
   `pods` and `jobs` are the truth; the caches show each object as of its last sync.
   `admitted` are the jobs that passed the check and may still disrupt their source.
   `disruptor` remembers which job took a pod out of service, and `lost` which pods went out on
   their own.
  */
  datatype State = State(
    desired: int,
    alwaysAllow: bool,
    now: Time,
    pods: map<Uid, PodView>,
    podCache: map<Uid, PodView>,
    jobs: map<JobId, JobView>,
    jobCache: map<JobId, JobView>,
    reserved: Reservations,
    workers: map<nat, Worker>,
    admitted: set<JobId>,
    disruptor: map<Uid, JobId>,
    lost: set<Uid>)

  datatype Step =
    | Tick(t: Time)
    | SyncJob(j: JobId)
    | SyncPod(u: Uid)
    | CreateJob(j: JobId, target: Uid)
    | Progress(j: JobId, phase: Phase)
    | DeleteJob(j: JobId)
    | AddPod(u: Uid)
    | BecomeReady(u: Uid)
    | Lose(u: Uid, terminating: bool)
    | Fence(j: JobId)
    | Evict(j: JobId)
    | DropPod(u: Uid)
    | Restart
    | Start(w: nat, j: JobId)
    | PreList(w: nat)
    | PrePrune(w: nat)
    | ListJobs(w: nat)
    | ListPods(w: nat)
    | Decide(w: nat)
    | WriteStatus(w: nat)
    | FailWrite(w: nat)

  predicate Targets(s: State, j: JobId, u: Uid) {
    j in s.jobs && s.jobs[j].target == Some(u)
  }

  predicate TargetedByAdmitted(s: State, u: Uid) {
    exists j :: j in s.admitted && Targets(s, j, u)
  }

  /** The healthy pods that no admitted job is about to disrupt. */
  function Untouched(s: State): set<Uid> {
    set u | u in s.pods && CountsHealthy(s.pods[u]) && !TargetedByAdmitted(s, u)
  }

  predicate WorkingOn(wk: Worker, j: JobId) {
    !wk.PreListed? && wk.job == j
  }

  predicate Busy(s: State, j: JobId) {
    exists w :: w in s.workers && WorkingOn(s.workers[w], j)
  }

  predicate Holds(wk: Worker) {
    wk.Listing? || wk.Listed?
  }

  predicate Locked(s: State) {
    exists w :: w in s.workers && Holds(s.workers[w])
  }

  function WithWorker(s: State, w: nat, wk: Worker): State {
    s.(workers := s.workers[w := wk])
  }

  function Done(s: State, w: nat): State {
    s.(workers := s.workers - {w})
  }

  /** Makes an object of the truth, or its absence, visible in the cache. */
  function Synced<V>(cache: map<nat, V>, truth: map<nat, V>, k: nat): map<nat, V> {
    if k in truth then cache[k := truth[k]] else cache - {k}
  }

  predicate SourceKnown(s: State, j: JobId) {
    j in s.jobs && s.jobs[j].target.Some?
  }

  function Source(s: State, j: JobId): Uid
    requires SourceKnown(s, j)
  {
    s.jobs[j].target.value
  }

  /** A UID that no object, cache, list or reservation has ever shown. */
  predicate FreshJob(s: State, j: JobId) {
    && j !in s.jobs && j !in s.jobCache && j !in s.reserved
    && forall w :: w in s.workers && Holds(s.workers[w]) ==> j !in s.workers[w].jobs
  }

  /** The reserving check's verdict, on the lists the worker took. */
  predicate Allows(s: State, wk: Worker)
    requires wk.Listed?
  {
    || (!wk.sourceHealthy && s.alwaysAllow)
    || Remaining(wk.job, wk.sourceHealthy, wk.jobs, Pruned(s.reserved, wk.jobs, s.now), wk.pods) >= s.desired
  }

  /** Lets the job of worker w through; only the AlwaysAllow path makes no reservation. */
  function Admitted(s: State, w: nat, job: JobId, reserve: bool): State {
    WithWorker(s, w, Admitting(job)).(
      admitted := s.admitted + {job},
      reserved := if reserve then s.reserved[job := s.now] else s.reserved)
  }

  function Decided(s: State, w: nat, wk: Worker): State
    requires wk.Listed?
  {
    if !wk.sourceHealthy && s.alwaysAllow then Admitted(s, w, wk.job, false)
    else
      var p := s.(reserved := Pruned(s.reserved, wk.jobs, s.now));
      if Allows(s, wk) then Admitted(p, w, wk.job, true) else Done(p, w)
  }

  function Progressed(s: State, j: JobId, phase: Phase): State
    requires j in s.jobs
  {
    s.(jobs := s.jobs[j := s.jobs[j].(phase := phase)],
       admitted := if Terminal(phase) then s.admitted - {j} else s.admitted)
  }

  /** Pod u, the source of job j, goes out of service, unless another job took it out before. */
  function TakenOut(s: State, j: JobId, u: Uid, pod: PodView): State {
    s.(pods := s.pods[u := pod],
       disruptor := if u in s.disruptor && !HealthyIn(s.pods, u) then s.disruptor else s.disruptor[u := j])
  }

  /** Pod u goes out of service on its own, or is deleted by somebody else. */
  function LostOne(s: State, u: Uid, terminating: bool): State
    requires u in s.pods
  {
    s.(pods := s.pods[u := PodView(false, terminating || s.pods[u].terminating)],
       lost := if HealthyIn(s.pods, u) then s.lost + {u} else s.lost)
  }

  function ReadyAgain(s: State, u: Uid): State
    requires u in s.pods
  {
    s.(pods := s.pods[u := s.pods[u].(ready := true)],
       lost := if s.pods[u].terminating then s.lost else s.lost - {u})
  }

  /** A new process: no reservations, no workers, and caches listed afresh. */
  function Restarted(s: State): State {
    s.(reserved := map[], workers := map[], podCache := s.pods, jobCache := s.jobs,
       admitted := set j | j in s.admitted && j in s.jobs && PastBudgetCheck(s.jobs[j].phase))
  }

  /** The status write of an admitted job lands. */
  function Written(s: State, w: nat, job: JobId): State
    requires job in s.jobs
  {
    Done(s, w).(jobs := s.jobs[job := s.jobs[job].(phase := Snapshotting)])
  }

  /** The transition function.  A step that is not enabled changes nothing. */
  function Next(s: State, step: Step): State {
    match step
    case Tick(t) => if s.now <= t then s.(now := t) else s
    case SyncJob(j) => s.(jobCache := Synced(s.jobCache, s.jobs, j))
    case SyncPod(u) => s.(podCache := Synced(s.podCache, s.pods, u))
    case CreateJob(j, target) =>
      if FreshJob(s, j) then s.(jobs := s.jobs[j := JobView(Some(target), Pending)]) else s
    case Progress(j, phase) =>
      if j in s.jobs && !Busy(s, j) && Forward(s.jobs[j].phase, phase) && !Terminal(s.jobs[j].phase)
         && (PastBudgetCheck(s.jobs[j].phase) || phase.Failed? || phase == s.jobs[j].phase)
      then Progressed(s, j, phase) else s
    case DeleteJob(j) => if j in s.jobs && Terminal(s.jobs[j].phase) then s.(jobs := s.jobs - {j}) else s
    case AddPod(u) =>
      if u in s.pods || u in s.podCache || u in s.disruptor then s else s.(pods := s.pods[u := PodView(false, false)])
    case BecomeReady(u) => if u in s.pods then ReadyAgain(s, u) else s
    case Lose(u, terminating) => if u in s.pods then LostOne(s, u, terminating) else s
    case Fence(j) =>
      if SourceKnown(s, j) && PastBudgetCheck(s.jobs[j].phase) && Source(s, j) in s.pods then
        TakenOut(s, j, Source(s, j), s.pods[Source(s, j)].(ready := false))
      else s
    case Evict(j) =>
      if SourceKnown(s, j) && s.jobs[j].phase.Evicting? && Source(s, j) in s.pods then
        TakenOut(s, j, Source(s, j), s.pods[Source(s, j)].(terminating := true)).(admitted := s.admitted - {j})
      else s
    case DropPod(u) => if u in s.pods && s.pods[u].terminating then s.(pods := s.pods - {u}) else s
    case Restart => Restarted(s)
    case Start(w, j) =>
      if w !in s.workers && SourceKnown(s, j) && s.jobs[j].phase.Pending? && j in s.jobCache && !Busy(s, j)
         && j !in s.admitted && Source(s, j) in s.podCache
      then WithWorker(s, w, Checking(j, CountsHealthy(s.podCache[Source(s, j)]))) else s
    case PreList(w) => if w in s.workers then s else WithWorker(s, w, PreListed(s.jobCache))
    case PrePrune(w) =>
      if w in s.workers && s.workers[w].PreListed? then
        Done(s, w).(reserved := Pruned(s.reserved, s.workers[w].jobs, s.now))
      else s
    case ListJobs(w) =>
      if w in s.workers && s.workers[w].Checking? && !Locked(s) then
        WithWorker(s, w, Listing(s.workers[w].job, s.workers[w].sourceHealthy, s.jobCache))
      else s
    case ListPods(w) =>
      if w in s.workers && s.workers[w].Listing? then
        WithWorker(s, w, Listed(s.workers[w].job, s.workers[w].sourceHealthy, s.workers[w].jobs, s.podCache))
      else s
    case Decide(w) => if w in s.workers && s.workers[w].Listed? then Decided(s, w, s.workers[w]) else s
    case WriteStatus(w) =>
      if w in s.workers && s.workers[w].Admitting? && s.workers[w].job in s.jobs then Written(s, w, s.workers[w].job)
      else s
    case FailWrite(w) =>
      if w in s.workers && s.workers[w].Admitting? then Done(s, w).(admitted := s.admitted - {s.workers[w].job})
      else s
  }

  function Run(s: State, steps: seq<Step>): State
    decreases |steps|
  {
    if steps == [] then s else Next(Run(s, steps[..|steps| - 1]), steps[|steps| - 1])
  }

  // ----- Views: what the cache, or the list of whoever holds the lock, shows -----

  /** A check that looks at `view` counts job j's source as disrupted. */
  predicate Covers(s: State, view: map<JobId, JobView>, j: JobId) {
    && j in view
    && (|| PastBudgetCheck(view[j].phase)
        || (j in s.reserved && !Terminal(view[j].phase) && s.now - s.reserved[j] <= RESERVATION_TTL))
  }

  /** The view shows job j before the check although it was admitted or is long past it: only a reservation can
    * cover it. */
  predicate Hidden(s: State, view: map<JobId, JobView>, j: JobId) {
    && j in view && Rank(view[j].phase) < Rank(Snapshotting)
    && (j in s.admitted || j !in s.jobs || Rank(s.jobs[j].phase) >= Rank(Snapshotting))
  }

  /** Job j is hidden from the next check, or from the one that holds the lock. */
  ghost predicate HiddenSomewhere(s: State, j: JobId) {
    || Hidden(s, s.jobCache, j)
    || exists w :: w in s.workers && Holds(s.workers[w]) && Hidden(s, s.workers[w].jobs, j)
  }

  /** The pod list shows healthy a pod that a job took out of service. */
  predicate Stale(s: State, pods: map<Uid, PodView>, u: Uid) {
    HealthyIn(pods, u) && !HealthyIn(s.pods, u) && u !in s.lost
  }

  // ----- What the proof assumes of a step -----

  /** A status write becomes visible, and a check that holds the lock ends, within the reservation's lifetime. */
  ghost predicate LagBelowTTL(s: State, t: Time) {
    forall j :: j in s.reserved && HiddenSomewhere(s, j) ==> t - s.reserved[j] <= RESERVATION_TTL
  }

  /** The job cache does not forget a job while the pod cache still shows healthy a pod that the job took out. */
  ghost predicate PodCacheFirst(s: State, j: JobId) {
    || (j in s.jobs && PastBudgetCheck(s.jobs[j].phase))
    || forall u :: u in s.disruptor && s.disruptor[u] == j ==> !Stale(s, s.podCache, u)
  }

  /** A prune without the lock drops no reservation that alone covers its job. */
  ghost predicate HarmlessPrune(s: State, list: map<JobId, JobView>) {
    forall j :: j in s.reserved && HiddenSomewhere(s, j) ==> Keeps(list, s.now, j, s.reserved[j])
  }

  /** A source read as unhealthy is: in truth where that lets it go, and in the pod list where it is counted. */
  predicate SourceHealthCurrent(s: State, wk: Worker)
    requires wk.Listed?
  {
    SourceKnown(s, wk.job) && !wk.sourceHealthy ==>
      !HealthyIn(if s.alwaysAllow then s.pods else wk.pods, Source(s, wk.job))
  }

  /** The pod list shows every pod, the source apart, that went out of service on its own. */
  predicate LossShown(s: State, wk: Worker)
    requires wk.Listed?
  {
    forall u :: u in s.lost && HealthyIn(wk.pods, u) ==> Targets(s, wk.job, u)
  }

  /** A source let go without a reservation does not recover before its job shows, to the cache and to the lock's
    * holder. */
  ghost predicate RecoveryShown(s: State, u: Uid) {
    forall j :: j in s.admitted && Targets(s, j, u) ==>
      && Covers(s, s.jobCache, j)
      && forall w :: w in s.workers && Holds(s.workers[w]) ==> Covers(s, s.workers[w].jobs, j)
  }

  ghost predicate Assumed(s: State, step: Step) {
    match step
    case Tick(t) => LagBelowTTL(s, t)
    case SyncJob(j) => PodCacheFirst(s, j)
    case BecomeReady(u) => RecoveryShown(s, u)
    case PrePrune(w) => w in s.workers && s.workers[w].PreListed? ==> HarmlessPrune(s, s.workers[w].jobs)
    case Decide(w) =>
      w in s.workers && s.workers[w].Listed? ==>
        && SourceHealthCurrent(s, s.workers[w])
        && (s.workers[w].sourceHealthy || !s.alwaysAllow ==> LossShown(s, s.workers[w]))
    case _ => true
  }

  ghost predicate AllAssumed(s: State, steps: seq<Step>)
    decreases |steps|
  {
    steps == [] ||
    (AllAssumed(s, steps[..|steps| - 1]) && Assumed(Run(s, steps[..|steps| - 1]), steps[|steps| - 1]))
  }

  // ----- The invariant -----

  ghost predicate WorkerOk(s: State, wk: Worker) {
    wk.PreListed? ||
    (&& SourceKnown(s, wk.job) && s.jobs[wk.job].phase.Pending? && wk.job in s.jobCache
     && (wk.Admitting? <==> wk.job in s.admitted))
  }

  /** Every worker has a job of its own, and only one holds the lock. */
  ghost predicate WorkersOk(s: State) {
    && (forall w :: w in s.workers ==> WorkerOk(s, s.workers[w]))
    && (forall w, x :: w in s.workers && x in s.workers && w != x ==> Apart(s.workers[w], s.workers[x]))
  }

  predicate Apart(a: Worker, b: Worker) {
    a.PreListed? || b.PreListed? || (a.job != b.job && !(Holds(a) && Holds(b)))
  }

  ghost predicate AdmittedOk(s: State) {
    forall j :: j in s.admitted ==> AdmittedJobOk(s, j)
  }

  ghost predicate AdmittedJobOk(s: State, j: JobId) {
    SourceKnown(s, j) && (PastBudgetCheck(s.jobs[j].phase) || (s.jobs[j].phase.Pending? && Busy(s, j)))
  }

  /** A job past the check is admitted until its source is terminating. */
  ghost predicate PastOk(s: State) {
    forall j :: j in s.jobs && PastBudgetCheck(s.jobs[j].phase) && j !in s.admitted ==> SourceOut(s, j)
  }

  ghost predicate SourceOut(s: State, j: JobId) {
    SourceKnown(s, j) ==>
      Source(s, j) in s.disruptor && (Source(s, j) in s.pods ==> s.pods[Source(s, j)].terminating)
  }

  /** A reserved job that exists was in the cache when it was let through, and stays there. */
  ghost predicate ReservedOk(s: State) {
    forall j :: j in s.reserved && j in s.jobs ==> j in s.jobCache
  }

  ghost predicate Base(s: State) {
    WorkersOk(s) && AdmittedOk(s) && PastOk(s) && ReservedOk(s)
  }

  /** The view shows older versions of the same jobs. */
  ghost predicate ShowsOld(s: State, view: map<JobId, JobView>) {
    forall j :: j in view && j in s.jobs ==>
      view[j].target == s.jobs[j].target && Forward(view[j].phase, s.jobs[j].phase)
  }

  /** An admitted job is covered, unless its source is unhealthy anyway. */
  ghost predicate ShowsAdmitted(s: State, view: map<JobId, JobView>) {
    forall j :: j in s.admitted && SourceKnown(s, j) && HealthyIn(s.pods, Source(s, j)) ==> Covers(s, view, j)
  }

  /** A pod that only the pod list still shows healthy, and no loss explains, is counted out by its job. */
  ghost predicate ShowsStale(s: State, view: map<JobId, JobView>, pods: map<Uid, PodView>) {
    forall u :: HealthyIn(pods, u) && !HealthyIn(s.pods, u) && u !in s.lost ==> TakenOutCovered(s, view, u)
  }

  ghost predicate TakenOutCovered(s: State, view: map<JobId, JobView>, u: Uid) {
    && u in s.disruptor
    && var j := s.disruptor[u];
       && Covers(s, view, j)
       && view[j].target == Some(u)
       && (j in s.jobs ==> Rank(s.jobs[j].phase) >= Rank(Snapshotting))
  }

  ghost predicate ViewOk(s: State, view: map<JobId, JobView>, pods: map<Uid, PodView>) {
    ShowsOld(s, view) && ShowsAdmitted(s, view) && ShowsStale(s, view, pods)
  }

  /** A list is not ahead of the cache, and it has every job that only a reservation covers. */
  ghost predicate ListBehind(s: State, list: map<JobId, JobView>) {
    && (forall j :: j in list && j in s.jobCache ==> Forward(list[j].phase, s.jobCache[j].phase))
    && (forall j :: j in s.reserved && j in s.jobCache && Rank(s.jobCache[j].phase) < Rank(Snapshotting) ==> j in list)
  }

  /** The pods that the lock's holder lists, or will list. */
  function HeldPods(s: State, wk: Worker): map<Uid, PodView> {
    if wk.Listed? then wk.pods else s.podCache
  }

  ghost predicate HolderOk(s: State, wk: Worker) {
    Holds(wk) ==> ViewOk(s, wk.jobs, HeldPods(s, wk)) && ListBehind(s, wk.jobs)
  }

  ghost predicate HoldersOk(s: State) {
    forall w :: w in s.workers ==> HolderOk(s, s.workers[w])
  }

  ghost predicate Inv(s: State) {
    Base(s) && ViewOk(s, s.jobCache, s.podCache) && HoldersOk(s)
  }

  // ----- A check never overspends -----

  /** The pods the check counts as staying healthy, the source among them. */
  function Counted(s: State, wk: Worker): set<Uid>
    requires wk.Listed?
  {
    Undisrupted(wk.pods, InFlight(wk.job, wk.jobs, Pruned(s.reserved, wk.jobs, s.now), wk.pods))
  }

  /** A covered job other than the one checked has its source counted out. */
  lemma CoveredIsCountedOut(s: State, wk: Worker, j: JobId)
    requires wk.Listed? && Covers(s, wk.jobs, j) && j != wk.job && wk.jobs[j].target.Some?
    ensures wk.jobs[j].target.value !in Counted(s, wk)
  {
  }

  lemma TakenOutIsCountedOut(s: State, wk: Worker, u: Uid)
    requires WorkerOk(s, wk) && wk.Listed?
    ensures TakenOutCovered(s, wk.jobs, u) ==> u !in Counted(s, wk)
  {
    if TakenOutCovered(s, wk.jobs, u) {
      CoveredIsCountedOut(s, wk, s.disruptor[u]);
    }
  }

  /** Whatever the check counts, apart from the source itself, is untouched in truth. */
  lemma CountedIsUntouched(s: State, wk: Worker, u: Uid)
    requires WorkerOk(s, wk) && wk.Listed? && ViewOk(s, wk.jobs, wk.pods) && AdmittedOk(s)
    requires u in Counted(s, wk) && u != Source(s, wk.job) && LossShown(s, wk)
    ensures u in Untouched(s)
  {
    TakenOutIsCountedOut(s, wk, u);
    assert HealthyIn(wk.pods, u) && HealthyIn(s.pods, u);
    forall j | j in s.admitted ensures !Targets(s, j, u) {
      assert AdmittedJobOk(s, j);
      if Source(s, j) == u {
        assert Covers(s, wk.jobs, j) && wk.jobs[j].target == Some(u);
        CoveredIsCountedOut(s, wk, j);
      }
    }
  }

  /** The check's count is never above what its admission leaves, however old its lists are. */
  lemma CountIsSafe(s: State, wk: Worker)
    requires WorkerOk(s, wk) && wk.Listed? && ViewOk(s, wk.jobs, wk.pods) && AdmittedOk(s)
    requires !s.alwaysAllow || wk.sourceHealthy
    requires SourceHealthCurrent(s, wk) && LossShown(s, wk)
    ensures Remaining(wk.job, wk.sourceHealthy, wk.jobs, Pruned(s.reserved, wk.jobs, s.now), wk.pods)
         <= |Untouched(s) - {Source(s, wk.job)}|
  {
    var source := Source(s, wk.job);
    var counted := Counted(s, wk);
    forall u | u in counted - {source} ensures u in Untouched(s) - {source} {
      CountedIsUntouched(s, wk, u);
    }
    SubsetSize(counted - {source}, Untouched(s) - {source});
    if source in counted {
      assert HealthyIn(wk.pods, source);
      assert |counted - {source}| == |counted| - 1;
    } else {
      assert counted - {source} == counted;
    }
  }

  /** Admitting a job takes at most its own source out of the untouched pods. */
  lemma AdmitTakesSource(s: State, t: State, job: JobId)
    requires SourceKnown(s, job) && t.pods == s.pods && t.jobs == s.jobs && t.admitted == s.admitted + {job}
    ensures Untouched(s) - {Source(s, job)} <= Untouched(t)
  {
  }

  // ----- Every step keeps the invariant -----

  lemma TickKeepsView(s: State, t: Time, view: map<JobId, JobView>, pods: map<Uid, PodView>)
    requires ViewOk(s, view, pods) && s.now <= t
    requires forall j :: j in s.reserved && Hidden(s, view, j) ==> t - s.reserved[j] <= RESERVATION_TTL
    ensures ViewOk(s.(now := t), view, pods)
  {
  }

  lemma TickKeeps(s: State, t: Time)
    requires Inv(s) && s.now <= t && LagBelowTTL(s, t)
    ensures Inv(s.(now := t))
  {
    hide ViewOk;
    TickKeepsView(s, t, s.jobCache, s.podCache);
    forall w | w in s.workers && Holds(s.workers[w]) ensures HolderOk(s.(now := t), s.workers[w]) {
      TickKeepsView(s, t, s.workers[w].jobs, HeldPods(s, s.workers[w]));
    }
  }

  /** Reservations that cover no hidden job may go. */
  lemma PruneKeepsView(s: State, res: Reservations, view: map<JobId, JobView>, pods: map<Uid, PodView>)
    requires ViewOk(s, view, pods)
    requires forall j :: j in s.reserved && Hidden(s, view, j) && s.now - s.reserved[j] <= RESERVATION_TTL ==>
      j in res && res[j] == s.reserved[j]
    ensures ViewOk(s.(reserved := res), view, pods)
  {
  }

  lemma PrePruneKeeps(s: State, list: map<JobId, JobView>)
    requires Inv(s) && HarmlessPrune(s, list)
    ensures Inv(s.(reserved := Pruned(s.reserved, list, s.now)))
  {
    hide ViewOk;
    var res := Pruned(s.reserved, list, s.now);
    PruneKeepsView(s, res, s.jobCache, s.podCache);
    forall w | w in s.workers && Holds(s.workers[w]) ensures HolderOk(s.(reserved := res), s.workers[w]) {
      PruneKeepsView(s, res, s.workers[w].jobs, HeldPods(s, s.workers[w]));
    }
  }

  /** The lock holder's own prune, with a list behind the cache, takes no coverage from the cache. */
  lemma DecidePruneKeeps(s: State, list: map<JobId, JobView>)
    requires Base(s) && ViewOk(s, s.jobCache, s.podCache) && ListBehind(s, list)
    ensures var t := s.(reserved := Pruned(s.reserved, list, s.now)); Base(t) && ViewOk(t, s.jobCache, s.podCache)
  {
    PruneKeepsView(s, Pruned(s.reserved, list, s.now), s.jobCache, s.podCache);
  }

  lemma SyncJobKeepsCache(s: State, j: JobId)
    requires Inv(s) && PodCacheFirst(s, j)
    ensures ViewOk(s, Synced(s.jobCache, s.jobs, j), s.podCache)
  {
    hide HoldersOk, WorkersOk, PastOk, ReservedOk;
    var cache := Synced(s.jobCache, s.jobs, j);
    forall k | k in s.admitted && SourceKnown(s, k) && HealthyIn(s.pods, Source(s, k)) ensures Covers(s, cache, k) {
      assert Covers(s, s.jobCache, k) && AdmittedJobOk(s, k);
    }
    forall u | Stale(s, s.podCache, u) ensures TakenOutCovered(s, cache, u) {
      assert TakenOutCovered(s, s.jobCache, u);
    }
  }

  lemma SyncJobKeepsLists(s: State, j: JobId, wk: Worker)
    requires ReservedOk(s) && ShowsOld(s, s.jobCache) && HolderOk(s, wk)
    ensures HolderOk(s.(jobCache := Synced(s.jobCache, s.jobs, j)), wk)
  {
    if Holds(wk) {
      var t := s.(jobCache := Synced(s.jobCache, s.jobs, j));
      assert ViewOk(t, wk.jobs, HeldPods(t, wk));
      assert ListBehind(t, wk.jobs);
    }
  }

  lemma SyncJobKeeps(s: State, j: JobId)
    requires Inv(s) && PodCacheFirst(s, j)
    ensures Inv(Next(s, SyncJob(j)))
  {
    SyncJobKeepsCache(s, j);
    var t := Next(s, SyncJob(j));
    forall w | w in s.workers ensures HolderOk(t, t.workers[w]) {
      SyncJobKeepsLists(s, j, s.workers[w]);
    }
    hide HolderOk;
    assert ViewOk(t, t.jobCache, t.podCache);
    assert Base(t) by {
      forall w | w in t.workers ensures WorkerOk(t, t.workers[w]) {
        assert WorkerOk(s, s.workers[w]);
      }
    }
  }

  lemma SyncPodKeepsView(s: State, u: Uid, view: map<JobId, JobView>)
    requires ViewOk(s, view, s.podCache)
    ensures ViewOk(s, view, Synced(s.podCache, s.pods, u))
  {
    var cache := Synced(s.podCache, s.pods, u);
    forall v | Stale(s, cache, v) ensures TakenOutCovered(s, view, v) {
      assert HealthyIn(s.podCache, v);
    }
  }

  lemma SyncPodKeeps(s: State, u: Uid)
    requires Inv(s)
    ensures Inv(Next(s, SyncPod(u)))
  {
    hide ViewOk, ListBehind;
    var t := s.(podCache := Synced(s.podCache, s.pods, u));
    SyncPodKeepsView(s, u, s.jobCache);
    ViewIgnoresCaches(s, t, s.jobCache, t.podCache);
    forall w | w in t.workers ensures HolderOk(t, t.workers[w]) {
      var wk := s.workers[w];
      assert HolderOk(s, wk);
      if Holds(wk) {
        if wk.Listing? {
          SyncPodKeepsView(s, u, wk.jobs);
        }
        ViewIgnoresCaches(s, t, wk.jobs, HeldPods(t, wk));
      }
    }
  }

  lemma ViewIgnoresCaches(s: State, t: State, view: map<JobId, JobView>, pods: map<Uid, PodView>)
    requires t == s.(podCache := t.podCache)
    ensures ViewOk(t, view, pods) == ViewOk(s, view, pods)
    ensures ListBehind(t, view) == ListBehind(s, view)
  {
  }

  /** A step that leaves caches, reservations and workers alone keeps the invariant if every view survives it. */
  lemma Carry(s: State, t: State)
    requires HoldersOk(s) && t.workers == s.workers && t.jobCache == s.jobCache && t.podCache == s.podCache
    requires t.reserved == s.reserved
    requires Base(t) && ViewOk(t, s.jobCache, s.podCache)
    requires forall w :: w in s.workers && Holds(s.workers[w]) ==>
        ViewOk(t, s.workers[w].jobs, HeldPods(s, s.workers[w]))
    ensures Inv(t)
  {
    hide ViewOk, Base;
    forall w | w in t.workers ensures HolderOk(t, t.workers[w]) {
      assert HolderOk(s, s.workers[w]);
    }
  }

  function Created(s: State, j: JobId, target: Uid): State {
    s.(jobs := s.jobs[j := JobView(Some(target), Pending)])
  }

  lemma CreateJobKeepsView(s: State, j: JobId, target: Uid, view: map<JobId, JobView>, pods: map<Uid, PodView>)
    requires AdmittedOk(s) && ViewOk(s, view, pods) && j !in s.jobs && j !in view
    ensures ViewOk(Created(s, j, target), view, pods)
  {
    var t := Created(s, j, target);
    forall k | k in t.admitted && SourceKnown(t, k) && HealthyIn(t.pods, Source(t, k)) ensures Covers(t, view, k) {
      assert AdmittedJobOk(s, k);
    }
  }

  lemma CreateJobKeepsBase(s: State, j: JobId, target: Uid)
    requires Base(s) && FreshJob(s, j)
    ensures Base(Created(s, j, target))
  {
    var t := Created(s, j, target);
    forall w | w in t.workers ensures WorkerOk(t, t.workers[w]) {
      assert WorkerOk(s, s.workers[w]);
    }
    forall k | k in t.admitted ensures AdmittedJobOk(t, k) {
      assert AdmittedJobOk(s, k);
    }
    forall k | k in t.jobs && PastBudgetCheck(t.jobs[k].phase) && k !in t.admitted ensures SourceOut(t, k) {
      assert SourceOut(s, k);
    }
  }

  lemma CreateJobKeeps(s: State, j: JobId, target: Uid)
    requires Inv(s) && FreshJob(s, j)
    ensures Inv(Created(s, j, target))
  {
    hide ViewOk;
    var t := Created(s, j, target);
    CreateJobKeepsBase(s, j, target);
    hide Base;
    CreateJobKeepsView(s, j, target, s.jobCache, s.podCache);
    forall w | w in s.workers && Holds(s.workers[w]) ensures ViewOk(t, s.workers[w].jobs, HeldPods(s, s.workers[w])) {
      assert HolderOk(s, s.workers[w]);
      CreateJobKeepsView(s, j, target, s.workers[w].jobs, HeldPods(s, s.workers[w]));
    }
    Carry(s, t);
  }

  predicate MayProgress(s: State, j: JobId, phase: Phase) {
    && j in s.jobs && !Busy(s, j) && Forward(s.jobs[j].phase, phase) && !Terminal(s.jobs[j].phase)
    && (PastBudgetCheck(s.jobs[j].phase) || phase.Failed? || phase == s.jobs[j].phase)
  }

  lemma ProgressKeepsView(s: State, j: JobId, phase: Phase, view: map<JobId, JobView>, pods: map<Uid, PodView>)
    requires ViewOk(s, view, pods) && MayProgress(s, j, phase)
    ensures ViewOk(Progressed(s, j, phase), view, pods)
  {
    hide Busy;
    var t := Progressed(s, j, phase);
    forall k | k in t.admitted && SourceKnown(t, k) && HealthyIn(t.pods, Source(t, k)) ensures Covers(t, view, k) {
      assert Covers(s, view, k);
    }
    forall u | Stale(t, pods, u) ensures TakenOutCovered(t, view, u) {
      assert TakenOutCovered(s, view, u);
    }
  }

  lemma ProgressKeepsBase(s: State, j: JobId, phase: Phase)
    requires Base(s) && MayProgress(s, j, phase)
    ensures Base(Progressed(s, j, phase))
  {
    var t := Progressed(s, j, phase);
    forall w | w in t.workers ensures WorkerOk(t, t.workers[w]) {
      assert WorkerOk(s, s.workers[w]);
      assert !WorkingOn(s.workers[w], j);
    }
    forall k | k in t.admitted ensures AdmittedJobOk(t, k) {
      assert AdmittedJobOk(s, k);
    }
    forall k | k in t.jobs && PastBudgetCheck(t.jobs[k].phase) && k !in t.admitted ensures SourceOut(t, k) {
      assert SourceOut(s, k);
    }
  }

  lemma ProgressKeeps(s: State, j: JobId, phase: Phase)
    requires Inv(s) && MayProgress(s, j, phase)
    ensures Inv(Progressed(s, j, phase))
  {
    hide ViewOk, Busy;
    var t := Progressed(s, j, phase);
    ProgressKeepsBase(s, j, phase);
    hide Base;
    ProgressKeepsView(s, j, phase, s.jobCache, s.podCache);
    forall w | w in s.workers && Holds(s.workers[w]) ensures ViewOk(t, s.workers[w].jobs, HeldPods(s, s.workers[w])) {
      assert HolderOk(s, s.workers[w]);
      ProgressKeepsView(s, j, phase, s.workers[w].jobs, HeldPods(s, s.workers[w]));
    }
    Carry(s, t);
  }

  lemma DeleteJobKeepsView(s: State, j: JobId, view: map<JobId, JobView>, pods: map<Uid, PodView>)
    requires ViewOk(s, view, pods) && j in s.jobs && Terminal(s.jobs[j].phase)
    ensures ViewOk(s.(jobs := s.jobs - {j}), view, pods)
  {
    var t := s.(jobs := s.jobs - {j});
    forall k | k in t.admitted && SourceKnown(t, k) && HealthyIn(t.pods, Source(t, k)) ensures Covers(t, view, k) {
      assert Covers(s, view, k);
    }
    forall u | Stale(t, pods, u) ensures TakenOutCovered(t, view, u) {
      assert TakenOutCovered(s, view, u);
    }
  }

  lemma DeleteJobKeepsBase(s: State, j: JobId)
    requires Base(s) && j in s.jobs && Terminal(s.jobs[j].phase)
    ensures Base(s.(jobs := s.jobs - {j}))
  {
    var t := s.(jobs := s.jobs - {j});
    forall w | w in t.workers ensures WorkerOk(t, t.workers[w]) {
      assert WorkerOk(s, s.workers[w]);
    }
    forall k | k in t.admitted ensures AdmittedJobOk(t, k) {
      assert AdmittedJobOk(s, k);
    }
    forall k | k in t.jobs && PastBudgetCheck(t.jobs[k].phase) && k !in t.admitted ensures SourceOut(t, k) {
      assert SourceOut(s, k);
    }
  }

  lemma DeleteJobKeeps(s: State, j: JobId)
    requires Inv(s) && j in s.jobs && Terminal(s.jobs[j].phase)
    ensures Inv(s.(jobs := s.jobs - {j}))
  {
    hide ViewOk;
    var t := s.(jobs := s.jobs - {j});
    DeleteJobKeepsBase(s, j);
    hide Base;
    DeleteJobKeepsView(s, j, s.jobCache, s.podCache);
    forall w | w in s.workers && Holds(s.workers[w]) ensures ViewOk(t, s.workers[w].jobs, HeldPods(s, s.workers[w])) {
      assert HolderOk(s, s.workers[w]);
      DeleteJobKeepsView(s, j, s.workers[w].jobs, HeldPods(s, s.workers[w]));
    }
    Carry(s, t);
  }

  // Pods that come, recover or go.

  /** The pods change without a healthy one going out of service, and no uncovered source recovers. */
  ghost predicate PodsImprove(s: State, pods: map<Uid, PodView>, lost: set<Uid>) {
    && (forall u :: HealthyIn(s.pods, u) ==> HealthyIn(pods, u))
    && (forall u :: u in pods && u !in s.pods ==> u !in s.disruptor)
    && (forall u :: u in pods && u in s.pods && s.pods[u].terminating ==> pods[u].terminating)
    && (forall u :: u in s.lost && u !in lost ==> HealthyIn(pods, u))
  }

  /** Whoever recovers is covered in the view. */
  ghost predicate RecoversCovered(s: State, pods: map<Uid, PodView>, view: map<JobId, JobView>) {
    forall j :: (j in s.admitted && SourceKnown(s, j)
                 && HealthyIn(pods, Source(s, j)) && !HealthyIn(s.pods, Source(s, j))) ==>
      Covers(s, view, j)
  }

  lemma PodsImproveKeepsView(s: State, truth: map<Uid, PodView>, lost: set<Uid>,
                             view: map<JobId, JobView>, pods: map<Uid, PodView>)
    requires ViewOk(s, view, pods) && PodsImprove(s, truth, lost) && RecoversCovered(s, truth, view)
    ensures ViewOk(s.(pods := truth, lost := lost), view, pods)
  {
    var t := s.(pods := truth, lost := lost);
    forall u | Stale(t, pods, u) ensures TakenOutCovered(t, view, u) {
      assert TakenOutCovered(s, view, u);
    }
  }

  lemma PodsImproveKeepsBase(s: State, truth: map<Uid, PodView>, lost: set<Uid>)
    requires Base(s) && PodsImprove(s, truth, lost)
    ensures Base(s.(pods := truth, lost := lost))
  {
    var t := s.(pods := truth, lost := lost);
    forall w | w in t.workers ensures WorkerOk(t, t.workers[w]) {
      assert WorkerOk(s, s.workers[w]);
    }
    forall k | k in t.admitted ensures AdmittedJobOk(t, k) {
      assert AdmittedJobOk(s, k);
    }
    forall k | k in t.jobs && PastBudgetCheck(t.jobs[k].phase) && k !in t.admitted ensures SourceOut(t, k) {
      assert SourceOut(s, k);
    }
  }

  lemma PodsImproveKeeps(s: State, truth: map<Uid, PodView>, lost: set<Uid>)
    requires Inv(s) && PodsImprove(s, truth, lost) && RecoversCovered(s, truth, s.jobCache)
    requires forall w :: w in s.workers && Holds(s.workers[w]) ==> RecoversCovered(s, truth, s.workers[w].jobs)
    ensures Inv(s.(pods := truth, lost := lost))
  {
    hide ViewOk, PodsImprove, RecoversCovered;
    var t := s.(pods := truth, lost := lost);
    PodsImproveKeepsBase(s, truth, lost);
    hide Base;
    PodsImproveKeepsView(s, truth, lost, s.jobCache, s.podCache);
    forall w | w in s.workers && Holds(s.workers[w]) ensures ViewOk(t, s.workers[w].jobs, HeldPods(s, s.workers[w])) {
      assert HolderOk(s, s.workers[w]);
      PodsImproveKeepsView(s, truth, lost, s.workers[w].jobs, HeldPods(s, s.workers[w]));
    }
    Carry(s, t);
  }

  lemma PodStepKeeps(s: State, step: Step)
    requires Inv(s) && Assumed(s, step) && (step.AddPod? || step.BecomeReady? || step.DropPod?)
    ensures Inv(Next(s, step))
  {
    hide Inv;
    var t := Next(s, step);
    match step
    case AddPod(u) => if t != s { PodsImproveKeeps(s, s.pods[u := PodView(false, false)], s.lost); }
    case BecomeReady(u) =>
      if u in s.pods {
        assert forall j :: j in s.admitted && SourceKnown(s, j) && Source(s, j) == u ==> Targets(s, j, u);
        PodsImproveKeeps(s, t.pods, t.lost);
      }
    case DropPod(u) => if t != s { PodsImproveKeeps(s, s.pods - {u}, s.lost); }
  }

  lemma LoseKeepsView(s: State, u: Uid, terminating: bool, view: map<JobId, JobView>, pods: map<Uid, PodView>)
    requires ViewOk(s, view, pods) && u in s.pods
    ensures ViewOk(LostOne(s, u, terminating), view, pods)
  {
    var t := LostOne(s, u, terminating);
    forall v | Stale(t, pods, v) ensures TakenOutCovered(t, view, v) {
      assert TakenOutCovered(s, view, v);
    }
  }

  lemma LoseKeepsBase(s: State, u: Uid, terminating: bool)
    requires Base(s) && u in s.pods
    ensures Base(LostOne(s, u, terminating))
  {
    var t := LostOne(s, u, terminating);
    forall w | w in t.workers ensures WorkerOk(t, t.workers[w]) {
      assert WorkerOk(s, s.workers[w]);
    }
    forall k | k in t.admitted ensures AdmittedJobOk(t, k) {
      assert AdmittedJobOk(s, k);
    }
    forall k | k in t.jobs && PastBudgetCheck(t.jobs[k].phase) && k !in t.admitted ensures SourceOut(t, k) {
      assert SourceOut(s, k);
    }
  }

  lemma LoseKeeps(s: State, u: Uid, terminating: bool)
    requires Inv(s) && u in s.pods
    ensures Inv(LostOne(s, u, terminating))
  {
    hide ViewOk, Base;
    var t := LostOne(s, u, terminating);
    LoseKeepsBase(s, u, terminating);
    LoseKeepsView(s, u, terminating, s.jobCache, s.podCache);
    forall w | w in s.workers && Holds(s.workers[w]) ensures ViewOk(t, s.workers[w].jobs, HeldPods(s, s.workers[w])) {
      assert HolderOk(s, s.workers[w]);
      LoseKeepsView(s, u, terminating, s.workers[w].jobs, HeldPods(s, s.workers[w]));
    }
    Carry(s, t);
  }

  // A source goes out of service.

  predicate MayTakeOut(s: State, j: JobId, pod: PodView) {
    && SourceKnown(s, j) && PastBudgetCheck(s.jobs[j].phase) && Source(s, j) in s.pods
    && !CountsHealthy(pod) && (s.pods[Source(s, j)].terminating ==> pod.terminating)
  }

  /** Its job, admitted, is covered in every view; or the source was out already. */
  lemma TakenOutKeepsView(s: State, j: JobId, pod: PodView, view: map<JobId, JobView>, pods: map<Uid, PodView>)
    requires Base(s) && ViewOk(s, view, pods) && MayTakeOut(s, j, pod)
    ensures ViewOk(TakenOut(s, j, Source(s, j), pod), view, pods)
  {
    hide WorkersOk, ReservedOk;
    var u := Source(s, j);
    var t := TakenOut(s, j, u, pod);
    if HealthyIn(s.pods, u) {
      assert j !in s.admitted ==> SourceOut(s, j);
      assert Covers(s, view, j);
    }
    forall v | Stale(t, pods, v) ensures TakenOutCovered(t, view, v) {
      assert HealthyIn(s.pods, v) || TakenOutCovered(s, view, v);
    }
  }

  lemma TakenOutKeepsBase(s: State, j: JobId, pod: PodView)
    requires Base(s) && MayTakeOut(s, j, pod)
    ensures Base(TakenOut(s, j, Source(s, j), pod))
  {
    var t := TakenOut(s, j, Source(s, j), pod);
    forall w | w in t.workers ensures WorkerOk(t, t.workers[w]) {
      assert WorkerOk(s, s.workers[w]);
    }
    forall k | k in t.admitted ensures AdmittedJobOk(t, k) {
      assert AdmittedJobOk(s, k);
    }
    forall k | k in t.jobs && PastBudgetCheck(t.jobs[k].phase) && k !in t.admitted ensures SourceOut(t, k) {
      assert SourceOut(s, k);
    }
  }

  lemma TakenOutKeeps(s: State, j: JobId, pod: PodView)
    requires Inv(s) && MayTakeOut(s, j, pod)
    ensures Inv(TakenOut(s, j, Source(s, j), pod))
  {
    hide ViewOk, Base;
    var t := TakenOut(s, j, Source(s, j), pod);
    TakenOutKeepsBase(s, j, pod);
    TakenOutKeepsView(s, j, pod, s.jobCache, s.podCache);
    forall w | w in s.workers && Holds(s.workers[w]) ensures ViewOk(t, s.workers[w].jobs, HeldPods(s, s.workers[w])) {
      assert HolderOk(s, s.workers[w]);
      TakenOutKeepsView(s, j, pod, s.workers[w].jobs, HeldPods(s, s.workers[w]));
    }
    Carry(s, t);
  }

  /** Fewer admitted jobs need less coverage. */
  lemma WithdrawKeepsView(s: State, j: JobId, view: map<JobId, JobView>, pods: map<Uid, PodView>)
    requires ViewOk(s, view, pods)
    ensures ViewOk(s.(admitted := s.admitted - {j}), view, pods)
  {
    var t := s.(admitted := s.admitted - {j});
    forall u | Stale(t, pods, u) ensures TakenOutCovered(t, view, u) {
      assert TakenOutCovered(s, view, u);
    }
  }

  lemma WithdrawKeepsBase(s: State, j: JobId)
    requires Base(s) && SourceOut(s, j) && j in s.jobs && PastBudgetCheck(s.jobs[j].phase)
    ensures Base(s.(admitted := s.admitted - {j}))
  {
    var t := s.(admitted := s.admitted - {j});
    forall w | w in t.workers ensures WorkerOk(t, t.workers[w]) {
      assert WorkerOk(s, s.workers[w]);
    }
    forall k | k in t.admitted ensures AdmittedJobOk(t, k) {
      assert AdmittedJobOk(s, k);
    }
    forall k | k in t.jobs && PastBudgetCheck(t.jobs[k].phase) && k !in t.admitted ensures SourceOut(t, k) {
      assert k != j ==> SourceOut(s, k);
    }
  }

  lemma WithdrawKeeps(s: State, j: JobId)
    requires Inv(s) && SourceOut(s, j) && j in s.jobs && PastBudgetCheck(s.jobs[j].phase)
    ensures Inv(s.(admitted := s.admitted - {j}))
  {
    hide ViewOk, Base;
    var t := s.(admitted := s.admitted - {j});
    WithdrawKeepsBase(s, j);
    WithdrawKeepsView(s, j, s.jobCache, s.podCache);
    forall w | w in s.workers && Holds(s.workers[w]) ensures ViewOk(t, s.workers[w].jobs, HeldPods(s, s.workers[w])) {
      assert HolderOk(s, s.workers[w]);
      WithdrawKeepsView(s, j, s.workers[w].jobs, HeldPods(s, s.workers[w]));
    }
    Carry(s, t);
  }

  lemma SourceStepKeeps(s: State, step: Step)
    requires Inv(s) && (step.Fence? || step.Evict?)
    ensures Inv(Next(s, step))
  {
    hide Inv;
    var j := step.j;
    if SourceKnown(s, j) && PastBudgetCheck(s.jobs[j].phase) && Source(s, j) in s.pods {
      var u := Source(s, j);
      if step.Fence? {
        TakenOutKeeps(s, j, s.pods[u].(ready := false));
      } else if s.jobs[j].phase.Evicting? {
        TakenOutKeeps(s, j, s.pods[u].(terminating := true));
        WithdrawKeeps(TakenOut(s, j, u, s.pods[u].(terminating := true)), j);
      }
    }
  }

  // Workers.

  /** Replacing the workers: every admitted Pending job keeps one, and whoever holds the lock has a sound list. */
  lemma WorkersKeep(s: State, workers: map<nat, Worker>)
    requires Inv(s) && WorkersOk(s.(workers := workers)) && HoldersOk(s.(workers := workers))
    requires forall j :: j in s.admitted && Busy(s, j) ==> Busy(s.(workers := workers), j)
    ensures Inv(s.(workers := workers))
  {
    hide WorkersOk, HoldersOk, ShowsOld, ShowsAdmitted, ShowsStale;
    var t := s.(workers := workers);
    forall k | k in t.admitted ensures AdmittedJobOk(t, k) {
      assert AdmittedJobOk(s, k);
    }
    forall k | k in t.jobs && PastBudgetCheck(t.jobs[k].phase) && k !in t.admitted ensures SourceOut(t, k) {
      assert SourceOut(s, k);
    }
    ViewIgnoresWorkers(s, t, s.jobCache, s.podCache);
  }

  lemma ViewIgnoresWorkers(s: State, t: State, view: map<JobId, JobView>, pods: map<Uid, PodView>)
    requires t == s.(workers := t.workers)
    ensures ViewOk(t, view, pods) == ViewOk(s, view, pods)
    ensures ListBehind(t, view) == ListBehind(s, view)
  {
  }

  lemma HolderIgnoresWorkers(s: State, t: State, wk: Worker)
    requires t == s.(workers := t.workers)
    ensures HolderOk(t, wk) == HolderOk(s, wk)
  {
    hide ViewOk, ListBehind;
    if Holds(wk) {
      ViewIgnoresWorkers(s, t, wk.jobs, HeldPods(s, wk));
    }
  }

  /** Starting a worker, or moving one on with the same job. */
  lemma WithWorkerKeeps(s: State, w: nat, wk: Worker)
    requires Inv(s) && WorkerOk(s, wk) && HolderOk(s, wk)
    requires w in s.workers ==> !s.workers[w].PreListed? && !wk.PreListed? && s.workers[w].job == wk.job
    requires w !in s.workers && !wk.PreListed? ==> !Busy(s, wk.job)
    requires Holds(wk) ==> !Locked(s) || (w in s.workers && Holds(s.workers[w]))
    ensures Inv(WithWorker(s, w, wk))
  {
    hide ViewOk, HolderOk;
    var t := WithWorker(s, w, wk);
    forall x | x in t.workers ensures WorkerOk(t, t.workers[x]) && HolderOk(t, t.workers[x]) {
      assert x != w ==> WorkerOk(s, s.workers[x]) && HolderOk(s, s.workers[x]);
      HolderIgnoresWorkers(s, t, t.workers[x]);
    }
    forall x, y | x in t.workers && y in t.workers && x != y ensures Apart(t.workers[x], t.workers[y]) {
      assert x in s.workers && y in s.workers ==> Apart(s.workers[x], s.workers[y]);
      assert x in s.workers && w !in s.workers && !wk.PreListed? ==> !WorkingOn(s.workers[x], wk.job);
      assert y in s.workers && w !in s.workers && !wk.PreListed? ==> !WorkingOn(s.workers[y], wk.job);
    }
    BusyStays(s, w, wk);
    WorkersKeep(s, t.workers);
  }

  lemma BusyStays(s: State, w: nat, wk: Worker)
    requires w in s.workers ==> !s.workers[w].PreListed? && !wk.PreListed? && s.workers[w].job == wk.job
    ensures forall j :: Busy(s, j) ==> Busy(WithWorker(s, w, wk), j)
  {
    forall j | Busy(s, j) ensures Busy(WithWorker(s, w, wk), j) {
      var x :| x in s.workers && WorkingOn(s.workers[x], j);
      assert x in WithWorker(s, w, wk).workers && WorkingOn(WithWorker(s, w, wk).workers[x], j);
    }
  }

  lemma BusyElsewhere(s: State, w: nat, j: JobId)
    requires Busy(s, j) && (w in s.workers ==> !WorkingOn(s.workers[w], j))
    ensures Busy(Done(s, w), j)
  {
    var x :| x in s.workers && WorkingOn(s.workers[x], j);
    assert x in Done(s, w).workers && WorkingOn(Done(s, w).workers[x], j);
  }

  /** Removing a worker that admitted nothing. */
  lemma DoneKeeps(s: State, w: nat)
    requires Inv(s) && w in s.workers && !s.workers[w].Admitting?
    ensures Inv(Done(s, w))
  {
    hide ViewOk, HolderOk;
    var t := Done(s, w);
    forall x | x in t.workers ensures WorkerOk(t, t.workers[x]) && HolderOk(t, t.workers[x]) {
      assert WorkerOk(s, s.workers[x]) && HolderOk(s, s.workers[x]);
      HolderIgnoresWorkers(s, t, t.workers[x]);
    }
    forall j | j in s.admitted && Busy(s, j) ensures Busy(t, j) {
      assert WorkerOk(s, s.workers[w]);
      BusyElsewhere(s, w, j);
    }
    WorkersKeep(s, t.workers);
  }

  // The decision: the lock's holder lets go, so no list has to cover what it admits.

  lemma NobodyElseHolds(s: State, w: nat, x: nat)
    requires WorkersOk(s) && w in s.workers && Holds(s.workers[w]) && x in s.workers && x != w
    ensures !Holds(s.workers[x])
  {
    assert Apart(s.workers[w], s.workers[x]);
  }

  lemma RefuseKeeps(s: State, w: nat)
    requires Base(s) && ViewOk(s, s.jobCache, s.podCache) && w in s.workers && s.workers[w].Listed?
    ensures Inv(Done(s, w))
  {
    hide ViewOk;
    var t := Done(s, w);
    assert WorkerOk(s, s.workers[w]);
    forall x | x in t.workers ensures WorkerOk(t, t.workers[x]) && HolderOk(t, t.workers[x]) {
      assert WorkerOk(s, s.workers[x]);
      NobodyElseHolds(s, w, x);
    }
    forall k | k in t.admitted ensures AdmittedJobOk(t, k) {
      assert AdmittedJobOk(s, k);
      if s.jobs[k].phase.Pending? {
        BusyElsewhere(s, w, k);
      }
    }
    forall k | k in t.jobs && PastBudgetCheck(t.jobs[k].phase) && k !in t.admitted ensures SourceOut(t, k) {
      assert SourceOut(s, k);
    }
    ViewIgnoresWorkers(s, t, s.jobCache, s.podCache);
  }

  lemma AdmitKeepsView(s: State, w: nat, job: JobId, reserve: bool)
    requires ViewOk(s, s.jobCache, s.podCache) && SourceKnown(s, job) && s.jobs[job].phase.Pending? && job in s.jobCache
    requires reserve || !HealthyIn(s.pods, Source(s, job))
    ensures ViewOk(Admitted(s, w, job, reserve), s.jobCache, s.podCache)
  {
    var t := Admitted(s, w, job, reserve);
    assert forall k :: Covers(s, s.jobCache, k) ==> Covers(t, s.jobCache, k);
    forall u | Stale(t, s.podCache, u) ensures TakenOutCovered(t, s.jobCache, u) {
      assert TakenOutCovered(s, s.jobCache, u);
    }
  }

  lemma AdmitKeepsWorkers(s: State, w: nat, reserve: bool)
    requires WorkersOk(s) && w in s.workers && s.workers[w].Listed?
    ensures var t := Admitted(s, w, s.workers[w].job, reserve); WorkersOk(t) && HoldersOk(t)
  {
    hide ViewOk, ListBehind;
    var t := Admitted(s, w, s.workers[w].job, reserve);
    assert WorkerOk(s, s.workers[w]);
    forall x | x in t.workers ensures WorkerOk(t, t.workers[x]) && HolderOk(t, t.workers[x]) {
      if x != w {
        assert WorkerOk(s, s.workers[x]) && Apart(s.workers[w], s.workers[x]);
      }
    }
    forall x, y | x in t.workers && y in t.workers && x != y ensures Apart(t.workers[x], t.workers[y]) {
      assert Apart(s.workers[x], s.workers[y]);
    }
  }

  lemma AdmitKeeps(s: State, w: nat, reserve: bool)
    requires Base(s) && ViewOk(s, s.jobCache, s.podCache) && w in s.workers && s.workers[w].Listed?
    requires WorkerOk(s, s.workers[w]) && (reserve || !HealthyIn(s.pods, Source(s, s.workers[w].job)))
    ensures Inv(Admitted(s, w, s.workers[w].job, reserve))
  {
    var job := s.workers[w].job;
    var t := Admitted(s, w, job, reserve);
    AdmitKeepsView(s, w, job, reserve);
    AdmitKeepsWorkers(s, w, reserve);
    hide ViewOk, WorkersOk, HoldersOk;
    BusyStays(s, w, Admitting(job));
    assert WorkingOn(t.workers[w], job);
    forall k | k in t.admitted ensures AdmittedJobOk(t, k) {
      if k != job {
        assert AdmittedJobOk(s, k);
        assert Busy(s, k) ==> Busy(WithWorker(s, w, Admitting(job)), k);
      }
    }
    forall k | k in t.jobs && PastBudgetCheck(t.jobs[k].phase) && k !in t.admitted ensures SourceOut(t, k) {
      assert SourceOut(s, k);
    }
  }

  lemma DecideKeeps(s: State, w: nat)
    requires Inv(s) && w in s.workers && s.workers[w].Listed? && SourceHealthCurrent(s, s.workers[w])
    ensures Inv(Decided(s, w, s.workers[w]))
  {
    hide ViewOk, ListBehind;
    var wk := s.workers[w];
    assert WorkerOk(s, wk) && HolderOk(s, wk);
    if !wk.sourceHealthy && s.alwaysAllow {
      AdmitKeeps(s, w, false);
    } else {
      DecidePruneKeeps(s, wk.jobs);
      var p := s.(reserved := Pruned(s.reserved, wk.jobs, s.now));
      assert WorkerOk(p, wk);
      if Allows(s, wk) {
        AdmitKeeps(p, w, true);
      } else {
        RefuseKeeps(p, w);
      }
    }
  }

  // After the decision.

  lemma WrittenKeepsView(s: State, w: nat, job: JobId, view: map<JobId, JobView>, pods: map<Uid, PodView>)
    requires ViewOk(s, view, pods) && job in s.jobs && s.jobs[job].phase.Pending?
    ensures ViewOk(Written(s, w, job), view, pods)
  {
    var t := Written(s, w, job);
    forall k | k in t.admitted && SourceKnown(t, k) && HealthyIn(t.pods, Source(t, k)) ensures Covers(t, view, k) {
      assert Covers(s, view, k);
    }
    forall u | Stale(t, pods, u) ensures TakenOutCovered(t, view, u) {
      assert TakenOutCovered(s, view, u);
    }
  }

  lemma WrittenKeepsBase(s: State, w: nat)
    requires Base(s) && w in s.workers && s.workers[w].Admitting?
    ensures WorkerOk(s, s.workers[w]) && Base(Written(s, w, s.workers[w].job))
  {
    assert WorkerOk(s, s.workers[w]);
    var j := s.workers[w].job;
    var t := Written(s, w, j);
    forall x | x in t.workers ensures WorkerOk(t, t.workers[x]) {
      assert WorkerOk(s, s.workers[x]) && Apart(s.workers[w], s.workers[x]);
    }
    forall k | k in t.admitted ensures AdmittedJobOk(t, k) {
      assert AdmittedJobOk(s, k);
      if k != j && s.jobs[k].phase.Pending? {
        BusyElsewhere(s, w, k);
      }
    }
    forall k | k in t.jobs && PastBudgetCheck(t.jobs[k].phase) && k !in t.admitted ensures SourceOut(t, k) {
      assert k != j ==> SourceOut(s, k);
    }
  }

  lemma WriteStatusKeeps(s: State, w: nat)
    requires Inv(s) && w in s.workers && s.workers[w].Admitting?
    ensures s.workers[w].job in s.jobs && Inv(Written(s, w, s.workers[w].job))
  {
    WrittenKeepsBase(s, w);
    hide ViewOk, Base, ListBehind;
    var j := s.workers[w].job;
    var t := Written(s, w, j);
    WrittenKeepsView(s, w, j, s.jobCache, s.podCache);
    forall x | x in t.workers ensures HolderOk(t, t.workers[x]) {
      assert HolderOk(s, s.workers[x]);
      if Holds(s.workers[x]) {
        WrittenKeepsView(s, w, j, s.workers[x].jobs, HeldPods(s, s.workers[x]));
        ListIgnoresJobs(s, t, s.workers[x].jobs);
      }
    }
  }

  lemma ListIgnoresJobs(s: State, t: State, list: map<JobId, JobView>)
    requires t.jobCache == s.jobCache && t.reserved == s.reserved
    ensures ListBehind(t, list) == ListBehind(s, list)
  {
  }

  function GivenUp(s: State, w: nat, job: JobId): State {
    Done(s, w).(admitted := s.admitted - {job})
  }

  lemma FailWriteKeepsBase(s: State, w: nat)
    requires Base(s) && w in s.workers && s.workers[w].Admitting?
    ensures Base(GivenUp(s, w, s.workers[w].job))
  {
    assert WorkerOk(s, s.workers[w]);
    var j := s.workers[w].job;
    var t := GivenUp(s, w, j);
    forall x | x in t.workers ensures WorkerOk(t, t.workers[x]) {
      assert WorkerOk(s, s.workers[x]) && Apart(s.workers[w], s.workers[x]);
    }
    forall k | k in t.admitted ensures AdmittedJobOk(t, k) {
      assert AdmittedJobOk(s, k);
      if s.jobs[k].phase.Pending? {
        BusyElsewhere(s, w, k);
      }
    }
    forall k | k in t.jobs && PastBudgetCheck(t.jobs[k].phase) && k !in t.admitted ensures SourceOut(t, k) {
      assert k != j ==> SourceOut(s, k);
    }
  }

  lemma FailWriteKeeps(s: State, w: nat)
    requires Inv(s) && w in s.workers && s.workers[w].Admitting?
    ensures Inv(GivenUp(s, w, s.workers[w].job))
  {
    FailWriteKeepsBase(s, w);
    hide ViewOk, Base, ListBehind;
    var j := s.workers[w].job;
    var r := s.(admitted := s.admitted - {j});
    var t := GivenUp(s, w, j);
    WithdrawKeepsView(s, j, s.jobCache, s.podCache);
    ViewIgnoresWorkers(r, t, s.jobCache, s.podCache);
    forall x | x in t.workers ensures HolderOk(t, t.workers[x]) {
      assert HolderOk(s, s.workers[x]);
      if Holds(s.workers[x]) {
        WithdrawKeepsView(s, j, s.workers[x].jobs, HeldPods(s, s.workers[x]));
        ViewIgnoresWorkers(r, t, s.workers[x].jobs, HeldPods(s, s.workers[x]));
        ListIgnoresJobs(s, t, s.workers[x].jobs);
      }
    }
  }

  lemma RestartKeeps(s: State)
    requires Inv(s)
    ensures Inv(Restarted(s))
  {
    var t := Restarted(s);
    forall k | k in t.admitted ensures AdmittedJobOk(t, k) {
      assert AdmittedJobOk(s, k);
    }
    forall k | k in t.jobs && PastBudgetCheck(t.jobs[k].phase) && k !in t.admitted ensures SourceOut(t, k) {
      assert SourceOut(s, k);
    }
  }

  // All steps.

  /** Taking the lock and listing the jobs, then listing the pods. */
  lemma ListStepKeeps(s: State, step: Step)
    requires Inv(s) && (step.ListJobs? || step.ListPods?)
    ensures Inv(Next(s, step))
  {
    hide ViewOk, Base;
    var w := step.w;
    if w in s.workers && Next(s, step) != s {
      var wk := s.workers[w];
      BaseWorker(s, w);
      assert HolderOk(s, wk);
      if step.ListJobs? {
        ListBehindItself(s);
        WithWorkerKeeps(s, w, Listing(wk.job, wk.sourceHealthy, s.jobCache));
      } else {
        WithWorkerKeeps(s, w, Listed(wk.job, wk.sourceHealthy, wk.jobs, s.podCache));
      }
    }
  }

  lemma BaseWorker(s: State, w: nat)
    requires Base(s) && w in s.workers
    ensures WorkerOk(s, s.workers[w])
  {
  }

  lemma ListBehindItself(s: State)
    ensures ListBehind(s, s.jobCache)
  {
  }

  lemma CheckStepKeeps(s: State, step: Step)
    requires Inv(s) && Assumed(s, step) && (step.Start? || step.PreList? || step.PrePrune?)
    ensures Inv(Next(s, step))
  {
    hide Inv;
    match step
    case Start(w, j) =>
      if Next(s, step) != s { WithWorkerKeeps(s, w, Checking(j, CountsHealthy(s.podCache[Source(s, j)]))); }
    case PreList(w) => if w !in s.workers { WithWorkerKeeps(s, w, PreListed(s.jobCache)); }
    case PrePrune(w) =>
      if w in s.workers && s.workers[w].PreListed? {
        PrePruneKeeps(s, s.workers[w].jobs);
        DoneKeeps(s.(reserved := Pruned(s.reserved, s.workers[w].jobs, s.now)), w);
      }
  }

  lemma WorkerStepKeeps(s: State, step: Step)
    requires Inv(s) && Assumed(s, step)
    requires step.Start? || step.PreList? || step.PrePrune? || step.ListJobs? || step.ListPods? || step.Decide?
          || step.WriteStatus? || step.FailWrite?
    ensures Inv(Next(s, step))
  {
    hide Inv, Decided, SourceHealthCurrent;
    match step
    case Start(_, _) => CheckStepKeeps(s, step);
    case PreList(_) => CheckStepKeeps(s, step);
    case PrePrune(_) => CheckStepKeeps(s, step);
    case ListJobs(_) => ListStepKeeps(s, step);
    case ListPods(_) => ListStepKeeps(s, step);
    case Decide(w) => if w in s.workers && s.workers[w].Listed? { DecideKeeps(s, w); }
    case WriteStatus(w) => if w in s.workers && s.workers[w].Admitting? { WriteStatusKeeps(s, w); }
    case FailWrite(w) => if w in s.workers && s.workers[w].Admitting? { FailWriteKeeps(s, w); }
  }

  lemma ClusterStepKeeps(s: State, step: Step)
    requires Inv(s) && Assumed(s, step)
    requires step.CreateJob? || step.Progress? || step.DeleteJob? || step.AddPod? || step.BecomeReady?
          || step.Lose? || step.Fence? || step.Evict? || step.DropPod?
    ensures Inv(Next(s, step))
  {
    hide Inv, Busy, FreshJob;
    match step
    case CreateJob(j, target) => if FreshJob(s, j) { CreateJobKeeps(s, j, target); }
    case Progress(j, phase) => if MayProgress(s, j, phase) { ProgressKeeps(s, j, phase); }
    case DeleteJob(j) => if j in s.jobs && Terminal(s.jobs[j].phase) { DeleteJobKeeps(s, j); }
    case AddPod(_) => PodStepKeeps(s, step);
    case BecomeReady(_) => PodStepKeeps(s, step);
    case DropPod(_) => PodStepKeeps(s, step);
    case Lose(u, terminating) => if u in s.pods { LoseKeeps(s, u, terminating); }
    case Fence(_) => SourceStepKeeps(s, step);
    case Evict(_) => SourceStepKeeps(s, step);
  }

  /** Every step that meets its assumption keeps the invariant. */
  lemma NextKeeps(s: State, step: Step)
    requires Inv(s) && Assumed(s, step)
    ensures Inv(Next(s, step))
  {
    hide Inv, Restarted;
    match step
    case Tick(t) => if s.now <= t { TickKeeps(s, t); }
    case SyncJob(j) => SyncJobKeeps(s, j);
    case SyncPod(u) => SyncPodKeeps(s, u);
    case Restart => RestartKeeps(s);
    case _ =>
      if step.CreateJob? || step.Progress? || step.DeleteJob? || step.AddPod? || step.BecomeReady?
          || step.Lose? || step.Fence? || step.Evict? || step.DropPod? {
        ClusterStepKeeps(s, step);
      } else {
        WorkerStepKeeps(s, step);
      }
  }

  // ----- No step spends more than the budget -----

  /** Fewer admitted jobs, and no pod or target touched: nothing is lost. */
  lemma UntouchedGrows(s: State, t: State)
    requires forall u :: u in Untouched(s) ==> HealthyIn(t.pods, u)
    requires forall j, u :: j in t.admitted && Targets(t, j, u) ==> j in s.admitted && Targets(s, j, u)
    ensures Untouched(s) <= Untouched(t)
  {
  }

  /** A worker that admits its job leaves the desired number of pods untouched, or takes none. */
  lemma DecideSafe(s: State, w: nat)
    requires Inv(s) && w in s.workers && s.workers[w].Listed?
    requires Assumed(s, Decide(w))
    ensures var t := Decided(s, w, s.workers[w]); Untouched(s) <= Untouched(t) || |Untouched(t)| >= s.desired
  {
    var wk := s.workers[w];
    var t := Decided(s, w, wk);
    assert WorkerOk(s, wk);
    var source := Source(s, wk.job);
    if Allows(s, wk) {
      AdmitTakesSource(s, t, wk.job);
      if !wk.sourceHealthy && s.alwaysAllow {
        assert Untouched(s) - {source} == Untouched(s);
      } else {
        CountIsSafe(s, wk);
        SubsetSize(Untouched(s) - {source}, Untouched(t));
      }
    } else {
      UntouchedGrows(s, t);
    }
  }

  lemma SourceStepSafe(s: State, step: Step)
    requires Inv(s) && (step.Fence? || step.Evict?)
    ensures Untouched(s) <= Untouched(Next(s, step))
  {
  }

  lemma PodStepSafe(s: State, step: Step)
    requires step.AddPod? || step.BecomeReady? || step.DropPod?
    ensures Untouched(s) <= Untouched(Next(s, step))
  {
  }

  /** A pod that goes out on its own is the only one lost. */
  lemma LoseStepSafe(s: State, u: Uid, terminating: bool)
    ensures Untouched(s) - {u} <= Untouched(Next(s, Lose(u, terminating)))
  {
  }

  lemma JobStepSafe(s: State, step: Step)
    requires Inv(s)
    requires step.CreateJob? || step.Progress? || step.DeleteJob?
    ensures Untouched(s) <= Untouched(Next(s, step))
  {
  }

  lemma QuietStepSafe(s: State, t: State)
    requires Stays(s, t)
    ensures Untouched(s) <= Untouched(t)
  {
  }

  lemma WriteStatusSafe(s: State, w: nat)
    ensures Untouched(s) <= Untouched(Next(s, WriteStatus(w)))
  {
  }

  /** The steps that touch neither a pod nor a job, and admit nobody. */
  predicate Quiet(step: Step) {
    step.Tick? || step.SyncJob? || step.SyncPod? || step.Restart? || step.Start? || step.PreList? || step.PrePrune?
    || step.ListJobs? || step.ListPods? || step.FailWrite?
  }

  lemma RestartQuiet(s: State)
    ensures Stays(s, Restarted(s))
  {
  }

  predicate Stays(s: State, t: State) {
    t.pods == s.pods && t.jobs == s.jobs && t.admitted <= s.admitted && t.desired == s.desired
  }

  lemma QuietWorker(s: State, step: Step)
    requires step.Start? || step.PreList? || step.ListJobs? || step.ListPods?
    ensures Stays(s, Next(s, step))
  {
  }

  lemma QuietCache(s: State, step: Step)
    requires step.Tick? || step.SyncJob? || step.SyncPod? || step.Restart?
    ensures Stays(s, Next(s, step))
  {
    hide Synced, Restarted;
    match step
    case Tick(_) =>
    case SyncJob(_) =>
    case SyncPod(_) =>
    case Restart => RestartQuiet(s);
  }

  lemma QuietPrune(s: State, w: nat)
    ensures Stays(s, Next(s, PrePrune(w))) && Stays(s, Next(s, FailWrite(w)))
  {
    hide Pruned;
  }

  lemma QuietNext(s: State, step: Step)
    requires Quiet(step)
    ensures Stays(s, Next(s, step))
  {
    hide Next, Stays;
    match step
    case Tick(_) => QuietCache(s, step);
    case SyncJob(_) => QuietCache(s, step);
    case SyncPod(_) => QuietCache(s, step);
    case Restart => QuietCache(s, step);
    case Start(_, _) => QuietWorker(s, step);
    case PreList(_) => QuietWorker(s, step);
    case ListJobs(_) => QuietWorker(s, step);
    case ListPods(_) => QuietWorker(s, step);
    case PrePrune(w) => QuietPrune(s, w);
    case FailWrite(w) => QuietPrune(s, w);
  }

  lemma DesiredIsFixedByCluster(s: State, step: Step)
    requires step.CreateJob? || step.Progress? || step.DeleteJob? || step.AddPod? || step.BecomeReady? || step.DropPod?
          || step.Lose?
    ensures Next(s, step).desired == s.desired
  {
    hide Busy, TargetedByAdmitted;
    match step
    case CreateJob(_, _) =>
    case Progress(_, _) =>
    case DeleteJob(_) =>
    case AddPod(_) =>
    case BecomeReady(_) =>
    case Lose(_, _) =>
    case DropPod(_) =>
  }

  lemma DesiredIsFixed(s: State, step: Step)
    requires !Quiet(step)
    ensures Next(s, step).desired == s.desired
  {
    hide Pruned, Allows;
    match step
    case Fence(_) =>
    case Evict(_) =>
    case Decide(_) =>
    case WriteStatus(_) =>
    case _ => DesiredIsFixedByCluster(s, step);
  }

  lemma OtherStepsSafe(s: State, step: Step)
    requires Inv(s) && !step.Decide? && !step.Lose?
    ensures Untouched(s) <= Untouched(Next(s, step))
  {
    hide Inv, Untouched, Next;
    if step.AddPod? || step.BecomeReady? || step.DropPod? {
      PodStepSafe(s, step);
    } else if step.Fence? || step.Evict? {
      SourceStepSafe(s, step);
    } else if step.CreateJob? || step.Progress? || step.DeleteJob? {
      JobStepSafe(s, step);
    } else if step.WriteStatus? {
      WriteStatusSafe(s, step.w);
    } else {
      QuietNext(s, step);
      QuietStepSafe(s, Next(s, step));
    }
  }

  lemma DecideStepSafe(s: State, w: nat)
    requires Inv(s) && Assumed(s, Decide(w))
    ensures var t := Next(s, Decide(w)); Untouched(s) <= Untouched(t) || |Untouched(t)| >= s.desired
  {
    hide Inv, Untouched;
    if w in s.workers && s.workers[w].Listed? {
      DecideSafe(s, w);
    }
  }

  /** How many pods went out of service on their own, at most. */
  function Losses(steps: seq<Step>): nat {
    if steps == [] then 0 else Losses(steps[..|steps| - 1]) + (if steps[|steps| - 1].Lose? then 1 else 0)
  }

  /** One step, with its assumption met. */
  lemma StepSafe(s: State, step: Step)
    requires Inv(s) && Assumed(s, step)
    ensures Next(s, step).desired == s.desired
    ensures step.Lose? ==> |Untouched(Next(s, step))| >= |Untouched(s)| - 1
    ensures !step.Lose? ==> |Untouched(Next(s, step))| >= s.desired || |Untouched(Next(s, step))| >= |Untouched(s)|
  {
    hide Inv, Untouched, Next;
    if Quiet(step) {
      QuietNext(s, step);
    } else {
      DesiredIsFixed(s, step);
    }
    if step.Decide? {
      DecideStepSafe(s, step.w);
    } else if step.Lose? {
      LoseStepSafe(s, step.u, step.terminating);
      SubsetSize(Untouched(s) - {step.u}, Untouched(Next(s, step)));
    } else {
      OtherStepsSafe(s, step);
    }
    if Untouched(s) <= Untouched(Next(s, step)) {
      SubsetSize(Untouched(s), Untouched(Next(s, step)));
    }
  }

  /**
   The budget is never overspent: over every run that meets the assumptions, the healthy pods
   that no admitted job is about to disrupt, with those that went out of service on their own,
   stay at least as many as the budget desires, or at least as many as there were to begin with.
  */
  lemma {:induction false} NeverOverspent(s: State, steps: seq<Step>)
    requires Inv(s) && AllAssumed(s, steps)
    ensures Inv(Run(s, steps)) && Run(s, steps).desired == s.desired
    ensures var kept := |Untouched(Run(s, steps))| + Losses(steps); kept >= s.desired || kept >= |Untouched(s)|
    decreases |steps|
  {
    if steps == [] {
    } else {
      var init, last := steps[..|steps| - 1], steps[|steps| - 1];
      NeverOverspent(s, init);
      NextKeeps(Run(s, init), last);
      StepSafe(Run(s, init), last);
    }
  }

  /** A controller that just started, whatever the cluster looks like, satisfies the invariant. */
  lemma FreshStart(s: State)
    requires s.podCache == s.pods && s.jobCache == s.jobs && s.reserved == map[] && s.workers == map[]
    requires s.admitted == set j | j in s.jobs && PastBudgetCheck(s.jobs[j].phase)
    requires forall j :: j in s.jobs ==> s.jobs[j].target.Some?
    ensures Inv(s)
  {
  }
}
