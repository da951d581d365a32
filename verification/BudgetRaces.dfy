/**
 Why the budget needs its assumptions: for each of them a run of a freshly started controller
 that breaks it and overspends.  Two jobs migrate pods 1 and 2.
*/
module BudgetRaces {
  import opened Api
  import opened Sets
  import opened BudgetChecker
  import opened BudgetProtocol

  /** The decision takes the healthy pods below what the budget desires. */
  ghost predicate Overspends(s: State, step: Step) {
    |Untouched(s)| >= s.desired > |Untouched(Next(s, step))|
  }

  /** Pod 2 is healthy, pod 1 as given. */
  function Pods(first: bool): map<Uid, PodView> {
    map[1 := PodView(first, false), 2 := PodView(true, false)]
  }

  /** Job 2 is Pending, job 1 as given. */
  function Jobs(first: Phase): map<JobId, JobView> {
    map[1 := JobView(Some(1), first), 2 := JobView(Some(2), Pending)]
  }

  /** A controller that just started, with both jobs Pending. */
  function Fresh(desired: int, alwaysAllow: bool, first: bool): State {
    var pods, jobs := Pods(first), Jobs(Pending);
    State(desired, alwaysAllow, 0, pods, pods, jobs, jobs, map[], map[], {}, map[], {})
  }

  lemma FreshIsValid(desired: int, alwaysAllow: bool, first: bool)
    ensures Inv(Fresh(desired, alwaysAllow, first))
  {
    FreshStart(Fresh(desired, alwaysAllow, first));
  }

  // ----- Running -----

  lemma RunOne(s: State, step: Step)
    ensures Run(s, [step]) == Next(s, step)
  {
    assert [step][..0] == [];
  }

  lemma {:induction false} RunConcat(s: State, a: seq<Step>, b: seq<Step>)
    ensures Run(s, a + b) == Run(Run(s, a), b)
    decreases |b|
  {
    if b == [] {
      assert a + b == a;
    } else {
      assert (a + b)[..|a + b| - 1] == a + b[..|b| - 1];
      RunConcat(s, a, b[..|b| - 1]);
    }
  }

  /** Appends one step to a run. */
  lemma Then(s: State, run: seq<Step>, step: Step)
    ensures Run(s, run + [step]) == Next(Run(s, run), step)
  {
    RunConcat(s, run, [step]);
    RunOne(Run(s, run), step);
  }

  /** Worker j's way to its lists. */
  function Lists(j: JobId): seq<Step> {
    [Start(j, j), ListJobs(j), ListPods(j)]
  }

  lemma StartMoves(s: State, j: JobId)
    requires j !in s.workers && Targets(s, j, j) && s.jobs[j].phase.Pending? && j in s.jobCache && !Busy(s, j)
    requires j !in s.admitted && j in s.podCache
    ensures Next(s, Start(j, j)) == WithWorker(s, j, Checking(j, HealthyIn(s.podCache, j)))
  {
  }

  lemma ListJobsMoves(s: State, j: JobId, healthy: bool)
    requires !Locked(s)
    ensures Next(WithWorker(s, j, Checking(j, healthy)), ListJobs(j))
        == WithWorker(s, j, Listing(j, healthy, s.jobCache))
  {
    var t := WithWorker(s, j, Checking(j, healthy));
    assert forall w :: w in t.workers ==> w == j || !Holds(s.workers[w]);
    assert t.workers[j := Listing(j, healthy, s.jobCache)] == s.workers[j := Listing(j, healthy, s.jobCache)];
  }

  lemma ListPodsMoves(s: State, j: JobId, healthy: bool)
    ensures Next(WithWorker(s, j, Listing(j, healthy, s.jobCache)), ListPods(j))
         == WithWorker(s, j, Listed(j, healthy, s.jobCache, s.podCache))
  {
    var t := WithWorker(s, j, Listing(j, healthy, s.jobCache));
    var wk := Listed(j, healthy, s.jobCache, s.podCache);
    assert t.workers[j := wk] == s.workers[j := wk];
  }

  lemma ListsMoves(s: State, j: JobId)
    requires j !in s.workers && Targets(s, j, j) && s.jobs[j].phase.Pending? && j in s.jobCache && !Busy(s, j)
    requires j !in s.admitted && j in s.podCache && !Locked(s)
    ensures Run(s, Lists(j)) == WithWorker(s, j, Listed(j, HealthyIn(s.podCache, j), s.jobCache, s.podCache))
  {
    hide Next, Run;
    var h := HealthyIn(s.podCache, j);
    StartMoves(s, j);
    ListJobsMoves(s, j, h);
    ListPodsMoves(s, j, h);
    RunOne(s, Start(j, j));
    Then(s, [Start(j, j)], ListJobs(j));
    Then(s, [Start(j, j), ListJobs(j)], ListPods(j));
    assert [Start(j, j)] + [ListJobs(j)] == [Start(j, j), ListJobs(j)];
    assert [Start(j, j), ListJobs(j)] + [ListPods(j)] == Lists(j);
  }

  // ----- Deciding -----

  /** What a decision without any reservation, and without any job past the check, counts. */
  lemma CountsBoth(j: JobId, jobs: map<JobId, JobView>, res: Reservations, pods: map<Uid, PodView>)
    requires jobs == Jobs(Pending) || jobs == Jobs(Phase.Failed)
    requires j == 1 || j == 2
    requires res == map[] && pods == Pods(true)
    ensures |Undisrupted(pods, InFlight(j, jobs, res, pods))| == 2
  {
    assert InFlight(j, jobs, res, pods) == {};
    assert Undisrupted(pods, {}) == {1, 2};
  }

  /** Job 1 is let through first, with a reservation. */
  lemma AdmitOne(s: State)
    requires s.desired == 1 && !s.alwaysAllow && s.jobCache == Jobs(Pending) && s.podCache == Pods(true)
        && s.reserved == map[]
    ensures Next(WithWorker(s, 1, Listed(1, true, s.jobCache, s.podCache)), Decide(1)) == Admitted(s, 1, 1, true)
  {
    var t := WithWorker(s, 1, Listed(1, true, s.jobCache, s.podCache));
    assert Pruned(t.reserved, s.jobCache, s.now) == map[];
    CountsBoth(1, s.jobCache, map[], s.podCache);
    assert t.workers[1 := Admitting(1)] == s.workers[1 := Admitting(1)];
  }

  /** Admitting a job whose source is untouched takes that source, and that is one too many. */
  lemma TakesTheLast(s: State, w: nat, j: JobId, reserve: bool, res: Reservations)
    requires Targets(s, j, j) && j in Untouched(s) && |Untouched(s)| == s.desired
    ensures |Untouched(Admitted(s.(reserved := res), w, j, reserve))| < s.desired
  {
    var t := Admitted(s.(reserved := res), w, j, reserve);
    forall u | u in Untouched(t) ensures u in Untouched(s) - {j} {
      assert Targets(t, j, j);
      forall k | k in s.admitted ensures !Targets(s, k, u) {
        assert !Targets(t, k, u);
      }
    }
    SubsetSize(Untouched(t), Untouched(s) - {j});
  }

  /** A check of job 2 that sees neither job 1's reservation nor its progress, while only pod 2 is left untouched. */
  lemma MissingOneOverspends(s: State)
    requires s.desired == 1 && Targets(s, 2, 2) && Untouched(s) == {2}
    requires 2 in s.workers && s.workers[2].Listed? && s.workers[2].job == 2 && s.workers[2].sourceHealthy
    requires s.workers[2].pods == Pods(true)
    requires s.workers[2].jobs == Jobs(Pending) || s.workers[2].jobs == Jobs(Phase.Failed)
    requires Pruned(s.reserved, s.workers[2].jobs, s.now) == map[]
    ensures Overspends(s, Decide(2))
  {
    CountsBoth(2, s.workers[2].jobs, map[], s.workers[2].pods);
    TakesTheLast(s, 2, 2, true, map[]);
  }

  /** Job 1's way through the check. */
  function First(): seq<Step> {
    Lists(1) + [Decide(1)]
  }

  /** Only job 1 is admitted, and pod 2 is healthy. */
  lemma OneIsTouched(s: State)
    requires s.admitted == {1} && Targets(s, 1, 1) && s.pods.Keys == {1, 2} && HealthyIn(s.pods, 2)
    ensures Untouched(s) == {2}
  {
    assert !TargetedByAdmitted(s, 2);
  }

  /** Nobody works on either job, and nobody has been let through. */
  predicate Idle(s: State) {
    && s.jobs == Jobs(Pending) && s.jobCache == Jobs(Pending) && s.podCache == Pods(true) && s.pods == Pods(true)
    && s.reserved == map[] && s.admitted == {} && s.desired == 1 && !s.alwaysAllow
    && forall w :: w in s.workers ==> s.workers[w].PreListed? && w != 1 && w != 2
  }

  lemma FirstAdmission(s: State)
    requires Idle(s)
    ensures Run(s, First()) == Admitted(s, 1, 1, true)
  {
    ListsMoves(s, 1);
    AdmitOne(s);
    Then(s, Lists(1), Decide(1));
  }

  /** Job 2's lists, taken while the cache still shows job 1 Pending. */
  lemma SecondLists(s: State)
    requires s.jobs == Jobs(Pending) && s.jobCache == Jobs(Pending) && s.podCache == Pods(true) && s.admitted == {1}
    requires forall w :: w in s.workers ==> w != 2 && (s.workers[w].PreListed? || s.workers[w] == Admitting(1))
    ensures Run(s, Lists(2)) == WithWorker(s, 2, Listed(2, true, Jobs(Pending), Pods(true)))
  {
    ListsMoves(s, 2);
  }

  // ----- The races -----

  /** The status write stays out of the cache for longer than the reservation lives. */
  lemma LagAboveTTL()
    ensures var s := Fresh(1, false, true);
      && !Assumed(Run(s, First()), Tick(121))
      && Overspends(Run(s, First() + [Tick(121)] + Lists(2)), Decide(2))
  {
    var s := Fresh(1, false, true);
    FirstAdmission(s);
    Then(s, First(), Tick(121));
    RunConcat(s, First() + [Tick(121)], Lists(2));
    hide Run;
    var one := Admitted(s, 1, 1, true);
    assert Hidden(one, one.jobCache, 1);
    var late := one.(now := 121);
    SecondLists(late);
    OneIsTouched(WithWorker(late, 2, Listed(2, true, Jobs(Pending), Pods(true))));
    MissingOneOverspends(WithWorker(late, 2, Listed(2, true, Jobs(Pending), Pods(true))));
  }

  /** Job 1 let through, and worker 2 with its lists. */
  function BothListed(): State {
    WithWorker(Admitted(Fresh(1, false, true), 1, 1, true), 2, Listed(2, true, Jobs(Pending), Pods(true)))
  }

  lemma ReachBothListed()
    ensures Run(Fresh(1, false, true), First() + Lists(2)) == BothListed()
  {
    var s := Fresh(1, false, true);
    FirstAdmission(s);
    RunConcat(s, First(), Lists(2));
    SecondLists(Admitted(s, 1, 1, true));
  }

  /** The same, with job 1's status written and cached. */
  function OneCached(): State {
    BothListed().(workers := map[2 := Listed(2, true, Jobs(Pending), Pods(true))],
                  jobs := Jobs(Snapshotting), jobCache := Jobs(Snapshotting))
  }

  lemma WriteUnderLock()
    ensures Next(BothListed(), WriteStatus(1)) == OneCached().(jobCache := Jobs(Pending))
  {
    var t := BothListed();
    assert t.workers - {1} == map[2 := Listed(2, true, Jobs(Pending), Pods(true))];
    assert t.jobs[1 := t.jobs[1].(phase := Snapshotting)] == Jobs(Snapshotting);
  }

  lemma CacheUnderLock()
    ensures Next(OneCached().(jobCache := Jobs(Pending)), SyncJob(1)) == OneCached()
  {
    assert Jobs(Pending)[1 := Jobs(Snapshotting)[1]] == Jobs(Snapshotting);
  }

  lemma ReachOneCached()
    ensures Run(Fresh(1, false, true), First() + Lists(2) + [WriteStatus(1), SyncJob(1)]) == OneCached()
  {
    hide Run, Next;
    var s := Fresh(1, false, true);
    var run := First() + Lists(2);
    ReachBothListed();
    WriteUnderLock();
    CacheUnderLock();
    Then(s, run, WriteStatus(1));
    Then(s, run + [WriteStatus(1)], SyncJob(1));
    assert run + [WriteStatus(1)] + [SyncJob(1)] == run + [WriteStatus(1), SyncJob(1)];
  }

  /** A check that holds the lock for longer than the reservation lives. */
  lemma CheckAboveTTL()
    ensures var s, run := Fresh(1, false, true), First() + Lists(2) + [WriteStatus(1), SyncJob(1)];
      !Assumed(Run(s, run), Tick(121)) && Overspends(Run(s, run + [Tick(121)]), Decide(2))
  {
    var s, run := Fresh(1, false, true), First() + Lists(2) + [WriteStatus(1), SyncJob(1)];
    ReachOneCached();
    Then(s, run, Tick(121));
    hide Run;
    assert Hidden(OneCached(), OneCached().workers[2].jobs, 1);
    OneIsTouched(OneCached().(now := 121));
    MissingOneOverspends(OneCached().(now := 121));
  }

  /** Worker 2 holds the lock.  Job 1's write is cached, and a pre-check without the lock drops job 1's reservation. */
  lemma PreCheckAheadOfTheLock()
    ensures var s, run := Fresh(1, false, true), First() + Lists(2) + [WriteStatus(1), SyncJob(1)] + [PreList(3)];
      !Assumed(Run(s, run), PrePrune(3)) && Overspends(Run(s, run + [PrePrune(3)]), Decide(2))
  {
    hide Run, Next, Assumed, Overspends;
    var s, run := Fresh(1, false, true), First() + Lists(2) + [WriteStatus(1), SyncJob(1)];
    ReachOneCached();
    Then(s, run, PreList(3));
    Then(s, run + [PreList(3)], PrePrune(3));
    ListUnlocked();
    PruneUnderTheLock();
    PruneUnlocked();
    var pruned := OneCached().(reserved := map[]);
    OneIsTouched(pruned);
    assert Pruned(map[], Jobs(Pending), 0) == map[];
    MissingOneOverspends(pruned);
  }

  function PreCheckListed(): State {
    WithWorker(OneCached(), 3, PreListed(OneCached().jobCache))
  }

  lemma ListUnlocked()
    ensures Next(OneCached(), PreList(3)) == PreCheckListed()
  {
  }

  lemma PruneUnderTheLock()
    ensures !Assumed(PreCheckListed(), PrePrune(3))
  {
    var listed := PreCheckListed();
    assert 2 in listed.workers && Hidden(listed, listed.workers[2].jobs, 1);
    assert 1 in listed.reserved && HiddenSomewhere(listed, 1);
    assert !Keeps(listed.workers[3].jobs, listed.now, 1, listed.reserved[1]);
  }

  lemma PruneUnlocked()
    ensures Next(PreCheckListed(), PrePrune(3)) == OneCached().(reserved := map[])
  {
    var t, listed := OneCached(), PreCheckListed();
    assert Pruned(t.reserved, t.jobCache, t.now) == map[];
    assert listed.workers - {3} == t.workers;
  }

  /** A fresh controller that knows only job 2; worker 0 lists the jobs, and then job 1 appears. */
  function OnlyTwo(): State {
    Fresh(1, false, true).(jobs := map[2 := JobView(Some(2), Pending)], jobCache := map[2 := JobView(Some(2), Pending)])
  }

  function OldList(): State {
    Fresh(1, false, true).(workers := map[0 := PreListed(map[2 := JobView(Some(2), Pending)])])
  }

  lemma ReachOldList()
    ensures Run(OnlyTwo(), [PreList(0), CreateJob(1, 1), SyncJob(1)]) == OldList()
  {
    var s := OnlyTwo();
    RunOne(s, PreList(0));
    Then(s, [PreList(0)], CreateJob(1, 1));
    Then(s, [PreList(0), CreateJob(1, 1)], SyncJob(1));
    assert [PreList(0)] + [CreateJob(1, 1)] == [PreList(0), CreateJob(1, 1)];
    assert [PreList(0), CreateJob(1, 1)] + [SyncJob(1)] == [PreList(0), CreateJob(1, 1), SyncJob(1)];
    hide Run;
    var listed := WithWorker(s, 0, PreListed(s.jobCache));
    assert Next(s, PreList(0)) == listed;
    var created := listed.(jobs := Jobs(Pending));
    assert Next(listed, CreateJob(1, 1)) == created;
    assert Next(created, SyncJob(1)) == OldList();
  }

  lemma PruneDropsHidden()
    ensures !Assumed(Admitted(OldList(), 1, 1, true), PrePrune(0))
  {
    var one := Admitted(OldList(), 1, 1, true);
    assert Hidden(one, one.jobCache, 1);
    assert 1 in one.reserved && HiddenSomewhere(one, 1);
    assert !Keeps(one.workers[0].jobs, one.now, 1, one.reserved[1]);
  }

  lemma PruneOutOfDate()
    ensures var one := Admitted(OldList(), 1, 1, true);
      Next(one, PrePrune(0)) == one.(workers := map[1 := Admitting(1)], reserved := map[])
  {
    var one := Admitted(OldList(), 1, 1, true);
    assert one.workers - {0} == map[1 := Admitting(1)];
    assert Pruned(one.reserved, one.workers[0].jobs, one.now) == map[];
  }

  /** The pre-check's list is older than job 1, which was let through since. */
  lemma PreCheckOutOfDate()
    ensures var run := [PreList(0), CreateJob(1, 1), SyncJob(1)] + First();
      && !Assumed(Run(OnlyTwo(), run), PrePrune(0))
      && Overspends(Run(OnlyTwo(), run + [PrePrune(0)] + Lists(2)), Decide(2))
  {
    hide Run, Next, Assumed, Overspends;
    var run := [PreList(0), CreateJob(1, 1), SyncJob(1)] + First();
    ReachOldList();
    RunConcat(OnlyTwo(), [PreList(0), CreateJob(1, 1), SyncJob(1)], First());
    FirstAdmission(OldList());
    Then(OnlyTwo(), run, PrePrune(0));
    RunConcat(OnlyTwo(), run + [PrePrune(0)], Lists(2));
    PruneDropsHidden();
    PruneOutOfDate();
    var pruned := Admitted(OldList(), 1, 1, true).(workers := map[1 := Admitting(1)], reserved := map[]);
    SecondLists(pruned);
    var last := WithWorker(pruned, 2, Listed(2, true, Jobs(Pending), Pods(true)));
    OneIsTouched(last);
    MissingOneOverspends(last);
  }

  /** Worker 1 read its source as unhealthy, and then the source recovered; `cached` says whether the pod cache
    * knows. */
  function Recovered(desired: int, alwaysAllow: bool, cached: bool): State {
    Fresh(desired, alwaysAllow, false).(
      workers := map[1 := Checking(1, false)], pods := Pods(true), podCache := Pods(cached))
  }

  lemma ReachRecovered(desired: int, alwaysAllow: bool)
    ensures Run(Fresh(desired, alwaysAllow, false), [Start(1, 1), BecomeReady(1)])
        == Recovered(desired, alwaysAllow, false)
  {
    var s := Fresh(desired, alwaysAllow, false);
    RunOne(s, Start(1, 1));
    Then(s, [Start(1, 1)], BecomeReady(1));
    assert [Start(1, 1)] + [BecomeReady(1)] == [Start(1, 1), BecomeReady(1)];
    hide Run;
    StartMoves(s, 1);
    var t := WithWorker(s, 1, Checking(1, false));
    assert s.pods[1 := s.pods[1].(ready := true)] == Pods(true);
    assert Next(t, BecomeReady(1)) == Recovered(desired, alwaysAllow, false);
  }

  lemma NobodyAdmitted(s: State)
    requires s.admitted == {} && s.pods == Pods(true)
    ensures Untouched(s) == {1, 2}
  {
  }

  /** From a worker that checks to its lists. */
  lemma CheckingLists(s: State)
    requires s.workers == map[1 := Checking(1, false)]
    ensures Run(s, [ListJobs(1), ListPods(1)]) == s.(workers := map[1 := Listed(1, false, s.jobCache, s.podCache)])
  {
    RunOne(s, ListJobs(1));
    Then(s, [ListJobs(1)], ListPods(1));
    assert [ListJobs(1)] + [ListPods(1)] == [ListJobs(1), ListPods(1)];
    hide Run;
    var idle := s.(workers := map[]);
    assert s == WithWorker(idle, 1, Checking(1, false));
    ListJobsMoves(idle, 1, false);
    ListPodsMoves(idle, 1, false);
    assert WithWorker(idle, 1, Listed(1, false, s.jobCache, s.podCache)).workers
        == map[1 := Listed(1, false, s.jobCache, s.podCache)];
  }

  /** Worker 1 with its lists, after the recovery. */
  function RecoveredListed(alwaysAllow: bool, cached: bool): State {
    Recovered(2, alwaysAllow, cached).(workers := map[1 := Listed(1, false, Jobs(Pending), Pods(cached))])
  }

  lemma CountedRecoveryAdmits()
    ensures var t := RecoveredListed(false, true);
      Next(t, Decide(1)) == Admitted(t.(reserved := map[]), 1, 1, true)
  {
    var t := RecoveredListed(false, true);
    assert Pruned(t.reserved, Jobs(Pending), 0) == map[];
    CountsBoth(1, Jobs(Pending), map[], Pods(true));
  }

  lemma CountedRecoveryOverspends()
    ensures !Assumed(RecoveredListed(false, true), Decide(1)) && Overspends(RecoveredListed(false, true), Decide(1))
  {
    hide Next;
    var t := RecoveredListed(false, true);
    CountedRecoveryAdmits();
    NobodyAdmitted(t);
    TakesTheLast(t, 1, 1, true, map[]);
  }

  lemma UnseenRecoveryOverspends()
    ensures !Assumed(RecoveredListed(true, false), Decide(1)) && Overspends(RecoveredListed(true, false), Decide(1))
  {
    var t := RecoveredListed(true, false);
    NobodyAdmitted(t);
    TakesTheLast(t, 1, 1, false, t.reserved);
  }

  lemma SyncRecovered()
    ensures Next(Recovered(2, false, false), SyncPod(1)) == Recovered(2, false, true)
  {
    assert Pods(false)[1 := Pods(true)[1]] == Pods(true);
  }

  /** The source recovered, and the pod list counts it; the check does not subtract it. */
  lemma SourceRecovered()
    ensures var s, run := Fresh(2, false, false),
        [Start(1, 1), BecomeReady(1)] + [SyncPod(1)] + [ListJobs(1), ListPods(1)];
      !Assumed(Run(s, run), Decide(1)) && Overspends(Run(s, run), Decide(1))
  {
    hide Run, Next, Assumed, Overspends;
    var s := Fresh(2, false, false);
    ReachRecovered(2, false);
    Then(s, [Start(1, 1), BecomeReady(1)], SyncPod(1));
    RunConcat(s, [Start(1, 1), BecomeReady(1)] + [SyncPod(1)], [ListJobs(1), ListPods(1)]);
    SyncRecovered();
    CheckingLists(Recovered(2, false, true));
    CountedRecoveryOverspends();
  }

  /** The source recovered unseen, and an unhealthy source may always go. */
  lemma SourceRecoveredUnseen()
    ensures var s, run := Fresh(2, true, false), [Start(1, 1), BecomeReady(1)] + [ListJobs(1), ListPods(1)];
      !Assumed(Run(s, run), Decide(1)) && Overspends(Run(s, run), Decide(1))
  {
    hide Run, Next, Assumed, Overspends;
    var s := Fresh(2, true, false);
    ReachRecovered(2, true);
    RunConcat(s, [Start(1, 1), BecomeReady(1)], [ListJobs(1), ListPods(1)]);
    CheckingLists(Recovered(2, true, false));
    UnseenRecoveryOverspends();
  }

  // An unhealthy source is let go without a reservation, and recovers before its job shows.

  /** Job 1 let through unreserved; pod 1 as given in truth and in the cache. */
  function Unreserved(first: bool, cached: bool): State {
    Fresh(1, true, false).(workers := map[1 := Admitting(1)], admitted := {1}, pods := Pods(first),
      podCache := Pods(cached))
  }

  lemma ReachUnreserved()
    ensures Run(Fresh(1, true, false), Lists(1) + [Decide(1)]) == Unreserved(false, false)
  {
    hide Run, Next;
    var s := Fresh(1, true, false);
    ListsMoves(s, 1);
    Then(s, Lists(1), Decide(1));
    LetGo();
  }

  lemma LetGo()
    ensures Next(WithWorker(Fresh(1, true, false), 1, Listed(1, false, Jobs(Pending), Pods(false))), Decide(1))
         == Unreserved(false, false)
  {
    hide Pruned, Remaining;
    var t := WithWorker(Fresh(1, true, false), 1, Listed(1, false, Jobs(Pending), Pods(false)));
    assert t.workers[1 := Admitting(1)] == map[1 := Admitting(1)];
  }

  lemma RecoverUnreserved()
    ensures !Assumed(Unreserved(false, false), BecomeReady(1))
    ensures Next(Unreserved(false, false), BecomeReady(1)) == Unreserved(true, false)
    ensures Next(Unreserved(true, false), SyncPod(1)) == Unreserved(true, true)
  {
    assert Targets(Unreserved(false, false), 1, 1);
    assert Pods(false)[1 := Pods(false)[1].(ready := true)] == Pods(true);
    assert Pods(false)[1 := Pods(true)[1]] == Pods(true);
  }

  lemma AdmittedSourceRecovered()
    ensures var s, run := Fresh(1, true, false), Lists(1) + [Decide(1)];
      && !Assumed(Run(s, run), BecomeReady(1))
      && Overspends(Run(s, run + [BecomeReady(1)] + [SyncPod(1)] + Lists(2)), Decide(2))
  {
    hide Run, Next, Assumed, Overspends;
    var s, run := Fresh(1, true, false), Lists(1) + [Decide(1)];
    ReachUnreserved();
    RecoverUnreserved();
    Then(s, run, BecomeReady(1));
    Then(s, run + [BecomeReady(1)], SyncPod(1));
    RunConcat(s, run + [BecomeReady(1)] + [SyncPod(1)], Lists(2));
    SecondLists(Unreserved(true, true));
    var last := WithWorker(Unreserved(true, true), 2, Listed(2, true, Jobs(Pending), Pods(true)));
    OneIsTouched(last);
    assert Pruned(map[], Jobs(Pending), 0) == map[];
    MissingOneOverspends(last);
  }

  // The job cache forgets job 1 before the pod cache learns that its source went out of service.

  /** Job 1 fenced pod 1 and then failed; the cache shows job 1 as given, and pod 1 still healthy. */
  function GaveUp(cached: Phase): State {
    Admitted(Fresh(1, false, true), 1, 1, true).(
      workers := map[], admitted := {}, pods := Pods(false), jobs := Jobs(Phase.Failed), jobCache := Jobs(cached),
      disruptor := map[1 := 1])
  }

  /** Job 1 wrote its status; pod 1 as given. */
  function OneWritten(first: bool): State {
    Admitted(Fresh(1, false, true), 1, 1, true).(
      workers := map[], jobs := Jobs(Snapshotting), pods := Pods(first),
      disruptor := if first then map[] else map[1 := 1])
  }

  lemma WriteOne()
    ensures Next(Admitted(Fresh(1, false, true), 1, 1, true), WriteStatus(1)) == OneWritten(true)
  {
    var one := Admitted(Fresh(1, false, true), 1, 1, true);
    assert one.workers - {1} == map[];
    assert one.jobs[1 := one.jobs[1].(phase := Snapshotting)] == Jobs(Snapshotting);
  }

  lemma FenceOne()
    ensures Next(OneWritten(true), Fence(1)) == OneWritten(false)
  {
    assert Pods(true)[1 := Pods(true)[1].(ready := false)] == Pods(false);
  }

  lemma FailOne()
    ensures Next(OneWritten(false), Progress(1, Phase.Failed)) == GaveUp(Pending)
  {
    assert Jobs(Snapshotting)[1 := Jobs(Snapshotting)[1].(phase := Phase.Failed)] == Jobs(Phase.Failed);
  }

  lemma ForgetOne()
    ensures Next(GaveUp(Pending), SyncJob(1)) == GaveUp(Phase.Failed)
  {
    assert Jobs(Pending)[1 := Jobs(Phase.Failed)[1]] == Jobs(Phase.Failed);
  }

  lemma ForgottenTooEarly()
    ensures !Assumed(GaveUp(Pending), SyncJob(1))
  {
    var s := GaveUp(Pending);
    assert 1 in s.disruptor && s.disruptor[1] == 1 && Stale(s, s.podCache, 1);
  }

  lemma ReachGaveUp()
    ensures Run(Fresh(1, false, true), First() + [WriteStatus(1), Fence(1), Progress(1, Phase.Failed)])
        == GaveUp(Pending)
  {
    hide Run, Next;
    var s := Fresh(1, false, true);
    FirstAdmission(s);
    WriteOne();
    FenceOne();
    FailOne();
    Then(s, First(), WriteStatus(1));
    Then(s, First() + [WriteStatus(1)], Fence(1));
    Then(s, First() + [WriteStatus(1)] + [Fence(1)], Progress(1, Phase.Failed));
    assert First() + [WriteStatus(1)] + [Fence(1)] + [Progress(1, Phase.Failed)]
        == First() + [WriteStatus(1), Fence(1), Progress(1, Phase.Failed)];
  }

  lemma OnlyTwoHealthy(s: State)
    requires s.admitted == {} && s.pods == Pods(false)
    ensures Untouched(s) == {2}
  {
  }

  lemma PodCacheBehindJobCache()
    ensures var s, run := Fresh(1, false, true), First() + [WriteStatus(1), Fence(1), Progress(1, Phase.Failed)];
      && !Assumed(Run(s, run), SyncJob(1))
      && Overspends(Run(s, run + [SyncJob(1)] + Lists(2)), Decide(2))
  {
    hide Run, Next, Assumed, Overspends;
    var s, run := Fresh(1, false, true), First() + [WriteStatus(1), Fence(1), Progress(1, Phase.Failed)];
    ReachGaveUp();
    ForgetOne();
    ForgottenTooEarly();
    Then(s, run, SyncJob(1));
    RunConcat(s, run + [SyncJob(1)], Lists(2));
    var t := GaveUp(Phase.Failed);
    ListsMoves(t, 2);
    var last := WithWorker(t, 2, Listed(2, true, Jobs(Phase.Failed), Pods(true)));
    OnlyTwoHealthy(last);
    assert Pruned(last.reserved, Jobs(Phase.Failed), last.now) == map[];
    MissingOneOverspends(last);
  }

  // A pod that went out of service on its own, and that the pod cache still shows healthy.

  function TwoLost(): State {
    Fresh(1, false, true).(pods := map[1 := PodView(true, false), 2 := PodView(false, false)], lost := {2})
  }

  lemma LoseTwo()
    ensures Next(Fresh(1, false, true), Lose(2, false)) == TwoLost()
  {
    assert Pods(true)[2 := PodView(false, false)] == TwoLost().pods;
    assert {} + {2} == {2};
  }

  function TwoLostListed(): State {
    WithWorker(TwoLost(), 1, Listed(1, true, Jobs(Pending), Pods(true)))
  }

  lemma UnseenLossOverspends()
    ensures !Assumed(TwoLostListed(), Decide(1)) && Overspends(TwoLostListed(), Decide(1))
  {
    var t := TwoLostListed();
    assert 2 in t.lost && HealthyIn(t.workers[1].pods, 2) && !Targets(t, 1, 2);
    AdmitOne(TwoLost());
    hide Next;
    assert Untouched(TwoLost()) == {1};
    assert Untouched(t) == {1};
    assert TwoLost().(reserved := map[]) == TwoLost();
    TakesTheLast(TwoLost(), 1, 1, true, map[]);
  }

  lemma LossUnseen()
    ensures var s, run := Fresh(1, false, true), [Lose(2, false)] + Lists(1);
      !Assumed(Run(s, run), Decide(1)) && Overspends(Run(s, run), Decide(1))
  {
    hide Run, Next, Assumed, Overspends;
    var s := Fresh(1, false, true);
    RunOne(s, Lose(2, false));
    RunConcat(s, [Lose(2, false)], Lists(1));
    LoseTwo();
    ListsMoves(TwoLost(), 1);
    UnseenLossOverspends();
  }
}
