/** Invariant rules I7 and I12, the eviction webhook's answer for an existing job, and what runs say about them. */
module JobRules {
  import opened Api
  import opened Strings
  import opened JobWorld
  import opened JobSafety

  const DEFAULT_ENGINE := "gke-pod-snapshots"

  /** A job in a rule's snapshot: its source's UID, and the engine its annotation names, if any. */
  datatype JobView = JobView(job: Job, target: Uid, engine: string)

  datatype PodView = PodView(uid: Uid, terminating: bool)

  datatype Violation =
    | EvictionBypassedWhileBlocked(target: Uid)
    | OriginStillRunning(target: Uid)
    | NonSucceededMarkedRestored(target: Uid)
    | UnconfirmedMarkedVerified(target: Uid)
    | InvalidVerdict(target: Uid)

  // ----- I7: nothing restores past a blocked or missing eviction -----

  predicate Restored7(v: JobView) {
    v.job.phase.Restoring? || v.job.phase.Succeeded?
  }

  ghost predicate I7Holds(jobs: seq<JobView>, pods: seq<PodView>) {
    forall i :: 0 <= i < |jobs| && Restored7(jobs[i]) ==>
      && !jobs[i].job.blocked && !jobs[i].job.misconfigured
      && forall k :: 0 <= k < |pods| ==> pods[k].uid != jobs[i].target || pods[k].terminating
  }

  method EvaluateI7(jobs: seq<JobView>, pods: seq<PodView>) returns (violations: seq<Violation>)
    ensures violations == [] <==> I7Holds(jobs, pods)
  {
    violations := [];
    for i := 0 to |jobs|
      invariant violations == [] <==> I7Holds(jobs[..i], pods)
    {
      assert jobs[..i + 1] == jobs[..i] + [jobs[i]];
      assert violations != [] ==> !I7Holds(jobs[..i + 1], pods) by {
        if I7Holds(jobs[..i + 1], pods) {
          assert forall a :: 0 <= a < i ==> jobs[..i][a] == jobs[..i + 1][a];
        }
      }
      assert jobs[..i + 1][i] == jobs[i];
      if !Restored7(jobs[i]) {
        continue;
      }
      if jobs[i].job.blocked || jobs[i].job.misconfigured {
        violations := violations + [EvictionBypassedWhileBlocked(jobs[i].target)];
      }
      for k := 0 to |pods|
        invariant violations == [] <==>
          && I7Holds(jobs[..i], pods)
          && !jobs[i].job.blocked && !jobs[i].job.misconfigured
          && forall a :: 0 <= a < k ==> pods[a].uid != jobs[i].target || pods[a].terminating
      {
        if pods[k].uid == jobs[i].target && !pods[k].terminating {
          violations := violations + [OriginStillRunning(jobs[i].target)];
        }
      }
    }
    assert jobs[..|jobs|] == jobs;
  }

  /** The listed job is the state of some run, and the listed pods show its source only if it is there. */
  ghost predicate Observed(v: JobView, pods: seq<PodView>, log: seq<Entry>, i: nat) {
    && IsRun(log) && i < |log| && log[i].world.job == v.job
    && forall k :: 0 <= k < |pods| && pods[k].uid == v.target ==> log[i].world.source.Some?
  }

  /** I7 reports nothing on the jobs of any runs. */
  lemma I7OnEveryRun(jobs: seq<JobView>, pods: seq<PodView>, logs: seq<seq<Entry>>, at: seq<nat>)
    requires |logs| == |jobs| == |at|
    requires forall i :: 0 <= i < |jobs| ==> Observed(jobs[i], pods, logs[i], at[i])
    ensures I7Holds(jobs, pods)
  {
    forall i | 0 <= i < |jobs| && Restored7(jobs[i])
      ensures !jobs[i].job.blocked && !jobs[i].job.misconfigured
      ensures forall k :: 0 <= k < |pods| ==> pods[k].uid != jobs[i].target || pods[k].terminating
    {
      assert Observed(jobs[i], pods, logs[i], at[i]);
      RunKeeps(logs[i], at[i]);
    }
  }

  // ----- I12: a restore is claimed only on evidence -----

  function EffectiveEngine(v: JobView): string {
    if v.engine == "" then DEFAULT_ENGINE else v.engine
  }

  predicate HasConfirmedEvidence(v: JobView) {
    EffectiveEngine(v) != DEFAULT_ENGINE && v.job.restored.IsRestored? && v.job.restored.verified
      && !Blank(v.job.restored.evidence)
  }

  predicate ClaimsVerified(v: JobView) {
    (v.job.restored.IsRestored? && v.job.restored.verified) || v.job.reason.Verified?
  }

  /** A job that an older controller marked verified, before jobs named their engine. */
  predicate Grandfathered(v: JobView) {
    && v.job.phase.Succeeded? && v.job.restored.IsRestored? && v.job.restored.verified
    && v.engine == "" && !HasConfirmedEvidence(v)
  }

  /** The Ready condition says the same as the Restored condition. */
  predicate ReadyMatches(v: JobView) {
    v.job.restored.IsRestored? && v.job.reason == (if v.job.restored.verified then Verified else Inferred)
  }

  function I12Violations(v: JobView): seq<Violation> {
    if Grandfathered(v) then []
    else
      (if !v.job.phase.Succeeded? && v.job.restored.IsRestored? then [NonSucceededMarkedRestored(v.target)] else [])
      + if ClaimsVerified(v) then
          if HasConfirmedEvidence(v) && ReadyMatches(v) then [] else [UnconfirmedMarkedVerified(v.target)]
        else if v.job.phase.Succeeded? && !v.job.restored.NotConcluded? && !ReadyMatches(v)
          then [InvalidVerdict(v.target)]
        else []
  }

  function AllI12(jobs: seq<JobView>): seq<Violation> {
    if jobs == [] then [] else AllI12(jobs[..|jobs| - 1]) + I12Violations(jobs[|jobs| - 1])
  }

  lemma {:induction false} SilentMeans(jobs: seq<JobView>)
    ensures AllI12(jobs) == [] <==> forall i :: 0 <= i < |jobs| ==> I12Violations(jobs[i]) == []
  {
    hide I12Violations;
    if jobs != [] {
      var init, last := jobs[..|jobs| - 1], jobs[|jobs| - 1];
      SilentMeans(init);
      assert jobs == init + [last];
    }
  }

  method EvaluateI12(jobs: seq<JobView>) returns (violations: seq<Violation>)
    ensures violations == AllI12(jobs)
    ensures violations == [] <==> forall i :: 0 <= i < |jobs| ==> I12Violations(jobs[i]) == []
  {
    hide I12Violations;
    violations := [];
    for i := 0 to |jobs|
      invariant violations == AllI12(jobs[..i])
    {
      assert jobs[..i + 1][..i] == jobs[..i];
      var found := EvaluateJobI12(jobs[i]);
      violations := violations + found;
    }
    assert jobs[..|jobs|] == jobs;
    SilentMeans(jobs);
  }

  /** The body of the rule's loop. */
  method EvaluateJobI12(v: JobView) returns (violations: seq<Violation>)
    ensures violations == I12Violations(v)
  {
    hide HasConfirmedEvidence;
    violations := [];
    if Grandfathered(v) {
      return;
    }
    if !v.job.phase.Succeeded? && v.job.restored.IsRestored? {
      violations := violations + [NonSucceededMarkedRestored(v.target)];
    }
    if ClaimsVerified(v) {
      if !(HasConfirmedEvidence(v) && ReadyMatches(v)) {
        violations := violations + [UnconfirmedMarkedVerified(v.target)];
      }
      return;
    }
    if v.job.phase.Succeeded? && !v.job.restored.NotConcluded? && !ReadyMatches(v) {
      violations := violations + [InvalidVerdict(v.target)];
    }
  }

  /**
   On any state of any run, I12 reports something exactly when the engine confirmed the restore
   and the job names that engine, but the engine is the default one or gave blank evidence.
  */
  lemma I12OnEveryRun(v: JobView, log: seq<Entry>, i: nat)
    requires IsRun(log) && i < |log| && log[i].world.job == v.job
    ensures I12Violations(v) == [] <==>
      (v.job.restored.IsRestored? && v.job.restored.verified && v.engine != "" ==>
        v.engine != DEFAULT_ENGINE && !Blank(v.job.restored.evidence))
  {
    RunKeeps(log, i);
  }

  // ----- The eviction webhook -----

  datatype Answer = Allow | TryAgain | ReplaceJob

  /** The webhook's answer to an eviction of a pod that has a migration job. */
  function AnswerFor(j: Job): Answer {
    if j.phase.Evicting? || j.phase.Succeeded? then Allow
    else if j.phase.Failed? && j.reason.BudgetTimeout? then ReplaceJob
    else if ConcludedWithout(j.phase) then Allow
    else TryAgain
  }

  /**
   An eviction waits while the job is undecided, except in Evicting: while the source is there, that is
   exactly until the job reached Evicting.
  */
  lemma EvictionWaitsWhileUndecided(log: seq<Entry>, i: nat)
    requires IsRun(log) && i < |log|
    ensures var j := log[i].world.job;
      && (AnswerFor(j).TryAgain? <==> j.phase in {Unset, Pending, Snapshotting, Restoring})
      && (log[i].world.source.Some? ==>
            (AnswerFor(j).TryAgain? <==> j.evicting.None? && j.phase !in {Phase.Failed, SucceededWithoutRestore}))
      && (AnswerFor(j).ReplaceJob? <==> j.phase == Phase.Failed && j.reason == BudgetTimeout)
  {
    RunKeeps(log, i);
  }

  lemma UntouchedStays(w: World, act: Act)
    requires Untouched(w) && Terminal(w.job.phase) && Guard(w, act)
    ensures Untouched(Apply(w, act))
  {
    if act.OnJob? {
      match act.job
      case _ =>
    }
  }

  /** A job that the webhook replaces never touched its source, neither before nor after the version the webhook
    * read. */
  lemma {:induction false} ReplacedJobTouchedNothing(log: seq<Entry>, i: nat, k: nat)
    requires IsRun(log) && i < |log| && k < |log| && AnswerFor(log[i].world.job).ReplaceJob?
    ensures Untouched(log[k].world)
    decreases k
  {
    hide Guard, Apply;
    if k <= i {
      BudgetTimeoutTouchedNothing(log, i, k);
    } else {
      ReplacedJobTouchedNothing(log, i, k - 1);
      RunOneWay(log, i, k - 1);
      assert StepOk(log, k);
      UntouchedStays(log[k - 1].world, log[k].act);
    }
  }

  /**
   An eviction goes through only for a job that concluded without a restore, or once the
   checkpoint of the snapshot that the job goes on with was seen completed.
  */
  lemma EvictionWaitsForCheckpoint(log: seq<Entry>, i: nat) returns (k: nat)
    requires IsRun(log) && i < |log| && AnswerFor(log[i].world.job).Allow?
    ensures ConcludedWithout(log[i].world.job.phase) || (k <= i && CompletedAt(log, k, log[i].world.job.ref))
  {
    RunKeeps(log, i);
    k := i;
    if !ConcludedWithout(log[i].world.job.phase) {
      k := CheckpointWasSeen(log, i, log[i].world.job.ref);
    }
  }

  // ----- Where the promises end -----

  /** The source after the fence's two writes, each skipped if the pod that was read shows it done. */
  function FenceWrites(read: Source, now: Source): Source {
    var labelled := if read.labelled then now else now.(labelled := true);
    if read.held then labelled else labelled.(held := true)
  }

  predicate FenceTakes(read: Source, now: Source) {
    FenceWrites(read, now).labelled && FenceWrites(read, now).held
  }

  /**
   The fence takes whatever the kubelet does meanwhile, if and only if the source was not read
   with a Ready condition that an earlier fence left behind without its label.
  */
  lemma FenceTakesUnlessLeftover(read: Source)
    ensures (forall now :: SourceMoves(Some(read), Some(now)) ==> FenceTakes(read, now))
        <==> (read.held ==> read.labelled)
  {
    if read.held && !read.labelled {
      var now := read.(held := false);
      assert SourceMoves(Some(read), Some(now)) && !FenceTakes(read, now);
    }
  }
}
