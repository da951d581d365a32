/** What every run of the job's reconciler keeps, and what follows for whole runs. */
module JobSafety {
  import opened Api
  import opened RestoreVerdict
  import opened JobWorld

  // ----- The invariant -----

  /** The fence is complete while a baseline stands, and it is undone only after a conclusion. */
  predicate FenceOk(j: Job, source: Option<Source>) {
    && (j.fence.Unfenced? || j.fence.FenceKept? ==> ConcludedWithout(j.phase))
    && (j.baseline.Some? ==> !j.fence.NoFence?)
    && (j.baseline.Some? && j.fence.Fenced? && source.Some? ==> source.value.labelled && source.value.held)
    && (source.Some? && source.value.held && (j.fence.NoFence? || j.fence.Fenced?) ==> source.value.labelled)
    && (j.fence.Fenced? && (j.phase.Snapshotting? || j.phase.Evicting?) ==> j.finalizer)
  }

  /** Nothing that can start a checkpoint exists before the source is fenced and starts cold. */
  predicate TriggerOk(w: World) {
    && (w.trigger ==> w.triggered)
    && (w.snapshots != map[] ==> w.triggered)
    && (w.triggered && w.source.Some? ==> w.source.value.bypass && (Finished(w.source.value) || w.job.baseline.Some?))
  }

  /** The job never touched its source. */
  predicate Untouched(w: World) {
    !w.triggered && w.job.fence.NoFence? && w.job.baseline.None? && !w.job.finalizer
  }

  predicate PendingOk(w: World) {
    && (w.job.phase.Unset? || w.job.phase.Pending? ==> Untouched(w))
    && (w.job.reason.BudgetTimeout? ==> w.job.phase.Failed? && Untouched(w))
  }

  predicate PhaseOk(j: Job, source: Option<Source>) {
    && (j.phase.Evicting? || j.phase.Restoring? || j.phase.Succeeded? ==> j.ref != "" && j.evicting.Some?)
    && (j.evicting.Some? ==> Rank(j.phase) >= Rank(Evicting))
    && (j.phase.Restoring? ==> j.restoring.Some?)
    && (j.phase.Restoring? || j.phase.Succeeded? ==> source.None? && !j.blocked && !j.misconfigured)
    && (j.blocked || j.misconfigured ==> j.phase.Evicting? || ConcludedWithout(j.phase))
  }

  predicate VerdictOk(j: Job, r: Replacement) {
    && (j.restored.IsRestored? <==> j.phase.Succeeded?)
    && (j.reason.Verified? || j.reason.Inferred? ==> j.phase.Succeeded?)
    && (j.phase.Succeeded? ==> j.reason == (if j.restored.verified then Verified else Inferred))
    && (j.phase.Succeeded? ==> j.consumer.Some? && Released(r))
    && ReplacementOk(r)
  }

  /** A snapshot that the job goes on with was seen with a completed checkpoint. */
  predicate CheckpointOk(w: World) {
    w.job.phase.Evicting? || w.job.phase.Restoring? || w.job.phase.Succeeded? ==> w.job.ref in w.checkpointed
  }

  predicate Inv(w: World) {
    CheckpointOk(w) && FenceOk(w.job, w.source) && TriggerOk(w) && PendingOk(w) && PhaseOk(w.job, w.source)
      && VerdictOk(w.job, w.replacement)
  }

  // ----- Every write keeps it -----

  lemma EnvironmentKeeps(w: World, v: World)
    requires Inv(w) && Moves(w, v)
    ensures Inv(v)
  {
  }

  lemma JobWriteKeeps(w: World, write: JobWrite)
    requires Inv(w) && JobGuard(w, write)
    ensures Inv(Apply(w, OnJob(write)))
  {
    if write.ConcludeRestored? {
      SuccessKeeps(w, write);
    } else {
      hide Settled, Records, Detached, SafeToUnfence, Unnoticed, Retired, Convincing, ReplacementOk, Released;
    }
  }

  lemma SuccessKeeps(w: World, write: JobWrite)
    requires Inv(w) && JobGuard(w, write) && write.ConcludeRestored?
    ensures Inv(Apply(w, OnJob(write)))
  {
    hide Settled, Records, Detached, SafeToUnfence, Unnoticed, Retired;
    var at := write.evidence.at;
    assert VersionOk(w.replacement.versions[at]);
    assert Later(w.replacement.versions[at], w.replacement.versions[|w.replacement.versions| - 1]);
  }

  lemma ClusterWriteKeeps(w: World, write: ClusterWrite)
    requires Inv(w) && ClusterGuard(w, write)
    ensures Inv(Apply(w, OnCluster(write)))
  {
  }

  lemma ActKeeps(w: World, act: Act)
    requires Inv(w) && Guard(w, act)
    ensures Inv(Apply(w, act))
  {
    match act
    case Environment(to) => EnvironmentKeeps(w, to);
    case OnJob(write) => JobWriteKeeps(w, write);
    case OnCluster(write) => ClusterWriteKeeps(w, write);
  }

  lemma StartKeeps(w: World)
    requires Start(w)
    ensures Inv(w)
  {
  }

  /** Every state of every run satisfies the invariant. */
  lemma {:induction false} RunKeeps(log: seq<Entry>, i: nat)
    requires IsRun(log) && i < |log|
    ensures Inv(log[i].world)
    decreases i
  {
    hide Guard, Apply, Inv, Start;
    assert StepOk(log, i);
    if i > 0 {
      RunKeeps(log, i - 1);
      ActKeeps(log[i - 1].world, log[i].act);
    } else {
      StartKeeps(log[0].world);
    }
  }

  // ----- Who may change the job -----

  /** What decides a job's course is written by the reconciler alone. */
  predicate SameCourse(j: Job, k: Job) {
    && k.phase == j.phase && k.fence == j.fence && k.baseline == j.baseline && k.reason == j.reason
    && k.restored == j.restored && k.volumes == j.volumes && k.node == j.node
  }

  lemma OnlyJobWritesSteer(w: World, act: Act)
    requires Guard(w, act) && !act.OnJob?
    ensures SameCourse(w.job, Apply(w, act).job)
  {
  }

  lemma OneWriteConcludes(j: Job, now: Time, write: JobWrite)
    ensures var k := Updated(j, now, write);
      && (k.phase.Succeeded? && !j.phase.Succeeded? ==> write.ConcludeRestored?)
      && (k.reason.BudgetTimeout? && !j.reason.BudgetTimeout? ==> write == Fail(BudgetTimeout))
  {
  }

  lemma OneWriteSteers(j: Job, now: Time, write: JobWrite)
    ensures var k := Updated(j, now, write);
      && (k.baseline != j.baseline ==> write.RecordBaseline?)
      && (k.fence.Unfenced? && !j.fence.Unfenced? ==> write.Unfence?)
      && (k.phase.Restoring? && !j.phase.Restoring? ==> write.StartRestoring?)
  {
    match write
    case Unfence =>
    case RecordBaseline(_) =>
    case StartRestoring(_) =>
    case _ =>
  }

  // ----- Growing a run -----

  lemma RunExtends(log: seq<Entry>, e: Entry)
    requires IsRun(log) && Guard(log[|log| - 1].world, e.act) && e.world == Apply(log[|log| - 1].world, e.act)
    ensures IsRun(log + [e])
  {
    var t := log + [e];
    forall i | 0 <= i < |t| ensures StepOk(t, i) {
      if i < |log| {
        assert StepOk(log, i);
      }
    }
  }

  // ----- What only moves one way -----

  /** No fence, then fenced, then unfenced or kept, then kept for good. */
  predicate FenceForward(f: Fence, g: Fence) {
    f == g || f.NoFence? || (f.Fenced? && !g.NoFence?) || (f.Unfenced? && g.FenceKept?)
  }

  predicate OneWay(w: World, v: World) {
    && Forward(w.job.phase, v.job.phase)
    && FenceForward(w.job.fence, v.job.fence)
    && (w.job.baseline.Some? ==> v.job.baseline == w.job.baseline)
    && (w.triggered ==> v.triggered)
    && (w.source.None? ==> v.source.None?)
  }

  lemma JobWriteOneWay(w: World, write: JobWrite)
    requires JobGuard(w, write)
    ensures OneWay(w, Apply(w, OnJob(write)))
  {
    hide Settled, Records, Detached, SafeToUnfence, Unnoticed, Retired, Convincing;
  }

  lemma ActOneWay(w: World, act: Act)
    requires Guard(w, act)
    ensures OneWay(w, Apply(w, act))
  {
    match act
    case Environment(to) =>
    case OnJob(write) => JobWriteOneWay(w, write);
    case OnCluster(write) =>
  }

  /** Phases only move forward, terminal phases are absorbing, and the fence's reasons are acyclic. */
  lemma {:induction false} RunOneWay(log: seq<Entry>, i: nat, k: nat)
    requires IsRun(log) && i <= k < |log|
    ensures OneWay(log[i].world, log[k].world)
    decreases k
  {
    hide Guard, Apply;
    if i < k {
      RunOneWay(log, i, k - 1);
      assert StepOk(log, k);
      ActOneWay(log[k - 1].world, log[k].act);
    }
  }

  /** A kept fence is kept for good, and a concluded job never changes its phase. */
  lemma ConclusionsAreFinal(log: seq<Entry>, i: nat, k: nat)
    requires IsRun(log) && i <= k < |log|
    ensures log[i].world.job.fence.FenceKept? ==> log[k].world.job.fence.FenceKept?
    ensures log[i].world.job.phase in {Succeeded, SucceededWithoutRestore, Phase.Failed} ==>
      log[k].world.job.phase == log[i].world.job.phase
  {
    RunOneWay(log, i, k);
  }

  // ----- The fence comes before the trigger -----

  /** Finalizer, condition, label and Ready=False are all in place. */
  predicate FenceComplete(w: World) {
    w.job.finalizer && w.job.fence.Fenced? && (w.source.Some? ==> w.source.value.labelled && w.source.value.held)
  }

  predicate RecordsBaseline(act: Act) {
    act.OnJob? && act.job.RecordBaseline?
  }

  /** Only one write records a baseline, and it finds the fence complete and the source read. */
  lemma BaselineNeedsFence(w: World, act: Act)
    requires Guard(w, act) && w.job.baseline.None? && Apply(w, act).job.baseline.Some?
    ensures RecordsBaseline(act) && FenceComplete(w)
    ensures w.read.Some? && Records(Apply(w, act).job.baseline.value, w.read.value)
  {
    if act.OnJob? {
      OneWriteSteers(w.job, w.now, act.job);
      OneWriteConcludes(w.job, w.now, act.job);
    } else {
      OnlyJobWritesSteer(w, act);
    }
  }

  /** The write that recorded the baseline, and the complete fence it found. */
  lemma {:induction false} BaselineOrigin(log: seq<Entry>, i: nat) returns (k: nat)
    requires IsRun(log) && i < |log| && log[i].world.job.baseline.Some?
    ensures 0 < k <= i && RecordsBaseline(log[k].act) && FenceComplete(log[k - 1].world)
    ensures log[k - 1].world.read.Some? && Records(log[i].world.job.baseline.value, log[k - 1].world.read.value)
    decreases i
  {
    hide Guard, Apply, Start, OneWay, Records;
    k := i;
    assert StepOk(log, i);
    if i == 0 {
      StartHasNoBaseline(log[0].world);
    } else {
      if log[i - 1].world.job.baseline.Some? {
        k := BaselineOrigin(log, i - 1);
        BaselineStays(log, i);
      } else {
        BaselineNeedsFence(log[i - 1].world, log[i].act);
      }
    }
  }

  lemma StartHasNoBaseline(w: World)
    requires Start(w)
    ensures w.job.baseline.None?
  {
  }

  lemma BaselineStays(log: seq<Entry>, i: nat)
    requires IsRun(log) && 0 < i < |log| && log[i - 1].world.job.baseline.Some?
    ensures log[i].world.job.baseline == log[i - 1].world.job.baseline
  {
    hide Guard, Apply;
    RunOneWay(log, i - 1, i);
  }

  lemma ReadComesFromSource(w: World, act: Act)
    requires Guard(w, act) && Apply(w, act).read.Some?
    ensures Apply(w, act).read == if act == OnCluster(ReadSource) then w.source else w.read
  {
  }

  /** What was read of the source was the source at some time. */
  lemma {:induction false} ReadWasSource(log: seq<Entry>, i: nat) returns (k: nat)
    requires IsRun(log) && i < |log| && log[i].world.read.Some?
    ensures k <= i && log[k].world.source == log[i].world.read
    decreases i
  {
    hide Guard, Apply;
    k := i;
    assert StepOk(log, i);
    if i > 0 {
      ReadComesFromSource(log[i - 1].world, log[i].act);
      if log[i].act == OnCluster(ReadSource) {
        k := i - 1;
      } else {
        k := ReadWasSource(log, i - 1);
      }
    } else {
      StartReadNothing(log[0].world);
    }
  }

  lemma StartReadNothing(w: World)
    requires Start(w)
    ensures w.read.None?
  {
  }

  /** A baseline is that of the source itself, before its fence was complete: all containers, and no others. */
  lemma BaselineIsOfSource(log: seq<Entry>, i: nat) returns (k: nat)
    requires IsRun(log) && i < |log| && log[i].world.job.baseline.Some?
    ensures k < i && log[k].world.source.Some?
    ensures Records(log[i].world.job.baseline.value, log[k].world.source.value)
  {
    var recorded := BaselineOrigin(log, i);
    k := ReadWasSource(log, recorded - 1);
  }

  /**
   In every state of every run, however often passes died, a trigger of this job for a source
   that still runs implies a recorded baseline, and the baseline was recorded after finalizer,
   condition, label and Ready=False were all written.
  */
  lemma TriggerFollowsFence(log: seq<Entry>, i: nat) returns (k: nat)
    requires IsRun(log) && i < |log|
    requires log[i].world.trigger && log[i].world.source.Some?
    requires log[i].world.source.value.phase in {PodPending, PodRunning}
    ensures 0 < k <= i && RecordsBaseline(log[k].act) && FenceComplete(log[k - 1].world)
    ensures log[i].world.job.baseline.Some?
    ensures log[i].world.job.phase.Snapshotting? || log[i].world.job.phase.Evicting? ==> FenceComplete(log[i].world)
  {
    RunKeeps(log, i);
    k := BaselineOrigin(log, i);
  }

  /** A job that holds its source fenced before or during the migration cannot vanish. */
  lemma FencedJobSurvivesDeletion(log: seq<Entry>, i: nat)
    requires IsRun(log) && i < |log| && log[i].world.job.fence.Fenced?
    requires log[i].world.job.phase.Snapshotting? || log[i].world.job.phase.Evicting?
    ensures log[i].world.job.deleting ==> log[i].world.job.finalizer
  {
    RunKeeps(log, i);
  }

  /** Once this job created a trigger, its source starts cold or is gone, so it never restarts from the snapshot. */
  lemma SourceStartsCold(log: seq<Entry>, i: nat)
    requires IsRun(log) && i < |log| && (log[i].world.trigger || log[i].world.snapshots != map[])
    ensures log[i].world.source.Some? ==> log[i].world.source.value.bypass
  {
    RunKeeps(log, i);
  }

  // ----- The checkpoint -----

  predicate CompletedAt(log: seq<Entry>, k: nat, ref: string) {
    k < |log| && ref in log[k].world.snapshots && log[k].world.snapshots[ref].checkpoint.Completed?
  }

  lemma OnlyReadsCheckpoint(w: World, act: Act, ref: string)
    requires Guard(w, act) && ref !in w.checkpointed && ref in Apply(w, act).checkpointed
    ensures ref in w.snapshots && w.snapshots[ref].checkpoint.Completed?
  {
  }

  /** Where a snapshot's checkpoint was seen completed. */
  lemma {:induction false} CheckpointWasSeen(log: seq<Entry>, i: nat, ref: string) returns (k: nat)
    requires IsRun(log) && i < |log| && ref in log[i].world.checkpointed
    ensures k <= i && CompletedAt(log, k, ref)
    decreases i
  {
    hide Guard, Apply;
    assert StepOk(log, i);
    k := i;
    if i > 0 {
      if ref in log[i - 1].world.checkpointed {
        k := CheckpointWasSeen(log, i - 1, ref);
      } else {
        OnlyReadsCheckpoint(log[i - 1].world, log[i].act, ref);
        k := i - 1;
      }
    }
  }

  // ----- Returning to service -----

  /** A deletion stands, with its time, and so does a conclusion; the clock only advances. */
  predicate DeletionStands(w: World, v: World) {
    && w.now <= v.now && v.unwedge == w.unwedge
    && (w.job.deleting ==> v.job.deleting && v.job.deletedAt == w.job.deletedAt)
    && (Terminal(w.job.phase) ==> Terminal(v.job.phase) && v.job.completed == w.job.completed)
  }

  lemma ActKeepsDeletion(w: World, act: Act)
    requires Guard(w, act)
    ensures DeletionStands(w, Apply(w, act))
  {
    match act
    case Environment(_) =>
    case OnJob(write) => JobWriteKeepsDeletion(w, write);
    case OnCluster(_) =>
  }

  lemma JobWriteKeepsDeletion(w: World, write: JobWrite)
    requires JobGuard(w, write)
    ensures DeletionStands(w, Apply(w, OnJob(write)))
  {
    hide Settled, Convincing, SafeToUnfence, Records, Detached;
  }

  lemma {:induction false} RunKeepsDeletion(log: seq<Entry>, i: nat, k: nat)
    requires IsRun(log) && i <= k < |log|
    ensures DeletionStands(log[i].world, log[k].world)
    decreases k
  {
    hide Guard, Apply;
    if i < k {
      RunKeepsDeletion(log, i, k - 1);
      assert StepOk(log, k);
      ActKeepsDeletion(log[k - 1].world, log[k].act);
    }
  }

  /**
   A finalizer goes only from a job that owes its source nothing more: the source is gone or
   terminating, was never fenced or is back in service, or is kept fenced with no controller to replace
   it; or the job was deleted, and both that and its completion are as long ago as the unwedge timeout.
  */
  lemma FinalizerGoesLast(log: seq<Entry>, i: nat)
    requires IsRun(log) && 0 < i < |log| && log[i - 1].world.job.finalizer && !log[i].world.job.finalizer
    ensures log[i - 1].world.job.phase.Restoring? || Terminal(log[i - 1].world.job.phase)
    ensures var w := log[i - 1].world;
      || w.source.None? || w.source.value.terminating
      || w.job.fence == NoFence || w.job.fence == Unfenced
      || (w.job.fence == FenceKept && !w.source.value.owned)
      || (w.job.deleting && w.now >= w.job.deletedAt + w.unwedge
          && (w.job.completed.Some? ==> w.now >= w.job.completed.value + w.unwedge))
  {
    assert StepOk(log, i);
    FinalizerNeedsSettlement(log[i - 1].world, log[i].act);
  }

  /** The finalizer goes at entry i, from a job that owes its source nothing more. */
  predicate LetGoAt(log: seq<Entry>, i: nat) {
    && 0 < i < |log| && log[i - 1].world.job.finalizer && !log[i].world.job.finalizer
    && Settled(log[i - 1].world)
  }

  /** Where a finalizer that is no longer there went. */
  lemma {:induction false} FinalizerWasLetGo(log: seq<Entry>, a: nat, b: nat) returns (i: nat)
    requires IsRun(log) && a <= b < |log| && log[a].world.job.finalizer && !log[b].world.job.finalizer
    ensures a < i <= b && LetGoAt(log, i)
    decreases b
  {
    hide Settled, Guard, Apply;
    if log[b - 1].world.job.finalizer {
      i := b;
      assert StepOk(log, b);
      FinalizerNeedsSettlement(log[b - 1].world, log[b].act);
    } else {
      i := FinalizerWasLetGo(log, a, b - 1);
    }
  }

  lemma FinalizerNeedsSettlement(w: World, act: Act)
    requires Guard(w, act) && w.job.finalizer && !Apply(w, act).job.finalizer
    ensures Settled(w) && (w.job.phase.Restoring? || Terminal(w.job.phase))
  {
    hide Settled;
    if act.OnJob? {
      OneWriteUnpins(w.job, w.now, act.job);
    } else {
      OnlyJobWritesUnpin(w, act);
    }
  }

  lemma OnlyJobWritesUnpin(w: World, act: Act)
    requires Guard(w, act) && !act.OnJob?
    ensures Apply(w, act).job.finalizer == w.job.finalizer
  {
  }

  lemma OneWriteUnpins(j: Job, now: Time, write: JobWrite)
    requires j.finalizer && !Updated(j, now, write).finalizer
    ensures write.RemoveFinalizer?
  {
    match write
    case RemoveFinalizer =>
    case _ =>
  }

  /** The label goes only after SourceFenced=False was persisted. */
  lemma LabelOutlivesFence(log: seq<Entry>, i: nat)
    requires IsRun(log) && 0 < i < |log|
    requires log[i - 1].world.source.Some? && log[i - 1].world.source.value.labelled
    requires log[i].world.source.Some? && !log[i].world.source.value.labelled
    ensures log[i].act == OnCluster(RemoveLabel) && log[i - 1].world.job.fence.Unfenced?
  {
    assert StepOk(log, i);
  }

  /** No checkpoint of this job is complete, and none can complete any more. */
  predicate CheckpointDead(w: World) {
    !w.trigger && forall n :: n in w.snapshots ==> w.snapshots[n].checkpoint == Broken
  }

  lemma EntryToUnfenced(w: World, act: Act)
    requires Guard(w, act) && !w.job.fence.Unfenced? && Apply(w, act).job.fence.Unfenced?
    ensures act == OnJob(Unfence)
  {
    if act.OnJob? {
      OneWriteSteers(w.job, w.now, act.job);
      OneWriteConcludes(w.job, w.now, act.job);
    } else {
      OnlyJobWritesSteer(w, act);
    }
  }

  /** The pod runs, and every container it had is the same one, never restarted. */
  predicate StillRuns(was: Source, is_: Source) {
    && !is_.terminating && is_.phase == PodRunning
    && forall n :: n in was.containers ==>
      && n in is_.containers
      && is_.containers[n].id == was.containers[n].id
      && is_.containers[n].restarts == was.containers[n].restarts
      && is_.containers[n].running
  }

  /**
   After a failure with a baseline recorded, the source returns to service only if the trigger is
   gone, every snapshot left has failed for good, the job never reached Evicting, and a live read
   since the failure showed every container that the source had before it was fenced unchanged and
   running.
  */
  lemma UnfenceIsSafe(log: seq<Entry>, i: nat) returns (k: nat)
    requires IsRun(log) && 0 < i < |log|
    requires !log[i - 1].world.job.fence.Unfenced? && log[i].world.job.fence.Unfenced?
    ensures log[i].world.job.phase in {Phase.Failed, SucceededWithoutRestore}
    ensures log[i].world.job.baseline.Some? ==>
      && CheckpointDead(log[i].world)
      && log[i].world.job.evicting.None?
      && log[i].world.read.Some?
      && Unchanged(log[i].world.job.baseline.value, log[i].world.read.value)
      && k < i && log[k].world.source.Some?
      && StillRuns(log[k].world.source.value, log[i].world.read.value)
  {
    assert StepOk(log, i);
    k := 0;
    EntryToUnfenced(log[i - 1].world, log[i].act);
    if log[i].world.job.baseline.Some? {
      k := BaselineIsOfSource(log, i);
      UnchangedStillRuns(log[i].world.job.baseline.value, log[k].world.source.value, log[i].world.read.value);
    }
  }

  /** The comparison with a pod's baseline is that with the pod's containers, provided it had any, with IDs. */
  lemma UnchangedStillRuns(b: Baseline, was: Source, is_: Source)
    requires Records(b, was)
    ensures Unchanged(b, is_) <==>
      && StillRuns(was, is_) && was.containers != map[]
      && forall n :: n in was.containers ==> was.containers[n].id != ""
  {
    if Unchanged(b, is_) {
      forall n | n in was.containers ensures n in b && SameContainer(is_, n, b[n]) {
      }
    }
    assert b == map[] <==> was.containers == map[];
  }

  lemma ReadComesFromRead(w: World, act: Act)
    requires Guard(w, act) && act != OnCluster(ReadSource) && Apply(w, act).read.Some?
    ensures Apply(w, act).read == w.read
        && (ConcludedWithout(Apply(w, act).job.phase) ==> ConcludedWithout(w.job.phase))
  {
  }

  /** What the unfencing pass relies on was the source itself, at some time since the conclusion. */
  lemma {:induction false} ReadIsLive(log: seq<Entry>, i: nat) returns (k: nat)
    requires IsRun(log) && i < |log| && log[i].world.read.Some? && ConcludedWithout(log[i].world.job.phase)
    ensures k <= i && log[k].world.source == log[i].world.read && ConcludedWithout(log[k].world.job.phase)
    decreases i
  {
    k := i;
    assert StepOk(log, i);
    if i > 0 {
      if log[i].act != OnCluster(ReadSource) {
        ReadComesFromRead(log[i - 1].world, log[i].act);
        k := ReadIsLive(log, i - 1);
      }
    }
  }

  lemma DeadStaysDead(w: World, act: Act)
    requires CheckpointDead(w) && Terminal(w.job.phase) && Guard(w, act)
    ensures CheckpointDead(Apply(w, act))
  {
  }

  /** A source that returned to service is never checkpointed by this job afterwards. */
  lemma {:induction false} NeverCheckpointedAfterUnfence(log: seq<Entry>, i: nat, k: nat)
    requires IsRun(log) && 0 < i <= k < |log|
    requires !log[i - 1].world.job.fence.Unfenced? && log[i].world.job.fence.Unfenced?
        && log[i].world.job.baseline.Some?
    ensures CheckpointDead(log[k].world)
    decreases k
  {
    hide Guard, Apply;
    var _ := UnfenceIsSafe(log, i);
    if i < k {
      NeverCheckpointedAfterUnfence(log, i, k - 1);
      RunOneWay(log, i, k - 1);
      assert StepOk(log, k);
      DeadStaysDead(log[k - 1].world, log[k].act);
    }
  }

  // ----- Restoring -----

  lemma EntryToRestoring(w: World, act: Act)
    requires Guard(w, act) && !w.job.phase.Restoring? && Apply(w, act).job.phase.Restoring?
    ensures act.OnJob? && act.job.StartRestoring? && w.job.phase.Evicting?
    ensures var j := Apply(w, act).job; Detached(j.volumes, j.node, act.job.attachments)
  {
    if act.OnJob? {
      OneWriteSteers(w.job, w.now, act.job);
      OneWriteConcludes(w.job, w.now, act.job);
    } else {
      OnlyJobWritesSteer(w, act);
    }
  }

  /**
   Every entry into Restoring happens with a snapshot recorded, the source gone, no listed volume
   attached to the origin node, and no eviction blockage; and the source never comes back.
  */
  lemma EntersRestoring(log: seq<Entry>, i: nat, k: nat)
    requires IsRun(log) && 0 < i <= k < |log|
    requires !log[i - 1].world.job.phase.Restoring? && log[i].world.job.phase.Restoring?
    ensures log[i].act.OnJob? && log[i].act.job.StartRestoring? && log[i - 1].world.job.phase.Evicting?
    ensures log[i].world.job.ref != "" && !log[i].world.job.blocked && !log[i].world.job.misconfigured
    ensures forall a :: a in log[i].act.job.attachments && a.attached && a.volume != "" ==>
      || a.volume !in log[i].world.job.volumes
      || (log[i].world.job.node != "" && a.node != log[i].world.job.node)
    ensures log[k].world.source.None?
  {
    assert StepOk(log, i);
    EntryToRestoring(log[i - 1].world, log[i].act);
    RunKeeps(log, i);
    RunOneWay(log, i, k);
    hide Guard, Apply;
  }

  lemma EntryToSucceeded(w: World, act: Act)
    requires Guard(w, act) && !w.job.phase.Succeeded? && Apply(w, act).job.phase.Succeeded?
    ensures act.OnJob? && act.job.ConcludeRestored? && Convincing(w, act.job.evidence)
  {
    if act.OnJob? {
      OneWriteSteers(w.job, w.now, act.job);
      OneWriteConcludes(w.job, w.now, act.job);
    } else {
      OnlyJobWritesSteer(w, act);
    }
  }

  lemma SucceededKeepsVerdict(w: World, act: Act)
    requires Guard(w, act) && w.job.phase.Succeeded?
    ensures Apply(w, act).job.restored == w.job.restored
  {
    if act.OnJob? {
      SucceededIsDone(w, act.job);
    } else {
      OnlyJobWritesSteer(w, act);
    }
  }

  /** A job that succeeded has only its finalizer left to lose. */
  lemma SucceededIsDone(w: World, write: JobWrite)
    requires JobGuard(w, write) && w.job.phase.Succeeded?
    ensures write.RemoveFinalizer?
  {
    hide Settled, Convincing, SafeToUnfence, Records, Detached, Unnoticed, Retired;
  }

  predicate ConcludedAt(log: seq<Entry>, k: nat) {
    0 < k < |log| && log[k].act.OnJob? && log[k].act.job.ConcludeRestored?
      && Convincing(log[k - 1].world, log[k].act.job.evidence)
  }

  /**
   Every Succeeded job was concluded by a pass that saw the recorded replacement Ready, without a
   counted restart, and with the verdict Restored, confirmed or after the whole window; and the
   job claims a verified restore only if the engine confirmed it.
  */
  lemma {:induction false} SucceedsOnEvidence(log: seq<Entry>, i: nat) returns (k: nat)
    requires IsRun(log) && i < |log| && log[i].world.job.phase.Succeeded?
    ensures k <= i && ConcludedAt(log, k)
    ensures var w, ev := log[k - 1].world, log[k].act.job.evidence;
      && w.job.consumer.Some? && ev.at < |w.replacement.versions| && ev.now <= w.now
      && ev.verdict.outcome == Outcome.Restored
      && var pod := w.replacement.versions[ev.at];
         && pod.readiness.Ready? && pod.restarts == 0
         && (|| ev.verdict.confirmed || w.window <= 0
             || ev.now >= EffectiveReadySince(pod.readiness, Anchored(w), ev.now).value + w.window)
    ensures log[i].world.job.restored ==
        IsRestored(log[k].act.job.evidence.verdict.confirmed, log[k].act.job.evidence.verdict.evidence)
    ensures log[i].world.job.reason.Verified? <==> log[k].act.job.evidence.verdict.confirmed
    decreases i
  {
    k := i;
    assert StepOk(log, i);
    if i > 0 {
      RunKeeps(log, i);
      if log[i - 1].world.job.phase.Succeeded? {
        SucceededKeepsVerdict(log[i - 1].world, log[i].act);
        k := SucceedsOnEvidence(log, i - 1);
      } else {
        EntryToSucceeded(log[i - 1].world, log[i].act);
      }
    }
  }

  /** Restored=True appears exactly on Succeeded jobs. */
  lemma RestoredOnlyWhenSucceeded(log: seq<Entry>, i: nat)
    requires IsRun(log) && i < |log|
    ensures log[i].world.job.restored.IsRestored? <==> log[i].world.job.phase.Succeeded?
  {
    RunKeeps(log, i);
  }

  // ----- Retiring the restore order -----

  /** The cached read behind conclusion k missed the order. */
  predicate MissedAt(log: seq<Entry>, k: nat)
    requires ConcludedAt(log, k)
  {
    var w := log[k - 1].world;
    w.looked <= |w.replacement.versions| && Unnoticed(w.replacement, log[k].act.job.evidence.at, w.looked)
  }

  lemma ConclusionNeedsRetirement(log: seq<Entry>, k: nat)
    requires IsRun(log) && ConcludedAt(log, k)
    ensures log[k - 1].world.job.phase.Restoring? && log[k].world.job.phase.Succeeded?
    ensures log[k].world.replacement == log[k - 1].world.replacement
    ensures Retired(log[k - 1].world.replacement) || MissedAt(log, k)
    ensures MissedAt(log, k) ==> log[k].act.job.evidence.ceiling
  {
    assert StepOk(log, k);
  }

  lemma RetiredStays(w: World, act: Act)
    requires Inv(w) && w.job.phase.Succeeded? && Retired(w.replacement) && Guard(w, act)
    ensures Retired(Apply(w, act).replacement)
  {
    if act.Environment? {
      var r, t := w.replacement, act.to.replacement;
      if !r.gone {
        assert Later(t.versions[|r.versions| - 1], t.versions[|t.versions| - 1]);
      }
    }
  }

  /** Before Succeeded is persisted the restore order is retired, and it stays retired, unless the cached read
    * missed it. */
  lemma {:induction false} OrderRetiredBeforeSuccess(log: seq<Entry>, k: nat, i: nat)
    requires IsRun(log) && k <= i < |log| && ConcludedAt(log, k) && !MissedAt(log, k)
    ensures Retired(log[k - 1].world.replacement) && Retired(log[i].world.replacement)
    ensures var r := log[i].world.replacement;
      r.gone || (r.versions != [] && r.versions[|r.versions| - 1].order == Bypassed)
    decreases i
  {
    hide Guard, Apply;
    ConclusionNeedsRetirement(log, k);
    if k < i {
      OrderRetiredBeforeSuccess(log, k, i - 1);
      RunOneWay(log, k, i - 1);
      RunKeeps(log, i - 1);
      assert StepOk(log, i);
      RetiredStays(log[i - 1].world, log[i].act);
    }
  }

  /** Off the restore ceiling the cached read never misses the order. */
  lemma OffTheCeilingOrderIsRetired(log: seq<Entry>, k: nat, i: nat)
    requires IsRun(log) && k <= i < |log| && ConcludedAt(log, k) && !log[k].act.job.evidence.ceiling
    ensures var r := log[i].world.replacement;
      r.gone || (r.versions != [] && r.versions[|r.versions| - 1].order == Bypassed)
  {
    ConclusionNeedsRetirement(log, k);
    OrderRetiredBeforeSuccess(log, k, i);
  }

  /** Since the cached read at r, nobody looked again, and the environment neither deleted the pod nor retired its
    * order. */
  predicate OnlyThePassActs(log: seq<Entry>, r: nat, e: nat) {
    forall i :: r < i <= e < |log| ==>
      && log[i].act != OnCluster(ReadCached)
      && (log[i].act.Environment? && Retired(log[i].world.replacement) ==> Retired(log[i - 1].world.replacement))
  }

  /** What the pass knows stays true: the consumer is settled, its versions only grow, and the cached read stands. */
  predicate SameLook(w: World, v: World) {
    Released(v.replacement) && v.looked == w.looked && w.replacement.versions <= v.replacement.versions
  }

  lemma LookStays(w: World, act: Act)
    requires Inv(w) && Guard(w, act) && Released(w.replacement) && act != OnCluster(ReadCached)
    ensures SameLook(w, Apply(w, act))
  {
    if act.Environment? {
      var r, t := w.replacement, act.to.replacement;
      assert Later(t.versions[|r.versions| - 1], t.versions[|t.versions| - 1]);
    }
  }

  /** The version of the replacement that the cache showed carries no restore order. */
  predicate SawNoOrder(w: World)
    requires w.looked <= |w.replacement.versions|
  {
    w.looked == 0 || !w.replacement.versions[w.looked - 1].order.RestoreOrder?
  }

  /** A pass whose cached read shows no order writes nothing on the replacement. */
  lemma UnnoticedIsNotRetired(w: World, act: Act)
    requires Guard(w, act) && !act.Environment? && !w.job.phase.Failed? && !Retired(w.replacement)
    requires 0 < w.looked <= |w.replacement.versions| ==> !w.replacement.versions[w.looked - 1].order.RestoreOrder?
    ensures !Retired(Apply(w, act).replacement)
  {
  }

  lemma {:induction false} OrderOutlivesThePass(log: seq<Entry>, r: nat, e: nat)
    requires IsRun(log) && r <= e < |log| && log[r].act == OnCluster(ReadCached) && OnlyThePassActs(log, r, e)
    requires !Retired(log[r].world.replacement) && Released(log[r].world.replacement) && !log[e].world.job.phase.Failed?
    requires log[r].world.looked <= |log[r].world.replacement.versions|
    ensures SameLook(log[r].world, log[e].world)
    ensures SawNoOrder(log[r].world) ==> !Retired(log[e].world.replacement)
    decreases e
  {
    hide Guard, Apply;
    if r < e {
      RunOneWay(log, e - 1, e);
      OrderOutlivesThePass(log, r, e - 1);
      RunKeeps(log, e - 1);
      assert StepOk(log, e);
      LookStays(log[e - 1].world, log[e].act);
      if !log[e].act.Environment? && !Retired(log[e - 1].world.replacement) && SawNoOrder(log[r].world) {
        UnnoticedIsNotRetired(log[e - 1].world, log[e].act);
      }
    }
  }

  /**
   Exactly when Succeeded leaves the order standing: with the order in place at the cached read,
   and nobody else retiring it or deleting the pod, the job succeeds over a standing order if and
   only if the cached version is older than the one the pass relied on and does not carry the order.
  */
  lemma OrderStandsIffUnnoticed(log: seq<Entry>, r: nat, k: nat)
    requires IsRun(log) && r < k && ConcludedAt(log, k) && log[r].act == OnCluster(ReadCached)
    requires OnlyThePassActs(log, r, k - 1)
    requires !Retired(log[r].world.replacement) && Released(log[r].world.replacement)
    requires log[r].world.looked <= |log[r].world.replacement.versions|
    ensures !Retired(log[k].world.replacement) <==>
      Unnoticed(log[r].world.replacement, log[k].act.job.evidence.at, log[r].world.looked)
  {
    ConclusionNeedsRetirement(log, k);
    OrderOutlivesThePass(log, r, k - 1);
  }

  // ----- A job that ran out of budget -----

  lemma BudgetTimeoutComesFromPending(w: World, act: Act)
    requires Guard(w, act) && !w.job.reason.BudgetTimeout? && Apply(w, act).job.reason.BudgetTimeout?
    ensures w.job.phase.Pending? && w.job.budget.Refused?
  {
    if act.OnJob? {
      OneWriteSteers(w.job, w.now, act.job);
      OneWriteConcludes(w.job, w.now, act.job);
    } else {
      OnlyJobWritesSteer(w, act);
    }
  }

  /** A job that timed out on its disruption budget never fenced its source and never created a trigger. */
  lemma {:induction false} BudgetTimeoutTouchedNothing(log: seq<Entry>, i: nat, k: nat)
    requires IsRun(log) && k <= i < |log| && log[i].world.job.reason.BudgetTimeout?
    ensures Untouched(log[k].world)
    decreases i
  {
    RunKeeps(log, k);
    if k < i {
      if log[i - 1].world.job.reason.BudgetTimeout? {
        BudgetTimeoutTouchedNothing(log, i - 1, k);
      } else {
        assert StepOk(log, i);
        BudgetTimeoutComesFromPending(log[i - 1].world, log[i].act);
        RunOneWay(log, k, i - 1);
      }
    }
  }
}
