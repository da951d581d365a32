/**
 The job's reconciler.  Every method makes its API calls in the source's order.  Before each call
 the environment may move, and the call may fail; the pass then ends where it stands, as it
 does when the process dies.  `Do` records a write, and demands its guard.
*/
module JobReconciler {
  import opened Api
  import opened RestoreVerdict
  import opened JobWorld
  import opened JobSafety

  /** `fenceSettleTimeout`, in seconds. */
  const FENCE_SETTLE_TIMEOUT: Time := 30

  /** `restoreTimeout`, in seconds. */
  const RESTORE_TIMEOUT: Time := 300

  /** `MaxMigrationTimeout`, in seconds. */
  const MAX_MIGRATION_TIMEOUT: Time := 7200

  // ----- What the environment leaves alone -----

  /** A job up to what the gate and its users write. */
  predicate SameJob(j: Job, k: Job) {
    && k == j.(deleting := k.deleting, deletedAt := k.deletedAt, consumer := k.consumer, gateReleased := k.gateReleased)
    && (j.deleting ==> k.deleting && k.deletedAt == j.deletedAt)
  }

  /** The environment changed at most what a user, the kubelet, the engine or the gate may change. */
  predicate Calm(w: World, v: World) {
    && w.now <= v.now && v.window == w.window && v.unwedge == w.unwedge && v.read == w.read
    && v.checkpointed == w.checkpointed && v.looked == w.looked
    && SameJob(w.job, v.job)
    && SourceMoves(w.source, v.source)
    && (v.trigger ==> w.trigger)
  }

  /** The job and its consumer are the same, and the consumer's versions only grew. */
  predicate Concerns(w: World, v: World) {
    && w.now <= v.now && v.window == w.window && SameJob(w.job, v.job) && v.job.consumer == w.job.consumer
    && w.replacement.versions <= v.replacement.versions
    && w.replacement.seen <= v.replacement.seen
  }

  lemma CalmReflexive(w: World)
    ensures Calm(w, w)
  {
  }

  lemma CalmTwice(w: World, v: World, u: World)
    requires Calm(w, v) && Calm(v, u)
    ensures Calm(w, u)
  {
  }

  lemma RetirementLasts(r: Replacement, t: Replacement)
    requires ReplacementOk(r) && Grown(r, t) && Retired(r)
    ensures Retired(t)
  {
  }

  /** What fencing leaves alone. */
  predicate Quietly(w: World, v: World) {
    && v.now == w.now && v.trigger == w.trigger && v.snapshots == w.snapshots && v.checkpointed == w.checkpointed
    && v.job.deleting == w.job.deleting && v.job.phase == w.job.phase && v.job.ref == w.job.ref
    && (w.job.fence.Fenced? ==> v.job.fence == w.job.fence && v.job.fencedAt == w.job.fencedAt)
  }

  /** What creating the trigger leaves alone. */
  predicate KeptByTrigger(w: World, v: World) {
    v.now == w.now && v.snapshots == w.snapshots && v.checkpointed == w.checkpointed
    && (w.source.None? ==> v.source.None?)
  }

  /** The source is the same pod under the same controller, or gone. */
  predicate SameOwner(p: Option<Source>, q: Option<Source>) {
    q.Some? ==> p.Some? && q.value.owned == p.value.owned
  }

  lemma SourceMovesOn(p: Option<Source>)
    ensures SourceMoves(p, p)
  {
  }

  lemma SourceMovesTwice(p: Option<Source>, q: Option<Source>, r: Option<Source>)
    requires SourceMoves(p, q) && SourceMoves(q, r)
    ensures SourceMoves(p, r)
  {
  }

  /** Before the checkpoint the fence is not undone, and Ready is not held without the label. */
  lemma FenceFacts(w: World)
    requires Inv(w) && w.job.phase.Snapshotting?
    ensures w.job.fence.NoFence? || w.job.fence.Fenced?
    ensures w.source.Some? && w.source.value.held ==> w.source.value.labelled
  {
  }

  lemma NoTriggerBeforeFence(w: World)
    requires Inv(w) && w.source.Some? && !Finished(w.source.value) && w.job.baseline.None?
    ensures !w.trigger
  {
  }

  lemma RestoringIsGone(w: World)
    requires Inv(w) && w.job.phase.Restoring?
    ensures w.source.None?
  {
  }

  lemma SucceededIsGone(w: World)
    requires Inv(w)
    ensures w.job.phase.Succeeded? ==> w.source.None?
  {
  }

  lemma SettledStays(w: World, v: World)
    requires Settled(w) && Calm(w, v)
    ensures Settled(v)
  {
  }

  lemma MovesReflexive(w: World)
    requires Inv(w)
    ensures Moves(w, w)
  {
  }

  lemma BrokenStays(w: World, v: World)
    requires Moves(w, v) && !w.trigger && AllBroken(w.snapshots)
    ensures AllBroken(v.snapshots)
  {
  }

  // ----- Each write of the job, by itself: when it is allowed, and what it does -----

  lemma FinalizerWorks(v: World)
    requires !v.job.deleting && v.job.phase.Snapshotting?
    ensures Guard(v, OnJob(AddFinalizer))
    ensures Apply(v, OnJob(AddFinalizer)) == v.(job := v.job.(finalizer := true))
  {
  }

  lemma FencedWorks(v: World)
    requires !Gone(v.job) && v.job.phase.Snapshotting? && v.job.fence.NoFence? && v.job.finalizer
    ensures Guard(v, OnJob(MarkFenced))
    ensures Apply(v, OnJob(MarkFenced)) == v.(job := v.job.(fence := Fenced, fencedAt := v.now))
  {
  }

  lemma BaselineWorks(v: World, b: Baseline)
    requires !Gone(v.job) && v.job.phase.Snapshotting? && v.job.fence.Fenced? && v.job.finalizer && v.job.baseline.None?
    requires v.source.Some? ==> v.source.value.labelled && v.source.value.held
    requires v.read.Some? && Records(b, v.read.value)
    ensures Guard(v, OnJob(RecordBaseline(b)))
    ensures Apply(v, OnJob(RecordBaseline(b))) == v.(job := v.job.(baseline := Some(b)))
  {
  }

  lemma FailWorks(v: World, reason: Reason)
    requires !Gone(v.job) && !Terminal(v.job.phase)
    requires reason.FailedOtherwise? || (reason.BudgetTimeout? && v.job.phase.Pending? && v.job.budget.Refused?)
    ensures Guard(v, OnJob(Fail(reason)))
    ensures Apply(v, OnJob(Fail(reason)))
         == v.(read := None, job := Conclude(v.job, v.now, Phase.Failed, reason, v.job.restored))
  {
  }

  lemma RefWorks(v: World, ref: string)
    requires !Gone(v.job) && v.job.phase.Snapshotting? && ref != ""
    ensures Guard(v, OnJob(RecordRef(ref)))
    ensures Apply(v, OnJob(RecordRef(ref))) == v.(job := v.job.(ref := ref))
  {
  }

  lemma EvictingWorks(v: World, ref: string)
    requires !Gone(v.job) && v.job.phase.Snapshotting? && ref != "" && ref in v.checkpointed
    ensures Guard(v, OnJob(StartEvicting(ref)))
    ensures Apply(v, OnJob(StartEvicting(ref)))
         == v.(job := v.job.(phase := Evicting, ref := ref, evicting := Some(v.now), reason := Working))
  {
  }

  lemma NodeWorks(v: World, node: string)
    requires !Gone(v.job) && v.job.phase.Evicting?
    ensures Guard(v, OnJob(RecordNode(node)))
    ensures Apply(v, OnJob(RecordNode(node))) == v.(job := v.job.(node := node))
  {
  }

  lemma StampWorks(v: World)
    requires !Gone(v.job) && v.job.phase.Evicting?
    ensures Guard(v, OnJob(StampEvicting))
    ensures Apply(v, OnJob(StampEvicting)) == v.(job := v.job.(evictingSince := true))
  {
  }

  lemma BlockageWorks(v: World, blocked: bool, misconfigured: bool)
    requires !Gone(v.job) && v.job.phase.Evicting?
    ensures Guard(v, OnJob(RecordBlockage(blocked, misconfigured)))
    ensures Apply(v, OnJob(RecordBlockage(blocked, misconfigured)))
         == v.(job := v.job.(blocked := blocked, misconfigured := misconfigured))
  {
  }

  lemma RestoringWorks(v: World, attachments: seq<Attachment>)
    requires !Gone(v.job) && v.job.phase.Evicting? && v.source.None? && !v.job.blocked && !v.job.misconfigured
    requires Detached(v.job.volumes, v.job.node, attachments)
    ensures Guard(v, OnJob(StartRestoring(attachments)))
    ensures Apply(v, OnJob(StartRestoring(attachments)))
         == v.(job := v.job.(phase := Restoring, restoring := Some(v.now), reason := Working))
  {
  }

  lemma WithoutRestoreWorks(v: World)
    requires !Gone(v.job) && (v.job.phase.Evicting? || v.job.phase.Restoring?)
    ensures Guard(v, OnJob(ConcludeWithoutRestore))
    ensures Apply(v, OnJob(ConcludeWithoutRestore))
         == v.(read := None, job := Conclude(v.job, v.now, SucceededWithoutRestore, WithoutRestore, NotRestored))
  {
  }

  lemma CrashWorks(v: World)
    requires !Gone(v.job) && v.job.phase.Restoring?
    ensures Guard(v, OnJob(ConcludeCrash))
    ensures Apply(v, OnJob(ConcludeCrash)) == v.(
      read := None, job := Conclude(v.job, v.now, Phase.Failed, FailedOtherwise, NotRestored).(crashed := true))
  {
  }

  lemma KeepWorks(v: World)
    requires !Gone(v.job) && ConcludedWithout(v.job.phase) && (v.job.fence.Fenced? || v.job.fence.Unfenced?)
    ensures Guard(v, OnJob(KeepFence))
    ensures Apply(v, OnJob(KeepFence)) == v.(job := v.job.(
      fence := FenceKept, fencedAt := if v.job.fence.Unfenced? then v.now else v.job.fencedAt))
  {
  }

  lemma FinalizerGoneWorks(v: World)
    requires !Gone(v.job) && (v.job.phase.Restoring? || Terminal(v.job.phase)) && Settled(v)
    ensures Guard(v, OnJob(RemoveFinalizer))
    ensures Apply(v, OnJob(RemoveFinalizer)) == v.(job := v.job.(finalizer := false))
  {
  }

  lemma SourceWorks(v: World, write: ClusterWrite)
    requires v.source.Some? && write in {Label, HoldReady, RemoveLabel, SetBypass, EvictSource}
    ensures Apply(v, OnCluster(write)) == v.(source := Some(SourceAfter(v.source.value, write)))
  {
  }

  lemma SucceedWorks(v: World, ev: Evidence)
    requires !Gone(v.job) && v.job.phase.Restoring? && Convincing(v, ev) && v.looked <= |v.replacement.versions|
    requires !ev.ceiling ==> ev.at < v.looked
    requires Unnoticed(v.replacement, ev.at, v.looked) || Retired(v.replacement)
    ensures Guard(v, OnJob(ConcludeRestored(ev)))
    ensures Apply(v, OnJob(ConcludeRestored(ev))).job.phase.Succeeded?
    ensures Apply(v, OnJob(ConcludeRestored(ev))).replacement == v.replacement
  {
    hide Convincing, Retired, Unnoticed;
  }

  /** What a pass relied on stands while it waits. */
  lemma EvidenceStands(v: World, u: World, ev: Evidence)
    requires ReplacementOk(v.replacement) && Released(v.replacement) && v.looked <= |v.replacement.versions|
    requires Convincing(v, ev) && (Unnoticed(v.replacement, ev.at, v.looked) || Retired(v.replacement))
    requires Calm(v, u) && u.job.consumer == v.job.consumer && Grown(v.replacement, u.replacement)
    ensures Convincing(u, ev) && u.looked == v.looked <= |u.replacement.versions|
    ensures Unnoticed(u.replacement, ev.at, u.looked) || Retired(u.replacement)
  {
    if Retired(v.replacement) {
      RetirementLasts(v.replacement, u.replacement);
    }
  }

  lemma UnfenceWorks(v: World)
    requires !Gone(v.job) && ConcludedWithout(v.job.phase) && v.job.fence.Fenced? && SafeToUnfence(v)
    ensures Guard(v, OnJob(Unfence))
    ensures Apply(v, OnJob(Unfence)) == v.(job := v.job.(fence := Unfenced, fencedAt := v.now))
  {
  }

  lemma SafetyStands(v: World, u: World)
    requires SafeToUnfence(v) && Calm(v, u) && (!v.trigger && AllBroken(v.snapshots) ==> AllBroken(u.snapshots))
    ensures SafeToUnfence(u)
  {
  }

  lemma DeleteWorks(v: World)
    requires v.job.phase.Failed? && v.job.crashed
    ensures Guard(v, OnCluster(DeleteReplacement))
    ensures Apply(v, OnCluster(DeleteReplacement)) == v.(replacement := v.replacement.(gone := true))
  {
  }

  /** The two writes of the fence. */
  lemma LabelIf(v: World)
    ensures v.source.Some? ==> Apply(v, OnCluster(Label)) == v.(source := Some(v.source.value.(labelled := true)))
    ensures v.source.Some? ==> Apply(v, OnCluster(HoldReady)) == v.(source := Some(v.source.value.(held := true)))
  {
  }

  lemma BypassIf(v: World)
    ensures v.source.Some? ==> Apply(v, OnCluster(SetBypass)) == v.(source := Some(v.source.value.(bypass := true)))
  {
  }

  lemma TriggerWorks(v: World)
    ensures Apply(v, OnCluster(CreateTrigger)) == v.(trigger := true, triggered := true)
    ensures Apply(v, OnCluster(DeleteTrigger)) == v.(trigger := false)
    ensures Apply(v, OnCluster(ReadSource)) == v.(read := v.source)
  {
  }

  // ----- Pure decisions -----

  function DeadlineAnchor(j: Job): Time {
    if j.snapshotting.Some? then j.snapshotting.value else j.created
  }

  predicate EvictionWithinBudget(j: Job, now: Time, timeout: Time) {
    j.phase.Evicting? && now - DeadlineAnchor(j) <= MAX_MIGRATION_TIMEOUT && j.evicting.Some?
      && now - j.evicting.value < timeout
  }

  /** How long the source has waited for its checkpoint, fenced or about to be. */
  function PreCheckpointDuration(j: Job, now: Time): Time {
    if j.fence.Fenced? || j.fence.FenceKept? then now - j.fencedAt else now - DeadlineAnchor(j)
  }

  predicate PreCheckpointCapExceeded(j: Job, now: Time, cap: Time) {
    j.ref == "" && PreCheckpointDuration(j, now) >= cap
  }

  /** When the job concluded. */
  function Concluded(j: Job): Time {
    if j.completed.Some? then j.completed.value else j.fencedAt
  }

  predicate WithinSettleTimeout(j: Job, now: Time) {
    now - Concluded(j) < FENCE_SETTLE_TIMEOUT
  }

  /** What the engine's checkpoint state says, or that it could not be read. */
  datatype Outcome = Unreadable | Read(completed: bool, settled: bool)

  datatype FenceVerdict = Wait | Keep | ReturnToService

  /** Whether a failed migration's source may go back to service, before its containers are compared. */
  function FenceDecision(outcome: Outcome, j: Job, now: Time): FenceVerdict {
    var within := WithinSettleTimeout(j, now);
    match outcome
    case Unreadable => if within then Wait else Keep
    case Read(completed, settled) =>
      if completed then Keep
      else if settled then ReturnToService
      else if within then Wait
      else Keep
  }

  /**
   Only a settled failure lifts the fence.  A state that is unreadable or unsettled is waited for until 30
   seconds after the job completed, and then the fence is kept.
  */
  lemma UncertaintyKeepsTheFence(outcome: Outcome, j: Job, now: Time)
    requires j.completed.Some?
    ensures FenceDecision(outcome, j, now).ReturnToService? <==> outcome == Read(false, true)
    ensures FenceDecision(outcome, j, now).Wait? <==>
      (outcome.Unreadable? || outcome == Read(false, false)) && now < j.completed.value + 30
    ensures FenceDecision(outcome, j, now).Keep? <==>
      || (outcome.Read? && outcome.completed)
      || ((outcome.Unreadable? || outcome == Read(false, false)) && now >= j.completed.value + 30)
  {
  }

  // ----- Loops -----

  /** Compares the source's containers with the baseline, and stops at the first difference. */
  method CompareContainers(b: Baseline, p: Source) returns (same: bool)
    ensures same <==> Unchanged(b, p)
  {
    if p.terminating || !p.phase.PodRunning? || b == map[] {
      return false;
    }
    var todo := b.Keys;
    while todo != {}
      invariant todo <= b.Keys
      invariant forall n :: n in b && n !in todo ==> SameContainer(p, n, b[n])
      decreases |todo|
    {
      var n :| n in todo;
      if !SameContainer(p, n, b[n]) {
        return false;
      }
      todo := todo - {n};
    }
    return true;
  }

  /** Whether any listed volume is still attached to the origin node. */
  method AnyVolumeAttached(volumes: seq<string>, node: string, attachments: seq<Attachment>) returns (active: bool)
    ensures active <==> !Detached(volumes, node, attachments)
    ensures active <==> exists a ::
      a in attachments && a.attached && a.volume != "" && a.volume in volumes && (node == "" || a.node == node)
  {
    for i := 0 to |volumes|
      invariant forall k, a :: 0 <= k < i && 0 <= a < |attachments| && attachments[a].volume == volumes[k] ==>
        !Blocks(volumes, node, attachments[a])
    {
      if volumes[i] == "" {
        continue;
      }
      for a := 0 to |attachments|
        invariant forall b :: 0 <= b < a && attachments[b].volume == volumes[i] ==>
            !Blocks(volumes, node, attachments[b])
      {
        if attachments[a].volume == volumes[i] && (node == "" || attachments[a].node == node)
            && attachments[a].attached {
          assert Blocks(volumes, node, attachments[a]);
          return true;
        }
      }
    }
    return false;
  }

  /** Whether any snapshot's checkpoint completed, and whether every snapshot finished. */
  method ReadSnapshots(snapshots: map<string, Snapshot>) returns (completed: bool, finished: bool)
    ensures completed <==> exists n :: n in snapshots && snapshots[n].checkpoint.Completed?
    ensures finished <==> forall n :: n in snapshots ==> SnapshotFinished(snapshots[n])
    ensures !completed && finished ==> AllBroken(snapshots)
  {
    completed, finished := false, true;
    var todo := snapshots.Keys;
    while todo != {}
      invariant todo <= snapshots.Keys
      invariant completed <==> exists n :: n in snapshots && n !in todo && snapshots[n].checkpoint.Completed?
      invariant finished <==> forall n :: n in snapshots && n !in todo ==> SnapshotFinished(snapshots[n])
      decreases |todo|
    {
      var n :| n in todo;
      if snapshots[n].checkpoint.Completed? {
        completed := true;
      }
      if !SnapshotFinished(snapshots[n]) {
        finished := false;
      }
      todo := todo - {n};
    }
  }

  // ----- The reconciler -----

  datatype SnapStatus = InProgress(ref: string) | Ready(ref: string) | Refused

  datatype Seen = Missing | Mismatch | Pod(at: nat, version: Version)

  /** A snapshot that is called Ready is there, with its checkpoint completed. */
  predicate Honest(status: SnapStatus, snapshots: map<string, Snapshot>) {
    status.Ready? ==>
      status.ref != "" && status.ref in snapshots && snapshots[status.ref].checkpoint.Completed?
  }

  /** What the trigger in v and the snapshots in u say. */
  ghost predicate Tells(outcome: Outcome, v: World, u: World) {
    && outcome.Read?
    && (outcome.completed <==> exists s :: s in u.snapshots && u.snapshots[s].checkpoint.Completed?)
    && (outcome.settled <==> !v.trigger && forall s :: s in u.snapshots ==>
          !u.snapshots[s].deleting && u.snapshots[s].checkpoint in {Broken, Completed(true)})
  }

  /** What becomes of the fence of a failed migration whose source runs, as things stand in v. */
  ghost predicate Decided(v: World, reporter: bool, fence: Fence) {
    var completed := exists s :: s in v.snapshots && v.snapshots[s].checkpoint.Completed?;
    var settled := !v.trigger && forall s :: s in v.snapshots ==>
      !v.snapshots[s].deleting && v.snapshots[s].checkpoint in {Broken, Completed(true)};
    var same := v.source.Some? && (v.job.baseline.None? || Unchanged(v.job.baseline.value, v.source.value));
    fence ==
      if !reporter && v.job.baseline.None? then Unfenced
      else if !reporter || v.job.evicting.Some? || v.job.evictingSince || completed then FenceKept
      else if settled then (if same then Unfenced else FenceKept)
      else if v.now < (if v.job.completed.Some? then v.job.completed.value else v.job.fencedAt) + 30 then Fenced
      else FenceKept
  }

  class Reconciler {
    var w: World
    var log: seq<Entry>
    const reporter: bool
    const timeout: Time
    const cap: Time
    const watch: Time

    /** No call fails and nobody else moves: then the methods say exactly what comes of them. */
    const undisturbed: bool

    ghost predicate Valid()
      reads this
    {
      IsRun(log) && w == log[|log| - 1].world
    }

    constructor (world: World, reporter: bool, timeout: Time, cap: Time, watch: Time, undisturbed: bool)
      requires Start(world)
      ensures Valid() && w == world
    {
      w, log := world, [Entry(Environment(world), world)];
      this.reporter, this.timeout, this.cap, this.watch := reporter, timeout, cap, watch;
      this.undisturbed := undisturbed;
    }

    method Do(act: Act)
      requires Valid() && Guard(w, act)
      modifies this
      ensures Valid() && w == Apply(old(w), act) && log == old(log) + [Entry(act, w)]
    {
      RunExtends(log, Entry(act, Apply(w, act)));
      w := Apply(w, act);
      log := log + [Entry(act, w)];
    }

    /** Anything may happen while the reconciler waits. */
    method Await()
      requires Valid()
      modifies this
      ensures Valid() && old(log) <= log
      ensures Calm(old(w), w)
      ensures !old(w).trigger && AllBroken(old(w).snapshots) ==> AllBroken(w.snapshots)
      ensures Released(old(w).replacement) ==> w.job.consumer == old(w).job.consumer
      ensures w.job.consumer == old(w).job.consumer ==> Grown(old(w).replacement, w.replacement)
      ensures undisturbed ==> w == old(w)
    {
      RunKeeps(log, |log| - 1);
      MovesReflexive(w);
      if undisturbed {
        return;
      }
      var v: World := *;
      if Moves(w, v) {
        if !w.trigger && AllBroken(w.snapshots) {
          BrokenStays(w, v);
        }
        Do(Environment(v));
      }
    }

    /** An API call: anything may happen before it reaches the server, and it may fail. */
    method Call() returns (ok: bool)
      requires Valid()
      modifies this
      ensures Valid() && old(log) <= log && Calm(old(w), w)
      ensures undisturbed ==> ok && w == old(w)
      ensures !old(w).trigger && AllBroken(old(w).snapshots) ==> AllBroken(w.snapshots)
    {
      Await();
      ok := Answered();
    }

    /** A call on the job, which may be gone by then. */
    method CallJob() returns (ok: bool)
      requires Valid()
      modifies this
      ensures Valid() && old(log) <= log && Calm(old(w), w)
      ensures ok ==> !Gone(w.job)
      ensures undisturbed && !Gone(old(w).job) ==> ok && w == old(w)
      ensures !old(w).trigger && AllBroken(old(w).snapshots) ==> AllBroken(w.snapshots)
    {
      ok := Call();
      ok := ok && !Gone(w.job);
    }

    /** Whether the answer to a call that was made arrives. */
    method Answered() returns (ok: bool)
      ensures undisturbed ==> ok
    {
      ok := *;
      if undisturbed {
        ok := true;
      }
    }

    // ----- API writes: each may fail, and the answer to one that was made may be lost -----

    method PatchFinalizer() returns (ok: bool)
      requires Valid() && w.job.phase.Snapshotting?
      modifies this
      ensures Valid() && old(log) <= log && SourceMoves(old(w).source, w.source)
      ensures w.read == old(w).read
      ensures SameCourse(old(w).job, w.job)
      ensures ok ==> w.job.finalizer
      ensures undisturbed && !old(w).job.deleting ==> ok && w == Apply(old(w), OnJob(AddFinalizer))
    {
      hide IsRun, Guard, Apply, Moves;
      ok := Call();
      ok := ok && !w.job.deleting;
      if ok {
        FinalizerWorks(w);
        Do(OnJob(AddFinalizer));
        ok := Answered();
      }
    }

    method PatchFenced() returns (ok: bool)
      requires Valid() && w.job.phase.Snapshotting? && w.job.fence.NoFence? && w.job.finalizer
      modifies this
      ensures Valid() && old(log) <= log && SourceMoves(old(w).source, w.source)
      ensures w.read == old(w).read
      ensures w.job.phase.Snapshotting? && w.job.finalizer && w.job.baseline == old(w).job.baseline
      ensures ok ==> w.job.fence.Fenced?
      ensures undisturbed && !Gone(old(w).job) ==> ok && w == Apply(old(w), OnJob(MarkFenced))
    {
      hide IsRun, Guard, Apply, Moves;
      ok := CallJob();
      if ok {
        FencedWorks(w);
        Do(OnJob(MarkFenced));
        ok := Answered();
      }
    }

    method PatchLabel() returns (ok: bool)
      requires Valid() && ((w.job.phase.Snapshotting? && w.job.fence.Fenced?) || w.job.fence.FenceKept?)
      modifies this
      ensures Valid() && old(log) <= log
      ensures SameOwner(old(w).source, w.source)
      ensures w.read == old(w).read
      ensures SameJob(old(w).job, w.job) && (old(w).source.None? ==> w.source.None?)
      ensures ok && w.source.Some? ==> w.source.value.labelled
      ensures undisturbed && old(w).source.Some? ==> ok && w == Apply(old(w), OnCluster(Label))
    {
      ok := Call();
      if ok && w.source.Some? {
        Do(OnCluster(Label));
        ok := Answered();
      } else {
        ok := false;
      }
    }

    method PatchNotReady() returns (ok: bool)
      requires Valid() && ((w.job.phase.Snapshotting? && w.job.fence.Fenced?) || w.job.fence.FenceKept?)
      requires w.job.phase.Snapshotting? && w.source.Some? ==> w.source.value.labelled
      modifies this
      ensures Valid() && old(log) <= log
      ensures SameOwner(old(w).source, w.source)
      ensures w.read == old(w).read
      ensures SameJob(old(w).job, w.job)
      ensures ok && w.job.phase.Snapshotting? && w.source.Some? ==> w.source.value.labelled && w.source.value.held
      ensures undisturbed && old(w).source.Some? ==> ok && w == Apply(old(w), OnCluster(HoldReady))
    {
      ok := Call();
      if ok && w.source.Some? {
        Do(OnCluster(HoldReady));
        ok := Answered();
      } else {
        ok := false;
      }
    }

    method PatchBaseline(b: Baseline) returns (ok: bool)
      requires Valid() && w.job.phase.Snapshotting? && w.job.fence.Fenced? && w.job.finalizer && w.job.baseline.None?
      requires w.source.Some? ==> w.source.value.labelled && w.source.value.held
      requires w.read.Some? && Records(b, w.read.value)
      modifies this
      ensures Valid() && old(log) <= log && w.read == old(w).read
      ensures w.job.phase.Snapshotting?
      ensures ok ==> w.job.baseline == Some(b)
      ensures undisturbed && !Gone(old(w).job) ==> ok && w == Apply(old(w), OnJob(RecordBaseline(b)))
    {
      hide IsRun, Guard, Apply, Moves;
      ok := CallJob();
      if ok {
        BaselineWorks(w, b);
        Do(OnJob(RecordBaseline(b)));
        ok := Answered();
      }
    }

    method PatchBypass() returns (ok: bool)
      requires Valid() && w.job.phase.Snapshotting?
      requires w.source.Some? ==> Finished(w.source.value) || w.job.baseline.Some?
      modifies this
      ensures Valid() && old(log) <= log
      ensures w.job.phase.Snapshotting?
      ensures w.source.Some? ==> Finished(w.source.value) || w.job.baseline.Some?
      ensures ok && w.source.Some? ==> w.source.value.bypass
      ensures undisturbed && old(w).source.Some? ==> ok && w == Apply(old(w), OnCluster(SetBypass))
      ensures undisturbed && old(w).source.None? ==> ok && w == old(w)
    {
      ok := Call();
      if ok && w.source.Some? {
        Do(OnCluster(SetBypass));
        ok := Answered();
      }
    }

    method PostTrigger() returns (ok: bool)
      requires Valid() && w.job.phase.Snapshotting?
      requires w.source.Some? ==> w.source.value.bypass && (Finished(w.source.value) || w.job.baseline.Some?)
      modifies this
      ensures Valid() && old(log) <= log && SameJob(old(w).job, w.job)
      ensures ok ==> w.trigger
      ensures undisturbed ==> ok && w == if old(w).trigger then old(w) else Apply(old(w), OnCluster(CreateTrigger))
    {
      ok := Call();
      if ok && !w.trigger {
        Do(OnCluster(CreateTrigger));
        ok := Answered();
      }
    }

    /** A best-effort delete of the trigger. */
    method Cleanup()
      requires Valid()
      modifies this
      ensures Valid() && old(log) <= log && Calm(old(w), w)
      ensures undisturbed ==> w == Apply(old(w), OnCluster(DeleteTrigger))
    {
      var ok := Call();
      if ok {
        Do(OnCluster(DeleteTrigger));
        ok := Answered();
      }
    }

    /** Persists Failed. */
    method PatchFailed(reason: Reason) returns (ok: bool)
      requires Valid() && !Terminal(w.job.phase)
      requires reason.FailedOtherwise? || (reason.BudgetTimeout? && w.job.phase.Pending? && w.job.budget.Refused?)
      modifies this
      ensures Valid() && old(log) <= log
      ensures ok ==> w.job.phase.Failed? && w.job.reason == reason
      ensures undisturbed && !Gone(old(w).job) ==> ok && w == Apply(old(w), OnJob(Fail(reason)))
    {
      hide IsRun, Guard, Apply, Moves;
      ok := CallJob();
      if ok {
        FailWorks(w, reason);
        Do(OnJob(Fail(reason)));
        ok := Answered();
      }
    }

    method PatchRef(ref: string) returns (ok: bool)
      requires Valid() && w.job.phase.Snapshotting? && ref != ""
      modifies this
      ensures Valid() && old(log) <= log
      ensures ok ==> w.job.phase.Snapshotting? && w.job.ref == ref
      ensures undisturbed && !Gone(old(w).job) ==> ok && w == Apply(old(w), OnJob(RecordRef(ref)))
    {
      hide IsRun, Guard, Apply, Moves;
      ok := CallJob();
      if ok {
        RefWorks(w, ref);
        Do(OnJob(RecordRef(ref)));
        ok := Answered();
      }
    }

    method PatchEvicting(ref: string) returns (ok: bool)
      requires Valid() && w.job.phase.Snapshotting? && ref != "" && ref in w.checkpointed
      modifies this
      ensures Valid() && old(log) <= log
      ensures ok ==> w.job.phase.Evicting? && w.job.ref == ref && ref in w.checkpointed
      ensures undisturbed && !Gone(old(w).job) ==> ok && w == Apply(old(w), OnJob(StartEvicting(ref)))
    {
      hide IsRun, Guard, Apply, Moves;
      ok := CallJob();
      if ok {
        EvictingWorks(w, ref);
        Do(OnJob(StartEvicting(ref)));
        ok := Answered();
      }
    }

    method PatchNode(node: string) returns (ok: bool)
      requires Valid() && w.job.phase.Evicting?
      modifies this
      ensures Valid() && old(log) <= log && w.job.phase.Evicting?
      ensures undisturbed && !Gone(old(w).job) ==> ok && w == Apply(old(w), OnJob(RecordNode(node)))
    {
      hide IsRun, Guard, Apply, Moves;
      ok := CallJob();
      if ok {
        NodeWorks(w, node);
        Do(OnJob(RecordNode(node)));
        ok := Answered();
      }
    }

    method UpdateEvictingSince() returns (ok: bool)
      requires Valid() && w.job.phase.Evicting?
      modifies this
      ensures Valid() && old(log) <= log && w.job.phase.Evicting?
      ensures undisturbed && !Gone(old(w).job) ==> ok && w == Apply(old(w), OnJob(StampEvicting))
    {
      hide IsRun, Guard, Apply, Moves;
      ok := CallJob();
      if ok {
        StampWorks(w);
        Do(OnJob(StampEvicting));
        ok := Answered();
      }
    }

    method PatchBlockage(blocked: bool, misconfigured: bool) returns (ok: bool)
      requires Valid() && w.job.phase.Evicting?
      modifies this
      ensures Valid() && old(log) <= log && SourceMoves(old(w).source, w.source)
      ensures w.job.phase.Evicting?
      ensures ok ==> w.job.blocked == blocked && w.job.misconfigured == misconfigured
      ensures undisturbed && !Gone(old(w).job) ==>
        ok && w == Apply(old(w), OnJob(RecordBlockage(blocked, misconfigured)))
    {
      hide IsRun, Guard, Apply, Moves;
      ok := CallJob();
      if ok {
        BlockageWorks(w, blocked, misconfigured);
        Do(OnJob(RecordBlockage(blocked, misconfigured)));
        ok := Answered();
      }
    }

    /** The eviction of a pod that is gone already counts as done. */
    method Evict() returns (ok: bool)
      requires Valid() && (w.job.phase.Evicting? || w.job.fence.FenceKept?)
      modifies this
      ensures Valid() && old(log) <= log && SameJob(old(w).job, w.job)
      ensures ok && w.source.Some? ==> w.source.value.terminating
      ensures undisturbed && old(w).source.Some? ==> ok && w == Apply(old(w), OnCluster(EvictSource))
      ensures undisturbed && old(w).source.None? ==> ok && w == old(w)
    {
      ok := Call();
      if ok && w.source.Some? {
        Do(OnCluster(EvictSource));
        ok := Answered();
      }
    }

    method PatchRestoring(attachments: seq<Attachment>) returns (ok: bool)
      requires Valid() && w.job.phase.Evicting? && w.source.None? && !w.job.blocked && !w.job.misconfigured
      requires Detached(w.job.volumes, w.job.node, attachments)
      modifies this
      ensures Valid() && old(log) <= log
      ensures ok ==> w.job.phase.Restoring?
      ensures undisturbed && !Gone(old(w).job) ==> ok && w == Apply(old(w), OnJob(StartRestoring(attachments)))
    {
      hide IsRun, Guard, Apply, Moves;
      ok := CallJob();
      if ok {
        RestoringWorks(w, attachments);
        Do(OnJob(StartRestoring(attachments)));
        ok := Answered();
      }
    }

    method PatchFinalizerGone() returns (ok: bool)
      requires Valid() && (w.job.phase.Restoring? || Terminal(w.job.phase)) && Settled(w)
      modifies this
      ensures Valid() && old(log) <= log
      ensures w.job.phase == old(w).job.phase
      ensures ok ==> !w.job.finalizer
      ensures undisturbed && !Gone(old(w).job) ==> ok
      ensures undisturbed && old(w).job.finalizer ==> w == Apply(old(w), OnJob(RemoveFinalizer))
      ensures undisturbed && !old(w).job.finalizer ==> w == old(w)
    {
      hide IsRun, Guard, Apply, Moves, Settled;
      if !w.job.finalizer {
        return true;
      }
      ghost var before := w;
      ok := CallJob();
      if ok {
        SettledStays(before, w);
        FinalizerGoneWorks(w);
        Do(OnJob(RemoveFinalizer));
        ok := Answered();
      }
    }

    method PatchWithoutRestore() returns (ok: bool)
      requires Valid() && (w.job.phase.Evicting? || w.job.phase.Restoring?)
      modifies this
      ensures Valid() && old(log) <= log
      ensures ok ==> w.job.phase.SucceededWithoutRestore?
      ensures undisturbed && !Gone(old(w).job) ==> ok && w == Apply(old(w), OnJob(ConcludeWithoutRestore))
    {
      hide IsRun, Guard, Apply, Moves;
      ok := CallJob();
      if ok {
        WithoutRestoreWorks(w);
        Do(OnJob(ConcludeWithoutRestore));
        ok := Answered();
      }
    }

    method PatchCrashed() returns (ok: bool)
      requires Valid() && w.job.phase.Restoring?
      modifies this
      ensures Valid() && old(log) <= log
      ensures ok ==> w.job.phase.Failed? && w.job.crashed
      ensures undisturbed && !Gone(old(w).job) ==> ok && w == Apply(old(w), OnJob(ConcludeCrash))
    {
      hide IsRun, Guard, Apply, Moves;
      ok := CallJob();
      if ok {
        CrashWorks(w);
        Do(OnJob(ConcludeCrash));
        ok := Answered();
      }
    }

    method PatchFenceKept() returns (ok: bool)
      requires Valid() && ConcludedWithout(w.job.phase) && (w.job.fence.Fenced? || w.job.fence.Unfenced?)
      modifies this
      ensures Valid() && old(log) <= log
      ensures SameOwner(old(w).source, w.source)
      ensures w.job.phase == old(w).job.phase
      ensures ok ==> w.job.fence.FenceKept?
      ensures w.job.fence.FenceKept? || w.job.fence == old(w).job.fence
      ensures undisturbed && !Gone(old(w).job) ==> ok && w == Apply(old(w), OnJob(KeepFence))
    {
      hide IsRun, Guard, Apply, Moves;
      ok := CallJob();
      if ok {
        KeepWorks(w);
        Do(OnJob(KeepFence));
        ok := Answered();
      }
    }

    method PatchUnlabelled() returns (ok: bool)
      requires Valid() && w.job.fence.Unfenced?
      modifies this
      ensures Valid() && old(log) <= log && SameJob(old(w).job, w.job)
      ensures ok && w.source.Some? ==> !w.source.value.labelled
      ensures undisturbed && old(w).source.Some? ==> ok && w == Apply(old(w), OnCluster(RemoveLabel))
      ensures undisturbed && old(w).source.None? ==> ok && w == old(w)
    {
      ok := Call();
      if ok && w.source.Some? {
        Do(OnCluster(RemoveLabel));
        ok := Answered();
      }
    }

    // ----- Fencing the source -----

    method AddSourceFenceFinalizer() returns (ok: bool)
      requires Valid() && w.job.phase.Snapshotting?
      modifies this
      ensures Valid() && old(log) <= log && SourceMoves(old(w).source, w.source)
      ensures w.read == old(w).read
      ensures SameCourse(old(w).job, w.job)
      ensures ok ==> w.job.finalizer
      ensures undisturbed && !old(w).job.deleting ==>
        ok && w == if old(w).job.finalizer then old(w) else Apply(old(w), OnJob(AddFinalizer))
    {
      hide IsRun, Guard, Apply, Moves;
      if w.job.finalizer {
        return true;
      }
      ok := PatchFinalizer();
    }

    /** Labels the source and holds it NotReady, judging by `pod` what is done already. */
    method ApplyFence(pod: Source) returns (ok: bool)
      requires Valid() && (w.job.fence.FenceKept? || (w.job.phase.Snapshotting? && w.job.fence.Fenced?))
      requires w.job.phase.Snapshotting? && w.source.Some? ==>
        (pod.labelled ==> w.source.value.labelled) && (pod.held ==> pod.labelled && w.source.value.held)
      modifies this
      ensures Valid() && old(log) <= log
      ensures SameOwner(old(w).source, w.source)
      ensures w.read == old(w).read
      ensures SameJob(old(w).job, w.job)
      ensures ok && w.job.phase.Snapshotting? && w.source.Some? ==> w.source.value.labelled && w.source.value.held
      ensures undisturbed && old(w).source == Some(pod) ==>
        ok && w == old(w).(source := Some(pod.(labelled := true, held := true)))
    {
      hide IsRun, Guard, Apply, Moves;
      ok := LabelSource(pod);
      if ok {
        ok := HoldSource(pod);
      }
    }

    method LabelSource(pod: Source) returns (ok: bool)
      requires Valid() && (w.job.fence.FenceKept? || (w.job.phase.Snapshotting? && w.job.fence.Fenced?))
      requires w.job.phase.Snapshotting? && w.source.Some? ==>
        (pod.labelled ==> w.source.value.labelled) && (pod.held ==> pod.labelled && w.source.value.held)
      modifies this
      ensures Valid() && old(log) <= log
      ensures SameOwner(old(w).source, w.source) && w.read == old(w).read && SameJob(old(w).job, w.job)
      ensures ok && w.job.phase.Snapshotting? && w.source.Some? ==>
        w.source.value.labelled && (pod.held ==> w.source.value.held)
      ensures undisturbed && old(w).source == Some(pod) ==>
        ok && w == old(w).(source := Some(pod.(labelled := true)))
    {
      hide IsRun, Guard, Apply, Moves, SourceMoves;
      if pod.labelled {
        return true;
      }
      LabelIf(w);
      ok := PatchLabel();
    }

    method HoldSource(pod: Source) returns (ok: bool)
      requires Valid() && (w.job.fence.FenceKept? || (w.job.phase.Snapshotting? && w.job.fence.Fenced?))
      requires w.job.phase.Snapshotting? && w.source.Some? ==>
        w.source.value.labelled && (pod.held ==> w.source.value.held)
      modifies this
      ensures Valid() && old(log) <= log
      ensures SameOwner(old(w).source, w.source) && w.read == old(w).read && SameJob(old(w).job, w.job)
      ensures ok && w.job.phase.Snapshotting? && w.source.Some? ==> w.source.value.labelled && w.source.value.held
      ensures undisturbed && old(w).source.Some? && pod.held == old(w).source.value.held ==>
        ok && w == old(w).(source := Some(old(w).source.value.(held := true)))
    {
      hide IsRun, Guard, Apply, Moves, SourceMoves;
      if pod.held {
        return true;
      }
      LabelIf(w);
      ok := PatchNotReady();
    }

    /** Fences the source before its checkpoint.  Success means: fenced, or nothing left to fence. */
    method FenceSource() returns (ok: bool)
      requires Valid() && w.job.phase.Snapshotting?
      modifies this
      ensures Valid() && old(log) <= log
      ensures w.job.phase.Snapshotting?
      ensures ok && w.source.Some? ==> Finished(w.source.value) || w.job.baseline.Some?
      ensures ok && old(w).job.baseline.None? && w.job.baseline.Some? ==>
        w.read.Some? && Records(w.job.baseline.value, w.read.value)
      ensures undisturbed && !old(w).job.deleting ==> ok && Quietly(old(w), w)
      ensures undisturbed && !old(w).job.deleting && old(w).job.baseline.None?
              && old(w).source.Some? && !Finished(old(w).source.value) ==>
        && w.job.finalizer && w.job.fence.Fenced? && w.job.baseline.Some?
        && Records(w.job.baseline.value, old(w).source.value)
        && w.source == Some(old(w).source.value.(labelled := true, held := true))
      ensures undisturbed && !old(w).job.deleting
              && (old(w).job.baseline.Some? || old(w).source.None? || Finished(old(w).source.value)) ==>
        w.source == old(w).source && w.job.baseline == old(w).job.baseline
    {
      hide IsRun, Guard, Apply, Moves, SourceMoves, Records;
      if w.job.baseline.None? {
        ok := StartFence();
        return;
      }
      if !w.job.deleting {
        FinalizerWorks(w);
      }
      ok := AddSourceFenceFinalizer();
    }

    /** The first fencing pass: a live read, and the fence on what it shows. */
    method StartFence() returns (ok: bool)
      requires Valid() && w.job.phase.Snapshotting? && w.job.baseline.None?
      modifies this
      ensures Valid() && old(log) <= log
      ensures w.job.phase.Snapshotting?
      ensures ok && w.source.Some? ==> Finished(w.source.value) || w.job.baseline.Some?
      ensures ok && w.job.baseline.Some? ==> w.read.Some? && Records(w.job.baseline.value, w.read.value)
      ensures undisturbed && !old(w).job.deleting ==> ok && Quietly(old(w), w)
      ensures undisturbed && !old(w).job.deleting && old(w).source.Some? && !Finished(old(w).source.value) ==>
        && w.job.finalizer && w.job.fence.Fenced? && w.job.baseline.Some?
        && Records(w.job.baseline.value, old(w).source.value)
        && w.source == Some(old(w).source.value.(labelled := true, held := true))
      ensures undisturbed && !old(w).job.deleting && (old(w).source.None? || Finished(old(w).source.value)) ==>
        w.source == old(w).source && w.job.baseline.None?
    {
      hide IsRun, Guard, Apply, Moves, SourceMoves, Records, AllBroken;
      var read;
      ok, read := ReadLiveSource();
      if ok && read.Some? && !Finished(read.value) {
        ok := PlaceFence(read.value);
      }
    }

    /** The fence's writes, on the source as it was read: finalizer, condition, label, Ready, and the baseline last. */
    method PlaceFence(read: Source) returns (ok: bool)
      requires Valid() && w.job.phase.Snapshotting? && w.job.baseline.None?
      requires w.read == w.source == Some(read)
      modifies this
      ensures Valid() && old(log) <= log
      ensures w.job.phase.Snapshotting? && w.read == old(w).read
      ensures ok ==> w.job.baseline.Some? && Records(w.job.baseline.value, read)
      ensures undisturbed && !old(w).job.deleting ==>
        && ok && Quietly(old(w), w) && w.job.finalizer && w.job.fence.Fenced?
        && w.source == Some(read.(labelled := true, held := true))
    {
      RunKeeps(log, |log| - 1);
      FenceFacts(w);
      hide IsRun, Guard, Apply, Moves, Inv, BaselineOf, Records;
      ok := MarkSource();
      if !ok {
        return;
      }
      ok := ApplyFence(read);
      if ok {
        BaselineWorks(w, BaselineOf(read));
        ok := PatchBaseline(BaselineOf(read));
      }
    }

    /** Finalizer and condition, before the source itself is touched. */
    method MarkSource() returns (ok: bool)
      requires Valid() && w.job.phase.Snapshotting? && (w.job.fence.NoFence? || w.job.fence.Fenced?)
      modifies this
      ensures Valid() && old(log) <= log && SourceMoves(old(w).source, w.source) && w.read == old(w).read
      ensures w.job.phase.Snapshotting? && w.job.baseline == old(w).job.baseline
      ensures ok ==> w.job.finalizer && w.job.fence.Fenced?
      ensures undisturbed && !old(w).job.deleting ==> ok && Quietly(old(w), w) && w.source == old(w).source
    {
      hide IsRun, Guard, Apply, Moves, SourceMoves;
      if !w.job.deleting {
        FinalizerWorks(w);
      }
      SourceMovesOn(w.source);
      ok := AddSourceFenceFinalizer();
      if ok && !w.job.fence.Fenced? {
        FencedWorks(w);
        ghost var between := w.source;
        ok := PatchFenced();
        SourceMovesTwice(old(w).source, between, w.source);
      }
    }

    // ----- Snapshotting -----

    /** Creates the trigger, never without the cold-start bypass on a source that is still there. */
    method EnsureTrigger(foreign: bool, refused: bool) returns (ok: bool, proceed: bool)
      requires Valid() && w.job.phase.Snapshotting?
      requires w.source.Some? ==> Finished(w.source.value) || w.job.baseline.Some?
      modifies this
      ensures Valid() && old(log) <= log
      ensures w.job.phase.Snapshotting?
      ensures ok && proceed ==> w.trigger
      ensures undisturbed && !foreign && (old(w).trigger || !refused) ==>
        ok && proceed && w.job == old(w).job && KeptByTrigger(old(w), w)
      ensures undisturbed && !foreign && old(w).trigger ==> w == old(w)
      ensures undisturbed && !foreign && !refused && !old(w).trigger && old(w).source.Some? ==>
        w.source == Some(old(w).source.value.(bypass := true))
      ensures undisturbed && !foreign && refused && !old(w).trigger ==>
        !ok && w.job == old(w).job && w.now == old(w).now
    {
      hide IsRun, Guard, Apply, Moves;
      ok := Call();
      if !ok || w.trigger {
        return ok, ok;
      }
      if foreign {
        // Another job's trigger is deleted first, and the pass comes back.
        return true, false;
      }
      BypassIf(w);
      ok := PatchBypass();
      if !ok {
        return false, false;
      }
      if refused {
        // The API server does not take the trigger.
        return false, false;
      }
      TriggerWorks(w);
      ok := PostTrigger();
      return ok, ok;
    }

    /** Reads the snapshot's state off the engine's objects: Ready names a completed checkpoint. */
    method CheckStatus(status: SnapStatus) returns (ok: bool)
      requires Valid()
      modifies this
      ensures Valid() && old(log) <= log && SameJob(old(w).job, w.job)
      ensures ok && status.Ready? ==> status.ref != "" && status.ref in w.checkpointed
      ensures undisturbed && Honest(status, old(w).snapshots) ==>
        ok && w == old(w).(checkpointed := w.checkpointed)
    {
      ok := Call();
      if ok && status.Ready? {
        if !Honest(status, w.snapshots) {
          return false;
        }
        Do(OnCluster(ReadStatus(status.ref)));
      }
    }

    /** Fails a Snapshotting job: the trigger goes first, as far as the delete succeeds. */
    method FailSnapshotting() returns (ok: bool)
      requires Valid() && w.job.phase.Snapshotting?
      modifies this
      ensures Valid() && old(log) <= log
      ensures ok ==> w.job.phase.Failed?
      ensures undisturbed && !Gone(old(w).job) ==>
        ok && w.source == old(w).source && w.job.fence == old(w).job.fence && w.job.baseline == old(w).job.baseline
    {
      hide IsRun, Guard, Apply, Moves, SourceMoves;
      TriggerWorks(w);
      Cleanup();
      if !Gone(w.job) {
        FailWorks(w, FailedOtherwise);
      }
      ok := PatchFailed(FailedOtherwise);
    }

    /** Follows the snapshot; `finished` says that the source has no process left to checkpoint. */
    method FollowSnapshot(status: SnapStatus, finished: bool) returns (ok: bool)
      requires Valid() && w.job.phase.Snapshotting?
      requires status.Ready? ==> status.ref != "" && status.ref in w.checkpointed
      modifies this
      ensures Valid() && old(log) <= log
      ensures ok ==> w.job.phase == (match status
                                     case Refused => Phase.Failed
                                     case Ready(_) => Evicting
                                     case InProgress(_) => if finished then Phase.Failed else Snapshotting)
      ensures ok && !status.Refused? && !w.job.phase.Failed? && status.ref != "" ==> w.job.ref == status.ref
      ensures ok && w.job.phase.Evicting? ==> w.job.ref in w.checkpointed
      ensures undisturbed && !Gone(old(w).job) ==>
        ok && w.source == old(w).source && w.job.fence == old(w).job.fence && w.job.baseline == old(w).job.baseline
    {
      hide IsRun, Guard, Apply, Moves, SourceMoves;
      match status
      case Refused => ok := FailSnapshotting();
      case Ready(ref) =>
        if !Gone(w.job) { EvictingWorks(w, ref); }
        ok := PatchEvicting(ref);
      case InProgress(ref) =>
        ok := true;
        if finished {
          ok := FailSnapshotting();
        } else if ref != "" && w.job.ref != ref {
          if !Gone(w.job) { RefWorks(w, ref); }
          ok := PatchRef(ref);
        }
    }

    /**
     A pass through Snapshotting.  Undisturbed it fences a source that runs, makes it start cold, creates the
     trigger, and follows the snapshot's status; where the API server does not take the trigger, the job fails
     if that is final or the source was fenced for too long.
    */
    method SnapshottingPass(foreign: bool, refused: bool, rejected: bool, status: SnapStatus, finished: bool)
        returns (ok: bool)
      requires Valid() && w.job.phase.Snapshotting?
      modifies this
      ensures Valid() && old(log) <= log
      ensures undisturbed && !old(w).job.deleting && !foreign && !refused && Honest(status, old(w).snapshots) ==>
        ok && w.job.phase == (match status
                              case Refused => Phase.Failed
                              case Ready(_) => Evicting
                              case InProgress(_) => if finished then Phase.Failed else Snapshotting)
      ensures undisturbed && !old(w).job.deleting && !foreign && !refused && Honest(status, old(w).snapshots)
              && old(w).source.Some? && !Finished(old(w).source.value) && old(w).job.baseline.None? ==>
        && w.job.fence.Fenced? && w.job.baseline.Some? && Records(w.job.baseline.value, old(w).source.value)
        && w.source == Some(old(w).source.value.(labelled := true, held := true, bypass := true))
      ensures undisturbed && !old(w).job.deleting && !foreign && refused && !old(w).trigger
              && old(w).job.baseline.Some? && old(w).job.fence.Fenced? ==>
        (w.job.phase.Failed? <==>
           rejected || (old(w).job.ref == "" && old(w).now >= old(w).job.fencedAt + cap))
    {
      RunKeeps(log, |log| - 1);
      if w.source.Some? && !Finished(w.source.value) && w.job.baseline.None? {
        NoTriggerBeforeFence(w);
      }
      hide IsRun, Guard, Apply, Moves, SourceMoves, SameJob, Inv, Records, Honest;
      ok := FenceSource();
      if !ok {
        if PreCheckpointCapExceeded(w.job, w.now, cap) {
          ok := FailSnapshotting();
        }
        return;
      }
      var proceed;
      ok, proceed := EnsureTrigger(foreign, refused);
      if !ok {
        if rejected || (w.job.fence.Fenced? && PreCheckpointCapExceeded(w.job, w.now, cap)) {
          ok := FailSnapshotting();
        }
        return;
      }
      if proceed {
        ok := FollowStatus(status, finished);
      }
    }

    /** The last part of the pass: what the snapshot's status asks for. */
    method FollowStatus(status: SnapStatus, finished: bool) returns (ok: bool)
      requires Valid() && w.job.phase.Snapshotting?
      modifies this
      ensures Valid() && old(log) <= log
      ensures undisturbed && !Gone(old(w).job) && Honest(status, old(w).snapshots) ==>
        && ok && w.source == old(w).source && w.job.fence == old(w).job.fence && w.job.baseline == old(w).job.baseline
        && w.job.phase == (match status
                           case Refused => Phase.Failed
                           case Ready(_) => Evicting
                           case InProgress(_) => if finished then Phase.Failed else Snapshotting)
    {
      hide IsRun, Guard, Apply, Moves, SourceMoves;
      ok := CheckStatus(status);
      if ok {
        ok := FollowSnapshot(status, finished);
      }
    }

    // ----- Pending -----

    /** A Pending pass: the source is lost, or the budget check had its say. */
    method PendingPass(sourceLost: bool, result: Budget) returns (ok: bool)
      requires Valid() && w.job.phase.Pending?
      modifies this
      ensures Valid() && old(log) <= log
      ensures ok ==>
        w.job.phase == if sourceLost then Phase.Failed else if result.Allowed? then Snapshotting else Pending
      ensures ok && w.job.phase.Pending? ==> w.job.budget == result
      ensures undisturbed && !Gone(old(w).job) ==> ok
    {
      if sourceLost {
        ok := PatchFailed(FailedOtherwise);
      } else if result.Allowed? {
        ok := PatchSnapshotting();
      } else {
        ok := PatchBudget(result);
      }
    }

    method PatchBudget(result: Budget) returns (ok: bool)
      requires Valid() && w.job.phase.Pending?
      modifies this
      ensures Valid() && old(log) <= log
      ensures ok ==> w.job.phase.Pending? && w.job.budget == result
      ensures undisturbed && !Gone(old(w).job) ==> ok
    {
      ok := CallJob();
      if ok {
        Do(OnJob(RecordBudget(result)));
        ok := Answered();
      }
    }

    method PatchSnapshotting() returns (ok: bool)
      requires Valid() && w.job.phase.Pending?
      modifies this
      ensures Valid() && old(log) <= log
      ensures ok ==> w.job.phase.Snapshotting?
      ensures undisturbed && !Gone(old(w).job) ==> ok
    {
      var volumes: seq<string> := *;
      var node: string := *;
      ok := CallJob();
      if ok {
        Do(OnJob(StartSnapshotting(volumes, node)));
        ok := Answered();
      }
    }

    // ----- Evicting -----

    /**
     The source as the cache shows it.  The cache knew the source when the job was Pending, so a
     source it no longer shows is gone, and one it shows terminating is.
    */
    method ReadCachedSource() returns (ok: bool, cached: Option<Source>)
      requires Valid()
      modifies this
      ensures Valid() && old(log) <= log && Calm(old(w), w)
      ensures ok && cached.None? ==> w.source.None?
      ensures ok && cached.Some? && cached.value.terminating && w.source.Some? ==> w.source.value.terminating
      ensures ok && cached.Some? && w.source.Some? ==> cached.value.owned == w.source.value.owned
      ensures undisturbed ==> ok && cached == old(w).source && w == old(w)
    {
      ok := Call();
      cached := *;
      if undisturbed {
        cached := w.source;
      }
      if w.source.Some? && (!cached.Some? || (cached.value.terminating && !w.source.value.terminating)
                            || cached.value.owned != w.source.value.owned) {
        ok := false;
      }
    }

    method EvictOrigin(cached: Source) returns (ok: bool)
      requires Valid() && w.job.phase.Evicting?
      modifies this
      ensures Valid() && old(log) <= log
      ensures undisturbed && !old(w).job.deleting && old(w).source == Some(cached) ==>
        && ok && w.job.phase.Evicting? && w.job.evictingSince
        && w.source == Some(cached.(terminating := cached.terminating || old(w).job.evictingSince))
        && (old(w).job.evictingSince && !cached.terminating ==> !w.job.blocked && !w.job.misconfigured)
    {
      hide IsRun, Guard, Apply, Moves, SourceMoves;
      ok := true;
      if w.job.node == "" {
        var node: string := *;
        if !Gone(w.job) { NodeWorks(w, node); }
        ok := PatchNode(node);
        if !ok {
          return;
        }
      }
      ok := EvictFrom(cached);
    }

    method EvictFrom(cached: Source) returns (ok: bool)
      requires Valid() && w.job.phase.Evicting?
      modifies this
      ensures Valid() && old(log) <= log
      ensures undisturbed && !old(w).job.deleting && old(w).source == Some(cached) ==>
        && ok && w.job.phase.Evicting? && w.job.evictingSince
        && w.source == Some(cached.(terminating := cached.terminating || old(w).job.evictingSince))
        && (old(w).job.evictingSince && !cached.terminating ==> !w.job.blocked && !w.job.misconfigured)
    {
      hide IsRun, Guard, Apply, Moves, SourceMoves;
      ok := true;
      if !w.job.evictingSince {
        if !Gone(w.job) { StampWorks(w); }
        ok := UpdateEvictingSince();
        return;
      }
      if cached.terminating {
        // Its grace period is shortened, and the pass waits.
        return;
      }
      if w.source.Some? { SourceWorks(w, EvictSource); }
      ok := Evict();
      if ok {
        if !Gone(w.job) { BlockageWorks(w, false, false); }
        ok := PatchBlockage(false, false);
      } else {
        var refused: bool := *;
        var misconfigured: bool := *;
        if refused || misconfigured {
          ok := PatchBlockage(refused || w.job.blocked, misconfigured || w.job.misconfigured);
        }
      }
    }

    method EvictingPass(attachments: seq<Attachment>) returns (ok: bool)
      requires Valid() && w.job.phase.Evicting?
      modifies this
      ensures Valid() && old(log) <= log
      ensures undisturbed && !old(w).job.deleting && old(w).source.Some? ==>
        && ok && w.job.phase.Evicting? && w.job.evictingSince
        && w.source.Some?
        && w.source.value.terminating == (old(w).source.value.terminating || old(w).job.evictingSince)
      ensures undisturbed && !old(w).job.deleting && old(w).source.None? ==>
        ok && w.job.phase ==
          if exists a :: a in attachments && a.attached && a.volume != "" && a.volume in old(w).job.volumes
                         && (old(w).job.node == "" || a.node == old(w).job.node) then Evicting
          else Restoring
    {
      hide IsRun, Guard, Apply, Moves;
      TriggerWorks(w);
      Cleanup();
      var cached;
      ok, cached := ReadCachedSource();
      if !ok {
        return;
      }
      if cached.Some? {
        ok := EvictOrigin(cached.value);
        return;
      }
      if w.job.blocked || w.job.misconfigured {
        if !Gone(w.job) { BlockageWorks(w, false, false); }
        ok := PatchBlockage(false, false);
        if !ok {
          return;
        }
      }
      ok := FinishEvicting(attachments);
    }

    /** The source is gone: wait for its volumes, then restore. */
    method FinishEvicting(attachments: seq<Attachment>) returns (ok: bool)
      requires Valid() && w.job.phase.Evicting? && w.source.None? && !w.job.blocked && !w.job.misconfigured
      modifies this
      ensures Valid() && old(log) <= log
      ensures undisturbed && !Gone(old(w).job) ==>
        ok && w.job.phase ==
          if exists a :: a in attachments && a.attached && a.volume != "" && a.volume in old(w).job.volumes
                         && (old(w).job.node == "" || a.node == old(w).job.node) then Evicting
          else Restoring
      ensures undisturbed && !Gone(old(w).job) && w.job.phase.Restoring? ==> !w.job.finalizer
    {
      hide IsRun, Guard, Apply, Moves, Detached, Inv;
      TriggerWorks(w);
      Cleanup();
      ok := Call();
      if !ok {
        return;
      }
      var active := AnyVolumeAttached(w.job.volumes, w.job.node, attachments);
      if active {
        return;
      }
      if !Gone(w.job) { RestoringWorks(w, attachments); }
      ok := PatchRestoring(attachments);
      if ok {
        RunKeeps(log, |log| - 1);
        RestoringIsGone(w);
        GoneIsSettled(w);
        ok := PatchFinalizerGone();
      }
    }

    // ----- Settling the fence -----

    /** Reads the trigger first and the snapshots after it; `k` and `n` are the states that were read. */
    method CheckpointState() returns (outcome: Outcome, ghost k: nat, ghost n: nat)
      requires Valid()
      modifies this
      ensures Valid() && old(log) <= log && Calm(old(w), w)
      ensures outcome.Read? ==>
        |old(log)| <= k + 1 <= n + 1 <= |log| && Tells(outcome, log[k].world, log[n].world)
      ensures outcome == Read(false, true) ==> !w.trigger && AllBroken(w.snapshots)
      ensures undisturbed ==> w == old(w) && outcome.Read? && Tells(outcome, w, w)
    {
      assert log != [];
      hide IsRun, Guard, Apply, Moves;
      k, n := 0, 0;
      var ok := Call();
      var trigger := w.trigger;
      k := |log| - 1;
      if ok {
        ok := Call();
      }
      if !ok {
        return Unreadable, k, n;
      }
      n := |log| - 1;
      var completed, finished := ReadSnapshots(w.snapshots);
      outcome := Read(completed, !trigger && finished);
    }

    /** Whether the checkpoint completed and settled.  A settled failure is final. */
    method CheckpointOutcome() returns (outcome: Outcome, ghost k: nat, ghost n: nat)
      requires Valid() && ConcludedWithout(w.job.phase)
      modifies this
      ensures Valid() && old(log) <= log && Calm(old(w), w)
      ensures old(w).job.evicting.Some? || old(w).job.evictingSince || !reporter ==> outcome == Read(true, true)
      ensures old(w).job.evicting.None? && !old(w).job.evictingSince && reporter && outcome.Read? ==>
        |old(log)| <= k + 1 <= n + 1 <= |log| && Tells(outcome, log[k].world, log[n].world)
      ensures outcome == Read(false, true) ==> w.job.evicting.None? && !w.trigger && AllBroken(w.snapshots)
      ensures undisturbed ==> outcome.Read? && w == old(w).(trigger := w.trigger)
      ensures undisturbed && old(w).job.evicting.None? && !old(w).job.evictingSince && reporter ==>
        Tells(outcome, old(w), old(w))
    {
      hide IsRun, Guard, Apply, Moves, AllBroken, Tells, SourceMoves;
      if w.job.evicting.Some? || w.job.evictingSince || !reporter {
        CalmReflexive(w);
        return Read(true, true), 0, 0;
      }
      outcome, k, n := CheckpointState();
      if outcome == Read(false, false) {
        ghost var before := w;
        TriggerWorks(w);
        Cleanup();
        CalmTwice(old(w), before, w);
      }
    }

    /** A live read of the source, remembered for the decision that relies on it. */
    method ReadLiveSource() returns (ok: bool, live: Option<Source>)
      requires Valid()
      modifies this
      ensures Valid() && old(log) <= log
      ensures SameJob(old(w).job, w.job) && SourceMoves(old(w).source, w.source) && w.now >= old(w).now
      ensures w.unwedge == old(w).unwedge
      ensures !old(w).trigger && AllBroken(old(w).snapshots) ==> !w.trigger && AllBroken(w.snapshots)
      ensures ok ==> live == w.read == w.source
      ensures ok ==> |old(log)| < |log| && log[|log| - 1].act == OnCluster(ReadSource)
      ensures undisturbed ==> ok && w == old(w).(read := old(w).source)
    {
      Await();
      ok := Answered();
      live := None;
      if ok {
        Do(OnCluster(ReadSource));
        live := w.source;
      }
    }

    /** Records that the source stays fenced, makes sure that it is, and evicts it if something replaces it. */
    method KeepSourceFenced(pod: Source) returns (ok: bool, handled: bool)
      requires Valid() && ConcludedWithout(w.job.phase) && (w.job.fence.Fenced? || w.job.fence.Unfenced?)
      requires w.source.Some? ==> pod.owned == w.source.value.owned
      modifies this
      ensures Valid() && old(log) <= log && w.job.phase == old(w).job.phase
      ensures ok && !handled ==> Settled(w)
      ensures ok ==> w.job.fence.FenceKept?
      ensures w.job.fence.FenceKept? || w.job.fence == old(w).job.fence
      ensures undisturbed && !Gone(old(w).job) && old(w).source == Some(pod) ==>
        && ok && handled == pod.owned
        && w.source == Some(pod.(labelled := true, held := true, terminating := pod.terminating || pod.owned))
      ensures undisturbed && !Gone(old(w).job) && old(w).source == Some(pod) ==> !Gone(w.job)
    {
      hide IsRun, Guard, Apply, Moves, SourceMoves, Settled;
      if !Gone(w.job) { KeepWorks(w); }
      ok := PatchFenceKept();
      if !ok {
        return false, true;
      }
      ok, handled := EvictKeptSource(pod);
    }

    method EvictKeptSource(pod: Source) returns (ok: bool, handled: bool)
      requires Valid() && ConcludedWithout(w.job.phase) && w.job.fence.FenceKept?
      requires w.source.Some? ==> pod.owned == w.source.value.owned
      modifies this
      ensures Valid() && old(log) <= log && SameJob(old(w).job, w.job)
      ensures ok && !handled ==> Settled(w)
      ensures undisturbed && old(w).source == Some(pod) ==>
        && ok && handled == pod.owned
        && w.source == Some(pod.(labelled := true, held := true, terminating := pod.terminating || pod.owned))
      ensures undisturbed && !Gone(old(w).job) && old(w).source == Some(pod) ==> !Gone(w.job)
    {
      hide IsRun, Guard, Apply, Moves, SourceMoves;
      ok := ApplyFence(pod);
      if ok && !pod.owned {
        return true, false;
      }
      handled := true;
      if ok {
        if w.source.Some? { SourceWorks(w, EvictSource); }
        ok := Evict();
        var refused: bool := *;
        ok := ok || refused;
      }
    }

    /** Persists SourceFenced=False, and only then removes the label. */
    method UnfenceSource(follow: bool) returns (ok: bool, handled: bool)
      requires Valid() && ConcludedWithout(w.job.phase) && w.job.fence.Fenced? && SafeToUnfence(w)
      modifies this
      ensures Valid() && old(log) <= log && w.job.phase == old(w).job.phase
      ensures ok ==> w.job.fence.Unfenced? && (w.source.Some? ==> !w.source.value.labelled)
      ensures !ok ==> handled
      ensures undisturbed && !Gone(old(w).job) ==> ok && handled == follow
      ensures undisturbed && !Gone(old(w).job) ==> !Gone(w.job)
    {
      hide IsRun, Guard, Apply, Moves, SourceMoves, SafeToUnfence;
      if !Gone(w.job) { UnfenceWorks(w); }
      ok := PatchUnfenced();
      if ok {
        if w.source.Some? { SourceWorks(w, RemoveLabel); }
        ok := PatchUnlabelled();
      }
      handled := !ok || follow;
    }

    method PatchUnfenced() returns (ok: bool)
      requires Valid() && ConcludedWithout(w.job.phase) && w.job.fence.Fenced? && SafeToUnfence(w)
      modifies this
      ensures Valid() && old(log) <= log && w.job.phase == old(w).job.phase
      ensures ok ==> w.job.fence.Unfenced?
      ensures undisturbed && !Gone(old(w).job) ==> ok && w == Apply(old(w), OnJob(Unfence))
    {
      hide IsRun, Guard, Apply, Moves, SourceMoves, SafeToUnfence, AllBroken;
      ghost var before := w;
      ok := CallJob();
      if ok {
        SafetyStands(before, w);
        UnfenceWorks(w);
        Do(OnJob(Unfence));
        ok := Answered();
      }
    }

    /** Returns the source of a failed migration to service, keeps it fenced, or waits. */
    method DecideSourceFence() returns (ok: bool, handled: bool)
      requires Valid() && ConcludedWithout(w.job.phase) && w.job.fence.Fenced?
      modifies this
      ensures Valid() && old(log) <= log && w.job.phase == old(w).job.phase
      ensures ok && !handled ==> Settled(w)
      ensures ok && w.job.fence.Fenced? && old(w).now >= Concluded(old(w).job) + 30 ==>
        log[|log| - 1].act == OnCluster(ReadSource) && (w.source.None? || w.source.value.terminating)
      ensures undisturbed && !Gone(old(w).job) && old(w).source.Some? && !old(w).source.value.terminating ==>
        ok && Decided(old(w), reporter, w.job.fence)
      ensures undisturbed && !Gone(old(w).job) && old(w).source.Some? ==> !Gone(w.job)
    {
      hide IsRun, Guard, Apply, Moves, SourceMoves, Unchanged, AllBroken;
      if w.job.baseline.None? && !reporter {
        var live;
        ok, live := ReadLiveSource();
        if !ok || live.None? {
          return ok, !ok;
        }
        ok, handled := UnfenceSource(false);
        return;
      }
      var outcome;
      ghost var k, n;
      outcome, k, n := CheckpointOutcome();
      var verdict := FenceDecision(outcome, w.job, w.now);
      if verdict.Wait? {
        return true, true;
      }
      ok, handled, k := ActOn(verdict);
    }

    /** Acts on the verdict, on a live read of the source. */
    method ActOn(verdict: FenceVerdict) returns (ok: bool, handled: bool, ghost k: nat)
      requires Valid() && ConcludedWithout(w.job.phase) && w.job.fence.Fenced? && !verdict.Wait?
      requires verdict.ReturnToService? ==> w.job.evicting.None? && !w.trigger && AllBroken(w.snapshots)
      modifies this
      ensures Valid() && old(log) <= log && w.job.phase == old(w).job.phase
      ensures ok && !handled ==> Settled(w)
      ensures verdict.Keep? ==> w.job.fence.Fenced? || w.job.fence.FenceKept?
      ensures ok && w.job.fence.Fenced? ==>
        log[|log| - 1].act == OnCluster(ReadSource) && (w.source.None? || w.source.value.terminating)
      ensures ok && verdict.ReturnToService? && !w.job.fence.Fenced? ==>
        && |old(log)| <= k < |log| && log[k].act == OnCluster(ReadSource) && log[k].world.source.Some?
        && (w.job.fence.Unfenced? <==>
              old(w).job.baseline.None? || Unchanged(old(w).job.baseline.value, log[k].world.source.value))
      ensures undisturbed && !Gone(old(w).job) && old(w).source.Some? && !old(w).source.value.terminating ==>
        ok && w.job.fence ==
          if verdict.ReturnToService?
             && (old(w).job.baseline.None? || Unchanged(old(w).job.baseline.value, old(w).source.value)) then Unfenced
          else FenceKept
      ensures undisturbed && !Gone(old(w).job) && old(w).source.Some? ==> !Gone(w.job)
    {
      assert log != [];
      hide IsRun, Guard, Apply, Moves;
      var live;
      ok, live := ReadLiveSource();
      k := |log| - 1;
      if !ok || live.None? || live.value.terminating {
        return ok, !ok, k;
      }
      if verdict.Keep? {
        ok, handled := KeepSourceFenced(live.value);
      } else if w.job.baseline.None? {
        ok, handled := UnfenceSource(false);
      } else {
        var same := CompareContainers(w.job.baseline.value, live.value);
        if same {
          ok, handled := UnfenceSource(!w.job.deleting);
        } else {
          ok, handled := KeepSourceFenced(live.value);
        }
      }
    }

    /** The late-stop watch: a source that stopped after all is fenced again, for good. */
    method WatchUnfencedSource(cached: Source) returns (ok: bool, handled: bool)
      requires Valid() && ConcludedWithout(w.job.phase) && w.job.fence.Unfenced?
      modifies this
      ensures Valid() && old(log) <= log && w.job.phase == old(w).job.phase
      ensures ok && !handled ==> Settled(w)
      ensures ok && w.job.fence.Unfenced? ==> StillWatched(cached)
      ensures undisturbed && !Gone(old(w).job) && old(w).source == Some(cached) ==>
        ok && w.job.fence ==
          if old(w).job.baseline.Some? && old(w).now < old(w).job.fencedAt + watch && !old(w).job.deleting
             && !cached.terminating && !Unchanged(old(w).job.baseline.value, cached) then FenceKept
          else Unfenced
      ensures undisturbed && !Gone(old(w).job) && old(w).source == Some(cached) ==> !Gone(w.job)
    {
      hide IsRun, Guard, Apply, Moves, SourceMoves, StillWatched, Unchanged, SourceAfter;
      LabelIsNoContainer(cached);
      ok := RemoveFenceLabel(cached);
      handled := true;
      if ok {
        ok, handled := WatchContainers(cached);
      }
    }

    method RemoveFenceLabel(cached: Source) returns (ok: bool)
      requires Valid() && w.job.fence.Unfenced?
      modifies this
      ensures Valid() && old(log) <= log && SameJob(old(w).job, w.job)
      ensures undisturbed && old(w).source == Some(cached) ==>
        ok && w == old(w).(source := Some(cached.(labelled := false)))
      ensures undisturbed && !Gone(old(w).job) && old(w).source == Some(cached) ==> !Gone(w.job)
    {
      hide IsRun, Guard, Apply, Moves, SourceMoves;
      ok := true;
      if cached.labelled {
        if w.source.Some? { SourceWorks(w, RemoveLabel); }
        ok := PatchUnlabelled();
      }
    }

    /** Why a source that was unfenced is left alone. */
    ghost predicate StillWatched(cached: Source)
      reads this
    {
      && log != []
      && (|| w.job.baseline.None? || w.now >= w.job.fencedAt + watch || w.job.deleting
          || Unchanged(w.job.baseline.value, cached)
          || (log[|log| - 1].act == OnCluster(ReadSource)
              && (w.source.None? || w.source.value.terminating || Unchanged(w.job.baseline.value, w.source.value))))
    }

    lemma LabelIsNoContainer(p: Source)
      ensures forall b :: Unchanged(b, p.(labelled := false)) == Unchanged(b, p)
    {
    }

    /** Inside the watch the source has to run the containers it was fenced with. */
    method WatchContainers(cached: Source) returns (ok: bool, handled: bool)
      requires Valid() && ConcludedWithout(w.job.phase) && w.job.fence.Unfenced?
      modifies this
      ensures Valid() && old(log) <= log && w.job.phase == old(w).job.phase
      ensures ok && !handled ==> Settled(w)
      ensures ok && w.job.fence.Unfenced? ==> StillWatched(cached)
      ensures undisturbed && !Gone(old(w).job) && old(w).source.Some? ==>
        ok && w.job.fence ==
          if old(w).job.baseline.Some? && old(w).now < old(w).job.fencedAt + watch && !old(w).job.deleting
             && !old(w).source.value.terminating && !Unchanged(old(w).job.baseline.value, cached)
             && !Unchanged(old(w).job.baseline.value, old(w).source.value) then FenceKept
          else Unfenced
      ensures undisturbed && !Gone(old(w).job) && old(w).source.Some? ==> !Gone(w.job)
    {
      assert log != [];
      hide IsRun, Guard, Apply, Moves, SourceMoves, Unchanged;
      if w.job.baseline.None? || w.now >= w.job.fencedAt + watch || w.job.deleting {
        return true, false;
      }
      var same := CompareContainers(w.job.baseline.value, cached);
      if same {
        return true, true;
      }
      // The cache may lag: only a live read decides.
      var live;
      ok, live := ReadLiveSource();
      if !ok || live.None? || live.value.terminating {
        return ok, !ok;
      }
      same := CompareContainers(w.job.baseline.value, live.value);
      if same {
        return true, true;
      }
      ok, handled := KeepSourceFenced(live.value);
    }

    /** Settles the fence of a job that concluded without a restore; `handled` means that work is left. */
    method ResolveSourceFence() returns (ok: bool, handled: bool)
      requires Valid()
      modifies this
      ensures Valid() && old(log) <= log && w.job.phase == old(w).job.phase
      ensures ok && !handled && Terminal(w.job.phase) ==> Settled(w)
      ensures undisturbed && !Gone(old(w).job) ==> ok
      ensures undisturbed && !Gone(old(w).job) && ConcludedWithout(old(w).job.phase) && old(w).job.fence.Fenced?
              && old(w).source.Some? && !old(w).source.value.terminating ==>
        Decided(old(w), reporter, w.job.fence)
      ensures undisturbed && !Gone(old(w).job) ==> !Gone(w.job)
    {
      RunKeeps(log, |log| - 1);
      SucceededIsGone(w);
      hide IsRun, Guard, Apply, Moves, SourceMoves, Inv, Decided, StillWatched, Unchanged;
      if !ConcludedWithout(w.job.phase) || w.job.fence.NoFence? {
        return true, false;
      }
      var cached;
      ok, cached := ReadCachedSource();
      if !ok || !cached.Some? || cached.value.terminating {
        return ok, !ok;
      }
      match w.job.fence
      case NoFence => return true, false;
      case Fenced => ok, handled := DecideSourceFence();
      case FenceKept => ok, handled := EvictKeptSource(cached.value);
      case Unfenced => ok, handled := WatchUnfencedSource(cached.value);
    }

    /**
     A deleted job settles its fence before it lets go of its finalizer.  Past the unwedge timeout the
     deletion goes on, with the source still fenced.
    */
    method FinalizeSourceFence() returns (ok: bool)
      requires Valid() && w.job.deleting
      modifies this
      ensures Valid() && old(log) <= log
      ensures ok ==> Terminal(w.job.phase)
      ensures ok && Terminal(old(w).job.phase) && old(w).now - UnwedgeAnchor(old(w).job) >= old(w).unwedge ==>
        !w.job.finalizer
      ensures undisturbed && old(w).job.finalizer ==> ok && (w.job.finalizer ==> Holdable(w))
      ensures old(w).job.finalizer && !w.job.finalizer ==> exists i: nat :: |old(log)| <= i && LetGoAt(log, i)
    {
      assert log != [] && w == log[|log| - 1].world;
      hide Settled, Guard, Apply, Moves, IsRun, SourceMoves, Holdable, UnwedgeAnchor, LetGoAt;
      ok := ConcludeDeleted();
      if ok {
        Since(old(log), old(w));
        if Terminal(old(w).job.phase) { LateStays(old(w), w); }
        ok := SettleDeleted();
      }
      LetGo(old(log), old(w));
    }

    /** The trigger goes, and a job that still migrates fails. */
    method ConcludeDeleted() returns (ok: bool)
      requires Valid() && w.job.deleting
      modifies this
      ensures Valid() && old(log) <= log && w.job.deleting
      ensures ok ==> Terminal(w.job.phase)
      ensures undisturbed && old(w).job.finalizer ==> ok && w.job.finalizer
    {
      assert log != [] && w == log[|log| - 1].world;
      hide Guard, Apply, Moves, IsRun, SourceMoves;
      TriggerWorks(w);
      Cleanup();
      ok := true;
      if !Terminal(w.job.phase) {
        if !Gone(w.job) { FailWorks(w, FailedOtherwise); }
        ok := PatchFailed(FailedOtherwise);
        Since(old(log), old(w));
      }
    }

    method SettleDeleted() returns (ok: bool)
      requires Valid() && w.job.deleting && Terminal(w.job.phase)
      modifies this
      ensures Valid() && old(log) <= log && Terminal(w.job.phase)
      ensures ok && old(w).now - UnwedgeAnchor(old(w).job) >= old(w).unwedge ==> !w.job.finalizer
      ensures undisturbed && old(w).job.finalizer ==> ok && (w.job.finalizer ==> Holdable(w))
    {
      assert log != [] && w == log[|log| - 1].world;
      hide Settled, Guard, Apply, Moves, IsRun, SourceMoves, UnwedgeAnchor;
      var handled;
      ok, handled := ResolveSourceFence();
      Since(old(log), old(w));
      LateStays(old(w), w);
      if ok && !handled {
        ok := PatchFinalizerGone();
        return;
      }
      ok := Unwedge(ok);
    }

    /** The fence is not settled: unless the source goes, or the deletion waited long enough, the job stays. */
    method Unwedge(settling: bool) returns (ok: bool)
      requires Valid() && w.job.deleting && Terminal(w.job.phase)
      modifies this
      ensures Valid() && old(log) <= log && w.job.phase == old(w).job.phase
      ensures ok && old(w).now - UnwedgeAnchor(old(w).job) >= old(w).unwedge ==> !w.job.finalizer
      ensures undisturbed && settling && !Gone(old(w).job) ==> ok && (w.job.finalizer ==> Holdable(w))
    {
      hide Settled, Guard, Apply, Moves, IsRun, SourceMoves;
      ok := settling;
      if ok {
        var read, live := ReadLiveSource();
        if read && (live.None? || live.value.terminating) {
          GoneIsSettled(w);
          ok := PatchFinalizerGone();
          return;
        }
      }
      if w.now - UnwedgeAnchor(w.job) >= w.unwedge {
        LateIsSettled(w);
        ok := PatchFinalizerGone();
      }
    }

    /** A deletion can be held up only while the source runs, and only for so long. */
    predicate Holdable(v: World) {
      v.source.Some? && !v.source.value.terminating && v.now - UnwedgeAnchor(v.job) < v.unwedge
    }

    lemma LateStays(v: World, u: World)
      requires DeletionStands(v, u) && v.job.deleting && Terminal(v.job.phase)
      ensures v.now - UnwedgeAnchor(v.job) >= v.unwedge ==> u.now - UnwedgeAnchor(u.job) >= u.unwedge
    {
    }

    /** A finalizer that went since an earlier state of the run was let go of when it could be. */
    lemma LetGo(earlier: seq<Entry>, v: World)
      requires Valid() && earlier <= log && earlier != [] && v == earlier[|earlier| - 1].world
      ensures v.job.finalizer && !w.job.finalizer ==> exists i: nat :: |earlier| <= i && LetGoAt(log, i)
    {
      if v.job.finalizer && !w.job.finalizer {
        var i := FinalizerWasLetGo(log, |earlier| - 1, |log| - 1);
      }
    }

    /** What stands since an earlier state of the run. */
    lemma Since(earlier: seq<Entry>, v: World)
      requires Valid() && earlier <= log && earlier != [] && v == earlier[|earlier| - 1].world
      ensures DeletionStands(v, w)
    {
      RunKeepsDeletion(log, |earlier| - 1, |log| - 1);
    }

    lemma GoneIsSettled(v: World)
      requires v.source.None? || v.source.value.terminating
      ensures Settled(v)
    {
    }

    lemma LateIsSettled(v: World)
      requires v.job.deleting && v.now - UnwedgeAnchor(v.job) >= v.unwedge
      ensures Settled(v)
    {
    }

    // ----- Restoring -----

    /** The recorded consumer as the cache shows it. */
    method ReadCachedReplacement() returns (ok: bool, seen: Seen)
      requires Valid()
      modifies this
      ensures Valid() && old(log) <= log && SameJob(old(w).job, w.job) && w.window == old(w).window
      ensures ok && seen.Pod? ==>
        seen.at < w.replacement.seen <= |w.replacement.versions| && w.replacement.versions[seen.at] == seen.version
      ensures ok && seen.Pod? ==> w.job.consumer == old(w).job.consumer
      ensures undisturbed ==> ok && w == old(w)
      ensures undisturbed && !old(w).replacement.gone && old(w).replacement.seen > 0 ==>
        seen.Pod? && seen.at == old(w).replacement.seen - 1
    {
      var consumer := w.job.consumer;
      ok := Call();
      RunKeeps(log, |log| - 1);
      var missing: bool := *;
      var reused: bool := *;
      if w.job.consumer != consumer || w.replacement.seen == 0 || (w.replacement.gone && missing) {
        return ok, Missing;
      }
      if w.replacement.gone && reused {
        return ok, Mismatch;
      }
      seen := Pod(w.replacement.seen - 1, w.replacement.versions[w.replacement.seen - 1]);
    }

    /** The recorded consumer as the API server has it. */
    method ReadLiveReplacement() returns (ok: bool, seen: Seen)
      requires Valid()
      modifies this
      ensures Valid() && old(log) <= log && SameJob(old(w).job, w.job) && w.window == old(w).window
      ensures ok && seen.Pod? ==> seen.at == |w.replacement.versions| - 1
      ensures ok && seen.Pod? ==> w.replacement.versions[seen.at] == seen.version && !w.replacement.gone
      ensures ok && seen.Pod? ==> w.job.consumer == old(w).job.consumer
      ensures ok && !seen.Pod? ==>
        w.job.consumer != old(w).job.consumer || w.replacement.gone || w.replacement.versions == []
      ensures undisturbed ==> ok && w == old(w)
    {
      var consumer := w.job.consumer;
      ok := Call();
      if w.job.consumer != consumer || w.replacement.gone || w.replacement.versions == [] {
        return ok, Missing;
      }
      seen := Pod(|w.replacement.versions| - 1, w.replacement.versions[|w.replacement.versions| - 1]);
    }

    /** The patch that retires the order, with the version that was read as precondition. */
    method PatchRetired() returns (ok: bool)
      requires Valid() && Released(w.replacement)
      requires 0 < w.looked <= |w.replacement.versions| && w.replacement.versions[w.looked - 1].order.RestoreOrder?
      modifies this
      ensures Valid() && old(log) <= log && Concerns(old(w), w) && w.looked == old(w).looked
      ensures ok ==> Retired(w.replacement)
      ensures undisturbed && (old(w).looked == |old(w).replacement.versions| || old(w).replacement.gone) ==> ok
      ensures undisturbed ==> w.job == old(w).job && w.now == old(w).now
    {
      Await();
      ok := Answered();
      if w.replacement.gone {
        return true;
      }
      if ok && w.looked == |w.replacement.versions| {
        Do(OnCluster(RetireOrder));
        ok := Answered();
      } else {
        ok := false;
      }
    }

    /** A version that left the gate settles who the consumer is. */
    lemma ReleasedByVersion(v: World, at: nat)
      requires Valid() && v == w && at < |v.replacement.versions| && !v.replacement.versions[at].gated
      ensures Released(v.replacement)
    {
      RunKeeps(log, |log| - 1);
      assert Later(v.replacement.versions[at], v.replacement.versions[|v.replacement.versions| - 1]);
    }

    /**
     Makes later restarts of the replacement start cold.  The read behind it comes from the cache: a
     version that is older than the one the pass relies on, and does not carry the order, hides it.
    */
    method CompleteRestore(at: nat) returns (ok: bool)
      requires Valid() && at < |w.replacement.versions| && !w.replacement.versions[at].gated
      modifies this
      ensures Valid() && old(log) <= log && Concerns(old(w), w)
      ensures old(w).replacement.seen <= w.looked <= |w.replacement.versions|
      ensures ok ==> Retired(w.replacement) || Unnoticed(w.replacement, at, w.looked)
      ensures undisturbed && old(w).replacement.seen == |old(w).replacement.versions| ==> ok && Retired(w.replacement)
      ensures undisturbed ==> w.job == old(w).job
    {
      hide IsRun, Guard, Apply, Moves, SourceMoves, Inv;
      ReleasedByVersion(w, at);
      Await();
      ok := Answered();
      ReplacementFacts();
      Do(OnCluster(ReadCached));
      if ok && !w.replacement.gone && w.looked > 0 {
        ok := RetireSeen(at);
      }
    }

    /** The version that the cache showed carries the order, or has nothing to retire. */
    method RetireSeen(at: nat) returns (ok: bool)
      requires Valid() && ReplacementOk(w.replacement) && Released(w.replacement) && !w.replacement.gone
      requires at < |w.replacement.versions| && !w.replacement.versions[at].gated
      requires 0 < w.looked <= |w.replacement.versions|
      modifies this
      ensures Valid() && old(log) <= log && Concerns(old(w), w) && w.looked == old(w).looked
      ensures ok ==> Retired(w.replacement) || Unnoticed(w.replacement, at, w.looked)
      ensures undisturbed && old(w).looked == |old(w).replacement.versions| ==> ok && Retired(w.replacement)
      ensures undisturbed ==> w.job == old(w).job
    {
      hide IsRun, Guard, Apply, Moves, SourceMoves;
      ok := true;
      if w.replacement.versions[w.looked - 1].order.RestoreOrder? {
        ok := PatchRetired();
      } else {
        var last := w.replacement.versions[|w.replacement.versions| - 1];
        assert Later(w.replacement.versions[w.looked - 1], last);
        if at < w.looked {
          assert Later(w.replacement.versions[at], w.replacement.versions[w.looked - 1]);
        }
      }
    }

    lemma ReplacementFacts()
      requires Valid()
      ensures ReplacementOk(w.replacement)
      ensures Guard(w, OnCluster(ReadCached)) && Apply(w, OnCluster(ReadCached)) == w.(looked := w.replacement.seen)
    {
      RunKeeps(log, |log| - 1);
    }

    method PatchSucceeded(ev: Evidence) returns (ok: bool)
      requires Valid() && w.job.phase.Restoring? && Convincing(w, ev) && w.looked <= |w.replacement.versions|
      requires (!ev.ceiling ==> ev.at < w.looked)
          && (Unnoticed(w.replacement, ev.at, w.looked) || Retired(w.replacement))
      modifies this
      ensures Valid() && old(log) <= log
      ensures ok ==> w.job.phase.Succeeded?
      ensures undisturbed && !Gone(old(w).job) ==> ok && w.replacement == old(w).replacement
    {
      ReplacementFacts();
      assert VersionOk(w.replacement.versions[ev.at]);
      ReleasedByVersion(w, ev.at);
      hide IsRun, Guard, Apply, Moves, Convincing, Retired, Unnoticed, SourceMoves, Inv;
      ghost var before := w;
      Await();
      EvidenceStands(before, w, ev);
      ok := Answered();
      if !ok || Gone(w.job) {
        return false;
      }
      SucceedWorks(w, ev);
      Do(OnJob(ConcludeRestored(ev)));
      ok := Answered();
    }

    /** Concludes the job on the engine's verdict: first the order is retired, then Succeeded is recorded. */
    method ConcludeRestore(at: nat, verdict: Verdict, seenAt: Time, cached: bool) returns (ok: bool)
      requires Valid() && w.job.phase.Restoring? && Convincing(w, Evidence(at, verdict, seenAt, !cached))
      requires cached ==> at < w.replacement.seen
      modifies this
      ensures Valid() && old(log) <= log
      ensures ok ==> w.job.phase.Succeeded?
      ensures undisturbed && !Gone(old(w).job) && old(w).replacement.seen == |old(w).replacement.versions| ==>
        ok && Retired(w.replacement)
    {
      RunKeeps(log, |log| - 1);
      ok := CompleteRestore(at);
      if ok {
        assert Convincing(w, Evidence(at, verdict, seenAt, !cached));
        ok := PatchSucceeded(Evidence(at, verdict, seenAt, !cached));
      }
    }

    /** Deletes the crashed replacement, by UID: a successor under the same name is never touched. */
    method DeleteCrashedReplacement() returns (ok: bool)
      requires Valid() && w.job.phase.Failed? && w.job.crashed
      modifies this
      ensures Valid() && old(log) <= log && SameJob(old(w).job, w.job)
      ensures undisturbed ==>
        && ok && w.job == old(w).job
        && w.replacement == old(w).replacement.(gone := old(w).replacement.gone || old(w).replacement.versions != [])
    {
      hide IsRun, Guard, Apply, Moves, SourceMoves;
      var seen;
      ok, seen := ReadLiveReplacement();
      if !ok || !seen.Pod? {
        return;
      }
      ok := Call();
      if ok {
        DeleteWorks(w);
        Do(OnCluster(DeleteReplacement));
        ok := Answered();
      }
    }

    /** Failed is persisted before the crashed pod goes. */
    method ConcludeRestoreCrash() returns (ok: bool)
      requires Valid() && w.job.phase.Restoring?
      modifies this
      ensures Valid() && old(log) <= log
      ensures ok ==> w.job.phase.Failed? && w.job.crashed
      ensures undisturbed && !Gone(old(w).job) ==>
        ok && w.replacement.gone == (old(w).replacement.gone || old(w).replacement.versions != [])
    {
      ok := PatchCrashed();
      if ok {
        ok := DeleteCrashedReplacement();
      }
    }

    /**
     Past the ceiling: a crash, a restore that is accepted after all, a gated claimant, or a
     conclusion without restore.  A job with a consumer always concludes.
    */
    method RestoreCeiling(fatal: bool, verdict: Verdict, gated: bool) returns (ok: bool, ghost k: nat)
      requires Valid() && w.job.phase.Restoring?
      modifies this
      ensures Valid() && old(log) <= log
      ensures ok && old(w).job.consumer.None? ==> w.job.phase == if gated then Restoring else SucceededWithoutRestore
      ensures ok && old(w).job.consumer.Some? ==> |old(log)| <= k + 1 <= |log|
      ensures ok && old(w).job.consumer.Some? ==>
        var v := log[k].world;
        w.job.phase ==
          if v.job.consumer == old(w).job.consumer && !v.replacement.gone && v.replacement.versions != [] then
            var last := v.replacement.versions[|v.replacement.versions| - 1];
            if fatal then Phase.Failed
            else if last.readiness.Ready? && last.restarts == 0 && verdict.outcome.Restored?
                    && Stable(v.window, last.readiness, Anchored(v), v.now) then Succeeded
            else SucceededWithoutRestore
          else SucceededWithoutRestore
      ensures undisturbed && !Gone(old(w).job) && old(w).replacement.seen == |old(w).replacement.versions| ==>
        ok && (old(w).job.consumer.Some? ==> log[k].world == old(w))
    {
      assert log != [];
      hide IsRun, Guard, Apply, Moves, Stable;
      k := 0;
      if w.job.consumer.Some? {
        var seen;
        ok, seen := ReadLiveReplacement();
        k := |log| - 1;
        if !ok {
          return;
        }
        if seen.Pod? && fatal {
          ok := ConcludeRestoreCrash();
          return;
        }
        if seen.Pod? && seen.version.readiness.Ready? && seen.version.restarts == 0
           && Stable(w.window, seen.version.readiness, Anchored(w), w.now) && verdict.outcome.Restored? {
          ok := ConcludeLive(seen.at, verdict);
          return;
        }
      } else if gated {
        return true, k;
      }
      ok := PatchWithoutRestore();
    }

    method ConcludeLive(at: nat, verdict: Verdict) returns (ok: bool)
      requires Valid() && w.job.phase.Restoring? && Convincing(w, Evidence(at, verdict, w.now, true))
      modifies this
      ensures Valid() && old(log) <= log
      ensures ok ==> w.job.phase.Succeeded?
      ensures undisturbed && !Gone(old(w).job) && old(w).replacement.seen == |old(w).replacement.versions| ==> ok
    {
      ok := ConcludeRestore(at, verdict, w.now, false);
    }

    /** The replacement is not Ready: only a crash or the engine's own failure concludes here. */
    method JudgeUnready(fatal: bool, confirmed: bool, verdict: Verdict) returns (ok: bool)
      requires Valid() && w.job.phase.Restoring?
      modifies this
      ensures Valid() && old(log) <= log
      ensures undisturbed && !Gone(old(w).job) && !old(w).replacement.gone && old(w).replacement.versions != [] ==>
        ok && w.job.phase ==
          if fatal then (if confirmed then Phase.Failed else Restoring)
          else if verdict.outcome.ColdStart? || verdict.outcome.RestoreFailed? then SucceededWithoutRestore
          else Restoring
    {
      hide IsRun, Guard, Apply, Moves, SourceMoves;
      if fatal {
        // The cache only nominates a candidate; a live read decides.
        var seen;
        ok, seen := ReadLiveReplacement();
        if ok && seen.Pod? && confirmed {
          ok := ConcludeRestoreCrash();
        }
        return;
      }
      ok := Call();
      if ok && (verdict.outcome.ColdStart? || verdict.outcome.RestoreFailed?) {
        ok := PatchWithoutRestore();
      }
    }

    /** The replacement is Ready: the engine's verdict decides. */
    method JudgeReady(at: nat, verdict: Verdict) returns (ok: bool)
      requires Valid() && w.job.phase.Restoring? && w.job.consumer.Some?
      requires at < w.replacement.seen <= |w.replacement.versions| && w.replacement.versions[at].readiness.Ready?
      modifies this
      ensures Valid() && old(log) <= log
      ensures ok ==>
        var v := old(w).replacement.versions[at];
        w.job.phase ==
          if verdict.outcome.ColdStart? || verdict.outcome.RestoreFailed? || v.restarts > 0 then SucceededWithoutRestore
          else if verdict.outcome.Restored?
                  && (verdict.confirmed || Stable(old(w).window, v.readiness, Anchored(old(w)), old(w).now))
                    then Succeeded
          else Restoring
      ensures undisturbed && !Gone(old(w).job) && old(w).replacement.seen == |old(w).replacement.versions| ==> ok
    {
      var version := w.replacement.versions[at];
      WaitAgreesWithCeiling(w.window, version.readiness, Anchored(w), w.now);
      if verdict.outcome.ColdStart? || verdict.outcome.RestoreFailed? {
        ok := PatchWithoutRestore();
      } else if version.restarts > 0 {
        ok := PatchWithoutRestore();
      } else if !verdict.outcome.Restored? {
        return true;
      } else if !verdict.confirmed && StabilizationRemaining(w.window, version.readiness, Anchored(w), w.now) > 0 {
        return true;
      } else {
        ok := ConcludeRestore(at, verdict, w.now, true);
      }
    }

    /**
     A pass through Restoring.  Undisturbed, on a cache that is current: past the ceiling see RestoreCeiling; before
     it a job without a consumer waits, and a consumer that is there is judged by whether it is Ready.
    */
    method RestoringPass(fatal: bool, confirmed: bool, persisted: bool, gated: bool, verdict: Verdict)
        returns (ok: bool)
      requires Valid() && w.job.phase.Restoring?
      modifies this
      ensures Valid() && old(log) <= log
      ensures undisturbed && AtTheCeiling(old(w)) && !Gone(old(w).job) && CacheIsCurrent(old(w)) ==>
        ok && (w.job.phase.Restoring? <==> old(w).job.consumer.None? && gated)
      ensures undisturbed && !AtTheCeiling(old(w)) && old(w).job.consumer.None? ==> ok && w == old(w)
      ensures undisturbed && !AtTheCeiling(old(w)) && old(w).job.consumer.Some? && !Gone(old(w).job)
              && CacheIsCurrent(old(w)) && !old(w).replacement.gone && old(w).replacement.versions != [] ==>
        var last := old(w).replacement.versions[|old(w).replacement.versions| - 1];
        ok && w.job.phase ==
          if last.readiness.Ready? then
            if verdict.outcome.ColdStart? || verdict.outcome.RestoreFailed? || last.restarts > 0
              then SucceededWithoutRestore
            else if verdict.outcome.Restored?
                    && (verdict.confirmed || Stable(old(w).window, last.readiness, Anchored(old(w)), old(w).now))
              then Succeeded
            else Restoring
          else if fatal then (if confirmed then Phase.Failed else Restoring)
          else if verdict.outcome.ColdStart? || verdict.outcome.RestoreFailed? then SucceededWithoutRestore
          else Restoring
    {
      RestoringHasTime();
      hide IsRun, Guard, Apply, Moves, SourceMoves, Stable, Inv;
      if w.now - w.job.restoring.value > RESTORE_TIMEOUT + (if w.window > 0 then w.window else 0) {
        ghost var k;
        ok, k := RestoreCeiling(fatal, verdict, gated);
        return;
      }
      if w.job.consumer.None? {
        return true;
      }
      ok := JudgeConsumer(fatal, confirmed, persisted, verdict);
    }

    /** What the cache shows of the recorded consumer decides. */
    method JudgeConsumer(fatal: bool, confirmed: bool, persisted: bool, verdict: Verdict) returns (ok: bool)
      requires Valid() && w.job.phase.Restoring? && w.job.consumer.Some?
      modifies this
      ensures Valid() && old(log) <= log
      ensures undisturbed && !Gone(old(w).job)
              && CacheIsCurrent(old(w)) && !old(w).replacement.gone && old(w).replacement.versions != [] ==>
        var last := old(w).replacement.versions[|old(w).replacement.versions| - 1];
        ok && w.job.phase ==
          if last.readiness.Ready? then
            if verdict.outcome.ColdStart? || verdict.outcome.RestoreFailed? || last.restarts > 0
              then SucceededWithoutRestore
            else if verdict.outcome.Restored?
                    && (verdict.confirmed || Stable(old(w).window, last.readiness, Anchored(old(w)), old(w).now))
              then Succeeded
            else Restoring
          else if fatal then (if confirmed then Phase.Failed else Restoring)
          else if verdict.outcome.ColdStart? || verdict.outcome.RestoreFailed? then SucceededWithoutRestore
          else Restoring
    {
      hide IsRun, Guard, Apply, Moves, SourceMoves, Stable;
      var seen;
      ok, seen := ReadCachedReplacement();
      if !ok {
        return;
      }
      match seen
      case Missing =>
      case Mismatch =>
        // A successor took the name: tolerated for a while, then the job concludes.
        if persisted {
          ok := PatchWithoutRestore();
        }
      case Pod(at, version) =>
        if version.readiness.Ready? {
          ok := JudgeReady(at, verdict);
        } else {
          ok := JudgeUnready(fatal, confirmed, verdict);
        }
    }

    /** The restore has lasted for its timeout and the stabilization window. */
    predicate AtTheCeiling(v: World) {
      v.job.restoring.Some? && v.now > v.job.restoring.value + 300 + (if v.window > 0 then v.window else 0)
    }

    predicate CacheIsCurrent(v: World) {
      v.replacement.seen == |v.replacement.versions|
    }

    lemma RestoringHasTime()
      requires Valid() && w.job.phase.Restoring?
      ensures w.job.restoring.Some?
    {
      RunKeeps(log, |log| - 1);
    }

    // ----- A pass -----

    method PatchPending() returns (ok: bool)
      requires Valid() && w.job.phase.Unset?
      modifies this
      ensures Valid() && old(log) <= log
    {
      ok := CallJob();
      if ok {
        Do(OnJob(InitPhase));
        ok := Answered();
      }
    }

    /**
     The deadline of Pending, Snapshotting and Evicting; `ended` says that the pass is over, and
     `progressing` that the engine's snapshot still advances.
    */
    method EnforceTimeout(progressing: bool) returns (ok: bool, ended: bool)
      requires Valid()
      modifies this
      ensures Valid() && old(log) <= log
      ensures !ended ==> w == old(w)
      ensures ended <==>
        var j := old(w).job;
        var since := old(w).now - (if j.snapshotting.Some? then j.snapshotting.value else j.created);
        && (j.phase.Pending? || j.phase.Snapshotting? || j.phase.Evicting?) && since > timeout
        && !(progressing && j.phase.Snapshotting? && j.ref != "" && since <= 7200)
        && !(j.phase.Evicting? && since <= 7200 && j.evicting.Some? && old(w).now < j.evicting.value + timeout)
      ensures ended && ok ==>
        w.job.phase ==
          if old(w).job.phase.Evicting? && (old(w).job.blocked || old(w).job.misconfigured) then SucceededWithoutRestore
          else Phase.Failed
      ensures ended && ok && w.job.phase.Failed? ==>
        w.job.reason ==
          if old(w).job.phase.Pending? && old(w).job.budget.Refused? then BudgetTimeout else FailedOtherwise
      ensures undisturbed && !Gone(old(w).job) ==> ok
    {
      hide IsRun, Guard, Apply, Moves, SourceMoves;
      var j := w.job;
      if !(j.phase.Pending? || j.phase.Snapshotting? || j.phase.Evicting?) || w.now - DeadlineAnchor(j) <= timeout {
        return true, false;
      }
      if progressing && j.phase.Snapshotting? && j.ref != "" && w.now - DeadlineAnchor(j) <= MAX_MIGRATION_TIMEOUT {
        return true, false;
      }
      if EvictionWithinBudget(j, w.now, timeout) {
        return true, false;
      }
      ended := true;
      ok := TimeOut();
    }

    /** How a job past its deadline concludes. */
    method TimeOut() returns (ok: bool)
      requires Valid() && (w.job.phase.Pending? || w.job.phase.Snapshotting? || w.job.phase.Evicting?)
      modifies this
      ensures Valid() && old(log) <= log
      ensures ok ==>
        w.job.phase ==
          if old(w).job.phase.Evicting? && (old(w).job.blocked || old(w).job.misconfigured) then SucceededWithoutRestore
          else Phase.Failed
      ensures ok && w.job.phase.Failed? ==>
        w.job.reason ==
          if old(w).job.phase.Pending? && old(w).job.budget.Refused? then BudgetTimeout else FailedOtherwise
      ensures undisturbed && !Gone(old(w).job) ==> ok
    {
      hide IsRun, Guard, Apply, Moves, SourceMoves;
      var j := w.job;
      TriggerWorks(w);
      if j.phase.Evicting? && (j.blocked || j.misconfigured) {
        ok := PatchWithoutRestore();
      } else if j.phase.Pending? && j.budget.Refused? {
        Cleanup();
        ok := PatchFailed(BudgetTimeout);
      } else {
        Cleanup();
        ok := PatchFailed(FailedOtherwise);
      }
    }

    /** What is left to do for a concluded job. */
    method ConcludedPass() returns (ok: bool)
      requires Valid() && Terminal(w.job.phase)
      modifies this
      ensures Valid() && old(log) <= log
      ensures undisturbed && !Gone(old(w).job) ==> ok
      ensures old(w).job.finalizer && !w.job.finalizer ==> exists i: nat :: |old(log)| <= i && LetGoAt(log, i)
    {
      assert log != [] && w == log[|log| - 1].world;
      hide IsRun, Guard, Apply, Moves, SourceMoves, Settled, Decided, LetGoAt;
      ok := true;
      if w.job.phase.Failed? && w.job.crashed {
        ok := DeleteCrashedReplacement();
      }
      if ok {
        var handled;
        ok, handled := ResolveSourceFence();
        if ok && !handled {
          ok := PatchFinalizerGone();
        }
      }
      LetGo(old(log), old(w));
    }

    method Dispatch() returns (ok: bool)
      requires Valid()
      modifies this
      ensures Valid() && old(log) <= log
    {
      var ended;
      var progressing: bool := *;
      ok, ended := EnforceTimeout(progressing);
      if ended {
        return;
      }
      if Terminal(w.job.phase) {
        ok := ConcludedPass();
        return;
      }
      match w.job.phase
      case Unset => ok := PatchPending();
      case Pending =>
        var sourceLost: bool := *;
        var result: Budget := *;
        ok := PendingPass(sourceLost, result);
      case Snapshotting =>
        var foreign: bool := *;
        var rejected: bool := *;
        var finished: bool := *;
        var status: SnapStatus := *;
        var refused: bool := *;
        ok := SnapshottingPass(foreign, refused, rejected, status, finished);
      case Evicting =>
        var attachments: seq<Attachment> := *;
        ok := EvictingPass(attachments);
      case Restoring =>
        var fatal: bool := *;
        var confirmed: bool := *;
        var persisted: bool := *;
        var gated: bool := *;
        var verdict: Verdict := *;
        ok := RestoringPass(fatal, confirmed, persisted, gated, verdict);
      case _ =>
    }

    /** One reconcile, with the strict invariant engine's verdict at its end. */
    method Reconcile()
      requires Valid()
      modifies this
      ensures Valid() && old(log) <= log
    {
      var ok := Call();
      if !ok || Gone(w.job) {
        return;
      }
      if w.job.deleting {
        if w.job.finalizer {
          ok := FinalizeSourceFence();
        }
        return;
      }
      var unregistered: bool := *;
      if unregistered && !Terminal(w.job.phase) && !w.job.phase.Unset? {
        ok := PatchFailed(FailedOtherwise);
      } else {
        ok := Dispatch();
      }
      var abort: bool := *;
      if ok && abort && !Terminal(w.job.phase) {
        ok := PatchFailed(FailedOtherwise);
        Cleanup();
      }
    }

    /** Any number of passes, with anything in between: what results is a run. */
    method RunPasses(n: nat)
      requires Valid()
      modifies this
      ensures Valid() && old(log) <= log
    {
      for i := 0 to n
        invariant Valid() && old(log) <= log
      {
        Reconcile();
      }
    }
  }
}
