/**
 One migration as the API server sees it: the job, its source pod, the snapshot engine's trigger
 and snapshots, and the replacement pod; and every write that the job's reconciler makes.

 A run is a log of writes.  `Apply` is what a write does, and `Guard` is what the reconciler has
 to know before it makes that write.  Between any two writes the environment may move: users,
 the kubelet, the snapshot engine, the pod gate.  A pass that dies leaves a shorter log.
*/
module JobWorld {
  import opened Api
  import opened RestoreVerdict

  // ----- The source pod -----

  datatype Container = Container(id: string, restarts: nat, running: bool)

  datatype PodPhase = PodPending | PodRunning | PodSucceeded | PodFailed

  /** `held` says that Ready is False with the fence's reason, `bypass` that a restart starts cold. */
  datatype Source = Source(
    phase: PodPhase,
    terminating: bool,
    labelled: bool,
    held: bool,
    bypass: bool,
    owned: bool,
    containers: map<string, Container>)

  predicate Finished(p: Source) {
    p.phase.PodSucceeded? || p.phase.PodFailed?
  }

  /** What the fence remembers of a container. */
  datatype Mark = Mark(id: string, restarts: nat)

  type Baseline = map<string, Mark>

  /** The baseline has every container of the pod, and nothing else. */
  predicate Records(b: Baseline, p: Source) {
    && b.Keys == p.containers.Keys
    && (forall n :: n in b ==> b[n].id == p.containers[n].id && b[n].restarts == p.containers[n].restarts)
  }

  function BaselineOf(p: Source): (b: Baseline)
    ensures Records(b, p)
  {
    map n | n in p.containers :: Mark(p.containers[n].id, p.containers[n].restarts)
  }

  predicate SameContainer(p: Source, n: string, mark: Mark) {
    && n in p.containers
    && mark.id != ""
    && p.containers[n].id == mark.id
    && p.containers[n].restarts == mark.restarts
    && p.containers[n].running
  }

  /** The pod still runs exactly the containers it was fenced with. */
  predicate Unchanged(b: Baseline, p: Source) {
    !p.terminating && p.phase.PodRunning? && b != map[] && forall n :: n in b ==> SameContainer(p, n, b[n])
  }

  // ----- The engine -----

  /** A snapshot's checkpoint: still open, completed, or failed for good. */
  datatype Checkpoint = Open | Completed(ready: bool) | Broken

  datatype Snapshot = Snapshot(checkpoint: Checkpoint, deleting: bool)

  predicate SnapshotFinished(s: Snapshot) {
    !s.deleting && (s.checkpoint.Broken? || s.checkpoint == Completed(true))
  }

  predicate AllBroken(snaps: map<string, Snapshot>) {
    forall n :: n in snaps ==> snaps[n].checkpoint.Broken?
  }

  // ----- The replacement pod -----

  datatype Order = NoOrder | RestoreOrder | Bypassed

  datatype Version = Version(gated: bool, order: Order, readiness: Readiness, restarts: nat)

  /** Every version of the recorded consumer so far, and how many of them the cache has seen. */
  datatype Replacement = Replacement(versions: seq<Version>, gone: bool, seen: nat)

  /** A pod runs only once it left the gate, and the write that lets it out orders a restore or a cold start. */
  predicate VersionOk(v: Version) {
    (v.readiness.Ready? ==> !v.gated) && (!v.gated ==> !v.order.NoOrder?) && (v.order.RestoreOrder? ==> !v.gated)
  }

  /** The gate is never put back, and a pod that left it cold never gets an order. */
  predicate Later(v: Version, w: Version) {
    !v.gated ==> !w.gated && (v.order.Bypassed? ==> w.order.Bypassed?)
  }

  predicate ReplacementOk(r: Replacement) {
    && r.seen <= |r.versions|
    && (forall i :: 0 <= i < |r.versions| ==> VersionOk(r.versions[i]))
    && (forall i, k :: 0 <= i <= k < |r.versions| ==> Later(r.versions[i], r.versions[k]))
  }

  predicate Released(r: Replacement) {
    |r.versions| > 0 && !r.versions[|r.versions| - 1].gated
  }

  /** No sandbox of this pod can start from the snapshot any more. */
  predicate Retired(r: Replacement) {
    r.gone || (Released(r) && r.versions[|r.versions| - 1].order.Bypassed?)
  }

  predicate Grown(r: Replacement, t: Replacement) {
    && ReplacementOk(t)
    && r.seen <= t.seen
    && r.versions <= t.versions
    && (r.gone ==> t.gone && t.versions == r.versions)
  }

  // ----- The job -----

  /** The SourceFenced condition, by its reason.  It is True for `Fenced` and `FenceKept`. */
  datatype Fence = NoFence | Fenced | FenceKept | Unfenced

  datatype Budget = Unchecked | Allowed | Refused | CheckError

  /** The reason of the job's Ready condition, as far as anything depends on it. */
  datatype Reason = Working | BudgetTimeout | FailedOtherwise | WithoutRestore | Verified | Inferred

  datatype RestoredCondition = NotConcluded | NotRestored | IsRestored(verified: bool, evidence: string)

  datatype Job = Job(
    created: Time,
    phase: Phase,
    ref: string,
    snapshotting: Option<Time>,
    evicting: Option<Time>,
    restoring: Option<Time>,
    completed: Option<Time>,
    volumes: seq<string>,
    node: string,
    budget: Budget,
    fence: Fence,
    fencedAt: Time,
    blocked: bool,
    misconfigured: bool,
    crashed: bool,
    reason: Reason,
    restored: RestoredCondition,
    // Metadata.
    baseline: Option<Baseline>,
    evictingSince: bool,
    finalizer: bool,
    deleting: bool,
    deletedAt: Time,
    // Written by the pod gate.
    consumer: Option<Uid>,
    gateReleased: bool)

  /** A deleted job without finalizers no longer exists. */
  predicate Gone(j: Job) {
    j.deleting && !j.finalizer
  }

  /** The phases in which the job may settle its source's fence. */
  predicate ConcludedWithout(p: Phase) {
    p.Failed? || p.SucceededWithoutRestore?
  }

  /**
   `window` and `unwedge` are configured: how long a restored pod has to stay Ready, and how long a
   deletion waits for the fence.  `triggered` remembers that this job once created its trigger.  What
   the reconciler read, and relies on later: `read` is the source, live, a read before the job
   concluded no longer counting once it has; `checkpointed` are the
   snapshots it saw with a completed checkpoint; `looked` is how many versions of the replacement
   the cache had shown when it looked there for the order to retire.
  */
  datatype World = World(
    now: Time,
    window: Time,
    unwedge: Time,
    job: Job,
    source: Option<Source>,
    read: Option<Source>,
    checkpointed: set<string>,
    looked: nat,
    trigger: bool,
    triggered: bool,
    snapshots: map<string, Snapshot>,
    replacement: Replacement)

  // ----- The environment -----

  /**
   The kubelet, users and workload controllers.  Only the reconciler writes the fence label and
   the fence's Ready reason, the fence webhook holds Ready while the label is there, a finished
   pod stays finished, its controller stays its controller, and a pod that is gone stays gone.
  */
  predicate SourceMoves(p: Option<Source>, q: Option<Source>) {
    q.Some? ==>
      && p.Some?
      && (Finished(p.value) ==> Finished(q.value))
      && (p.value.terminating ==> q.value.terminating)
      && q.value.labelled == p.value.labelled
      && q.value.owned == p.value.owned
      && (p.value.bypass ==> q.value.bypass)
      && (p.value.labelled && p.value.held ==> q.value.held)
      && (q.value.held ==> p.value.held || p.value.labelled)
  }

  predicate SnapshotMoves(s: Snapshot, t: Snapshot) {
    && (s.checkpoint.Broken? ==> t.checkpoint.Broken?)
    && (s.checkpoint.Completed? ==> t.checkpoint.Completed?)
    && (s.deleting ==> t.deleting)
  }

  /** The engine takes snapshots only while the trigger exists. */
  predicate EngineMoves(w: World, v: World) {
    && v.triggered == w.triggered
    && (v.trigger ==> w.trigger)
    && (forall n :: n in v.snapshots ==>
          if n in w.snapshots then SnapshotMoves(w.snapshots[n], v.snapshots[n]) else w.trigger)
  }

  /**
   The gate records a consumer, and a released consumer for good; a user may delete the job.  For a
   consumer that carries the job's order this is what the gate guarantees (OneCopy.ReplacementAsAssumed).
  */
  predicate JobMoves(w: World, v: World) {
    && v.job == w.job.(deleting := v.job.deleting, deletedAt := v.job.deletedAt,
                       consumer := v.job.consumer, gateReleased := v.job.gateReleased)
    && (w.job.deleting ==> v.job.deleting && v.job.deletedAt == w.job.deletedAt)
    && (Released(w.replacement) ==> v.job.consumer == w.job.consumer)
    && (if v.job.consumer == w.job.consumer then Grown(w.replacement, v.replacement) else ReplacementOk(v.replacement))
  }

  predicate Moves(w: World, v: World) {
    && w.now <= v.now && w.window == v.window && w.unwedge == v.unwedge
    && w.read == v.read && w.checkpointed == v.checkpointed && w.looked == v.looked
    && SourceMoves(w.source, v.source) && EngineMoves(w, v) && JobMoves(w, v)
  }

  // ----- The reconciler's writes -----

  datatype Attachment = Attachment(volume: string, node: string, attached: bool)

  /** An attachment the job has to wait for. */
  predicate Blocks(volumes: seq<string>, node: string, a: Attachment) {
    a.attached && a.volume != "" && a.volume in volumes && (node == "" || a.node == node)
  }

  predicate Detached(volumes: seq<string>, node: string, attachments: seq<Attachment>) {
    forall i :: 0 <= i < |attachments| ==> !Blocks(volumes, node, attachments[i])
  }

  /**
   What the pass saw that concludes a restore: version `at` of the recorded consumer, the engine's
   verdict and the time.  At the restore ceiling that version was read live, else from the cache.
  */
  datatype Evidence = Evidence(at: nat, verdict: Verdict, now: Time, ceiling: bool)

  /** A write on the job: a status patch, or a change of its metadata. */
  datatype JobWrite =
    | InitPhase
    | RecordBudget(budget: Budget)
    | StartSnapshotting(volumes: seq<string>, node: string)
    | Fail(reason: Reason)
    | AddFinalizer
    | RemoveFinalizer
    | MarkFenced
    | RecordBaseline(baseline: Baseline)
    | RecordRef(ref: string)
    | StartEvicting(ref: string)
    | RecordNode(node: string)
    | StampEvicting
    | RecordBlockage(blocked: bool, misconfigured: bool)
    | StartRestoring(attachments: seq<Attachment>)
    | ConcludeWithoutRestore
    | ConcludeRestored(evidence: Evidence)
    | ConcludeCrash
    | KeepFence
    | Unfence

  /** A write on a pod or on the trigger, or a read that a later write relies on. */
  datatype ClusterWrite =
    | Label
    | HoldReady
    | RemoveLabel
    | SetBypass
    | EvictSource
    | CreateTrigger
    | DeleteTrigger
    | RetireOrder
    | DeleteReplacement
    | ReadSource
    | ReadStatus(ref: string)
    | ReadCached

  datatype Act = Environment(to: World) | OnJob(job: JobWrite) | OnCluster(cluster: ClusterWrite)

  function Conclude(j: Job, now: Time, phase: Phase, reason: Reason, restored: RestoredCondition): Job {
    j.(phase := phase, completed := Some(now), reason := reason, restored := restored)
  }

  function Updated(j: Job, now: Time, write: JobWrite): Job {
    match write
    case InitPhase => j.(phase := Pending)
    case RecordBudget(b) => j.(budget := b)
    case StartSnapshotting(volumes, node) =>
      j.(phase := Snapshotting, snapshotting := Some(now), budget := Allowed, reason := Working,
        volumes := volumes, node := node)
    case Fail(reason) => Conclude(j, now, Phase.Failed, reason, j.restored)
    case AddFinalizer => j.(finalizer := true)
    case RemoveFinalizer => j.(finalizer := false)
    case MarkFenced => j.(fence := Fenced, fencedAt := now)
    case RecordBaseline(b) => j.(baseline := Some(b))
    case RecordRef(ref) => j.(ref := ref)
    case StartEvicting(ref) => j.(phase := Evicting, ref := ref, evicting := Some(now), reason := Working)
    case RecordNode(node) => j.(node := node)
    case StampEvicting => j.(evictingSince := true)
    case RecordBlockage(blocked, misconfigured) => j.(blocked := blocked, misconfigured := misconfigured)
    case StartRestoring(_) => j.(phase := Restoring, restoring := Some(now), reason := Working)
    case ConcludeWithoutRestore => Conclude(j, now, SucceededWithoutRestore, WithoutRestore, NotRestored)
    case ConcludeRestored(ev) =>
      Conclude(j, now, Succeeded, if ev.verdict.confirmed then Verified else Inferred,
               IsRestored(ev.verdict.confirmed, ev.verdict.evidence))
    case ConcludeCrash => Conclude(j, now, Phase.Failed, FailedOtherwise, NotRestored).(crashed := true)
    case KeepFence => j.(fence := FenceKept, fencedAt := if j.fence.Unfenced? then now else j.fencedAt)
    case Unfence => j.(fence := Unfenced, fencedAt := now)
  }

  /** The patch that retires the restore order, as a new version of the replacement. */
  function RetireLast(r: Replacement): Replacement {
    if r.versions == [] then r
    else r.(versions := r.versions + [r.versions[|r.versions| - 1].(order := Bypassed)])
  }

  function SourceAfter(p: Source, write: ClusterWrite): Source {
    match write
    case Label => p.(labelled := true)
    case HoldReady => p.(held := true)
    case RemoveLabel => p.(labelled := false)
    case SetBypass => p.(bypass := true)
    case EvictSource => p.(terminating := true)
    case _ => p
  }

  function Touched(w: World, write: ClusterWrite): World {
    match write
    case CreateTrigger => w.(trigger := true, triggered := true)
    case DeleteTrigger => w.(trigger := false)
    case RetireOrder => w.(replacement := RetireLast(w.replacement))
    case DeleteReplacement => w.(replacement := w.replacement.(gone := true))
    case ReadSource => w.(read := w.source)
    case ReadStatus(ref) => w.(checkpointed := w.checkpointed + {ref})
    case ReadCached => w.(looked := w.replacement.seen)
    case _ => if w.source.Some? then w.(source := Some(SourceAfter(w.source.value, write))) else w
  }

  /** The API server's state after a write.  What was read before a conclusion no longer counts. */
  function Apply(w: World, act: Act): World {
    match act
    case Environment(to) => to
    case OnJob(write) =>
      var j := Updated(w.job, w.now, write);
      w.(job := j, read := if Terminal(j.phase) == Terminal(w.job.phase) then w.read else None)
    case OnCluster(write) => Touched(w, write)
  }

  // ----- What a write presupposes -----

  function Anchored(w: World): Anchors {
    Anchors(w.job.restoring, Some(w.job.created))
  }

  /** The replacement version that a concluding pass relied on. */
  predicate Convincing(w: World, ev: Evidence) {
    && w.job.consumer.Some?
    && ev.at < |w.replacement.versions|
    && ev.now <= w.now
    && var v := w.replacement.versions[ev.at];
       && v.readiness.Ready?
       && v.restarts == 0
       && ev.verdict.outcome.Restored?
       && (ev.verdict.confirmed || Stable(w.window, v.readiness, Anchored(w), ev.now))
  }

  /** The cached version does not show the order yet, although the version the pass relies on may carry it. */
  predicate Unnoticed(r: Replacement, at: nat, looked: nat)
    requires looked <= |r.versions|
  {
    looked <= at && (looked == 0 || !r.versions[looked - 1].order.RestoreOrder?)
  }

  /** Nothing the job did can still complete a checkpoint, and the source was seen untouched. */
  predicate SafeToUnfence(w: World) {
    w.job.baseline.Some? ==>
      && w.job.evicting.None?
      && !w.trigger
      && AllBroken(w.snapshots)
      && w.read.Some?
      && Unchanged(w.job.baseline.value, w.read.value)
  }

  /** When a deletion's wait for the fence began. */
  function UnwedgeAnchor(j: Job): Time {
    if j.completed.Some? && j.completed.value > j.deletedAt then j.completed.value else j.deletedAt
  }

  /**
   The job owes its source nothing more: the source is gone or going, it was never fenced or is back
   in service, it is kept fenced with nothing to replace it, or the deletion waited long enough.
  */
  predicate Settled(w: World) {
    || w.source.None?
    || w.source.value.terminating
    || w.job.fence.NoFence?
    || w.job.fence.Unfenced?
    || (w.job.fence.FenceKept? && !w.source.value.owned)
    || (w.job.deleting && w.now - UnwedgeAnchor(w.job) >= w.unwedge)
  }

  /** What the reconciler knows when it writes the job. */
  predicate JobGuard(w: World, write: JobWrite) {
    var j := w.job;
    !Gone(j) &&
    match write
    case InitPhase => j.phase.Unset?
    case RecordBudget(_) => j.phase.Pending?
    case StartSnapshotting(_, _) => j.phase.Pending?
    case Fail(reason) =>
      !Terminal(j.phase)
      && (reason.FailedOtherwise? || (reason.BudgetTimeout? && j.phase.Pending? && j.budget.Refused?))
    case AddFinalizer => !j.deleting && j.phase.Snapshotting?
    case RemoveFinalizer => (j.phase.Restoring? || Terminal(j.phase)) && Settled(w)
    case MarkFenced => j.phase.Snapshotting? && j.fence.NoFence? && j.finalizer
    case RecordBaseline(b) =>
      && w.read.Some? && Records(b, w.read.value)
      && j.phase.Snapshotting? && j.baseline.None? && j.fence.Fenced? && j.finalizer
      && (w.source.Some? ==> w.source.value.labelled && w.source.value.held)
    case RecordRef(ref) => j.phase.Snapshotting? && ref != ""
    case StartEvicting(ref) => j.phase.Snapshotting? && ref != "" && ref in w.checkpointed
    case RecordNode(_) => j.phase.Evicting?
    case StampEvicting => j.phase.Evicting?
    case RecordBlockage(_, _) => j.phase.Evicting?
    case StartRestoring(attachments) =>
      && j.phase.Evicting? && w.source.None? && !j.blocked && !j.misconfigured
      && Detached(j.volumes, j.node, attachments)
    case ConcludeWithoutRestore => j.phase.Evicting? || j.phase.Restoring?
    case ConcludeRestored(ev) =>
      && j.phase.Restoring? && Convincing(w, ev) && w.looked <= |w.replacement.versions|
      && (!ev.ceiling ==> ev.at < w.looked)
      && (Unnoticed(w.replacement, ev.at, w.looked) || Retired(w.replacement))
    case ConcludeCrash => j.phase.Restoring?
    case KeepFence => ConcludedWithout(j.phase) && (j.fence.Fenced? || j.fence.Unfenced?)
    case Unfence => ConcludedWithout(j.phase) && j.fence.Fenced? && SafeToUnfence(w)
  }

  /** What the reconciler knows when it writes a pod or the trigger. */
  predicate ClusterGuard(w: World, write: ClusterWrite) {
    var j := w.job;
    match write
    case Label => w.source.Some? && ((j.phase.Snapshotting? && j.fence.Fenced?) || j.fence.FenceKept?)
    case HoldReady =>
      w.source.Some? && ((j.phase.Snapshotting? && j.fence.Fenced? && w.source.value.labelled) || j.fence.FenceKept?)
    case RemoveLabel => w.source.Some? && j.fence.Unfenced?
    case SetBypass => w.source.Some? && j.phase.Snapshotting?
    case EvictSource => w.source.Some? && (j.phase.Evicting? || j.fence.FenceKept?)
    case CreateTrigger =>
      && j.phase.Snapshotting? && !w.trigger
      && (w.source.Some? ==> w.source.value.bypass && (Finished(w.source.value) || j.baseline.Some?))
    case DeleteTrigger => true
    case RetireOrder =>
      && Released(w.replacement) && !w.replacement.gone
      && w.looked == |w.replacement.versions| && w.replacement.versions[w.looked - 1].order.RestoreOrder?
    case DeleteReplacement => j.phase.Failed? && j.crashed
    case ReadSource => true
    case ReadStatus(ref) => ref in w.snapshots && w.snapshots[ref].checkpoint.Completed?
    case ReadCached => true
  }

  predicate Guard(w: World, act: Act) {
    match act
    case Environment(to) => Moves(w, to)
    case OnJob(write) => JobGuard(w, write)
    case OnCluster(write) => ClusterGuard(w, write)
  }

  /** A new job on a source that no earlier job left half fenced. */
  predicate Start(w: World) {
    && w.job.phase.Unset? && w.job.ref == "" && w.job.evicting.None? && w.job.fence.NoFence? && w.job.baseline.None?
    && !w.job.finalizer && !w.job.blocked && !w.job.misconfigured && !w.job.crashed
    && w.job.reason.Working? && w.job.restored.NotConcluded? && w.job.consumer.None?
    && w.read.None? && w.checkpointed == {} && !w.trigger && !w.triggered && w.snapshots == map[]
    && (w.source.Some? && w.source.value.held ==> w.source.value.labelled)
    && ReplacementOk(w.replacement)
  }

  // ----- A run -----

  datatype Entry = Entry(act: Act, world: World)

  /** The run starts with a new job, and every write was made under its guard. */
  predicate StepOk(log: seq<Entry>, i: nat)
    requires i < |log|
  {
    if i == 0 then Start(log[0].world)
    else Guard(log[i - 1].world, log[i].act) && log[i].world == Apply(log[i - 1].world, log[i].act)
  }

  /** A log the reconciler can produce. */
  predicate IsRun(log: seq<Entry>) {
    log != [] && forall i :: 0 <= i < |log| ==> StepOk(log, i)
  }
}
