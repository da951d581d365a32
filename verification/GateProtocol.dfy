/**
 The pod gate protocol: a replacement pod waits behind a scheduling gate until the job
 that owns its snapshot is durable, and then exactly one pod may start from that snapshot.

 A job is a versioned object: its history is a sequence of status versions, the last one
 being current.  `Status().Update` is a compare-and-swap on the version that was read,
 `Status().Patch` of a single field has no version check, and every job read may return any
 older version.  Any number of gate passes run interleaved, each write is its own step, and a
 pass can die before any of them.  Nothing relies on collision resolution: any number of
 pods may hold the same assignment.
*/
module GateProtocol {
  import opened Api

  /** What a pod's annotations order of the snapshot engine, with the job whose pass ordered it. */
  datatype Order = NoOrder | ColdStart | Restore(job: JobId, ref: string)

  datatype Pod = Pod(version: nat, gated: bool, order: Order)

  /** The part of a job's status that the gate reads and writes. */
  datatype Status = Status(
    phase: Phase,
    ref: string,
    consumed: bool,
    consumer: Option<Uid>,
    consumerName: string,
    gateReleased: bool)

  /** Where a gate pass stands.  `at` is the version of the job the pass has in hand. */
  datatype Stage =
    | ReadJob
    | ColdConsume(at: nat)
    | Bypass
    | CheckConsumer(at: nat)
    | Adopt(at: nat)
    | Consume(at: nat)
    | RecordRelease(at: nat)
    | Ungate(at: nat)

  /** One pass over pod `uid`, read from the cache at `podVersion` with assignment `job`. */
  datatype Pass = Pass(uid: Uid, podVersion: nat, job: JobId, stage: Stage)

  /**
   `names` remembers every pod ever created, so that a UID is never reused.
   `snapshots` maps every snapshot ever taken to the job it was taken for,
   `released[j]` are the pods that left the gate under job j's restore order, ever, and
   `orders` is the log of every restore order ever written on a pod.
  */
  datatype State = State(
    jobs: map<JobId, seq<Status>>,
    deletedJobs: set<JobId>,
    pods: map<Uid, Pod>,
    names: map<Uid, string>,
    passes: map<nat, Pass>,
    snapshots: map<string, JobId>,
    released: map<JobId, set<Uid>>,
    orders: set<(Uid, JobId, string)>)

  function NewStatus(): Status {
    Status(Unset, "", false, None, "", false)
  }

  datatype Step =
    // The environment: users, workload controllers, the job reconciler.
    | CreateJob(j: JobId)
    | DeleteJob(j: JobId)
    | TakeSnapshot(j: JobId, ref: string)
    | PatchPhase(j: JobId, phase: Phase, ref: string)
    | TouchJob(j: JobId)
    | HealGateReleased(j: JobId)
    | CreatePod(u: Uid, name: string, gated: bool, cold: bool)
    | DeletePod(u: Uid)
    | TouchPod(u: Uid)
    | OrderColdStart(u: Uid)
    // A gate pass.
    | StartPass(id: nat, u: Uid, podVersion: nat, j: JobId)
    | GetJob(id: nat, at: nat)
    | GetJobGone(id: nat)
    | LoseRace(id: nat) // or the pod has no assignment
    | Advance(id: nat)
    | Crash(id: nat)

  predicate Has(s: State, j: JobId) {
    j in s.jobs && j !in s.deletedJobs
  }

  function Current(h: seq<Status>): Status
    requires h != []
  {
    h[|h| - 1]
  }

  /** The phases in which a gated pod is released at all. */
  predicate Durable(p: Phase) {
    p.Restoring? || Terminal(p)
  }

  /** What the gate does with pod `u` after reading version `at` of its job. */
  function Decide(v: Status, u: Uid, at: nat): Option<Stage> {
    if !Durable(v.phase) then None
    else if v.phase.Failed? || v.phase.SucceededWithoutRestore? || v.ref == "" then
      Some(if v.consumed then Bypass else ColdConsume(at))
    else if v.consumed && v.consumer != Some(u) then
      Some(if !v.phase.Restoring? || v.gateReleased then Bypass else CheckConsumer(at))
    else if !v.consumed then Some(Consume(at))
    else Some(AfterConsume(v, at))
  }

  /** Once the job names this pod, the release is recorded before the gate goes. */
  function AfterConsume(v: Status, at: nat): Stage {
    if v.gateReleased then Ungate(at) else RecordRelease(at)
  }

  /** The consumer the job records still exists: read live, by name, and compared by UID. */
  predicate ConsumerExists(s: State, v: Status) {
    exists u :: u in s.pods && u in s.names && s.names[u] == v.consumerName && v.consumer == Some(u)
  }

  function SetStage(s: State, id: nat, stage: Stage): State
    requires id in s.passes
  {
    s.(passes := s.passes[id := s.passes[id].(stage := stage)])
  }

  function EndPass(s: State, id: nat): State {
    s.(passes := s.passes - {id})
  }

  /** Appends a version to job j's history. */
  function Write(s: State, j: JobId, v: Status): State
    requires j in s.jobs
  {
    s.(jobs := s.jobs[j := s.jobs[j] + [v]])
  }

  /** The compare-and-swap of `Status().Update`: it lands only on the version that was read. */
  predicate CasHolds(s: State, j: JobId, at: nat) {
    Has(s, j) && s.jobs[j] != [] && at == |s.jobs[j]| - 1
  }

  /** `Update` of a pod: it lands only on the version the pass read. */
  predicate PodCasHolds(s: State, p: Pass) {
    p.uid in s.pods && s.pods[p.uid].version == p.podVersion && s.pods[p.uid].gated
  }

  function Consumed(s: State, v: Status, u: Uid): Status
    requires u in s.names
  {
    v.(consumed := true, consumer := Some(u), consumerName := s.names[u], gateReleased := false)
  }

  // Each stage of a pass makes one API call.  A call that is refused ends the pass.

  function DoColdConsume(s: State, id: nat, p: Pass, at: nat): State
    requires id in s.passes
  {
    if CasHolds(s, p.job, at) && p.uid in s.names then
      var v := s.jobs[p.job][at];
      SetStage(Write(s, p.job, v.(consumed := true, consumer := Some(p.uid), consumerName := s.names[p.uid])),
        id, Bypass)
    else EndPass(s, id)
  }

  function DoBypass(s: State, id: nat, p: Pass): State {
    EndPass(if PodCasHolds(s, p) then s.(pods := s.pods[p.uid := Pod(p.podVersion + 1, false, ColdStart)]) else s, id)
  }

  function DoCheckConsumer(s: State, id: nat, p: Pass, at: nat): State
    requires id in s.passes
  {
    if p.job in s.jobs && at < |s.jobs[p.job]| && !ConsumerExists(s, s.jobs[p.job][at]) then SetStage(s, id, Adopt(at))
    else EndPass(s, id)
  }

  function DoConsume(s: State, id: nat, p: Pass, at: nat): State
    requires id in s.passes
  {
    if CasHolds(s, p.job, at) && p.uid in s.names then
      SetStage(Write(s, p.job, Consumed(s, s.jobs[p.job][at], p.uid)), id, RecordRelease(at + 1))
    else EndPass(s, id)
  }

  function DoRecordRelease(s: State, id: nat, p: Pass, at: nat): State
    requires id in s.passes
  {
    if Has(s, p.job) && s.jobs[p.job] != [] then
      SetStage(Write(s, p.job, Current(s.jobs[p.job]).(gateReleased := true)), id, Ungate(at))
    else EndPass(s, id)
  }

  /** The state after pod u left the gate under version `at` of job j. */
  function Ungated(s: State, u: Uid, j: JobId, at: nat): State
    requires u in s.pods && j in s.jobs && at < |s.jobs[j]| && j in s.released
  {
    var ref := s.jobs[j][at].ref;
    s.(pods := s.pods[u := Pod(s.pods[u].version + 1, false, Restore(j, ref))],
       released := s.released[j := s.released[j] + {u}],
       orders := s.orders + {(u, j, ref)})
  }

  function DoUngate(s: State, id: nat, p: Pass, at: nat): State {
    EndPass(if PodCasHolds(s, p) && p.job in s.jobs && at < |s.jobs[p.job]| && p.job in s.released
            then Ungated(s, p.uid, p.job, at) else s, id)
  }

  /** The pass with id `id` makes its next API call. */
  function AdvancePass(s: State, id: nat): State
    requires id in s.passes
  {
    var p := s.passes[id];
    match p.stage
    case ReadJob => s
    case ColdConsume(at) => DoColdConsume(s, id, p, at)
    case Bypass => DoBypass(s, id, p)
    case CheckConsumer(at) => DoCheckConsumer(s, id, p, at)
    case Adopt(at) => DoConsume(s, id, p, at)
    case Consume(at) => DoConsume(s, id, p, at)
    case RecordRelease(at) => DoRecordRelease(s, id, p, at)
    case Ungate(at) => DoUngate(s, id, p, at)
  }

  predicate OwnsRef(s: State, j: JobId, ref: string) {
    ref == "" || (ref in s.snapshots && s.snapshots[ref] == j)
  }

  predicate NameFree(s: State, name: string) {
    forall u :: u in s.pods && u in s.names ==> s.names[u] != name
  }

  function WithJob(s: State, j: JobId): State {
    s.(jobs := s.jobs[j := [NewStatus()]], released := s.released[j := {}])
  }

  /** The transition function.  A step that is not enabled changes nothing. */
  function Next(s: State, step: Step): State {
    match step
    case CreateJob(j) =>
      if j in s.jobs then s else WithJob(s, j)
    case DeleteJob(j) => s.(deletedJobs := s.deletedJobs + {j})
    case TakeSnapshot(j, ref) => if ref in s.snapshots then s else s.(snapshots := s.snapshots[ref := j])
    case PatchPhase(j, phase, ref) =>
      if Has(s, j) && s.jobs[j] != [] then
        var c := Current(s.jobs[j]);
        if Forward(c.phase, phase) && (ref == c.ref || (c.phase.Snapshotting? && OwnsRef(s, j, ref))) then
          Write(s, j, c.(phase := phase, ref := ref))
        else s
      else s
    case TouchJob(j) => if Has(s, j) && s.jobs[j] != [] then Write(s, j, Current(s.jobs[j])) else s
    case HealGateReleased(j) =>
      if Has(s, j) && s.jobs[j] != [] then Write(s, j, Current(s.jobs[j]).(gateReleased := true)) else s
    case CreatePod(u, name, gated, cold) =>
      if u in s.names || !NameFree(s, name) then s
      else s.(pods := s.pods[u := Pod(0, gated, if cold then ColdStart else NoOrder)], names := s.names[u := name])
    case DeletePod(u) => s.(pods := s.pods - {u})
    case TouchPod(u) =>
      if u in s.pods then s.(pods := s.pods[u := s.pods[u].(version := s.pods[u].version + 1)]) else s
    case OrderColdStart(u) =>
      if u in s.pods then
        s.(pods := s.pods[u := s.pods[u].(version := s.pods[u].version + 1, order := ColdStart)])
      else s
    case StartPass(id, u, podVersion, j) =>
      if id in s.passes || u !in s.names then s
      else s.(passes := s.passes[id := Pass(u, podVersion, j, ReadJob)])
    case GetJob(id, at) =>
      if id in s.passes && s.passes[id].stage.ReadJob? && s.passes[id].job in s.jobs
          && at < |s.jobs[s.passes[id].job]| then
        match Decide(s.jobs[s.passes[id].job][at], s.passes[id].uid, at)
        case None => EndPass(s, id)
        case Some(stage) => SetStage(s, id, stage)
      else s
    case GetJobGone(id) =>
      if id in s.passes && s.passes[id].stage.ReadJob? && !Has(s, s.passes[id].job) then SetStage(s, id, Bypass) else s
    case LoseRace(id) =>
      if id in s.passes && s.passes[id].stage.ReadJob? then SetStage(s, id, Bypass) else s
    case Advance(id) => if id in s.passes then AdvancePass(s, id) else s
    case Crash(id) => EndPass(s, id)
  }

  function Run(s: State, steps: seq<Step>): State
    decreases |steps|
  {
    if steps == [] then s else Next(Run(s, steps[..|steps| - 1]), steps[|steps| - 1])
  }

  function Init(): State {
    State(map[], {}, map[], map[], map[], map[], map[], {})
  }

  // ----- The invariant -----

  /** What version `v` of a job still says about every later version `w`. */
  ghost predicate Follows(v: Status, w: Status, alive: set<Uid>) {
    && Forward(v.phase, w.phase)
    && (Rank(v.phase) > Rank(Snapshotting) ==> w.ref == v.ref)
    && (v.consumed ==> w.consumed)
    && (v.consumed && v.gateReleased ==> w.gateReleased && w.consumer == v.consumer)
    && (v.consumed && Terminal(v.phase) ==> w.consumer == v.consumer)
    && (v.consumed && v.consumer != w.consumer ==> v.consumer.Some? && v.consumer.value !in alive)
  }

  /** A single version is well formed. */
  ghost predicate VersionOk(v: Status, names: map<Uid, string>) {
    v.consumed ==>
      && Durable(v.phase)
      && v.consumer.Some?
      && v.consumer.value in names
      && v.consumerName == names[v.consumer.value]
  }

  ghost predicate HistoryOk(h: seq<Status>, alive: set<Uid>, names: map<Uid, string>) {
    && h != []
    && (forall i :: 0 <= i < |h| ==> VersionOk(h[i], names))
    && (forall i :: 0 <= i < |h| ==> Follows(h[i], Current(h), alive))
  }

  ghost predicate HistoriesOk(jobs: map<JobId, seq<Status>>, alive: set<Uid>, names: map<Uid, string>) {
    && alive <= names.Keys
    && (forall j :: j in jobs ==> HistoryOk(jobs[j], alive, names))
  }

  /** A version a pod may be restored from. */
  predicate Warm(v: Status) {
    (v.phase.Restoring? || v.phase.Succeeded?) && v.ref != ""
  }

  predicate HoldsJob(v: Status, u: Uid) {
    v.consumed && v.consumer == Some(u) && Warm(v)
  }

  predicate MayAdopt(v: Status, u: Uid) {
    v.consumed && v.consumer.Some? && v.consumer != Some(u) && v.phase.Restoring? && v.ref != "" && !v.gateReleased
  }

  /** The right a pass over pod `u` holds at its stage, given the history `h` of its job. */
  ghost predicate StageOk(stage: Stage, u: Uid, h: seq<Status>, alive: set<Uid>) {
    match stage
    case ReadJob => true
    case Bypass => true
    case ColdConsume(at) => at < |h| && Durable(h[at].phase) && !h[at].consumed
    case CheckConsumer(at) => at < |h| && MayAdopt(h[at], u)
    case Adopt(at) => at < |h| && MayAdopt(h[at], u) && h[at].consumer.value !in alive
    case Consume(at) => at < |h| && Warm(h[at]) && !h[at].consumed
    case RecordRelease(at) => at < |h| && HoldsJob(h[at], u)
    case Ungate(at) =>
      at < |h| && HoldsJob(h[at], u) && (u in alive ==> Current(h).gateReleased && Current(h).consumer == Some(u))
  }

  function HistoryOf(jobs: map<JobId, seq<Status>>, j: JobId): seq<Status> {
    if j in jobs then jobs[j] else []
  }

  ghost predicate PassesOk(passes: map<nat, Pass>, jobs: map<JobId, seq<Status>>, alive: set<Uid>,
      names: map<Uid, string>) {
    forall id :: id in passes ==>
      passes[id].uid in names && StageOk(passes[id].stage, passes[id].uid, HistoryOf(jobs, passes[id].job), alive)
  }

  /** Whoever left the gate under the job's order is the consumer that the job records for good. */
  ghost predicate ReleasedOk(jobs: map<JobId, seq<Status>>, released: map<JobId, set<Uid>>) {
    && released.Keys == jobs.Keys
    && forall j :: j in released && released[j] != {} ==>
         && jobs[j] != []
         && Current(jobs[j]).consumed
         && Current(jobs[j]).gateReleased
         && Current(jobs[j]).consumer.Some?
         && released[j] == {Current(jobs[j]).consumer.value}
  }

  /** Every order in the log names the snapshot of its job and a pod that job released. */
  ghost predicate LogOk(orders: set<(Uid, JobId, string)>, jobs: map<JobId, seq<Status>>,
      released: map<JobId, set<Uid>>) {
    forall o :: o in orders ==>
      && o.1 in jobs && jobs[o.1] != [] && o.1 in released
      && o.0 in released[o.1]
      && o.2 != ""
      && Current(jobs[o.1]).ref == o.2
  }

  /** Every order on a pod is in the log. */
  ghost predicate PodsOk(pods: map<Uid, Pod>, orders: set<(Uid, JobId, string)>) {
    forall u :: u in pods && pods[u].order.Restore? ==> (u, pods[u].order.job, pods[u].order.ref) in orders
  }

  /** A job refers to a snapshot that was taken for it. */
  ghost predicate RefsOk(jobs: map<JobId, seq<Status>>, snapshots: map<string, JobId>) {
    forall j :: j in jobs && jobs[j] != [] && Current(jobs[j]).ref != "" ==>
      Current(jobs[j]).ref in snapshots && snapshots[Current(jobs[j]).ref] == j
  }

  ghost predicate Inv(s: State) {
    && HistoriesOk(s.jobs, s.pods.Keys, s.names)
    && PassesOk(s.passes, s.jobs, s.pods.Keys, s.names)
    && ReleasedOk(s.jobs, s.released)
    && LogOk(s.orders, s.jobs, s.released)
    && PodsOk(s.pods, s.orders)
    && RefsOk(s.jobs, s.snapshots)
  }

  // ----- Every step keeps it -----

  /** The conditions under which version `v` may be appended to job j's history. */
  ghost predicate MayWrite(s: State, j: JobId, v: Status) {
    && j in s.jobs && s.jobs[j] != []
    && Follows(Current(s.jobs[j]), v, s.pods.Keys)
    && VersionOk(v, s.names)
    && (v.ref == Current(s.jobs[j]).ref || OwnsRef(s, j, v.ref))
  }

  lemma AppendKeepsHistory(h: seq<Status>, v: Status, alive: set<Uid>, names: map<Uid, string>)
    requires HistoryOk(h, alive, names) && Follows(Current(h), v, alive) && VersionOk(v, names)
    ensures HistoryOk(h + [v], alive, names)
  {
  }

  lemma AppendKeepsStage(stage: Stage, u: Uid, h: seq<Status>, v: Status, alive: set<Uid>, names: map<Uid, string>)
    requires HistoryOk(h, alive, names) && Follows(Current(h), v, alive) && StageOk(stage, u, h, alive)
    ensures StageOk(stage, u, h + [v], alive)
  {
  }

  lemma WriteKeepsReleased(s: State, j: JobId, v: Status)
    requires HistoriesOk(s.jobs, s.pods.Keys, s.names) && MayWrite(s, j, v)
    requires ReleasedOk(s.jobs, s.released) && LogOk(s.orders, s.jobs, s.released)
    ensures var t := Write(s, j, v); ReleasedOk(t.jobs, s.released) && LogOk(s.orders, t.jobs, s.released)
  {
    var t := Write(s, j, v);
    assert Current(t.jobs[j]) == v;
    assert HistoryOk(s.jobs[j], s.pods.Keys, s.names);
    assert VersionOk(Current(s.jobs[j]), s.names);
  }

  /** Appending a version that follows the current one keeps the whole invariant. */
  lemma WriteKeeps(s: State, j: JobId, v: Status)
    requires Inv(s) && MayWrite(s, j, v)
    ensures Inv(Write(s, j, v))
  {
    var t := Write(s, j, v);
    AppendKeepsHistory(s.jobs[j], v, s.pods.Keys, s.names);
    WriteKeepsReleased(s, j, v);
    assert Current(t.jobs[j]) == v;
    forall id | id in t.passes
      ensures StageOk(t.passes[id].stage, t.passes[id].uid, HistoryOf(t.jobs, t.passes[id].job), t.pods.Keys)
    {
      if t.passes[id].job == j {
        AppendKeepsStage(t.passes[id].stage, t.passes[id].uid, s.jobs[j], v, s.pods.Keys, s.names);
      }
    }
  }

  lemma SetStageKeeps(s: State, id: nat, stage: Stage)
    requires Inv(s) && id in s.passes
    requires StageOk(stage, s.passes[id].uid, HistoryOf(s.jobs, s.passes[id].job), s.pods.Keys)
    ensures Inv(SetStage(s, id, stage))
  {
  }

  lemma EndPassKeeps(s: State, id: nat)
    requires Inv(s)
    ensures Inv(EndPass(s, id))
  {
  }

  /** Rewriting a pod that exists, without a new restore order, keeps the invariant. */
  lemma RewritePodKeeps(s: State, u: Uid, pod: Pod)
    requires Inv(s) && u in s.pods
    requires pod.order == s.pods[u].order || pod.order.ColdStart?
    ensures Inv(s.(pods := s.pods[u := pod]))
  {
    assert s.pods[u := pod].Keys == s.pods.Keys;
  }

  lemma RemovePodKeeps(s: State, u: Uid)
    requires Inv(s)
    ensures Inv(s.(pods := s.pods - {u}))
  {
  }

  lemma AddPodKeeps(s: State, u: Uid, name: string, pod: Pod)
    requires Inv(s) && u !in s.names && !pod.order.Restore?
    ensures Inv(s.(pods := s.pods[u := pod], names := s.names[u := name]))
  {
    hide ReleasedOk, LogOk, RefsOk;
    var t := s.(pods := s.pods[u := pod], names := s.names[u := name]);
    assert t.pods.Keys == s.pods.Keys + {u};
    forall j | j in t.jobs ensures HistoryOk(t.jobs[j], t.pods.Keys, t.names) {
      assert HistoryOk(s.jobs[j], s.pods.Keys, s.names);
      forall i | 0 <= i < |t.jobs[j]| ensures Follows(t.jobs[j][i], Current(t.jobs[j]), t.pods.Keys) {
        assert VersionOk(s.jobs[j][i], s.names);
      }
    }
    forall id | id in t.passes
      ensures StageOk(t.passes[id].stage, t.passes[id].uid, HistoryOf(t.jobs, t.passes[id].job), t.pods.Keys)
    {
      var p := s.passes[id];
      if p.stage.Adopt? {
        assert HistoryOk(s.jobs[p.job], s.pods.Keys, s.names);
        assert VersionOk(s.jobs[p.job][p.stage.at], s.names);
      }
    }
  }

  lemma CreateJobKeepsReleased(s: State, j: JobId)
    requires j !in s.jobs && ReleasedOk(s.jobs, s.released) && LogOk(s.orders, s.jobs, s.released)
        && RefsOk(s.jobs, s.snapshots)
    ensures var t := WithJob(s, j);
      ReleasedOk(t.jobs, t.released) && LogOk(t.orders, t.jobs, t.released) && RefsOk(t.jobs, t.snapshots)
  {
  }

  lemma CreateJobKeepsPasses(s: State, j: JobId)
    requires j !in s.jobs && PassesOk(s.passes, s.jobs, s.pods.Keys, s.names)
    ensures var t := WithJob(s, j); PassesOk(t.passes, t.jobs, t.pods.Keys, t.names)
  {
  }

  lemma CreateJobKeeps(s: State, j: JobId)
    requires Inv(s) && j !in s.jobs
    ensures Inv(WithJob(s, j))
  {
    CreateJobKeepsReleased(s, j);
    CreateJobKeepsPasses(s, j);
    assert HistoryOk([NewStatus()], s.pods.Keys, s.names);
  }

  lemma UngatedKeeps(s: State, u: Uid, j: JobId, at: nat)
    requires Inv(s) && u in s.pods && j in s.jobs && at < |s.jobs[j]| && HoldsJob(s.jobs[j][at], u)
    requires Current(s.jobs[j]).gateReleased && Current(s.jobs[j]).consumer == Some(u)
    ensures Inv(Ungated(s, u, j, at))
  {
    hide PassesOk, RefsOk;
    var t := Ungated(s, u, j, at);
    var h := s.jobs[j];
    assert t.pods.Keys == s.pods.Keys;
    assert HistoryOk(h, s.pods.Keys, s.names);
    assert Follows(h[at], Current(h), s.pods.Keys);
    assert t.released[j] == {u};
    assert (u, j, h[at].ref) in t.orders;
  }

  /** The irreversible write: the pod leaves the gate under its job's restore order. */
  lemma UngateKeeps(s: State, id: nat)
    requires Inv(s) && id in s.passes && s.passes[id].stage.Ungate?
    ensures Inv(AdvancePass(s, id))
  {
    hide LogOk, PodsOk, RefsOk;
    var p := s.passes[id];
    var at := p.stage.at;
    if PodCasHolds(s, p) {
      UngatedKeeps(s, p.uid, p.job, at);
      EndPassKeeps(Ungated(s, p.uid, p.job, at), id);
    } else {
      EndPassKeeps(s, id);
    }
  }

  lemma CurrentOk(s: State, j: JobId)
    requires HistoriesOk(s.jobs, s.pods.Keys, s.names) && j in s.jobs
    ensures s.jobs[j] != [] && VersionOk(Current(s.jobs[j]), s.names)
    ensures forall i :: 0 <= i < |s.jobs[j]| ==>
      VersionOk(s.jobs[j][i], s.names) && Follows(s.jobs[j][i], Current(s.jobs[j]), s.pods.Keys)
  {
  }

  /** A pass that consumes or adopts the current version may write it. */
  lemma ConsumeMayWrite(s: State, p: Pass)
    requires HistoriesOk(s.jobs, s.pods.Keys, s.names) && p.uid in s.names
    requires p.stage.Consume? || p.stage.Adopt?
    requires StageOk(p.stage, p.uid, HistoryOf(s.jobs, p.job), s.pods.Keys) && CasHolds(s, p.job, p.stage.at)
    ensures MayWrite(s, p.job, Consumed(s, s.jobs[p.job][p.stage.at], p.uid))
  {
  }

  lemma ConsumeKeeps(s: State, id: nat)
    requires Inv(s) && id in s.passes && (s.passes[id].stage.Consume? || s.passes[id].stage.Adopt?)
    ensures Inv(DoConsume(s, id, s.passes[id], s.passes[id].stage.at))
  {
    hide LogOk, PodsOk, RefsOk, ReleasedOk;
    var p := s.passes[id];
    var j, at := p.job, p.stage.at;
    if CasHolds(s, j, at) {
      ConsumeMayWrite(s, p);
      var v := Consumed(s, s.jobs[j][at], p.uid);
      WriteKeeps(s, j, v);
      var t := Write(s, j, v);
      assert HistoryOf(t.jobs, j)[at + 1] == v;
      SetStageKeeps(t, id, RecordRelease(at + 1));
    } else {
      EndPassKeeps(s, id);
    }
  }

  lemma ColdConsumeKeeps(s: State, id: nat)
    requires Inv(s) && id in s.passes && s.passes[id].stage.ColdConsume?
    ensures Inv(AdvancePass(s, id))
  {
    hide LogOk, PodsOk, RefsOk, ReleasedOk;
    var p := s.passes[id];
    var at := p.stage.at;
    if CasHolds(s, p.job, at) {
      CurrentOk(s, p.job);
      var v := s.jobs[p.job][at].(consumed := true, consumer := Some(p.uid), consumerName := s.names[p.uid]);
      WriteKeeps(s, p.job, v);
      SetStageKeeps(Write(s, p.job, v), id, Bypass);
    } else {
      EndPassKeeps(s, id);
    }
  }

  lemma RecordReleaseKeeps(s: State, id: nat)
    requires Inv(s) && id in s.passes && s.passes[id].stage.RecordRelease?
    ensures Inv(AdvancePass(s, id))
  {
    hide LogOk, PodsOk, RefsOk, ReleasedOk;
    var p := s.passes[id];
    var at := p.stage.at;
    var j := p.job;
    if Has(s, j) {
      CurrentOk(s, j);
      var v := Current(s.jobs[j]).(gateReleased := true);
      WriteKeeps(s, j, v);
      var t := Write(s, j, v);
      assert Current(t.jobs[j]) == v && t.jobs[j][at] == s.jobs[j][at];
      SetStageKeeps(t, id, Ungate(at));
    } else {
      EndPassKeeps(s, id);
    }
  }

  lemma CheckConsumerKeeps(s: State, id: nat)
    requires Inv(s) && id in s.passes && s.passes[id].stage.CheckConsumer?
    ensures Inv(AdvancePass(s, id))
  {
    hide LogOk, PodsOk, RefsOk, ReleasedOk;
    var p := s.passes[id];
    var at := p.stage.at;
    var v := s.jobs[p.job][at];
    if !ConsumerExists(s, v) {
      CurrentOk(s, p.job);
      SetStageKeeps(s, id, Adopt(at));
    } else {
      EndPassKeeps(s, id);
    }
  }

  lemma BypassKeeps(s: State, id: nat)
    requires Inv(s) && id in s.passes && s.passes[id].stage.Bypass?
    ensures Inv(AdvancePass(s, id))
  {
    hide Inv;
    var p := s.passes[id];
    if PodCasHolds(s, p) {
      var pod := Pod(p.podVersion + 1, false, ColdStart);
      RewritePodKeeps(s, p.uid, pod);
      EndPassKeeps(s.(pods := s.pods[p.uid := pod]), id);
    } else {
      EndPassKeeps(s, id);
    }
  }

  lemma AdvanceKeeps(s: State, id: nat)
    requires Inv(s) && id in s.passes
    ensures Inv(AdvancePass(s, id))
  {
    hide Inv;
    match s.passes[id].stage
    case ReadJob =>
    case ColdConsume(_) => ColdConsumeKeeps(s, id);
    case Bypass => BypassKeeps(s, id);
    case CheckConsumer(_) => CheckConsumerKeeps(s, id);
    case Adopt(_) => ConsumeKeeps(s, id);
    case Consume(_) => ConsumeKeeps(s, id);
    case RecordRelease(_) => RecordReleaseKeeps(s, id);
    case Ungate(_) => UngateKeeps(s, id);
  }

  lemma PatchPhaseKeeps(s: State, j: JobId, phase: Phase, ref: string)
    requires Inv(s)
    ensures Inv(Next(s, PatchPhase(j, phase, ref)))
  {
    hide LogOk, PodsOk, RefsOk, ReleasedOk;
    if Has(s, j) {
      CurrentOk(s, j);
      var c := Current(s.jobs[j]);
      if Forward(c.phase, phase) && (ref == c.ref || (c.phase.Snapshotting? && OwnsRef(s, j, ref))) {
        WriteKeeps(s, j, c.(phase := phase, ref := ref));
      }
    }
  }

  lemma WriteCurrentKeeps(s: State, j: JobId, released: bool)
    requires Inv(s) && Has(s, j)
    ensures s.jobs[j] != []
    ensures var c := Current(s.jobs[j]); Inv(Write(s, j, c.(gateReleased := c.gateReleased || released)))
  {
    hide LogOk, PodsOk, RefsOk, ReleasedOk;
    CurrentOk(s, j);
    var c := Current(s.jobs[j]);
    WriteKeeps(s, j, c.(gateReleased := c.gateReleased || released));
  }

  lemma GetJobKeeps(s: State, id: nat, at: nat)
    requires Inv(s)
    ensures Inv(Next(s, GetJob(id, at)))
  {
    EndPassKeeps(s, id);
    if id in s.passes && s.passes[id].stage.ReadJob? && s.passes[id].job in s.jobs && at < |s.jobs[s.passes[id].job]| {
      var p := s.passes[id];
      CurrentOk(s, p.job);
      match Decide(s.jobs[p.job][at], p.uid, at)
      case None =>
      case Some(stage) => SetStageKeeps(s, id, stage);
    }
  }

  lemma PodStepKeeps(s: State, step: Step)
    requires Inv(s) && (step.CreatePod? || step.DeletePod? || step.TouchPod? || step.OrderColdStart?)
    ensures Inv(Next(s, step))
  {
    hide Inv;
    match step
    case CreatePod(u, name, gated, cold) =>
      if u !in s.names { AddPodKeeps(s, u, name, Pod(0, gated, if cold then ColdStart else NoOrder)); }
    case DeletePod(u) => RemovePodKeeps(s, u);
    case TouchPod(u) => if u in s.pods { RewritePodKeeps(s, u, s.pods[u].(version := s.pods[u].version + 1)); }
    case OrderColdStart(u) =>
      if u in s.pods { RewritePodKeeps(s, u, s.pods[u].(version := s.pods[u].version + 1, order := ColdStart)); }
  }

  lemma JobStepKeeps(s: State, step: Step)
    requires Inv(s)
    requires step.CreateJob? || step.DeleteJob? || step.TakeSnapshot? || step.PatchPhase?
        || step.TouchJob? || step.HealGateReleased?
    ensures Inv(Next(s, step))
  {
    match step
    case CreateJob(j) => if j !in s.jobs { CreateJobKeeps(s, j); }
    case DeleteJob(j) =>
    case TakeSnapshot(j, ref) =>
    case PatchPhase(j, phase, ref) => PatchPhaseKeeps(s, j, phase, ref);
    case TouchJob(j) => if Has(s, j) { WriteCurrentKeeps(s, j, false); }
    case HealGateReleased(j) => if Has(s, j) { WriteCurrentKeeps(s, j, true); }
  }

  lemma PassStepKeeps(s: State, step: Step)
    requires Inv(s)
    requires step.StartPass? || step.GetJob? || step.GetJobGone? || step.LoseRace? || step.Advance? || step.Crash?
    ensures Inv(Next(s, step))
  {
    hide HistoriesOk, ReleasedOk, LogOk, PodsOk, RefsOk;
    match step
    case StartPass(id, u, podVersion, j) =>
    case GetJob(id, at) => GetJobKeeps(s, id, at);
    case GetJobGone(id) => if id in s.passes { SetStageKeeps(s, id, Bypass); }
    case LoseRace(id) => if id in s.passes { SetStageKeeps(s, id, Bypass); }
    case Advance(id) => if id in s.passes { AdvanceKeeps(s, id); }
    case Crash(id) => EndPassKeeps(s, id);
  }

  /** Every step, of the environment or of any gate pass, keeps the invariant. */
  lemma NextKeeps(s: State, step: Step)
    requires Inv(s)
    ensures Inv(Next(s, step))
  {
    hide Inv, Next;
    if step.CreatePod? || step.DeletePod? || step.TouchPod? || step.OrderColdStart? {
      PodStepKeeps(s, step);
    } else if step.StartPass? || step.GetJob? || step.GetJobGone? || step.LoseRace? || step.Advance? || step.Crash? {
      PassStepKeeps(s, step);
    } else {
      JobStepKeeps(s, step);
    }
  }

  /** Every reachable state satisfies the invariant. */
  lemma {:induction false} RunKeeps(steps: seq<Step>)
    ensures Inv(Run(Init(), steps))
    decreases |steps|
  {
    hide Next;
    if steps == [] {
    } else {
      RunKeeps(steps[..|steps| - 1]);
      NextKeeps(Run(Init(), steps[..|steps| - 1]), steps[|steps| - 1]);
    }
  }

  // ----- What follows -----

  /**
   At most one pod ever leaves the gate under a job's restore order, over every run: the
   release is recorded before the gate is removed, and an unreleased consumer is replaced only
   after a live read did not find it.
  */
  lemma AtMostOneRelease(steps: seq<Step>, j: JobId, u: Uid, w: Uid)
    requires j in Run(Init(), steps).released
    requires u in Run(Init(), steps).released[j] && w in Run(Init(), steps).released[j]
    ensures u == w
  {
    RunKeeps(steps);
  }

  lemma {:induction false} ReleasedMonotone(before: seq<Step>, after: seq<Step>, j: JobId)
    requires j in Run(Init(), before).released
    ensures j in Run(Init(), before + after).released
    ensures Run(Init(), before).released[j] <= Run(Init(), before + after).released[j]
    decreases |after|
  {
    if after == [] {
      assert before + after == before;
    } else {
      var init := after[..|after| - 1];
      ReleasedMonotone(before, init, j);
      assert (before + after)[..|before + after| - 1] == before + init;
      RunKeeps(before + init);
      ReleasedGrow(Run(Init(), before + init), (before + after)[|before + after| - 1], j);
    }
  }

  /**
   A pod that left the gate under a job's order stays that job's recorded consumer, with its
   release on record, whatever happens next: no later pod can adopt the job.
  */
  lemma ReleaseIsFinal(before: seq<Step>, after: seq<Step>, j: JobId, u: Uid)
    requires j in Run(Init(), before).released && u in Run(Init(), before).released[j]
    ensures var s := Run(Init(), before + after);
      j in s.jobs && s.jobs[j] != [] && j in s.released && s.released[j] == {u}
      && Current(s.jobs[j]).consumed && Current(s.jobs[j]).gateReleased && Current(s.jobs[j]).consumer == Some(u)
  {
    ReleasedMonotone(before, after, j);
    RunKeeps(before + after);
  }

  lemma ReleasedGrowInPass(s: State, id: nat, j: JobId)
    requires id in s.passes && j in s.released
    ensures j in AdvancePass(s, id).released && s.released[j] <= AdvancePass(s, id).released[j]
  {
    match s.passes[id].stage
    case Ungate(_) =>
    case _ =>
  }

  lemma ReleasedGrow(s: State, step: Step, j: JobId)
    requires j in s.released && s.released.Keys == s.jobs.Keys
    ensures j in Next(s, step).released && s.released[j] <= Next(s, step).released[j]
  {
    hide AdvancePass;
    match step
    case Advance(id) => if id in s.passes { ReleasedGrowInPass(s, id, j); }
    case CreateJob(_) =>
    case _ =>
  }

  /** Two restore orders for the same snapshot were written on the same pod. */
  lemma OneOrderPerSnapshot(s: State, u: Uid, w: Uid, j: JobId, k: JobId, ref: string)
    requires Inv(s) && (u, j, ref) in s.orders && (w, k, ref) in s.orders
    ensures j == k && u == w
  {
  }

  /** A job version with its release on record names the only pod its snapshot was ordered for. */
  lemma OrderMatchesReleasedVersion(s: State, j: JobId, at: nat, u: Uid, k: JobId)
    requires Inv(s) && j in s.jobs && at < |s.jobs[j]|
    requires var v := s.jobs[j][at]; v.consumed && v.gateReleased && v.ref != "" && (u, k, v.ref) in s.orders
    ensures s.jobs[j][at].consumer == Some(u)
  {
  }
}
