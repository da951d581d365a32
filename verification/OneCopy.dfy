/**
 The gate and the job together: what a migration assumes of its replacement is what the gate
 protocol guarantees, and from one checkpoint no second pod ever runs under a restore order.
*/
module OneCopy {
  import opened Api
  import Gate = GateProtocol
  import Verdict = RestoreVerdict
  import World = JobWorld
  import Safety = JobSafety

  /** A pod of the gate protocol, as a version of a job's replacement. */
  function AsVersion(p: Gate.Pod, readiness: Verdict.Readiness, restarts: nat): World.Version {
    World.Version(
      p.gated,
      match p.order
      case NoOrder => World.NoOrder
      case ColdStart => World.Bypassed
      case Restore(_, _) => World.RestoreOrder,
      readiness,
      restarts)
  }

  // ----- Pods that left the gate -----

  /** Once out of the gate, a pod stays out, and what it was let out with is an order or a cold start. */
  predicate StaysOut(p: Gate.Pod, q: Gate.Pod) {
    !p.gated ==>
      && !q.gated && (p.order.ColdStart? ==> q.order.ColdStart?)
      && (!p.order.NoOrder? ==> !q.order.NoOrder?)
  }

  /** A pod carries an order only once it left the gate. */
  predicate OrderedIsOut(pods: map<Uid, Gate.Pod>) {
    forall u :: u in pods && pods[u].order.Restore? ==> !pods[u].gated
  }

  predicate UngatedSame(pods: map<Uid, Gate.Pod>, next: map<Uid, Gate.Pod>) {
    forall u :: u in pods && !pods[u].gated ==> u in next && next[u] == pods[u]
  }

  lemma BypassKeepsOut(s: Gate.State, id: nat)
    requires OrderedIsOut(s.pods) && id in s.passes
    ensures var t := Gate.DoBypass(s, id, s.passes[id]); OrderedIsOut(t.pods) && UngatedSame(s.pods, t.pods)
  {
  }

  lemma UngateKeepsOut(s: Gate.State, id: nat, at: nat)
    requires OrderedIsOut(s.pods) && id in s.passes
    ensures var t := Gate.DoUngate(s, id, s.passes[id], at); OrderedIsOut(t.pods) && UngatedSame(s.pods, t.pods)
  {
  }

  lemma AdvanceKeepsOut(s: Gate.State, id: nat)
    requires OrderedIsOut(s.pods) && id in s.passes
    ensures OrderedIsOut(Gate.AdvancePass(s, id).pods) && UngatedSame(s.pods, Gate.AdvancePass(s, id).pods)
  {
    hide Gate.DoBypass, Gate.DoUngate;
    match s.passes[id].stage
    case Bypass => BypassKeepsOut(s, id);
    case Ungate(at) => UngateKeepsOut(s, id, at);
    case _ =>
  }

  predicate OnPods(step: Gate.Step) {
    step.CreatePod? || step.DeletePod? || step.TouchPod? || step.OrderColdStart?
  }

  lemma OtherStepsLeavePods(s: Gate.State, step: Gate.Step)
    requires !OnPods(step) && !step.Advance?
    ensures Gate.Next(s, step).pods == s.pods && Gate.Next(s, step).names == s.names
  {
    hide Gate.Decide;
    match step
    case PatchPhase(_, _, _) =>
    case GetJob(_, _) =>
    case _ =>
  }

  /** Pod u after a step, if it is still there, is what it was, up to what may change. */
  predicate Kept(s: Gate.State, t: Gate.State, u: Uid) {
    && OrderedIsOut(t.pods)
    && (u in s.pods && u in t.pods ==> StaysOut(s.pods[u], t.pods[u]))
    && (u in s.names ==> u in t.names && (u in t.pods ==> u in s.pods))
  }

  lemma PodStepKeepsOut(s: Gate.State, step: Gate.Step, u: Uid)
    requires OrderedIsOut(s.pods) && (u in s.pods ==> u in s.names) && OnPods(step)
    ensures Kept(s, Gate.Next(s, step), u)
  {
    match step
    case CreatePod(_, _, _, _) =>
    case DeletePod(_) =>
    case TouchPod(_) =>
    case OrderColdStart(_) =>
  }

  lemma StepKeepsOut(s: Gate.State, step: Gate.Step, u: Uid)
    requires OrderedIsOut(s.pods) && (u in s.pods ==> u in s.names)
    ensures Kept(s, Gate.Next(s, step), u)
  {
    if OnPods(step) {
      PodStepKeepsOut(s, step, u);
      hide Gate.Next;
    } else if step.Advance? {
      hide Gate.AdvancePass;
      if step.id in s.passes {
        AdvanceKeepsOut(s, step.id);
        AdvanceKeepsNames(s, step.id);
      }
    } else {
      OtherStepsLeavePods(s, step);
      hide Gate.Next;
    }
  }

  lemma AdvanceKeepsNames(s: Gate.State, id: nat)
    requires id in s.passes
    ensures Gate.AdvancePass(s, id).names == s.names && Gate.AdvancePass(s, id).pods.Keys == s.pods.Keys
  {
    match s.passes[id].stage
    case Bypass =>
    case Ungate(_) =>
    case _ =>
  }

  function After(steps: seq<Gate.Step>): Gate.State {
    Gate.Run(Gate.Init(), steps)
  }

  lemma {:induction false} RunKeepsOut(steps: seq<Gate.Step>)
    ensures OrderedIsOut(After(steps).pods) && After(steps).pods.Keys <= After(steps).names.Keys
    decreases |steps|
  {
    hide Gate.Next;
    Gate.RunKeeps(steps);
    if steps == [] {
      assert After(steps) == Gate.Init();
    } else {
      RunKeepsOut(steps[..|steps| - 1]);
      StepKeepsOut(After(steps[..|steps| - 1]), steps[|steps| - 1], 0);
    }
  }

  /** Over a whole run, a pod that left the gate stays out, and a deleted pod never comes back. */
  lemma {:induction false} PodStaysOut(before: seq<Gate.Step>, after: seq<Gate.Step>, u: Uid)
    requires u in After(before).pods
    ensures u in After(before + after).names
    ensures u in After(before + after).pods ==> StaysOut(After(before).pods[u], After(before + after).pods[u])
    decreases |after|
  {
    hide Gate.Next;
    RunKeepsOut(before);
    if after == [] {
      assert before + after == before;
    } else {
      var init := after[..|after| - 1];
      assert (before + after)[..|before + after| - 1] == before + init;
      PodStaysOut(before, init, u);
      RunKeepsOut(before + init);
      StepKeepsOut(After(before + init), after[|after| - 1], u);
    }
  }

  /**
   What a migration assumes of its replacement: a pod that carries the job's order is out of the
   gate, stays the recorded consumer whatever happens, and its versions only move as assumed.
  */
  lemma ReplacementAsAssumed(before: seq<Gate.Step>, after: seq<Gate.Step>, u: Uid, j: JobId, ref: string,
                             ready: Verdict.Readiness, restarts: nat)
    requires u in After(before).pods && After(before).pods[u].order == Gate.Restore(j, ref)
    ensures World.VersionOk(AsVersion(After(before).pods[u], ready, restarts))
    ensures u in After(before + after).pods ==>
      var v, w := AsVersion(After(before).pods[u], ready, restarts),
        AsVersion(After(before + after).pods[u], ready, restarts);
      World.VersionOk(w) && World.Later(v, w)
    ensures j in After(before + after).jobs && After(before + after).jobs[j] != []
    ensures Gate.Current(After(before + after).jobs[j]).consumer == Some(u)
  {
    hide Gate.Next, Gate.Run;
    Gate.RunKeeps(before);
    RunKeepsOut(before);
    OrderIsReleased(After(before), u);
    Gate.ReleaseIsFinal(before, after, j, u);
    PodStaysOut(before, after, u);
    RunKeepsOut(before + after);
  }

  lemma OrderIsReleased(s: Gate.State, u: Uid)
    requires Gate.Inv(s) && u in s.pods && s.pods[u].order.Restore?
    ensures s.pods[u].order.job in s.released && u in s.released[s.pods[u].order.job]
  {
    assert (u, s.pods[u].order.job, s.pods[u].order.ref) in s.orders;
  }

  // ----- One copy -----

  /** A sandbox of pod u can start from the snapshot: u carries an order for it, or is the source without its bypass. */
  ghost predicate MayStartFrom(s: Gate.State, w: World.World, source: Uid, u: Uid, ref: string) {
    || (u in s.pods && s.pods[u].order.Restore? && s.pods[u].order.ref == ref)
    || (u == source && w.source.Some? && !w.source.value.bypass)
  }

  /**
   From one checkpoint no second pod ever runs under a restore order: over every run of the gate and
   every run of the migration that took the snapshot, at most one pod can start from it.
  */
  lemma OnePodPerCheckpoint(steps: seq<Gate.Step>, log: seq<World.Entry>, i: nat, source: Uid,
      u: Uid, v: Uid, ref: string)
    requires World.IsRun(log) && i < |log| && ref in log[i].world.snapshots
    requires MayStartFrom(After(steps), log[i].world, source, u, ref)
    requires MayStartFrom(After(steps), log[i].world, source, v, ref)
    ensures u == v
  {
    hide Gate.Next, Gate.Run;
    var s := After(steps);
    Gate.RunKeeps(steps);
    Safety.SourceStartsCold(log, i);
    Gate.OneOrderPerSnapshot(s, u, v, s.pods[u].order.job, s.pods[v].order.job, ref);
  }
}
