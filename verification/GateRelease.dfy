/**
 What the gate answers: which pods are restored, which start cold and which wait, in terms of
 the pods and jobs before and after a pass; and that over every run a pod starts cold only for
 a reason.
*/
module GateRelease {
  import opened Api
  import opened GateProtocol
  import opened GatePasses

  // ----- A pass that nobody disturbs -----

  function Call(s: State, id: nat): State {
    Next(s, Advance(id))
  }

  /** The pass has read its job's current version, or that the job is gone. */
  function AfterRead(s: State, id: nat, u: Uid, j: JobId): State
    requires u in s.pods
  {
    var t := Next(s, StartPass(id, u, s.pods[u].version, j));
    if Has(s, j) && s.jobs[j] != [] then Next(t, GetJob(id, |s.jobs[j]| - 1)) else Next(t, GetJobGone(id))
  }

  /** The calls after the read; there are at most four, and a pass that is over makes none. */
  function Calls(s: State, id: nat): State {
    Call(Call(Call(Call(s, id), id), id), id)
  }

  /** A whole pass over pod u, assigned to job j. */
  function Undisturbed(s: State, id: nat, u: Uid, j: JobId): State
    requires u in s.pods
  {
    Calls(AfterRead(s, id, u, j), id)
  }

  /** The snapshot is for pod u to restore: nobody has it, or u does, or whoever had it never started and is gone. */
  predicate Owed(s: State, u: Uid, j: JobId) {
    && Has(s, j) && s.jobs[j] != []
    && var v := Current(s.jobs[j]);
       && (v.phase.Restoring? || v.phase.Succeeded?) && v.ref != ""
       && (|| !v.consumed
           || v.consumer == Some(u)
           || (v.phase.Restoring? && !v.gateReleased && v.consumer.Some? && v.consumer.value !in s.pods))
  }

  /** The version says that pod u has nothing to restore, now or later. */
  predicate Spent(v: Status, u: Uid) {
    || v.phase.Failed?
    || v.phase.SucceededWithoutRestore?
    || ((v.phase.Restoring? || v.phase.Succeeded?) && v.ref == "")
    || (v.consumed && v.consumer != Some(u) && (v.phase.Succeeded? || (v.phase.Restoring? && v.gateReleased)))
  }

  predicate NothingToRestore(s: State, u: Uid, j: JobId) {
    !Has(s, j) || s.jobs[j] == [] || Spent(Current(s.jobs[j]), u)
  }

  /** Pod u left the gate, and only u and job j changed. */
  predicate Left(s: State, t: State, u: Uid, j: JobId, order: Order) {
    && u in s.pods && t.pods == s.pods[u := Pod(s.pods[u].version + 1, false, order)]
    && t.names == s.names && t.passes == s.passes
    && t.jobs.Keys == s.jobs.Keys && forall k :: k in s.jobs && k != j ==> t.jobs[k] == s.jobs[k]
  }

  predicate Restored(s: State, t: State, u: Uid, j: JobId) {
    && Has(s, j) && s.jobs[j] != [] && u in s.names
    && var v := Current(s.jobs[j]);
       && Left(s, t, u, j, Restore(j, v.ref))
       && t.jobs[j] != []
       && Current(t.jobs[j])
          == v.(consumed := true, consumer := Some(u), consumerName := s.names[u], gateReleased := true)
  }

  /** The job is marked as consumed if it was not; nothing else about it changes. */
  predicate StartedCold(s: State, t: State, u: Uid, j: JobId) {
    && Left(s, t, u, j, ColdStart)
    && (Has(s, j) && s.jobs[j] != [] ==>
          && u in s.names && t.jobs[j] != []
          && var v := Current(s.jobs[j]);
             Current(t.jobs[j])
             == if v.consumed then v else v.(consumed := true, consumer := Some(u), consumerName := s.names[u]))
  }

  // ----- The calls, one by one -----

  predicate At(s: State, id: nat, u: Uid, j: JobId, stage: Stage) {
    && id in s.passes && u in s.pods && u in s.names && s.pods[u].gated
    && s.passes[id] == Pass(u, s.pods[u].version, j, stage)
  }

  predicate SamePods(s: State, t: State) {
    t.pods == s.pods && t.names == s.names && t.deletedJobs == s.deletedJobs && t.released.Keys == s.released.Keys
  }

  lemma BypassReleases(s: State, id: nat, u: Uid, j: JobId)
    requires At(s, id, u, j, Bypass)
    ensures var t := Call(s, id);
      t == s.(pods := s.pods[u := Pod(s.pods[u].version + 1, false, ColdStart)], passes := s.passes - {id})
  {
  }

  lemma UngateReleases(s: State, id: nat, u: Uid, j: JobId, at: nat)
    requires At(s, id, u, j, Ungate(at)) && j in s.jobs && at < |s.jobs[j]| && j in s.released
    ensures var t := Call(s, id);
      && t.pods == s.pods[u := Pod(s.pods[u].version + 1, false, Restore(j, s.jobs[j][at].ref))]
      && t.passes == s.passes - {id} && t.jobs == s.jobs && t.names == s.names
  {
  }

  lemma RecordsRelease(s: State, id: nat, u: Uid, j: JobId, at: nat)
    requires At(s, id, u, j, RecordRelease(at)) && Has(s, j) && s.jobs[j] != []
    ensures var t := Call(s, id);
      && At(t, id, u, j, Ungate(at)) && SamePods(s, t) && t.passes - {id} == s.passes - {id}
      && t.jobs == s.jobs[j := s.jobs[j] + [Current(s.jobs[j]).(gateReleased := true)]]
  {
  }

  lemma Consumes(s: State, id: nat, u: Uid, j: JobId, at: nat)
    requires At(s, id, u, j, Consume(at)) || At(s, id, u, j, Adopt(at))
    requires Has(s, j) && s.jobs[j] != [] && at == |s.jobs[j]| - 1
    ensures var t := Call(s, id);
      && At(t, id, u, j, RecordRelease(at + 1)) && SamePods(s, t) && t.passes - {id} == s.passes - {id}
      && t.jobs == s.jobs[j := s.jobs[j] + [Current(s.jobs[j]).(
           consumed := true, consumer := Some(u), consumerName := s.names[u], gateReleased := false)]]
  {
  }

  lemma ConsumesCold(s: State, id: nat, u: Uid, j: JobId, at: nat)
    requires At(s, id, u, j, ColdConsume(at))
    requires Has(s, j) && s.jobs[j] != [] && at == |s.jobs[j]| - 1
    ensures var t := Call(s, id);
      && At(t, id, u, j, Bypass) && SamePods(s, t) && t.passes - {id} == s.passes - {id}
      && t.jobs == s.jobs[j := s.jobs[j] + [Current(s.jobs[j]).(
           consumed := true, consumer := Some(u), consumerName := s.names[u])]]
  {
  }

  lemma ChecksConsumer(s: State, id: nat, u: Uid, j: JobId, at: nat)
    requires At(s, id, u, j, CheckConsumer(at)) && j in s.jobs && at < |s.jobs[j]|
    requires VersionOk(s.jobs[j][at], s.names) && s.jobs[j][at].consumed && s.pods.Keys <= s.names.Keys
    ensures var t := Call(s, id);
      if s.jobs[j][at].consumer.value in s.pods then t == s.(passes := s.passes - {id})
      else t == s.(passes := s.passes[id := s.passes[id].(stage := Adopt(at))])
  {
    var v := s.jobs[j][at];
    assert ConsumerExists(s, v) <==> v.consumer.value in s.pods;
  }

  lemma DoneIsDone(s: State, id: nat)
    requires id !in s.passes
    ensures Call(s, id) == s
  {
  }

  /** From the record of the release on, pod u is restored. */
  lemma ReleaseRestores(s: State, id: nat, u: Uid, j: JobId, at: nat)
    requires At(s, id, u, j, RecordRelease(at)) && Has(s, j) && at == |s.jobs[j]| - 1 && j in s.released
    ensures var t := Call(Call(s, id), id); var v := Current(s.jobs[j]);
      && t.pods == s.pods[u := Pod(s.pods[u].version + 1, false, Restore(j, v.ref))]
      && t.names == s.names && t.passes == s.passes - {id}
      && t.jobs == s.jobs[j := s.jobs[j] + [v.(gateReleased := true)]]
  {
    hide Call;
    RecordsRelease(s, id, u, j, at);
    UngateReleases(Call(s, id), id, u, j, at);
  }

  lemma ConsumeRestores(s: State, id: nat, u: Uid, j: JobId, at: nat)
    requires At(s, id, u, j, Consume(at)) || At(s, id, u, j, Adopt(at))
    requires Has(s, j) && s.jobs[j] != [] && at == |s.jobs[j]| - 1 && j in s.released
    ensures var t := Call(Call(Call(s, id), id), id);
      Restored(s.(passes := s.passes - {id}), t, u, j)
  {
    hide Call;
    Consumes(s, id, u, j, at);
    ReleaseRestores(Call(s, id), id, u, j, at + 1);
  }

  // ----- The whole pass -----

  lemma ReadsCurrent(s: State, id: nat, u: Uid, j: JobId)
    requires id !in s.passes && u in s.pods && u in s.names && s.pods[u].gated && Has(s, j) && s.jobs[j] != []
    ensures var t := AfterRead(s, id, u, j); var at := |s.jobs[j]| - 1; var d := Decide(Current(s.jobs[j]), u, at);
      if d.None? then t == s
      else At(t, id, u, j, d.value) && t == s.(passes := t.passes) && t.passes - {id} == s.passes
  {
    var t := Next(s, StartPass(id, u, s.pods[u].version, j));
    assert t.passes - {id} == s.passes;
  }

  lemma ReadsGone(s: State, id: nat, u: Uid, j: JobId)
    requires id !in s.passes && u in s.pods && u in s.names && s.pods[u].gated && !Has(s, j)
    ensures var t := AfterRead(s, id, u, j);
      At(t, id, u, j, Bypass) && t == s.(passes := t.passes) && t.passes - {id} == s.passes
  {
    var t := Next(s, StartPass(id, u, s.pods[u].version, j));
    assert t.passes - {id} == s.passes;
  }

  /** The states this is about: a gated pod, and a pass that has not begun. */
  ghost predicate Ready(s: State, id: nat, u: Uid) {
    Inv(s) && id !in s.passes && u in s.pods && s.pods[u].gated
  }

  lemma ReadyFacts(s: State, id: nat, u: Uid, j: JobId)
    requires Ready(s, id, u)
    ensures u in s.names && s.pods.Keys <= s.names.Keys
    ensures j in s.jobs ==> s.jobs[j] != [] && j in s.released && VersionOk(Current(s.jobs[j]), s.names)
  {
    if j in s.jobs {
      CurrentOk(s, j);
    }
  }

  lemma DoneAfter(s: State, id: nat)
    ensures id !in s.passes ==> Calls(s, id) == s
    ensures id !in Call(s, id).passes ==> Calls(s, id) == Call(s, id)
    ensures id !in Call(Call(s, id), id).passes ==> Calls(s, id) == Call(Call(s, id), id)
    ensures id !in Call(Call(Call(s, id), id), id).passes ==> Calls(s, id) == Call(Call(Call(s, id), id), id)
  {
    hide Call;
    var a := Call(s, id);
    var b := Call(a, id);
    var c := Call(b, id);
    if id !in s.passes { DoneIsDone(s, id); }
    if id !in a.passes { DoneIsDone(a, id); }
    if id !in b.passes { DoneIsDone(b, id); }
    if id !in c.passes { DoneIsDone(c, id); }
  }

  /** The pass started in s has its read behind it. */
  predicate HasRead(s: State, r: State, id: nat, u: Uid, j: JobId, stage: Stage) {
    && id !in s.passes && u in s.pods && u in s.names && s.pods[u].gated
    && At(r, id, u, j, stage) && r == s.(passes := r.passes) && r.passes - {id} == s.passes
  }

  lemma BypassIsCold(s: State, r: State, id: nat, u: Uid, j: JobId)
    requires HasRead(s, r, id, u, j, Bypass) && (Has(s, j) && s.jobs[j] != [] ==> Current(s.jobs[j]).consumed)
    ensures StartedCold(s, Calls(r, id), u, j)
  {
    hide Call, Calls;
    BypassReleases(r, id, u, j);
    DoneAfter(r, id);
  }

  lemma ColdConsumeIsCold(s: State, r: State, id: nat, u: Uid, j: JobId)
    requires Has(s, j) && s.jobs[j] != [] && HasRead(s, r, id, u, j, ColdConsume(|s.jobs[j]| - 1))
    requires !Current(s.jobs[j]).consumed
    ensures StartedCold(s, Calls(r, id), u, j)
  {
    hide Call, Calls;
    ConsumesCold(r, id, u, j, |s.jobs[j]| - 1);
    BypassReleases(Call(r, id), id, u, j);
    DoneAfter(r, id);
  }

  lemma ConsumeIsRestored(s: State, r: State, id: nat, u: Uid, j: JobId)
    requires Has(s, j) && s.jobs[j] != [] && HasRead(s, r, id, u, j, Consume(|s.jobs[j]| - 1)) && j in s.released
    ensures Restored(s, Calls(r, id), u, j)
  {
    hide Call, Calls;
    ConsumeRestores(r, id, u, j, |s.jobs[j]| - 1);
    assert r.(passes := r.passes - {id}) == s;
    DoneAfter(r, id);
  }

  /** The consumer on record is gone: its job is adopted.  Otherwise the pass waits. */
  lemma CheckAdoptsOrWaits(s: State, r: State, id: nat, u: Uid, j: JobId)
    requires Has(s, j) && s.jobs[j] != [] && HasRead(s, r, id, u, j, CheckConsumer(|s.jobs[j]| - 1)) && j in s.released
    requires var v := Current(s.jobs[j]); v.consumed && VersionOk(v, s.names)
    requires s.pods.Keys <= s.names.Keys
    ensures if Current(s.jobs[j]).consumer.value in s.pods then Calls(r, id) == s else Restored(s, Calls(r, id), u, j)
  {
    hide Call, Calls;
    var at := |s.jobs[j]| - 1;
    ChecksConsumer(r, id, u, j, at);
    var c := Call(r, id);
    if Current(s.jobs[j]).consumer.value in s.pods {
      DoneAfter(r, id);
    } else {
      ConsumeRestores(c, id, u, j, at);
      assert c.(passes := c.passes - {id}) == s;
      AdoptEnds(r, id);
    }
  }

  lemma AdoptEnds(r: State, id: nat)
    ensures Calls(r, id) == Call(Call(Call(Call(r, id), id), id), id)
  {
  }

  /** The job already names pod u, with its release on record or not. */
  lemma NamedIsRestored(s: State, r: State, id: nat, u: Uid, j: JobId)
    requires Has(s, j) && s.jobs[j] != [] && j in s.released
    requires var v := Current(s.jobs[j]); v.consumed && v.consumer == Some(u) && VersionOk(v, s.names)
    requires HasRead(s, r, id, u, j, AfterConsume(Current(s.jobs[j]), |s.jobs[j]| - 1))
    ensures Restored(s, Calls(r, id), u, j)
  {
    hide Call, Calls;
    var at := |s.jobs[j]| - 1;
    if Current(s.jobs[j]).gateReleased {
      UngateReleases(r, id, u, j, at);
    } else {
      ReleaseRestores(r, id, u, j, at);
    }
    DoneAfter(r, id);
  }

  lemma PassWithJob(s: State, id: nat, u: Uid, j: JobId)
    requires Ready(s, id, u) && Has(s, j)
    ensures s.jobs[j] != [] && var t := Undisturbed(s, id, u, j);
      && (Owed(s, u, j) ==> Restored(s, t, u, j))
      && (Spent(Current(s.jobs[j]), u) ==> StartedCold(s, t, u, j))
      && (!Owed(s, u, j) && !Spent(Current(s.jobs[j]), u) ==> t == s)
  {
    hide Calls, Restored, StartedCold, Inv, AfterRead;
    ReadyFacts(s, id, u, j);
    ReadsCurrent(s, id, u, j);
    var r, v, at := AfterRead(s, id, u, j), Current(s.jobs[j]), |s.jobs[j]| - 1;
    match Decide(v, u, at)
    case None => DoneAfter(r, id);
    case Some(Bypass) => BypassIsCold(s, r, id, u, j);
    case Some(ColdConsume(_)) => ColdConsumeIsCold(s, r, id, u, j);
    case Some(Consume(_)) => ConsumeIsRestored(s, r, id, u, j);
    case Some(CheckConsumer(_)) => CheckAdoptsOrWaits(s, r, id, u, j);
    case Some(_) => NamedIsRestored(s, r, id, u, j);
  }

  lemma PassWithoutJob(s: State, id: nat, u: Uid, j: JobId)
    requires Ready(s, id, u) && !Has(s, j)
    ensures StartedCold(s, Undisturbed(s, id, u, j), u, j)
  {
    hide Calls, StartedCold, Inv, AfterRead;
    ReadyFacts(s, id, u, j);
    ReadsGone(s, id, u, j);
    BypassIsCold(s, AfterRead(s, id, u, j), id, u, j);
  }

  /**
   What a pass that nobody disturbs does with a gated pod, in every reachable state: it restores the
   pod exactly if the snapshot is owed to it, lets it start cold exactly if there is nothing for it to
   restore, and otherwise changes nothing.
  */
  lemma UndisturbedPass(s: State, id: nat, u: Uid, j: JobId)
    requires Ready(s, id, u)
    ensures var t := Undisturbed(s, id, u, j);
      && (Owed(s, u, j) <==> Restored(s, t, u, j))
      && (NothingToRestore(s, u, j) <==> StartedCold(s, t, u, j))
      && (!Owed(s, u, j) && !NothingToRestore(s, u, j) <==> t == s)
  {
    hide Undisturbed, Inv;
    if Has(s, j) {
      PassWithJob(s, id, u, j);
    } else {
      PassWithoutJob(s, id, u, j);
    }
    var t := Undisturbed(s, id, u, j);
    assert Restored(s, t, u, j) ==> !t.pods[u].gated && t.pods[u].order.Restore?;
    assert StartedCold(s, t, u, j) ==> !t.pods[u].gated && t.pods[u].order.ColdStart?;
  }

  /** A pass that finds its pod to have lost the race for the job. */
  lemma LosingPass(s: State, id: nat, u: Uid, j: JobId)
    requires Ready(s, id, u)
    ensures var t := Calls(Next(Next(s, StartPass(id, u, s.pods[u].version, j)), LoseRace(id)), id);
      Left(s, t, u, j, ColdStart) && t.jobs == s.jobs
  {
    hide Calls, Call, Inv;
    ReadyFacts(s, id, u, j);
    var r := Next(Next(s, StartPass(id, u, s.pods[u].version, j)), LoseRace(id));
    assert r.passes - {id} == s.passes;
    hide Next;
    BypassReleases(r, id, u, j);
    DoneAfter(r, id);
  }

  lemma StartsPass(s: State, id: nat, u: Uid, j: JobId)
    requires id !in s.passes && u in s.pods && u in s.names
    ensures var t := Next(s, StartPass(id, u, s.pods[u].version, j));
      && id in t.passes && t == s.(passes := t.passes)
      && AfterRead(s, id, u, j)
         == if Has(s, j) && s.jobs[j] != [] then Next(t, GetJob(id, |s.jobs[j]| - 1)) else Next(t, GetJobGone(id))
  {
  }

  // ----- Over every run -----

  /** What a pass over pod u with assignment j read at this step for the pod to start cold. */
  predicate ColdReason(s: State, step: Step, id: nat, u: Uid, j: JobId) {
    && id in s.passes && s.passes[id].stage.ReadJob? && s.passes[id].uid == u && s.passes[id].job == j
    && match step
       case LoseRace(i) => i == id
       case GetJobGone(i) => i == id && !Has(s, j)
       case GetJob(i, at) => i == id && j in s.jobs && at < |s.jobs[j]| && Spent(s.jobs[j][at], u)
       case _ => false
  }

  predicate HeadsForCold(s: State, id: nat) {
    id in s.passes && (s.passes[id].stage.Bypass? || s.passes[id].stage.ColdConsume?)
  }

  lemma ReadHeadsForCold(s: State, step: Step, id: nat)
    requires Drives(step, id) && !step.Advance? && HeadsForCold(Next(s, step), id)
    ensures id in s.passes && s.passes[id].(stage := ReadJob) == Next(s, step).passes[id].(stage := ReadJob)
    ensures HeadsForCold(s, id) || ColdReason(s, step, id, s.passes[id].uid, s.passes[id].job)
  {
  }

  lemma CallHeadsForCold(s: State, id: nat)
    requires id in s.passes && HeadsForCold(Next(s, Advance(id)), id)
    ensures HeadsForCold(s, id)
    ensures s.passes[id].(stage := ReadJob) == Next(s, Advance(id)).passes[id].(stage := ReadJob)
  {
    if s.passes[id].stage.ReadJob? {
      ReadIsNoCall(s, id);
    } else {
      CallMoves(s, id);
      hide Next;
    }
  }

  lemma StepHeadsForCold(s: State, step: Step, id: nat)
    requires HeadsForCold(Next(s, step), id)
    ensures id in s.passes && s.passes[id].(stage := ReadJob) == Next(s, step).passes[id].(stage := ReadJob)
    ensures HeadsForCold(s, id) || ColdReason(s, step, id, s.passes[id].uid, s.passes[id].job)
  {
    hide Next, ColdReason;
    if !Drives(step, id) {
      OthersLeavePass(s, step, id);
    } else if step.Advance? {
      AdvanceNeedsPass(s, id);
      CallHeadsForCold(s, id);
    } else {
      ReadHeadsForCold(s, step, id);
    }
  }

  lemma AdvanceNeedsPass(s: State, id: nat)
    ensures id !in s.passes ==> Next(s, Advance(id)) == s
  {
  }

  function After(steps: seq<Step>): State {
    Run(Init(), steps)
  }

  lemma {:induction false} ColdReasonGiven(steps: seq<Step>, id: nat) returns (k: nat)
    requires HeadsForCold(After(steps), id)
    ensures k < |steps|
    ensures ColdReason(After(steps[..k]), steps[k], id, After(steps).passes[id].uid, After(steps).passes[id].job)
    decreases |steps|
  {
    hide Next, ColdReason;
    var n := |steps| - 1;
    var s := After(steps[..n]);
    StepHeadsForCold(s, steps[n], id);
    k := n;
    if HeadsForCold(s, id) {
      k := ColdReasonGiven(steps[..n], id);
      assert steps[..n][..k] == steps[..k];
    }
  }

  lemma LeavesByCall(s: State, step: Step, u: Uid)
    requires u in s.pods && s.pods[u].gated && u in Next(s, step).pods && !Next(s, step).pods[u].gated
    requires Next(s, step).pods[u].order.ColdStart? && (u in s.pods ==> u in s.names)
    ensures step.Advance? && step.id in s.passes && s.passes[step.id].uid == u && s.passes[step.id].stage.Bypass?
  {
    match step
    case Advance(id) =>
      if id in s.passes { CallThatUngates(s, id, u); }
    case CreatePod(_, _, _, _) =>
    case DeletePod(_) =>
    case TouchPod(_) =>
    case OrderColdStart(_) =>
    case _ => OtherStepsKeepPods(s, step);
  }

  lemma OtherStepsKeepPods(s: State, step: Step)
    requires !step.Advance? && !step.CreatePod? && !step.DeletePod? && !step.TouchPod? && !step.OrderColdStart?
    ensures Next(s, step).pods == s.pods
  {
    hide Decide;
  }

  lemma CallThatUngates(s: State, id: nat, u: Uid)
    requires id in s.passes && u in s.pods && s.pods[u].gated
    requires u in AdvancePass(s, id).pods && !AdvancePass(s, id).pods[u].gated
    ensures s.passes[id].uid == u
    ensures AdvancePass(s, id).pods[u].order.ColdStart? ==> s.passes[id].stage.Bypass?
  {
    match s.passes[id].stage
    case Bypass =>
    case Ungate(_) =>
    case _ => OtherCallsKeepPods(s, id);
  }

  lemma OtherCallsKeepPods(s: State, id: nat)
    requires id in s.passes && !s.passes[id].stage.Bypass? && !s.passes[id].stage.Ungate?
    ensures AdvancePass(s, id).pods == s.pods
  {
    hide ConsumerExists;
  }

  lemma CallGrowsHistory(s: State, id: nat, j: JobId)
    requires id in s.passes && j in s.jobs
    ensures j in AdvancePass(s, id).jobs && s.jobs[j] <= AdvancePass(s, id).jobs[j]
  {
    hide ConsumerExists, PodCasHolds, DoConsume;
    match s.passes[id].stage
    case ReadJob =>
    case ColdConsume(_) =>
    case Bypass =>
    case CheckConsumer(_) =>
    case Adopt(_) => ConsumeGrowsHistory(s, id, j);
    case Consume(_) => ConsumeGrowsHistory(s, id, j);
    case RecordRelease(_) =>
    case Ungate(_) =>
  }

  lemma ConsumeGrowsHistory(s: State, id: nat, j: JobId)
    requires id in s.passes && j in s.jobs && (s.passes[id].stage.Adopt? || s.passes[id].stage.Consume?)
    ensures var t := DoConsume(s, id, s.passes[id], s.passes[id].stage.at); j in t.jobs && s.jobs[j] <= t.jobs[j]
  {
  }

  lemma StepGrowsHistory(s: State, step: Step, j: JobId)
    requires j in s.jobs
    ensures j in Next(s, step).jobs && s.jobs[j] <= Next(s, step).jobs[j]
  {
    hide AdvancePass, Decide;
    if step.Advance? && step.id in s.passes {
      CallGrowsHistory(s, step.id, j);
    }
  }

  /** A job's versions are never taken back. */
  lemma {:induction false} HistoryGrows(steps: seq<Step>, k: nat, n: nat, j: JobId)
    requires k <= n <= |steps| && j in After(steps[..k]).jobs
    ensures j in After(steps[..n]).jobs && After(steps[..k]).jobs[j] <= After(steps[..n]).jobs[j]
    decreases n
  {
    hide Next;
    if k < n {
      HistoryGrows(steps, k, n - 1, j);
      assert steps[..n][..|steps[..n]| - 1] == steps[..n - 1];
      StepGrowsHistory(After(steps[..n - 1]), steps[n - 1], j);
    }
  }

  /** What a version says against a restore, every later version says too. */
  lemma SpentForGood(s: State, j: JobId, at: nat, u: Uid)
    requires Inv(s) && j in s.jobs && at < |s.jobs[j]| && Spent(s.jobs[j][at], u)
    ensures Spent(Current(s.jobs[j]), u)
  {
    CurrentOk(s, j);
  }

  /**
   Over every run, with any number of passes and stale reads: a pod that leaves the gate cold lost the
   race for its assignment, or its job was gone, or a version of its job, and every later one, says
   that there is nothing for the pod to restore.
  */
  lemma LeavesColdForAReason(steps: seq<Step>, n: nat, u: Uid) returns (k: nat, id: nat, j: JobId)
    requires n < |steps|
    requires u in After(steps[..n]).pods && After(steps[..n]).pods[u].gated
    requires u in After(steps[..n + 1]).pods && !After(steps[..n + 1]).pods[u].gated
    requires After(steps[..n + 1]).pods[u].order.ColdStart?
    ensures k < n && ColdReason(After(steps[..k]), steps[k], id, u, j)
    ensures steps[k].GetJob? ==>
      j in After(steps).jobs && After(steps).jobs[j] != [] && Spent(Current(After(steps).jobs[j]), u)
  {
    k, id, j := ColdRelease(steps, n, u);
    if steps[k].GetJob? {
      HistoryGrows(steps, k, |steps|, j);
      assert steps[..|steps|] == steps;
      hide Next, Run, Spent;
      RunKeeps(steps);
      SpentForGood(After(steps), j, steps[k].at, u);
    }
  }

  lemma ColdRelease(steps: seq<Step>, n: nat, u: Uid) returns (k: nat, id: nat, j: JobId)
    requires n < |steps|
    requires u in After(steps[..n]).pods && After(steps[..n]).pods[u].gated
    requires u in After(steps[..n + 1]).pods && !After(steps[..n + 1]).pods[u].gated
    requires After(steps[..n + 1]).pods[u].order.ColdStart?
    ensures k < n && ColdReason(After(steps[..k]), steps[k], id, u, j)
  {
    hide Next, ColdReason;
    var before, now := steps[..n], steps[..n + 1];
    assert now[..|now| - 1] == before;
    RunKeeps(before);
    LeavesByCall(After(before), steps[n], u);
    id := steps[n].id;
    j := After(before).passes[id].job;
    k := ColdReasonGiven(before, id);
    assert before[..k] == steps[..k];
  }
}
