/** How the calls of a gate pass move it, and that nobody else does. */
module GatePasses {
  import opened Api
  import opened GateProtocol

  /** The step belongs to pass `id`. */
  predicate Drives(step: Step, id: nat) {
    match step
    case StartPass(i, _, _, _) => i == id
    case GetJob(i, _) => i == id
    case GetJobGone(i) => i == id
    case LoseRace(i) => i == id
    case Advance(i) => i == id
    case Crash(i) => i == id
    case _ => false
  }

  /** Where a call that succeeds leads. */
  predicate Leads(a: Stage, b: Stage) {
    match a
    case ReadJob => false
    case ColdConsume(_) => b == Bypass
    case Bypass => false
    case CheckConsumer(at) => b == Adopt(at)
    case Adopt(at) => b == RecordRelease(at + 1)
    case Consume(at) => b == RecordRelease(at + 1)
    case RecordRelease(at) => b == Ungate(at)
    case Ungate(_) => false
  }

  /** A call of pass `id` ends the pass or moves it on, and touches no other. */
  predicate Moved(s: State, t: State, id: nat)
    requires id in s.passes
  {
    if id in t.passes then
      && t.passes == s.passes[id := s.passes[id].(stage := t.passes[id].stage)]
      && Leads(s.passes[id].stage, t.passes[id].stage)
    else t.passes == s.passes - {id}
  }

  lemma ConsumeMoves(s: State, id: nat)
    requires id in s.passes && (s.passes[id].stage.Adopt? || s.passes[id].stage.Consume?)
    ensures Moved(s, DoConsume(s, id, s.passes[id], s.passes[id].stage.at), id)
  {
  }

  lemma ColdConsumeMoves(s: State, id: nat)
    requires id in s.passes && s.passes[id].stage.ColdConsume?
    ensures Moved(s, DoColdConsume(s, id, s.passes[id], s.passes[id].stage.at), id)
  {
  }

  lemma CheckConsumerMoves(s: State, id: nat)
    requires id in s.passes && s.passes[id].stage.CheckConsumer?
    ensures Moved(s, DoCheckConsumer(s, id, s.passes[id], s.passes[id].stage.at), id)
  {
  }

  lemma RecordReleaseMoves(s: State, id: nat)
    requires id in s.passes && s.passes[id].stage.RecordRelease?
    ensures Moved(s, DoRecordRelease(s, id, s.passes[id], s.passes[id].stage.at), id)
  {
  }

  lemma LastCallMoves(s: State, id: nat)
    requires id in s.passes
    ensures s.passes[id].stage.Bypass? ==> Moved(s, DoBypass(s, id, s.passes[id]), id)
    ensures s.passes[id].stage.Ungate? ==> Moved(s, DoUngate(s, id, s.passes[id], s.passes[id].stage.at), id)
  {
  }

  lemma CallMoves(s: State, id: nat)
    requires id in s.passes && !s.passes[id].stage.ReadJob?
    ensures Moved(s, Next(s, Advance(id)), id)
  {
    hide DoConsume, DoColdConsume, DoCheckConsumer, DoRecordRelease, DoBypass, DoUngate, Moved;
    match s.passes[id].stage
    case ReadJob =>
    case ColdConsume(_) => ColdConsumeMoves(s, id);
    case Bypass => LastCallMoves(s, id);
    case CheckConsumer(_) => CheckConsumerMoves(s, id);
    case Adopt(_) => ConsumeMoves(s, id);
    case Consume(_) => ConsumeMoves(s, id);
    case RecordRelease(_) => RecordReleaseMoves(s, id);
    case Ungate(_) => LastCallMoves(s, id);
  }

  lemma StartMoves(s: State, id: nat, u: Uid, podVersion: nat, j: JobId)
    requires id !in s.passes
    ensures var t := Next(s, StartPass(id, u, podVersion, j));
        id in t.passes ==> t.passes[id] == Pass(u, podVersion, j, ReadJob)
  {
  }

  /** What the reads at the start of a pass make of it. */
  lemma ReadMoves(s: State, id: nat, at: nat)
    requires id in s.passes && s.passes[id].stage.ReadJob?
    ensures id in Next(s, LoseRace(id)).passes && Next(s, LoseRace(id)).passes[id].stage == Bypass
    ensures var j := s.passes[id].job;
      && (!Has(s, j) ==> id in Next(s, GetJobGone(id)).passes && Next(s, GetJobGone(id)).passes[id].stage == Bypass)
      && (Has(s, j) && at < |s.jobs[j]| ==>
            var d := Decide(s.jobs[j][at], s.passes[id].uid, at);
            var t := Next(s, GetJob(id, at));
            if d.None? then id !in t.passes else id in t.passes && t.passes[id] == s.passes[id].(stage := d.value))
  {
  }

  /** Nobody else moves a pass. */
  lemma OthersLeavePass(s: State, step: Step, id: nat)
    requires !Drives(step, id)
    ensures id in Next(s, step).passes <==> id in s.passes
    ensures id in s.passes ==> Next(s, step).passes[id] == s.passes[id]
  {
    hide AdvancePass;
    if step.Advance? && step.id in s.passes {
      if s.passes[step.id].stage.ReadJob? {
        ReadIsNoCall(s, step.id);
      } else {
        CallMoves(s, step.id);
      }
    }
  }

  lemma ReadIsNoCall(s: State, id: nat)
    requires id in s.passes && s.passes[id].stage.ReadJob?
    ensures AdvancePass(s, id) == s
  {
  }
}
