/**
 The pod gate's reconcile, in the order of its API calls, as one pass among any number of others:
 between two calls anything may happen, and the process may die.
*/
module GateReconciler {
  import opened Api
  import opened GateProtocol
  import opened GatePasses
  import Answer = GateRelease

  const MIGRATION_GATE := "gke.io/pod-migration-gate"

  /** Rebuilds the list of scheduling gates without the migration's own. */
  method RemoveGate(gates: seq<string>) returns (rest: seq<string>)
    ensures MIGRATION_GATE !in rest
    ensures forall g :: g != MIGRATION_GATE ==> multiset(rest)[g] == multiset(gates)[g]
  {
    rest := [];
    for i := 0 to |gates|
      invariant MIGRATION_GATE !in rest
      invariant forall g :: g != MIGRATION_GATE ==> multiset(rest)[g] == multiset(gates[..i])[g]
    {
      assert gates[..i + 1] == gates[..i] + [gates[i]];
      if gates[i] != MIGRATION_GATE {
        rest := rest + [gates[i]];
      }
    }
    assert gates[..|gates|] == gates;
  }

  class Gate {
    var s: State
    var steps: seq<Step>

    ghost predicate Valid()
      reads this
    {
      s == Run(Init(), steps)
    }

    constructor ()
      ensures Valid() && s == Init()
    {
      s, steps := Init(), [];
    }

    method Do(step: Step)
      requires Valid()
      modifies this
      ensures Valid() && s == Next(old(s), step) && steps == old(steps) + [step]
    {
      assert (steps + [step])[..|steps|] == steps;
      s := Next(s, step);
      steps := steps + [step];
    }

    /**
     While pass `id` waits, everybody else may move; `died` says that the process ended.  In a calm
     neither happens.
    */
    method Await(id: nat, calm: bool) returns (died: bool)
      requires Valid() && id in s.passes
      modifies this
      ensures Valid() && old(steps) <= steps
      ensures if died then id !in s.passes else id in s.passes && s.passes[id] == old(s).passes[id]
      ensures calm ==> s == old(s) && !died
    {
      hide Next, Run, Init;
      if calm {
        return false;
      }
      var n: int := *;
      for i := 0 to if n < 0 then 0 else n
        invariant Valid() && old(steps) <= steps && id in s.passes && s.passes[id] == old(s).passes[id]
      {
        var step: Step := *;
        if !Drives(step, id) {
          OthersLeavePass(s, step, id);
          Do(step);
        }
      }
      died := *;
      if died {
        CrashEnds(s, id);
        Do(Crash(id));
      }
    }

    lemma CrashEnds(t: State, id: nat)
      ensures id !in Next(t, Crash(id)).passes
    {
    }

    /** The next API call of pass `id`, after a wait. */
    method Call(id: nat, calm: bool) returns (alive: bool)
      requires Valid() && id in s.passes && !s.passes[id].stage.ReadJob?
      modifies this
      ensures Valid() && old(steps) <= steps && (alive <==> id in s.passes)
      ensures alive ==> s.passes[id] == old(s).passes[id].(stage := s.passes[id].stage)
      ensures alive ==> Leads(old(s).passes[id].stage, s.passes[id].stage)
      ensures calm ==> s == Answer.Call(old(s), id)
    {
      hide Run, Init;
      var died := Await(id, calm);
      if died {
        return false;
      }
      hide Next;
      CallMoves(s, id);
      Do(Advance(id));
      alive := id in s.passes;
    }

    /** The last two calls of a pass whose pod the job names: record the release, then remove the gate. */
    method Release(id: nat, calm: bool)
      requires Valid() && id in s.passes && (s.passes[id].stage.RecordRelease? || s.passes[id].stage.Ungate?)
      modifies this
      ensures Valid() && old(steps) <= steps && id !in s.passes
      ensures calm ==> s == Answer.Call(Answer.Call(old(s), id), id)
    {
      hide Next, Run, Init, Answer.Call;
      if s.passes[id].stage.RecordRelease? {
        var recorded := Call(id, calm);
        if !recorded {
          Answer.DoneIsDone(s, id);
          return;
        }
        var alive := Call(id, calm);
      } else {
        var alive := Call(id, calm);
        Answer.DoneIsDone(s, id);
      }
    }

    /** Adopts the job of a consumer that is gone, or waits. */
    method Recover(id: nat, calm: bool)
      requires Valid() && id in s.passes && s.passes[id].stage.CheckConsumer?
      modifies this
      ensures Valid() && old(steps) <= steps && id !in s.passes
      ensures calm ==> s == Answer.Calls(old(s), id)
    {
      hide Next, Run, Init, Answer.Call;
      ghost var start := s;
      Answer.DoneAfter(start, id);
      var gone := Call(id, calm);
      if !gone {
        return;
      }
      var adopted := Call(id, calm);
      if adopted {
        Release(id, calm);
      }
    }

    method ColdStart(id: nat, calm: bool)
      requires Valid() && id in s.passes && (s.passes[id].stage.ColdConsume? || s.passes[id].stage.Bypass?)
      modifies this
      ensures Valid() && old(steps) <= steps && id !in s.passes
      ensures calm ==> s == Answer.Calls(old(s), id)
    {
      hide Next, Run, Init, Answer.Call, Answer.Calls;
      Answer.DoneAfter(s, id);
      if s.passes[id].stage.ColdConsume? {
        var consumed := Call(id, calm);
        if !consumed {
          return;
        }
      }
      var alive := Call(id, calm);
    }

    /** The branches of a pass that has version `at` of its job in hand. */
    method Branch(id: nat, v: Status, at: nat, calm: bool)
      requires Valid() && id in s.passes && Decide(v, s.passes[id].uid, at) == Some(s.passes[id].stage)
      modifies this
      ensures Valid() && old(steps) <= steps && id !in s.passes
      ensures calm ==> s == Answer.Calls(old(s), id)
    {
      hide Next, Run, Init, Answer.Call, Answer.Calls;
      if v.phase.Failed? || v.phase.SucceededWithoutRestore? || v.ref == "" {
        ColdStart(id, calm);
        return;
      }
      if v.consumed && v.consumer != Some(s.passes[id].uid) {
        if !v.phase.Restoring? || v.gateReleased {
          ColdStart(id, calm);
        } else {
          Recover(id, calm);
        }
        return;
      }
      Answer.DoneAfter(s, id);
      if !v.consumed {
        var consumed := Call(id, calm);
        if !consumed {
          return;
        }
      }
      Release(id, calm);
    }

    /** From the read of the job to the end of the pass. */
    method Judge(id: nat, loser: bool, calm: bool)
      requires Valid() && id in s.passes && s.passes[id].stage.ReadJob?
      modifies this
      ensures Valid() && old(steps) <= steps && id !in s.passes
      ensures calm && loser ==> s == Answer.Calls(Next(old(s), LoseRace(id)), id)
      ensures calm && !loser && !Has(old(s), old(s).passes[id].job) ==>
        s == Answer.Calls(Next(old(s), GetJobGone(id)), id)
      ensures var j := old(s).passes[id].job;
        calm && !loser && Has(old(s), j) && old(s).jobs[j] != [] ==>
          s == Answer.Calls(Next(old(s), GetJob(id, |old(s).jobs[j]| - 1)), id)
    {
      hide Run, Init, Next, Answer.Calls, Answer.Call;
      var j := s.passes[id].job;
      if loser {
        ReadMoves(s, id, 0);
        Do(LoseRace(id));
        ColdStart(id, calm);
        return;
      }
      if !Has(s, j) {
        ReadMoves(s, id, 0);
        Do(GetJobGone(id));
        ColdStart(id, calm);
        return;
      }
      var at: int := *;
      if calm {
        at := |s.jobs[j]| - 1;
      }
      if at < 0 || at >= |s.jobs[j]| {
        CrashEnds(s, id);
        Do(Crash(id));
        return;
      }
      var v := s.jobs[j][at];
      ReadMoves(s, id, at);
      Do(GetJob(id, at));
      if Durable(v.phase) {
        Branch(id, v, at, calm);
      } else {
        Answer.DoneAfter(s, id);
      }
    }

    /**
     One reconcile of pod u, read from the cache at some version, with assignment j; `loser` is
     what collision resolution found.  In a calm, on the pod's current version, it restores the pod if
     the snapshot is owed to it, lets it start cold if there is nothing to restore, and else waits.
    */
    method Reconcile(id: nat, u: Uid, podVersion: nat, j: JobId, loser: bool, calm: bool)
      requires Valid() && id !in s.passes
      modifies this
      ensures Valid() && old(steps) <= steps && id !in s.passes
      ensures calm && !loser && u in old(s).pods && old(s).pods[u].gated && podVersion == old(s).pods[u].version ==>
        && (Answer.Owed(old(s), u, j) ==> Answer.Restored(old(s), s, u, j))
        && (Answer.NothingToRestore(old(s), u, j) ==> Answer.StartedCold(old(s), s, u, j))
        && (!Answer.Owed(old(s), u, j) && !Answer.NothingToRestore(old(s), u, j) ==> s == old(s))
      ensures calm && loser && u in old(s).pods && old(s).pods[u].gated && podVersion == old(s).pods[u].version ==>
        Answer.Left(old(s), s, u, j, GateProtocol.ColdStart) && s.jobs == old(s).jobs
    {
      hide Run, Init, Next, Inv, Answer.Calls, Answer.AfterRead, Answer.Call;
      hide Answer.Owed, Answer.NothingToRestore, Answer.Restored, Answer.StartedCold, Answer.Left;
      RunKeeps(steps);
      if u in s.pods && s.pods[u].gated && podVersion == s.pods[u].version {
        Answer.ReadyFacts(s, id, u, j);
        Answer.UndisturbedPass(s, id, u, j);
        Answer.LosingPass(s, id, u, j);
        Answer.StartsPass(s, id, u, j);
      }
      StartMoves(s, id, u, podVersion, j);
      Do(StartPass(id, u, podVersion, j));
      if id !in s.passes {
        return;
      }
      var died := Await(id, calm);
      if !died {
        Judge(id, loser, calm);
      }
    }

    /** However the passes went, no job released two pods. */
    lemma OneReleasePerJob(j: JobId)
      requires Valid() && j in s.released
      ensures forall u, w :: u in s.released[j] && w in s.released[j] ==> u == w
    {
      forall u, w | u in s.released[j] && w in s.released[j] ensures u == w {
        AtMostOneRelease(steps, j, u, w);
      }
    }
  }
}
