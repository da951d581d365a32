/**
 A whole migration, write by write, that succeeds over a standing restore order: past the restore
 ceiling the replacement is read live, but the cache that is asked for the order still shows the
 replacement behind its gate.
*/
module CeilingRun {
  import opened Api
  import opened RestoreVerdict
  import opened JobWorld
  import opened JobSafety

  /** A new job on a running source. */
  function Begin(): World {
    var job := Job(0, Unset, "", None, None, None, None, [], "", Unchecked, NoFence, 0, false, false, false,
                   Working, NotConcluded, None, false, false, false, 0, None, false);
    World(0, 60, 120, job, Some(Source(PodRunning, false, false, false, false, true, map[])), None, {}, 0, false, false,
          map[], Replacement([], false, 0))
  }

  /** The source is about to be fenced. */
  function Snapshots(): World {
    var w := Begin();
    w.(job := w.job.(phase := Snapshotting, snapshotting := Some(0), budget := Allowed,
      node := "node", finalizer := true))
  }

  /** The fence stands, and the source starts cold. */
  function Fenced(): World {
    var w := Snapshots();
    w.(job := w.job.(fence := Fence.Fenced, baseline := Some(map[])), read := w.source,
       source := Some(w.source.value.(labelled := true, held := true, bypass := true)))
  }

  /** The checkpoint completed. */
  function Checkpointed(): World {
    Fenced().(trigger := true, triggered := true, checkpointed := {"snap"},
              snapshots := map["snap" := Snapshot(Completed(true), false)])
  }

  /** The source is gone. */
  function Restores(): World {
    var w := Checkpointed();
    w.(job := w.job.(phase := Restoring, ref := "snap", evicting := Some(0), restoring := Some(0)), source := None)
  }

  /** The gate let the replacement out; long after, the cache still shows only its first version. */
  function Lags(): World {
    var w := Restores();
    var gated := Version(true, NoOrder, NotReady, 0);
    var running := Version(false, RestoreOrder, Readiness.Ready(Some(10)), 0);
    w.(now := 1000, job := w.job.(consumer := Some(7), gateReleased := true),
       replacement := Replacement([gated, running], false, 1))
  }

  /** The live read of the second version, with an inferred restore. */
  function LiveRead(): Evidence {
    Evidence(1, Verdict(Outcome.Restored, false, ""), 1000, true)
  }

  lemma Grow(log: seq<Entry>, act: Act) returns (more: seq<Entry>)
    requires IsRun(log) && Guard(log[|log| - 1].world, act)
    ensures IsRun(more) && more == log + [Entry(act, Apply(log[|log| - 1].world, act))]
  {
    more := log + [Entry(act, Apply(log[|log| - 1].world, act))];
    RunExtends(log, Entry(act, Apply(log[|log| - 1].world, act)));
  }

  lemma ToSnapshotting() returns (log: seq<Entry>)
    ensures IsRun(log) && log[|log| - 1].world == Snapshots()
  {
    log := [Entry(Environment(Begin()), Begin())];
    assert StepOk(log, 0);
    log := Grow(log, OnJob(InitPhase));
    log := Grow(log, OnJob(StartSnapshotting([], "node")));
    log := Grow(log, OnJob(AddFinalizer));
  }

  /** The source has its label and is held; its baseline is not recorded yet. */
  function Held(): World {
    var w := Fenced();
    w.(job := w.job.(baseline := None), source := Some(w.source.value.(bypass := false)))
  }

  lemma ToHeld() returns (log: seq<Entry>)
    ensures IsRun(log) && log[|log| - 1].world == Held()
  {
    hide IsRun;
    log := ToSnapshotting();
    log := Grow(log, OnCluster(ReadSource));
    log := Grow(log, OnJob(MarkFenced));
    log := Grow(log, OnCluster(Label));
    log := Grow(log, OnCluster(HoldReady));
  }

  lemma ToFenced() returns (log: seq<Entry>)
    ensures IsRun(log) && log[|log| - 1].world == Fenced()
  {
    hide IsRun;
    log := ToHeld();
    log := Grow(log, OnJob(RecordBaseline(map[])));
    log := Grow(log, OnCluster(SetBypass));
  }

  lemma ToCheckpointed() returns (log: seq<Entry>)
    ensures IsRun(log) && log[|log| - 1].world == Checkpointed()
  {
    hide IsRun;
    log := ToFenced();
    log := Grow(log, OnCluster(CreateTrigger));
    var w := log[|log| - 1].world;
    log := Grow(log, Environment(w.(snapshots := map["snap" := Snapshot(Completed(true), false)])));
    log := Grow(log, OnCluster(ReadStatus("snap")));
    assert {} + {"snap"} == {"snap"};
  }

  lemma ToRestoring() returns (log: seq<Entry>)
    ensures IsRun(log) && log[|log| - 1].world == Restores()
  {
    hide IsRun;
    log := ToCheckpointed();
    log := Grow(log, OnJob(StartEvicting("snap")));
    var w := log[|log| - 1].world;
    log := Grow(log, Environment(w.(source := None)));
    log := Grow(log, OnJob(StartRestoring([])));
  }

  lemma ToLagging() returns (log: seq<Entry>)
    ensures IsRun(log) && log[|log| - 1].world == Lags()
  {
    hide IsRun;
    log := ToRestoring();
    log := Grow(log, Environment(Lags()));
  }

  /** At the restore ceiling a lagging cache lets a job succeed while its order still stands. */
  lemma CeilingCanLeaveTheOrder() returns (log: seq<Entry>, k: nat)
    ensures IsRun(log) && k == |log| - 1 && ConcludedAt(log, k) && MissedAt(log, k)
    ensures log[k].world.job.phase.Succeeded? && !Retired(log[k].world.replacement)
  {
    hide IsRun;
    log := ToLagging();
    log := Grow(log, OnCluster(ReadCached));
    log := Grow(log, OnJob(ConcludeRestored(LiveRead())));
    k := |log| - 1;
  }
}
