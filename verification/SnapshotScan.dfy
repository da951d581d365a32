/**
 Two readers of a PodSnapshot's conditions: the status check that drives the migration, and the
 fence's reader that decides whether a checkpoint completed.  They have to agree.
*/
module SnapshotScan {
  import opened Api
  import opened Strings

  datatype Kind = Checkpoint | StorageReplicated | ReadyKind | OtherKind

  datatype Status = True | False | Unknown

  datatype Condition = Condition(kind: Kind, status: Status, reason: string, transition: Option<Time>)

  /** `transientReadyFailureSuppressionWindow`, in seconds. */
  const SUPPRESSION_WINDOW: Time := 60

  // ----- Reasons -----

  function LowerChar(c: char): char {
    if 'A' <= c <= 'Z' then c - 'A' + 'a' else c
  }

  function Lower(s: string): string {
    if s == "" then "" else [LowerChar(s[0])] + Lower(s[1..])
  }

  /** The guards before the switch exclude nothing that it accepts. */
  predicate TerminalReason(reason: string): (terminal: bool)
    ensures terminal <==> Lower(reason) in {"failed", "error", "deadlineexceeded", "refused"}
  {
    var r := Lower(reason);
    assert ("not" <= r ==> r[0] == "not"[0]) && ("non" <= r ==> r[0] == "non"[0]);
    assert r in {"failed", "error", "deadlineexceeded", "refused"} ==> r[0] != 'n';
    if r == "" || r == "noerror" || "not" <= r || "non" <= r then false
    else r == "failed" || r == "error" || r == "deadlineexceeded" || r == "refused"
  }

  predicate InProgressReason(reason: string) {
    var r := Lower(Trim(reason));
    r == "inprogress" || r == "awaitingcheckpoint" || r == "pending"
  }

  predicate RefusedReason(reason: string) {
    Lower(Trim(reason)) == "refused"
  }

  // ----- What a single condition says -----

  predicate Sub(c: Condition) {
    c.kind.Checkpoint? || c.kind.StorageReplicated?
  }

  predicate SubFailed(c: Condition) {
    Sub(c) && c.status.False? && TerminalReason(c.reason)
  }

  predicate SubInProgress(c: Condition) {
    Sub(c) && c.status.False? && !TerminalReason(c.reason) && InProgressReason(c.reason)
  }

  predicate Checkpointed(c: Condition) {
    c.kind.Checkpoint? && c.status.True?
  }

  predicate IsReady(c: Condition) {
    c.kind.ReadyKind? && c.status.True?
  }

  predicate ReadyFailed(c: Condition) {
    c.kind.ReadyKind? && c.status.False? && TerminalReason(c.reason)
  }

  predicate Any(p: Condition -> bool, conditions: seq<Condition>) {
    exists i :: 0 <= i < |conditions| && p(conditions[i])
  }

  // ----- The two readers -----

  datatype SnapshotPhase = InProgress | Ready | SnapshotFailed | SnapshotRefused

  function TerminalPhase(reason: string): SnapshotPhase {
    if RefusedReason(reason) then SnapshotRefused else SnapshotFailed
  }

  /** Ready's failure can still be the transient one: a sub-condition runs, and Ready changed lately. */
  predicate Suppressed(c: Condition, subInProgress: bool, now: Time) {
    subInProgress && c.transition.Some? && now - c.transition.value <= SUPPRESSION_WINDOW
  }

  /** The last condition of a kind, if any. */
  function Last(p: Condition -> bool, conditions: seq<Condition>): Option<Condition> {
    if conditions == [] then None
    else if p(conditions[|conditions| - 1]) then Some(conditions[|conditions| - 1])
    else Last(p, conditions[..|conditions| - 1])
  }

  lemma {:induction false} LastIsOne(p: Condition -> bool, conditions: seq<Condition>)
    ensures Last(p, conditions).Some? <==> Any(p, conditions)
    ensures Last(p, conditions).Some? ==> Last(p, conditions).value in conditions && p(Last(p, conditions).value)
  {
    if conditions != [] {
      var init, last := conditions[..|conditions| - 1], conditions[|conditions| - 1];
      LastIsOne(p, init);
      if Any(p, init) {
        var i :| 0 <= i < |init| && p(init[i]);
        assert conditions[i] == init[i];
      }
      if p(last) {
        assert conditions[|conditions| - 1] == last;
      }
    }
  }

  function LastReadyFailure(conditions: seq<Condition>): Option<Condition> {
    Last(ReadyFailed, conditions)
  }

  /**
   The reason that fails the snapshot, if any: that of the last sub-condition that failed, else of the last
   Ready failure that is not suppressed, else the top-level phase.
  */
  function Fatal(conditions: seq<Condition>, topPhase: string, now: Time): Option<string> {
    var sub, ready := Last(SubFailed, conditions), LastReadyFailure(conditions);
    if sub.Some? then Some(sub.value.reason)
    else if ready.Some? && !Suppressed(ready.value, Any(SubInProgress, conditions), now) then Some(ready.value.reason)
    else if TerminalReason(topPhase) then Some(topPhase)
    else None
  }

  /** What a fatal reason makes of the snapshot. */
  lemma TerminalPhaseMeans(reason: string)
    requires TerminalReason(reason)
    ensures TerminalPhase(reason).SnapshotRefused? <==> Lower(reason) == "refused"
    ensures TerminalPhase(reason).SnapshotFailed? <==> Lower(reason) in {"failed", "error", "deadlineexceeded"}
  {
    LetterEnds(reason);
  }

  /** A terminal reason has no white space around it. */
  lemma LetterEnds(reason: string)
    requires TerminalReason(reason)
    ensures Trim(reason) == reason
  {
    LowerAt(reason);
    assert reason != "";
    assert Lower(reason)[0] in {'f', 'e', 'd', 'r'};
    assert Lower(reason)[|reason| - 1] in {'d', 'r'};
  }

  lemma {:induction false} LowerAt(s: string)
    ensures |Lower(s)| == |s| && forall i :: 0 <= i < |s| ==> Lower(s)[i] == LowerChar(s[i])
  {
    if s != "" {
      LowerAt(s[1..]);
    }
  }

  lemma AnyStep(p: Condition -> bool, conditions: seq<Condition>, i: nat)
    requires i < |conditions|
    ensures !Any(p, conditions[..0])
    ensures Any(p, conditions[..i + 1]) <==> Any(p, conditions[..i]) || p(conditions[i])
  {
  }

  /** The condition the status check counts as ready. */
  predicate CountsReady(c: Condition) {
    IsReady(c) || (Checkpointed(c) && c.reason == "Succeeded")
  }

  lemma AnyImplies(p: Condition -> bool, q: Condition -> bool, r: Condition -> bool, conditions: seq<Condition>)
    requires forall c :: p(c) ==> q(c) || r(c)
    ensures Any(p, conditions) ==> Any(q, conditions) || Any(r, conditions)
  {
  }

  /** The status check's scan of a snapshot's conditions and top-level phase. */
  method CheckStatus(conditions: seq<Condition>, topPhase: string, now: Time) returns (phase: SnapshotPhase)
    ensures var fatal := Fatal(conditions, topPhase, now);
      && (phase.SnapshotRefused? <==> fatal.Some? && Lower(fatal.value) == "refused")
      && (phase.SnapshotFailed? <==> fatal.Some? && Lower(fatal.value) in {"failed", "error", "deadlineexceeded"})
      && (phase.Ready? <==> fatal.None? && Any(CountsReady, conditions))
      && (phase.InProgress? <==> fatal.None? && !Any(CountsReady, conditions))
  {
    hide TerminalReason, InProgressReason, TerminalPhase;
    var subFailed: Option<Condition> := None;
    var readyFailed: Option<Condition> := None;
    var subInProgress, ready := false, false;
    for i := 0 to |conditions|
      invariant subFailed == Last(SubFailed, conditions[..i])
      invariant readyFailed == LastReadyFailure(conditions[..i])
      invariant subInProgress <==> Any(SubInProgress, conditions[..i])
      invariant ready <==> Any(CountsReady, conditions[..i])
    {
      assert conditions[..i + 1][..i] == conditions[..i];
      var c := conditions[i];
      AnyStep(SubInProgress, conditions, i);
      AnyStep(CountsReady, conditions, i);
      if Sub(c) {
        if c.status.False? && TerminalReason(c.reason) {
          subFailed := Some(c);
        } else if c.status.False? && InProgressReason(c.reason) {
          subInProgress := true;
        }
        if c.kind.Checkpoint? && c.status.True? && c.reason == "Succeeded" {
          ready := true;
        }
      } else if c.kind.ReadyKind? {
        if c.status.True? {
          ready := true;
        } else if c.status.False? && TerminalReason(c.reason) {
          readyFailed := Some(c);
        }
      }
    }
    assert conditions[..|conditions|] == conditions;
    LastIsOne(SubFailed, conditions);
    LastIsOne(ReadyFailed, conditions);
    var fatal := Fatal(conditions, topPhase, now);
    if fatal.Some? {
      TerminalPhaseMeans(fatal.value);
    }
    if subFailed.Some? {
      return TerminalPhase(subFailed.value.reason);
    }
    if readyFailed.Some? && !Suppressed(readyFailed.value, subInProgress, now) {
      return TerminalPhase(readyFailed.value.reason);
    }
    if TerminalReason(topPhase) {
      return TerminalPhase(topPhase);
    }
    return if ready then Ready else InProgress;
  }

  /** Nothing more will come of the snapshot. */
  predicate Over(conditions: seq<Condition>, topPhase: string) {
    || Any(SubFailed, conditions)
    || Any(IsReady, conditions)
    || (Any(ReadyFailed, conditions) && !Any(SubInProgress, conditions))
    || TerminalReason(topPhase)
  }

  /** The fence's reader: whether the checkpoint completed, and whether the snapshot finished. */
  method CheckpointProgress(conditions: seq<Condition>, topPhase: string, deleting: bool)
      returns (completed: bool, finished: bool)
    ensures completed <==> Any(Checkpointed, conditions) || Any(IsReady, conditions)
    ensures finished <==> (!deleting && Over(conditions, topPhase))
  {
    hide TerminalReason, InProgressReason;
    completed, finished := false, false;
    var readyFailed, subInProgress := false, false;
    for i := 0 to |conditions|
      invariant completed <==> Any(Checkpointed, conditions[..i]) || Any(IsReady, conditions[..i])
      invariant finished <==> Any(SubFailed, conditions[..i]) || Any(IsReady, conditions[..i])
      invariant readyFailed <==> Any(ReadyFailed, conditions[..i])
      invariant subInProgress <==> Any(SubInProgress, conditions[..i])
    {
      var c := conditions[i];
      AnyStep(Checkpointed, conditions, i);
      AnyStep(IsReady, conditions, i);
      AnyStep(SubFailed, conditions, i);
      AnyStep(ReadyFailed, conditions, i);
      AnyStep(SubInProgress, conditions, i);
      if Sub(c) {
        if c.kind.Checkpoint? && c.status.True? {
          completed := true;
        }
        if c.status.False? && TerminalReason(c.reason) {
          finished := true;
        } else if c.status.False? && InProgressReason(c.reason) {
          subInProgress := true;
        }
      } else if c.kind.ReadyKind? {
        if c.status.True? {
          completed, finished := true, true;
        } else if c.status.False? && TerminalReason(c.reason) {
          readyFailed := true;
        }
      }
    }
    assert conditions[..|conditions|] == conditions;
    if readyFailed && !subInProgress {
      finished := true;
    }
    if TerminalReason(topPhase) {
      finished := true;
    }
    if deleting {
      finished := false;
    }
  }

  /** A Ready failure while a sub-condition runs that the status check no longer takes for a transient one. */
  predicate Outlasted(conditions: seq<Condition>, now: Time) {
    && LastReadyFailure(conditions).Some? && Any(SubInProgress, conditions)
    && !Suppressed(LastReadyFailure(conditions).value, true, now)
  }

  /**
   Both readers on one snapshot: what the status check calls Ready the fence calls completed, and a
   snapshot that finished without completing is one the status check has failed.  It fails a snapshot
   that the fence holds open exactly if that is being deleted, or a Ready failure outlasted the
   window while a sub-condition still runs and nothing else finished the snapshot.
  */
  method ReadBoth(conditions: seq<Condition>, topPhase: string, deleting: bool, now: Time)
    returns (phase: SnapshotPhase, completed: bool, finished: bool)
    ensures phase.Ready? ==> completed
    ensures finished && !completed ==> phase.SnapshotFailed? || phase.SnapshotRefused?
    ensures (phase.SnapshotFailed? || phase.SnapshotRefused?) && !finished && !deleting <==>
      !deleting && !Over(conditions, topPhase) && Outlasted(conditions, now)
    ensures deleting ==> !finished
  {
    phase := CheckStatus(conditions, topPhase, now);
    completed, finished := CheckpointProgress(conditions, topPhase, deleting);
    LastIsOne(ReadyFailed, conditions);
    LastIsOne(SubFailed, conditions);
    AnyImplies(CountsReady, Checkpointed, IsReady, conditions);
  }

  /** The fence's reader does not depend on the order of the conditions. */
  lemma OrderIrrelevant(p: Condition -> bool, a: seq<Condition>, b: seq<Condition>)
    requires multiset(a) == multiset(b)
    ensures Any(p, a) <==> Any(p, b)
  {
    assert forall c :: c in a <==> c in multiset(a);
    assert forall c :: c in b <==> c in multiset(b);
    if Any(p, a) {
      var i :| 0 <= i < |a| && p(a[i]);
      assert a[i] in b;
    }
    if Any(p, b) {
      var i :| 0 <= i < |b| && p(b[i]);
      assert b[i] in a;
    }
  }
}
