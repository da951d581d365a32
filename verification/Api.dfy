/** Values shared by every component: the job's phases and a few API types. */
module Api {
  type Uid = nat
  type JobId = nat
  type Time = int

  datatype Option<+T> = None | Some(value: T)

  /** The phases of a PodMigrationJob. `Unset` is the empty phase of a new job. */
  datatype Phase =
    | Unset
    | Pending
    | Snapshotting
    | Evicting
    | Restoring
    | Succeeded
    | SucceededWithoutRestore
    | Failed

  predicate Terminal(p: Phase) {
    p.Succeeded? || p.SucceededWithoutRestore? || p.Failed?
  }

  /** How far a job has come. The three terminal phases share the last rank. */
  function Rank(p: Phase): nat {
    match p
    case Unset => 0
    case Pending => 1
    case Snapshotting => 2
    case Evicting => 3
    case Restoring => 4
    case _ => 5
  }

  /** A job only moves forward, and a terminal phase never changes. */
  predicate Forward(p: Phase, q: Phase) {
    p == q || Rank(p) < Rank(q)
  }
}
