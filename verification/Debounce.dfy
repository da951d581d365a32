/**
 The invariant engine's debounce: a violation that needs persistence only counts after enough
 consecutive samples over enough time, and escalates once per streak.
*/
module Debounce {
  import opened Api

  /** A violation with its thresholds: those of its rule, or its own where it sets them. */
  datatype Violation = Violation(id: string, samples: int, duration: Time)

  function Required(v: Violation): int {
    if v.samples > 0 then v.samples else 1
  }

  /** One evaluation of one subject.  It is degraded when a list behind it failed. */
  datatype Sample = Sample(now: Time, terminal: bool, degraded: bool, violations: seq<Violation>)

  /** What is remembered of one rule on one subject: the entries of the engine's three parallel maps. */
  datatype Track = Track(count: nat, firstSeen: Option<Time>, escalated: bool)

  const FRESH := Track(0, None, false)

  predicate Immediate(v: Violation) {
    Required(v) <= 1 && v.duration <= 0
  }

  predicate Violates(s: Sample, id: string) {
    exists k :: 0 <= k < |s.violations| && s.violations[k].id == id
  }

  /** A debounced violation of the rule among the first n of the sample. */
  predicate HitBefore(s: Sample, id: string, n: nat)
    requires n <= |s.violations|
  {
    exists k :: 0 <= k < n && s.violations[k].id == id && !Immediate(s.violations[k])
  }

  predicate Hit(s: Sample, id: string) {
    !s.terminal && HitBefore(s, id, |s.violations|)
  }

  /** The sample ends the rule's streak: the job concluded, or the rule is known to be clean. */
  predicate Resets(s: Sample, id: string) {
    s.terminal || (!s.degraded && !Violates(s, id))
  }

  predicate Met(v: Violation, t: Track, now: Time) {
    t.count >= Required(v) && (v.duration <= 0 || (t.firstSeen.Some? && now - t.firstSeen.value >= v.duration))
  }

  /** The counters after the sample's first n violations. */
  function Counted(t: Track, s: Sample, id: string, n: nat): Track
    requires n <= |s.violations|
  {
    if !s.terminal && !s.degraded && HitBefore(s, id, n) then
      t.(count := t.count + 1, firstSeen := if t.firstSeen.None? then Some(s.now) else t.firstSeen)
    else t
  }

  /** Some debounced violation among the first n meets its thresholds. */
  predicate MetBefore(t: Track, s: Sample, id: string, n: nat)
    requires n <= |s.violations|
  {
    !s.terminal &&
    exists k :: 0 <= k < n && s.violations[k].id == id && !Immediate(s.violations[k]) && Met(s.violations[k], t, s.now)
  }

  /** The track that a sample starts from. */
  function Base(t: Track, s: Sample, id: string): Track {
    if Resets(s, id) then FRESH else t
  }

  /** The counters after the whole sample. */
  function CountedAll(t: Track, s: Sample, id: string): Track {
    Counted(t, s, id, |s.violations|)
  }

  /** The track after the first n violations of a sample, from base b. */
  function Partial(b: Track, s: Sample, id: string, n: nat): Track
    requires n <= |s.violations|
  {
    Counted(b, s, id, n).(escalated := b.escalated || MetBefore(CountedAll(b, s, id), s, id, n))
  }

  function Next(t: Track, s: Sample, id: string): Track {
    Partial(Base(t, s, id), s, id, |s.violations|)
  }

  /** The track after a sequence of samples. */
  function After(samples: seq<Sample>, id: string): Track {
    if samples == [] then FRESH else Next(After(samples[..|samples| - 1], id), samples[|samples| - 1], id)
  }

  // ----- The engine -----

  function Get(tracks: map<string, Track>, id: string): Track {
    if id in tracks then tracks[id] else FRESH
  }

  /** Violation v asks for an abort, on a track with the sample counted. */
  predicate Demands(s: Sample, v: Violation, t: Track) {
    Immediate(v) || (!s.terminal && Met(v, t, s.now))
  }

  lemma PartialEnds(b: Track, s: Sample, id: string)
    ensures Partial(b, s, id, 0) == b
    ensures Partial(b, s, id, |s.violations|)
        == CountedAll(b, s, id).(escalated := Partial(b, s, id, |s.violations|).escalated)
  {
  }

  lemma DemandsIgnoresEscalation(s: Sample, v: Violation, t: Track, e: bool)
    ensures Demands(s, v, t) <==> Demands(s, v, t.(escalated := e))
  {
  }

  lemma HitStep(s: Sample, id: string, n: nat)
    requires n < |s.violations|
    ensures !HitBefore(s, id, 0)
    ensures HitBefore(s, id, n + 1) <==>
        HitBefore(s, id, n) || (s.violations[n].id == id && !Immediate(s.violations[n]))
  {
  }

  lemma PartialTerminal(b: Track, s: Sample, id: string, n: nat)
    requires n < |s.violations| && s.terminal
    ensures Partial(b, s, id, n + 1) == Partial(b, s, id, n)
  {
  }

  /** Seeing one more violation of another rule, or an immediate one, changes nothing for this rule. */
  lemma PartialOther(b: Track, s: Sample, id: string, n: nat)
    requires n < |s.violations| && (s.violations[n].id != id || Immediate(s.violations[n]))
    ensures Partial(b, s, id, n + 1) == Partial(b, s, id, n)
  {
  }

  /** Seeing a debounced violation of this rule counts the sample once, and may escalate. */
  lemma PartialSame(b: Track, s: Sample, n: nat)
    requires n < |s.violations| && !Immediate(s.violations[n]) && !s.terminal
    ensures var id := s.violations[n].id;
      var all := CountedAll(b, s, id);
      var t := Partial(b, s, id, n);
      && Partial(b, s, id, n + 1) == all.(escalated := t.escalated || Met(s.violations[n], all, s.now))
      && (HitBefore(s, id, n) ==> t == all.(escalated := t.escalated))
      && (!HitBefore(s, id, n) ==> t == b)
      && (b.escalated ==> t.escalated)
      && (s.degraded ==> all == b)
      && (!s.degraded ==>
        all == b.(count := b.count + 1, firstSeen := if b.firstSeen.None? then Some(s.now) else b.firstSeen))
  {
  }

  class Engine {
    const strict: bool
    /** Per subject, per rule.  A rule without an entry is fresh. */
    var tracks: map<string, map<string, Track>>

    constructor (strict: bool)
      ensures tracks == map[] && this.strict == strict
    {
      this.strict := strict;
      tracks := map[];
    }

    function TrackOf(subject: string, id: string): Track
      reads this
    {
      if subject in tracks then Get(tracks[subject], id) else FRESH
    }

    /** Clears what the sample ends: all of a concluded job's tracks, and those of rules known to be clean. */
    method Clear(tracks: map<string, Track>, s: Sample) returns (base: map<string, Track>)
      ensures forall id :: Get(base, id) == Base(Get(tracks, id), s, id)
    {
      base := tracks;
      if s.terminal {
        base := map[];
      }
      if !s.degraded {
        var active: set<string> := {};
        for n := 0 to |s.violations|
          invariant forall id :: id in active <==> exists k :: 0 <= k < n && s.violations[k].id == id
        {
          active := active + {s.violations[n].id};
        }
        base := map id | id in base && id in active :: base[id];
      }
    }

    /**
     Evaluates one sample of one subject.  Every track moves as `Next` says, no other subject's
     does, an abort is demanded exactly when some violation demands it in strict mode, and a rule
     escalates only if it had not escalated in this streak.
    */
    method Evaluate(subject: string, s: Sample) returns (abort: bool, escalating: seq<Violation>)
      modifies this
      ensures forall id :: TrackOf(subject, id) == Next(old(TrackOf(subject, id)), s, id)
      ensures forall other, id :: other != subject ==> TrackOf(other, id) == old(TrackOf(other, id))
      ensures abort <==> strict && (exists k ::
          0 <= k < |s.violations| && Demands(s, s.violations[k], TrackOf(subject, s.violations[k].id)))
      ensures forall id :: id in Ids(escalating) <==>
        !Base(old(TrackOf(subject, id)), s, id).escalated && TrackOf(subject, id).escalated
    {
      var before: map<string, Track> := if subject in tracks then tracks[subject] else map[];
      var base := Clear(before, s);
      var after;
      abort, escalating, after := Count(base, s);
      tracks := tracks[subject := after];
      forall id ensures TrackOf(subject, id) == Next(old(TrackOf(subject, id)), s, id) {
        assert old(TrackOf(subject, id)) == Get(before, id);
      }
    }

    /** A subject's samples, one after the other, from a fresh subject: an abort is demanded exactly when one is due. */
    method EvaluateAll(subject: string, samples: seq<Sample>) returns (aborts: seq<bool>)
      requires subject !in tracks
      modifies this
      ensures forall id :: TrackOf(subject, id) == After(samples, id)
      ensures |aborts| == |samples|
      ensures forall i :: 0 <= i < |samples| ==>
        (aborts[i] <==> strict && exists v :: v in samples[i].violations && Due(samples[..i + 1], v))
    {
      aborts := [];
      for i := 0 to |samples|
        invariant forall id :: TrackOf(subject, id) == After(samples[..i], id)
        invariant |aborts| == i
        invariant forall n :: 0 <= n < i ==>
          (aborts[n] <==> strict && exists v :: v in samples[n].violations && Due(samples[..n + 1], v))
      {
        var abort, escalating := Evaluate(subject, samples[i]);
        assert samples[..i + 1][..i] == samples[..i];
        AbortIsDue(samples[..i + 1]);
        aborts := aborts + [abort];
      }
      assert samples[..|samples|] == samples;
    }

    /** The loop over a sample's violations. */
    method Count(base: map<string, Track>, s: Sample)
        returns (abort: bool, escalating: seq<Violation>, after: map<string, Track>)
      ensures forall id :: Get(after, id) == Partial(Get(base, id), s, id, |s.violations|)
      ensures abort <==> strict && (exists k ::
          0 <= k < |s.violations| && Demands(s, s.violations[k], Get(after, s.violations[k].id)))
      ensures forall id :: id in Ids(escalating) <==> !Get(base, id).escalated && Get(after, id).escalated
    {
      hide Partial, CountedAll, HitBefore, Met;
      abort, escalating, after := false, [], base;
      var counted: set<string> := {};
      forall id ensures Partial(Get(base, id), s, id, 0) == Get(base, id) {
        PartialEnds(Get(base, id), s, id);
      }
      var n := 0;
      if s.violations != [] {
        forall id ensures !HitBefore(s, id, 0) {
          HitStep(s, id, 0);
        }
      }
      while n < |s.violations|
        invariant n <= |s.violations|
        invariant forall id :: Get(after, id) == Partial(Get(base, id), s, id, n)
        invariant n < |s.violations| && !s.terminal && !s.degraded ==>
            forall id :: id in counted <==> HitBefore(s, id, n)
        invariant abort <==> strict && exists k :: 0 <= k < n && DemandsAfter(base, s, k)
        invariant forall id :: id in Ids(escalating) <==> !Get(base, id).escalated && Get(after, id).escalated
      {
        var demands, v := false, s.violations[n];
        forall id ensures HitBefore(s, id, n + 1) <==> HitBefore(s, id, n) || (v.id == id && !Immediate(v)) {
          HitStep(s, id, n);
        }
        forall id | id != v.id || Immediate(v) || s.terminal
          ensures Partial(Get(base, id), s, id, n + 1) == Partial(Get(base, id), s, id, n)
        {
          if s.terminal { PartialTerminal(Get(base, id), s, id, n); } else { PartialOther(Get(base, id), s, id, n); }
        }
        if Immediate(v) {
          demands := true;
        } else if !s.terminal {
          PartialSame(Get(base, v.id), s, n);
          if !s.degraded && v.id !in counted {
            counted := counted + {v.id};
            after := Increment(after, v.id, s.now);
          }
          DemandsIgnoresEscalation(s, v, CountedAll(Get(base, v.id), s, v.id), Get(after, v.id).escalated);
          demands := Met(v, Get(after, v.id), s.now);
          if demands && !Get(after, v.id).escalated {
            IdsAppend(escalating, v);
            escalating := escalating + [v];
            after := after[v.id := Get(after, v.id).(escalated := true)];
          }
        }
        assert demands <==> DemandsAfter(base, s, n);
        abort := abort || (strict && demands);
        n := n + 1;
      }
      forall k | 0 <= k < |s.violations|
        ensures DemandsAfter(base, s, k) <==> Demands(s, s.violations[k], Get(after, s.violations[k].id))
      {
        var id := s.violations[k].id;
        PartialEnds(Get(base, id), s, id);
        DemandsIgnoresEscalation(s, s.violations[k], CountedAll(Get(base, id), s, id), Get(after, id).escalated);
      }
    }
  }

  function Ids(violations: seq<Violation>): set<string> {
    set k | 0 <= k < |violations| :: violations[k].id
  }

  lemma IdsAppend(violations: seq<Violation>, v: Violation)
    ensures Ids(violations + [v]) == Ids(violations) + {v.id}
  {
    var t := violations + [v];
    assert t[|violations|] == v;
    forall k | 0 <= k < |violations| ensures violations[k].id in Ids(t) {
      assert t[k] == violations[k];
    }
  }

  function Increment(tracks: map<string, Track>, id: string, now: Time): map<string, Track> {
    var t := Get(tracks, id);
    tracks[id := t.(count := t.count + 1, firstSeen := if t.firstSeen.None? then Some(now) else t.firstSeen)]
  }

  /** Violation k demands an abort, with the sample counted. */
  predicate DemandsAfter(base: map<string, Track>, s: Sample, k: nat)
    requires k < |s.violations|
  {
    var v := s.violations[k];
    Demands(s, v, CountedAll(Get(base, v.id), s, v.id))
  }

  // ----- What a track says about the samples -----

  /** Where the rule's current streak begins: right after the last sample that reset it. */
  function StreakStart(samples: seq<Sample>, id: string): (k: nat)
    ensures k <= |samples|
    ensures k > 0 ==> Resets(samples[k - 1], id)
    ensures forall i :: k <= i < |samples| ==> !Resets(samples[i], id)
  {
    if samples == [] then 0
    else if Resets(samples[|samples| - 1], id) then |samples|
    else
      var k := StreakStart(samples[..|samples| - 1], id);
      assert forall i :: k <= i < |samples| - 1 ==> samples[..|samples| - 1][i] == samples[i];
      k
  }

  predicate Counts(s: Sample, id: string) {
    !s.degraded && Hit(s, id)
  }

  /** The samples of the current streak that counted. */
  function Streak(samples: seq<Sample>, id: string): set<nat> {
    set i: nat | i < |samples| && StreakStart(samples, id) <= i && Counts(samples[i], id)
  }

  lemma NextCounts(t: Track, s: Sample, id: string)
    ensures Next(t, s, id) == Counted(Base(t, s, id), s, id, |s.violations|).(escalated := Next(t, s, id).escalated)
    ensures Resets(s, id) ==> !Counts(s, id)
  {
  }

  lemma StreakStep(samples: seq<Sample>, id: string)
    requires samples != []
    ensures
      var init, last := samples[..|samples| - 1], samples[|samples| - 1];
      Streak(samples, id) ==
        (if Resets(last, id) then {} else Streak(init, id) + if Counts(last, id) then {|samples| - 1} else {})
  {
  }

  /** `firstSeen` is the time of the earliest sample that counted. */
  ghost predicate FirstOf(samples: seq<Sample>, id: string, t: Option<Time>) {
    if Streak(samples, id) == {} then t.None?
    else exists i ::
      i in Streak(samples, id) && (forall k :: k in Streak(samples, id) ==> i <= k) && t == Some(samples[i].now)
  }

  /**
   The count is the number of non-degraded violating samples since the last reset, and the
   first-seen time is that of the first of them.
  */
  lemma {:induction false} TrackIsStreak(samples: seq<Sample>, id: string)
    ensures After(samples, id).count == |Streak(samples, id)|
    ensures FirstOf(samples, id, After(samples, id).firstSeen)
  {
    if samples == [] {
      assert Streak(samples, id) == {};
    } else {
      var init, last := samples[..|samples| - 1], samples[|samples| - 1];
      TrackIsStreak(init, id);
      NextCounts(After(init, id), last, id);
      StreakStep(samples, id);
      FirstStep(samples, id, After(init, id));
    }
  }

  lemma FirstStep(samples: seq<Sample>, id: string, t: Track)
    requires samples != []
    requires FirstOf(samples[..|samples| - 1], id, t.firstSeen)
    ensures FirstOf(samples, id, Next(t, samples[|samples| - 1], id).firstSeen)
  {
    var n := |samples| - 1;
    var init, last := samples[..n], samples[n];
    NextCounts(t, last, id);
    StreakStep(samples, id);
    if !Resets(last, id) {
      if Streak(init, id) != {} {
        var i :| i in Streak(init, id) && (forall k :: k in Streak(init, id) ==> i <= k)
          && t.firstSeen == Some(init[i].now);
        assert i in Streak(samples, id) && samples[i] == init[i];
      } else if Counts(last, id) {
        assert n in Streak(samples, id);
      }
    }
  }

  /**
   After these samples violation v of the last one is due: at once if it needs no persistence, and else
   once enough samples of the streak counted, over enough time since the first of them.
  */
  ghost predicate Due(samples: seq<Sample>, v: Violation)
    requires samples != []
  {
    var last, streak := samples[|samples| - 1], Streak(samples, v.id);
    || (v.samples <= 1 && v.duration <= 0)
    || (&& !last.terminal && |streak| >= 1 && |streak| >= v.samples
        && (v.duration <= 0 || exists i ::
              i in streak && (forall k :: k in streak ==> i <= k) && last.now - samples[i].now >= v.duration))
  }

  lemma DemandIsDue(samples: seq<Sample>, v: Violation)
    requires samples != []
    ensures Demands(samples[|samples| - 1], v, After(samples, v.id)) <==> Due(samples, v)
  {
    TrackIsStreak(samples, v.id);
    var streak, t := Streak(samples, v.id), After(samples, v.id);
    assert forall i :: i in streak ==> i < |samples|;
    hide After, Streak;
    if streak != {} {
      var i :| i in streak && (forall k :: k in streak ==> i <= k) && t.firstSeen == Some(samples[i].now);
      forall j | j in streak && forall k :: k in streak ==> j <= k ensures j == i {
      }
    }
  }

  /** The last sample demands an abort exactly if one of its violations is due. */
  lemma AbortIsDue(samples: seq<Sample>)
    requires samples != []
    ensures var last := samples[|samples| - 1];
      (exists k ::
        0 <= k < |last.violations| && Demands(last, last.violations[k], After(samples, last.violations[k].id)))
      <==> exists v :: v in last.violations && Due(samples, v)
  {
    hide Due, Demands, After;
    var last := samples[|samples| - 1];
    forall v | v in last.violations ensures Demands(last, v, After(samples, v.id)) <==> Due(samples, v) {
      DemandIsDue(samples, v);
    }
    if v :| v in last.violations && Due(samples, v) {
      var k :| 0 <= k < |last.violations| && last.violations[k] == v;
    }
  }

  /** Sample i made the rule escalate. */
  predicate Escalates(samples: seq<Sample>, i: nat, id: string)
    requires i < |samples|
  {
    After(samples[..i + 1], id).escalated && !Base(After(samples[..i], id), samples[i], id).escalated
  }

  lemma {:induction false} EscalationLasts(samples: seq<Sample>, i: nat, k: nat, id: string)
    requires i <= k < |samples| && After(samples[..i + 1], id).escalated
    requires forall j :: i < j <= k ==> !Resets(samples[j], id)
    ensures After(samples[..k + 1], id).escalated
    decreases k
  {
    if i < k {
      EscalationLasts(samples, i, k - 1, id);
      assert samples[..k + 1][..k] == samples[..k];
    }
  }

  /** A rule escalates at most once per streak. */
  lemma EscalatesOnce(samples: seq<Sample>, i: nat, k: nat, id: string)
    requires i < k < |samples| && Escalates(samples, i, id) && Escalates(samples, k, id)
    ensures exists j :: i < j <= k && Resets(samples[j], id)
  {
    if forall j :: i < j <= k ==> !Resets(samples[j], id) {
      EscalationLasts(samples, i, k - 1, id);
    }
  }
}
