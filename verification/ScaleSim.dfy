/**
 The offline scale simulation: migrations are admitted in waves, under a cluster cap and caps
 per node, high priority first.
*/
module ScaleSim {
  datatype Config = Config(n: int, nodes: int, perCluster: int, perNodeOut: int, perNodeIn: int,
    spotPercent: int, workers: int)

  /** `wave` is the wave that completed the migration, 0 until then. */
  datatype Migration = Migration(src: nat, tgt: nat, priority: int, wave: nat)

  /** A cap that is not positive does not limit anything. */
  predicate Full(cap: int, count: nat) {
    cap > 0 && count >= cap
  }

  datatype Caps = Caps(cluster: int, out: int, in_: int)

  /** The cluster cap, with the worker pool as a second limit. */
  function EffectiveCap(cfg: Config): int {
    var workers := if cfg.workers <= 0 then 50 else cfg.workers;
    if cfg.perCluster == 0 || workers < cfg.perCluster then workers else cfg.perCluster
  }

  // ----- One wave -----

  /** How many of the first k in line were taken. */
  function Taken(taken: seq<bool>, k: nat): nat
    requires k <= |taken|
  {
    if k == 0 then 0 else Taken(taken, k - 1) + if taken[k - 1] then 1 else 0
  }

  /** How many of the first k in line were taken from a node. */
  function Out(line: seq<Migration>, taken: seq<bool>, k: nat, node: nat): nat
    requires k <= |taken| && k <= |line|
  {
    if k == 0 then 0 else Out(line, taken, k - 1, node) + if taken[k - 1] && line[k - 1].src == node then 1 else 0
  }

  /** How many of the first k in line were taken to a node. */
  function In(line: seq<Migration>, taken: seq<bool>, k: nat, node: nat): nat
    requires k <= |taken| && k <= |line|
  {
    if k == 0 then 0 else In(line, taken, k - 1, node) + if taken[k - 1] && line[k - 1].tgt == node then 1 else 0
  }

  /** A node cap blocks the migration at place k, given who was taken before it. */
  predicate NodeBlocks(caps: Caps, line: seq<Migration>, taken: seq<bool>, k: nat)
    requires k < |line| && k <= |taken|
  {
    Full(caps.out, Out(line, taken, k, line[k].src)) || Full(caps.in_, In(line, taken, k, line[k].tgt))
  }

  /** The migration at place k was taken exactly if no cap stood in its way. */
  predicate Decided(caps: Caps, line: seq<Migration>, taken: seq<bool>, k: nat)
    requires k < |taken| && |taken| <= |line|
  {
    taken[k] <==> !Full(caps.cluster, Taken(taken, k)) && !NodeBlocks(caps, line, taken, k)
  }

  /** Every place in line got what the caps left for it. */
  predicate Fair(caps: Caps, line: seq<Migration>, taken: seq<bool>) {
    |taken| <= |line| && forall k :: 0 <= k < |taken| ==> Decided(caps, line, taken, k)
  }

  lemma {:induction false} TakenExtends(taken: seq<bool>, more: seq<bool>, k: nat)
    requires k <= |taken| && taken <= more
    ensures Taken(more, k) == Taken(taken, k)
  {
    if k > 0 {
      TakenExtends(taken, more, k - 1);
    }
  }

  lemma {:induction false} NodesExtend(line: seq<Migration>, taken: seq<bool>, more: seq<bool>, k: nat, node: nat)
    requires k <= |taken| && k <= |line| && taken <= more
    ensures Out(line, more, k, node) == Out(line, taken, k, node) && In(line, more, k, node) == In(line, taken, k, node)
  {
    if k > 0 {
      NodesExtend(line, taken, more, k - 1, node);
    }
  }

  lemma DecidedExtends(caps: Caps, line: seq<Migration>, taken: seq<bool>, more: seq<bool>, k: nat)
    requires k < |taken| && taken <= more && |more| <= |line|
    ensures Decided(caps, line, more, k) <==> Decided(caps, line, taken, k)
  {
    hide Taken, Out, In;
    TakenExtends(taken, more, k);
    NodesExtend(line, taken, more, k, line[k].src);
    NodesExtend(line, taken, more, k, line[k].tgt);
  }

  lemma FairExtends(caps: Caps, line: seq<Migration>, taken: seq<bool>, b: bool)
    requires Fair(caps, line, taken) && |taken| < |line|
    requires b <==> !Full(caps.cluster, Taken(taken, |taken|)) && !NodeBlocks(caps, line, taken, |taken|)
    ensures Fair(caps, line, taken + [b])
  {
    hide Taken, Out, In;
    var more := taken + [b];
    var n := |taken|;
    forall k | 0 <= k < n ensures Decided(caps, line, more, k) {
      DecidedExtends(caps, line, taken, more, k);
    }
    TakenExtends(taken, more, n);
    NodesExtend(line, taken, more, n, line[n].src);
    NodesExtend(line, taken, more, n, line[n].tgt);
    assert Decided(caps, line, more, n);
  }

  lemma {:induction false} TakenGrows(taken: seq<bool>, a: nat, b: nat)
    requires a <= b <= |taken|
    ensures Taken(taken, a) <= Taken(taken, b)
    decreases b
  {
    if a < b {
      TakenGrows(taken, a, b - 1);
    }
  }

  lemma {:induction false} NodesGrow(line: seq<Migration>, taken: seq<bool>, a: nat, b: nat, node: nat)
    requires a <= b <= |taken| && b <= |line|
    ensures Out(line, taken, a, node) <= Out(line, taken, b, node)
        && In(line, taken, a, node) <= In(line, taken, b, node)
    decreases b
  {
    if a < b {
      NodesGrow(line, taken, a, b - 1, node);
    }
  }

  /** The first in line is always taken: no wave is empty. */
  lemma FirstIsTaken(caps: Caps, line: seq<Migration>, taken: seq<bool>)
    requires Fair(caps, line, taken) && taken != []
    ensures taken[0] && Taken(taken, |taken|) >= 1
  {
    assert Decided(caps, line, taken, 0);
    TakenGrows(taken, 1, |taken|);
    assert Taken(taken, 1) == 1;
  }

  /** No cap is exceeded. */
  lemma {:induction false} CapsHold(caps: Caps, line: seq<Migration>, taken: seq<bool>, k: nat, node: nat)
    requires Fair(caps, line, taken) && k <= |taken|
    ensures caps.cluster > 0 ==> Taken(taken, k) <= caps.cluster
    ensures caps.out > 0 ==> Out(line, taken, k, node) <= caps.out
    ensures caps.in_ > 0 ==> In(line, taken, k, node) <= caps.in_
    decreases k
  {
    if k > 0 {
      CapsHold(caps, line, taken, k - 1, node);
      assert Decided(caps, line, taken, k - 1);
    }
  }

  /**
   Someone passed over while a later one was taken was blocked by a node cap, and that cap stays
   full for the whole rest of the wave.
  */
  lemma PassedOverIsBlocked(caps: Caps, line: seq<Migration>, taken: seq<bool>, a: nat, b: nat, r: nat)
    requires Fair(caps, line, taken) && a < b < |taken| && !taken[a] && taken[b] && a <= r <= |taken|
    ensures Full(caps.out, Out(line, taken, r, line[a].src)) || Full(caps.in_, In(line, taken, r, line[a].tgt))
  {
    hide Taken, Out, In;
    assert Decided(caps, line, taken, a) && Decided(caps, line, taken, b);
    TakenGrows(taken, a, b);
    NodesGrow(line, taken, a, r, line[a].src);
    NodesGrow(line, taken, a, r, line[a].tgt);
  }

  function Count(counts: map<nat, nat>, node: nat): nat {
    if node in counts then counts[node] else 0
  }

  /** What one more decision adds to the counts. */
  lemma Step(line: seq<Migration>, taken: seq<bool>, b: bool, node: nat)
    requires |taken| < |line|
    ensures var n, more := |taken|, taken + [b];
      && Taken(more, n + 1) == Taken(taken, n) + (if b then 1 else 0)
      && Out(line, more, n + 1, node) == Out(line, taken, n, node) + (if b && line[n].src == node then 1 else 0)
      && In(line, more, n + 1, node) == In(line, taken, n, node) + (if b && line[n].tgt == node then 1 else 0)
  {
    var n, more := |taken|, taken + [b];
    TakenExtends(taken, more, n);
    NodesExtend(line, taken, more, n, node);
  }

  lemma NothingTaken(line: seq<Migration>)
    ensures Taken([], 0) == 0 && forall node :: Out(line, [], 0, node) == 0 && In(line, [], 0, node) == 0
  {
  }

  /** The admission loop of one wave. */
  method AdmitWave(caps: Caps, line: seq<Migration>) returns (taken: seq<bool>, cluster: nat, peakOut: nat, peakIn: nat)
    ensures Fair(caps, line, taken) && |taken| == |line|
    ensures cluster == Taken(taken, |taken|)
    ensures caps.out > 0 ==> peakOut <= caps.out
    ensures caps.in_ > 0 ==> peakIn <= caps.in_
  {
    taken, cluster, peakOut, peakIn := [], 0, 0, 0;
    NothingTaken(line);
    hide Taken, Out, In, Decided;
    var outs: map<nat, nat> := map[];
    var ins: map<nat, nat> := map[];
    for k := 0 to |line|
      invariant |taken| == k && Fair(caps, line, taken)
      invariant cluster == Taken(taken, k)
      invariant forall node :: Count(outs, node) == Out(line, taken, k, node)
      invariant forall node :: Count(ins, node) == In(line, taken, k, node)
      invariant (caps.out > 0 ==> peakOut <= caps.out) && (caps.in_ > 0 ==> peakIn <= caps.in_)
    {
      var m := line[k];
      if Full(caps.cluster, cluster) {
        taken := Refuse(caps, line, taken);
        return;
      }
      var admit := !Full(caps.out, Count(outs, m.src)) && !Full(caps.in_, Count(ins, m.tgt));
      FairExtends(caps, line, taken, admit);
      ghost var before, outsBefore, insBefore := taken, outs, ins;
      Step(line, before, admit, 0);
      taken := taken + [admit];
      if admit {
        cluster := cluster + 1;
        outs := outs[m.src := Count(outs, m.src) + 1];
        ins := ins[m.tgt := Count(ins, m.tgt) + 1];
        if Count(outs, m.src) > peakOut {
          peakOut := Count(outs, m.src);
        }
        if Count(ins, m.tgt) > peakIn {
          peakIn := Count(ins, m.tgt);
        }
      }
      forall node: nat
        ensures Count(outs, node) == Out(line, taken, k + 1, node) && Count(ins, node) == In(line, taken, k + 1, node)
      {
        Step(line, before, admit, node);
        assert Count(outsBefore, node) == Out(line, before, k, node)
          && Count(insBefore, node) == In(line, before, k, node);
      }
    }
  }

  /** Once the cluster is full, nobody else in line is taken. */
  method Refuse(caps: Caps, line: seq<Migration>, start: seq<bool>) returns (taken: seq<bool>)
    requires Fair(caps, line, start) && Full(caps.cluster, Taken(start, |start|))
    ensures Fair(caps, line, taken) && |taken| == |line|
    ensures Taken(taken, |taken|) == Taken(start, |start|)
  {
    taken := start;
    while |taken| < |line|
      invariant |taken| <= |line| && Fair(caps, line, taken) && Taken(taken, |taken|) == Taken(start, |start|)
      decreases |line| - |taken|
    {
      FairExtends(caps, line, taken, false);
      TakenExtends(taken, taken + [false], |taken|);
      taken := taken + [false];
    }
  }

  // ----- The whole simulation -----

  predicate ByPriority(line: seq<Migration>) {
    forall a, b :: 0 <= a < b < |line| ==> line[a].priority >= line[b].priority
  }

  /** One wave: who stood in line, by index and as it was then, and who was taken. */
  datatype Wave = Wave(idx: seq<nat>, line: seq<Migration>, taken: seq<bool>)

  predicate WaveOk(caps: Caps, w: Wave) {
    w.line != [] && |w.taken| == |w.line| && ByPriority(w.line) && Fair(caps, w.line, w.taken)
  }

  /**
   A migration is left behind one of lower priority only if a node cap blocks it, from its turn
   to the end of the wave.
  */
  lemma PriorityRespected(caps: Caps, w: Wave, a: nat, b: nat, r: nat)
    requires WaveOk(caps, w) && a < |w.line| && b < |w.line| && w.line[a].priority > w.line[b].priority
    requires !w.taken[a] && w.taken[b] && a <= r <= |w.line|
    ensures Full(caps.out, Out(w.line, w.taken, r, w.line[a].src))
        || Full(caps.in_, In(w.line, w.taken, r, w.line[a].tgt))
  {
    PassedOverIsBlocked(caps, w.line, w.taken, a, b, r);
  }

  predicate InRange(idx: seq<nat>, n: nat) {
    forall a :: 0 <= a < |idx| ==> idx[a] < n
  }

  predicate Distinct(idx: seq<nat>) {
    forall a, b :: 0 <= a < b < |idx| ==> idx[a] != idx[b]
  }

  function Pending(migs: seq<Migration>): set<nat> {
    set i: nat | i < |migs| && migs[i].wave == 0
  }

  /** The indices in line, as migrations. */
  function LineOf(migs: seq<Migration>, idx: seq<nat>): seq<Migration>
    requires InRange(idx, |migs|)
  {
    seq(|idx|, k requires 0 <= k < |idx| => migs[idx[k]])
  }

  lemma InsertKeepsPriority(line: seq<Migration>, m: Migration, k: nat)
    requires ByPriority(line) && k <= |line|
    requires k > 0 ==> line[k - 1].priority >= m.priority
    requires forall a :: k <= a < |line| ==> line[a].priority < m.priority
    ensures ByPriority(line[..k] + [m] + line[k..])
  {
  }

  lemma InsertKeepsDistinct(idx: seq<nat>, i: nat, k: nat, n: nat)
    requires Distinct(idx) && i !in idx && k <= |idx| && InRange(idx, n) && i < n
    ensures var r := idx[..k] + [i] + idx[k..];
      Distinct(r) && InRange(r, n) && forall j :: j in r <==> j in idx || j == i
  {
  }

  /** Inserts an index behind all those of at least its priority, as a stable sort does. */
  method Insert(migs: seq<Migration>, idx: seq<nat>, i: nat) returns (r: seq<nat>)
    requires InRange(idx, |migs|) && i < |migs| && i !in idx
    requires Distinct(idx) && ByPriority(LineOf(migs, idx))
    ensures (forall k :: k in r <==> k in idx || k == i) && InRange(r, |migs|) && Distinct(r)
    ensures ByPriority(LineOf(migs, r))
  {
    var k := |idx|;
    var line := LineOf(migs, idx);
    while k > 0 && line[k - 1].priority < migs[i].priority
      invariant 0 <= k <= |idx| && forall a :: k <= a < |idx| ==> line[a].priority < migs[i].priority
    {
      k := k - 1;
    }
    r := idx[..k] + [i] + idx[k..];
    hide ByPriority, Distinct;
    InsertKeepsDistinct(idx, i, k, |migs|);
    InsertKeepsPriority(line, migs[i], k);
    assert LineOf(migs, r) == line[..k] + [migs[i]] + line[k..];
  }

  /** Everybody not yet started, high priority first. */
  method Queue(migs: seq<Migration>) returns (idx: seq<nat>)
    ensures InRange(idx, |migs|) && forall i :: i in idx <==> i in Pending(migs)
    ensures Distinct(idx) && ByPriority(LineOf(migs, idx))
  {
    idx := [];
    for i := 0 to |migs|
      invariant InRange(idx, i)
      invariant forall k :: k in idx <==> k < i && k in Pending(migs)
      invariant Distinct(idx) && ByPriority(LineOf(migs, idx))
    {
      if migs[i].wave == 0 {
        idx := Insert(migs, idx, i);
        forall a | 0 <= a < |idx| ensures idx[a] < i + 1 {
          assert idx[a] in idx;
        }
      }
    }
  }

  /**
   Wave number n is the one that the migrations tell of: everybody not completed before it stood in
   line, and exactly those it completed were taken.
  */
  predicate Tells(migs: seq<Migration>, n: nat, w: Wave) {
    && InRange(w.idx, |migs|) && Distinct(w.idx) && |w.line| == |w.taken| == |w.idx|
    && (forall i :: 0 <= i < |migs| ==> (i in w.idx <==> migs[i].wave == 0 || migs[i].wave >= n))
    && (forall k :: 0 <= k < |w.idx| ==>
          w.line[k] == migs[w.idx[k]].(wave := 0) && (w.taken[k] <==> migs[w.idx[k]].wave == n))
  }

  /** Later waves complete only what this one left. */
  lemma TellsStays(before: seq<Migration>, after: seq<Migration>, n: nat, m: nat, w: Wave)
    requires Tells(before, n, w) && 0 < n < m && |after| == |before|
    requires forall i :: 0 <= i < |before| ==>
      after[i] == before[i] || (before[i].wave == 0 && after[i] == before[i].(wave := m))
    ensures Tells(after, n, w)
  {
  }

  /** Marks the migrations taken in a wave as completed by it, and says whether a spot migration is among them. */
  method Complete(migs: array<Migration>, idx: seq<nat>, taken: seq<bool>, wave: nat) returns (spot: bool)
    requires |taken| == |idx| && wave > 0 && Distinct(idx) && InRange(idx, migs.Length)
    requires forall i :: i in idx ==> i in Pending(migs[..])
    modifies migs
    ensures |Pending(migs[..])| + Taken(taken, |taken|) == |Pending(old(migs[..]))|
    ensures forall i :: 0 <= i < migs.Length && i !in idx ==> migs[i] == old(migs[i])
    ensures forall k :: 0 <= k < |idx| ==>
      migs[idx[k]] == if taken[k] then old(migs[idx[k]]).(wave := wave) else old(migs[idx[k]])
    ensures spot <==> exists k :: 0 <= k < |idx| && taken[k] && old(migs[idx[k]]).priority == 100
  {
    spot := false;
    for k := 0 to |idx|
      invariant |Pending(migs[..])| + Taken(taken, k) == |Pending(old(migs[..]))|
      invariant forall i :: 0 <= i < migs.Length && i !in idx ==> migs[i] == old(migs[i])
      invariant forall a :: 0 <= a < k ==>
        migs[idx[a]] == if taken[a] then old(migs[idx[a]]).(wave := wave) else old(migs[idx[a]])
      invariant forall a :: k <= a < |idx| ==> migs[idx[a]] == old(migs[idx[a]])
      invariant spot <==> exists a :: 0 <= a < k && taken[a] && old(migs[idx[a]]).priority == 100
    {
      assert idx[k] in idx && idx[k] in Pending(old(migs[..]));
      if taken[k] {
        ghost var before := migs[..];
        migs[idx[k]] := migs[idx[k]].(wave := wave);
        assert Pending(migs[..]) == Pending(before) - {idx[k]};
        spot := spot || migs[idx[k]].priority == 100;
      }
    }
  }

  datatype Outcome =
    | Invalid
    | Deadlock
    | CapViolated
    | DroppedSome
    | NotPreempted(waves: nat)
    | Simulated(waves: nat)

  function CapsOf(cfg: Config): Caps {
    Caps(EffectiveCap(cfg), cfg.perNodeOut, cfg.perNodeIn)
  }

  /** The high-priority migrations. */
  function Spots(migs: seq<Migration>): set<nat> {
    set i: nat | i < |migs| && migs[i].priority == 100
  }

  predicate SpotIn(migs: seq<Migration>, wave: nat) {
    exists i :: 0 <= i < |migs| && migs[i].priority == 100 && migs[i].wave == wave
  }

  /** The i-th migration before it starts: spot or not, and from one node to another. */
  function Planned(cfg: Config, i: nat): Migration
    requires cfg.nodes >= 2
  {
    var priority := if cfg.spotPercent > 0 && i % 100 < cfg.spotPercent then 100 else 0;
    var offset := if 7 % cfg.nodes == 0 then 1 else 7;
    Migration(i % cfg.nodes, (i + offset) % cfg.nodes, priority, 0)
  }

  method Build(cfg: Config) returns (migs: array<Migration>, spots: nat)
    requires cfg.n > 0 && cfg.nodes >= 2
    ensures fresh(migs) && migs.Length == cfg.n && spots == |Spots(migs[..])|
    ensures forall i :: 0 <= i < migs.Length ==> migs[i] == Planned(cfg, i)
  {
    hide Planned;
    migs := new Migration[cfg.n](i => Migration(0, 0, 0, 0));
    spots := 0;
    assert Spots(migs[..]) == {};
    for i := 0 to cfg.n
      invariant forall k :: 0 <= k < i ==> migs[k] == Planned(cfg, k)
      invariant forall k :: i <= k < cfg.n ==> migs[k].priority == 0
      invariant spots == |Spots(migs[..])|
    {
      ghost var before := migs[..];
      migs[i] := Planned(cfg, i);
      if migs[i].priority == 100 {
        spots := spots + 1;
        assert Spots(migs[..]) == Spots(before) + {i};
      } else {
        assert Spots(migs[..]) == Spots(before);
      }
    }
  }

  lemma {:induction false} AllPending(migs: seq<Migration>)
    requires forall i :: 0 <= i < |migs| ==> migs[i].wave == 0
    ensures |Pending(migs)| == |migs|
  {
    if migs == [] {
      assert Pending(migs) == {};
    } else {
      AllPending(migs[..|migs| - 1]);
      assert Pending(migs) == Pending(migs[..|migs| - 1]) + {|migs| - 1};
    }
  }

  lemma NonePending(migs: seq<Migration>)
    requires |Pending(migs)| == 0
    ensures forall i :: 0 <= i < |migs| ==> migs[i].wave > 0
  {
    forall i | 0 <= i < |migs| ensures migs[i].wave > 0 {
      assert i !in Pending(migs);
    }
  }

  /** The waves so far are those the migrations tell of, each fair and in order of priority. */
  ghost predicate HistoryOk(caps: Caps, migs: seq<Migration>, history: seq<Wave>) {
    forall w :: 0 <= w < |history| ==> WaveOk(caps, history[w]) && Tells(migs, w + 1, history[w])
  }

  // ----- The caps, on the migrations themselves -----

  /** The migrations of a kind that wave number n completed. */
  ghost function CompletedBy(migs: seq<Migration>, n: nat, kind: Migration -> bool): set<nat> {
    set i: nat | i < |migs| && migs[i].wave == n && kind(migs[i].(wave := 0))
  }

  /** The same, told by the first k in the wave's line. */
  ghost function TakenOf(w: Wave, k: nat, kind: Migration -> bool): set<nat>
    requires k <= |w.idx| && |w.line| == |w.taken| == |w.idx|
  {
    set a: nat | a < k && w.taken[a] && kind(w.line[a]) :: w.idx[a]
  }

  lemma TakenOfStep(w: Wave, k: nat, kind: Migration -> bool)
    requires k < |w.idx| && |w.line| == |w.taken| == |w.idx| && Distinct(w.idx)
    ensures |TakenOf(w, k + 1, kind)| == |TakenOf(w, k, kind)| + if w.taken[k] && kind(w.line[k]) then 1 else 0
  {
    var before, after := TakenOf(w, k, kind), TakenOf(w, k + 1, kind);
    assert w.idx[k] !in before;
    if w.taken[k] && kind(w.line[k]) {
      assert after == before + {w.idx[k]};
    } else {
      assert after == before;
    }
  }

  function Anything(): Migration -> bool {
    (m: Migration) => true
  }

  function From(node: nat): Migration -> bool {
    (m: Migration) => m.src == node
  }

  function To(node: nat): Migration -> bool {
    (m: Migration) => m.tgt == node
  }

  lemma {:induction false} TakenOfCounts(w: Wave, k: nat, node: nat)
    requires k <= |w.idx| && |w.line| == |w.taken| == |w.idx| && Distinct(w.idx)
    ensures |TakenOf(w, k, Anything())| == Taken(w.taken, k)
    ensures |TakenOf(w, k, From(node))| == Out(w.line, w.taken, k, node)
    ensures |TakenOf(w, k, To(node))| == In(w.line, w.taken, k, node)
  {
    if k == 0 {
      assert TakenOf(w, 0, Anything()) == TakenOf(w, 0, From(node)) == TakenOf(w, 0, To(node)) == {};
    } else {
      TakenOfCounts(w, k - 1, node);
      TakenOfStep(w, k - 1, Anything());
      TakenOfStep(w, k - 1, From(node));
      TakenOfStep(w, k - 1, To(node));
    }
  }

  lemma CompletedAreTaken(migs: seq<Migration>, n: nat, w: Wave, kind: Migration -> bool)
    requires Tells(migs, n, w) && n > 0
    ensures CompletedBy(migs, n, kind) == TakenOf(w, |w.idx|, kind)
  {
    forall i | i in CompletedBy(migs, n, kind) ensures i in TakenOf(w, |w.idx|, kind) {
      var a: nat :| a < |w.idx| && w.idx[a] == i;
    }
  }

  /**
   No wave completes more migrations than there are workers or than the cluster allows, nor more from or to
   one node than that node allows.  A negative cluster cap is no cap, and switches the workers' off as well.
  */
  lemma WavesWithinCaps(cfg: Config, migs: seq<Migration>, history: seq<Wave>, n: nat, node: nat)
    requires HistoryOk(CapsOf(cfg), migs, history) && 0 < n <= |history|
    ensures cfg.perCluster >= 0 ==>
      |CompletedBy(migs, n, Anything())| <= if cfg.workers > 0 then cfg.workers else 50
    ensures cfg.perCluster > 0 ==> |CompletedBy(migs, n, Anything())| <= cfg.perCluster
    ensures cfg.perNodeOut > 0 ==> |CompletedBy(migs, n, From(node))| <= cfg.perNodeOut
    ensures cfg.perNodeIn > 0 ==> |CompletedBy(migs, n, To(node))| <= cfg.perNodeIn
  {
    var w := history[n - 1];
    assert WaveOk(CapsOf(cfg), w) && Tells(migs, n, w);
    hide Fair, Tells, ByPriority, HistoryOk, Taken, Out, In;
    TellsShape(migs, n, w);
    TakenOfCounts(w, |w.idx|, node);
    CompletedAreTaken(migs, n, w, Anything());
    CompletedAreTaken(migs, n, w, From(node));
    CompletedAreTaken(migs, n, w, To(node));
    CapsHold(CapsOf(cfg), w.line, w.taken, |w.taken|, node);
  }

  lemma TellsShape(migs: seq<Migration>, n: nat, w: Wave)
    requires Tells(migs, n, w)
    ensures Distinct(w.idx) && |w.line| == |w.taken| == |w.idx|
  {
  }

  /** One wave: queue, admit, complete. */
  method RunWave(caps: Caps, migs: array<Migration>, waves: nat, ghost history: seq<Wave>)
    returns (wave: nat, out: nat, in_: nat, spot: bool, ghost now: Wave)
    requires Pending(migs[..]) != {} && |history| == waves && HistoryOk(caps, migs[..], history)
    requires forall i :: 0 <= i < migs.Length ==> migs[i].wave <= waves
    modifies migs
    ensures wave >= 1 && |Pending(migs[..])| + wave == |Pending(old(migs[..]))|
    ensures (caps.cluster > 0 ==> wave <= caps.cluster) && (caps.out > 0 ==> out <= caps.out)
    ensures caps.in_ > 0 ==> in_ <= caps.in_
    ensures HistoryOk(caps, migs[..], history + [now])
    ensures forall i :: 0 <= i < migs.Length ==>
      migs[i] == old(migs[i]) || (old(migs[i]).wave == 0 && migs[i] == old(migs[i]).(wave := waves + 1))
    ensures spot <==> SpotIn(migs[..], waves + 1)
  {
    hide Fair, Tells, ByPriority, HistoryOk, Taken;
    var idx := Queue(migs[..]);
    var line := LineOf(migs[..], idx);
    var taken;
    taken, wave, out, in_ := AdmitWave(caps, line);
    ghost var before := migs[..];
    assert idx != [] by {
      var i :| i in Pending(migs[..]);
      assert i in idx;
    }
    FirstIsTaken(caps, line, taken);
    CapsHold(caps, line, taken, |taken|, 0);
    spot := Complete(migs, idx, taken, waves + 1);
    now := Wave(idx, line, taken);
    assert Completed(before, migs[..], waves + 1, now);
    WaveTold(before, migs[..], waves + 1, now);
    HistoryGrows(caps, before, migs[..], history, now);
    SpotTold(before, migs[..], waves + 1, now);
  }

  lemma HistoryGrows(caps: Caps, before: seq<Migration>, after: seq<Migration>, history: seq<Wave>, now: Wave)
    requires HistoryOk(caps, before, history) && WaveOk(caps, now) && Completed(before, after, |history| + 1, now)
    ensures HistoryOk(caps, after, history + [now])
  {
    WaveTold(before, after, |history| + 1, now);
    hide WaveOk, Tells, Completed;
    forall w | 0 <= w < |history| ensures Tells(after, w + 1, history[w]) {
      CompletedSize(before, after, |history| + 1, now);
      TellsStays(before, after, w + 1, |history| + 1, history[w]);
    }
  }

  lemma CompletedSize(before: seq<Migration>, after: seq<Migration>, n: nat, w: Wave)
    requires Completed(before, after, n, w)
    ensures |after| == |before|
  {
  }

  /** What completing a wave makes of it. */
  predicate Completed(before: seq<Migration>, after: seq<Migration>, n: nat, w: Wave) {
    && |after| == |before| && n > 0 && InRange(w.idx, |before|) && Distinct(w.idx) && |w.taken| == |w.idx|
    && (forall i :: 0 <= i < |before| ==> before[i].wave < n && (i in w.idx <==> before[i].wave == 0))
    && w.line == LineOf(before, w.idx)
    && (forall i :: 0 <= i < |before| && i !in w.idx ==> after[i] == before[i])
    && (forall k :: 0 <= k < |w.idx| ==>
          after[w.idx[k]] == if w.taken[k] then before[w.idx[k]].(wave := n) else before[w.idx[k]])
  }

  lemma WaveTold(before: seq<Migration>, after: seq<Migration>, n: nat, w: Wave)
    requires Completed(before, after, n, w)
    ensures Tells(after, n, w)
    ensures forall i :: 0 <= i < |before| ==>
      after[i] == before[i] || (before[i].wave == 0 && after[i] == before[i].(wave := n))
  {
    forall i | 0 <= i < |before|
      ensures after[i] == before[i] || (before[i].wave == 0 && after[i] == before[i].(wave := n))
      ensures i in w.idx <==> after[i].wave == 0 || after[i].wave >= n
    {
      if i in w.idx {
        var k :| 0 <= k < |w.idx| && w.idx[k] == i;
      }
    }
    forall k | 0 <= k < |w.idx|
      ensures w.line[k] == after[w.idx[k]].(wave := 0) && (w.taken[k] <==> after[w.idx[k]].wave == n)
    {
      assert w.idx[k] in w.idx;
    }
  }

  lemma SpotTold(before: seq<Migration>, after: seq<Migration>, n: nat, w: Wave)
    requires Completed(before, after, n, w)
    ensures SpotIn(after, n) <==> exists k :: 0 <= k < |w.idx| && w.taken[k] && before[w.idx[k]].priority == 100
  {
    WaveTold(before, after, n, w);
    if SpotIn(after, n) {
      var i :| 0 <= i < |after| && after[i].priority == 100 && after[i].wave == n;
      assert i in w.idx;
      var k :| 0 <= k < |w.idx| && w.idx[k] == i;
      assert w.taken[k] && before[w.idx[k]].priority == 100;
    }
    if k :| 0 <= k < |w.idx| && w.taken[k] && before[w.idx[k]].priority == 100 {
      assert after[w.idx[k]].priority == 100 && after[w.idx[k]].wave == n;
    }
  }

  lemma SpotsSame(before: seq<Migration>, after: seq<Migration>)
    requires |after| == |before| && forall i :: 0 <= i < |before| ==> after[i].priority == before[i].priority
    ensures Spots(after) == Spots(before)
  {
  }

  /**
   Every valid configuration is simulated to the end: no wave is empty, no cap is exceeded, every
   migration is completed by exactly one wave, there are at most n waves, and every wave, as the
   migrations tell of it, is fair and respects priority.  The one error that can occur says that a
   high-priority migration was completed by the last of several waves, among others of low priority.
  */
  method Simulate(cfg: Config) returns (r: Outcome, migs: array<Migration>, ghost history: seq<Wave>)
    ensures r.Invalid? <==> cfg.n <= 0 || cfg.nodes < 2
    ensures !r.Invalid? ==> (r.Simulated? || r.NotPreempted?) && 1 <= r.waves <= cfg.n && migs.Length == cfg.n
    ensures !r.Invalid? ==> forall i :: 0 <= i < migs.Length ==>
      1 <= migs[i].wave <= r.waves && migs[i].(wave := 0) == Planned(cfg, i)
    ensures !r.Invalid? ==> |history| == r.waves && HistoryOk(CapsOf(cfg), migs[..], history)
    ensures !r.Invalid? ==>
      (r.NotPreempted? <==> 0 < |Spots(migs[..])| < cfg.n && r.waves > 1 && SpotIn(migs[..], r.waves))
  {
    history := [];
    if cfg.n <= 0 || cfg.nodes < 2 {
      migs := new Migration[0](i => Migration(0, 0, 0, 0));
      return Invalid, migs, history;
    }
    var spots;
    migs, spots := Build(cfg);
    var caps := CapsOf(cfg);
    AllPending(migs[..]);
    var admitted, waves, peakCluster, peakOut, peakIn, spotLast := 0, 0, 0, 0, 0, 0;
    var remaining := cfg.n;
    while remaining > 0
      invariant migs.Length == cfg.n && fresh(migs)
      invariant remaining == |Pending(migs[..])| && admitted + remaining == cfg.n && waves <= admitted
      invariant remaining < cfg.n ==> waves > 0
      invariant forall i :: 0 <= i < migs.Length ==> migs[i].wave <= waves && migs[i].(wave := 0) == Planned(cfg, i)
      invariant |history| == waves && HistoryOk(caps, migs[..], history)
      invariant caps.cluster > 0 ==> peakCluster <= caps.cluster
      invariant (caps.out > 0 ==> peakOut <= caps.out) && (caps.in_ > 0 ==> peakIn <= caps.in_)
      invariant spots == |Spots(migs[..])| && spotLast <= waves
      invariant waves > 0 ==> (spotLast == waves <==> SpotIn(migs[..], waves))
      decreases remaining
    {
      ghost var before := migs[..];
      ghost var now;
      var wave, out, in_, spot;
      wave, out, in_, spot, now := RunWave(caps, migs, waves, history);
      waves := waves + 1;
      history := history + [now];
      if wave == 0 {
        return Deadlock, migs, history;
      }
      if out > peakOut { peakOut := out; }
      if in_ > peakIn { peakIn := in_; }
      if wave > peakCluster { peakCluster := wave; }
      if spot { spotLast := waves; }
      SpotsSame(before, migs[..]);
      admitted := admitted + wave;
      remaining := remaining - wave;
    }
    NonePending(migs[..]);
    var capsHeld := !(cfg.perCluster > 0 && peakCluster > cfg.perCluster)
      && !(cfg.perNodeOut > 0 && peakOut > cfg.perNodeOut) && !(cfg.perNodeIn > 0 && peakIn > cfg.perNodeIn);
    var preempted := !(0 < spots < cfg.n && waves > 1) || spotLast < waves;
    if !capsHeld {
      return CapViolated, migs, history;
    }
    if cfg.n - admitted != 0 {
      return DroppedSome, migs, history;
    }
    return if preempted then Simulated(waves) else NotPreempted(waves), migs, history;
  }
}
