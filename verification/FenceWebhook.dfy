/**
 The fence webhook: it answers every status write of a fenced pod with a JSON patch that holds
 Ready at False.  `Patched` is what the API server stores, by section 4.1 of RFC 6902; the path
 segment `-` is the element after the last one, by section 4 of RFC 6901.
*/
module FenceWebhook {
  import opened Api

  /** What the webhook decodes of a condition. */
  datatype Fields = Fields(kind: string, status: string, reason: string, message: string, transition: string)

  /** A condition as it is stored, with the members that the webhook does not decode. */
  datatype Condition = Condition(fields: Fields, others: string)

  /** A status: the condition list may be absent. */
  type Conditions = Option<seq<Condition>>

  function Decoded(c: Conditions): seq<Fields> {
    if c.None? then [] else seq(|c.value|, i requires 0 <= i < |c.value| => c.value[i].fields)
  }

  const FENCE_REASON := "PodMigrationFenced"
  const FENCE_MESSAGE :=
    "Readiness is held False while this pod is a migration source (label pod-migration.gke.io/fenced); "
    + "the ContainersReady condition shows the kubelet's view."

  datatype Member = StatusMember | ReasonMember | MessageMember | TransitionMember

  /** The operations the webhook uses, all of them "add". */
  datatype Operation =
    | AddList(list: seq<Fields>)
    | Append(condition: Fields)
    | AddMember(index: nat, name: Member, value: string)

  function WithMember(f: Fields, name: Member, value: string): Fields {
    match name
    case StatusMember => f.(status := value)
    case ReasonMember => f.(reason := value)
    case MessageMember => f.(message := value)
    case TransitionMember => f.(transition := value)
  }

  function Encoded(f: Fields): Condition {
    Condition(f, "")
  }

  /** Adding an object member that exists replaces its value. */
  function ApplyOne(c: Conditions, op: Operation): Conditions {
    match op
    case AddList(list) => Some(seq(|list|, i requires 0 <= i < |list| => Encoded(list[i])))
    case Append(f) => if c.Some? then Some(c.value + [Encoded(f)]) else c
    case AddMember(i, name, value) =>
      if c.Some? && i < |c.value| then
        Some(c.value[i := c.value[i].(fields := WithMember(c.value[i].fields, name, value))])
      else c
  }

  function Patched(c: Conditions, ops: seq<Operation>): Conditions
    decreases |ops|
  {
    if ops == [] then c else Patched(ApplyOne(c, ops[0]), ops[1..])
  }

  /** The first Ready condition, or the length of the list. */
  function ReadyIndex(conditions: seq<Fields>): (i: nat)
    ensures i <= |conditions|
    ensures i < |conditions| ==> conditions[i].kind == "Ready"
    ensures forall k :: 0 <= k < i ==> conditions[k].kind != "Ready"
  {
    if conditions == [] then 0
    else if conditions[0].kind == "Ready" then 0
    else 1 + ReadyIndex(conditions[1..])
  }

  function ReadyOf(conditions: seq<Fields>): Option<Fields> {
    var i := ReadyIndex(conditions);
    if i < |conditions| then Some(conditions[i]) else None
  }

  /** The transition time to hold: the stored one while Ready is stored False. */
  function HeldTransition(stored: Option<Fields>, now: string): string {
    if stored.Some? && stored.value.status == "False" && stored.value.transition != "" then stored.value.transition
    else now
  }

  function Want(stored: Option<Fields>, now: string): Fields {
    Fields("Ready", "False", FENCE_REASON, FENCE_MESSAGE, HeldTransition(stored, now))
  }

  function FencePatches(conditions: seq<Fields>, stored: Option<Fields>, now: string): seq<Operation> {
    var want := Want(stored, now);
    var i := ReadyIndex(conditions);
    if i == |conditions| && |conditions| == 0 then [AddList([want])]
    else if i == |conditions| then [Append(want)]
    else if conditions[i] == want then []
    else [AddMember(i, StatusMember, want.status), AddMember(i, ReasonMember, want.reason),
          AddMember(i, MessageMember, want.message), AddMember(i, TransitionMember, want.transition)]
  }

  /** What is stored after a write of `written` at time `now`, while the label is on. */
  function Admitted(written: Conditions, stored: Conditions, now: string): Conditions {
    Patched(written, FencePatches(Decoded(written), ReadyOf(Decoded(stored)), now))
  }

  /** The written list with its first Ready condition set, or one appended. */
  function Held(written: Conditions, want: Fields): seq<Condition> {
    var list := if written.Some? then written.value else [];
    var i := ReadyIndex(Decoded(written));
    if i < |list| then list[i := list[i].(fields := want)] else list + [Encoded(want)]
  }

  lemma FourMembers(c: Conditions, i: nat, want: Fields)
    requires c.Some? && i < |c.value| && c.value[i].fields.kind == want.kind
    ensures Patched(c, [AddMember(i, StatusMember, want.status), AddMember(i, ReasonMember, want.reason),
                        AddMember(i, MessageMember, want.message), AddMember(i, TransitionMember, want.transition)])
         == Some(c.value[i := c.value[i].(fields := want)])
  {
    var a := AddMember(i, StatusMember, want.status);
    var b := AddMember(i, ReasonMember, want.reason);
    var d := AddMember(i, MessageMember, want.message);
    var e := AddMember(i, TransitionMember, want.transition);
    var c1 := ApplyOne(c, a);
    var c2 := ApplyOne(c1, b);
    var c3 := ApplyOne(c2, d);
    var c4 := ApplyOne(c3, e);
    assert [a, b, d, e][1..] == [b, d, e] && [b, d, e][1..] == [d, e] && [d, e][1..] == [e] && [e][1..] == [];
    assert Patched(c3, [e]) == Patched(c4, []);
    assert Patched(c2, [d, e]) == Patched(c3, [e]);
    assert Patched(c1, [b, d, e]) == Patched(c2, [d, e]);
    assert c4.value == c.value[i := c.value[i].(fields := want)];
  }

  lemma OneOperation(c: Conditions, op: Operation)
    ensures Patched(c, [op]) == ApplyOne(c, op)
  {
  }

  /** The patch does what it is for: Ready is held, and everything else is what was written. */
  lemma AdmittedIsHeld(written: Conditions, stored: Conditions, now: string)
    ensures Admitted(written, stored, now) == Some(Held(written, Want(ReadyOf(Decoded(stored)), now)))
  {
    var want := Want(ReadyOf(Decoded(stored)), now);
    var conditions := Decoded(written);
    var i := ReadyIndex(conditions);
    if i == |conditions| {
      OneOperation(written, if conditions == [] then AddList([want]) else Append(want));
      assert Admitted(written, stored, now).value == Held(written, want);
    } else if conditions[i] != want {
      FourMembers(written, i, want);
    } else {
      assert written.value == Held(written, want);
    }
  }

  predicate IsHeld(c: Conditions) {
    var r := ReadyOf(Decoded(c));
    r.Some? && r.value.status == "False" && r.value.reason == FENCE_REASON && r.value.message == FENCE_MESSAGE
  }

  lemma ReadyIndexUnique(conditions: seq<Fields>, i: nat)
    requires i < |conditions| && conditions[i].kind == "Ready"
    requires forall k :: 0 <= k < i ==> conditions[k].kind != "Ready"
    ensures ReadyIndex(conditions) == i
  {
  }

  lemma HeldIsReady(written: Conditions, want: Fields)
    requires want.kind == "Ready"
    ensures ReadyOf(Decoded(Some(Held(written, want)))) == Some(want)
  {
    var after := Decoded(Some(Held(written, want)));
    var i := ReadyIndex(Decoded(written));
    assert after[i] == want;
    assert forall k :: 0 <= k < i ==> after[k] == Decoded(written)[k];
    ReadyIndexUnique(after, i);
  }

  /** After a write through the webhook, Ready is held with the transition time the rule says. */
  lemma ReadyAfterWrite(written: Conditions, stored: Conditions, now: string)
    ensures ReadyOf(Decoded(Admitted(written, stored, now))) == Some(Want(ReadyOf(Decoded(stored)), now))
  {
    AdmittedIsHeld(written, stored, now);
    HeldIsReady(written, Want(ReadyOf(Decoded(stored)), now));
  }

  /** Every condition but the held one is stored as it was written, members and order included. */
  lemma OthersAsWritten(written: Conditions, stored: Conditions, now: string, k: nat)
    requires written.Some? && k < |written.value| && k != ReadyIndex(Decoded(written))
    ensures var t := Admitted(written, stored, now); t.Some? && k < |t.value| && t.value[k] == written.value[k]
  {
    AdmittedIsHeld(written, stored, now);
  }

  /** No condition appears that was not written, except the held one. */
  lemma NothingElseAppears(written: Conditions, stored: Conditions, now: string)
    ensures var t := Admitted(written, stored, now); var n := if written.Some? then |written.value| else 0;
      t.Some? && |t.value| == (if ReadyIndex(Decoded(written)) < n then n else n + 1)
  {
    AdmittedIsHeld(written, stored, now);
  }

  /** Writing back what is stored needs no patch. */
  lemma Idempotent(written: Conditions, stored: Conditions, now: string, later: string)
    requires now != ""
    ensures var t := Admitted(written, stored, now); FencePatches(Decoded(t), ReadyOf(Decoded(t)), later) == []
  {
    ReadyAfterWrite(written, stored, now);
  }

  // ----- A sequence of writes -----

  datatype Write = Write(conditions: Conditions, now: string)

  function Stored(start: Conditions, writes: seq<Write>): Conditions
    decreases |writes|
  {
    if writes == [] then start
    else
      var last := writes[|writes| - 1];
      Admitted(last.conditions, Stored(start, writes[..|writes| - 1]), last.now)
  }

  /** Whatever is written, and however often, the stored Ready is held. */
  lemma HeldThroughout(start: Conditions, writes: seq<Write>)
    requires writes != []
    ensures IsHeld(Stored(start, writes))
  {
    var last := writes[|writes| - 1];
    ReadyAfterWrite(last.conditions, Stored(start, writes[..|writes| - 1]), last.now);
  }

  /** From the first write on, the stored transition time never changes again. */
  lemma {:induction false} TransitionSettles(start: Conditions, writes: seq<Write>, i: nat)
    requires 0 < i <= |writes| && forall k :: 0 <= k < |writes| ==> writes[k].now != ""
    ensures ReadyOf(Decoded(Stored(start, writes))) == ReadyOf(Decoded(Stored(start, writes[..i])))
    decreases |writes|
  {
    hide Admitted, ReadyOf, Decoded;
    if i == |writes| {
      assert writes[..i] == writes;
    } else {
      var init, last := writes[..|writes| - 1], writes[|writes| - 1];
      TransitionSettles(start, init, i);
      assert init[..i] == writes[..i];
      ReadyAfterWrite(last.conditions, Stored(start, init), last.now);
      TransitionNonempty(start, init);
    }
  }

  lemma {:induction false} TransitionNonempty(start: Conditions, writes: seq<Write>)
    requires writes != [] && forall k :: 0 <= k < |writes| ==> writes[k].now != ""
    ensures var r := ReadyOf(Decoded(Stored(start, writes)));
        r.Some? && r.value.transition != "" && r.value == Want(r, "")
  {
    var last := writes[|writes| - 1];
    ReadyAfterWrite(last.conditions, Stored(start, writes[..|writes| - 1]), last.now);
  }

  /**
   Which time that is: the one stored before the fence, if Ready was stored False with a time, and else the
   time of the first write.
  */
  lemma TransitionIs(start: Conditions, writes: seq<Write>)
    requires writes != [] && forall k :: 0 <= k < |writes| ==> writes[k].now != ""
    ensures ReadyOf(Decoded(Stored(start, writes))).Some?
    ensures ReadyOf(Decoded(Stored(start, writes))).value.transition ==
      var before := ReadyOf(Decoded(start));
      if before.Some? && before.value.status == "False" && before.value.transition != "" then before.value.transition
      else writes[0].now
  {
    TransitionSettles(start, writes, 1);
    var first := writes[..1];
    assert first[..0] == [];
    assert Stored(start, []) == start;
    ReadyAfterWrite(first[0].conditions, start, first[0].now);
  }
}
