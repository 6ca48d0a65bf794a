/** Several settlements of one message at the same time: the flag is set only behind the awaited
    write, so a second call can pass the guards while the first is writing, or after the first
    was cancelled there. */
module SettlementOverlap {
  import opened Options
  import opened Settlement

  /** `writing` counts the calls suspended between their write and the flag, `abandoned` those
      that were cancelled there. */
  datatype State = State(world: World, writing: nat, abandoned: nat)

  datatype Action = Begin(op: Op) | Finish | Abandon | Drop

  function Fresh(tag: nat, redelivered: bool, channel: Channel): State {
    State(World(Delivered(false, Some(tag), redelivered), channel), 0, 0)
  }

  /** The guards let the call through. */
  predicate Passes(s: State, op: Op) { Guards(s.world, op) }

  predicate Enabled(s: State, a: Action) { a.Finish? || a.Abandon? ==> s.writing > 0 }

  function Next(s: State, a: Action): State
    requires Enabled(s, a)
  {
    match a
    case Begin(op) =>
      if Passes(s, op) then s.(world := Settle(s.world, op, true).0, writing := s.writing + 1) else s
    case Finish => s.(world := s.world.(message := Marked(s.world.message)), writing := s.writing - 1)
    case Abandon => s.(writing := s.writing - 1, abandoned := s.abandoned + 1)
    case Drop => s.(world := s.world.(channel := s.world.channel.(closed := true)))
  }

  predicate Legal(s: State, acts: seq<Action>)
    decreases |acts|
  {
    acts == [] || (Enabled(s, acts[0]) && Legal(Next(s, acts[0]), acts[1..]))
  }

  function After(s: State, acts: seq<Action>): State
    requires Legal(s, acts)
    decreases |acts|
  {
    if acts == [] then s else After(Next(s, acts[0]), acts[1..])
  }

  /** Some call passes the guards while another one is still writing, or has been cancelled there. */
  predicate PassesUnflagged(s: State, acts: seq<Action>)
    requires Legal(s, acts)
    decreases |acts|
  {
    acts != [] && ((acts[0].Begin? && Passes(s, acts[0].op) && s.writing + s.abandoned > 0) || PassesUnflagged(Next(s, acts[0]), acts[1..]))
  }

  function Sent(s: State): nat { |s.world.channel.sent| }

  /** `count` frames were sent for the message. */
  predicate Counted(s: State, count: nat) {
    && s.world.message.tag.Some?
    && (!s.world.message.processed ==> count == s.writing + s.abandoned)
    && (s.world.message.processed ==> count > 0)
  }

  lemma {:induction false} SentGrows(s: State, acts: seq<Action>)
    requires Legal(s, acts)
    ensures Sent(s) <= Sent(After(s, acts))
    decreases |acts|
  {
    if acts == [] {
    } else {
      SentGrows(Next(s, acts[0]), acts[1..]);
    }
  }

  lemma {:induction false} FramesCounted(s: State, acts: seq<Action>, count: nat)
    requires Legal(s, acts) && Counted(s, count)
    ensures count + Sent(After(s, acts)) - Sent(s) <= 1 <==> count <= 1 && !PassesUnflagged(s, acts)
    decreases |acts|
  {
    if acts == [] {
    } else {
      var s' := Next(s, acts[0]);
      var count' := count + Sent(s') - Sent(s);
      SentGrows(s', acts[1..]);
      assert Counted(s', count');
      FramesCounted(s', acts[1..], count');
    }
  }

  /** Over any interleaving of settlement calls on a delivered message, at most one frame is
      sent if and only if no call passes its guards while another is between its write and the
      flag, or was cancelled there. */
  lemma AtMostOneFrameIffFlaggedInTime(tag: nat, redelivered: bool, channel: Channel, acts: seq<Action>)
    requires tag != 0 && Legal(Fresh(tag, redelivered, channel), acts)
    ensures Sent(After(Fresh(tag, redelivered, channel), acts)) <= |channel.sent| + 1
            <==> !PassesUnflagged(Fresh(tag, redelivered, channel), acts)
  {
    FramesCounted(Fresh(tag, redelivered, channel), acts, 0);
  }

  /** An ack and a reject begun together are both sent, and so are an ack that is cancelled in
      its write and a later reject. */
  lemma TwoCallsTwoFrames(tag: nat, redelivered: bool, supportsNack: bool, cancelled: bool)
    requires tag != 0
    ensures var s := Fresh(tag, redelivered, Channel(false, supportsNack, []));
      var acts := [Begin(Ack(false))] + ((if cancelled then [Abandon] else []) + [Begin(Reject(false))]);
      Legal(s, acts) && After(s, acts).world.channel.sent == [BasicAck(tag, false), BasicReject(tag, false)]
  {
    var s := Fresh(tag, redelivered, Channel(false, supportsNack, []));
    var s1 := Next(s, Begin(Ack(false)));
    assert s1.world.channel.sent == [BasicAck(tag, false)];
    var rest := (if cancelled then [Abandon] else []) + [Begin(Reject(false))];
    assert [Begin(Reject(false))][1..] == [];
    if cancelled {
      var s2 := Next(s1, Abandon);
      assert rest[1..] == [Begin(Reject(false))];
      assert Legal(s2, rest[1..]) && Legal(s1, rest) && After(s1, rest) == After(s2, rest[1..]);
    } else {
      assert rest == [Begin(Reject(false))];
      assert Legal(s1, rest);
    }
    assert ([Begin(Ack(false))] + rest)[1..] == rest;
  }

  /** Once the channel is lost nothing more is sent, whoever is suspended where. */
  lemma NothingSentAfterDrop(s: State, acts: seq<Action>)
    requires Legal(Next(s, Action.Drop), acts)
    ensures Sent(After(Next(s, Action.Drop), acts)) == Sent(s)
  {
    ClosedSendsNothing(Next(s, Action.Drop), acts);
  }

  lemma {:induction false} ClosedSendsNothing(s: State, acts: seq<Action>)
    requires s.world.channel.closed && Legal(s, acts)
    ensures Sent(After(s, acts)) == Sent(s)
    decreases |acts|
  {
    if acts == [] {
    } else {
      ClosedSendsNothing(Next(s, acts[0]), acts[1..]);
    }
  }
}
