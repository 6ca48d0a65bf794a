/** Settling one delivered message: the flags of `IncomingMessage`, the exit of its
    `ProcessContext`, and the worker loop body of `Master`, as functions on one message and
    the frames its channel has sent. */
module Settlement {
  import opened Options

  datatype Frame =
    | BasicAck(tag: nat, multiple: bool)
    | BasicReject(tag: nat, requeue: bool)
    | BasicNack(tag: nat, multiple: bool, requeue: bool)

  datatype Exn = NoAckError | AlreadyProcessed | ChannelClosed | NackUnsupported | RejectAsked(requeue: bool) | NackAsked(requeue: bool) | HandlerError
               | Cancelled

  datatype Outcome = Returned | Raised(exn: Exn)

  datatype Message = Message(noAck: bool, tag: Option<nat>, redelivered: bool, processed: bool, locked: bool)

  datatype Channel = Channel(closed: bool, supportsNack: bool, sent: seq<Frame>)

  datatype World = World(message: Message, channel: Channel)

  datatype Op = Ack(multiple: bool) | Reject(requeue: bool) | Nack(multiple: bool, requeue: bool)

  /** `__init__`: without acknowledgement, or without a delivery tag, nothing may be settled. */
  function Delivered(noAck: bool, tag: Option<nat>, redelivered: bool): Message {
    var settled := noAck || tag == None || tag == Some(0);
    Message(noAck, tag, redelivered, settled, settled)
  }

  function FrameOf(tag: nat, op: Op): Frame {
    match op
    case Ack(m) => BasicAck(tag, m)
    case Reject(r) => BasicReject(tag, r)
    case Nack(m, r) => BasicNack(tag, m, r)
  }

  /** `ack`, `reject` and `nack`.  Only `nack` looks at the channel before the flags.  A call
      that is `cut` is cancelled in the awaited write: its frame is out, the flag is not set. */
  function Settle(w: World, op: Op, cut: bool): (World, Outcome) {
    if op.Nack? && w.channel.closed then (w, Raised(ChannelClosed))
    else if op.Nack? && !w.channel.supportsNack then (w, Raised(NackUnsupported))
    else if w.message.noAck then (w, Raised(NoAckError))
    else if w.message.processed then (w, Raised(AlreadyProcessed))
    else if w.message.tag.None? then (w.(message := Marked(w.message)), Returned)
    else if w.channel.closed then (w, Raised(ChannelClosed))
    else
      var channel := w.channel.(sent := w.channel.sent + [FrameOf(w.message.tag.value, op)]);
      if cut then (w.(channel := channel), Raised(Cancelled)) else (World(Marked(w.message), channel), Returned)
  }

  function Marked(m: Message): Message { m.(processed := true, locked := true) }

  datatype Flags = Flags(requeue: bool, rejectOnRedelivered: bool, ignoreProcessed: bool)

  /** `ProcessContext.__aexit__`.  What leaves the block is the body's own exception, unless
      the exit raises another; reading the channel of a closed channel raises. */
  function Exit(w: World, flags: Flags, body: Outcome, cut: bool): (World, Outcome) {
    if flags.ignoreProcessed && w.message.processed then (w, body)
    else if body.Returned? then Settle(w, Ack(false), cut)
    else if w.channel.closed then (w, Raised(ChannelClosed))
    else
      var (w', exit) := Settle(w, Reject(Again(w.message, flags)), cut);
      (w', if exit.Raised? then exit else body)
  }

  /** Whether a failed message goes back to its queue. */
  predicate Again(m: Message, flags: Flags) { flags.requeue && !(flags.rejectOnRedelivered && m.redelivered) }

  /** What a handler may do before it ends: settle by itself (catching any exception), or
      live to see the channel closed. */
  datatype HandlerStep = Call(op: Op, cut: bool) | LoseChannel

  function HandlerRun(w: World, steps: seq<HandlerStep>): World
    decreases |steps|
  {
    if steps == [] then w
    else
      match steps[0]
      case Call(op, cut) => HandlerRun(Settle(w, op, cut).0, steps[1..])
      case LoseChannel => HandlerRun(w.(channel := w.channel.(closed := true)), steps[1..])
  }

  /** The settlements that `Master.on_message` and the exit around it make may be cut too. */
  datatype Cuts = Cuts(ending: bool, exit: bool)

  /** The two `except` clauses of `Master.on_message`. */
  function Ending(w: World, end: Outcome, cut: bool): (World, Outcome) {
    match end
    case Raised(RejectAsked(r)) => Settle(w, Reject(r), cut)
    case Raised(NackAsked(r)) => Settle(w, Nack(false, r), cut)
    case _ => (w, end)
  }

  /** `Master.on_message` around a handler that takes `steps` and then ends as `end`.  A body
      that is not a dictionary ends as `RejectAsked(false)`, one that cannot be decoded as
      `HandlerError`, both without a step. */
  function OnMessage(w: World, requeue: bool, rejectOnRedelivered: bool, steps: seq<HandlerStep>, end: Outcome, cuts: Cuts)
      : (World, Outcome)
  {
    var w1 := HandlerRun(w, steps);
    var (w2, body) := Ending(w1, end, cuts.ending);
    Exit(w2, Flags(requeue, rejectOnRedelivered, true), body, cuts.exit)
  }

  /** A message is born settled if nothing may be acknowledged: consumed without acknowledgement,
      or delivered without a tag that counts. */
  lemma BornSettled(noAck: bool, tag: Option<nat>, redelivered: bool)
    ensures var m := Delivered(noAck, tag, redelivered);
      && (m.processed <==> noAck || tag == None || tag == Some(0)) && m.locked == m.processed
      && m.noAck == noAck && m.tag == tag && m.redelivered == redelivered
  {
  }

  /** Without a tag there is no frame, but the message is marked all the same. */
  lemma SettledWithoutTag(w: World, op: Op, cut: bool)
    requires w.message.tag.None? && !w.message.noAck && !w.message.processed && (op.Nack? ==> !w.channel.closed && w.channel.supportsNack)
    ensures Settle(w, op, cut) == (w.(message := w.message.(processed := true, locked := true)), Returned)
  {
  }

  // -------------------------------------------------------------------------------------
  // Any sequence of calls on one message

  /** One call of a settlement method, one exit of a context, or the loss of the channel. */
  datatype Call = Direct(op: Op, cut: bool) | Leave(flags: Flags, body: Outcome, cut: bool) | Drop

  function CallStep(w: World, call: Call): World {
    match call
    case Direct(op, cut) => Settle(w, op, cut).0
    case Leave(flags, body, cut) => Exit(w, flags, body, cut).0
    case Drop => w.(channel := w.channel.(closed := true))
  }

  function Calls(w: World, calls: seq<Call>): World
    decreases |calls|
  {
    if calls == [] then w else Calls(CallStep(w, calls[0]), calls[1..])
  }

  predicate IsCut(call: Call) { !call.Drop? && call.cut }

  predicate Guards(w: World, op: Op) {
    w.message.tag.Some? && !w.message.noAck && !w.message.processed && !w.channel.closed && (op.Nack? ==> w.channel.supportsNack)
  }

  /** The call gets as far as its write. */
  predicate Passes(w: World, call: Call) {
    match call
    case Direct(op, _) => Guards(w, op)
    case Leave(_, _, _) => Guards(w, Ack(false))
    case Drop => false
  }

  /** A settlement sends its frame exactly when its guards hold; then it returns and marks the
      message, unless it is cut; and otherwise it raises and changes nothing. */
  lemma SettleChanges(w: World, op: Op, cut: bool)
    requires w.message.tag.None? ==> w.message.processed
    ensures var (w', r) := Settle(w, op, cut);
      if Guards(w, op) then
        var frame := match op
          case Ack(multiple) => BasicAck(w.message.tag.value, multiple)
          case Reject(requeue) => BasicReject(w.message.tag.value, requeue)
          case Nack(multiple, requeue) => BasicNack(w.message.tag.value, multiple, requeue);
        && w'.channel == w.channel.(sent := w.channel.sent + [frame])
        && w'.message == (if cut then w.message else w.message.(processed := true, locked := true))
        && r == (if cut then Raised(Cancelled) else Returned)
      else w' == w && r.Raised? && r != Raised(Cancelled)
  {
  }

  /** Why a settlement that does not get as far as its write raises. */
  lemma SettleRefuses(w: World, op: Op, cut: bool)
    requires (w.message.tag.None? ==> w.message.processed) && !Guards(w, op)
    ensures Settle(w, op, cut).1 == Raised(
      if op.Nack? && (w.channel.closed || !w.channel.supportsNack) then if w.channel.closed then ChannelClosed else NackUnsupported
      else if w.message.noAck then NoAckError else if w.message.processed then AlreadyProcessed else ChannelClosed)
  {
  }

  lemma CallSendsOne(w: World, call: Call)
    requires w.message.tag.None? ==> w.message.processed
    ensures var w' := CallStep(w, call);
      && w'.message.tag == w.message.tag && w'.message.noAck == w.message.noAck
      && (Passes(w, call) ==>
            && w.message.tag.Some? && !w.message.noAck
            && (exists f :: w'.channel.sent == w.channel.sent + [f] && w.message.tag == Some(f.tag))
            && (w'.message.processed <==> !IsCut(call)))
      && (!Passes(w, call) ==> w'.channel.sent == w.channel.sent && w'.message.processed == w.message.processed)
  {
    match call
    case Direct(op, cut) =>
      SettleChanges(w, op, cut);
      if Passes(w, call) { assert CallStep(w, call).channel.sent == w.channel.sent + [FrameOf(w.message.tag.value, op)]; }
    case Leave(flags, body, cut) =>
      var op := if body.Returned? then Ack(false) else Reject(Again(w.message, flags));
      SettleChanges(w, op, cut);
      if Passes(w, call) { assert CallStep(w, call).channel.sent == w.channel.sent + [FrameOf(w.message.tag.value, op)]; }
    case Drop =>
  }

  /** Some call passes its guards although an earlier one was cut behind its own. */
  predicate PassesAfterCut(w: World, calls: seq<Call>, cutBefore: bool)
    decreases |calls|
  {
    calls != [] && ((cutBefore && Passes(w, calls[0]))
      || PassesAfterCut(CallStep(w, calls[0]), calls[1..], cutBefore || (Passes(w, calls[0]) && IsCut(calls[0]))))
  }

  /** `before` was sent, then only frames for this message. */
  ghost predicate Extends(w: World, before: seq<Frame>) {
    && before <= w.channel.sent
    && forall k :: |before| <= k < |w.channel.sent| ==> w.message.tag == Some(w.channel.sent[k].tag) && !w.message.noAck
  }

  lemma {:induction false} CallsExtend(w: World, calls: seq<Call>, before: seq<Frame>)
    requires Extends(w, before) && (w.message.tag.None? ==> w.message.processed)
    ensures Extends(Calls(w, calls), before) && Calls(w, calls).message.tag == w.message.tag
    ensures Calls(w, calls).message.noAck == w.message.noAck
    ensures |w.channel.sent| <= |Calls(w, calls).channel.sent|
    decreases |calls|
  {
    if calls == [] {
    } else {
      CallSendsOne(w, calls[0]);
      CallsExtend(CallStep(w, calls[0]), calls[1..], before);
    }
  }

  /** `count` frames were sent for the message so far. */
  lemma {:induction false} CallsCounted(w: World, calls: seq<Call>, count: nat, cutBefore: bool)
    requires w.message.tag.None? ==> w.message.processed
    requires !w.message.processed ==> (cutBefore <==> count > 0)
    ensures count + |Calls(w, calls).channel.sent| - |w.channel.sent| <= 1
            <==> count <= 1 && !PassesAfterCut(w, calls, cutBefore)
    decreases |calls|
  {
    if calls == [] {
    } else {
      var w' := CallStep(w, calls[0]);
      CallSendsOne(w, calls[0]);
      CallsExtend(w', calls[1..], w'.channel.sent);
      CallsCounted(w', calls[1..], count + |w'.channel.sent| - |w.channel.sent|, cutBefore || (Passes(w, calls[0]) && IsCut(calls[0])));
    }
  }

  /** Any sequence of acks, rejects, nacks and context exits on one message, with the channel
      closing anywhere between them, sends at most one frame if and only if no call passes its
      guards after an earlier one was cancelled behind its write.  All frames are for the
      message, and a message delivered without acknowledgement sends none. */
  lemma AtMostOneIffNoneAfterCut(noAck: bool, tag: Option<nat>, redelivered: bool, channel: Channel, calls: seq<Call>)
    ensures var w0 := World(Delivered(noAck, tag, redelivered), channel);
      var w := Calls(w0, calls);
      && Extends(w, channel.sent) && w.message.tag == tag && w.message.noAck == noAck
      && (|w.channel.sent| <= |channel.sent| + 1 <==> !PassesAfterCut(w0, calls, false))
  {
    var w0 := World(Delivered(noAck, tag, redelivered), channel);
    CallsExtend(w0, calls, channel.sent);
    CallsCounted(w0, calls, 0, false);
  }

  lemma {:induction false} UncutNeverPassesAfterCut(w: World, calls: seq<Call>)
    requires forall c :: c in calls ==> !IsCut(c)
    ensures !PassesAfterCut(w, calls, false)
    decreases |calls|
  {
    if calls == [] {
    } else {
      assert calls[0] in calls;
      UncutNeverPassesAfterCut(CallStep(w, calls[0]), calls[1..]);
    }
  }

  /** So any sequence of calls none of which is cancelled in its write sends at most one. */
  lemma AtMostOneSettlement(noAck: bool, tag: Option<nat>, redelivered: bool, channel: Channel, calls: seq<Call>)
    requires forall c :: c in calls ==> !IsCut(c)
    ensures var w := Calls(World(Delivered(noAck, tag, redelivered), channel), calls);
      w.channel.sent == channel.sent
      || (exists f :: w.channel.sent == channel.sent + [f] && tag == Some(f.tag) && !noAck)
  {
    var w0 := World(Delivered(noAck, tag, redelivered), channel);
    AtMostOneIffNoneAfterCut(noAck, tag, redelivered, channel, calls);
    UncutNeverPassesAfterCut(w0, calls);
    var w := Calls(w0, calls);
    if w.channel.sent != channel.sent {
      assert w.channel.sent == channel.sent + [w.channel.sent[|channel.sent|]];
    }
  }

  /** An ack that times out in its write, and then the exit of the context around it: two frames. */
  lemma CutAckThenExit(tag: nat, redelivered: bool, supportsNack: bool, flags: Flags)
    requires tag != 0
    ensures var w := World(Delivered(false, Some(tag), redelivered), Channel(false, supportsNack, []));
      Calls(w, [Direct(Ack(false), true), Leave(flags, Raised(Cancelled), false)]).channel.sent
      == [BasicAck(tag, false), BasicReject(tag, Again(w.message, flags))]
  {
    var w := World(Delivered(false, Some(tag), redelivered), Channel(false, supportsNack, []));
    var calls := [Direct(Ack(false), true), Leave(flags, Raised(Cancelled), false)];
    var w1 := CallStep(w, calls[0]);
    assert w1.channel.sent == [BasicAck(tag, false)] && w1.message == w.message;
    assert calls[1..] == [calls[1]] && calls[1..][1..] == [];
    assert Calls(w, calls) == Calls(w1, calls[1..]) == CallStep(w1, calls[1]);
  }

  // -------------------------------------------------------------------------------------
  // Master

  predicate Supported(op: Op, supportsNack: bool) { op.Nack? ==> supportsNack }

  /** The settlement that the except clauses of `Master.on_message` make of an ending. */
  function Asked(end: Outcome): Option<Op> {
    match end
    case Raised(RejectAsked(r)) => Some(Reject(r))
    case Raised(NackAsked(r)) => Some(Nack(false, r))
    case _ => None
  }

  /** The settlement by the exit of an unsettled message. */
  function AtExit(redelivered: bool, requeue: bool, rejectOnRedelivered: bool, end: Outcome): Op {
    if end.Returned? then Ack(false) else Reject(requeue && !(rejectOnRedelivered && redelivered))
  }

  /** Every frame a worker sends for a delivery on an open channel: one for each supported
      settlement of the handler that is cut, up to the first that is not, which is the last
      frame.  Without such a one the ending has its turn, if it asks for a supported settlement,
      and the exit if that leaves the message unsettled.  Nothing is sent once the channel is lost. */
  function Frames(tag: nat, redelivered: bool, supportsNack: bool, requeue: bool, rejectOnRedelivered: bool,
                  steps: seq<HandlerStep>, end: Outcome, cutEnding: bool): seq<Frame>
    decreases |steps|
  {
    if steps == [] then
      var exit := FrameOf(tag, AtExit(redelivered, requeue, rejectOnRedelivered, end));
      match Asked(end)
      case Some(op) =>
        if !Supported(op, supportsNack) then [exit] else if cutEnding then [FrameOf(tag, op), exit] else [FrameOf(tag, op)]
      case None => [exit]
    else
      var rest := Frames(tag, redelivered, supportsNack, requeue, rejectOnRedelivered, steps[1..], end, cutEnding);
      match steps[0]
      case LoseChannel => []
      case Call(op, cut) =>
        if !Supported(op, supportsNack) then rest else if cut then [FrameOf(tag, op)] + rest else [FrameOf(tag, op)]
  }

  lemma {:induction false} HandlerRunSilent(w: World, steps: seq<HandlerStep>)
    requires w.message.processed || (w.channel.closed && w.message.tag.Some?)
    ensures HandlerRun(w, steps).message == w.message && HandlerRun(w, steps).channel.sent == w.channel.sent
    ensures w.channel.closed ==> HandlerRun(w, steps) == w
    decreases |steps|
  {
    if steps == [] {
    } else {
      var w1 := match steps[0] case Call(op, cut) => Settle(w, op, cut).0 case LoseChannel => w.(channel := w.channel.(closed := true));
      assert w1.message == w.message && w1.channel.sent == w.channel.sent && (w.channel.closed ==> w1 == w);
      HandlerRunSilent(w1, steps[1..]);
    }
  }

  lemma OnMessageSilent(w: World, requeue: bool, rejectOnRedelivered: bool, steps: seq<HandlerStep>, end: Outcome, cuts: Cuts)
    requires w.message.processed || (w.channel.closed && w.message.tag.Some?)
    ensures OnMessage(w, requeue, rejectOnRedelivered, steps, end, cuts).0.channel.sent == w.channel.sent
  {
    HandlerRunSilent(w, steps);
  }

  lemma EndingFrames(w: World, requeue: bool, rejectOnRedelivered: bool, end: Outcome, cuts: Cuts)
    requires w.message.tag.Some? && !w.message.noAck && !w.message.processed && !w.channel.closed
    ensures OnMessage(w, requeue, rejectOnRedelivered, [], end, cuts).0.channel.sent
            == w.channel.sent + Frames(w.message.tag.value, w.message.redelivered, w.channel.supportsNack, requeue, rejectOnRedelivered,
                                       [], end, cuts.ending)
  {
  }

  function Stepped(w: World, step: HandlerStep): World {
    match step case Call(op, cut) => Settle(w, op, cut).0 case LoseChannel => w.(channel := w.channel.(closed := true))
  }

  lemma FirstStep(w: World, requeue: bool, rejectOnRedelivered: bool, steps: seq<HandlerStep>, end: Outcome, cuts: Cuts)
    requires steps != []
    ensures OnMessage(w, requeue, rejectOnRedelivered, steps, end, cuts)
            == OnMessage(Stepped(w, steps[0]), requeue, rejectOnRedelivered, steps[1..], end, cuts)
  {
    assert HandlerRun(w, steps) == HandlerRun(Stepped(w, steps[0]), steps[1..]);
  }

  lemma StepFrame(w: World, step: HandlerStep)
    requires w.message.tag.Some? && !w.message.noAck && !w.message.processed && !w.channel.closed
    ensures var w1 := Stepped(w, step);
      match step
      case LoseChannel => w1.channel.closed && w1.channel.sent == w.channel.sent && w1.message == w.message
      case Call(op, cut) =>
        if !Supported(op, w.channel.supportsNack) then w1 == w
        else
          && w1.channel == w.channel.(sent := w.channel.sent + [FrameOf(w.message.tag.value, op)])
          && w1.message == if cut then w.message else Marked(w.message)
  {
  }

  /** Whatever the handler does, whatever is cancelled in its write, and wherever the channel is
      lost, the frames of a delivery are these, in this order. */
  lemma {:induction false} MasterSends(w: World, requeue: bool, rejectOnRedelivered: bool, steps: seq<HandlerStep>, end: Outcome, cuts: Cuts)
    requires w.message.tag.Some? && !w.message.noAck && !w.message.processed && !w.channel.closed
    ensures OnMessage(w, requeue, rejectOnRedelivered, steps, end, cuts).0.channel.sent
            == w.channel.sent + Frames(w.message.tag.value, w.message.redelivered, w.channel.supportsNack, requeue, rejectOnRedelivered,
                                       steps, end, cuts.ending)
    decreases |steps|
  {
    if steps == [] {
      EndingFrames(w, requeue, rejectOnRedelivered, end, cuts);
    } else {
      var w1 := Stepped(w, steps[0]);
      FirstStep(w, requeue, rejectOnRedelivered, steps, end, cuts);
      StepFrame(w, steps[0]);
      if w1.message.processed || w1.channel.closed {
        OnMessageSilent(w1, requeue, rejectOnRedelivered, steps[1..], end, cuts);
      } else {
        MasterSends(w1, requeue, rejectOnRedelivered, steps[1..], end, cuts);
      }
    }
  }

  /** A settlement that gets as far as its write is cancelled there before any is not: one of
      the handler's, or, when the handler leaves the message unsettled, the one its ending asks for. */
  predicate CutUnsettled(steps: seq<HandlerStep>, supportsNack: bool, end: Outcome, cutEnding: bool)
    decreases |steps|
  {
    if steps == [] then cutEnding && Asked(end).Some? && Supported(Asked(end).value, supportsNack)
    else if steps[0].Call? && Supported(steps[0].op, supportsNack) then steps[0].cut
    else CutUnsettled(steps[1..], supportsNack, end, cutEnding)
  }

  lemma {:induction false} FramesCount(tag: nat, redelivered: bool, supportsNack: bool, requeue: bool, rejectOnRedelivered: bool,
                                       steps: seq<HandlerStep>, end: Outcome, cutEnding: bool)
    requires LoseChannel !in steps
    ensures var n := |Frames(tag, redelivered, supportsNack, requeue, rejectOnRedelivered, steps, end, cutEnding)|;
      n >= 1 && (n == 1 <==> !CutUnsettled(steps, supportsNack, end, cutEnding))
    decreases |steps|
  {
    if steps == [] {
    } else {
      assert steps[0] in steps;
      FramesCount(tag, redelivered, supportsNack, requeue, rejectOnRedelivered, steps[1..], end, cutEnding);
    }
  }

  /** On a channel that stays open a delivery is settled by at least one frame, and by exactly
      one if and only if none is cut before the message is settled. */
  lemma MasterSettlesExactlyOnce(w: World, requeue: bool, rejectOnRedelivered: bool, steps: seq<HandlerStep>, end: Outcome, cuts: Cuts)
    requires w.message.tag.Some? && !w.message.noAck && !w.message.processed && !w.channel.closed
    requires LoseChannel !in steps
    ensures var sent := OnMessage(w, requeue, rejectOnRedelivered, steps, end, cuts).0.channel.sent;
      && |sent| >= |w.channel.sent| + 1
      && (|sent| == |w.channel.sent| + 1 <==> !CutUnsettled(steps, w.channel.supportsNack, end, cuts.ending))
  {
    MasterSends(w, requeue, rejectOnRedelivered, steps, end, cuts);
    FramesCount(w.message.tag.value, w.message.redelivered, w.channel.supportsNack, requeue, rejectOnRedelivered, steps, end, cuts.ending);
  }

  lemma {:induction false} FramesAtMostOne(tag: nat, redelivered: bool, supportsNack: bool, requeue: bool, rejectOnRedelivered: bool,
                                           steps: seq<HandlerStep>, end: Outcome, cutEnding: bool)
    requires !CutUnsettled(steps, supportsNack, end, cutEnding)
    ensures |Frames(tag, redelivered, supportsNack, requeue, rejectOnRedelivered, steps, end, cutEnding)| <= 1
    decreases |steps|
  {
    if steps == [] {
    } else {
      if !steps[0].LoseChannel? && !Supported(steps[0].op, supportsNack) {
        FramesAtMostOne(tag, redelivered, supportsNack, requeue, rejectOnRedelivered, steps[1..], end, cutEnding);
      }
    }
  }

  /** On a channel that may be lost at any time, and for any message, still at most one under
      the same condition. */
  lemma MasterSettlesAtMostOnce(noAck: bool, tag: Option<nat>, redelivered: bool, channel: Channel,
                                requeue: bool, rejectOnRedelivered: bool, steps: seq<HandlerStep>, end: Outcome, cuts: Cuts)
    requires !CutUnsettled(steps, channel.supportsNack, end, cuts.ending)
    ensures var w := OnMessage(World(Delivered(noAck, tag, redelivered), channel), requeue, rejectOnRedelivered, steps, end, cuts).0;
      |channel.sent| <= |w.channel.sent| <= |channel.sent| + 1 && (noAck ==> w.channel.sent == channel.sent)
  {
    var w := World(Delivered(noAck, tag, redelivered), channel);
    if w.message.processed || channel.closed {
      OnMessageSilent(w, requeue, rejectOnRedelivered, steps, end, cuts);
    } else {
      MasterSends(w, requeue, rejectOnRedelivered, steps, end, cuts);
      FramesAtMostOne(tag.value, redelivered, channel.supportsNack, requeue, rejectOnRedelivered, steps, end, cuts.ending);
    }
  }

  /** A handler whose own ack is cancelled in its write, and which then ends cancelled. */
  lemma HandlerCutInItsAck(tag: nat, redelivered: bool, requeue: bool, rejectOnRedelivered: bool, supportsNack: bool)
    requires tag != 0
    ensures var w := World(Delivered(false, Some(tag), redelivered), Channel(false, supportsNack, []));
      OnMessage(w, requeue, rejectOnRedelivered, [Call(Ack(false), true)], Raised(Cancelled), Cuts(false, false)).0.channel.sent
      == [BasicAck(tag, false), BasicReject(tag, requeue && !(rejectOnRedelivered && redelivered))]
  {
    var w := World(Delivered(false, Some(tag), redelivered), Channel(false, supportsNack, []));
    MasterSends(w, requeue, rejectOnRedelivered, [Call(Ack(false), true)], Raised(Cancelled), Cuts(false, false));
    assert [Call(Ack(false), true)][1..] == [];
  }

  // -------------------------------------------------------------------------------------
  // A channel that is closed at the exit

  /** The exit raises on a closed channel, instead of passing over the message quietly, exactly
      when it had something to settle: an exception always makes it look at the channel. */
  lemma ExitRaisesIffItLooksAtAClosedChannel(w: World, flags: Flags, body: Outcome, cut: bool)
    requires w.message.tag.Some? && body != Raised(ChannelClosed)
    ensures Exit(w, flags, body, cut).1 == Raised(ChannelClosed) <==>
      && w.channel.closed && !(flags.ignoreProcessed && w.message.processed)
      && (body.Raised? || (!w.message.noAck && !w.message.processed))
  {
  }

  /** How the exit ends.  It does nothing if told to ignore a processed message.  Otherwise a body
      that returned ends as its ack does; a body that raised always ends raised: by its own
      exception if the reject gets through, and else by what stopped the reject. */
  lemma ExitEnds(w: World, flags: Flags, body: Outcome, cut: bool)
    requires w.message.tag.None? ==> w.message.processed
    ensures var end := Exit(w, flags, body, cut).1;
      var skips := flags.ignoreProcessed && w.message.processed;
      && (skips ==> end == body)
      && (body.Raised? ==> end.Raised?)
      && (!skips && Guards(w, Ack(false)) && !cut ==> end == body)
      && (!skips && Guards(w, Ack(false)) && cut ==> end == Raised(Cancelled))
      && (!skips && !w.channel.closed && w.message.noAck ==> end == Raised(NoAckError))
      && (!skips && !w.channel.closed && !w.message.noAck && w.message.processed ==> end == Raised(AlreadyProcessed))
      && (!skips && w.channel.closed && body.Raised? ==> end == Raised(ChannelClosed))
      && (!skips && w.channel.closed && body.Returned? ==>
            end == Raised(if w.message.noAck then NoAckError else if w.message.processed then AlreadyProcessed else ChannelClosed))
  {
  }

  /** The handler settles the message itself: one of its settlements is supported and not cut. */
  predicate SettledByHandler(steps: seq<HandlerStep>, supportsNack: bool) {
    exists s :: s in steps && s.Call? && !s.cut && Supported(s.op, supportsNack)
  }

  lemma {:induction false} HandlerRunSettles(w: World, steps: seq<HandlerStep>)
    requires w.message.tag.Some? && !w.message.noAck && !w.channel.closed && LoseChannel !in steps
    ensures var w' := HandlerRun(w, steps);
      && w'.message.tag == w.message.tag && !w'.message.noAck && w'.message.redelivered == w.message.redelivered
      && !w'.channel.closed && w'.channel.supportsNack == w.channel.supportsNack
      && (w'.message.processed <==> w.message.processed || SettledByHandler(steps, w.channel.supportsNack))
    decreases |steps|
  {
    if steps == [] {
    } else {
      assert steps == [steps[0]] + steps[1..];
      HandlerRunSettles(Settle(w, steps[0].op, steps[0].cut).0, steps[1..]);
    }
  }

  /** How a delivery to `Master` ends on a channel that stays open.  Only a handler that returned,
      or one whose request for a reject or nack was met, makes it return; any other exception
      comes out of it, and a settlement that is cut makes it end cancelled. */
  lemma OnMessageEnds(tag: nat, redelivered: bool, channel: Channel, requeue: bool, rejectOnRedelivered: bool,
                      steps: seq<HandlerStep>, end: Outcome, cuts: Cuts)
    requires tag != 0 && !channel.closed && LoseChannel !in steps
    ensures var settled := SettledByHandler(steps, channel.supportsNack);
      var r := OnMessage(World(Delivered(false, Some(tag), redelivered), channel), requeue, rejectOnRedelivered, steps, end, cuts).1;
      var asks := exists q :: end == Raised(RejectAsked(q)) || end == Raised(NackAsked(q));
      var met := asks && ((exists q :: end == Raised(NackAsked(q))) ==> channel.supportsNack);
      && (settled && met ==> r == Raised(AlreadyProcessed))
      && (settled && asks && !met ==> r == Raised(NackUnsupported))
      && (settled && !asks ==> r == end)
      && (!settled && met ==> r == if cuts.ending then Raised(Cancelled) else Returned)
      && (!settled && asks && !met ==> r == Raised(if cuts.exit then Cancelled else NackUnsupported))
      && (!settled && !asks ==> r == if cuts.exit then Raised(Cancelled) else end)
  {
    var w := World(Delivered(false, Some(tag), redelivered), channel);
    HandlerRunSettles(w, steps);
    var w1 := HandlerRun(w, steps);
    var (w2, body) := Ending(w1, end, cuts.ending);
    ExitEnds(w2, Flags(requeue, rejectOnRedelivered, true), body, cuts.exit);
    EndingEnds(w1, end, cuts.ending);
  }

  lemma EndingEnds(w: World, end: Outcome, cut: bool)
    requires w.message.tag.Some? && !w.message.noAck && !w.channel.closed
    ensures var (w', body) := Ending(w, end, cut);
      && w'.message.tag == w.message.tag && !w'.message.noAck && !w'.channel.closed
      && match end
         case Raised(RejectAsked(q)) =>
           && body == (if w.message.processed then Raised(AlreadyProcessed) else if cut then Raised(Cancelled) else Returned)
           && (w'.message.processed <==> w.message.processed || !cut)
         case Raised(NackAsked(q)) =>
           if w.channel.supportsNack then
             && body == (if w.message.processed then Raised(AlreadyProcessed) else if cut then Raised(Cancelled) else Returned)
             && (w'.message.processed <==> w.message.processed || !cut)
           else w' == w && body == Raised(NackUnsupported)
         case _ => w' == w && body == end
  {
  }

  /** The handler loses the channel before any settlement that the channel supports is
      made and not cut. */
  predicate LostUnsettled(steps: seq<HandlerStep>, supportsNack: bool)
    decreases |steps|
  {
    steps != [] && (steps[0].LoseChannel? ||
      ((steps[0].cut || !Supported(steps[0].op, supportsNack)) && LostUnsettled(steps[1..], supportsNack)))
  }

  lemma {:induction false} LossAtTheEnd(w: World, steps: seq<HandlerStep>)
    requires w.message.tag.Some? && !w.message.noAck
    requires w.message.processed || !w.channel.closed
    ensures var w' := HandlerRun(w, steps);
      && w'.message.tag == w.message.tag && !w'.message.noAck
      && (w'.channel.closed <==> w.channel.closed || LoseChannel in steps)
      && (w'.channel.closed && !w'.message.processed <==>
            !w.message.processed && LostUnsettled(steps, w.channel.supportsNack))
    decreases |steps|
  {
    if steps == [] {
    } else {
      assert steps == [steps[0]] + steps[1..];
      match steps[0]
      case Call(op, cut) =>
        LossAtTheEnd(Settle(w, op, cut).0, steps[1..]);
      case LoseChannel =>
        ClosedStaysUnsettled(w.(channel := w.channel.(closed := true)), steps[1..]);
    }
  }

  lemma {:induction false} ClosedStaysUnsettled(w: World, steps: seq<HandlerStep>)
    requires w.message.tag.Some? && w.channel.closed
    ensures HandlerRun(w, steps) == w
    decreases |steps|
  {
    if steps == [] {
    } else {
      ClosedStaysUnsettled(w, steps[1..]);
    }
  }

  /** A delivery handed to `Master` on an open channel leaves it with ChannelInvalidStateError
      exactly when the channel was lost with the message unsettled, or was lost at all and the
      handler then asks for a nack. */
  lemma LostDeliveryRaises(tag: nat, redelivered: bool, channel: Channel, requeue: bool, rejectOnRedelivered: bool,
                           steps: seq<HandlerStep>, end: Outcome, cuts: Cuts)
    requires tag != 0 && !channel.closed && end != Raised(ChannelClosed)
    ensures OnMessage(World(Delivered(false, Some(tag), redelivered), channel), requeue, rejectOnRedelivered, steps, end, cuts).1
            == Raised(ChannelClosed)
            <==> LostUnsettled(steps, channel.supportsNack)
                 || (LoseChannel in steps && exists r :: end == Raised(NackAsked(r)))
  {
    var w := World(Delivered(false, Some(tag), redelivered), channel);
    LossAtTheEnd(w, steps);
    var w1 := HandlerRun(w, steps);
    if LostUnsettled(steps, channel.supportsNack) { LostIsLost(steps, channel.supportsNack); }
    match end {
      case Raised(NackAsked(r)) =>
      case _ =>
    }
  }

  lemma {:induction false} LostIsLost(steps: seq<HandlerStep>, supportsNack: bool)
    requires LostUnsettled(steps, supportsNack)
    ensures LoseChannel in steps
    decreases |steps|
  {
    if steps[0].LoseChannel? {
    } else {
      LostIsLost(steps[1..], supportsNack);
    }
  }

  /** For one: the handler loses the channel and then fails. */
  lemma HandlerLosesChannelAndFails(tag: nat, redelivered: bool, requeue: bool, rejectOnRedelivered: bool, supportsNack: bool, cuts: Cuts)
    requires tag != 0
    ensures var w := World(Delivered(false, Some(tag), redelivered), Channel(false, supportsNack, []));
      var (w', end) := OnMessage(w, requeue, rejectOnRedelivered, [LoseChannel], Raised(HandlerError), cuts);
      end == Raised(ChannelClosed) && w'.channel.sent == [] && !w'.message.processed
  {
    var w := World(Delivered(false, Some(tag), redelivered), Channel(false, supportsNack, []));
    ClosedStaysUnsettled(w.(channel := w.channel.(closed := true)), [LoseChannel][1..]);
  }
}
