/** `IncomingMessage`, `ProcessContext` and `Master` as objects over one AMQP channel. */
module MessageObjects {
  import opened Options
  import S = Settlement

  class AmqpChannel {
    var isClosed: bool
    const basicNack: bool
    var sent: seq<S.Frame>

    constructor (basicNack: bool)
      ensures this.basicNack == basicNack && !isClosed && sent == []
    {
      this.basicNack := basicNack;
      isClosed, sent := false, [];
    }

    function View(): S.Channel
      reads this
    {
      S.Channel(isClosed, basicNack, sent)
    }
  }

  /** Settlements may be `cut`: cancelled in the awaited write, behind which the flag is set. */
  class IncomingMessage {
    const channel: AmqpChannel
    const noAck: bool
    const deliveryTag: Option<nat>
    const redelivered: bool
    var processed: bool
    var locked: bool

    constructor (channel: AmqpChannel, noAck: bool, deliveryTag: Option<nat>, redelivered: bool)
      ensures this.channel == channel
      ensures View() == S.World(S.Delivered(noAck, deliveryTag, redelivered), channel.View())
    {
      this.channel, this.noAck, this.deliveryTag, this.redelivered := channel, noAck, deliveryTag, redelivered;
      processed, locked := false, false;
      if noAck || deliveryTag == None || deliveryTag.value == 0 {
        processed, locked := true, true;
      }
    }

    function View(): S.World
      reads this, channel
    {
      S.World(S.Message(noAck, deliveryTag, redelivered, processed, locked), channel.View())
    }

    method Ack(multiple: bool, cut: bool) returns (r: S.Outcome)
      modifies this, channel
      ensures (View(), r) == S.Settle(old(View()), S.Ack(multiple), cut)
    {
      if noAck {
        return S.Raised(S.NoAckError);
      }
      if processed {
        return S.Raised(S.AlreadyProcessed);
      }
      if deliveryTag.Some? {
        if channel.isClosed {
          return S.Raised(S.ChannelClosed);
        }
        channel.sent := channel.sent + [S.BasicAck(deliveryTag.value, multiple)];
        if cut {
          return S.Raised(S.Cancelled);
        }
      }
      processed := true;
      if !locked {
        locked := true;
      }
      r := S.Returned;
    }

    method Reject(requeue: bool, cut: bool) returns (r: S.Outcome)
      modifies this, channel
      ensures (View(), r) == S.Settle(old(View()), S.Reject(requeue), cut)
    {
      if noAck {
        return S.Raised(S.NoAckError);
      }
      if processed {
        return S.Raised(S.AlreadyProcessed);
      }
      if deliveryTag.Some? {
        if channel.isClosed {
          return S.Raised(S.ChannelClosed);
        }
        channel.sent := channel.sent + [S.BasicReject(deliveryTag.value, requeue)];
        if cut {
          return S.Raised(S.Cancelled);
        }
      }
      processed := true;
      if !locked {
        locked := true;
      }
      r := S.Returned;
    }

    method Nack(multiple: bool, requeue: bool, cut: bool) returns (r: S.Outcome)
      modifies this, channel
      ensures (View(), r) == S.Settle(old(View()), S.Nack(multiple, requeue), cut)
    {
      if channel.isClosed {
        return S.Raised(S.ChannelClosed);
      }
      if !channel.basicNack {
        return S.Raised(S.NackUnsupported);
      }
      if noAck {
        return S.Raised(S.NoAckError);
      }
      if processed {
        return S.Raised(S.AlreadyProcessed);
      }
      if deliveryTag.Some? {
        channel.sent := channel.sent + [S.BasicNack(deliveryTag.value, multiple, requeue)];
        if cut {
          return S.Raised(S.Cancelled);
        }
      }
      processed := true;
      if !locked {
        locked := true;
      }
      r := S.Returned;
    }
  }

  class ProcessContext {
    const message: IncomingMessage
    const flags: S.Flags

    constructor (message: IncomingMessage, requeue: bool, rejectOnRedelivered: bool, ignoreProcessed: bool)
      ensures this.message == message && flags == S.Flags(requeue, rejectOnRedelivered, ignoreProcessed)
    {
      this.message, flags := message, S.Flags(requeue, rejectOnRedelivered, ignoreProcessed);
    }

    method Exit(body: S.Outcome, cut: bool) returns (r: S.Outcome)
      modifies message, message.channel
      ensures (message.View(), r) == S.Exit(old(message.View()), flags, body, cut)
    {
      r := body;
      if body.Returned? {
        if !flags.ignoreProcessed || !message.processed {
          r := message.Ack(false, cut);
        }
        return;
      }
      if !flags.ignoreProcessed || !message.processed {
        if message.channel.isClosed {
          return S.Raised(S.ChannelClosed);
        }
        var exit;
        if flags.rejectOnRedelivered && message.redelivered {
          exit := message.Reject(false, cut);
        } else {
          exit := message.Reject(flags.requeue, cut);
        }
        if exit.Raised? {
          r := exit;
        }
      }
    }
  }

  class Master {
    const requeue: bool
    const rejectOnRedelivered: bool

    constructor (requeue: bool, rejectOnRedelivered: bool)
      ensures this.requeue == requeue && this.rejectOnRedelivered == rejectOnRedelivered
    {
      this.requeue, this.rejectOnRedelivered := requeue, rejectOnRedelivered;
    }

    /** The handler's own calls on the message, with whatever happens to the channel meanwhile. */
    method Execute(message: IncomingMessage, steps: seq<S.HandlerStep>)
      modifies message, message.channel
      ensures message.View() == S.HandlerRun(old(message.View()), steps)
    {
      for n := 0 to |steps|
        invariant S.HandlerRun(old(message.View()), steps) == S.HandlerRun(message.View(), steps[n..])
      {
        assert steps[n..][0] == steps[n] && steps[n..][1..] == steps[n + 1..];
        var caught;
        match steps[n]
        case LoseChannel => message.channel.isClosed := true;
        case Call(Ack(m), cut) => caught := message.Ack(m, cut);
        case Call(Reject(q), cut) => caught := message.Reject(q, cut);
        case Call(Nack(m, q), cut) => caught := message.Nack(m, q, cut);
      }
    }

    method OnMessage(message: IncomingMessage, steps: seq<S.HandlerStep>, end: S.Outcome, cuts: S.Cuts) returns (r: S.Outcome)
      modifies message, message.channel
      ensures (message.View(), r) == S.OnMessage(old(message.View()), requeue, rejectOnRedelivered, steps, end, cuts)
    {
      var context := new ProcessContext(message, requeue, rejectOnRedelivered, true);
      Execute(message, steps);
      var body := end;
      match end {
        case Raised(RejectAsked(q)) => body := message.Reject(q, cuts.ending);
        case Raised(NackAsked(q)) => body := message.Nack(false, q, cuts.ending);
        case _ =>
      }
      r := context.Exit(body, cuts.exit);
    }
  }
}
