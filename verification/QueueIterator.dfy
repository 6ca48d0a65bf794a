/** The queue iterator object.  Its buffer holds delivery tags of messages nobody has seen. */
module QueueIteratorObject {
  import opened Options
  import S = Settlement
  import M = MessageObjects
  import I = IteratorMachine
  import IteratorSafety

  datatype CloseResult = NothingToDo | ClosedNow | RaisedUnregistered | RaisedByCancel | RaisedUnsupported | Interrupted

  function Nacks(tags: seq<nat>): (frames: seq<S.Frame>)
    ensures |frames| == |tags|
    ensures forall k :: 0 <= k < |tags| ==> frames[k] == S.BasicNack(tags[k], false, true)
  {
    seq(|tags|, k requires 0 <= k < |tags| => S.BasicNack(tags[k], false, true))
  }

  class QueueIterator {
    const channel: M.AmqpChannel
    const noAck: bool
    var consumerTag: Option<nat>
    var buffer: seq<nat>
    var registered: bool  // our `close` is among the queue's close callbacks

    constructor (channel: M.AmqpChannel, noAck: bool)
      ensures this.channel == channel && this.noAck == noAck
      ensures consumerTag == None && buffer == [] && registered
    {
      this.channel, this.noAck := channel, noAck;
      consumerTag, buffer, registered := None, [], true;
    }

    /** `consume`; the broker answers with a tag, or the request raises. */
    method Consume(answer: Option<nat>) returns (raised: bool)
      modifies this`consumerTag
      ensures raised <==> answer.None?
      ensures consumerTag == if raised then old(consumerTag) else answer
    {
      raised := answer.None?;
      if !raised {
        consumerTag := answer;
      }
    }

    method OnMessage(deliveryTag: nat)
      modifies this`buffer
      ensures buffer == old(buffer) + [deliveryTag]
    {
      buffer := buffer + [deliveryTag];
    }

    /** `__anext__` once the buffer holds a message. */
    method Anext() returns (deliveryTag: nat)
      requires buffer != []
      modifies this`buffer
      ensures [deliveryTag] + buffer == old(buffer)
    {
      deliveryTag, buffer := buffer[0], buffer[1..];
    }

    /** `close`.  `arrivals` are the deliveries that reach the buffer between sending the
        cancel and its confirmation, or its failure; the channel closes when `closesAt` messages
        of the buffer have been taken, and the task is cancelled, if ever, while it awaits the
        write of the nack at `stopsAt`. */
    method Close(arrivals: seq<nat>, cancelRaises: bool, closesAt: nat, stopsAt: nat) returns (r: CloseResult)
      modifies this`consumerTag, this`buffer, this`registered, channel`isClosed, channel`sent
      ensures r.NothingToDo? <==> old(consumerTag).None? || old(channel.isClosed)
      ensures r.RaisedUnregistered? <==> !r.NothingToDo? && !old(registered)
      ensures r.RaisedByCancel? <==> !r.NothingToDo? && !r.RaisedUnregistered? && cancelRaises
      ensures r.NothingToDo? ==> consumerTag == old(consumerTag) && registered == old(registered)
      ensures !r.NothingToDo? ==> consumerTag == None && !registered
      ensures r.NothingToDo? || r.RaisedUnregistered? || r.RaisedByCancel? ==>
        channel.sent == old(channel.sent) && channel.isClosed == old(channel.isClosed)
      ensures r.NothingToDo? || r.RaisedUnregistered? ==> buffer == old(buffer)
      ensures r.RaisedByCancel? ==> buffer == old(buffer) + arrivals
      ensures r.ClosedNow? || r.RaisedUnsupported? || r.Interrupted? ==>
        Drained(old(buffer) + arrivals, closesAt, stopsAt, old(channel.sent), r)
    {
      if consumerTag.None? || channel.isClosed {
        return NothingToDo;
      }
      consumerTag := None;
      if !registered {
        return RaisedUnregistered;
      }
      registered := false;
      buffer := buffer + arrivals;
      if cancelRaises {
        return RaisedByCancel;
      }
      r := Drain(closesAt, stopsAt);
    }

    /** How a drain that began on an open channel with these tags, and with these frames
        already sent, has ended: the tags before the channel closed were nacked, each once and
        in order, and the others are lost, unless the drain was stopped first; then what it had
        not taken stays in the buffer. */
    ghost predicate Drained(tags: seq<nat>, closesAt: nat, stopsAt: nat, sent: seq<S.Frame>, r: CloseResult)
      reads this`buffer, channel`isClosed, channel`sent
    {
      var answered := if closesAt < |tags| then tags[..closesAt] else tags;
      && (r.RaisedUnsupported? <==> !noAck && !channel.basicNack && answered != [])
      && (r.RaisedUnsupported? ==> buffer == tags[1..] && channel.sent == sent && !channel.isClosed)
      && (r.Interrupted? <==> !noAck && channel.basicNack && stopsAt < |answered|)
      && (r.Interrupted? ==> buffer == tags[stopsAt + 1..] && channel.sent == sent + Nacks(tags[..stopsAt + 1]) && !channel.isClosed)
      && (r.ClosedNow? ==> buffer == [] && channel.sent == sent + (if noAck then [] else Nacks(answered)))
      && (r.ClosedNow? ==> (channel.isClosed <==> closesAt < |tags|))
    }

    /** The loop of `close`. */
    method Drain(closesAt: nat, stopsAt: nat) returns (r: CloseResult)
      requires !channel.isClosed
      modifies this`buffer, channel`isClosed, channel`sent
      ensures r.ClosedNow? || r.RaisedUnsupported? || r.Interrupted?
      ensures Drained(old(buffer), closesAt, stopsAt, old(channel.sent), r)
    {
      ghost var all := buffer;
      var n: nat := 0;
      while buffer != []
        invariant n <= |all| && buffer == all[n..]
        invariant channel.isClosed <==> closesAt < n
        invariant channel.sent == old(channel.sent) + (if noAck then [] else Nacks(all[..if closesAt < n then closesAt else n]))
        invariant n > 0 && !noAck && closesAt > 0 ==> channel.basicNack
        invariant !noAck ==> stopsAt >= if closesAt < n then closesAt else n
        decreases |buffer|
      {
        if n == closesAt {
          channel.isClosed := true;
        }
        var deliveryTag := buffer[0];
        buffer := buffer[1..];
        NacksGrow(all, n);
        if !channel.isClosed && !noAck {
          if !channel.basicNack {
            assert n == 0 && Nacks(all[..n]) == [];
            return RaisedUnsupported;
          }
          channel.sent := channel.sent + [S.BasicNack(deliveryTag, false, true)];
          if n == stopsAt {
            return Interrupted;
          }
        }
        n := n + 1;
      }
      assert all[..n] == all;
      r := ClosedNow;
    }
  }

  function TagsOf(frames: seq<S.Frame>): seq<nat> { seq(|frames|, k requires 0 <= k < |frames| => frames[k].tag) }

  /** An iterator that is closed, used again and closed again raises: its first close took its
      callback away. */
  method CloseTwice(it: QueueIterator, first: nat, second: nat) returns (r: CloseResult)
    requires it.consumerTag == None && it.registered && !it.channel.isClosed && it.buffer == [] && it.channel.basicNack
    modifies it, it.channel
    ensures r.RaisedUnregistered?
  {
    var raised := it.Consume(Some(first));
    r := it.Close([], false, 0, 0);
    raised := it.Consume(Some(second));
    r := it.Close([], false, 0, 0);
  }

  /** A drain of the object on a channel that stays open is, frame by frame, what the machine of
      several iterators requeues by the closing steps of this iterator alone. */
  method DrainIsTheMachines(it: QueueIterator, ghost s: I.State, ghost i: I.Iter) returns (ghost acts: seq<I.Action>)
    requires I.Inv(s) && I.In(s, i, I.Draining) && it.buffer == s.iters[i].buffer
    requires !it.noAck && !it.channel.isClosed && it.channel.basicNack
    modifies it`buffer, it.channel`isClosed, it.channel`sent
    ensures I.Legal(s, acts) && forall a :: a in acts ==> IteratorSafety.ClosingStep(a, i)
    ensures I.In(I.After(s, acts), i, I.Closed) && it.buffer == []
    ensures old(it.channel.sent) <= it.channel.sent
    ensures I.After(s, acts).requeued == s.requeued + TagsOf(it.channel.sent[|old(it.channel.sent)|..])
  {
    acts := IteratorSafety.DrainEmptiesTheBuffer(s, i);
    var r := it.Drain(|it.buffer|, |it.buffer|);
    assert it.channel.sent[|old(it.channel.sent)|..] == Nacks(s.iters[i].buffer);
    assert TagsOf(Nacks(s.iters[i].buffer)) == s.iters[i].buffer;
  }

  lemma NacksGrow(tags: seq<nat>, n: nat)
    requires n < |tags|
    ensures Nacks(tags[..n + 1]) == Nacks(tags[..n]) + [S.BasicNack(tags[n], false, true)]
  {
  }
}
