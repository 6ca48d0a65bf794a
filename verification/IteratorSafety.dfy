/** Closing an iterator gives back exactly what it never yielded, and nothing else. */
module IteratorSafety {
  import opened IteratorMachine

  lemma NumberedStep(s: State, a: Action)
    requires Numbered(s) && Partitioned(s) && Enabled(s, a)
    ensures Numbered(Next(s, a))
  {
    match a {
      case Yield(i) => assert InBuffer(s, i, s.iters[i].buffer[0]);
      case NackNext(i) => assert InBuffer(s, i, s.iters[i].buffer[0]);
      case _ =>
    }
  }

  lemma PhasedStep(s: State, a: Action)
    requires Phased(s) && Enabled(s, a)
    ensures Phased(Next(s, a))
  {
    match a
    case Open(_) => case Deliver(_, _) => case Yield(_) => case Settle(_, _) => case Close(_) =>
    case BrokerCancels(_) => case CancelOk(_) => case NackNext(_) => case Finish(_) =>
  }

  lemma DeliverPartitions(s: State, i: Iter, m: Msg)
    requires Numbered(s) && Partitioned(s) && Enabled(s, Deliver(i, m))
    ensures Partitioned(Next(s, Deliver(i, m)))
  {
    var r := Next(s, Deliver(i, m));
    assert s.nextTag !in s.owner;
    forall j, t ensures InBuffer(r, j, t) <==> InBuffer(s, j, t) || (j == i && t == s.nextTag) {
    }
    assert s.nextTag !in s.iters[i].buffer by { assert !InBuffer(s, i, s.nextTag); }
    assert Once(r.iters[i].buffer);
  }

  lemma PopFacts(s: State, i: Iter)
    requires Partitioned(s) && i in s.iters && s.iters[i].buffer != []
    ensures var t := s.iters[i].buffer[0];
      && InBuffer(s, i, t)
      && (forall j, u :: InBuffer(PopFront(s, i), j, u) <==> InBuffer(s, j, u) && (j != i || u != t))
      && Once(PopFront(s, i).iters[i].buffer)
      && (forall j :: InBuffer(s, j, t) ==> j == i)
  {
    var buffer := s.iters[i].buffer;
    assert buffer == [buffer[0]] + buffer[1..];
    assert InBuffer(s, i, buffer[0]);
  }

  lemma YieldPartitions(s: State, i: Iter)
    requires Numbered(s) && Partitioned(s) && Enabled(s, Yield(i))
    ensures Partitioned(Next(s, Yield(i)))
  {
    PopFacts(s, i);
    var r := Next(s, Yield(i));
    assert forall j, u :: InBuffer(r, j, u) <==> InBuffer(PopFront(s, i), j, u);
  }

  lemma NackPartitions(s: State, i: Iter)
    requires Numbered(s) && Partitioned(s) && Enabled(s, NackNext(i))
    ensures Partitioned(Next(s, NackNext(i)))
  {
    PopFacts(s, i);
    var r, t := Next(s, NackNext(i)), s.iters[i].buffer[0];
    assert forall j, u :: InBuffer(r, j, u) <==> InBuffer(PopFront(s, i), j, u);
    assert forall u :: u in r.requeued <==> u in s.requeued || u == t;
  }

  lemma SettlePartitions(s: State, a: Action)
    requires Partitioned(s) && a.Settle? && Enabled(s, a)
    ensures Partitioned(Next(s, a))
  {
    assert forall j, u :: InBuffer(Next(s, a), j, u) <==> InBuffer(s, j, u);
  }

  lemma PhasePartitions(s: State, a: Action)
    requires Partitioned(s) && Enabled(s, a) && !a.Deliver? && !a.Yield? && !a.NackNext? && !a.Settle?
    ensures Partitioned(Next(s, a))
  {
    assert forall j, u :: InBuffer(Next(s, a), j, u) <==> InBuffer(s, j, u);
  }

  lemma StepKeepsInv(s: State, a: Action)
    requires Inv(s) && Enabled(s, a)
    ensures Inv(Next(s, a))
  {
    NumberedStep(s, a);
    PhasedStep(s, a);
    match a {
      case Deliver(i, m) => DeliverPartitions(s, i, m);
      case Yield(i) => YieldPartitions(s, i);
      case NackNext(i) => NackPartitions(s, i);
      case Settle(_, _) => SettlePartitions(s, a);
      case _ => PhasePartitions(s, a);
    }
  }

  lemma {:induction false} RunKeepsInv(s: State, acts: seq<Action>)
    requires Inv(s) && Legal(s, acts)
    ensures Inv(After(s, acts))
    decreases |acts|
  {
    if acts == [] {
    } else {
      StepKeepsInv(s, acts[0]);
      RunKeepsInv(Next(s, acts[0]), acts[1..]);
    }
  }

  function Times(tags: seq<Tag>, t: Tag): nat { multiset(tags)[t] }

  lemma {:induction false} OnceIsOnce(tags: seq<Tag>, t: Tag)
    requires Once(tags)
    ensures Times(tags, t) == if t in tags then 1 else 0
    decreases |tags|
  {
    if tags == [] {
    } else {
      var rest := tags[1..];
      assert tags == [tags[0]] + rest;
      assert multiset(tags) == multiset{tags[0]} + multiset(rest);
      OnceIsOnce(rest, t);
    }
  }

  /** Close conserves and partitions: in every reachable state where iterator i is closed, a
      delivery to i was requeued, exactly once, if it was never yielded, and not at all if it
      was; this includes what arrived while the cancel was in flight. */
  lemma ClosedIteratorGaveBackTheRest(messages: multiset<Msg>, acts: seq<Action>, i: Iter, t: Tag)
    requires Legal(Start(messages), acts)
    requires In(After(Start(messages), acts), i, Closed)
    requires t in After(Start(messages), acts).owner && After(Start(messages), acts).owner[t] == i
    ensures var s := After(Start(messages), acts);
      && Times(s.requeued, t) == (if t in s.yielded then 0 else 1)
      && (t !in s.yielded ==> t !in s.outstanding)
  {
    RunKeepsInv(Start(messages), acts);
    var s := After(Start(messages), acts);
    OnceIsOnce(s.requeued, t);
    assert !InBuffer(s, i, t);
  }

  /** The steps by which i closes. */
  predicate ClosingStep(a: Action, i: Iter) {
    a == Close(i) || a == BrokerCancels(i) || a == CancelOk(i) || a == NackNext(i) || a == Finish(i)
  }

  /** They touch no delivery that is another iterator's or already yielded. */
  lemma ClosingTouchesOnlyItsOwn(s: State, a: Action, i: Iter, t: Tag)
    requires Inv(s) && Enabled(s, a) && ClosingStep(a, i)
    requires t in s.outstanding && (s.outstanding[t].iter != i || t in s.yielded)
    ensures t in Next(s, a).outstanding && Next(s, a).outstanding[t] == s.outstanding[t]
    ensures forall j :: j in s.iters && j != i ==> Next(s, a).iters[j] == s.iters[j]
  {
    if a == NackNext(i) { assert InBuffer(s, i, s.iters[i].buffer[0]); }
  }

  // -------------------------------------------------------------------------------------
  // No message is lost or doubled

  function Holding(m: map<Tag, Delivery>, x: Msg): set<Tag> { set t | t in m && m[t].msg == x }

  /** How many copies of a message there are, wherever they are. */
  function Copies(s: State, x: Msg): nat { s.ready[x] + |Holding(s.outstanding, x)| + s.gone[x] }

  lemma TakeOne(m: map<Tag, Delivery>, t: Tag, x: Msg)
    requires t in m
    ensures |Holding(m - {t}, x)| + (if m[t].msg == x then 1 else 0) == |Holding(m, x)|
  {
    assert Holding(m - {t}, x) == Holding(m, x) - {t};
  }

  lemma AddOne(m: map<Tag, Delivery>, t: Tag, d: Delivery, x: Msg)
    requires t !in m
    ensures |Holding(m[t := d], x)| == |Holding(m, x)| + (if d.msg == x then 1 else 0)
  {
    assert Holding(m[t := d], x) == Holding(m, x) + (if d.msg == x then {t} else {});
  }

  lemma StepConserves(s: State, a: Action, x: Msg)
    requires Numbered(s) && Enabled(s, a)
    ensures Copies(Next(s, a), x) == Copies(s, x)
  {
    match a {
      case Deliver(i, m) =>
        assert s.nextTag !in s.outstanding;
        AddOne(s.outstanding, s.nextTag, Delivery(m, i), x);
      case Settle(t, _) => TakeOne(s.outstanding, t, x);
      case NackNext(i) => TakeOne(s.outstanding, s.iters[i].buffer[0], x);
      case _ =>
    }
  }

  /** Whatever the iterators, the broker and the application do, every message is ready,
      outstanding or settled by the application: none is lost and none appears twice. */
  lemma {:induction false} MessagesAreConserved(s: State, acts: seq<Action>, x: Msg)
    requires Inv(s) && Legal(s, acts)
    ensures Copies(After(s, acts), x) == Copies(s, x)
    decreases |acts|
  {
    if acts == [] {
    } else {
      StepKeepsInv(s, acts[0]);
      StepConserves(s, acts[0], x);
      MessagesAreConserved(Next(s, acts[0]), acts[1..], x);
    }
  }

  lemma NackStep(s: State, i: Iter)
    requires Partitioned(s) && In(s, i, Draining) && s.iters[i].buffer != []
    ensures Enabled(s, NackNext(i))
    ensures var r := Next(s, NackNext(i));
      && In(r, i, Draining)
      && r.iters[i].buffer == s.iters[i].buffer[1..]
      && r.requeued + r.iters[i].buffer == s.requeued + s.iters[i].buffer
  {
    assert InBuffer(s, i, s.iters[i].buffer[0]);
    assert s.iters[i].buffer == [s.iters[i].buffer[0]] + s.iters[i].buffer[1..];
  }

  lemma Prepend(s: State, a: Action, acts: seq<Action>)
    requires Enabled(s, a) && Legal(Next(s, a), acts)
    ensures Legal(s, [a] + acts) && After(s, [a] + acts) == After(Next(s, a), acts)
  {
    assert ([a] + acts)[1..] == acts;
  }

  /** Once the broker confirmed the cancel, i closes in as many steps as its buffer holds,
      plus one, and requeues the buffer in order. */
  lemma {:induction false} DrainEmptiesTheBuffer(s: State, i: Iter) returns (acts: seq<Action>)
    requires Inv(s) && In(s, i, Draining)
    ensures Legal(s, acts) && |acts| == |s.iters[i].buffer| + 1
    ensures In(After(s, acts), i, Closed) && After(s, acts).requeued == s.requeued + s.iters[i].buffer
    ensures forall a :: a in acts ==> ClosingStep(a, i)
    decreases |s.iters[i].buffer|
  {
    if s.iters[i].buffer == [] {
      Prepend(s, Finish(i), []);
      acts := [Finish(i)] + [];
    } else {
      NackStep(s, i);
      StepKeepsInv(s, NackNext(i));
      var rest := DrainEmptiesTheBuffer(Next(s, NackNext(i)), i);
      Prepend(s, NackNext(i), rest);
      acts := [NackNext(i)] + rest;
    }
  }

  /** A buffer is in the order of delivery. */
  ghost predicate Ordered(s: State) {
    && (forall i, k :: i in s.iters && 0 <= k < |s.iters[i].buffer| ==> s.iters[i].buffer[k] < s.nextTag)
    && (forall i, j, k :: i in s.iters && 0 <= j < k < |s.iters[i].buffer| ==> s.iters[i].buffer[j] < s.iters[i].buffer[k])
  }

  lemma OrderedStep(s: State, a: Action)
    requires Ordered(s) && Enabled(s, a)
    ensures Ordered(Next(s, a))
  {
    match a
    case Open(_) => case Deliver(_, _) => case Yield(_) => case Settle(_, _) => case Close(_) =>
    case BrokerCancels(_) => case CancelOk(_) => case NackNext(_) => case Finish(_) =>
  }

  /** So an iterator yields, and a closing one gives back, in the order of delivery: what is first
      in its buffer was delivered before all the rest. */
  lemma {:induction false} BuffersStayInOrder(s: State, acts: seq<Action>)
    requires Ordered(s) && Legal(s, acts)
    ensures Ordered(After(s, acts))
    decreases |acts|
  {
    if acts == [] {
    } else {
      OrderedStep(s, acts[0]);
      BuffersStayInOrder(Next(s, acts[0]), acts[1..]);
    }
  }

  /** What the application settles goes back to the queue, or is gone, as it asks. */
  lemma SettledGoesWhereAsked(s: State, t: Tag, requeue: bool)
    requires Enabled(s, Settle(t, requeue))
    ensures var r, m := Next(s, Settle(t, requeue)), s.outstanding[t].msg;
      && t !in r.outstanding
      && r.ready == (if requeue then s.ready + multiset{m} else s.ready)
      && r.gone == (if requeue then s.gone else s.gone + multiset{m})
  {
  }

  /** An open iterator is delivered to until the broker has cancelled its consumer, while it waits
      for the confirmation too, and not afterwards. */
  lemma DeliveredUntilCancelled(s: State, i: Iter, m: Msg)
    requires Phased(s) && i in s.iters && m in s.ready
    ensures Enabled(s, Deliver(i, m)) <==> i in s.consumers
    ensures i in s.consumers && In(s, i, Consuming) ==> Enabled(s, Close(i)) && Enabled(Next(s, Close(i)), Deliver(i, m))
    ensures i in s.consumers && In(s, i, Cancelling) ==>
      Enabled(s, BrokerCancels(i)) && !Enabled(Next(s, BrokerCancels(i)), Deliver(i, m)) && Enabled(Next(s, BrokerCancels(i)), CancelOk(i))
  {
  }

  lemma OpenedIsDeliveredTo(s: State, i: Iter, m: Msg)
    requires i !in s.iters && m in s.ready
    ensures Enabled(s, Open(i)) && In(Next(s, Open(i)), i, Consuming) && Enabled(Next(s, Open(i)), Deliver(i, m))
  {
  }

  /** A close that is asked for gets through in three steps and the drain, and gives back in order
      what the buffer held, if nothing arrives meanwhile. */
  lemma CloseGetsThrough(s: State, i: Iter) returns (acts: seq<Action>)
    requires Inv(s) && In(s, i, Consuming) && i in s.consumers
    ensures Legal(s, acts) && |acts| == |s.iters[i].buffer| + 4 && forall a :: a in acts ==> ClosingStep(a, i)
    ensures In(After(s, acts), i, Closed) && i !in After(s, acts).consumers
    ensures After(s, acts).requeued == s.requeued + s.iters[i].buffer
  {
    var s1 := Next(s, Close(i));
    StepKeepsInv(s, Close(i));
    var s2 := Next(s1, BrokerCancels(i));
    StepKeepsInv(s1, BrokerCancels(i));
    var s3 := Next(s2, CancelOk(i));
    StepKeepsInv(s2, CancelOk(i));
    var rest := DrainEmptiesTheBuffer(s3, i);
    ConsumersOfDrain(s3, i, rest);
    Prepend(s2, CancelOk(i), rest);
    Prepend(s1, BrokerCancels(i), [CancelOk(i)] + rest);
    Prepend(s, Close(i), [BrokerCancels(i)] + ([CancelOk(i)] + rest));
    acts := [Close(i)] + ([BrokerCancels(i)] + ([CancelOk(i)] + rest));
  }

  lemma {:induction false} ConsumersOfDrain(s: State, i: Iter, acts: seq<Action>)
    requires Legal(s, acts) && forall a :: a in acts ==> ClosingStep(a, i)
    ensures After(s, acts).consumers <= s.consumers
    decreases |acts|
  {
    if acts == [] {
    } else {
      assert acts[0] in acts;
      ConsumersOfDrain(Next(s, acts[0]), i, acts[1..]);
    }
  }
}
