/** Several queue iterators consuming in acknowledge mode on one open channel. */
module IteratorMachine {

  type Iter = nat  // an iterator, and its consumer at the broker
  type Tag = nat   // delivery tag
  type Msg = nat

  datatype Phase = Consuming | Cancelling | Draining | Closed
  datatype Iterator = Iterator(phase: Phase, buffer: seq<Tag>)
  datatype Delivery = Delivery(msg: Msg, iter: Iter)

  datatype State = State(
    ready: multiset<Msg>,            // in the broker's queues
    consumers: set<Iter>,            // consumers the broker still delivers to
    outstanding: map<Tag, Delivery>, // delivered and not settled
    nextTag: Tag,
    iters: map<Iter, Iterator>,
    owner: map<Tag, Iter>,           // history: who each tag was delivered to
    yielded: set<Tag>,               // history: tags handed to the application
    requeued: seq<Tag>,              // history: tags nacked by closing iterators, in order
    gone: multiset<Msg>)             // history: messages acked or dropped by the application

  function Start(messages: multiset<Msg>): State {
    State(messages, {}, map[], 1, map[], map[], {}, [], multiset{})
  }

  datatype Action =
    | Open(iter: Iter)
    | Deliver(iter: Iter, msg: Msg)
    | Yield(iter: Iter)
    | Settle(tag: Tag, requeue: bool)
    | Close(iter: Iter)
    | BrokerCancels(iter: Iter)
    | CancelOk(iter: Iter)
    | NackNext(iter: Iter)
    | Finish(iter: Iter)

  predicate In(s: State, i: Iter, p: Phase) { i in s.iters && s.iters[i].phase == p }

  predicate Buffered(s: State, i: Iter) { i in s.iters && s.iters[i].buffer != [] && s.iters[i].buffer[0] in s.outstanding }

  predicate Enabled(s: State, a: Action) {
    match a
    case Open(i) => i !in s.iters
    case Deliver(i, m) => i in s.consumers && i in s.iters && m in s.ready
    case Yield(i) => Buffered(s, i)
    case Settle(t, _) => t in s.yielded && t in s.outstanding
    case Close(i) => In(s, i, Consuming)
    case BrokerCancels(i) => In(s, i, Cancelling) && i in s.consumers
    case CancelOk(i) => In(s, i, Cancelling) && i !in s.consumers
    case NackNext(i) => In(s, i, Draining) && Buffered(s, i)
    case Finish(i) => In(s, i, Draining) && s.iters[i].buffer == []
  }

  function WithPhase(s: State, i: Iter, p: Phase): State
    requires i in s.iters
  {
    s.(iters := s.iters[i := s.iters[i].(phase := p)])
  }

  function PopFront(s: State, i: Iter): State
    requires i in s.iters && s.iters[i].buffer != []
  {
    s.(iters := s.iters[i := s.iters[i].(buffer := s.iters[i].buffer[1..])])
  }

  function Next(s: State, a: Action): State
    requires Enabled(s, a)
  {
    match a
    case Open(i) => s.(iters := s.iters[i := Iterator(Consuming, [])], consumers := s.consumers + {i})
    case Deliver(i, m) =>
      s.(ready := s.ready - multiset{m},
         outstanding := s.outstanding[s.nextTag := Delivery(m, i)],
         owner := s.owner[s.nextTag := i],
         nextTag := s.nextTag + 1,
         iters := s.iters[i := s.iters[i].(buffer := s.iters[i].buffer + [s.nextTag])])
    case Yield(i) => PopFront(s, i).(yielded := s.yielded + {s.iters[i].buffer[0]})
    case Settle(t, requeue) =>
      var m := s.outstanding[t].msg;
      if requeue then s.(outstanding := s.outstanding - {t}, ready := s.ready + multiset{m})
      else s.(outstanding := s.outstanding - {t}, gone := s.gone + multiset{m})
    case Close(i) => WithPhase(s, i, Cancelling)
    case BrokerCancels(i) => s.(consumers := s.consumers - {i})
    case CancelOk(i) => WithPhase(s, i, Draining)
    case NackNext(i) =>
      var t := s.iters[i].buffer[0];
      PopFront(s, i).(outstanding := s.outstanding - {t}, ready := s.ready + multiset{s.outstanding[t].msg},
                      requeued := s.requeued + [t])
    case Finish(i) => WithPhase(s, i, Closed)
  }

  predicate Legal(s: State, acts: seq<Action>)
    decreases |acts|
  {
    acts == [] || (Enabled(s, acts[0]) && Legal(Next(s, acts[0]), acts[1..]))
  }

  function After(s: State, acts: seq<Action>): State
    requires Legal(s, acts)
    decreases |acts|
  {
    if acts == [] then s else After(Next(s, acts[0]), acts[1..])
  }

  // -------------------------------------------------------------------------------------
  // Invariant

  predicate InBuffer(s: State, i: Iter, t: Tag) { i in s.iters && t in s.iters[i].buffer }

  /** Tags are handed out once, and remember whom they went to. */
  ghost predicate Numbered(s: State) {
    && (forall t :: t in s.owner ==> t < s.nextTag)
    && (forall t :: t in s.outstanding ==> t in s.owner && s.owner[t] == s.outstanding[t].iter)
    && (forall t :: t in s.yielded ==> t in s.owner)
    && (forall t :: t in s.requeued ==> t in s.owner)
  }

  /** Every tag ever delivered is in exactly one place: its owner's buffer, the application's
      hands, or the list of requeued tags; and it is in each at most once. */
  ghost predicate Partitioned(s: State) {
    && (forall i, t :: InBuffer(s, i, t) ==> t in s.owner && s.owner[t] == i && t in s.outstanding)
    && (forall i, t :: InBuffer(s, i, t) ==> t !in s.yielded && t !in s.requeued)
    && (forall t :: t in s.requeued ==> t !in s.yielded && t !in s.outstanding)
    && (forall t :: t in s.owner ==> InBuffer(s, s.owner[t], t) || t in s.yielded || t in s.requeued)
    && (forall i :: i in s.iters ==> Once(s.iters[i].buffer))
    && Once(s.requeued)
  }

  predicate Once(tags: seq<Tag>) { forall j, k :: 0 <= j < k < |tags| ==> tags[j] != tags[k] }

  ghost predicate Phased(s: State) {
    && (forall i :: i in s.consumers ==> i in s.iters && (s.iters[i].phase.Consuming? || s.iters[i].phase.Cancelling?))
    && (forall i :: i in s.iters && s.iters[i].phase.Closed? ==> s.iters[i].buffer == [])
  }

  ghost predicate Inv(s: State) { Numbered(s) && Partitioned(s) && Phased(s) }
}
