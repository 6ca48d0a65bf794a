/** Who gets what, and in which order: the idle queue and the lock are first come first served. */
module PoolOrder {
  import opened PoolMachine
  import PoolSafety

  // -------------------------------------------------------------------------------------
  // The idle queue

  /** The task that a step gives an idle item to, if any. */
  function Receiver(p: Pool, a: Action): seq<Ctx>
    requires Enabled(p, a)
  {
    match a
    case Acquire(t) => if t in Next(p, a).held then [t] else []
    case TakeIdle(t) => [t]
    case TakeIdleLocked => [p.holder.ctx]
    case GrantLock => if p.lockQueue[0].ctx in Next(p, a).held && p.lockQueue[0].ctx !in p.held then [p.lockQueue[0].ctx] else []
    case _ => []
  }

  /** The item it gets. */
  function HandedOut(p: Pool, a: Action): seq<Item>
    requires Enabled(p, a)
  {
    if Receiver(p, a) != [] && Receiver(p, a)[0] in Next(p, a).held then [Next(p, a).held[Receiver(p, a)[0]]] else []
  }

  /** The item that a step puts back. */
  function PutIn(p: Pool, a: Action): seq<Item>
    requires Enabled(p, a)
  {
    if a.Release? && !p.closed then [p.held[a.ctx]] else []
  }

  function AllHandedOut(p: Pool, acts: seq<Action>): seq<Item>
    requires Legal(p, acts)
    decreases |acts|
  {
    if acts == [] then [] else HandedOut(p, acts[0]) + AllHandedOut(Next(p, acts[0]), acts[1..])
  }

  function AllPutIn(p: Pool, acts: seq<Action>): seq<Item>
    requires Legal(p, acts)
    decreases |acts|
  {
    if acts == [] then [] else PutIn(p, acts[0]) + AllPutIn(Next(p, acts[0]), acts[1..])
  }

  lemma TakingStep(p: Pool, a: Action, t: Ctx)
    requires t !in p.held && Enabled(p, a) && a in {Acquire(t), TakeIdle(t)} && (a == Acquire(t) ==> t in Next(p, a).held)
    ensures HandedOut(p, a) + Next(p, a).items == p.items
  {
  }

  lemma LockedTakingStep(p: Pool, a: Action)
    requires Placed(p) && Enabled(p, a) && (a == GrantLock || a == TakeIdleLocked)
    ensures HandedOut(p, a) + Next(p, a).items == p.items
  {
  }

  lemma QueueStep(p: Pool, a: Action)
    requires Placed(p) && Enabled(p, a)
    ensures p.items + PutIn(p, a) == HandedOut(p, a) + Next(p, a).items
  {
    match a
    case Acquire(t) => if t in Next(p, a).held { TakingStep(p, a, t); }
    case TakeIdle(t) => TakingStep(p, a, t);
    case GrantLock => LockedTakingStep(p, a);
    case TakeIdleLocked => LockedTakingStep(p, a);
    case Release(t) =>
    case _ =>
  }

  lemma PlacedStays(p: Pool, a: Action)
    requires Placed(p) && Enabled(p, a)
    ensures Placed(Next(p, a))
  {
    PoolSafety.PlacedStep(p, a);
  }

  lemma Joined(idle: seq<Item>, put: seq<Item>, out: seq<Item>, idle': seq<Item>, puts: seq<Item>, outs: seq<Item>, idle'': seq<Item>)
    requires idle + put == out + idle' && idle' + puts == outs + idle''
    ensures idle + (put + puts) == (out + outs) + idle''
  {
    assert idle + (put + puts) == (idle + put) + puts;
    assert (out + idle') + puts == out + (idle' + puts);
    assert out + (outs + idle'') == (out + outs) + idle'';
  }

  /** First in, first out: over any run, what was idle and then put in is what was handed out,
      in that order, and then what is idle now. */
  lemma {:induction false} IdleQueueIsFifo(p: Pool, acts: seq<Action>)
    requires Placed(p) && Legal(p, acts)
    ensures p.items + AllPutIn(p, acts) == AllHandedOut(p, acts) + After(p, acts).items
    decreases |acts|
  {
    if acts == [] {
    } else {
      var q, rest := Next(p, acts[0]), acts[1..];
      QueueStep(p, acts[0]);
      PlacedStays(p, acts[0]);
      IdleQueueIsFifo(q, rest);
      Joined(p.items, PutIn(p, acts[0]), HandedOut(p, acts[0]), q.items, AllPutIn(q, rest), AllHandedOut(q, rest), After(q, rest).items);
    }
  }

  // -------------------------------------------------------------------------------------
  // The lock

  /** How many requests are ahead of a task's. */
  function Ahead(queue: seq<Request>, t: Ctx): nat
    requires t in Queued(queue)
  {
    if queue[0].ctx == t then 0 else 1 + Ahead(queue[1..], t)
  }

  lemma {:induction false} AheadInLonger(queue: seq<Request>, r: Request, t: Ctx)
    requires t in Queued(queue)
    ensures t in Queued(queue + [r]) && Ahead(queue + [r], t) == Ahead(queue, t)
  {
    assert (queue + [r])[0] == queue[0] && (queue + [r])[1..] == queue[1..] + [r];
    if queue[0].ctx == t {
    } else {
      AheadInLonger(queue[1..], r, t);
    }
  }

  lemma {:induction false} AheadWithout(queue: seq<Request>, u: Ctx, t: Ctx)
    requires Distinct(queue) && t in Queued(queue) && t != u
    ensures t in Queued(Without(queue, u)) && Ahead(Without(queue, u), t) <= Ahead(queue, t)
  {
    if queue[0].ctx == u {
    } else if queue[0].ctx == t {
    } else {
      AheadWithout(queue[1..], u, t);
      assert Without(queue, u)[1..] == Without(queue[1..], u);
    }
  }

  /** Nobody overtakes: a request in the lock's queue only moves forward, and leaves it only by
      being cancelled, or by being granted the lock when nobody is ahead of it. */
  lemma NobodyOvertakes(p: Pool, a: Action, t: Ctx)
    requires Placed(p) && Enabled(p, a) && t in Queued(p.lockQueue)
    ensures t in Queued(Next(p, a).lockQueue) ==> Ahead(Next(p, a).lockQueue, t) <= Ahead(p.lockQueue, t)
    ensures t !in Queued(Next(p, a).lockQueue) <==> a == Cancel(t) || (a == GrantLock && Ahead(p.lockQueue, t) == 0)
    ensures a == GrantLock && Ahead(p.lockQueue, t) > 0 ==> Ahead(Next(p, a).lockQueue, t) == Ahead(p.lockQueue, t) - 1
  {
    match a
    case Acquire(u) => AheadInLonger(p.lockQueue, Getter(u), t);
    case Close(u) => AheadInLonger(p.lockQueue, Closer(u), t);
    case Cancel(u) =>
      PoolSafety.WithoutFacts(p.lockQueue, u);
      if u != t { AheadWithout(p.lockQueue, u, t); }
    case GrantLock => case TakeIdle(_) => case TakeIdleLocked => case Construct(_) =>
    case ConstructFail => case Release(_) => case CloseDone =>
  }
}
