/** What a task that asks the pool for an item comes to, and how it leaves. */
module PoolOutcomes {
  import opened PoolMachine
  import opened PoolSafety

  /** The four things that can become of a task that enters a block. */
  predicate Refused(p: Pool, q: Pool) { q == p }
  predicate Gets(q: Pool, t: Ctx, x: Item) { t in q.held && q.held[t] == x && x !in q.items && t !in q.waiters && t !in Queued(q.lockQueue) }
  predicate Waits(q: Pool, t: Ctx) { t in q.waiters && t !in q.held }
  predicate Queues(q: Pool, t: Ctx) { q.lockQueue != [] && q.lockQueue[|q.lockQueue| - 1] == Getter(t) && t !in q.held }

  lemma FrontIsGone(items: seq<Item>)
    requires NoDuplicates(items) && items != []
    ensures items[0] !in items[1..]
  {
    assert forall k :: 0 < k < |items| ==> items[k] != items[0];
  }

  lemma QueuedFirst(queue: seq<Request>)
    requires queue != [] && Distinct(queue)
    ensures queue[0].ctx in Queued(queue) && queue[0].ctx !in Queued(queue[1..])
  {
  }

  /** On a closed pool it is refused.  Otherwise it gets the oldest idle item, if there is one; it
      waits for one if the bound is reached; and else it constructs an item, or queues on the lock
      if that is not free or others queue already. */
  lemma EntererComesTo(p: Pool, t: Ctx)
    requires NoDuplicates(p.items) && t !in Busy(p)
    ensures Enabled(p, Acquire(t))
    ensures var q := Next(p, Acquire(t));
      if p.closed then Refused(p, q)
      else if p.items != [] then Gets(q, t, p.items[0])
      else if p.maxSize != 0 && p.created >= p.maxSize then Waits(q, t)
      else if p.holder.Free? && p.lockQueue == [] then q == p.(holder := Constructing(t))
      else Queues(q, t)
  {
    if p.items != [] { FrontIsGone(p.items); }
  }

  /** A getter that is granted the lock gets the oldest idle item and gives the lock up again; or
      waits for one and keeps it, if the bound is reached; or constructs, keeping it too.  The
      closed flag does not matter any more. */
  lemma GrantedGetterComesTo(p: Pool, t: Ctx)
    requires NoDuplicates(p.items) && Distinct(p.lockQueue) && t !in p.waiters
    requires Enabled(p, GrantLock) && p.lockQueue[0] == Getter(t)
    ensures var q := Next(p, GrantLock);
      if p.items != [] then Gets(q, t, p.items[0]) && q.holder == Free
      else q.holder == if p.maxSize != 0 && p.created >= p.maxSize then AwaitingItem(t) else Constructing(t)
  {
    if p.items != [] { FrontIsGone(p.items); }
    QueuedFirst(p.lockQueue);
  }

  /** Whoever waits for an item is served by any that is put in, and then waits no more. */
  lemma WaiterIsServed(p: Pool, t: Ctx)
    requires Placed(p) && NoDuplicates(p.items) && p.items != []
    ensures t in p.waiters ==> Enabled(p, TakeIdle(t)) && Gets(Next(p, TakeIdle(t)), t, p.items[0])
    ensures p.holder == AwaitingItem(t) ==>
      Enabled(p, TakeIdleLocked) && Gets(Next(p, TakeIdleLocked), t, p.items[0]) && Next(p, TakeIdleLocked).holder == Free
  {
    FrontIsGone(p.items);
  }

  /** A constructor that returns gives its item to the task that called it; whether it returns or
      raises, the lock is free again. */
  lemma ConstructorEnds(p: Pool, t: Ctx, x: Item)
    requires Placed(p) && Conserved(p) && p.holder == Constructing(t) && x !in p.itemSet
    ensures Enabled(p, Construct(x)) && Gets(Next(p, Construct(x)), t, x)
    ensures Enabled(p, Construct(x)) && Next(p, Construct(x)).holder == Free && x in Next(p, Construct(x)).itemSet
    ensures Enabled(p, ConstructFail) && Next(p, ConstructFail) == p.(holder := Free)
  {
    assert p.items != [] ==> Members(p.items) <= p.itemSet;
    assert forall y :: y in p.items ==> y in Members(p.items);
  }

  /** A block can always be left, whether the pool is closed or not. */
  lemma HolderCanLeave(p: Pool, t: Ctx)
    requires t in p.held
    ensures Enabled(p, Release(t)) && t !in Next(p, Release(t)).held
    ensures Next(p, Release(t)).itemSet == p.itemSet && Next(p, Release(t)).created == p.created
  {
  }

  /** A task that is cancelled while it waits, for an item, for the lock, or for what it does under
      the lock, is gone from the pool; the items stay where they were, and a lock it owned is free. */
  lemma CancelledTaskIsGone(p: Pool, t: Ctx)
    requires Placed(p) && t in p.waiters + Queued(p.lockQueue) + Owner(p.holder)
    ensures Enabled(p, Cancel(t)) && t !in Busy(Next(p, Cancel(t)))
    ensures var q := Next(p, Cancel(t));
      && q.items == p.items && q.itemSet == p.itemSet && q.held == p.held && q.created == p.created && q.closed == p.closed
      && q.waiters == p.waiters - {t}
      && q.holder == if t in Owner(p.holder) then Free else p.holder
  {
    WithoutFacts(p.lockQueue, t);
  }

  /** Closing can always be asked for, again too. */
  lemma CloseCanBeAskedFor(p: Pool, t: Ctx)
    requires t !in Busy(p)
    ensures Enabled(p, Close(t))
    ensures var q := Next(p, Close(t));
      if p.holder.Free? && p.lockQueue == [] then q.closed && q.closes == p.closes + 1
      else q.lockQueue != [] && q.lockQueue[|q.lockQueue| - 1] == Closer(t) && q.closes == p.closes && q.closed == p.closed
  {
  }
}
