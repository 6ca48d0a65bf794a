/** The pool object itself.  Each method is one atomic stretch of the source; its contract
    equates the whole new state with a step of `PoolMachine`, so every run theorem about
    the machine, its invariant first of all, is a theorem about the object. */
module PoolObject {
  import M = PoolMachine

  class Pool {
    const maxSize: nat
    var closed: bool
    var created: nat
    var itemSet: set<M.Item>
    var items: seq<M.Item>
    var lock: M.Holder
    var lockQueue: seq<M.Request>
    var waiters: set<M.Ctx>
    var held: map<M.Ctx, M.Item>
    var closes: nat
    var closeCalls: multiset<M.Item>

    function State(): M.Pool
      reads this
    {
      M.Pool(maxSize, closed, created, itemSet, items, lock, lockQueue, waiters, held, closes, closeCalls)
    }

    constructor (maxSize: nat)
      ensures State() == M.Empty(maxSize)
    {
      this.maxSize := maxSize;
      closed, created, itemSet, items := false, 0, {}, [];
      lock, lockQueue, waiters, held := M.Free, [], {}, map[];
      closes, closeCalls := 0, multiset{};
    }

    method IsOverflow() returns (overflow: bool)
      ensures overflow <==> ((maxSize != 0 && created >= maxSize) || items != [])
    {
      if maxSize != 0 {
        overflow := created >= maxSize || |items| > 0;
      } else {
        overflow := |items| > 0;
      }
    }

    /** `__aenter__`, up to its first suspension. */
    method Acquire(t: M.Ctx) returns (raised: bool)
      requires M.Enabled(State(), M.Acquire(t))
      modifies this
      ensures State() == M.Next(old(State()), M.Acquire(t))
      ensures raised <==> old(closed)
      ensures raised ==> State() == old(State())
    {
      if closed {
        return true;
      }
      raised := false;
      var overflow := IsOverflow();
      if overflow {
        if items == [] {
          waiters := waiters + {t};
        } else {
          items, held := items[1..], held[t := items[0]];
        }
      } else if lock.Free? && lockQueue == [] {
        CreateItem(t);
      } else {
        lockQueue := lockQueue + [M.Getter(t)];
      }
    }

    /** `_create_item` from the moment it owns the lock. */
    method CreateItem(t: M.Ctx)
      requires lock.Free?
      modifies this
      ensures State() == M.GetLocked(old(State()), t)
    {
      var overflow := IsOverflow();
      if !overflow {
        lock := M.Constructing(t);
      } else if items == [] {
        lock := M.AwaitingItem(t);
      } else {
        items, held := items[1..], held[t := items[0]];
      }
    }

    /** `close`, up to its first suspension. */
    method Close(t: M.Ctx)
      requires M.Enabled(State(), M.Close(t))
      modifies this
      ensures State() == M.Next(old(State()), M.Close(t))
    {
      if lock.Free? && lockQueue == [] {
        Sweep(t);
      } else {
        lockQueue := lockQueue + [M.Closer(t)];
      }
    }

    /** `close` from the moment it owns the lock: one close task per constructed item. */
    method Sweep(t: M.Ctx)
      requires lock.Free?
      modifies this
      ensures State() == M.SweepLocked(old(State()), t)
    {
      closed := true;
      var tasks := multiset{};
      var rest := itemSet;
      while rest != {}
        modifies {}
        invariant rest <= itemSet
        invariant tasks + multiset(rest) == multiset(itemSet)
      {
        var item :| item in rest;
        tasks, rest := tasks + multiset{item}, rest - {item};
      }
      closes, closeCalls := closes + 1, closeCalls + tasks;
      if itemSet != {} {
        lock := M.Closing(t);
      }
    }

    /** The head of the lock queue wakes up owning the lock. */
    method LockGranted()
      requires M.Enabled(State(), M.GrantLock)
      modifies this
      ensures State() == M.Next(old(State()), M.GrantLock)
    {
      var request := lockQueue[0];
      lockQueue := lockQueue[1..];
      match request
      case Getter(t) => CreateItem(t);
      case Closer(t) => Sweep(t);
    }

    /** A task suspended on the idle queue finds an item there. */
    method ItemReady(t: M.Ctx)
      requires M.Enabled(State(), M.TakeIdle(t))
      modifies this
      ensures State() == M.Next(old(State()), M.TakeIdle(t))
    {
      waiters := waiters - {t};
      items, held := items[1..], held[t := items[0]];
    }

    /** The same for the task that waits while it owns the lock. */
    method ItemReadyUnderLock()
      requires M.Enabled(State(), M.TakeIdleLocked)
      modifies this
      ensures State() == M.Next(old(State()), M.TakeIdleLocked)
    {
      items, held := items[1..], held[lock.ctx := items[0]];
      lock := M.Free;
    }

    method ConstructorReturned(item: M.Item)
      requires M.Enabled(State(), M.Construct(item))
      modifies this
      ensures State() == M.Next(old(State()), M.Construct(item))
    {
      created := created + 1;
      itemSet := itemSet + {item};
      held := held[lock.ctx := item];
      lock := M.Free;
    }

    method ConstructorRaised()
      requires M.Enabled(State(), M.ConstructFail)
      modifies this
      ensures State() == M.Next(old(State()), M.ConstructFail)
    {
      lock := M.Free;
    }

    /** `__aexit__`: `put` raises on a closed pool, and the item is then neither idle nor held. */
    method Put(t: M.Ctx) returns (raised: bool)
      requires M.Enabled(State(), M.Release(t))
      modifies this
      ensures State() == M.Next(old(State()), M.Release(t))
      ensures raised <==> old(closed)
    {
      var item := held[t];
      held := held - {t};
      raised := closed;
      if !closed {
        items := items + [item];
      }
    }

    method CloseFinished()
      requires M.Enabled(State(), M.CloseDone)
      modifies this
      ensures State() == M.Next(old(State()), M.CloseDone)
    {
      lock := M.Free;
    }

    method Cancelled(t: M.Ctx)
      requires M.Enabled(State(), M.Cancel(t))
      modifies this
      ensures State() == M.Next(old(State()), M.Cancel(t))
    {
      if t in waiters {
        waiters := waiters - {t};
      } else if t in M.Queued(lockQueue) {
        lockQueue := M.Without(lockQueue, t);
      } else {
        lock := M.Free;
      }
    }
  }
}
