/** What every run of the pool keeps. */
module PoolSafety {
  import opened PoolMachine

  lemma {:induction false} WithoutFacts(queue: seq<Request>, t: Ctx)
    requires Distinct(queue)
    ensures Queued(Without(queue, t)) == Queued(queue) - {t}
    ensures Distinct(Without(queue, t))
  {
    if queue == [] {
    } else {
      WithoutFacts(queue[1..], t);
      if queue[0].ctx != t {
        assert Without(queue, t)[1..] == Without(queue[1..], t);
      }
    }
  }

  lemma {:induction false} EnqueueFacts(queue: seq<Request>, r: Request)
    requires Distinct(queue) && r.ctx !in Queued(queue)
    ensures Queued(queue + [r]) == Queued(queue) + {r.ctx}
    ensures Distinct(queue + [r])
  {
    if queue == [] {
    } else {
      EnqueueFacts(queue[1..], r);
      assert (queue + [r])[1..] == queue[1..] + [r];
    }
  }

  lemma LockedPlaced(p: Pool, r: Request)
    requires Placed(p) && p.holder.Free? && r.ctx !in Busy(p)
    ensures Placed(Locked(p, r))
  {
  }

  lemma RequestPlaced(p: Pool, r: Request)
    requires Placed(p) && r.ctx !in Busy(p)
    ensures Placed(RequestLock(p, r))
  {
    if p.holder.Free? && p.lockQueue == [] { LockedPlaced(p, r); } else { EnqueueFacts(p.lockQueue, r); }
  }

  lemma CancelPlaced(p: Pool, t: Ctx)
    requires Placed(p) && Enabled(p, Cancel(t))
    ensures Placed(Next(p, Cancel(t)))
  {
    WithoutFacts(p.lockQueue, t);
  }

  lemma PlacedStep(p: Pool, a: Action)
    requires Placed(p) && Enabled(p, a)
    ensures Placed(Next(p, a))
  {
    match a
    case Acquire(t) => RequestPlaced(p, Getter(t));
    case Close(t) => RequestPlaced(p, Closer(t));
    case GrantLock => LockedPlaced(p.(lockQueue := p.lockQueue[1..]), p.lockQueue[0]);
    case Cancel(t) => CancelPlaced(p, t);
    case _ =>
  }

  lemma StockTake(itemSet: set<Item>, items: seq<Item>, held: map<Ctx, Item>, open: bool, t: Ctx)
    requires Stock(itemSet, items, held, open) && items != [] && t !in held
    ensures Stock(itemSet, items[1..], held[t := items[0]], open)
  {
    HoldFacts(held, t, items[0]);
    assert Members(items[1..]) == Members(items) - {items[0]};
  }

  lemma StockConstruct(itemSet: set<Item>, items: seq<Item>, held: map<Ctx, Item>, open: bool, t: Ctx, x: Item)
    requires Stock(itemSet, items, held, open) && x !in itemSet && t !in held
    ensures Stock(itemSet + {x}, items, held[t := x], open)
  {
    HoldFacts(held, t, x);
  }

  lemma StockRelease(itemSet: set<Item>, items: seq<Item>, held: map<Ctx, Item>, open: bool, t: Ctx)
    requires Stock(itemSet, items, held, open) && t in held
    ensures Stock(itemSet, if open then items + [held[t]] else items, held - {t}, open)
  {
    DropFacts(held, t);
    assert held[t] in held.Values;
    assert Members(items + [held[t]]) == Members(items) + {held[t]};
  }

  lemma HoldFacts(m: map<Ctx, Item>, t: Ctx, x: Item)
    requires Injective(m) && t !in m && x !in m.Values
    ensures Injective(m[t := x]) && m[t := x].Values == m.Values + {x}
  {
    forall y | y in m.Values ensures y in m[t := x].Values {
      var u :| u in m && m[u] == y;
      assert m[t := x][u] == y;
    }
    assert m[t := x][t] == x;
  }

  lemma DropFacts(m: map<Ctx, Item>, t: Ctx)
    requires Injective(m) && t in m
    ensures Injective(m - {t}) && (m - {t}).Values == m.Values - {m[t]}
  {
    forall y | y in m.Values - {m[t]} ensures y in (m - {t}).Values {
      var u :| u in m && m[u] == y;
      assert (m - {t})[u] == y;
    }
  }

  lemma TakeConserved(p: Pool, t: Ctx)
    requires Conserved(p) && HasReleased(p) && t !in p.held
    ensures Conserved(TakeFirst(p, t))
  {
    StockTake(p.itemSet, p.items, p.held, !p.closed, t);
  }

  lemma LockedConserved(p: Pool, r: Request)
    requires Conserved(p) && r.ctx !in p.held
    ensures Conserved(Locked(p, r))
  {
    if HasReleased(p) { TakeConserved(p, r.ctx); }
  }

  lemma AcquireConserved(p: Pool, t: Ctx)
    requires Conserved(p) && t !in p.held
    ensures Conserved(Get(p, t))
  {
    if HasReleased(p) { TakeConserved(p, t); } else { LockedConserved(p, Getter(t)); }
  }

  lemma GrantConserved(p: Pool)
    requires Placed(p) && Conserved(p) && Enabled(p, GrantLock)
    ensures Conserved(Next(p, GrantLock))
  {
    LockedConserved(p.(lockQueue := p.lockQueue[1..]), p.lockQueue[0]);
  }

  lemma ItemReadyConserved(p: Pool, a: Action)
    requires Placed(p) && Conserved(p) && Enabled(p, a) && (a.TakeIdle? || a.TakeIdleLocked?)
    ensures Conserved(Next(p, a))
  {
    TakeConserved(p, if a.TakeIdle? then a.ctx else p.holder.ctx);
  }

  lemma ConstructConserved(p: Pool, x: Item)
    requires Placed(p) && Conserved(p) && Enabled(p, Construct(x))
    ensures Conserved(Next(p, Construct(x)))
  {
    StockConstruct(p.itemSet, p.items, p.held, !p.closed, p.holder.ctx, x);
  }

  lemma ReleaseConserved(p: Pool, t: Ctx)
    requires Conserved(p) && Enabled(p, Release(t))
    ensures Conserved(Next(p, Release(t)))
  {
    StockRelease(p.itemSet, p.items, p.held, !p.closed, t);
  }

  lemma ConservedStep(p: Pool, a: Action)
    requires Placed(p) && Conserved(p) && Enabled(p, a)
    ensures Conserved(Next(p, a))
  {
    match a
    case Acquire(t) => AcquireConserved(p, t);
    case Close(t) => LockedConserved(p, Closer(t));
    case GrantLock => GrantConserved(p);
    case TakeIdle(t) => ItemReadyConserved(p, a);
    case TakeIdleLocked => ItemReadyConserved(p, a);
    case Construct(x) => ConstructConserved(p, x);
    case Release(t) => ReleaseConserved(p, t);
    case ConstructFail =>
    case CloseDone =>
    case Cancel(t) =>
  }

  lemma BoundedStep(p: Pool, a: Action)
    requires Bounded(p) && Enabled(p, a)
    ensures Bounded(Next(p, a))
  {
  }

  lemma CloseAccountedStep(p: Pool, a: Action)
    requires CloseAccounted(p) && Enabled(p, a)
    ensures CloseAccounted(Next(p, a))
  {
  }

  lemma StepKeepsInv(p: Pool, a: Action)
    requires Inv(p) && Enabled(p, a)
    ensures Inv(Next(p, a))
  {
    PlacedStep(p, a);
    ConservedStep(p, a);
    BoundedStep(p, a);
    CloseAccountedStep(p, a);
  }

  lemma {:induction false} RunKeepsInv(p: Pool, acts: seq<Action>)
    requires Inv(p) && Legal(p, acts)
    ensures Inv(After(p, acts))
    decreases |acts|
  {
    if acts == [] {
    } else {
      StepKeepsInv(p, acts[0]);
      RunKeepsInv(Next(p, acts[0]), acts[1..]);
    }
  }

  // -------------------------------------------------------------------------------------
  // Main results

  lemma {:induction false} MaxSizeIsConstant(p: Pool, acts: seq<Action>)
    requires Legal(p, acts)
    ensures After(p, acts).maxSize == p.maxSize
    decreases |acts|
  {
    if acts == [] {
    } else {
      MaxSizeIsConstant(Next(p, acts[0]), acts[1..]);
    }
  }

  lemma {:induction false} MembersCount(s: seq<Item>)
    requires NoDuplicates(s)
    ensures |Members(s)| == |s|
  {
    if s == [] {
    } else {
      assert Members(s) == {s[0]} + Members(s[1..]);
      MembersCount(s[1..]);
    }
  }

  lemma {:induction false} ValuesCount(m: map<Ctx, Item>)
    requires Injective(m)
    ensures |m.Values| == |m|
    decreases |m|
  {
    if m.Keys == {} {
      assert m.Values == {};
    } else {
      var t :| t in m;
      DropFacts(m, t);
      assert m[t] in m.Values;
      assert (m - {t}).Keys == m.Keys - {t};
      ValuesCount(m - {t});
    }
  }

  /** Conservation: in every state an open pool can reach, the constructed items are exactly
      the idle ones plus the held ones, each once. */
  lemma ItemsAreIdleOrHeld(maxSize: nat, acts: seq<Action>)
    requires Legal(Empty(maxSize), acts)
    ensures var p := After(Empty(maxSize), acts);
      && p.created == |p.itemSet|
      && NoDuplicates(p.items)
      && Injective(p.held)
      && Members(p.items) !! p.held.Values
      && (!p.closed ==> p.itemSet == Members(p.items) + p.held.Values && p.created == |p.items| + |p.held|)
  {
    RunKeepsInv(Empty(maxSize), acts);
    var p := After(Empty(maxSize), acts);
    MembersCount(p.items);
    ValuesCount(p.held);
  }

  /** The bound, in every reachable state, closed or not; and what the bound is not: an
      unlimited pool never makes a task wait for an item. */
  lemma CreatedNeverExceedsMaxSize(maxSize: nat, acts: seq<Action>)
    requires Legal(Empty(maxSize), acts)
    ensures var p := After(Empty(maxSize), acts);
      && (maxSize != 0 ==> |p.itemSet| + (if p.holder.Constructing? then 1 else 0) <= maxSize)
      && (maxSize == 0 ==> p.waiters == {} && !p.holder.AwaitingItem?)
  {
    RunKeepsInv(Empty(maxSize), acts);
    MaxSizeIsConstant(Empty(maxSize), acts);
  }

  /** A constructor starts only when nothing is idle and the bound leaves room. */
  lemma ConstructorStartsOnlyWhenNothingIsIdle(p: Pool, a: Action)
    requires Enabled(p, a)
    requires !p.holder.Constructing? && Next(p, a).holder.Constructing?
    ensures p.items == [] && (p.maxSize != 0 ==> p.created < p.maxSize)
  {
  }
}
