/** What `close` covers, and exactly what it does not. */
module PoolClose {
  import opened PoolMachine
  import opened PoolSafety
  import opened PoolLiveness

  ghost predicate SuffixOf(s: seq<Item>, t: seq<Item>) { exists k :: 0 <= k <= |t| && s == t[k..] }

  lemma SuffixTransitive(r: seq<Item>, s: seq<Item>, t: seq<Item>)
    requires SuffixOf(r, s) && SuffixOf(s, t)
    ensures SuffixOf(r, t)
  {
    var j :| 0 <= j <= |s| && r == s[j..];
    var k :| 0 <= k <= |t| && s == t[k..];
    assert r == t[k + j..];
  }

  function Getters(queue: seq<Request>): nat {
    if queue == [] then 0 else (if queue[0].Getter? then 1 else 0) + Getters(queue[1..])
  }

  lemma {:induction false} GettersAfterCancel(queue: seq<Request>, t: Ctx)
    ensures Getters(Without(queue, t)) <= Getters(queue)
  {
    if queue == [] {
    } else {
      GettersAfterCancel(queue[1..], t);
      if queue[0].ctx != t { assert Without(queue, t)[1..] == Without(queue[1..], t); }
    }
  }

  lemma {:induction false} GettersOfCloser(queue: seq<Request>, t: Ctx)
    ensures Getters(queue + [Closer(t)]) == Getters(queue)
  {
    if queue == [] {
    } else {
      GettersOfCloser(queue[1..], t);
      assert (queue + [Closer(t)])[1..] == queue[1..] + [Closer(t)];
    }
  }

  // -------------------------------------------------------------------------------------
  // The sweep

  /** While `close` holds the lock nobody else adds an item, and it starts exactly one
      `close` for every item constructed so far, whether idle or held. */
  lemma SweepStartsOneCloseEach(p: Pool, a: Action)
    requires Enabled(p, a)
    requires Next(p, a).closes != p.closes
    ensures Next(p, a).closed && Next(p, a).closes == p.closes + 1
    ensures Next(p, a).itemSet == p.itemSet && !p.holder.Constructing?
    ensures forall x :: Next(p, a).closeCalls[x] == p.closeCalls[x] + (if x in p.itemSet then 1 else 0)
  {
  }

  /** The step lets the close() of task t sweep. */
  predicate Sweeps(p: Pool, a: Action, t: Ctx)
    requires Enabled(p, a)
  {
    a == Close(t) || (a == GrantLock && p.lockQueue[0] == Closer(t))
  }

  /** The sweep finds the lock free, and keeps it over the closes it starts, if it starts any. */
  lemma SweepKeepsTheLock(p: Pool, a: Action)
    requires Enabled(p, a) && Next(p, a).closes != p.closes
    ensures p.holder.Free? && exists t :: Sweeps(p, a, t)
    ensures forall t :: Sweeps(p, a, t) ==> Next(p, a).holder == if p.itemSet != {} then Closing(t) else Free
  {
    if a.Close? { assert Sweeps(p, a, a.ctx); } else { assert Sweeps(p, a, p.lockQueue[0].ctx); }
  }

  lemma SweepStep(p: Pool, a: Action)
    requires p.holder.Closing? && Enabled(p, a) && a != CloseDone && a != Cancel(p.holder.ctx)
    ensures var q := Next(p, a);
      q.holder == p.holder && q.itemSet == p.itemSet && q.closes == p.closes && q.closeCalls == p.closeCalls
  {
    match a
    case Acquire(_) => case GrantLock => case TakeIdle(_) => case TakeIdleLocked => case Construct(_) =>
    case ConstructFail => case Release(_) => case Close(_) => case CloseDone => case Cancel(_) =>
  }

  lemma {:induction false} SweepLasts(p: Pool, acts: seq<Action>)
    requires p.holder.Closing? && Legal(p, acts) && CloseDone !in acts && Cancel(p.holder.ctx) !in acts
    ensures var q := After(p, acts);
      q.holder == p.holder && q.itemSet == p.itemSet && q.closes == p.closes && q.closeCalls == p.closeCalls
    decreases |acts|
  {
    if acts == [] {
    } else {
      assert acts[0] in acts;
      SweepStep(p, acts[0]);
      SweepLasts(Next(p, acts[0]), acts[1..]);
    }
  }

  /** From the step that sweeps a pool with items until its closes are done, or it is cancelled,
      the closer owns the lock; nobody adds an item and no other close call starts. */
  lemma NothingAddedDuringSweep(p: Pool, a: Action, t: Ctx, acts: seq<Action>)
    requires Enabled(p, a) && Next(p, a).closes != p.closes && Sweeps(p, a, t) && p.itemSet != {}
    requires Legal(Next(p, a), acts) && CloseDone !in acts && Cancel(t) !in acts
    ensures var q := After(Next(p, a), acts);
      && q.holder == Closing(t) && q.itemSet == p.itemSet && q.closes == p.closes + 1
      && forall x :: q.closeCalls[x] == p.closeCalls[x] + (if x in p.itemSet then 1 else 0)
  {
    SweepKeepsTheLock(p, a);
    SweepStartsOneCloseEach(p, a);
    SweepLasts(Next(p, a), acts);
  }

  lemma CloseCallsStep(p: Pool, a: Action)
    requires CloseAccounted(p) && Enabled(p, a)
    ensures var q := Next(p, a);
      && p.itemSet <= q.itemSet && p.closes <= q.closes
      && (forall x :: x in p.itemSet ==> q.closeCalls[x] == p.closeCalls[x] + (q.closes - p.closes))
      && (q.closes == p.closes ==> q.closeCalls == p.closeCalls)
  {
  }

  /** Each item has been told to close once for every sweep it lived through.  So with one
      `close()` the items constructed before it get exactly one call, later ones none. */
  lemma {:induction false} OneCloseCallPerSweep(p: Pool, acts: seq<Action>)
    requires CloseAccounted(p) && Legal(p, acts)
    ensures var q := After(p, acts);
      && p.itemSet <= q.itemSet && p.closes <= q.closes
      && (forall x :: x in p.itemSet ==> q.closeCalls[x] == p.closeCalls[x] + (q.closes - p.closes))
      && (q.closes == p.closes ==> q.closeCalls == p.closeCalls)
    decreases |acts|
  {
    if acts == [] {
    } else {
      CloseAccountedStep(p, acts[0]);
      CloseCallsStep(p, acts[0]);
      OneCloseCallPerSweep(Next(p, acts[0]), acts[1..]);
    }
  }

  // -------------------------------------------------------------------------------------
  // After the sweep

  function InFlight(p: Pool): nat { Getters(p.lockQueue) + (if p.holder.Constructing? then 1 else 0) }

  lemma ClosedStepIdle(p: Pool, a: Action)
    requires p.closed && Enabled(p, a)
    ensures Next(p, a).closed && SuffixOf(Next(p, a).items, p.items)
  {
    assert p.items == p.items[0..];
    assert Next(p, a).items == p.items || (p.items != [] && Next(p, a).items == p.items[1..]);
  }

  lemma ClosedStepCreated(p: Pool, a: Action)
    requires p.closed && Enabled(p, a)
    ensures Next(p, a).created + InFlight(Next(p, a)) <= p.created + InFlight(p)
  {
    match a
    case Close(t) => GettersOfCloser(p.lockQueue, t);
    case Cancel(t) => GettersAfterCancel(p.lockQueue, t);
    case _ =>
  }

  /** Once closed: the pool stays closed, the idle queue only loses its front, and the
      number of items still to come is bounded by the getters that already queued on the lock. */
  lemma {:induction false} ClosedPoolWindsDown(p: Pool, acts: seq<Action>)
    requires p.closed && Legal(p, acts)
    ensures var q := After(p, acts);
      && q.closed
      && SuffixOf(q.items, p.items)
      && q.created - p.created <= InFlight(p)
    decreases |acts|
  {
    if acts == [] {
      assert p.items == p.items[0..];
    } else {
      ClosedStepIdle(p, acts[0]);
      ClosedStepCreated(p, acts[0]);
      var q := Next(p, acts[0]);
      ClosedPoolWindsDown(q, acts[1..]);
      SuffixTransitive(After(p, acts).items, q.items, p.items);
    }
  }

  lemma {:induction false} BlockedForEverOnceClosed(p: Pool, acts: seq<Action>, t: Ctx)
    requires p.closed && p.items == [] && Legal(p, acts)
    requires t in p.waiters && Cancel(t) !in acts
    ensures t in After(p, acts).waiters
    decreases |acts|
  {
    if acts == [] {
    } else {
      assert acts[0] in acts;
      ClosedStepIdle(p, acts[0]);
      BlockedForEverOnceClosed(Next(p, acts[0]), acts[1..], t);
    }
  }

  /** A getter blocked on the idle queue of a closed pool can still leave it without being
      cancelled exactly when an item is idle; otherwise it stays blocked in every run. */
  lemma ServedAfterCloseIffItemIdle(p: Pool, t: Ctx)
    requires p.closed && t in p.waiters
    ensures (exists acts :: Legal(p, acts) && Cancel(t) !in acts && t !in After(p, acts).waiters) <==> p.items != []
  {
    if p.items != [] {
      var acts := [TakeIdle(t)] + [];
      Prepend(p, TakeIdle(t), []);
      assert Legal(p, acts) && Cancel(t) !in acts && t !in After(p, acts).waiters;
    } else {
      forall acts | Legal(p, acts) && Cancel(t) !in acts ensures t in After(p, acts).waiters {
        BlockedForEverOnceClosed(p, acts, t);
      }
    }
  }

  lemma WaiterOfAFullPool(t: Ctx, u: Ctx, x: Item, p: Pool)
    requires t != u && p == Empty(1).(created := 1, itemSet := {x}, held := map[t := x])
    ensures StepsTo(p, Acquire(u), p.(waiters := {u}))
  {
  }

  lemma CloseSweeps(v: Ctx, p: Pool)
    requires p.holder.Free? && p.lockQueue == [] && v !in p.waiters && v !in p.held && p.itemSet != {}
    ensures var q := Next(p, Close(v)); StepsTo(p, Close(v), q) && q.closed && q.waiters == p.waiters && q.items == p.items
  {
  }

  /** Such a pool is reached by four steps: the one item is held, another getter waits for it,
      and the pool is closed. */
  lemma ClosedPoolWithAWaiter(t: Ctx, u: Ctx, v: Ctx, x: Item)
    requires t != u && u != v && t != v
    ensures var acts := [Acquire(t)] + ([Construct(x)] + ([Acquire(u)] + ([Close(v)] + [])));
      Legal(Empty(1), acts) && After(Empty(1), acts).closed && u in After(Empty(1), acts).waiters && After(Empty(1), acts).items == []
  {
    var p0 := Empty(1);
    var p1 := p0.(holder := Constructing(t));
    var p2 := p0.(created := 1, itemSet := {x}, held := map[t := x]);
    var p3 := p2.(waiters := {u});
    assert StepsTo(p0, Acquire(t), p1);
    assert StepsTo(p1, Construct(x), p2);
    WaiterOfAFullPool(t, u, x, p2);
    CloseSweeps(v, p3);
    Prepend(p3, Close(v), []);
    Prepend(p2, Acquire(u), [Close(v)] + []);
    Prepend(p1, Construct(x), [Acquire(u)] + ([Close(v)] + []));
    Prepend(p0, Acquire(t), [Construct(x)] + ([Acquire(u)] + ([Close(v)] + [])));
  }

  /** When a closed pool still has room, and more getters queue on its lock than items are
      idle, a getter will find the idle queue empty and call the constructor: line 87 does
      not look at the closed flag again. */
  predicate WillOutgrow(p: Pool) {
    p.holder.Constructing? || (!Full(p) && Getters(p.lockQueue) > |p.items|)
  }

  lemma StepKeepsFromOutgrowing(p: Pool, a: Action)
    requires Bounded(p) && p.closed && !WillOutgrow(p) && Enabled(p, a)
    ensures Next(p, a).closed && !WillOutgrow(Next(p, a)) && Next(p, a).created == p.created
  {
    match a
    case Close(t) => GettersOfCloser(p.lockQueue, t);
    case Cancel(t) => GettersAfterCancel(p.lockQueue, t);
    case _ =>
  }

  lemma {:induction false} RunKeepsFromOutgrowing(p: Pool, acts: seq<Action>)
    requires Bounded(p) && p.closed && !WillOutgrow(p) && Legal(p, acts)
    ensures After(p, acts).created == p.created
    decreases |acts|
  {
    if acts == [] {
    } else {
      BoundedStep(p, acts[0]);
      StepKeepsFromOutgrowing(p, acts[0]);
      RunKeepsFromOutgrowing(Next(p, acts[0]), acts[1..]);
    }
  }

  lemma OutgrowingStep(p: Pool) returns (a: Action)
    requires Bounded(p) && p.closed && WillOutgrow(p) && !p.holder.Constructing?
    ensures Enabled(p, a)
    ensures var q := Next(p, a);
      && WillOutgrow(q) && q.closed && q.created == p.created
      && (|q.lockQueue| < |p.lockQueue| || (q.lockQueue == p.lockQueue && p.holder.Closing? && q.holder.Free?))
  {
    a := if p.holder.Closing? then CloseDone else GrantLock;
  }

  lemma {:induction false} RunThatOutgrows(p: Pool) returns (acts: seq<Action>)
    requires Bounded(p) && p.closed && WillOutgrow(p)
    ensures Legal(p, acts) && After(p, acts).created > p.created
    decreases |p.lockQueue|, if p.holder.Closing? then 1 else 0
  {
    if p.holder.Constructing? {
      var x := FreshItem(p.itemSet);
      assert Enabled(p, Construct(x));
      Prepend(p, Construct(x), []);
      acts := [Construct(x)] + [];
    } else {
      var a := OutgrowingStep(p);
      BoundedStep(p, a);
      var rest := RunThatOutgrows(Next(p, a));
      Prepend(p, a, rest);
      acts := [a] + rest;
    }
  }

  lemma Prepend(p: Pool, a: Action, acts: seq<Action>)
    requires Enabled(p, a) && Legal(Next(p, a), acts)
    ensures Legal(p, [a] + acts) && After(p, [a] + acts) == After(Next(p, a), acts)
  {
    assert ([a] + acts)[1..] == acts;
  }

  /** Exactly when some run of a closed pool still constructs an item. */
  lemma ConstructsAfterCloseIffOutgrown(p: Pool)
    requires Inv(p) && p.closed
    ensures (exists acts :: Legal(p, acts) && After(p, acts).created > p.created) <==> WillOutgrow(p)
  {
    if WillOutgrow(p) {
      var acts := RunThatOutgrows(p);
    } else {
      forall acts | Legal(p, acts) ensures After(p, acts).created == p.created {
        RunKeepsFromOutgrowing(p, acts);
      }
    }
  }

  ghost predicate StepsTo(p: Pool, a: Action, q: Pool) { Enabled(p, a) && Next(p, a) == q }

  lemma GetterBehindCloser(p: Pool, u: Ctx, v: Ctx)
    requires u != v && u !in Busy(p) && v !in Busy(p)
    requires !p.holder.Free? && p.lockQueue == [] && !p.closed && !IsOverflow(p)
    ensures StepsTo(p, Close(u), p.(lockQueue := [Closer(u)]))
    ensures StepsTo(p.(lockQueue := [Closer(u)]), Acquire(v), p.(lockQueue := [Closer(u), Getter(v)]))
  {
    var q := p.(lockQueue := [Closer(u)]);
    assert p.lockQueue + [Closer(u)] == q.lockQueue;
    assert q.lockQueue[1..] == [] && Queued(q.lockQueue[1..]) == {} && Queued(q.lockQueue) == {u};
    assert q.lockQueue + [Getter(v)] == [Closer(u), Getter(v)];
  }

  lemma CloserLetsGetterThrough(p: Pool, u: Ctx, v: Ctx)
    requires p.holder.Free? && p.lockQueue == [Closer(u), Getter(v)] && p.itemSet == {} && p.items == [] && !Full(p)
    ensures var q := p.(lockQueue := [Getter(v)], closed := true, closes := p.closes + 1);
      StepsTo(p, GrantLock, q) && WillOutgrow(q)
  {
    assert p.lockQueue[1..] == [Getter(v)];
    assert [Getter(v)][1..] == [] && Getters([Getter(v)]) == 1;
  }

  /** Such states are reachable: a getter queues on the lock behind a closer, and when its
      turn comes the pool is closed and nothing is idle. */
  lemma ClosedPoolCanOutgrow(maxSize: nat, t: Ctx, u: Ctx, v: Ctx) returns (acts: seq<Action>)
    requires t != u && u != v && t != v
    ensures Legal(Empty(maxSize), acts)
    ensures After(Empty(maxSize), acts).closed && WillOutgrow(After(Empty(maxSize), acts))
  {
    var p0 := Empty(maxSize);
    var p1 := p0.(holder := Constructing(t));
    assert StepsTo(p0, Acquire(t), p1);
    GetterBehindCloser(p1, u, v);
    var p3 := p1.(lockQueue := [Closer(u), Getter(v)]);
    var p4 := p3.(holder := Free);
    assert StepsTo(p3, ConstructFail, p4);
    CloserLetsGetterThrough(p4, u, v);
    acts := Chain5(p0, [Acquire(t), Close(u), Acquire(v), ConstructFail, GrantLock],
                   p1, p1.(lockQueue := [Closer(u)]), p3, p4,
                   p4.(lockQueue := [Getter(v)], closed := true, closes := p4.closes + 1));
  }

  lemma Chain5(p0: Pool, steps: seq<Action>, p1: Pool, p2: Pool, p3: Pool, p4: Pool, p5: Pool) returns (acts: seq<Action>)
    requires |steps| == 5
    requires StepsTo(p0, steps[0], p1) && StepsTo(p1, steps[1], p2) && StepsTo(p2, steps[2], p3)
    requires StepsTo(p3, steps[3], p4) && StepsTo(p4, steps[4], p5)
    ensures acts == steps && Legal(p0, acts) && After(p0, acts) == p5
  {
    Prepend(p4, steps[4], steps[5..]);
    assert steps[4..] == [steps[4]] + steps[5..];
    Prepend(p3, steps[3], steps[4..]);
    assert steps[3..] == [steps[3]] + steps[4..];
    Prepend(p2, steps[2], steps[3..]);
    assert steps[2..] == [steps[2]] + steps[3..];
    Prepend(p1, steps[1], steps[2..]);
    assert steps[1..] == [steps[1]] + steps[2..];
    acts := steps;
  }
}
