/** The connection/channel pool as a state machine.  One action is the code a task
    runs between two real suspensions; any enabled action may come next. */
module PoolMachine {

  type Ctx = nat   // one `async with pool.acquire()` block, or one call of `close()`
  type Item = nat  // identity of an object returned by the constructor

  datatype Request = Getter(ctx: Ctx) | Closer(ctx: Ctx)

  /** Who owns the pool's lock, and what it is suspended on. */
  datatype Holder = Free | Constructing(ctx: Ctx) | AwaitingItem(ctx: Ctx) | Closing(ctx: Ctx)

  datatype Pool = Pool(
    maxSize: nat,                // 0 stands for "unlimited" (None or 0)
    closed: bool,
    created: nat,
    itemSet: set<Item>,
    items: seq<Item>,            // the idle queue, oldest first
    holder: Holder,
    lockQueue: seq<Request>,     // tasks suspended on the lock, first come first served
    waiters: set<Ctx>,           // tasks suspended on the idle queue without the lock
    held: map<Ctx, Item>,        // items inside an `async with` block
    closes: nat,                 // how many close() calls have swept the item set
    closeCalls: multiset<Item>)  // every `item.close` started so far

  datatype Action =
    | Acquire(ctx: Ctx)
    | GrantLock
    | TakeIdle(ctx: Ctx)
    | TakeIdleLocked
    | Construct(item: Item)
    | ConstructFail
    | Release(ctx: Ctx)
    | Close(ctx: Ctx)
    | CloseDone
    | Cancel(ctx: Ctx)

  function Empty(maxSize: nat): Pool {
    Pool(maxSize, false, 0, {}, [], Free, [], {}, map[], 0, multiset{})
  }

  predicate HasReleased(p: Pool) { |p.items| > 0 }

  predicate Full(p: Pool) { p.maxSize != 0 && p.created >= p.maxSize }

  predicate IsOverflow(p: Pool) { Full(p) || HasReleased(p) }

  function Without(queue: seq<Request>, t: Ctx): seq<Request> {
    if queue == [] then []
    else if queue[0].ctx == t then queue[1..]
    else [queue[0]] + Without(queue[1..], t)
  }

  function Queued(queue: seq<Request>): set<Ctx> {
    if queue == [] then {} else {queue[0].ctx} + Queued(queue[1..])
  }

  predicate Distinct(queue: seq<Request>) {
    queue == [] || (queue[0].ctx !in Queued(queue[1..]) && Distinct(queue[1..]))
  }

  function Owner(h: Holder): set<Ctx> { if h.Free? then {} else {h.ctx} }

  function Busy(p: Pool): set<Ctx> { Owner(p.holder) + Queued(p.lockQueue) + p.waiters + p.held.Keys }

  // -------------------------------------------------------------------------------------
  // Steps

  function TakeFirst(p: Pool, t: Ctx): Pool
    requires HasReleased(p)
  {
    p.(items := p.items[1..], held := p.held[t := p.items[0]])
  }

  /** The body of `_create_item` from the moment the lock is owned to the next suspension. */
  function GetLocked(p: Pool, t: Ctx): Pool {
    if IsOverflow(p) then
      if HasReleased(p) then TakeFirst(p, t).(holder := Free) else p.(holder := AwaitingItem(t))
    else
      p.(holder := Constructing(t))
  }

  /** The body of `close` from the moment the lock is owned to the next suspension. */
  function SweepLocked(p: Pool, t: Ctx): Pool {
    p.(holder := if p.itemSet == {} then Free else Closing(t),
       closed := true,
       closes := p.closes + 1,
       closeCalls := p.closeCalls + multiset(p.itemSet))
  }

  function Locked(p: Pool, r: Request): Pool {
    match r
    case Getter(t) => GetLocked(p, t)
    case Closer(t) => SweepLocked(p, t)
  }

  function RequestLock(p: Pool, r: Request): Pool {
    if p.holder.Free? && p.lockQueue == [] then Locked(p, r) else p.(lockQueue := p.lockQueue + [r])
  }

  function Get(p: Pool, t: Ctx): Pool {
    if p.closed then p  // raises PoolInvalidStateError
    else if IsOverflow(p) then
      if HasReleased(p) then TakeFirst(p, t) else p.(waiters := p.waiters + {t})
    else RequestLock(p, Getter(t))
  }

  /** `__aexit__`: the block ends either way, but `put` refuses the item on a closed pool. */
  function PutBack(p: Pool, t: Ctx): Pool
    requires t in p.held
  {
    p.(held := p.held - {t}, items := if p.closed then p.items else p.items + [p.held[t]])
  }

  predicate Enabled(p: Pool, a: Action) {
    match a
    case Acquire(t) => t !in Busy(p)
    case Close(t) => t !in Busy(p)
    case GrantLock => p.holder.Free? && p.lockQueue != []
    case TakeIdle(t) => t in p.waiters && HasReleased(p)
    case TakeIdleLocked => p.holder.AwaitingItem? && HasReleased(p)
    case Construct(x) => p.holder.Constructing? && x !in p.itemSet
    case ConstructFail => p.holder.Constructing?
    case Release(t) => t in p.held
    case CloseDone => p.holder.Closing?
    case Cancel(t) => t in p.waiters || t in Queued(p.lockQueue) || t in Owner(p.holder)
  }

  function Next(p: Pool, a: Action): Pool
    requires Enabled(p, a)
  {
    match a
    case Acquire(t) => Get(p, t)
    case Close(t) => RequestLock(p, Closer(t))
    case GrantLock => Locked(p.(lockQueue := p.lockQueue[1..]), p.lockQueue[0])
    case TakeIdle(t) => TakeFirst(p, t).(waiters := p.waiters - {t})
    case TakeIdleLocked => TakeFirst(p, p.holder.ctx).(holder := Free)
    case Construct(x) =>
      p.(created := p.created + 1, itemSet := p.itemSet + {x}, held := p.held[p.holder.ctx := x], holder := Free)
    case ConstructFail => p.(holder := Free)
    case Release(t) => PutBack(p, t)
    case CloseDone => p.(holder := Free)
    case Cancel(t) =>
      if t in p.waiters then p.(waiters := p.waiters - {t})
      else if t in Queued(p.lockQueue) then p.(lockQueue := Without(p.lockQueue, t))
      else p.(holder := Free)
  }

  predicate Legal(p: Pool, acts: seq<Action>)
    decreases |acts|
  {
    acts == [] || (Enabled(p, acts[0]) && Legal(Next(p, acts[0]), acts[1..]))
  }

  function After(p: Pool, acts: seq<Action>): Pool
    requires Legal(p, acts)
    decreases |acts|
  {
    if acts == [] then p else After(Next(p, acts[0]), acts[1..])
  }

  // -------------------------------------------------------------------------------------
  // Invariant

  /** Every task is in one place. */
  ghost predicate Placed(p: Pool) {
    && Distinct(p.lockQueue)
    && Queued(p.lockQueue) !! p.waiters && Queued(p.lockQueue) !! p.held.Keys && p.waiters !! p.held.Keys
    && Owner(p.holder) !! Queued(p.lockQueue) + p.waiters + p.held.Keys
  }

  predicate NoDuplicates(s: seq<Item>) { forall i, j :: 0 <= i < j < |s| ==> s[i] != s[j] }

  function Members(s: seq<Item>): set<Item> { set x | x in s }

  predicate Injective(m: map<Ctx, Item>) { forall t, u :: t in m && u in m && t != u ==> m[t] != m[u] }

  /** No item is idle twice, held twice, or both; while the pool is open none is missing. */
  ghost predicate Stock(itemSet: set<Item>, items: seq<Item>, held: map<Ctx, Item>, open: bool) {
    && NoDuplicates(items)
    && Injective(held)
    && Members(items) !! held.Values
    && Members(items) + held.Values <= itemSet
    && (open ==> Members(items) + held.Values == itemSet)
  }

  ghost predicate Conserved(p: Pool) {
    p.created == |p.itemSet| && Stock(p.itemSet, p.items, p.held, !p.closed)
  }

  ghost predicate Bounded(p: Pool) {
    && (p.maxSize != 0 ==> p.created + (if p.holder.Constructing? then 1 else 0) <= p.maxSize)
    && (p.waiters != {} || p.holder.AwaitingItem? ==> Full(p))
  }

  ghost predicate CloseAccounted(p: Pool) {
    && (p.closed <==> p.closes > 0)
    && (p.holder.Closing? ==> p.closed)
    && (forall x :: x in p.closeCalls ==> x in p.itemSet)
    && (forall x :: p.closeCalls[x] <= p.closes)
  }

  ghost predicate Inv(p: Pool) { Placed(p) && Conserved(p) && Bounded(p) && CloseAccounted(p) }
}
