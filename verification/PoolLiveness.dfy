/** No task of an open pool waits for ever: some task can always move, and a pool that gets
    no new requests serves everybody in a bounded number of steps. */
module PoolLiveness {
  import opened PoolMachine
  import opened PoolSafety

  /** Steps that finish work already begun: no new request, no cancellation. */
  predicate Progress(a: Action) { !a.Acquire? && !a.Close? && !a.Cancel? }

  predicate SomeoneIsBlocked(p: Pool) {
    p.waiters != {} || p.lockQueue != [] || p.holder.AwaitingItem?
  }

  /** An identity above all used ones: the constructor can always return a new object. */
  ghost function FreshItem(used: set<Item>): (x: Item)
    ensures forall y :: y in used ==> y < x
  {
    if used == {} then 0
    else
      var z :| z in used;
      var x := FreshItem(used - {z});
      assert forall y :: y in used ==> y == z || y in used - {z};
      if x <= z then z + 1 else x
  }

  /** Deadlock freedom, including the case where the owner of the lock itself waits for an item. */
  lemma BlockedTaskHasAWayOn(p: Pool) returns (a: Action)
    requires Inv(p) && !p.closed && SomeoneIsBlocked(p)
    ensures Enabled(p, a) && Progress(a)
  {
    match p.holder
    case Constructing(_) =>
      a := Construct(FreshItem(p.itemSet));
    case Closing(_) =>
      a := CloseDone;
    case AwaitingItem(_) =>
      if HasReleased(p) { a := TakeIdleLocked; } else { a := HolderCanRelease(p); }
    case Free =>
      if p.lockQueue != [] {
        a := GrantLock;
      } else if HasReleased(p) {
        var t :| t in p.waiters;
        a := TakeIdle(t);
      } else {
        a := HolderCanRelease(p);
      }
  }

  lemma HolderCanRelease(p: Pool) returns (a: Action)
    requires Inv(p) && !p.closed && !HasReleased(p) && Full(p)
    ensures Enabled(p, a) && a.Release?
  {
    assert p.itemSet != {};
    var x :| x in p.held.Values;
    var t :| t in p.held && p.held[t] == x;
    a := Release(t);
  }

  // -------------------------------------------------------------------------------------
  // Draining

  predicate NoCloser(queue: seq<Request>) { forall r :: r in queue ==> r.Getter? }

  /** Open, and nobody has asked to close it. */
  ghost predicate Calm(p: Pool) { Inv(p) && !p.closed && NoCloser(p.lockQueue) }

  predicate AllProgress(acts: seq<Action>) { forall a :: a in acts ==> Progress(a) }

  function Work(p: Pool): nat {
    4 * |p.lockQueue| + (if p.holder.Free? then 0 else 3) + 2 * |p.waiters| + |p.held|
  }

  lemma HoldOneMore(held: map<Ctx, Item>, t: Ctx, x: Item)
    ensures |held[t := x]| <= |held| + 1
  {
    assert held[t := x].Keys == held.Keys + {t};
  }

  lemma ProgressWorks(p: Pool, a: Action)
    requires NoCloser(p.lockQueue) && Enabled(p, a) && Progress(a)
    ensures Work(Next(p, a)) < Work(p)
  {
    match a
    case GrantLock =>
      assert p.lockQueue[0] in p.lockQueue;
      if HasReleased(p) { HoldOneMore(p.held, p.lockQueue[0].ctx, p.items[0]); }
    case TakeIdle(t) => HoldOneMore(p.held, t, p.items[0]);
    case TakeIdleLocked => HoldOneMore(p.held, p.holder.ctx, p.items[0]);
    case Construct(x) => HoldOneMore(p.held, p.holder.ctx, x);
    case Release(t) => assert (p.held - {t}).Keys == p.held.Keys - {t};
    case _ =>
  }

  lemma ProgressKeepsCalm(p: Pool, a: Action)
    requires Calm(p) && Enabled(p, a) && Progress(a)
    ensures Calm(Next(p, a))
  {
    StepKeepsInv(p, a);
    StaysOpen(p, a);
  }

  lemma StaysOpen(p: Pool, a: Action)
    requires !p.closed && NoCloser(p.lockQueue) && Enabled(p, a) && Progress(a)
    ensures !Next(p, a).closed && NoCloser(Next(p, a).lockQueue)
  {
    if a.GrantLock? { assert p.lockQueue[0] in p.lockQueue; }
  }

  lemma {:induction false} DrainIsBounded(p: Pool, acts: seq<Action>)
    requires Calm(p) && Legal(p, acts) && AllProgress(acts)
    ensures |acts| + Work(After(p, acts)) <= Work(p)
    ensures Calm(After(p, acts))
    decreases |acts|
  {
    if acts == [] {
    } else {
      assert acts[0] in acts;
      ProgressWorks(p, acts[0]);
      ProgressKeepsCalm(p, acts[0]);
      DrainIsBounded(Next(p, acts[0]), acts[1..]);
    }
  }

  /** Every maximal run without new requests is short and ends with every task served and gone. */
  lemma DrainServesEveryone(p: Pool, acts: seq<Action>)
    requires Calm(p) && Legal(p, acts) && AllProgress(acts)
    requires forall a :: Progress(a) ==> !Enabled(After(p, acts), a)
    ensures |acts| <= Work(p)
    ensures Busy(After(p, acts)) == {}
    ensures Members(After(p, acts).items) == After(p, acts).itemSet
  {
    DrainIsBounded(p, acts);
    NothingEnabled(After(p, acts));
  }

  lemma NothingEnabled(q: Pool)
    requires Inv(q) && !q.closed
    requires forall a :: Progress(a) ==> !Enabled(q, a)
    ensures Busy(q) == {} && Members(q.items) == q.itemSet
  {
    if SomeoneIsBlocked(q) {
      var a := BlockedTaskHasAWayOn(q);
      assert false;
    }
    assert q.holder.Free? by { assert !Enabled(q, CloseDone) && !Enabled(q, ConstructFail); }
    if t :| t in q.held {
      assert Enabled(q, Release(t));
      assert false;
    }
    assert q.held == map[] && q.held.Values == {};
  }
}
