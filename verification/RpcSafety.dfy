/** What holds over all interleavings of calls, replies, returns, cancellations, closing and
    deferred removals. */
module RpcSafety {
  import opened Options
  import opened RpcMachine

  lemma ResolveKeeps(s: Rpc, f: Fut, o: Outcome)
    requires Inv(s)
    ensures Inv(Resolve(s, f, o))
  {
    var r := Resolve(s, f, o);
    if r != s {
      assert f !in s.ready;
      assert forall i :: 0 <= i < |s.ready| ==> r.ready[i] == s.ready[i];
      assert forall g :: g in r.ready <==> g in s.ready || g == f;
    }
  }

  lemma PopKeeps(s: Rpc, id: Cid, o: Outcome)
    requires Inv(s)
    ensures Inv(PopAndResolve(s, id, o))
  {
    if id in s.futures {
      var f := s.futures[id];
      ResolveKeeps(s, f, o);
      var r := Resolve(s, f, o);
      assert PopAndResolve(s, id, o) == r.(futures := r.futures - {id});
    }
  }

  lemma {:induction false} SweepKeeps(s: Rpc, order: seq<Cid>, o: Outcome)
    requires Inv(s)
    ensures Inv(ResolveAll(s, order, o))
    ensures ResolveAll(s, order, o).futures == s.futures && ResolveAll(s, order, o).ids == s.ids
    ensures forall f :: f in s.states ==> f in ResolveAll(s, order, o).states
    decreases |order|
  {
    if order == [] {
    } else if order[0] in s.futures {
      ResolveKeeps(s, s.futures[order[0]], o);
      SweepKeeps(Resolve(s, s.futures[order[0]], o), order[1..], o);
    } else {
      SweepKeeps(s, order[1..], o);
    }
  }

  lemma CallbackScheduled(s: Rpc)
    requires Scheduled(s) && Enabled(s, RunCallback)
    ensures Scheduled(Next(s, RunCallback))
    ensures s.ready[0] in s.states && s.states[s.ready[0]].Done?
    ensures forall g :: g in s.ready && g != s.ready[0] ==> g in Next(s, RunCallback).ready
  {
    assert s.ready == [s.ready[0]] + s.ready[1..];
    assert s.ready[0] in s.ready;
  }

  lemma CallbackKeeps(s: Rpc)
    requires Inv(s) && Enabled(s, RunCallback)
    ensures Inv(Next(s, RunCallback))
  {
    CallbackScheduled(s);
  }

  lemma CreateKeeps(s: Rpc, f: Fut, id: Cid)
    requires Inv(s) && Enabled(s, Create(f, id))
    ensures Inv(Next(s, Create(f, id)))
  {
    assert forall g :: g in s.ids ==> s.ids[g] in s.ids.Values;
  }

  lemma StepKeepsInv(s: Rpc, a: Action)
    requires Inv(s) && Enabled(s, a)
    ensures Inv(Next(s, a))
  {
    match a
    case Create(f, id) => CreateKeeps(s, f, id);
    case CancelCaller(f) => ResolveKeeps(s, f, Raised(CallerCancelled));
    case Reply(c, kind, body) => if c.Some? { PopKeeps(s, c.value, OutcomeOf(kind, body)); }
    case Return(c) => if c.Some? { PopKeeps(s, c.value, Raised(MessageReturned)); }
    case Sweep(error, order) => SweepKeeps(s, order, Raised(error));
    case RunCallback => CallbackKeeps(s);
    case Published(f) =>
    case PublishFailed(f) =>
    case Resume(f) =>
  }

  lemma {:induction false} RunKeepsInv(s: Rpc, acts: seq<Action>)
    requires Inv(s) && Legal(s, acts)
    ensures Inv(After(s, acts))
    decreases |acts|
  {
    if acts == [] {
    } else {
      StepKeepsInv(s, acts[0]);
      RunKeepsInv(Next(s, acts[0]), acts[1..]);
    }
  }

  // -------------------------------------------------------------------------------------
  // No orphans

  /** The loop runs the callbacks scheduled so far, and nothing else happens. */
  function Drained(s: Rpc): Rpc
    decreases |s.ready|
  {
    if s.ready != [] && s.ready[0] in s.ids then Drained(Next(s, RunCallback)) else s
  }

  lemma {:induction false} DrainingEnds(s: Rpc)
    requires Inv(s)
    ensures var d := Drained(s); Inv(d) && d.states == s.states && d.ids == s.ids && d.ready == []
    decreases |s.ready|
  {
    if s.ready != [] {
      assert s.ready[0] in s.ready;
      CallbackKeeps(s);
      DrainingEnds(Next(s, RunCallback));
    }
  }

  lemma NothingScheduledMeansExact(s: Rpc)
    requires Identified(s) && Registered(s) && s.ready == []
    ensures forall id, f :: id in s.futures && s.futures[id] == f <==> IsPending(s, f) && s.ids[f] == id
  {
  }

  /** No orphaned call: in every state any run reaches, a pending future is in the map under
      its own id, a done future still there has its removal scheduled, and once the
      callbacks have run the map holds exactly the pending futures. */
  lemma NoOrphanedCall(acts: seq<Action>)
    requires Legal(EMPTY, acts)
    ensures var s := After(EMPTY, acts);
      && (forall f :: IsPending(s, f) ==> f in s.ids && s.ids[f] in s.futures && s.futures[s.ids[f]] == f)
      && (forall id :: id in s.futures && !IsPending(s, s.futures[id]) ==> s.futures[id] in s.ready)
      && (forall id, f :: id in Drained(s).futures && Drained(s).futures[id] == f
            <==> IsPending(s, f) && f in s.ids && s.ids[f] == id)
  {
    RunKeepsInv(EMPTY, acts);
    DrainingEnds(After(EMPTY, acts));
    NothingScheduledMeansExact(Drained(After(EMPTY, acts)));
  }

  // -------------------------------------------------------------------------------------
  // No cross-talk

  lemma {:induction false} SweepOutcomes(s: Rpc, order: seq<Cid>, o: Outcome)
    ensures var r := ResolveAll(s, order, o);
      && r.futures == s.futures && r.states.Keys == s.states.Keys
      && (forall f :: f in s.states && s.states[f].Done? ==> r.states[f] == s.states[f])
      && (forall f :: f in s.states && s.states[f].Pending? ==> r.states[f] == Pending || r.states[f] == Done(o))
      && (forall id :: id in order && id in s.futures ==> !IsPending(r, s.futures[id]))
    decreases |order|
  {
    if order == [] {
    } else {
      var s1 := if order[0] in s.futures then Resolve(s, s.futures[order[0]], o) else s;
      SweepOutcomes(s1, order[1..], o);
      assert order == [order[0]] + order[1..];
    }
  }

  /** A future once done keeps its outcome whatever duplicates arrive. */
  lemma {:induction false} OutcomeIsFinal(s: Rpc, acts: seq<Action>, f: Fut)
    requires Legal(s, acts) && f in s.states && s.states[f].Done?
    ensures f in After(s, acts).states && After(s, acts).states[f] == s.states[f]
    decreases |acts|
  {
    if acts == [] {
    } else {
      match acts[0] {
        case Sweep(e, order) => SweepOutcomes(s, order, Raised(e));
        case _ =>
      }
      OutcomeIsFinal(Next(s, acts[0]), acts[1..], f);
    }
  }

  /** The message is for the call with this id. */
  function Addressee(a: Action): Option<Cid> {
    match a
    case Reply(c, _, _) => c
    case Return(c) => c
    case _ => None
  }

  function VerdictOf(a: Action): Outcome
    requires a.Reply? || a.Return?
  {
    if a.Reply? then OutcomeOf(a.kind, a.body) else Raised(MessageReturned)
  }

  lemma PopTouchesOne(s: Rpc, id: Cid, o: Outcome, f: Fut)
    requires Identified(s) && Registered(s) && f in s.states
    ensures f in PopAndResolve(s, id, o).states
    ensures PopAndResolve(s, id, o).states[f] == if s.ids[f] == id && s.states[f].Pending? then Done(o) else s.states[f]
  {
  }

  /** A reply or a returned message changes the future made with its correlation id, if that
      is still pending, and no other; without an id it changes nothing. */
  lemma AnswersOnlyItsCall(s: Rpc, a: Action, f: Fut)
    requires Inv(s) && (a.Reply? || a.Return?) && f in s.states
    ensures Enabled(s, a) && f in Next(s, a).states
    ensures Next(s, a).states[f]
            == if Addressee(a) == Some(s.ids[f]) && s.states[f].Pending? then Done(VerdictOf(a)) else s.states[f]
    ensures Addressee(a) == None ==> Next(s, a) == s
  {
    if Addressee(a).Some? { PopTouchesOne(s, Addressee(a).value, VerdictOf(a), f); }
  }

  /** What a call that waits learns from each answer to its id: a result as it is; an exception as
      it is, and any other payload of an ERROR wrapped; a timeout from a request that comes back
      as it was sent; and an error of its own for a type nobody knows, for a body that cannot be
      decoded, whatever the type, and for a request that was returned. */
  lemma EachAnswer(s: Rpc, f: Fut, payload: Payload, name: string, e: nat, kind: Kind)
    requires Inv(s) && IsPending(s, f)
    ensures var id := Some(s.ids[f]);
      && Next(s, Reply(id, RESULT, Decodes(payload))).states[f] == Done(Result(payload))
      && Next(s, Reply(id, ERROR, Decodes(Exception(e)))).states[f] == Done(Raised(Remote(e)))
      && Next(s, Reply(id, ERROR, Decodes(Value(e)))).states[f] == Done(Raised(Wrapped(e)))
      && Next(s, Reply(id, CALL, Decodes(payload))).states[f] == Done(Raised(TimedOut))
      && Next(s, Reply(id, Unknown(name), Decodes(payload))).states[f] == Done(Raised(UnknownType(name)))
      && Next(s, Reply(id, kind, Garbled(e))).states[f] == Done(Raised(Undecodable(e)))
      && Next(s, Return(id)).states[f] == Done(Raised(MessageReturned))
  {
    assert s.futures[s.ids[f]] == f;
  }

  /** A caller that is cancelled while it waits cancels its own future, and no other; and its
      removal is scheduled. */
  lemma CancelledCallerEnds(s: Rpc, f: Fut, g: Fut)
    requires Inv(s) && Enabled(s, CancelCaller(f)) && f in s.states && g in s.states
    ensures var r := Next(s, CancelCaller(f));
      && g in r.states
      && r.states[g] == (if g == f && s.states[f].Pending? then Done(Raised(CallerCancelled)) else s.states[g])
      && f in r.states && r.states[f].Done?
      && (s.states[f].Pending? ==> r.ready == s.ready + [f])
  {
  }

  /** A new call waits, under its own id, and leaves every other as it was. */
  lemma NewCallWaits(s: Rpc, f: Fut, id: Cid)
    requires Enabled(s, Create(f, id))
    ensures var r := Next(s, Create(f, id));
      && IsPending(r, f) && f in r.ids && r.ids[f] == id && id in r.futures && r.futures[id] == f
      && (forall g :: g in s.states ==> g in r.states && r.states[g] == s.states[g])
      && (forall c :: c in s.futures && c != id ==> c in r.futures && r.futures[c] == s.futures[c])
      && r.ready == s.ready
  {
  }

  /** When the sweep of `on_close` or `close` ends nobody is left waiting anywhere, every
      future that was pending carries the sweep's error, and no outcome was overwritten. */
  lemma SweepLeavesNobodyWaiting(s: Rpc, error: Error, order: seq<Cid>)
    requires Inv(s) && Enabled(s, Sweep(error, order))
    ensures var r := Next(s, Sweep(error, order));
      && r.states.Keys == s.states.Keys
      && forall f :: f in s.states ==> r.states[f] == if s.states[f].Pending? then Done(Raised(error)) else s.states[f]
  {
    SweepOutcomes(s, order, Raised(error));
    forall f | f in s.states && s.states[f].Pending?
      ensures Next(s, Sweep(error, order)).states[f] == Done(Raised(error))
    {
      assert s.futures[s.ids[f]] == f && s.ids[f] in order;
    }
  }

  /** The three places of a caller.  While its request is published it can only go on to wait, or
      fail; while it waits it can be cancelled at any time, and goes on exactly once its future is
      done, which it leaves as it is; then it is gone. */
  lemma CallerGoesOn(s: Rpc, f: Fut)
    requires f in s.callers && f in s.states
    ensures Enabled(s, Published(f)) <==> s.callers[f].Publishing?
    ensures Enabled(s, PublishFailed(f)) <==> s.callers[f].Publishing?
    ensures Enabled(s, CancelCaller(f)) <==> s.callers[f].Waiting?
    ensures Enabled(s, Resume(f)) <==> s.callers[f].Waiting? && s.states[f].Done?
    ensures s.callers[f].Publishing? ==> Next(s, Published(f)) == s.(callers := s.callers[f := Waiting])
    ensures s.callers[f].Publishing? ==> Next(s, PublishFailed(f)) == s.(callers := s.callers[f := Gone])
    ensures Enabled(s, Resume(f)) ==> Next(s, Resume(f)) == s.(callers := s.callers[f := Gone])
  {
  }

  // -------------------------------------------------------------------------------------
  // Futures nobody awaits

  predicate Abandoned(s: Rpc, f: Fut) { IsPending(s, f) && f in s.callers && s.callers[f].Gone? }

  /** A pending future loses its caller exactly when the publishing of its request raises or
      is cancelled. */
  lemma OnlyFailedPublishAbandons(s: Rpc, a: Action, f: Fut)
    requires Inv(s) && Enabled(s, a) && !Abandoned(s, f)
    ensures Abandoned(Next(s, a), f) <==> a == PublishFailed(f) && IsPending(s, f)
  {
    match a {
      case Sweep(e, order) => SweepOutcomes(s, order, Raised(e)); SweepCallers(s, order, Raised(e));
      case Create(_, _) => case Published(_) => case PublishFailed(_) => case CancelCaller(_) =>
      case Resume(_) => case Reply(_, _, _) => case Return(_) => case RunCallback =>
    }
  }

  /** The shortest run that abandons a future. */
  lemma FirstPublishFails(f: Fut, id: Cid)
    ensures var acts := [Create(f, id), PublishFailed(f)]; Legal(EMPTY, acts) && Abandoned(After(EMPTY, acts), f)
  {
    var s := Next(EMPTY, Create(f, id));
    assert [PublishFailed(f)][1..] == [];
    assert Legal(s, [PublishFailed(f)]) && Abandoned(After(s, [PublishFailed(f)]), f);
    assert [Create(f, id), PublishFailed(f)][1..] == [PublishFailed(f)];
  }

  lemma {:induction false} SweepCallers(s: Rpc, order: seq<Cid>, o: Outcome)
    ensures ResolveAll(s, order, o).callers == s.callers
    decreases |order|
  {
    if order == [] {
    } else {
      SweepCallers(if order[0] in s.futures then Resolve(s, s.futures[order[0]], o) else s, order[1..], o);
    }
  }

  lemma AbandonedStep(s: Rpc, a: Action, f: Fut)
    requires Inv(s) && Enabled(s, a) && Abandoned(s, f) && !a.Sweep? && Addressee(a) != Some(s.ids[f])
    ensures Abandoned(Next(s, a), f) && f in Next(s, a).ids && Next(s, a).ids[f] == s.ids[f]
  {
    if a.Reply? || a.Return? { AnswersOnlyItsCall(s, a, f); }
  }

  /** Such a future stays in the map until somebody answers its id or the channel closes. */
  lemma {:induction false} AbandonedStaysInMap(s: Rpc, acts: seq<Action>, f: Fut)
    requires Inv(s) && Legal(s, acts) && Abandoned(s, f)
    requires forall a :: a in acts ==> !a.Sweep? && Addressee(a) != Some(s.ids[f])
    ensures var r := After(s, acts); Abandoned(r, f) && f in r.ids && r.ids[f] in r.futures && r.futures[r.ids[f]] == f
    decreases |acts|
  {
    if acts == [] {
      assert s.ids[f] in s.futures;
    } else {
      assert acts[0] in acts;
      assert forall b :: b in acts[1..] ==> b in acts;
      StepKeepsInv(s, acts[0]);
      AbandonedStep(s, acts[0], f);
      AbandonedStaysInMap(Next(s, acts[0]), acts[1..], f);
    }
  }
}
