/** The calling side of RPC: futures waiting under correlation ids, and the event loop's queue
    of done-callbacks that take them out later. */
module RpcMachine {
  import opened Options

  type Cid = string
  type Fut = nat  // identity of a future

  datatype Payload = Value(v: nat) | Exception(e: nat)
  datatype Body = Decodes(payload: Payload) | Garbled(error: nat)
  datatype Kind = RESULT | ERROR | CALL | Unknown(name: string)

  datatype Error = Undecodable(error: nat) | Remote(e: nat) | Wrapped(v: nat) | TimedOut | UnknownType(name: string)
                 | MessageReturned | CallerCancelled | Closed(reason: nat)

  datatype Outcome = Result(payload: Payload) | Raised(error: Error)
  datatype FState = Pending | Done(outcome: Outcome)

  /** Where the coroutine `call` is that made the future. */
  datatype Caller = Publishing | Waiting | Gone

  datatype Rpc = Rpc(
    futures: map<Cid, Fut>,
    states: map<Fut, FState>,   // every future ever made
    ids: map<Fut, Cid>,
    callers: map<Fut, Caller>,
    ready: seq<Fut>)            // done-callbacks handed to the loop and not run yet

  const EMPTY := Rpc(map[], map[], map[], map[], [])

  datatype Action =
    | Create(fut: Fut, id: Cid)
    | Published(fut: Fut)
    | PublishFailed(fut: Fut)
    | CancelCaller(fut: Fut)
    | Resume(fut: Fut)
    | Reply(correlation: Option<Cid>, kind: Kind, body: Body)
    | Return(correlation: Option<Cid>)
    | Sweep(error: Error, order: seq<Cid>)
    | RunCallback

  /** What `on_result_message` makes of a message: the body is decoded before its type is looked at. */
  function OutcomeOf(kind: Kind, body: Body): Outcome {
    match body
    case Garbled(e) => Raised(Undecodable(e))
    case Decodes(p) =>
      match kind
      case RESULT => Result(p)
      case ERROR => (match p case Exception(e) => Raised(Remote(e)) case Value(v) => Raised(Wrapped(v)))
      case CALL => Raised(TimedOut)
      case Unknown(n) => Raised(UnknownType(n))
  }

  /** `set_result`, `set_exception` and `cancel`: a done future refuses, a pending one is done
      from now on and its callback is scheduled. */
  function Resolve(s: Rpc, f: Fut, o: Outcome): Rpc {
    if f in s.states && s.states[f].Pending? then s.(states := s.states[f := Done(o)], ready := s.ready + [f]) else s
  }

  /** `futures.pop(id, None)`, then resolve what came out. */
  function PopAndResolve(s: Rpc, id: Cid, o: Outcome): Rpc {
    if id in s.futures then Resolve(s.(futures := s.futures - {id}), s.futures[id], o) else s
  }

  /** The sweep of `on_close` and `close` over the map, in whatever order it holds its entries. */
  function ResolveAll(s: Rpc, order: seq<Cid>, o: Outcome): Rpc
    decreases |order|
  {
    if order == [] then s
    else ResolveAll(if order[0] in s.futures then Resolve(s, s.futures[order[0]], o) else s, order[1..], o)
  }

  predicate Enabled(s: Rpc, a: Action) {
    match a
    case Create(f, id) => f !in s.states && id !in s.ids.Values
    case Published(f) => f in s.callers && s.callers[f].Publishing?
    case PublishFailed(f) => f in s.callers && s.callers[f].Publishing?
    case CancelCaller(f) => f in s.callers && s.callers[f].Waiting?
    case Resume(f) => f in s.callers && s.callers[f].Waiting? && f in s.states && s.states[f].Done?
    case Reply(_, _, _) => true
    case Return(_) => true
    case Sweep(_, order) => forall id :: id in s.futures ==> id in order
    case RunCallback => s.ready != [] && s.ready[0] in s.ids
  }

  function Next(s: Rpc, a: Action): Rpc
    requires Enabled(s, a)
  {
    match a
    case Create(f, id) =>
      s.(futures := s.futures[id := f], states := s.states[f := Pending], ids := s.ids[f := id],
         callers := s.callers[f := Publishing])
    case Published(f) => s.(callers := s.callers[f := Waiting])
    case PublishFailed(f) => s.(callers := s.callers[f := Gone])
    case CancelCaller(f) => Resolve(s, f, Raised(CallerCancelled))
    case Resume(f) => s.(callers := s.callers[f := Gone])
    case Reply(c, kind, body) => if c.Some? then PopAndResolve(s, c.value, OutcomeOf(kind, body)) else s
    case Return(c) => if c.Some? then PopAndResolve(s, c.value, Raised(MessageReturned)) else s
    case Sweep(error, order) => ResolveAll(s, order, Raised(error))
    case RunCallback => s.(futures := s.futures - {s.ids[s.ready[0]]}, ready := s.ready[1..])
  }

  predicate Legal(s: Rpc, acts: seq<Action>)
    decreases |acts|
  {
    acts == [] || (Enabled(s, acts[0]) && Legal(Next(s, acts[0]), acts[1..]))
  }

  function After(s: Rpc, acts: seq<Action>): Rpc
    requires Legal(s, acts)
    decreases |acts|
  {
    if acts == [] then s else After(Next(s, acts[0]), acts[1..])
  }

  // -------------------------------------------------------------------------------------
  // Invariant

  ghost predicate Identified(s: Rpc) {
    && s.states.Keys == s.ids.Keys == s.callers.Keys
    && (forall f, g :: f in s.ids && g in s.ids && f != g ==> s.ids[f] != s.ids[g])
  }

  /** Every pending future is in the map under its own id; every entry of the map is a future
      under its own id, and a done one has its removal scheduled. */
  ghost predicate Registered(s: Rpc) {
    && (forall f :: f in s.states && f in s.ids && s.states[f].Pending? ==> s.ids[f] in s.futures && s.futures[s.ids[f]] == f)
    && (forall id :: id in s.futures ==>
          var f := s.futures[id];
          f in s.states && f in s.ids && s.ids[f] == id && (s.states[f].Done? ==> f in s.ready))
  }

  /** A callback is scheduled at most once, and only for a done future. */
  ghost predicate Scheduled(s: Rpc) {
    && (forall i, j :: 0 <= i < j < |s.ready| ==> s.ready[i] != s.ready[j])
    && (forall f :: f in s.ready ==> f in s.states && s.states[f].Done?)
  }

  ghost predicate Inv(s: Rpc) { Identified(s) && Registered(s) && Scheduled(s) }

  predicate IsPending(s: Rpc, f: Fut) { f in s.states && s.states[f].Pending? }
}
