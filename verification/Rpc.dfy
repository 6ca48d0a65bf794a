/** The RPC object and the part of the event loop it leans on.  Each method is one atomic
    stretch of the source and one step of `RpcMachine` or `RpcRoutes`. */
module RpcObject {
  import opened Options
  import M = RpcMachine
  import R = RpcRoutes

  class RPC {
    // RPC's own dictionaries
    var futures: map<M.Cid, M.Fut>
    var routes: map<R.Key, R.Func>
    var queues: map<R.Func, R.Key>
    var consumerTags: map<R.Func, R.Tag>
    // The loop: the futures made here, the coroutines awaiting them, the callbacks to run
    var states: map<M.Fut, M.FState>
    var ids: map<M.Fut, M.Cid>
    var callers: map<M.Fut, M.Caller>
    var ready: seq<M.Fut>

    constructor ()
      ensures State() == M.EMPTY && Registration() == R.EMPTY
    {
      futures, routes, queues, consumerTags := map[], map[], map[], map[];
      states, ids, callers, ready := map[], map[], map[], [];
    }

    function State(): M.Rpc
      reads this
    {
      M.Rpc(futures, states, ids, callers, ready)
    }

    function Registration(): R.Routes
      reads this
    {
      R.Routes(routes, queues, consumerTags)
    }

    /** `create_future`, and the start of `call`. */
    method CreateFuture(future: M.Fut, id: M.Cid)
      requires M.Enabled(State(), M.Create(future, id))
      modifies this`futures, this`states, this`ids, this`callers
      ensures State() == M.Next(old(State()), M.Create(future, id))
    {
      futures := futures[id := future];
      states := states[future := M.Pending];
      ids := ids[future := id];
      callers := callers[future := M.Publishing];
    }

    /** `set_result` or `set_exception`; a done future raises InvalidStateError. */
    method SetOutcome(future: M.Fut, outcome: M.Outcome) returns (raised: bool)
      requires future in states
      modifies this`states, this`ready
      ensures State() == M.Resolve(old(State()), future, outcome)
      ensures raised <==> old(states)[future].Done?
    {
      raised := states[future].Done?;
      if !raised {
        states := states[future := M.Done(outcome)];
        ready := ready + [future];
      }
    }

    method OnResultMessage(correlation: Option<M.Cid>, kind: M.Kind, body: M.Body) returns (raised: bool)
      requires forall id :: id in futures ==> futures[id] in states
      modifies this`futures, this`states, this`ready
      ensures State() == M.Next(old(State()), M.Reply(correlation, kind, body))
      ensures raised <==> correlation.Some? && correlation.value in old(futures)
                          && old(states)[old(futures)[correlation.value]].Done?
    {
      if correlation.None? || correlation.value !in futures {
        return false;
      }
      var future := futures[correlation.value];
      futures := futures - {correlation.value};
      match body {
        case Garbled(e) =>
          raised := SetOutcome(future, M.Raised(M.Undecodable(e)));
        case Decodes(payload) =>
          match kind {
            case RESULT =>
              raised := SetOutcome(future, M.Result(payload));
            case ERROR =>
              var error := if payload.Exception? then M.Remote(payload.e) else M.Wrapped(payload.v);
              raised := SetOutcome(future, M.Raised(error));
            case CALL =>
              raised := SetOutcome(future, M.Raised(M.TimedOut));
            case Unknown(name) =>
              raised := SetOutcome(future, M.Raised(M.UnknownType(name)));
          }
      }
    }

    method OnMessageReturned(correlation: Option<M.Cid>)
      requires forall id :: id in futures ==> futures[id] in states
      modifies this`futures, this`states, this`ready
      ensures State() == M.Next(old(State()), M.Return(correlation))
    {
      if correlation.Some? && correlation.value in futures {
        var future := futures[correlation.value];
        futures := futures - {correlation.value};
        if states[future].Pending? {
          var raised := SetOutcome(future, M.Raised(M.MessageReturned));
        }
      }
    }

    /** The loop of `on_close` and `close` over the map, entries in the order given. */
    method FailPending(error: M.Error, order: seq<M.Cid>)
      requires forall id :: id in futures ==> futures[id] in states
      requires forall id :: id in futures <==> id in order
      modifies this`states, this`ready
      ensures State() == M.Next(old(State()), M.Sweep(error, order))
    {
      for n := 0 to |order|
        invariant futures == old(futures) && states.Keys == old(states).Keys
        invariant M.ResolveAll(old(State()), order, M.Raised(error)) == M.ResolveAll(State(), order[n..], M.Raised(error))
      {
        assert order[n..][0] == order[n] && order[n..][1..] == order[n + 1..];
        assert order[n] in order;
        var future := futures[order[n]];
        if states[future].Pending? {
          var raised := SetOutcome(future, M.Raised(error));
        }
      }
    }

    /** The loop runs the next done-callback: `do_remove`. */
    method RunCallback()
      requires M.Enabled(State(), M.RunCallback)
      modifies this`futures, this`ready
      ensures State() == M.Next(old(State()), M.RunCallback)
    {
      var future := ready[0];
      ready := ready[1..];
      futures := futures - {ids[future]};
    }

    method Register(key: R.Key, func: R.Func, tag: R.Tag, generated: R.Key, fault: R.Fault) returns (raised: bool)
      modifies this`routes, this`queues, this`consumerTags
      ensures Registration() == R.Apply(old(Registration()), R.Register(key, func, tag, generated, fault))
      ensures raised <==> R.Raises(old(Registration()), R.Register(key, func, tag, generated, fault))
    {
      raised := true;
      if fault.DeclareFails? || fault.BindFails? {
        return;
      }
      if func in consumerTags || key in routes || fault.ConsumeFails? {
        return;
      }
      consumerTags := consumerTags[func := tag];
      routes := routes[key := func];
      queues := queues[func := R.QueueName(key, generated)];
      raised := false;
    }

    method Unregister(func: R.Func, cancelFails: bool) returns (raised: bool)
      modifies this`routes, this`queues, this`consumerTags
      ensures Registration() == R.Apply(old(Registration()), R.Unregister(func, cancelFails))
      ensures raised <==> R.Raises(old(Registration()), R.Unregister(func, cancelFails))
    {
      if func !in consumerTags {
        return false;
      }
      consumerTags := consumerTags - {func};
      if func !in queues {
        return true;
      }
      var queue := queues[func];
      queues := queues - {func};
      if cancelFails {
        return true;
      }
      raised := queue !in routes;
      routes := routes - {queue};
    }
  }
}
