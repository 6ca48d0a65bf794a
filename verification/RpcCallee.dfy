/** The serving side of RPC: one request through `on_call_message`, with every way the
    codec, the method, the publisher and the channel can behave. */
module RpcCallee {
  import opened Options
  import S = Settlement
  import M = MessageObjects

  datatype ReplyType = RESULT | ERROR

  datatype Event =
    | Reply(replyTo: string, correlation: Option<string>, kind: ReplyType)
    | Settled(frame: S.Frame)

  /** How an awaited call ends; only `Fails` is caught by `except Exception`. */
  datatype Attempt = Works | Fails | IsCancelled

  datatype Environment = Environment(
    decode: Attempt,
    execute: Attempt,
    channelLost: bool,         // the channel closes while the method runs
    serialize: Attempt,        // the result, or the exception the method raised
    serializeFailure: Attempt, // the exception of a failed serialisation
    publish: Attempt,
    settleCut: bool)           // the settlement is cancelled in its write

  datatype Request = Request(replyTo: string, correlation: Option<string>)

  /** How `on_call_message` itself ends. */
  datatype End = Returns | Raises

  /** Events of one request and how the coroutine ended; `w` is the request and its channel. */
  function OnCall(registered: bool, env: Environment, req: Request, w: S.World): (seq<Event>, S.World, End) {
    if !registered then ([], w, Returns)
    else if env.decode.IsCancelled? || (env.decode.Works? && env.execute.IsCancelled?) then ([], w, Raises)
    else
      var w1 := if env.decode.Works? && env.channelLost then w.(channel := w.channel.(closed := true)) else w;
      var kind := if env.decode.Works? && env.execute.Works? then RESULT else ERROR;
      if req.replyTo == "" then Settling([], w1, S.Ack(false), env.settleCut) else Answering(env, req, kind, w1)
  }

  /** From the serialisation of the answer on. */
  function Answering(env: Environment, req: Request, kind: ReplyType, w: S.World): (seq<Event>, S.World, End) {
    if env.serialize.IsCancelled? || (env.serialize.Fails? && !env.serializeFailure.Works?) then ([], w, Raises)
    else if env.publish.IsCancelled? then ([], w, Raises)
    else if env.publish.Fails? then Settling([], w, S.Reject(false), env.settleCut)
    else Settling([Reply(req.replyTo, req.correlation, if env.serialize.Works? then kind else ERROR)], w, S.Ack(false), env.settleCut)
  }

  predicate SentFrame(w: S.World, r: S.Outcome) { w.message.tag.Some? && (r.Returned? || r == S.Raised(S.Cancelled)) }

  function Settling(before: seq<Event>, w: S.World, op: S.Op, cut: bool): (seq<Event>, S.World, End) {
    var (w', r) := S.Settle(w, op, cut);
    (if SentFrame(w, r) then before + [Settled(S.FrameOf(w.message.tag.value, op))] else before,
     w', if r.Raised? then Raises else Returns)
  }

  function SettledIn(events: seq<Event>): nat {
    if events == [] then 0 else (if events[0].Settled? then 1 else 0) + SettledIn(events[1..])
  }

  predicate Unsettled(w: S.World) { w.message.tag.Some? && !w.message.noAck && !w.message.processed }

  /** Nothing ends the handler of a registered method before its settlement. */
  predicate ReachesSettlement(env: Environment, req: Request) {
    && !env.decode.IsCancelled? && !(env.decode.Works? && env.execute.IsCancelled?)
    && (req.replyTo == "" || (!env.serialize.IsCancelled? && (env.serialize.Fails? ==> env.serializeFailure.Works?) && !env.publish.IsCancelled?))
  }

  predicate LosesChannel(env: Environment) { env.decode.Works? && env.channelLost }

  /** The events of a settled request: the settlement is last, and at most one reply, to its
      `reply_to` and with its correlation id, comes before an ack; it is a reject exactly when
      a reply could not be sent. */
  predicate WellSettled(env: Environment, req: Request, tag: nat, events: seq<Event>) {
    && (events == [Settled(S.BasicReject(tag, false))]
        || events == [Settled(S.BasicAck(tag, false))]
        || exists kind :: events == [Reply(req.replyTo, req.correlation, kind), Settled(S.BasicAck(tag, false))])
    && (events[|events| - 1] == Settled(S.BasicReject(tag, false)) <==> req.replyTo != "" && env.publish.Fails?)
    && (|events| == 2 <==> req.replyTo != "" && env.publish.Works?)
  }

  /** A request for a registered method is settled at most once.  It is settled exactly when the
      handler reaches its settlement on an open channel; then the handler returns, and the
      message is marked, unless that settlement is cut. */
  lemma ServedRequestIsSettledOnce(env: Environment, req: Request, w: S.World)
    requires Unsettled(w)
    ensures var (events, w', end) := OnCall(true, env, req, w);
      var settled := ReachesSettlement(env, req) && !w.channel.closed && !LosesChannel(env);
      && SettledIn(events) == (if settled then 1 else 0)
      && (settled ==>
            && WellSettled(env, req, w.message.tag.value, events)
            && w'.channel.sent == w.channel.sent + [events[|events| - 1].frame])
      && (!settled ==> w'.channel.sent == w.channel.sent)
      && (end.Returns? <==> settled && !env.settleCut)
      && (w'.message.processed <==> end.Returns?)
  {
    var (events, w', end) := OnCall(true, env, req, w);
    if |events| == 1 {
      assert events[1..] == [];
    } else if |events| == 2 {
      assert events[1..] == [events[1]] && events[1..][1..] == [];
      assert SettledIn(events[1..]) == (if events[1].Settled? then 1 else 0) + SettledIn([]);
    }
  }

  /** A request for a method that is not registered: the handler returns, and nothing was done. */
  lemma UnregisteredIsLeft(env: Environment, req: Request, w: S.World)
    ensures var (events, w', end) := OnCall(false, env, req, w); end.Returns? && events == [] && w' == w
  {
  }

  /** A request for a method that is not registered returns quietly and stays unsettled: on an
      open channel, a normal return settles the request if and only if the method is registered. */
  lemma ReturnSettlesIffRegistered(registered: bool, env: Environment, req: Request, w: S.World)
    requires Unsettled(w) && OnCall(registered, env, req, w).2.Returns?
    ensures SettledIn(OnCall(registered, env, req, w).0) == (if registered then 1 else 0)
    ensures OnCall(registered, env, req, w).1.message.processed <==> registered
  {
    if registered { ServedRequestIsSettledOnce(env, req, w); }
  }

  class RpcServer {
    var routes: set<string>
    var log: seq<Event>

    constructor ()
      ensures routes == {} && log == []
    {
      routes, log := {}, [];
    }

    method OnCallMessage(routingKey: string, message: M.IncomingMessage, req: Request, env: Environment) returns (end: End)
      modifies this`log, message, message.channel
      ensures var (events, w, e) := OnCall(routingKey in routes, env, req, old(message.View()));
        end == e && message.View() == w && log == old(log) + events
    {
      if routingKey !in routes {
        return Returns;
      }
      var kind := RESULT;
      match env.decode {
        case IsCancelled => return Raises;
        case Fails => kind := ERROR;
        case Works =>
          if env.execute.IsCancelled? {
            return Raises;
          }
          if env.channelLost {
            message.channel.isClosed := true;
          }
          if env.execute.Fails? {
            kind := ERROR;
          }
      }
      if req.replyTo == "" {
        end := Acknowledge(message, env.settleCut);
      } else {
        end := Answer(message, req, kind, env);
      }
    }

    /** The second half: serialise, publish, settle. */
    method Answer(message: M.IncomingMessage, req: Request, kind: ReplyType, env: Environment) returns (end: End)
      modifies this`log, message, message.channel
      ensures var (events, w, e) := Answering(env, req, kind, old(message.View()));
        end == e && message.View() == w && log == old(log) + events
    {
      var sent := kind;
      match env.serialize {
        case Works =>
        case IsCancelled => return Raises;
        case Fails =>
          if !env.serializeFailure.Works? {
            return Raises;
          }
          sent := ERROR;
      }
      match env.publish {
        case IsCancelled => return Raises;
        case Fails =>
          var r := message.Reject(false, env.settleCut);
          end := Record(message, S.Reject(false), r);
          return;
        case Works =>
          log := log + [Reply(req.replyTo, req.correlation, sent)];
      }
      end := Acknowledge(message, env.settleCut);
    }

    method Acknowledge(message: M.IncomingMessage, cut: bool) returns (end: End)
      modifies this`log, message, message.channel
      ensures var (events, w, e) := Settling([], old(message.View()), S.Ack(false), cut);
        end == e && message.View() == w && log == old(log) + events
    {
      var r := message.Ack(false, cut);
      end := Record(message, S.Ack(false), r);
    }

    /** What a settlement that ended so adds to the log, and how it ends the handler. */
    method Record(message: M.IncomingMessage, op: S.Op, r: S.Outcome) returns (end: End)
      modifies this`log
      ensures end == if r.Raised? then Raises else Returns
      ensures log == if SentFrame(message.View(), r) then old(log) + [Settled(S.FrameOf(message.deliveryTag.value, op))] else old(log)
    {
      if message.deliveryTag.Some? && (r.Returned? || r == S.Raised(S.Cancelled)) {
        log := log + [Settled(S.FrameOf(message.deliveryTag.value, op))];
      }
      end := if r.Raised? then Raises else Returns;
    }
  }
}
