/** The robust exchange, queue and channel objects.  Their contracts say what each method
    sends, what it writes into the dictionaries, and that replay rewrites them to the same. */
module RobustObjects {
  import opened Broker
  import opened Registry
  import opened Replay

  /** The open AMQP channel: every command is answered by the broker before the next is sent. */
  class Server {
    var state: Broker
    var log: seq<Command>

    constructor ()
      ensures state == NEW_BROKER && log == []
    {
      state, log := NEW_BROKER, [];
    }

    method Send(c: Command) returns (ok: bool)
      modifies this
      ensures ok <==> Accepts(old(state), c)
      ensures state == Answered(old(state), c)
      ensures log == old(log) + [c]
    {
      ok := Accepts(state, c);
      state := if ok then Effect(state, c) else if RefusedLocally(state, c) then state else Closed(state);
      log := log + [c];
    }
  }

  predicate ExchangeCommand(c: Command) { c.ExchangeDeclare? || c.ExchangeBind? }

  predicate QueueCommand(c: Command) { c.QueueDeclare? || c.QueueBind? || c.BasicConsume? }

  class RobustExchange {
    const decl: ExDecl
    var bindings: map<ExRef, Route>

    constructor (decl: ExDecl)
      ensures this.decl == decl && bindings == map[]
    {
      this.decl := decl;
      bindings := map[];
    }

    function View(): ExObj
      reads this
    {
      ExObj(true, decl, bindings)
    }

    method Bind(server: Server, source: ExRef, route: Route, robust: bool) returns (ok: bool)
      modifies this, server
      ensures ok <==> Accepts(old(server.state), ExchangeBind(EBindOf(View(), source, route)))
      ensures View() == if ok then ExBound(old(View()), source, route, robust) else old(View())
      ensures server.state == Answered(old(server.state), ExchangeBind(EBindOf(View(), source, route)))
      ensures server.log == old(server.log) + [ExchangeBind(EBindOf(View(), source, route))]
    {
      ok := server.Send(ExchangeBind(EBindOf(View(), source, route)));
      if ok && robust {
        bindings := bindings[source := route];
      }
    }

    method Unbind(server: Server, source: ExRef, route: Route) returns (ok: bool)
      modifies this, server
      ensures ok && View() == ExUnbound(old(View()), source)
      ensures server.state == Effect(old(server.state), ExchangeUnbind(EBindOf(View(), source, route)))
    {
      ok := server.Send(ExchangeUnbind(EBindOf(View(), source, route)));
      bindings := bindings - {source};
    }

    /** Declares the exchange and makes its bindings again, in any order. */
    method Restore(server: Server) returns (ok: bool)
      modifies this, server
      ensures bindings == old(bindings)
      ensures RestoreExchange(old(server.state), View()) == if ok then Ok(server.state) else Refused
      ensures old(server.log) <= server.log
      ensures forall k :: |old(server.log)| <= k < |server.log| ==> ExchangeCommand(server.log[k])
      ensures ok && decl.name != "" ==> |server.log| > |old(server.log)| && server.log[|old(server.log)|] == ExchangeDeclare(decl)
    {
      if decl.name == "" {
        return true;
      }
      ok := server.Send(ExchangeDeclare(decl));
      if !ok {
        return;
      }
      ghost var b1 := server.state;
      assert HasExchange(b1, decl.name) by { assert decl in b1.exchanges; }
      ok := RestoreBindings(server);
    }

    method RestoreBindings(server: Server) returns (ok: bool)
      requires HasExchange(server.state, decl.name)
      modifies this, server
      ensures bindings == old(bindings)
      ensures ok <==> ExSourcesExist(old(server.state), View())
      ensures ok ==> server.state == old(server.state).(ebinds := old(server.state).ebinds + EBindsOf(View()))
      ensures old(server.log) <= server.log
      ensures forall k :: |old(server.log)| <= k < |server.log| ==> ExchangeCommand(server.log[k])
    {
      ok := true;
      var todo := bindings.Keys;
      ghost var e, b1 := View(), server.state;
      while todo != {}
        invariant ok && View() == e && todo <= e.bindings.Keys
        invariant server.state == b1.(ebinds := b1.ebinds + EBindsAt(e, e.bindings.Keys - todo))
        invariant forall s :: s in e.bindings && s !in todo ==> HasExchange(b1, s.name)
        invariant old(server.log) <= server.log
        invariant forall k :: |old(server.log)| <= k < |server.log| ==> ExchangeCommand(server.log[k])
        decreases todo
      {
        var source :| source in todo;
        SameExchanges(b1, server.state, source.name);
        SameExchanges(b1, server.state, decl.name);
        ok := Bind(server, source, bindings[source], true);
        if !ok {
          return;
        }
        OneMoreEBind(b1.ebinds, e, todo, source);
        todo := todo - {source};
      }
      assert e.bindings.Keys - todo == e.bindings.Keys;
    }
  }

  lemma SameExchanges(b: Broker, b': Broker, n: Name)
    requires b.exchanges == b'.exchanges
    ensures HasExchange(b, n) <==> HasExchange(b', n)
  {
  }

  function EBindsAt(e: ExObj, keys: set<ExRef>): set<EBind>
    requires keys <= e.bindings.Keys
  {
    set s | s in keys :: EBindOf(e, s, e.bindings[s])
  }

  lemma OneMoreEBind(before: set<EBind>, e: ExObj, todo: set<ExRef>, s: ExRef)
    requires s in todo && todo <= e.bindings.Keys
    ensures (before + EBindsAt(e, e.bindings.Keys - todo)) + {EBindOf(e, s, e.bindings[s])}
            == before + EBindsAt(e, e.bindings.Keys - (todo - {s}))
  {
  }

  class RobustQueue {
    const decl: QDecl
    var bindings: map<BindKey, Args>
    var consumers: map<Tag, Args>

    constructor (decl: QDecl)
      ensures this.decl == decl && bindings == map[] && consumers == map[]
    {
      this.decl := decl;
      bindings, consumers := map[], map[];
    }

    function View(): QObj
      reads this
    {
      QObj(true, decl, bindings, consumers)
    }

    method Bind(server: Server, k: BindKey, args: Args, robust: bool) returns (ok: bool)
      modifies this, server
      ensures ok <==> Accepts(old(server.state), QueueBind(QBindOf(View(), k, args)))
      ensures View() == if ok then QBound(old(View()), k, args, robust) else old(View())
      ensures server.state == Answered(old(server.state), QueueBind(QBindOf(View(), k, args)))
      ensures server.log == old(server.log) + [QueueBind(QBindOf(View(), k, args))]
    {
      ok := server.Send(QueueBind(QBindOf(View(), k, args)));
      if ok && robust {
        bindings := bindings[k := args];
      }
    }

    method Unbind(server: Server, k: BindKey, args: Args) returns (ok: bool)
      modifies this, server
      ensures ok && View() == QUnbound(old(View()), k)
      ensures server.state == Effect(old(server.state), QueueUnbind(QBindOf(View(), k, args)))
    {
      ok := server.Send(QueueUnbind(QBindOf(View(), k, args)));
      bindings := bindings - {k};
    }

    method Consume(server: Server, t: Tag, options: Args, robust: bool) returns (ok: bool)
      modifies this, server
      ensures ok <==> Accepts(old(server.state), BasicConsume(ConsumerOf(View(), t, options)))
      ensures View() == if ok then QConsuming(old(View()), t, options, robust) else old(View())
      ensures server.state == Answered(old(server.state), BasicConsume(ConsumerOf(View(), t, options)))
      ensures server.log == old(server.log) + [BasicConsume(ConsumerOf(View(), t, options))]
    {
      ok := server.Send(BasicConsume(ConsumerOf(View(), t, options)));
      if ok && robust {
        consumers := consumers[t := options];
      }
    }

    method Cancel(server: Server, t: Tag) returns (ok: bool)
      modifies this, server
      ensures ok && View() == QCancelled(old(View()), t)
      ensures server.state == Effect(old(server.state), BasicCancel(t))
    {
      ok := server.Send(BasicCancel(t));
      consumers := consumers - {t};
    }

    /** Declares the queue, binds it, and consumes again under the recorded tags. */
    method Restore(server: Server) returns (ok: bool)
      modifies this, server
      ensures bindings == old(bindings) && consumers == old(consumers)
      ensures RestoreQueue(old(server.state), View()) == if ok then Ok(server.state) else Refused
      ensures old(server.log) <= server.log
      ensures forall k :: |old(server.log)| <= k < |server.log| ==> QueueCommand(server.log[k])
    {
      ok := server.Send(QueueDeclare(decl));
      if !ok {
        return;
      }
      ghost var b1 := server.state;
      assert HasQueue(b1, decl.name) by { assert decl in b1.queues; }
      ok := RestoreBindings(server);
      if ok {
        SameQueues(b1, server.state, decl.name);
        ok := RestoreConsumers(server);
      }
    }

    method RestoreBindings(server: Server) returns (ok: bool)
      requires HasQueue(server.state, decl.name)
      modifies this, server
      ensures bindings == old(bindings) && consumers == old(consumers)
      ensures ok <==> QSourcesExist(old(server.state), View())
      ensures ok ==> server.state == old(server.state).(qbinds := old(server.state).qbinds + QBindsOf(View()))
      ensures old(server.log) <= server.log
      ensures forall k :: |old(server.log)| <= k < |server.log| ==> QueueCommand(server.log[k])
    {
      ok := true;
      var todo := bindings.Keys;
      ghost var q, b1 := View(), server.state;
      while todo != {}
        invariant ok && View() == q && todo <= q.bindings.Keys
        invariant server.state == b1.(qbinds := b1.qbinds + QBindsAt(q, q.bindings.Keys - todo))
        invariant forall k :: k in q.bindings && k !in todo ==> HasExchange(b1, k.source.name)
        invariant old(server.log) <= server.log
        invariant forall k :: |old(server.log)| <= k < |server.log| ==> QueueCommand(server.log[k])
        decreases todo
      {
        var key :| key in todo;
        SameExchanges(b1, server.state, key.source.name);
        SameQueues(b1, server.state, decl.name);
        ok := Bind(server, key, bindings[key], true);
        if !ok {
          return;
        }
        OneMoreQBind(b1.qbinds, q, todo, key);
        todo := todo - {key};
      }
      assert q.bindings.Keys - todo == q.bindings.Keys;
    }

    method RestoreConsumers(server: Server) returns (ok: bool)
      requires HasQueue(server.state, decl.name)
      modifies this, server
      ensures bindings == old(bindings) && consumers == old(consumers)
      ensures ok <==> TagsFree(old(server.state), View())
      ensures ok ==> server.state == old(server.state).(consumers := old(server.state).consumers + ConsumersOf(View()))
      ensures old(server.log) <= server.log
      ensures forall k :: |old(server.log)| <= k < |server.log| ==> QueueCommand(server.log[k])
    {
      ok := true;
      var todo := consumers.Keys;
      ghost var q, b1 := View(), server.state;
      while todo != {}
        invariant ok && View() == q && todo <= q.consumers.Keys
        invariant server.state == b1.(consumers := b1.consumers + ConsumersAt(q, q.consumers.Keys - todo))
        invariant forall t :: t in q.consumers && t !in todo ==> !HasTag(b1, t)
        invariant old(server.log) <= server.log
        invariant forall k :: |old(server.log)| <= k < |server.log| ==> QueueCommand(server.log[k])
        decreases todo
      {
        var tag :| tag in todo;
        TagNotAdded(b1, server.state, q, todo, tag);
        SameQueues(b1, server.state, decl.name);
        ok := Consume(server, tag, consumers[tag], true);
        if !ok {
          return;
        }
        OneMoreConsumer(b1.consumers, q, todo, tag);
        todo := todo - {tag};
      }
      assert q.consumers.Keys - todo == q.consumers.Keys;
    }
  }

  lemma SameQueues(b: Broker, b': Broker, n: Name)
    requires b.queues == b'.queues
    ensures HasQueue(b, n) <==> HasQueue(b', n)
  {
  }

  function QBindsAt(q: QObj, keys: set<BindKey>): set<QBind>
    requires keys <= q.bindings.Keys
  {
    set k | k in keys :: QBindOf(q, k, q.bindings[k])
  }

  lemma OneMoreQBind(before: set<QBind>, q: QObj, todo: set<BindKey>, k: BindKey)
    requires k in todo && todo <= q.bindings.Keys
    ensures (before + QBindsAt(q, q.bindings.Keys - todo)) + {QBindOf(q, k, q.bindings[k])}
            == before + QBindsAt(q, q.bindings.Keys - (todo - {k}))
  {
  }

  function ConsumersAt(q: QObj, tags: set<Tag>): set<Consumer>
    requires tags <= q.consumers.Keys
  {
    set t | t in tags :: ConsumerOf(q, t, q.consumers[t])
  }

  lemma OneMoreConsumer(before: set<Consumer>, q: QObj, todo: set<Tag>, t: Tag)
    requires t in todo && todo <= q.consumers.Keys
    ensures (before + ConsumersAt(q, q.consumers.Keys - todo)) + {ConsumerOf(q, t, q.consumers[t])}
            == before + ConsumersAt(q, q.consumers.Keys - (todo - {t}))
  {
  }

  lemma TagNotAdded(b: Broker, b': Broker, q: QObj, todo: set<Tag>, t: Tag)
    requires t in todo && todo <= q.consumers.Keys
    requires b'.consumers == b.consumers + ConsumersAt(q, q.consumers.Keys - todo)
    ensures HasTag(b', t) <==> HasTag(b, t)
  {
    assert forall c :: c in b.consumers ==> c in b'.consumers;
  }

  function ExViews(es: seq<RobustExchange>): (views: seq<ExObj>)
    reads es
    ensures |views| == |es| && forall k :: 0 <= k < |es| ==> views[k] == es[k].View()
  {
    seq(|es|, k requires 0 <= k < |es| reads es => es[k].View())
  }

  function QViews(qs: seq<RobustQueue>): (views: seq<QObj>)
    reads qs
    ensures |views| == |qs| && forall k :: 0 <= k < |qs| ==> views[k] == qs[k].View()
  {
    seq(|qs|, k requires 0 <= k < |qs| reads qs => qs[k].View())
  }

  /** `registry[name].add(x)` on a dictionary of sets. */
  function Registered<T(==)>(registry: map<Name, set<T>>, name: Name, x: T): map<Name, set<T>> {
    registry[name := (if name in registry then registry[name] else {}) + {x}]
  }

  type ExSets = map<Name, set<RobustExchange>>
  type QSets = map<Name, set<RobustQueue>>

  /** These are the objects a registry holds, in some order. */
  ghost predicate ListsHeldExchanges(es: seq<RobustExchange>, sets: ExSets) {
    && (forall e :: e in es ==> exists n :: n in sets && e in sets[n])
    && (forall n, e :: n in sets && e in sets[n] ==> e in es)
  }

  ghost predicate ListsHeldQueues(qs: seq<RobustQueue>, sets: QSets) {
    && (forall q :: q in qs ==> exists n :: n in sets && q in sets[n])
    && (forall n, q :: n in sets && q in sets[n] ==> q in qs)
  }

  /** No queue is bound before the last exchange is declared. */
  predicate BindsFollowDeclares(log: seq<Command>) {
    forall i, j :: 0 <= i < |log| && 0 <= j < |log| && log[i].QueueBind? && log[j].ExchangeDeclare? ==> j < i
  }

  lemma InTwoPhases(log: seq<Command>, split: nat)
    requires split <= |log|
    requires forall k :: 0 <= k < split ==> !log[k].QueueBind?
    requires forall k :: split <= k < |log| ==> !log[k].ExchangeDeclare?
    ensures BindsFollowDeclares(log)
  {
  }

  /** Names come in the order of the keys, objects of one name in any order. */
  predicate InKeyOrder(es: seq<RobustExchange>, names: seq<Name>) {
    forall k, l :: 0 <= k < l < |es| ==> Rank(names, es[k].decl.name) <= Rank(names, es[l].decl.name)
  }

  predicate NoRepeats<T(==)>(s: seq<T>) { forall k, l :: 0 <= k < l < |s| ==> s[k] != s[l] }

  class RobustChannel {
    var exchanges: ExSets
    var exchangeNames: seq<Name>  // the keys of `exchanges`, in insertion order
    var queues: QSets
    var prefetchCount: nat
    var prefetchSize: nat
    var globalQos: bool
    var restored: bool

    constructor ()
      ensures exchanges == map[] && exchangeNames == [] && queues == map[]
      ensures prefetchCount == prefetchSize == 0 && !globalQos && !restored
    {
      exchanges, exchangeNames, queues := map[], [], map[];
      prefetchCount, prefetchSize, globalQos, restored := 0, 0, false, false;
    }

    method DeclareExchange(server: Server, decl: ExDecl, internal: bool, robust: bool) returns (e: RobustExchange?)
      modifies this, server
      ensures e == null <==> !Accepts(old(server.state), ExchangeDeclare(decl))
      ensures e != null ==> fresh(e) && e.decl == decl && e.bindings == map[]
      ensures server.state == Answered(old(server.state), ExchangeDeclare(decl))
      ensures e != null && !internal && robust ==>
        var x: RobustExchange := e; exchanges == Registered(old(exchanges), decl.name, x)
      ensures e != null && !internal && robust ==> exchangeNames == Listed(old(exchangeNames), decl.name)
      ensures e == null || internal || !robust ==> exchanges == old(exchanges) && exchangeNames == old(exchangeNames)
      ensures queues == old(queues) && prefetchCount == old(prefetchCount) && prefetchSize == old(prefetchSize)
    {
      var ok := server.Send(ExchangeDeclare(decl));
      if !ok {
        return null;
      }
      e := new RobustExchange(decl);
      if !internal && robust {
        var x: RobustExchange := e;
        exchanges := Registered(exchanges, decl.name, x);
        exchangeNames := Listed(exchangeNames, decl.name);
      }
    }

    method ExchangeDelete(server: Server, name: Name, ifUnused: bool) returns (ok: bool)
      modifies this, server
      ensures ok <==> Accepts(old(server.state), Command.ExchangeDelete(name, ifUnused))
      ensures server.state == Answered(old(server.state), Command.ExchangeDelete(name, ifUnused))
      ensures exchanges == if ok then old(exchanges) - {name} else old(exchanges)
      ensures exchangeNames == if ok then Unlisted(old(exchangeNames), name) else old(exchangeNames)
      ensures queues == old(queues) && prefetchCount == old(prefetchCount) && prefetchSize == old(prefetchSize)
    {
      ok := server.Send(Command.ExchangeDelete(name, ifUnused));
      if ok {
        exchanges := exchanges - {name};
        exchangeNames := Unlisted(exchangeNames, name);
      }
    }

    method DeclareQueue(server: Server, decl: QDecl, robust: bool) returns (q: RobustQueue?)
      modifies this, server
      ensures q == null <==> !Accepts(old(server.state), QueueDeclare(decl))
      ensures q != null ==> fresh(q) && q.decl == decl && q.bindings == map[] && q.consumers == map[]
      ensures server.state == Answered(old(server.state), QueueDeclare(decl))
      ensures q != null && robust ==>
        var x: RobustQueue := q; queues == Registered(old(queues), decl.name, x)
      ensures q == null || !robust ==> queues == old(queues)
      ensures exchanges == old(exchanges) && exchangeNames == old(exchangeNames)
      ensures prefetchCount == old(prefetchCount) && prefetchSize == old(prefetchSize)
    {
      var ok := server.Send(QueueDeclare(decl));
      if !ok {
        return null;
      }
      q := new RobustQueue(decl);
      if robust {
        var x: RobustQueue := q;
        queues := Registered(queues, decl.name, x);
      }
    }

    method QueueDelete(server: Server, name: Name, ifUnused: bool, notEmpty: bool) returns (ok: bool)
      modifies this, server
      ensures ok <==> Accepts(old(server.state), Command.QueueDelete(name, ifUnused, notEmpty))
      ensures server.state == Answered(old(server.state), Command.QueueDelete(name, ifUnused, notEmpty))
      ensures queues == if ok then old(queues) - {name} else old(queues)
      ensures exchanges == old(exchanges) && exchangeNames == old(exchangeNames)
      ensures prefetchCount == old(prefetchCount) && prefetchSize == old(prefetchSize)
    {
      ok := server.Send(Command.QueueDelete(name, ifUnused, notEmpty));
      if ok {
        queues := queues - {name};
      }
    }

    method SetQos(server: Server, qos: Qos)
      modifies this, server
      ensures prefetchCount == qos.count && prefetchSize == qos.size && globalQos == qos.global_
      ensures server.state == Effect(old(server.state), BasicQos(qos))
      ensures exchanges == old(exchanges) && exchangeNames == old(exchangeNames) && queues == old(queues)
    {
      prefetchCount, prefetchSize, globalQos := qos.count, qos.size, qos.global_;
      var ok := server.Send(BasicQos(qos));
    }

    /** `_on_open` over the registered objects, listed as the keys and the sets yield them: the
        broker ends as the replay function says, every dictionary as it was, and no queue is
        bound before the last exchange is declared. */
    method OnOpen(server: Server, es: seq<RobustExchange>, qs: seq<RobustQueue>) returns (ok: bool)
      requires ListsHeldExchanges(es, exchanges) && InKeyOrder(es, exchangeNames) && ListsHeldQueues(qs, queues)
      modifies this`restored, server, es, qs
      ensures Replay.OnOpen(old(server.state), prefetchCount, prefetchSize, old(ExViews(es)), old(QViews(qs)))
              == if ok then Ok(server.state) else Refused
      ensures forall e :: e in es ==> e.bindings == old(e.bindings)
      ensures forall q :: q in qs ==> q.bindings == old(q.bindings) && q.consumers == old(q.consumers)
      ensures restored == (old(restored) || ok)
      ensures old(server.log) <= server.log
      ensures BindsFollowDeclares(server.log[|old(server.log)|..])
    {
      ok := server.Send(BasicQos(Qos(prefetchCount, prefetchSize, false)));
      ok := RestoreAll(server, es, qs, |old(server.log)|);
      if ok {
        restored := true;
      }
    }

    /** The two loops; `start` is where the replay began in the log. */
    method RestoreAll(server: Server, es: seq<RobustExchange>, qs: seq<RobustQueue>, ghost start: nat) returns (ok: bool)
      requires start <= |server.log| && forall k :: start <= k < |server.log| ==> server.log[k].BasicQos?
      modifies server, es, qs
      ensures match Replay.RestoreExchanges(old(server.state), old(ExViews(es)))
        case Refused => !ok
        case Ok(b) => Replay.RestoreQueues(b, old(QViews(qs))) == if ok then Ok(server.state) else Refused
      ensures forall e :: e in es ==> e.bindings == old(e.bindings)
      ensures forall q :: q in qs ==> q.bindings == old(q.bindings) && q.consumers == old(q.consumers)
      ensures old(server.log) <= server.log && BindsFollowDeclares(server.log[start..])
    {
      ok := RestoreExchanges(server, es, qs);
      ghost var split := |server.log|;
      if ok {
        ok := RestoreQueues(server, es, qs);
      }
      InTwoPhases(server.log[start..], split - start);
    }

    method RestoreExchanges(server: Server, es: seq<RobustExchange>, ghost qs: seq<RobustQueue>) returns (ok: bool)
      modifies server, es
      ensures Replay.RestoreExchanges(old(server.state), old(ExViews(es))) == if ok then Ok(server.state) else Refused
      ensures forall e :: e in es ==> e.bindings == old(e.bindings)
      ensures ExViews(es) == old(ExViews(es)) && QViews(qs) == old(QViews(qs))
      ensures old(server.log) <= server.log
      ensures forall k :: |old(server.log)| <= k < |server.log| ==> ExchangeCommand(server.log[k])
    {
      ghost var views := ExViews(es);
      for n := 0 to |es|
        invariant ExViews(es) == views && QViews(qs) == old(QViews(qs))
        invariant forall e :: e in es ==> e.bindings == old(e.bindings)
        invariant Replay.RestoreExchanges(old(server.state), views) == Replay.RestoreExchanges(server.state, views[n..])
        invariant old(server.log) <= server.log
        invariant forall k :: |old(server.log)| <= k < |server.log| ==> ExchangeCommand(server.log[k])
      {
        assert views[n..][0] == es[n].View() && views[n..][1..] == views[n + 1..];
        ok := es[n].Restore(server);
        if !ok {
          return;
        }
      }
      ok := true;
    }

    method RestoreQueues(server: Server, ghost es: seq<RobustExchange>, qs: seq<RobustQueue>) returns (ok: bool)
      modifies server, qs
      ensures Replay.RestoreQueues(old(server.state), old(QViews(qs))) == if ok then Ok(server.state) else Refused
      ensures forall q :: q in qs ==> q.bindings == old(q.bindings) && q.consumers == old(q.consumers)
      ensures ExViews(es) == old(ExViews(es)) && QViews(qs) == old(QViews(qs))
      ensures old(server.log) <= server.log
      ensures forall k :: |old(server.log)| <= k < |server.log| ==> QueueCommand(server.log[k])
    {
      ghost var views := QViews(qs);
      for n := 0 to |qs|
        invariant QViews(qs) == views && ExViews(es) == old(ExViews(es))
        invariant forall q :: q in qs ==> q.bindings == old(q.bindings) && q.consumers == old(q.consumers)
        invariant Replay.RestoreQueues(old(server.state), views) == Replay.RestoreQueues(server.state, views[n..])
        invariant old(server.log) <= server.log
        invariant forall k :: |old(server.log)| <= k < |server.log| ==> QueueCommand(server.log[k])
      {
        assert views[n..][0] == qs[n].View() && views[n..][1..] == views[n + 1..];
        ok := qs[n].Restore(server);
        if !ok {
          return;
        }
      }
      ok := true;
    }
  }
}
