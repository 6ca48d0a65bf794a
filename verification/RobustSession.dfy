/** One channel together with every object it has handed out.  What the objects' dictionaries
    and the channel's sets of objects say is one `Registry`; each call is one step of it, so
    the theorems on runs are theorems about the objects. */
module RobustSession {
  import opened Broker
  import opened Registry
  import opened RobustObjects

  predicate HoldsExchange(sets: ExSets, e: RobustExchange) { e.decl.name in sets && e in sets[e.decl.name] }

  predicate HoldsQueue(sets: QSets, q: RobustQueue) { q.decl.name in sets && q in sets[q.decl.name] }

  ghost predicate CoversExchanges(sets: ExSets, objects: map<Id, RobustExchange>) {
    forall n, e :: n in sets && e in sets[n] ==> e.decl.name == n && e in objects.Values
  }

  ghost predicate CoversQueues(sets: QSets, objects: map<Id, RobustQueue>) {
    forall n, q :: n in sets && q in sets[n] ==> q.decl.name == n && q in objects.Values
  }

  ghost predicate Distinct<T>(objects: map<Id, T>) {
    forall i, j :: i in objects && j in objects && i != j ==> objects[i] != objects[j]
  }

  ghost function ExchangesSeen(sets: ExSets, objects: map<Id, RobustExchange>): Exchanges
    reads objects.Values
  {
    map i | i in objects :: ExObj(HoldsExchange(sets, objects[i]), objects[i].decl, objects[i].bindings)
  }

  ghost function QueuesSeen(sets: QSets, objects: map<Id, RobustQueue>): Queues
    reads objects.Values
  {
    map i | i in objects :: QObj(HoldsQueue(sets, objects[i]), objects[i].decl, objects[i].bindings, objects[i].consumers)
  }

  lemma OneMoreObject<T>(objects: map<Id, T>, id: Id, x: T)
    requires Distinct(objects) && id !in objects && x !in objects.Values
    ensures Distinct(objects[id := x])
  {
    assert forall i :: i in objects ==> objects[i] in objects.Values;
  }

  lemma CoveredAfterDeclare(sets: ExSets, objects: map<Id, RobustExchange>, id: Id, e: RobustExchange, tracked: bool)
    requires id !in objects && e !in objects.Values && CoversExchanges(sets, objects)
    ensures CoversExchanges(if tracked then Registered(sets, e.decl.name, e) else sets, objects[id := e])
  {
    assert objects[id := e][id] == e;
    forall x | x in objects.Values ensures x in objects[id := e].Values {
      var i :| i in objects && objects[i] == x;
      assert objects[id := e][i] == x;
    }
  }

  lemma SeenAfterDeclare(sets: ExSets, objects: map<Id, RobustExchange>, id: Id, e: RobustExchange, tracked: bool)
    requires id !in objects && e !in objects.Values && CoversExchanges(sets, objects)
    ensures ExchangesSeen(if tracked then Registered(sets, e.decl.name, e) else sets, objects[id := e])
            == ExchangesSeen(sets, objects)[id := ExObj(tracked, e.decl, e.bindings)]
  {
    var sets' := if tracked then Registered(sets, e.decl.name, e) else sets;
    assert !HoldsExchange(sets, e);
    forall i | i in objects ensures HoldsExchange(sets', objects[i]) == HoldsExchange(sets, objects[i]) {
      assert objects[i] in objects.Values;
    }
  }

  lemma CoveredAfterDeclareQueue(sets: QSets, objects: map<Id, RobustQueue>, id: Id, q: RobustQueue, tracked: bool)
    requires id !in objects && q !in objects.Values && CoversQueues(sets, objects)
    ensures CoversQueues(if tracked then Registered(sets, q.decl.name, q) else sets, objects[id := q])
  {
    assert objects[id := q][id] == q;
    forall x | x in objects.Values ensures x in objects[id := q].Values {
      var i :| i in objects && objects[i] == x;
      assert objects[id := q][i] == x;
    }
  }

  lemma SeenAfterDeclareQueue(sets: QSets, objects: map<Id, RobustQueue>, id: Id, q: RobustQueue, tracked: bool)
    requires id !in objects && q !in objects.Values && CoversQueues(sets, objects)
    ensures QueuesSeen(if tracked then Registered(sets, q.decl.name, q) else sets, objects[id := q])
            == QueuesSeen(sets, objects)[id := QObj(tracked, q.decl, q.bindings, q.consumers)]
  {
    var sets' := if tracked then Registered(sets, q.decl.name, q) else sets;
    assert !HoldsQueue(sets, q);
    forall i | i in objects ensures HoldsQueue(sets', objects[i]) == HoldsQueue(sets, objects[i]) {
      assert objects[i] in objects.Values;
    }
  }

  lemma SeenAfterDelete(sets: ExSets, objects: map<Id, RobustExchange>, name: Name)
    ensures ExchangesSeen(sets - {name}, objects) == ForgetExchange(ExchangesSeen(sets, objects), name)
  {
  }

  lemma SeenAfterDeleteQueue(sets: QSets, objects: map<Id, RobustQueue>, name: Name)
    ensures QueuesSeen(sets - {name}, objects) == ForgetQueue(QueuesSeen(sets, objects), name)
  {
  }

  lemma SeenAre(sets: ExSets, objects: map<Id, RobustExchange>, seen: Exchanges)
    requires seen.Keys == objects.Keys
    requires forall i :: i in objects ==> seen[i] == objects[i].View().(tracked := HoldsExchange(sets, objects[i]))
    ensures ExchangesSeen(sets, objects) == seen
  {
  }

  lemma QueuesSeenAre(sets: QSets, objects: map<Id, RobustQueue>, seen: Queues)
    requires seen.Keys == objects.Keys
    requires forall i :: i in objects ==> seen[i] == objects[i].View().(tracked := HoldsQueue(sets, objects[i]))
    ensures QueuesSeen(sets, objects) == seen
  {
  }

  /** A call that the broker answers: accepted, it is the operation on both sides; refused, it
      changes no registry, and the channel is closed, unless the client refused it itself. */
  ghost predicate Follows(r: Registry, b: Broker, op: Op, r': Registry, b': Broker, ok: bool) {
    && Callable(r, op)
    && (ok <==> Accepts(b, CommandOf(r, op)))
    && r' == (if ok then Record(r, op) else r)
    && b' == Answered(b, CommandOf(r, op))
  }

  lemma ConsumeFollows(r: Registry, b: Broker, r': Registry, b': Broker, id: Id, tag: Tag, options: Args, robust: bool, ok: bool)
    requires id in r.queues
    requires ok <==> Accepts(b, Command.BasicConsume(ConsumerOf(r.queues[id], tag, options)))
    requires r' == r.(queues := r.queues[id := if ok then QConsuming(r.queues[id], tag, options, robust) else r.queues[id]])
    requires b' == Answered(b, Command.BasicConsume(ConsumerOf(r.queues[id], tag, options)))
    ensures Follows(r, b, Op.Consume(id, tag, options, robust), r', b', ok)
  {
    if !ok { assert r.queues[id := r.queues[id]] == r.queues; }
  }

  lemma BindQueueFollows(r: Registry, b: Broker, r': Registry, b': Broker, id: Id, key: BindKey, args: Args, robust: bool, ok: bool)
    requires id in r.queues
    requires ok <==> Accepts(b, Command.QueueBind(QBindOf(r.queues[id], key, args)))
    requires r' == r.(queues := r.queues[id := if ok then QBound(r.queues[id], key, args, robust) else r.queues[id]])
    requires b' == Answered(b, Command.QueueBind(QBindOf(r.queues[id], key, args)))
    ensures Follows(r, b, Op.BindQueue(id, key, args, robust), r', b', ok)
  {
    if !ok { assert r.queues[id := r.queues[id]] == r.queues; }
  }

  class Session {
    const channel: RobustChannel
    const server: Server
    ghost var exchanges: map<Id, RobustExchange>
    ghost var queues: map<Id, RobustQueue>

    ghost predicate Valid()
      reads this, channel
    {
      && Distinct(exchanges) && Distinct(queues)
      && CoversExchanges(channel.exchanges, exchanges) && CoversQueues(channel.queues, queues)
    }

    ghost function Known(): Registry
      reads this, channel, exchanges.Values, queues.Values
    {
      NEW_REGISTRY.(exchanges := ExchangesSeen(channel.exchanges, exchanges), exNames := channel.exchangeNames,
                    queues := QueuesSeen(channel.queues, queues),
                    prefetchCount := channel.prefetchCount, prefetchSize := channel.prefetchSize)
    }

    constructor ()
      ensures Valid() && Known() == NEW_REGISTRY && server.state == NEW_BROKER
    {
      channel := new RobustChannel();
      server := new Server();
      exchanges, queues := map[], map[];
    }

    method DeclareExchange(ghost id: Id, decl: ExDecl, internal: bool, robust: bool) returns (e: RobustExchange?)
      requires Valid() && id !in exchanges
      modifies this`exchanges, channel, server
      ensures Valid() && queues == old(queues)
      ensures e != null ==> id in exchanges && exchanges[id] == e
      ensures forall i :: i in old(exchanges) ==> i in exchanges && exchanges[i] == old(exchanges[i])
      ensures Follows(old(Known()), old(server.state), Op.DeclareExchange(id, decl, internal, robust), Known(), server.state, e != null)
    {
      e := channel.DeclareExchange(server, decl, internal, robust);
      if e != null {
        var x: RobustExchange := e;
        OneMoreObject(exchanges, id, x);
        CoveredAfterDeclare(old(channel.exchanges), exchanges, id, x, !internal && robust);
        SeenAfterDeclare(old(channel.exchanges), exchanges, id, x, !internal && robust);
        exchanges := exchanges[id := x];
      }
    }

    method DeclareQueue(ghost id: Id, decl: QDecl, robust: bool) returns (q: RobustQueue?)
      requires Valid() && id !in queues
      modifies this`queues, channel, server
      ensures Valid() && exchanges == old(exchanges)
      ensures q != null ==> id in queues && queues[id] == q
      ensures forall i :: i in old(queues) ==> i in queues && queues[i] == old(queues[i])
      ensures Follows(old(Known()), old(server.state), Op.DeclareQueue(id, decl, robust), Known(), server.state, q != null)
    {
      q := channel.DeclareQueue(server, decl, robust);
      if q != null {
        var x: RobustQueue := q;
        OneMoreObject(queues, id, x);
        CoveredAfterDeclareQueue(old(channel.queues), queues, id, x, robust);
        SeenAfterDeclareQueue(old(channel.queues), queues, id, x, robust);
        queues := queues[id := x];
      }
    }

    method DeleteExchange(name: Name, ifUnused: bool) returns (ok: bool)
      requires Valid()
      modifies channel, server
      ensures Valid()
      ensures Follows(old(Known()), old(server.state), Op.DeleteExchange(name, ifUnused), Known(), server.state, ok)
    {
      ok := channel.ExchangeDelete(server, name, ifUnused);
      SeenAfterDelete(old(channel.exchanges), exchanges, name);
    }

    method DeleteQueue(name: Name, ifUnused: bool, notEmpty: bool) returns (ok: bool)
      requires Valid()
      modifies channel, server
      ensures Valid()
      ensures Follows(old(Known()), old(server.state), Op.DeleteQueue(name, ifUnused, notEmpty), Known(), server.state, ok)
    {
      ok := channel.QueueDelete(server, name, ifUnused, notEmpty);
      SeenAfterDeleteQueue(old(channel.queues), queues, name);
    }

    method SetQos(qos: Qos)
      requires Valid()
      modifies channel, server
      ensures Valid()
      ensures Follows(old(Known()), old(server.state), Op.SetQos(qos), Known(), server.state, true)
    {
      channel.SetQos(server, qos);
    }

    method BindExchange(e: RobustExchange, ghost id: Id, source: ExRef, route: Route, robust: bool) returns (ok: bool)
      requires Valid() && id in exchanges && exchanges[id] == e
      modifies e, server
      ensures Valid()
      ensures Follows(old(Known()), old(server.state), Op.BindExchange(id, source, route, robust), Known(), server.state, ok)
    {
      ok := e.Bind(server, source, route, robust);
      assert Known().exchanges == old(Known()).exchanges[id := Known().exchanges[id]];
    }

    method UnbindExchange(e: RobustExchange, ghost id: Id, source: ExRef, route: Route)
      requires Valid() && id in exchanges && exchanges[id] == e
      modifies e, server
      ensures Valid()
      ensures Follows(old(Known()), old(server.state), Op.UnbindExchange(id, source, route), Known(), server.state, true)
    {
      var ok := e.Unbind(server, source, route);
      assert Known().exchanges == old(Known()).exchanges[id := Known().exchanges[id]];
    }

    method BindQueue(q: RobustQueue, ghost id: Id, key: BindKey, args: Args, robust: bool) returns (ok: bool)
      requires Valid() && id in queues && queues[id] == q
      modifies q, server
      ensures Valid()
      ensures Follows(old(Known()), old(server.state), Op.BindQueue(id, key, args, robust), Known(), server.state, ok)
    {
      ghost var r, b := Known(), server.state;
      ok := q.Bind(server, key, args, robust);
      ghost var r' := Known();
      assert r'.queues == r.queues[id := r'.queues[id]];
      BindQueueFollows(r, b, r', server.state, id, key, args, robust, ok);
    }

    method UnbindQueue(q: RobustQueue, ghost id: Id, key: BindKey, args: Args)
      requires Valid() && id in queues && queues[id] == q
      modifies q, server
      ensures Valid()
      ensures Follows(old(Known()), old(server.state), Op.UnbindQueue(id, key, args), Known(), server.state, true)
    {
      var ok := q.Unbind(server, key, args);
      assert Known().queues == old(Known()).queues[id := Known().queues[id]];
    }

    method Consume(q: RobustQueue, ghost id: Id, tag: Tag, options: Args, robust: bool) returns (ok: bool)
      requires Valid() && id in queues && queues[id] == q
      modifies q, server
      ensures Valid()
      ensures Follows(old(Known()), old(server.state), Op.Consume(id, tag, options, robust), Known(), server.state, ok)
    {
      ghost var r, b := Known(), server.state;
      ok := q.Consume(server, tag, options, robust);
      ghost var r' := Known();
      assert r'.queues == r.queues[id := r'.queues[id]];
      ConsumeFollows(r, b, r', server.state, id, tag, options, robust, ok);
    }

    method Cancel(q: RobustQueue, ghost id: Id, tag: Tag)
      requires Valid() && id in queues && queues[id] == q
      modifies q, server
      ensures Valid()
      ensures Follows(old(Known()), old(server.state), Op.Cancel(id, tag), Known(), server.state, true)
    {
      var ok := q.Cancel(server, tag);
      assert Known().queues == old(Known()).queues[id := Known().queues[id]];
    }
  }
}
