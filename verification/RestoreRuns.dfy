/** Restoration over whole runs: whatever was declared, bound and consumed, and however often
    the broker lost it, a replay brings it back. */
module RestoreRuns {
  import opened Broker
  import opened Slots
  import opened Registry
  import opened RegistryGuards
  import opened Replay

  /** No two registered queue objects consume under one tag. */
  ghost predicate TagsUnique(m: Queues) {
    forall i, j, t :: HasConsumer(m, Slot(i, t)) && HasConsumer(m, Slot(j, t)) ==> i == j
  }

  ghost predicate Names(m: Exchanges, n: Name) { exists i :: i in m && m[i].tracked && m[i].decl.name == n }

  predicate EachOnce(names: seq<Name>) { forall k, l :: 0 <= k < l < |names| ==> names[k] != names[l] }

  /** The keys are the names of the registered exchanges, each once. */
  ghost predicate KeysMatch(m: Exchanges, names: seq<Name>) {
    && EachOnce(names)
    && (forall n :: n in names <==> Names(m, n))
  }

  ghost predicate Good(r: Registry, b: Broker) {
    Agree(r, b) && Sound(b) && TagsUnique(r.queues) && KeysMatch(r.exchanges, r.exNames)
  }

  /** What is left of a broker when the channel is lost: any part of it, but no consumers. */
  ghost predicate Survives(s: Broker, b: Broker) {
    && s.exchanges <= b.exchanges && s.queues <= b.queues
    && s.ebinds <= b.ebinds && s.qbinds <= b.qbinds && s.consumers == {}
  }

  /** An order in which the registered exchanges may be iterated: names in the order of the
      keys, objects of one name in any order. */
  ghost predicate ListsExchanges(order: seq<Id>, m: Exchanges, names: seq<Name>) {
    && (forall k :: 0 <= k < |order| ==> order[k] in m && m[order[k]].tracked)
    && (forall i :: i in m && m[i].tracked ==> i in order)
    && (forall k, l :: 0 <= k < l < |order| ==> Rank(names, m[order[k]].decl.name) <= Rank(names, m[order[l]].decl.name))
  }

  /** Every source that a registered exchange binds has survived, or was registered no later
      than that exchange. */
  ghost predicate SourcesFirst(m: Exchanges, names: seq<Name>, s: Broker) {
    forall i, x :: i in m && m[i].tracked && x in m[i].bindings ==>
      HasExchange(s, x.name) || Rank(names, x.name) <= Rank(names, m[i].decl.name)
  }

  ghost predicate ListsQueues(order: seq<Id>, m: Queues) {
    && (forall k :: 0 <= k < |order| ==> order[k] in m && m[order[k]].tracked)
    && (forall i :: i in m && m[i].tracked ==> i in order)
    && (forall k, l :: 0 <= k < l < |order| ==> order[k] != order[l])
  }

  function ExchangesIn(m: Exchanges, order: seq<Id>): (es: seq<ExObj>)
    requires forall k :: 0 <= k < |order| ==> order[k] in m
    ensures |es| == |order| && forall k :: 0 <= k < |order| ==> es[k] == m[order[k]]
  {
    seq(|order|, k requires 0 <= k < |order| => m[order[k]])
  }

  function QueuesIn(m: Queues, order: seq<Id>): (qs: seq<QObj>)
    requires forall k :: 0 <= k < |order| ==> order[k] in m
    ensures |qs| == |order| && forall k :: 0 <= k < |order| ==> qs[k] == m[order[k]]
  {
    seq(|order|, k requires 0 <= k < |order| => m[order[k]])
  }

  // -------------------------------------------------------------------------------------
  // The unions a replay adds are the accounts

  lemma {:induction false} InExUnions(es: seq<ExObj>, d: ExDecl, v: EBind)
    ensures d in DeclsOf(es) <==> exists k :: 0 <= k < |es| && es[k].decl == d
    ensures v in AllEBinds(es) <==> exists k :: 0 <= k < |es| && v in EBindsOf(es[k])
  {
    if es == [] {
    } else {
      InExUnions(es[1..], d, v);
      assert forall k :: 0 < k < |es| ==> es[k] == es[1..][k - 1];
      assert forall k :: 0 <= k < |es[1..]| ==> es[1..][k] == es[k + 1];
    }
  }

  lemma {:induction false} InQUnions(qs: seq<QObj>, d: QDecl, v: QBind, c: Consumer)
    ensures d in QDeclsOf(qs) <==> exists k :: 0 <= k < |qs| && qs[k].decl == d
    ensures v in AllQBinds(qs) <==> exists k :: 0 <= k < |qs| && v in QBindsOf(qs[k])
    ensures c in AllConsumers(qs) <==> exists k :: 0 <= k < |qs| && c in ConsumersOf(qs[k])
  {
    if qs == [] {
    } else {
      InQUnions(qs[1..], d, v, c);
      assert forall k :: 0 < k < |qs| ==> qs[k] == qs[1..][k - 1];
      assert forall k :: 0 <= k < |qs[1..]| ==> qs[1..][k] == qs[k + 1];
    }
  }

  lemma EBindAccounted(m: Exchanges, names: seq<Name>, order: seq<Id>, v: EBind)
    requires ListsExchanges(order, m, names)
    ensures (exists k :: 0 <= k < |order| && v in EBindsOf(m[order[k]])) <==> Accounted(EBindSlots(m), v)
  {
    if k :| 0 <= k < |order| && v in EBindsOf(m[order[k]]) {
      var s :| s in m[order[k]].bindings && v == EBindOf(m[order[k]], s, m[order[k]].bindings[s]);
      assert HasEBind(m, Slot(order[k], s)) && EBindSlots(m)[Slot(order[k], s)] == v;
    }
    if Accounted(EBindSlots(m), v) {
      var s :| s in EBindSlots(m) && EBindSlots(m)[s] == v;
      var k :| 0 <= k < |order| && order[k] == s.owner;
      assert v in EBindsOf(m[order[k]]);
    }
  }

  lemma QBindAccounted(m: Queues, order: seq<Id>, v: QBind)
    requires ListsQueues(order, m)
    ensures (exists k :: 0 <= k < |order| && v in QBindsOf(m[order[k]])) <==> Accounted(QBindSlots(m), v)
  {
    if k :| 0 <= k < |order| && v in QBindsOf(m[order[k]]) {
      var s :| s in m[order[k]].bindings && v == QBindOf(m[order[k]], s, m[order[k]].bindings[s]);
      assert HasQBind(m, Slot(order[k], s)) && QBindSlots(m)[Slot(order[k], s)] == v;
    }
    if Accounted(QBindSlots(m), v) {
      var s :| s in QBindSlots(m) && QBindSlots(m)[s] == v;
      var k :| 0 <= k < |order| && order[k] == s.owner;
      assert v in QBindsOf(m[order[k]]);
    }
  }

  lemma ConsumerAccounted(m: Queues, order: seq<Id>, c: Consumer)
    requires ListsQueues(order, m)
    ensures (exists k :: 0 <= k < |order| && c in ConsumersOf(m[order[k]])) <==> Accounted(ConsumerSlots(m), c)
  {
    if k :| 0 <= k < |order| && c in ConsumersOf(m[order[k]]) {
      var t :| t in m[order[k]].consumers && c == ConsumerOf(m[order[k]], t, m[order[k]].consumers[t]);
      assert HasConsumer(m, Slot(order[k], t)) && ConsumerSlots(m)[Slot(order[k], t)] == c;
    }
    if Accounted(ConsumerSlots(m), c) {
      var s :| s in ConsumerSlots(m) && ConsumerSlots(m)[s] == c;
      var k :| 0 <= k < |order| && order[k] == s.owner;
      assert c in ConsumersOf(m[order[k]]);
    }
  }

  lemma ExDeclUnion(b: Broker, m: Exchanges, names: seq<Name>, order: seq<Id>)
    requires Balanced(b.exchanges, ExSlots(m)) && ListsExchanges(order, m, names)
    ensures DeclsOf(ExchangesIn(m, order)) == b.exchanges
  {
    var es := ExchangesIn(m, order);
    forall d ensures d in DeclsOf(es) <==> d in b.exchanges {
      InExUnions(es, d, EBind("", "", "", map[]));
      if Accounted(ExSlots(m), d) {
        var i :| i in ExSlots(m) && ExSlots(m)[i] == d;
        var k :| 0 <= k < |order| && order[k] == i;
        assert es[k].decl == d;
      }
      if k :| 0 <= k < |es| && es[k].decl == d {
        assert ExSlots(m)[order[k]] == d;
      }
    }
  }

  lemma EBindUnion(b: Broker, m: Exchanges, names: seq<Name>, order: seq<Id>)
    requires Balanced(b.ebinds, EBindSlots(m)) && ListsExchanges(order, m, names)
    ensures AllEBinds(ExchangesIn(m, order)) == b.ebinds
  {
    forall v ensures v in AllEBinds(ExchangesIn(m, order)) <==> v in b.ebinds {
      InExUnions(ExchangesIn(m, order), ExDecl("", map[]), v);
      EBindAccounted(m, names, order, v);
    }
  }

  lemma QDeclUnion(b: Broker, m: Queues, order: seq<Id>)
    requires Balanced(b.queues, QSlots(m)) && ListsQueues(order, m)
    ensures QDeclsOf(QueuesIn(m, order)) == b.queues
  {
    var qs := QueuesIn(m, order);
    forall d ensures d in QDeclsOf(qs) <==> d in b.queues {
      InQUnions(qs, d, QBind("", "", "", map[]), Consumer("", "", map[]));
      if Accounted(QSlots(m), d) {
        var i :| i in QSlots(m) && QSlots(m)[i] == d;
        var k :| 0 <= k < |order| && order[k] == i;
        assert qs[k].decl == d;
      }
      if k :| 0 <= k < |qs| && qs[k].decl == d {
        assert QSlots(m)[order[k]] == d;
      }
    }
  }

  lemma QBindUnion(b: Broker, m: Queues, order: seq<Id>)
    requires Balanced(b.qbinds, QBindSlots(m)) && ListsQueues(order, m)
    ensures AllQBinds(QueuesIn(m, order)) == b.qbinds
  {
    forall v ensures v in AllQBinds(QueuesIn(m, order)) <==> v in b.qbinds {
      InQUnions(QueuesIn(m, order), QDecl("", map[]), v, Consumer("", "", map[]));
      QBindAccounted(m, order, v);
    }
  }

  lemma ConsumerUnion(b: Broker, m: Queues, order: seq<Id>)
    requires Balanced(b.consumers, ConsumerSlots(m)) && ListsQueues(order, m)
    ensures AllConsumers(QueuesIn(m, order)) == b.consumers
  {
    forall c ensures c in AllConsumers(QueuesIn(m, order)) <==> c in b.consumers {
      InQUnions(QueuesIn(m, order), QDecl("", map[]), QBind("", "", "", map[]), c);
      ConsumerAccounted(m, order, c);
    }
  }

  // -------------------------------------------------------------------------------------
  // The order of the keys decides

  lemma {:induction false} RankFinds(names: seq<Name>, n: Name)
    requires n in names
    ensures Rank(names, n) < |names| && names[Rank(names, n)] == n
  {
    if names[0] == n {
    } else {
      RankFinds(names[1..], n);
    }
  }

  lemma SourceIsRegistered(r: Registry, b: Broker, i: Id, x: ExRef)
    requires Balanced(b.exchanges, ExSlots(r.exchanges)) && Balanced(b.ebinds, EBindSlots(r.exchanges)) && Sound(b)
    requires i in r.exchanges && r.exchanges[i].tracked && x in r.exchanges[i].bindings
    ensures Names(r.exchanges, x.name)
  {
    var v := EBindOf(r.exchanges[i], x, r.exchanges[i].bindings[x]);
    assert HasEBind(r.exchanges, Slot(i, x)) && EBindSlots(r.exchanges)[Slot(i, x)] == v;
    assert HasExchange(b, v.source);
    var d :| d in b.exchanges && d.name == v.source;
    var j :| j in ExSlots(r.exchanges) && ExSlots(r.exchanges)[j] == d;
  }

  lemma PlaceOf(m: Exchanges, names: seq<Name>, order: seq<Id>, n: Name) returns (j: nat)
    requires ListsExchanges(order, m, names) && Names(m, n)
    ensures j < |order| && m[order[j]].decl.name == n
  {
    var i :| i in m && m[i].tracked && m[i].decl.name == n;
    j :| 0 <= j < |order| && order[j] == i;
  }

  lemma SameRankSameName(m: Exchanges, names: seq<Name>, n: Name, o: Name)
    requires KeysMatch(m, names) && Names(m, n) && Names(m, o)
    ensures Rank(names, n) == Rank(names, o) ==> n == o
  {
    RankFinds(names, n);
    RankFinds(names, o);
  }

  lemma DeclaredInTime(m: Exchanges, names: seq<Name>, order: seq<Id>, k: nat, n: Name)
    requires ListsExchanges(order, m, names) && KeysMatch(m, names) && k < |order| && Names(m, n)
    ensures DeclaredBy(ExchangesIn(m, order), k, n) <==> Rank(names, n) <= Rank(names, m[order[k]].decl.name)
  {
    var es := ExchangesIn(m, order);
    if DeclaredBy(es, k, n) {
      var j :| 0 <= j <= k && es[j].decl.name == n;
    } else {
      var j := PlaceOf(m, names, order, n);
      assert es[j].decl.name == n;
      SameRankSameName(m, names, n, es[k].decl.name);
    }
  }

  /** Whether sources come first does not depend on the order in which objects of one name are
      iterated, but only on the order in which names were first registered. */
  lemma OrderOfKeysDecides(r: Registry, b: Broker, s: Broker, order: seq<Id>)
    requires Agree(r, b) && Sound(b) && KeysMatch(r.exchanges, r.exNames)
    requires ListsExchanges(order, r.exchanges, r.exNames)
    ensures SourcesInOrder(s, ExchangesIn(r.exchanges, order)) <==> SourcesFirst(r.exchanges, r.exNames, s)
  {
    var m, es := r.exchanges, ExchangesIn(r.exchanges, order);
    forall k, x | 0 <= k < |es| && x in es[k].bindings
      ensures DeclaredBy(es, k, x.name) <==> Rank(r.exNames, x.name) <= Rank(r.exNames, m[order[k]].decl.name)
    {
      SourceIsRegistered(r, b, order[k], x);
      DeclaredInTime(m, r.exNames, order, k, x.name);
    }
    forall i | i in m && m[i].tracked ensures exists k :: 0 <= k < |order| && order[k] == i {
      assert i in order;
    }
    if SourcesInOrder(s, es) {
      forall i, x | i in m && m[i].tracked && x in m[i].bindings
        ensures HasExchange(s, x.name) || Rank(r.exNames, x.name) <= Rank(r.exNames, m[i].decl.name)
      {
        var k :| 0 <= k < |order| && order[k] == i;
        assert x in es[k].bindings;
      }
    }
  }

  // -------------------------------------------------------------------------------------
  // One loss and one replay

  lemma TrackedExchangesFit(r: Registry, b: Broker, s: Broker, order: seq<Id>)
    requires Balanced(b.exchanges, ExSlots(r.exchanges)) && Sound(b) && s.exchanges <= b.exchanges
    requires ListsExchanges(order, r.exchanges, r.exNames)
    ensures ExchangesFit(s, ExchangesIn(r.exchanges, order))
  {
    var es := ExchangesIn(r.exchanges, order);
    forall k | 0 <= k < |es| ensures es[k].decl in b.exchanges {
      assert ExSlots(r.exchanges)[order[k]] == es[k].decl;
    }
  }

  lemma TrackedDeclsFit(m: Queues, b: Broker, s: Broker, order: seq<Id>)
    requires Balanced(b.queues, QSlots(m)) && Sound(b) && s.queues <= b.queues && ListsQueues(order, m)
    ensures QDeclsFit(s, QueuesIn(m, order))
  {
    forall k | 0 <= k < |order| ensures m[order[k]].decl in b.queues {
      assert QSlots(m)[order[k]] == m[order[k]].decl;
    }
  }

  lemma TrackedSourcesExist(m: Queues, b: Broker, s: Broker, i: Id)
    requires Balanced(b.qbinds, QBindSlots(m)) && Sound(b) && s.exchanges == b.exchanges && i in m && m[i].tracked
    ensures QSourcesExist(s, m[i])
  {
    forall x | x in m[i].bindings ensures HasExchange(s, x.source.name) {
      var v := QBindOf(m[i], x, m[i].bindings[x]);
      assert HasQBind(m, Slot(i, x)) && QBindSlots(m)[Slot(i, x)] == v;
      assert v in b.qbinds;
    }
  }

  lemma TrackedTagsFit(m: Queues, s: Broker, order: seq<Id>)
    requires TagsUnique(m) && ListsQueues(order, m) && s.consumers == {}
    ensures QTagsFit(s, QueuesIn(m, order))
  {
    var qs := QueuesIn(m, order);
    forall i, j, t | 0 <= i < |qs| && 0 <= j < |qs| && t in qs[i].consumers && t in qs[j].consumers ensures i == j {
      assert HasConsumer(m, Slot(order[i], t)) && HasConsumer(m, Slot(order[j], t));
    }
  }

  lemma TrackedQueuesFit(m: Queues, b: Broker, s: Broker, order: seq<Id>)
    requires Balanced(b.queues, QSlots(m)) && Balanced(b.qbinds, QBindSlots(m))
    requires Sound(b) && TagsUnique(m) && ListsQueues(order, m)
    requires s.queues <= b.queues && s.exchanges == b.exchanges && s.consumers == {}
    ensures QueuesFit(s, QueuesIn(m, order))
  {
    TrackedDeclsFit(m, b, s, order);
    TrackedTagsFit(m, s, order);
    forall k | 0 <= k < |order| ensures QSourcesExist(s, m[order[k]]) {
      TrackedSourcesExist(m, b, s, order[k]);
    }
  }

  lemma ExchangesFromUnions(b: Broker, s: Broker, es: seq<ExObj>)
    requires ExchangesFit(s, es) && DeclsOf(es) == b.exchanges && AllEBinds(es) == b.ebinds
    requires s.exchanges <= b.exchanges && s.ebinds <= b.ebinds
    ensures RestoreExchanges(s, es)
            == if SourcesInOrder(s, es) then Ok(s.(exchanges := b.exchanges, ebinds := b.ebinds)) else Refused
  {
    ExchangesReplay(s, es);
    assert s.exchanges + b.exchanges == b.exchanges && s.ebinds + b.ebinds == b.ebinds;
  }

  lemma QueuesFromUnions(b: Broker, s: Broker, qs: seq<QObj>)
    requires QueuesFit(s, qs) && QDeclsOf(qs) == b.queues && AllQBinds(qs) == b.qbinds && AllConsumers(qs) == b.consumers
    requires s.queues <= b.queues && s.qbinds <= b.qbinds && s.consumers == {}
    ensures RestoreQueues(s, qs) == Ok(s.(queues := b.queues, qbinds := b.qbinds, consumers := b.consumers))
  {
    QueuesReplay(s, qs);
    assert s.queues + b.queues == b.queues && s.qbinds + b.qbinds == b.qbinds && s.consumers + b.consumers == b.consumers;
  }

  lemma ExchangePhase(r: Registry, b: Broker, s: Broker, order: seq<Id>)
    requires Agree(r, b) && Sound(b) && s.exchanges <= b.exchanges && s.ebinds <= b.ebinds
    requires ListsExchanges(order, r.exchanges, r.exNames)
    ensures var es := ExchangesIn(r.exchanges, order);
      RestoreExchanges(s, es)
      == if SourcesInOrder(s, es) then Ok(s.(exchanges := b.exchanges, ebinds := b.ebinds)) else Refused
  {
    var es := ExchangesIn(r.exchanges, order);
    TrackedExchangesFit(r, b, s, order);
    ExDeclUnion(b, r.exchanges, r.exNames, order);
    EBindUnion(b, r.exchanges, r.exNames, order);
    ExchangesFromUnions(b, s, es);
  }

  lemma QueuePhase(r: Registry, b: Broker, s: Broker, order: seq<Id>)
    requires Good(r, b) && s.queues <= b.queues && s.qbinds <= b.qbinds && s.consumers == {}
    requires s.exchanges == b.exchanges && ListsQueues(order, r.queues)
    ensures RestoreQueues(s, QueuesIn(r.queues, order))
            == Ok(s.(queues := b.queues, qbinds := b.qbinds, consumers := b.consumers))
  {
    var qs := QueuesIn(r.queues, order);
    TrackedQueuesFit(r.queues, b, s, order);
    QDeclUnion(b, r.queues, order);
    QBindUnion(b, r.queues, order);
    ConsumerUnion(b, r.queues, order);
    QueuesFromUnions(b, s, qs);
  }

  /** Restoration rebuilds the broker: from whatever survived, a replay yields exactly the
      broker from before the loss if every exchange binds only sources that survived or were
      registered no later than itself, and is refused otherwise.  The registries are not an
      output: replay does not change them. */
  lemma ReplayRebuilds(r: Registry, b: Broker, s: Broker, exOrder: seq<Id>, qOrder: seq<Id>)
    requires Good(r, b) && Survives(s, b)
    requires ListsExchanges(exOrder, r.exchanges, r.exNames) && ListsQueues(qOrder, r.queues)
    ensures OnOpen(s, r.prefetchCount, r.prefetchSize, ExchangesIn(r.exchanges, exOrder), QueuesIn(r.queues, qOrder))
            == if SourcesFirst(r.exchanges, r.exNames, s) then Ok(b) else Refused
  {
    var es := ExchangesIn(r.exchanges, exOrder);
    var s0 := Effect(s, BasicQos(Qos(r.prefetchCount, r.prefetchSize, false)));
    OrderOfKeysDecides(r, b, s, exOrder);
    assert SourcesInOrder(s0, es) <==> SourcesInOrder(s, es) by {
      assert forall n :: HasExchange(s0, n) <==> HasExchange(s, n);
    }
    ExchangePhase(r, b, s0, exOrder);
    if SourcesInOrder(s, es) {
      QueuePhase(r, b, s0.(exchanges := b.exchanges, ebinds := b.ebinds), qOrder);
    }
  }

  /** After a total loss the replay is refused exactly when some registered exchange binds a
      source registered later than itself. */
  lemma TotalLossRefusedIff(r: Registry, b: Broker, exOrder: seq<Id>, qOrder: seq<Id>)
    requires Good(r, b)
    requires ListsExchanges(exOrder, r.exchanges, r.exNames) && ListsQueues(qOrder, r.queues)
    ensures OnOpen(NEW_BROKER, r.prefetchCount, r.prefetchSize, ExchangesIn(r.exchanges, exOrder), QueuesIn(r.queues, qOrder))
            == Refused <==>
      exists i, x :: i in r.exchanges && r.exchanges[i].tracked && x in r.exchanges[i].bindings
                     && Rank(r.exNames, x.name) > Rank(r.exNames, r.exchanges[i].decl.name)
  {
    ReplayRebuilds(r, b, NEW_BROKER, exOrder, qOrder);
    assert forall n :: !HasExchange(NEW_BROKER, n);
  }

  /** A refused method closes the channel.  Nothing it had declared or bound is gone, so the
      reopening that follows never fails, and gives the consumers and the prefetch back. */
  lemma RefusalIsRepaired(r: Registry, b: Broker, exOrder: seq<Id>, qOrder: seq<Id>)
    requires Good(r, b)
    requires ListsExchanges(exOrder, r.exchanges, r.exNames) && ListsQueues(qOrder, r.queues)
    ensures OnOpen(Closed(b), r.prefetchCount, r.prefetchSize, ExchangesIn(r.exchanges, exOrder), QueuesIn(r.queues, qOrder)) == Ok(b)
  {
    forall i, x | i in r.exchanges && r.exchanges[i].tracked && x in r.exchanges[i].bindings
      ensures HasExchange(Closed(b), x.name)
    {
      SourceIsRegistered(r, b, i, x);
      var j :| j in r.exchanges && r.exchanges[j].tracked && r.exchanges[j].decl.name == x.name;
      assert ExSlots(r.exchanges)[j] == r.exchanges[j].decl;
      assert r.exchanges[j].decl in Closed(b).exchanges;
    }
    ReplayRebuilds(r, b, Closed(b), exOrder, qOrder);
  }

  // -------------------------------------------------------------------------------------
  // Whole runs

  /** `Do` is an operation the broker accepts.  `Refuse` is one it refuses, with the reopening
      that follows; `Lose` is the loss of the channel, and more, with the same. */
  datatype Step =
    | Do(op: Op)
    | Refuse(op: Op, exOrder: seq<Id>, qOrder: seq<Id>)
    | Lose(survivors: Broker, exOrder: seq<Id>, qOrder: seq<Id>)

  datatype Robust = Robust(registry: Registry, broker: Broker)

  ghost predicate Orders(r: Registry, exOrder: seq<Id>, qOrder: seq<Id>) {
    ListsExchanges(exOrder, r.exchanges, r.exNames) && ListsQueues(qOrder, r.queues)
  }

  ghost predicate Allowed(x: Robust, step: Step) {
    match step
    case Do(op) =>
      Callable(x.registry, op) && Accepts(x.broker, CommandOf(x.registry, op)) && Guard(x.registry, op)
    case Refuse(op, exOrder, qOrder) =>
      Callable(x.registry, op) && !Accepts(x.broker, CommandOf(x.registry, op)) && Orders(x.registry, exOrder, qOrder)
    case Lose(s, exOrder, qOrder) =>
      && Survives(s, x.broker) && Orders(x.registry, exOrder, qOrder)
      && SourcesFirst(x.registry.exchanges, x.registry.exNames, s)
  }

  ghost function Replayed(r: Registry, s: Broker, exOrder: seq<Id>, qOrder: seq<Id>): Reply
    requires Orders(r, exOrder, qOrder)
  {
    OnOpen(s, r.prefetchCount, r.prefetchSize, ExchangesIn(r.exchanges, exOrder), QueuesIn(r.queues, qOrder))
  }

  ghost function Reopened(x: Robust, s: Broker, exOrder: seq<Id>, qOrder: seq<Id>): Robust
    requires Orders(x.registry, exOrder, qOrder)
  {
    match Replayed(x.registry, s, exOrder, qOrder)
    case Ok(b) => x.(broker := b)
    case Refused => x.(broker := s)
  }

  ghost function Next(x: Robust, step: Step): Robust
    requires Allowed(x, step)
  {
    match step
    case Do(op) => Robust(Record(x.registry, op), Answered(x.broker, CommandOf(x.registry, op)))
    case Refuse(op, exOrder, qOrder) =>
      if RefusedLocally(x.broker, CommandOf(x.registry, op)) then x
      else Reopened(x, Answered(x.broker, CommandOf(x.registry, op)), exOrder, qOrder)
    case Lose(s, exOrder, qOrder) => Reopened(x, s, exOrder, qOrder)
  }

  ghost predicate Legal(x: Robust, steps: seq<Step>)
    decreases |steps|
  {
    steps == [] || (Allowed(x, steps[0]) && Legal(Next(x, steps[0]), steps[1..]))
  }

  ghost function After(x: Robust, steps: seq<Step>): Robust
    requires Legal(x, steps)
    decreases |steps|
  {
    if steps == [] then x else After(Next(x, steps[0]), steps[1..])
  }

  const FRESH := Robust(NEW_REGISTRY, NEW_BROKER)

  lemma FreshTagHasNoSlot(m: Queues, b: Broker, j: Id, t: Tag)
    requires Balanced(b.consumers, ConsumerSlots(m)) && !HasTag(b, t)
    ensures !HasConsumer(m, Slot(j, t))
  {
    TagIsKey(m);
    assert forall x :: x in ConsumerSlots(m) ==> Accounted(ConsumerSlots(m), ConsumerSlots(m)[x]);
  }

  lemma ConsumingKeepsTags(m: Queues, b: Broker, id: Id, t: Tag, options: Args, robust: bool)
    requires TagsUnique(m) && id in m && Balanced(b.consumers, ConsumerSlots(m)) && !HasTag(b, t)
    ensures TagsUnique(m[id := QConsuming(m[id], t, options, robust)])
  {
    forall j ensures !HasConsumer(m, Slot(j, t)) { FreshTagHasNoSlot(m, b, j, t); }
    var m' := m[id := QConsuming(m[id], t, options, robust)];
    assert forall j, u :: HasConsumer(m', Slot(j, u)) ==> HasConsumer(m, Slot(j, u)) || (j == id && u == t);
  }

  lemma QueueChangeKeepsTags(m: Queues, id: Id, q: QObj)
    requires TagsUnique(m)
    requires q.tracked ==> q.consumers == map[] || (id in m && m[id].tracked && q.consumers.Keys <= m[id].consumers.Keys)
    ensures TagsUnique(m[id := q])
  {
    assert forall j, t :: HasConsumer(m[id := q], Slot(j, t)) ==> HasConsumer(m, Slot(j, t));
  }

  lemma ForgettingKeepsTags(m: Queues, n: Name)
    requires TagsUnique(m)
    ensures TagsUnique(ForgetQueue(m, n))
  {
    assert forall j, t :: HasConsumer(ForgetQueue(m, n), Slot(j, t)) ==> HasConsumer(m, Slot(j, t));
  }

  lemma TagsStayUnique(r: Registry, b: Broker, op: Op)
    requires Balanced(b.consumers, ConsumerSlots(r.queues)) && TagsUnique(r.queues)
    requires Callable(r, op) && Accepts(b, CommandOf(r, op))
    ensures TagsUnique(Record(r, op).queues)
  {
    match op {
      case Consume(id, t, options, robust) =>
        ConsumingKeepsTags(r.queues, b, id, t, options, robust);
      case DeclareQueue(id, d, robust) => QueueChangeKeepsTags(r.queues, id, QObj(robust, d, map[], map[]));
      case BindQueue(id, k, args, robust) => QueueChangeKeepsTags(r.queues, id, QBound(r.queues[id], k, args, robust));
      case UnbindQueue(id, k, _) => QueueChangeKeepsTags(r.queues, id, QUnbound(r.queues[id], k));
      case Cancel(id, t) => QueueChangeKeepsTags(r.queues, id, QCancelled(r.queues[id], t));
      case DeleteQueue(n, _, _) => ForgettingKeepsTags(r.queues, n);
      case _ =>
    }
  }

  lemma {:induction false} UnlistedMembers(names: seq<Name>, n: Name)
    ensures forall m :: m in Unlisted(names, n) <==> m in names && m != n
  {
    if names == [] {
    } else {
      UnlistedMembers(names[1..], n);
      assert names == [names[0]] + names[1..];
    }
  }

  lemma OneMoreOnce(first: Name, rest: seq<Name>)
    requires EachOnce(rest) && first !in rest
    ensures EachOnce([first] + rest)
  {
    assert forall k :: 0 <= k < |rest| ==> rest[k] in rest;
  }

  lemma {:induction false} UnlistedFacts(names: seq<Name>, n: Name)
    requires EachOnce(names)
    ensures EachOnce(Unlisted(names, n))
  {
    if names == [] {
    } else {
      assert names[0] !in names[1..];
      UnlistedFacts(names[1..], n);
      UnlistedMembers(names[1..], n);
      OneMoreOnce(names[0], Unlisted(names[1..], n));
    }
  }

  lemma KeysAfterDeclare(m: Exchanges, names: seq<Name>, id: Id, e: ExObj)
    requires KeysMatch(m, names) && id !in m
    ensures KeysMatch(m[id := e], if e.tracked then Listed(names, e.decl.name) else names)
  {
    var m' := m[id := e];
    forall n ensures Names(m', n) <==> Names(m, n) || (e.tracked && n == e.decl.name) {
      if Names(m, n) {
        var i :| i in m && m[i].tracked && m[i].decl.name == n;
        assert m'[i] == m[i];
      }
      if e.tracked && n == e.decl.name { assert m'[id] == e; }
    }
  }

  lemma KeysAfterForget(m: Exchanges, names: seq<Name>, name: Name)
    requires KeysMatch(m, names)
    ensures KeysMatch(ForgetExchange(m, name), Unlisted(names, name))
  {
    var m' := ForgetExchange(m, name);
    UnlistedFacts(names, name);
    UnlistedMembers(names, name);
    forall n ensures Names(m', n) <==> Names(m, n) && n != name {
      if Names(m, n) && n != name {
        var i :| i in m && m[i].tracked && m[i].decl.name == n;
        assert m'[i] == m[i];
      }
      if Names(m', n) {
        var i :| i in m' && m'[i].tracked && m'[i].decl.name == n;
        assert m[i].tracked && m[i].decl.name == n;
      }
    }
  }

  lemma KeysAfterChange(m: Exchanges, names: seq<Name>, id: Id, e: ExObj)
    requires KeysMatch(m, names) && id in m && e.decl == m[id].decl && e.tracked == m[id].tracked
    ensures KeysMatch(m[id := e], names)
  {
    var m' := m[id := e];
    forall n ensures Names(m', n) <==> Names(m, n) {
      if Names(m, n) {
        var i :| i in m && m[i].tracked && m[i].decl.name == n;
        assert m'[i].tracked && m'[i].decl.name == n;
      }
      if Names(m', n) {
        var i :| i in m' && m'[i].tracked && m'[i].decl.name == n;
        assert m[i].tracked && m[i].decl.name == n;
      }
    }
  }

  lemma KeysStay(r: Registry, op: Op)
    requires KeysMatch(r.exchanges, r.exNames) && Callable(r, op)
    ensures KeysMatch(Record(r, op).exchanges, Record(r, op).exNames)
  {
    match op {
      case DeclareExchange(id, d, internal, robust) =>
        KeysAfterDeclare(r.exchanges, r.exNames, id, ExObj(!internal && robust, d, map[]));
      case DeleteExchange(n, _) => KeysAfterForget(r.exchanges, r.exNames, n);
      case BindExchange(id, x, route, robust) =>
        KeysAfterChange(r.exchanges, r.exNames, id, ExBound(r.exchanges[id], x, route, robust));
      case UnbindExchange(id, x, _) => KeysAfterChange(r.exchanges, r.exNames, id, ExUnbound(r.exchanges[id], x));
      case _ =>
    }
  }

  /** An accepted operation within its guard. */
  lemma DoKeepsGood(r: Registry, b: Broker, op: Op)
    requires Good(r, b) && Callable(r, op) && Accepts(b, CommandOf(r, op)) && Guard(r, op)
    ensures Good(Record(r, op), Effect(b, CommandOf(r, op)))
  {
    AgreementSurvivesIffGuarded(r, b, op);
    CommandKeepsSound(b, CommandOf(r, op));
    TagsStayUnique(r, b, op);
    KeysStay(r, op);
  }

  lemma StepKeepsGood(x: Robust, step: Step)
    requires Good(x.registry, x.broker) && Allowed(x, step)
    ensures Good(Next(x, step).registry, Next(x, step).broker)
    ensures !step.Do? ==> Next(x, step) == x
  {
    match step
    case Do(op) => DoKeepsGood(x.registry, x.broker, op);
    case Refuse(op, exOrder, qOrder) => RefusalIsRepaired(x.registry, x.broker, exOrder, qOrder);
    case Lose(s, exOrder, qOrder) => ReplayRebuilds(x.registry, x.broker, s, exOrder, qOrder);
  }

  lemma {:induction false} RunKeepsGood(x: Robust, steps: seq<Step>)
    requires Good(x.registry, x.broker) && Legal(x, steps)
    ensures Good(After(x, steps).registry, After(x, steps).broker)
    decreases |steps|
  {
    if steps == [] {
    } else {
      StepKeepsGood(x, steps[0]);
      RunKeepsGood(Next(x, steps[0]), steps[1..]);
    }
  }

  lemma FreshIsGood()
    ensures Good(NEW_REGISTRY, NEW_BROKER)
  {
  }

  /** From a new channel, after any run of operations within their guards, refusals and losses,
      one more loss and replay gives back exactly the broker as it was if sources were
      registered first or survived, and is refused otherwise. */
  lemma EveryRunCanBeRestored(steps: seq<Step>, s: Broker, exOrder: seq<Id>, qOrder: seq<Id>)
    requires Legal(FRESH, steps) && Survives(s, After(FRESH, steps).broker)
    requires Orders(After(FRESH, steps).registry, exOrder, qOrder)
    ensures var x := After(FRESH, steps);
      Replayed(x.registry, s, exOrder, qOrder)
      == if SourcesFirst(x.registry.exchanges, x.registry.exNames, s) then Ok(x.broker) else Refused
  {
    FreshIsGood();
    RunKeepsGood(FRESH, steps);
    var x := After(FRESH, steps);
    ReplayRebuilds(x.registry, x.broker, s, exOrder, qOrder);
  }

  /** Losing and replaying any number of times, or being refused, is the same as not at all. */
  lemma {:induction false} LossesAreInvisible(x: Robust, steps: seq<Step>)
    requires Good(x.registry, x.broker) && Legal(x, steps) && forall a :: a in steps ==> !a.Do?
    ensures After(x, steps) == x
    decreases |steps|
  {
    if steps == [] {
    } else {
      assert steps[0] in steps;
      StepKeepsGood(x, steps[0]);
      LossesAreInvisible(Next(x, steps[0]), steps[1..]);
    }
  }
}
