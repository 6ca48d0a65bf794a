/** An operation that the broker has accepted and the object has not recorded yet, because it
    still awaits the answer, when the channel is lost and reopened. */
module RestoreInFlight {
  import opened Broker
  import opened Slots
  import opened Registry
  import opened RegistryGuards
  import opened Replay
  import opened RestoreRuns

  /** A replay from survivors that may hold queue bindings the registries do not know. */
  lemma ReplayAdds(r: Registry, b: Broker, s: Broker, exOrder: seq<Id>, qOrder: seq<Id>)
    requires Good(r, b) && Orders(r, exOrder, qOrder)
    requires s.exchanges <= b.exchanges && s.queues <= b.queues && s.ebinds <= b.ebinds && s.consumers == {}
    requires SourcesFirst(r.exchanges, r.exNames, s)
    ensures Replayed(r, s, exOrder, qOrder) == Ok(Added(b, s))
  {
    var es, qs := ExchangesIn(r.exchanges, exOrder), QueuesIn(r.queues, qOrder);
    var s0 := Effect(s, BasicQos(Qos(r.prefetchCount, r.prefetchSize, false)));
    OrderOfKeysDecides(r, b, s, exOrder);
    assert SourcesInOrder(s0, es) by {
      assert forall n :: HasExchange(s0, n) <==> HasExchange(s, n);
    }
    ExchangePhase(r, b, s0, exOrder);
    QueuesAdd(r, b, s0.(exchanges := b.exchanges, ebinds := b.ebinds), qOrder);
  }

  lemma QueuesAdd(r: Registry, b: Broker, s: Broker, order: seq<Id>)
    requires Good(r, b) && ListsQueues(order, r.queues)
    requires s.queues <= b.queues && s.exchanges == b.exchanges && s.consumers == {}
    ensures RestoreQueues(s, QueuesIn(r.queues, order))
            == Ok(s.(queues := b.queues, qbinds := s.qbinds + b.qbinds, consumers := b.consumers))
  {
    var qs := QueuesIn(r.queues, order);
    TrackedQueuesFit(r.queues, b, s, order);
    QDeclUnion(b, r.queues, order);
    QBindUnion(b, r.queues, order);
    ConsumerUnion(b, r.queues, order);
    UnionsAdd(b, s, qs);
  }

  lemma UnionsAdd(b: Broker, s: Broker, qs: seq<QObj>)
    requires QueuesFit(s, qs) && QDeclsOf(qs) == b.queues && AllQBinds(qs) == b.qbinds && AllConsumers(qs) == b.consumers
    requires s.queues <= b.queues && s.consumers == {}
    ensures RestoreQueues(s, qs) == Ok(s.(queues := b.queues, qbinds := s.qbinds + b.qbinds, consumers := b.consumers))
  {
    QueuesReplay(s, qs);
    assert s.queues + b.queues == b.queues && s.consumers + b.consumers == b.consumers;
  }

  /** Registries that describe a broker describe no other. */
  lemma DescribesOne(r: Registry, b: Broker, c: Broker)
    requires Agree(r, b)
    ensures Agree(r, c) <==> c == b
  {
    if Agree(r, c) {
      assert forall d :: d in c.exchanges <==> d in b.exchanges;
      assert forall d :: d in c.queues <==> d in b.queues;
      assert forall e :: e in c.ebinds <==> e in b.ebinds;
      assert forall q :: q in c.qbinds <==> q in b.qbinds;
      assert forall k :: k in c.consumers <==> k in b.consumers;
    }
  }

  /** A command on queue bindings or consumers. */
  predicate OnQueue(c: Command) { c.QueueBind? || c.QueueUnbind? || c.BasicConsume? || c.BasicCancel? }

  /** The broker as it is after a reopening that added what survived to what the registries describe. */
  function Added(b: Broker, s: Broker): Broker { b.(qbinds := s.qbinds + b.qbinds) }

  lemma SurvivorsOf(b: Broker, c: Command, s: Broker)
    requires OnQueue(c) && Survives(s, Effect(b, c))
    ensures s.exchanges <= b.exchanges && s.queues <= b.queues && s.ebinds <= b.ebinds && s.consumers == {}
    ensures Added(b, s) == b <==> (c.QueueBind? && c.qbind in s.qbinds ==> c.qbind in b.qbinds)
  {
    if c.QueueBind? {
      assert s.qbinds <= b.qbinds + {c.qbind};
      assert s.qbinds + b.qbinds == b.qbinds <==> (c.qbind in s.qbinds ==> c.qbind in b.qbinds);
    } else {
      assert s.qbinds + b.qbinds == b.qbinds;
    }
  }

  lemma AddedIsEffect(b: Broker, c: Command, s: Broker)
    requires OnQueue(c) && Accepts(b, c) && Survives(s, Effect(b, c))
    ensures Added(b, s) == Effect(b, c) <==>
      match c
      case QueueBind(v) => v in s.qbinds + b.qbinds
      case QueueUnbind(v) => v !in b.qbinds
      case BasicCancel(t) => !HasTag(b, t)
      case _ => false
  {
    match c
    case QueueBind(v) =>
      assert s.qbinds <= b.qbinds + {v};
      assert s.qbinds + b.qbinds == b.qbinds + {v} <==> v in s.qbinds + b.qbinds;
    case QueueUnbind(v) =>
      assert s.qbinds + b.qbinds == b.qbinds;
      assert b.qbinds == b.qbinds - {v} <==> v !in b.qbinds;
    case BasicCancel(t) =>
      assert s.qbinds + b.qbinds == b.qbinds;
      CancelsNothing(b, t);
    case BasicConsume(k) => assert k in Effect(b, c).consumers && k !in b.consumers;
  }

  lemma CancelsNothing(b: Broker, t: Tag)
    ensures Effect(b, BasicCancel(t)) == b <==> !HasTag(b, t)
  {
    var left := Effect(b, BasicCancel(t)).consumers;
    if HasTag(b, t) {
      var c :| c in b.consumers && c.tag == t;
      assert c !in left;
    } else {
      assert left == b.consumers;
    }
  }

  /** The channel is lost with `s` left at the broker, and reopened. */
  ghost predicate Reopens(r: Registry, s: Broker, exOrder: seq<Id>, qOrder: seq<Id>) {
    Orders(r, exOrder, qOrder) && SourcesFirst(r.exchanges, r.exNames, s)
  }

  /** `op`, on queue bindings or consumers, was accepted and done by the broker. */
  ghost predicate InFlight(r: Registry, b: Broker, op: Op) {
    Callable(r, op) && OnQueue(CommandOf(r, op)) && Accepts(b, CommandOf(r, op)) && Guard(r, op)
  }

  lemma ReopenedInFlight(r: Registry, b: Broker, c: Command, s: Broker, exOrder: seq<Id>, qOrder: seq<Id>)
    requires Good(r, b) && OnQueue(c) && Survives(s, Effect(b, c)) && Reopens(r, s, exOrder, qOrder)
    ensures Replayed(r, s, exOrder, qOrder) == Ok(Added(b, s))
  {
    SurvivorsOf(b, c, s);
    ReplayAdds(r, b, s, exOrder, qOrder);
  }

  /** When the answer still comes after the reopening, and the operation is recorded, the
      registries describe the broker exactly if a bind's binding survived or was there before, an
      unbind or a cancel removed nothing, and the operation is no consume. */
  lemma RecordedAfterReopening(r: Registry, b: Broker, op: Op, s: Broker, exOrder: seq<Id>, qOrder: seq<Id>)
    requires Good(r, b) && InFlight(r, b, op)
    requires Survives(s, Effect(b, CommandOf(r, op))) && Reopens(r, s, exOrder, qOrder)
    ensures Replayed(r, s, exOrder, qOrder) == Ok(Added(b, s))
    ensures Agree(Record(r, op), Added(b, s)) <==>
      match CommandOf(r, op)
      case QueueBind(v) => v in s.qbinds + b.qbinds
      case QueueUnbind(v) => v !in b.qbinds
      case BasicCancel(t) => !HasTag(b, t)
      case _ => false
  {
    ReopenedInFlight(r, b, CommandOf(r, op), s, exOrder, qOrder);
    AgreementSurvivesIffGuarded(r, b, op);
    DescribesOne(Record(r, op), Effect(b, CommandOf(r, op)), Added(b, s));
    AddedIsEffect(b, CommandOf(r, op), s);
  }

  /** When the answer is lost with the channel, and the operation raises and is not recorded, the
      registries describe the broker exactly unless it is a bind whose binding is new and survived. */
  lemma RaisedByTheLoss(r: Registry, b: Broker, op: Op, s: Broker, exOrder: seq<Id>, qOrder: seq<Id>)
    requires Good(r, b) && InFlight(r, b, op)
    requires Survives(s, Effect(b, CommandOf(r, op))) && Reopens(r, s, exOrder, qOrder)
    ensures Replayed(r, s, exOrder, qOrder) == Ok(Added(b, s))
    ensures Agree(r, Added(b, s)) <==>
      (CommandOf(r, op).QueueBind? && CommandOf(r, op).qbind in s.qbinds ==> CommandOf(r, op).qbind in b.qbinds)
  {
    ReopenedInFlight(r, b, CommandOf(r, op), s, exOrder, qOrder);
    DescribedAfterAll(r, b, CommandOf(r, op), s);
  }

  lemma DescribedAfterAll(r: Registry, b: Broker, c: Command, s: Broker)
    requires Agree(r, b) && OnQueue(c) && Survives(s, Effect(b, c))
    ensures Agree(r, Added(b, s)) <==> (c.QueueBind? && c.qbind in s.qbinds ==> c.qbind in b.qbinds)
  {
    DescribesOne(r, b, Added(b, s));
    SurvivorsOf(b, c, s);
  }

  /** A bind that a total loss overtakes before it is recorded: the binding is gone, and the
      entry made for it then promises what the broker does not have. */
  lemma BindOvertakenByLoss(r: Registry, b: Broker, op: Op, exOrder: seq<Id>, qOrder: seq<Id>)
    requires Good(r, b) && InFlight(r, b, op)
    requires CommandOf(r, op).QueueBind? && CommandOf(r, op).qbind !in b.qbinds
    requires Reopens(r, NEW_BROKER, exOrder, qOrder)
    ensures Replayed(r, NEW_BROKER, exOrder, qOrder) == Ok(b) && !Agree(Record(r, op), b)
  {
    NothingSurvives(b, CommandOf(r, op));
    RecordedAfterReopening(r, b, op, NEW_BROKER, exOrder, qOrder);
  }

  lemma NothingSurvives(b: Broker, c: Command)
    ensures Survives(NEW_BROKER, Effect(b, c)) && Added(b, NEW_BROKER) == b
  {
    assert {} + b.qbinds == b.qbinds;
  }
}
