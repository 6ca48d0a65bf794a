/** What each operation leaves at the broker, field by field, and what a loss and replay give
    back of it. */
module RestoreEffects {
  import opened Broker
  import opened Registry
  import opened RegistryGuards
  import opened Replay
  import opened RestoreRuns

  /** The broker after an accepted operation: one item more or less, made of the names of the
      objects involved and the arguments of the call, and all else as before. */
  ghost predicate Left(r: Registry, b: Broker, op: Op, b': Broker)
    requires Callable(r, op)
  {
    match op
    case DeclareExchange(_, d, _, _) => b' == b.(exchanges := b.exchanges + {d})
    case DeclareQueue(_, d, _) => b' == b.(queues := b.queues + {d})
    case BindExchange(id, source, route, _) =>
      b' == b.(ebinds := b.ebinds + {EBind(r.exchanges[id].decl.name, source.name, route.key, route.args)})
    case UnbindExchange(id, source, route) =>
      b' == b.(ebinds := b.ebinds - {EBind(r.exchanges[id].decl.name, source.name, route.key, route.args)})
    case BindQueue(id, k, args, _) =>
      b' == b.(qbinds := b.qbinds + {QBind(r.queues[id].decl.name, k.source.name, k.key, args)})
    case UnbindQueue(id, k, args) =>
      b' == b.(qbinds := b.qbinds - {QBind(r.queues[id].decl.name, k.source.name, k.key, args)})
    case Consume(id, tag, options, _) =>
      b' == b.(consumers := b.consumers + {Consumer(tag, r.queues[id].decl.name, options)})
    case Cancel(_, tag) =>
      && b' == b.(consumers := b'.consumers)
      && forall c :: c in b'.consumers <==> c in b.consumers && c.tag != tag
    case SetQos(qos) => b' == b.(qos := qos)
    case DeleteExchange(name, _) =>
      && b' == b.(exchanges := b'.exchanges, ebinds := b'.ebinds, qbinds := b'.qbinds)
      && (forall d :: d in b'.exchanges <==> d in b.exchanges && d.name != name)
      && (forall e :: e in b'.ebinds <==> e in b.ebinds && e.destination != name && e.source != name)
      && (forall q :: q in b'.qbinds <==> q in b.qbinds && q.source != name)
    case DeleteQueue(name, _, _) =>
      && b' == b.(queues := b'.queues, qbinds := b'.qbinds, consumers := b'.consumers)
      && (forall d :: d in b'.queues <==> d in b.queues && d.name != name)
      && (forall q :: q in b'.qbinds <==> q in b.qbinds && q.queue != name)
      && (forall c :: c in b'.consumers <==> c in b.consumers && c.queue != name)
  }

  lemma DoneIsLeft(r: Registry, b: Broker, op: Op)
    requires Callable(r, op)
    ensures Left(r, b, op, Effect(b, CommandOf(r, op)))
  {
    match op
    case DeclareExchange(_, _, _, _) => case DeclareQueue(_, _, _) => case BindExchange(_, _, _, _) =>
    case UnbindExchange(_, _, _) => case BindQueue(_, _, _, _) => case UnbindQueue(_, _, _) =>
    case Consume(_, _, _, _) => case Cancel(_, _) => case SetQos(_) =>
    case DeleteExchange(_, _) => case DeleteQueue(_, _, _) =>
  }

  /** What the broker refuses: a clash with another declaration, the name of the default exchange,
      a binding or consumer of what is not there, and a deletion that the caller made conditional. */
  lemma RefusedWhen(b: Broker, c: Command)
    ensures !Accepts(b, c) <==>
      match c
      case ExchangeDeclare(d) => d.name == "" || exists e :: e in b.exchanges && e.name == d.name && e.params != d.params
      case QueueDeclare(d) => exists e :: e in b.queues && e.name == d.name && e.params != d.params
      case ExchangeBind(e) => !HasExchange(b, e.destination) || !HasExchange(b, e.source)
      case QueueBind(q) => !HasQueue(b, q.queue) || !HasExchange(b, q.source)
      case BasicConsume(k) => !HasQueue(b, k.queue) || exists l :: l in b.consumers && l.tag == k.tag
      case ExchangeDelete(n, ifUnused) =>
        ifUnused && ((exists e :: e in b.ebinds && e.source == n) || (exists q :: q in b.qbinds && q.source == n))
      case QueueDelete(n, ifUnused, notEmpty) => notEmpty || (ifUnused && exists l :: l in b.consumers && l.queue == n)
      case _ => false
  {
    match c {
      case ExchangeDeclare(d) =>
        if e :| e in b.exchanges && e.name == d.name && e != d { assert e.params != d.params; }
      case QueueDeclare(d) =>
        if e :| e in b.queues && e.name == d.name && e != d { assert e.params != d.params; }
      case _ =>
    }
  }

  /** What a refusal costs: nothing that was declared or bound, but all consumers of the channel
      and its prefetch; and nothing at all when the client refused a consumer tag in use. */
  lemma RefusalCosts(b: Broker, c: Command)
    requires !Accepts(b, c)
    ensures var b' := Answered(b, c);
      && b'.exchanges == b.exchanges && b'.queues == b.queues && b'.ebinds == b.ebinds && b'.qbinds == b.qbinds
      && if c.BasicConsume? && HasTag(b, c.consumer.tag) then b' == b
         else b'.consumers == {} && b'.qos == Qos(0, 0, false)
  {
  }

  /** When one object's replay is refused: its declaration clashes, or a source is missing, or,
      for a queue, a consumer tag is taken.  The default exchange is passed over. */
  lemma ObjectRefusedWhen(b: Broker, e: ExObj, q: QObj)
    ensures e.decl.name == "" ==> RestoreExchange(b, e) == Ok(b)
    ensures e.decl.name != "" ==>
      (RestoreExchange(b, e).Refused? <==>
        || (exists d :: d in b.exchanges && d.name == e.decl.name && d != e.decl)
        || (exists s :: s in e.bindings && s.name != e.decl.name && !HasExchange(b, s.name)))
    ensures RestoreQueue(b, q).Refused? <==>
        || (exists d :: d in b.queues && d.name == q.decl.name && d != q.decl)
        || (exists k :: k in q.bindings && !HasExchange(b, k.source.name))
        || (exists t :: t in q.consumers && HasTag(b, t))
  {
    if e.decl.name != "" && ExchangeFits(b, e.decl) {
      var b1 := Effect(b, ExchangeDeclare(e.decl));
      assert e.decl in b1.exchanges;
      assert forall n :: HasExchange(b1, n) <==> HasExchange(b, n) || n == e.decl.name;
    }
    var b2 := Effect(b, QueueDeclare(q.decl));
    assert forall n :: HasExchange(b2, n) <==> HasExchange(b, n);
    assert forall t :: HasTag(b2, t) <==> HasTag(b, t);
  }

  /** After any run from a new channel and one more operation within its guard, the broker holds
      just what that operation asks for, arguments included, and after a loss with any survivors
      a replay gives back the same, if sources survived or were registered first. */
  lemma OperationOutlivesLoss(steps: seq<Step>, op: Op, s: Broker, exOrder: seq<Id>, qOrder: seq<Id>)
    requires Legal(FRESH, steps) && Allowed(After(FRESH, steps), Do(op))
    requires Survives(s, Next(After(FRESH, steps), Do(op)).broker)
    requires Orders(Next(After(FRESH, steps), Do(op)).registry, exOrder, qOrder)
    ensures var x, y := After(FRESH, steps), Next(After(FRESH, steps), Do(op));
      && Left(x.registry, x.broker, op, y.broker)
      && Replayed(y.registry, s, exOrder, qOrder)
         == if SourcesFirst(y.registry.exchanges, y.registry.exNames, s) then Ok(y.broker) else Refused
  {
    var x, y := After(FRESH, steps), Next(After(FRESH, steps), Do(op));
    DoneIsLeft(x.registry, x.broker, op);
    FreshIsGood();
    RunKeepsGood(FRESH, steps);
    StepKeepsGood(x, Do(op));
    ReplayRebuilds(y.registry, y.broker, s, exOrder, qOrder);
  }

  // -------------------------------------------------------------------------------------
  // The order of the keys

  lemma {:induction false} RankOfNew(names: seq<Name>, n: Name)
    requires n !in names
    ensures Rank(names + [n], n) == |names|
    ensures forall m :: m in names ==> Rank(names + [n], m) == Rank(names, m) < |names|
  {
    if names == [] {
    } else {
      RankOfNew(names[1..], n);
      assert (names + [n])[1..] == names[1..] + [n] && (names + [n])[0] == names[0];
    }
  }

  lemma {:induction false} RankWithout(names: seq<Name>, n: Name, m: Name, o: Name)
    requires m in names && o in names && m != n && o != n
    ensures Rank(Unlisted(names, n), m) < Rank(Unlisted(names, n), o) <==> Rank(names, m) < Rank(names, o)
    decreases |names|
  {
    if names[0] == n {
      RankWithout(names[1..], n, m, o);
    } else if names[0] == m || names[0] == o {
      RankKept(names, n, m);
      RankKept(names, n, o);
    } else {
      RankWithout(names[1..], n, m, o);
      assert Unlisted(names, n)[1..] == Unlisted(names[1..], n);
    }
  }

  /** The first of the keys stays the first. */
  lemma RankKept(names: seq<Name>, n: Name, m: Name)
    requires m in names && m != n && names[0] != n
    ensures Rank(Unlisted(names, n), m) == 0 <==> m == names[0]
  {
  }

  /** The keys stand in the order of first registration: a name that is new goes behind all
      others, a name that is deleted leaves the rest in order, and nothing else moves them. */
  lemma KeysInOrderOfRegistration(r: Registry, op: Op, m: Name, o: Name)
    requires Callable(r, op) && m in r.exNames && o in Record(r, op).exNames
    requires op.DeleteExchange? ==> op.name != m
    ensures m in Record(r, op).exNames
    ensures Rank(Record(r, op).exNames, m) < Rank(Record(r, op).exNames, o)
            <==> if o in r.exNames then Rank(r.exNames, m) < Rank(r.exNames, o) else true
  {
    match op {
      case DeclareExchange(id, d, internal, robust) =>
        if !internal && robust && d.name !in r.exNames {
          RankOfNew(r.exNames, d.name);
        }
      case DeleteExchange(name, _) =>
        UnlistedMembers(r.exNames, name);
        RankWithout(r.exNames, name, m, o);
      case _ =>
    }
  }
}
