/** For each operation of a robust channel: exactly when, after the broker accepted it, the
    registries still describe the broker. */
module RegistryGuards {
  import opened Broker
  import opened Registry
  import opened Slots

  /** What a caller can check in the dictionaries before the call. */
  ghost predicate Guard(r: Registry, op: Op)
    requires Callable(r, op)
  {
    match op
    case DeclareExchange(_, d, internal, robust) =>
      (robust && !internal) || Accounted(ExSlots(r.exchanges), d)
    case DeclareQueue(_, d, robust) => robust || Accounted(QSlots(r.queues), d)
    case DeleteExchange(n, _) =>
      // nothing that stays registered names the exchange as its source
      && (forall s :: s in EBindSlots(r.exchanges) && EBindSlots(r.exchanges)[s].destination != n ==> EBindSlots(r.exchanges)[s].source != n)
      && (forall s :: s in QBindSlots(r.queues) ==> QBindSlots(r.queues)[s].source != n)
    case DeleteQueue(_, _, _) => true
    case BindExchange(id, s, route, robust) =>
      PutGuard(EBindSlots(r.exchanges), Slot(id, s), EBindOf(r.exchanges[id], s, route), robust && r.exchanges[id].tracked)
    case UnbindExchange(id, s, route) =>
      PopGuard(EBindSlots(r.exchanges), Slot(id, s), EBindOf(r.exchanges[id], s, route))
    case BindQueue(id, k, args, robust) =>
      PutGuard(QBindSlots(r.queues), Slot(id, k), QBindOf(r.queues[id], k, args), robust && r.queues[id].tracked)
    case UnbindQueue(id, k, args) =>
      PopGuard(QBindSlots(r.queues), Slot(id, k), QBindOf(r.queues[id], k, args))
    case Consume(id, _, _, robust) => robust && r.queues[id].tracked
    case Cancel(id, t) => forall j :: HasConsumer(r.queues, Slot(j, t)) ==> j == id
    case SetQos(q) => !q.global_
  }

  // -------------------------------------------------------------------------------------
  // How the accounts move

  lemma SlotsOfDeclare(m: Exchanges, id: Id, e: ExObj)
    requires id !in m && e.bindings == map[]
    ensures ExSlots(m[id := e]) == if e.tracked then ExSlots(m)[id := e.decl] else ExSlots(m)
    ensures EBindSlots(m[id := e]) == EBindSlots(m)
  {
  }

  lemma SlotsOfDeclareQueue(m: Queues, id: Id, q: QObj)
    requires id !in m && q.bindings == map[] && q.consumers == map[]
    ensures QSlots(m[id := q]) == if q.tracked then QSlots(m)[id := q.decl] else QSlots(m)
    ensures QBindSlots(m[id := q]) == QBindSlots(m) && ConsumerSlots(m[id := q]) == ConsumerSlots(m)
  {
    assert forall x :: HasQBind(m[id := q], x) <==> HasQBind(m, x);
    assert forall x :: HasConsumer(m[id := q], x) <==> HasConsumer(m, x);
  }

  lemma ExSlotsSame(m: Exchanges, id: Id, e: ExObj)
    requires id in m && e.decl == m[id].decl && e.tracked == m[id].tracked
    ensures ExSlots(m[id := e]) == ExSlots(m)
  {
  }

  lemma QSlotsSame(m: Queues, id: Id, q: QObj)
    requires id in m && q.decl == m[id].decl && q.tracked == m[id].tracked
    ensures QSlots(m[id := q]) == QSlots(m)
  {
  }

  lemma QBindSlotsSame(m: Queues, id: Id, q: QObj)
    requires id in m && q.decl == m[id].decl && q.tracked == m[id].tracked && q.bindings == m[id].bindings
    ensures QBindSlots(m[id := q]) == QBindSlots(m)
  {
    assert forall x :: HasQBind(m[id := q], x) <==> HasQBind(m, x);
  }

  lemma ConsumerSlotsSame(m: Queues, id: Id, q: QObj)
    requires id in m && q.decl == m[id].decl && q.tracked == m[id].tracked && q.consumers == m[id].consumers
    ensures ConsumerSlots(m[id := q]) == ConsumerSlots(m)
  {
    assert forall x :: HasConsumer(m[id := q], x) <==> HasConsumer(m, x);
  }

  lemma SlotsOfExBind(m: Exchanges, id: Id, s: ExRef, route: Route)
    requires id in m
    ensures EBindSlots(m[id := ExBound(m[id], s, route, true)])
            == if m[id].tracked then EBindSlots(m)[Slot(id, s) := EBindOf(m[id], s, route)] else EBindSlots(m)
  {
    assert forall x :: HasEBind(m[id := ExBound(m[id], s, route, true)], x)
                       <==> HasEBind(m, x) || (m[id].tracked && x.owner == id && x.key == s);
  }

  lemma SlotsOfExUnbind(m: Exchanges, id: Id, s: ExRef)
    requires id in m
    ensures EBindSlots(m[id := ExUnbound(m[id], s)]) == EBindSlots(m) - {Slot(id, s)}
  {
    assert forall x :: HasEBind(m[id := ExUnbound(m[id], s)], x) <==> HasEBind(m, x) && x != Slot(id, s);
  }

  lemma SlotsOfBind(m: Queues, id: Id, k: BindKey, args: Args)
    requires id in m
    ensures QBindSlots(m[id := QBound(m[id], k, args, true)])
            == if m[id].tracked then QBindSlots(m)[Slot(id, k) := QBindOf(m[id], k, args)] else QBindSlots(m)
  {
    assert forall x :: HasQBind(m[id := QBound(m[id], k, args, true)], x)
                       <==> HasQBind(m, x) || (m[id].tracked && x.owner == id && x.key == k);
  }

  lemma SlotsOfUnbind(m: Queues, id: Id, k: BindKey)
    requires id in m
    ensures QBindSlots(m[id := QUnbound(m[id], k)]) == QBindSlots(m) - {Slot(id, k)}
  {
    assert forall x :: HasQBind(m[id := QUnbound(m[id], k)], x) <==> HasQBind(m, x) && x != Slot(id, k);
  }

  lemma SlotsOfConsume(m: Queues, id: Id, t: Tag, options: Args)
    requires id in m
    ensures ConsumerSlots(m[id := QConsuming(m[id], t, options, true)])
            == if m[id].tracked then ConsumerSlots(m)[Slot(id, t) := ConsumerOf(m[id], t, options)] else ConsumerSlots(m)
  {
    assert forall x :: HasConsumer(m[id := QConsuming(m[id], t, options, true)], x)
                       <==> HasConsumer(m, x) || (m[id].tracked && x.owner == id && x.key == t);
  }

  lemma SlotsOfCancel(m: Queues, id: Id, t: Tag)
    requires id in m
    ensures ConsumerSlots(m[id := QCancelled(m[id], t)]) == ConsumerSlots(m) - {Slot(id, t)}
  {
    assert forall x :: HasConsumer(m[id := QCancelled(m[id], t)], x) <==> HasConsumer(m, x) && x != Slot(id, t);
  }

  // -------------------------------------------------------------------------------------
  // One operation at a time: first the account it touches, then the whole

  lemma ExBindPart(items: set<EBind>, m: Exchanges, id: Id, s: ExRef, route: Route, robust: bool)
    requires id in m && Balanced(items, EBindSlots(m))
    ensures var v := EBindOf(m[id], s, route);
      Balanced(items + {v}, EBindSlots(m[id := ExBound(m[id], s, route, robust)]))
      <==> PutGuard(EBindSlots(m), Slot(id, s), v, robust && m[id].tracked)
  {
    var v := EBindOf(m[id], s, route);
    SlotsOfExBind(m, id, s, route);
    if robust && m[id].tracked {
      PutKeepsBalance(items, EBindSlots(m), Slot(id, s), v);
    } else {
      assert robust || m[id := m[id]] == m;
      SkipKeepsBalance(items, EBindSlots(m), Slot(id, s), v);
    }
  }

  lemma QBindPart(items: set<QBind>, m: Queues, id: Id, k: BindKey, args: Args, robust: bool)
    requires id in m && Balanced(items, QBindSlots(m))
    ensures var v := QBindOf(m[id], k, args);
      Balanced(items + {v}, QBindSlots(m[id := QBound(m[id], k, args, robust)]))
      <==> PutGuard(QBindSlots(m), Slot(id, k), v, robust && m[id].tracked)
  {
    var v := QBindOf(m[id], k, args);
    SlotsOfBind(m, id, k, args);
    if robust && m[id].tracked {
      PutKeepsBalance(items, QBindSlots(m), Slot(id, k), v);
    } else {
      assert robust || m[id := m[id]] == m;
      SkipKeepsBalance(items, QBindSlots(m), Slot(id, k), v);
    }
  }

  lemma ExUnbindPart(items: set<EBind>, m: Exchanges, id: Id, s: ExRef, route: Route)
    requires id in m && Balanced(items, EBindSlots(m))
    ensures Balanced(items - {EBindOf(m[id], s, route)}, EBindSlots(m[id := ExUnbound(m[id], s)]))
            <==> PopGuard(EBindSlots(m), Slot(id, s), EBindOf(m[id], s, route))
  {
    SlotsOfExUnbind(m, id, s);
    PopKeepsBalance(items, EBindSlots(m), Slot(id, s), EBindOf(m[id], s, route));
  }

  lemma QUnbindPart(items: set<QBind>, m: Queues, id: Id, k: BindKey, args: Args)
    requires id in m && Balanced(items, QBindSlots(m))
    ensures Balanced(items - {QBindOf(m[id], k, args)}, QBindSlots(m[id := QUnbound(m[id], k)]))
            <==> PopGuard(QBindSlots(m), Slot(id, k), QBindOf(m[id], k, args))
  {
    SlotsOfUnbind(m, id, k);
    PopKeepsBalance(items, QBindSlots(m), Slot(id, k), QBindOf(m[id], k, args));
  }

  lemma ConsumePart(items: set<Consumer>, m: Queues, id: Id, t: Tag, options: Args, robust: bool)
    requires id in m && Balanced(items, ConsumerSlots(m)) && forall c :: c in items ==> c.tag != t
    ensures Balanced(items + {ConsumerOf(m[id], t, options)}, ConsumerSlots(m[id := QConsuming(m[id], t, options, robust)]))
            <==> robust && m[id].tracked
  {
    var v := ConsumerOf(m[id], t, options);
    SlotsOfConsume(m, id, t, options);
    TagIsKey(m);
    assert forall x :: x in ConsumerSlots(m) ==> Accounted(ConsumerSlots(m), ConsumerSlots(m)[x]);
    assert Slot(id, t) !in ConsumerSlots(m);
    if robust && m[id].tracked {
      PutKeepsBalance(items, ConsumerSlots(m), Slot(id, t), v);
    } else {
      assert robust || m[id := m[id]] == m;
      SkipKeepsBalance(items, ConsumerSlots(m), Slot(id, t), v);
    }
  }

  lemma CancelPart(items: set<Consumer>, left: set<Consumer>, m: Queues, id: Id, t: Tag)
    requires id in m && Balanced(items, ConsumerSlots(m))
    requires forall c :: c in left <==> c in items && c.tag != t
    ensures Balanced(left, ConsumerSlots(m[id := QCancelled(m[id], t)]))
            <==> forall j :: HasConsumer(m, Slot(j, t)) ==> j == id
  {
    SlotsOfCancel(m, id, t);
    TagIsKey(m);
    CancelKeepsBalance(items, left, ConsumerSlots(m), id, t);
  }

  lemma TagIsKey(m: Queues)
    ensures forall k :: k in ConsumerSlots(m) <==> HasConsumer(m, k)
    ensures forall k :: k in ConsumerSlots(m) ==> ConsumerSlots(m)[k].tag == k.key
  {
  }

  lemma CancelKeepsBalance(items: set<Consumer>, left: set<Consumer>, m: imap<Slot<Tag>, Consumer>, id: Id, t: Tag)
    requires Balanced(items, m)
    requires forall k :: k in m ==> m[k].tag == k.key
    requires forall c :: c in left <==> c in items && c.tag != t
    ensures Balanced(left, m - {Slot(id, t)}) <==> forall j :: Slot(j, t) in m ==> j == id
  {
    var n := m - {Slot(id, t)};
    if forall j :: Slot(j, t) in m ==> j == id {
      forall c ensures c in left <==> Accounted(n, c) {
        if c in left {
          var k :| k in m && m[k] == c;
          assert n[k] == c;
        }
        if Accounted(n, c) {
          var k :| k in n && n[k] == c;
          assert m[k] == c && k == Slot(k.owner, k.key);
        }
      }
    } else {
      var j :| Slot(j, t) in m && j != id;
      assert n[Slot(j, t)] == m[Slot(j, t)];
      assert Accounted(n, m[Slot(j, t)]) && m[Slot(j, t)] !in left;
    }
  }

  ghost predicate Keeps(r: Registry, b: Broker, op: Op)
    requires Callable(r, op)
  {
    Agree(Record(r, op), Effect(b, CommandOf(r, op)))
  }

  lemma DeclareGuard(r: Registry, b: Broker, op: Op)
    requires op.DeclareExchange? || op.DeclareQueue?
    requires Callable(r, op) && Agree(r, b)
    ensures Keeps(r, b, op) <==> Guard(r, op)
  {
    if op.DeclareExchange? {
      SlotsOfDeclare(r.exchanges, op.id, ExObj(!op.internal && op.robust, op.exchange, map[]));
      PutKeepsBalance(b.exchanges, ExSlots(r.exchanges), op.id, op.exchange);
      SkipKeepsBalance(b.exchanges, ExSlots(r.exchanges), op.id, op.exchange);
    } else {
      SlotsOfDeclareQueue(r.queues, op.id, QObj(op.robust, op.queue, map[], map[]));
      PutKeepsBalance(b.queues, QSlots(r.queues), op.id, op.queue);
      SkipKeepsBalance(b.queues, QSlots(r.queues), op.id, op.queue);
    }
  }

  lemma BindExchangeGuard(r: Registry, b: Broker, op: Op)
    requires op.BindExchange? && Callable(r, op) && Agree(r, b)
    ensures Keeps(r, b, op) <==> Guard(r, op)
  {
    ExSlotsSame(r.exchanges, op.id, ExBound(r.exchanges[op.id], op.source, op.route, op.robust));
    ExBindPart(b.ebinds, r.exchanges, op.id, op.source, op.route, op.robust);
  }

  /** Changing the bindings of a queue object leaves the other two accounts as they were. */
  lemma OnlyBindingsChange(b: Broker, m: Queues, id: Id, q: QObj)
    requires id in m && q.decl == m[id].decl && q.tracked == m[id].tracked && q.consumers == m[id].consumers
    requires Balanced(b.queues, QSlots(m)) && Balanced(b.consumers, ConsumerSlots(m))
    ensures Balanced(b.queues, QSlots(m[id := q])) && Balanced(b.consumers, ConsumerSlots(m[id := q]))
  {
    QSlotsSame(m, id, q);
    ConsumerSlotsSame(m, id, q);
  }

  lemma BindQueueGuard(r: Registry, b: Broker, op: Op)
    requires op.BindQueue? && Callable(r, op) && Agree(r, b)
    ensures Keeps(r, b, op) <==> Guard(r, op)
  {
    var q := QBound(r.queues[op.id], op.bindKey, op.args, op.robust);
    assert Record(r, op) == r.(queues := r.queues[op.id := q]);
    assert Effect(b, CommandOf(r, op)) == b.(qbinds := b.qbinds + {QBindOf(r.queues[op.id], op.bindKey, op.args)});
    OnlyBindingsChange(b, r.queues, op.id, q);
    QBindPart(b.qbinds, r.queues, op.id, op.bindKey, op.args, op.robust);
  }

  lemma UnbindExchangeGuard(r: Registry, b: Broker, op: Op)
    requires op.UnbindExchange? && Callable(r, op) && Agree(r, b)
    ensures Keeps(r, b, op) <==> Guard(r, op)
  {
    ExSlotsSame(r.exchanges, op.id, ExUnbound(r.exchanges[op.id], op.source));
    ExUnbindPart(b.ebinds, r.exchanges, op.id, op.source, op.route);
  }

  lemma UnbindQueueGuard(r: Registry, b: Broker, op: Op)
    requires op.UnbindQueue? && Callable(r, op) && Agree(r, b)
    ensures Keeps(r, b, op) <==> Guard(r, op)
  {
    var q := QUnbound(r.queues[op.id], op.bindKey);
    assert Record(r, op) == r.(queues := r.queues[op.id := q]);
    assert Effect(b, CommandOf(r, op)) == b.(qbinds := b.qbinds - {QBindOf(r.queues[op.id], op.bindKey, op.args)});
    OnlyBindingsChange(b, r.queues, op.id, q);
    QUnbindPart(b.qbinds, r.queues, op.id, op.bindKey, op.args);
  }

  lemma ConsumeGuard(r: Registry, b: Broker, op: Op)
    requires op.Consume? && Callable(r, op) && Agree(r, b) && Accepts(b, CommandOf(r, op))
    ensures Keeps(r, b, op) <==> Guard(r, op)
  {
    var q := QConsuming(r.queues[op.id], op.tag, op.options, op.robust);
    QSlotsSame(r.queues, op.id, q);
    QBindSlotsSame(r.queues, op.id, q);
    ConsumePart(b.consumers, r.queues, op.id, op.tag, op.options, op.robust);
  }

  lemma CancelGuard(r: Registry, b: Broker, op: Op)
    requires op.Cancel? && Callable(r, op) && Agree(r, b)
    ensures Keeps(r, b, op) <==> Guard(r, op)
  {
    var q := QCancelled(r.queues[op.id], op.tag);
    assert Record(r, op) == r.(queues := r.queues[op.id := q]);
    QSlotsSame(r.queues, op.id, q);
    QBindSlotsSame(r.queues, op.id, q);
    CancelPart(b.consumers, Effect(b, CommandOf(r, op)).consumers, r.queues, op.id, op.tag);
  }

  // -------------------------------------------------------------------------------------
  // Deletion through the channel

  lemma ForgottenExchanges(items: set<ExDecl>, m: Exchanges, n: Name)
    requires Balanced(items, ExSlots(m))
    ensures Balanced((set d | d in items && d.name != n), ExSlots(ForgetExchange(m, n)))
  {
    var s, s' := ExSlots(m), ExSlots(ForgetExchange(m, n));
    forall d ensures Accounted(s', d) <==> Accounted(s, d) && d.name != n {
      if Accounted(s, d) && d.name != n {
        var i :| i in s && s[i] == d;
        assert s'[i] == d;
      }
      if Accounted(s', d) {
        var i :| i in s' && s'[i] == d;
        assert s[i] == d;
      }
    }
  }

  lemma ForgottenQueues(items: set<QDecl>, m: Queues, n: Name)
    requires Balanced(items, QSlots(m))
    ensures Balanced((set d | d in items && d.name != n), QSlots(ForgetQueue(m, n)))
  {
    var s, s' := QSlots(m), QSlots(ForgetQueue(m, n));
    forall d ensures Accounted(s', d) <==> Accounted(s, d) && d.name != n {
      if Accounted(s, d) && d.name != n {
        var i :| i in s && s[i] == d;
        assert s'[i] == d;
      }
      if Accounted(s', d) {
        var i :| i in s' && s'[i] == d;
        assert s[i] == d;
      }
    }
  }

  lemma ForgottenEBinds(m: Exchanges, n: Name, v: EBind)
    ensures Accounted(EBindSlots(ForgetExchange(m, n)), v) <==> Accounted(EBindSlots(m), v) && v.destination != n
  {
    var s, s' := EBindSlots(m), EBindSlots(ForgetExchange(m, n));
    if Accounted(s, v) && v.destination != n {
      var i :| i in s && s[i] == v;
      assert HasEBind(ForgetExchange(m, n), i) && s'[i] == v;
    }
    if Accounted(s', v) {
      var i :| i in s' && s'[i] == v;
      assert HasEBind(m, i) && s[i] == v;
    }
  }

  lemma ForgottenQBinds(m: Queues, n: Name, v: QBind)
    ensures Accounted(QBindSlots(ForgetQueue(m, n)), v) <==> Accounted(QBindSlots(m), v) && v.queue != n
  {
    var s, s' := QBindSlots(m), QBindSlots(ForgetQueue(m, n));
    if Accounted(s, v) && v.queue != n {
      var i :| i in s && s[i] == v;
      assert HasQBind(ForgetQueue(m, n), i) && s'[i] == v;
    }
    if Accounted(s', v) {
      var i :| i in s' && s'[i] == v;
      assert HasQBind(m, i) && s[i] == v;
    }
  }

  lemma ForgottenConsumers(m: Queues, n: Name, v: Consumer)
    ensures Accounted(ConsumerSlots(ForgetQueue(m, n)), v) <==> Accounted(ConsumerSlots(m), v) && v.queue != n
  {
    var s, s' := ConsumerSlots(m), ConsumerSlots(ForgetQueue(m, n));
    if Accounted(s, v) && v.queue != n {
      var i :| i in s && s[i] == v;
      assert HasConsumer(ForgetQueue(m, n), i) && s'[i] == v;
    }
    if Accounted(s', v) {
      var i :| i in s' && s'[i] == v;
      assert HasConsumer(m, i) && s[i] == v;
    }
  }

  lemma DeletedQBinds(b: Broker, m: Queues, n: Name)
    requires Balanced(b.qbinds, QBindSlots(m))
    ensures Balanced(Effect(b, QueueDelete(n, false, false)).qbinds, QBindSlots(ForgetQueue(m, n)))
  {
    forall v ensures Accounted(QBindSlots(ForgetQueue(m, n)), v) <==> v in b.qbinds && v.queue != n {
      ForgottenQBinds(m, n, v);
    }
  }

  lemma DeletedConsumers(b: Broker, m: Queues, n: Name)
    requires Balanced(b.consumers, ConsumerSlots(m))
    ensures Balanced(Effect(b, QueueDelete(n, false, false)).consumers, ConsumerSlots(ForgetQueue(m, n)))
  {
    forall v ensures Accounted(ConsumerSlots(ForgetQueue(m, n)), v) <==> v in b.consumers && v.queue != n {
      ForgottenConsumers(m, n, v);
    }
  }

  lemma DeleteQueueGuard(r: Registry, b: Broker, op: Op)
    requires op.DeleteQueue? && Agree(r, b)
    ensures Keeps(r, b, op)
  {
    ForgottenQueues(b.queues, r.queues, op.name);
    DeletedQBinds(b, r.queues, op.name);
    DeletedConsumers(b, r.queues, op.name);
    assert Effect(b, CommandOf(r, op)) == Effect(b, QueueDelete(op.name, false, false));
  }

  lemma DeletedEBinds(b: Broker, m: Exchanges, n: Name, left: set<EBind>)
    requires Balanced(b.ebinds, EBindSlots(m))
    requires forall v :: v in left <==> v in b.ebinds && v.destination != n && v.source != n
    ensures Balanced(left, EBindSlots(ForgetExchange(m, n)))
            <==> forall v :: v in b.ebinds && v.destination != n ==> v.source != n
  {
    forall v ensures Accounted(EBindSlots(ForgetExchange(m, n)), v) <==> v in b.ebinds && v.destination != n {
      ForgottenEBinds(m, n, v);
    }
  }

  lemma KeptQBinds(b: Broker, m: Queues, n: Name, left: set<QBind>)
    requires Balanced(b.qbinds, QBindSlots(m))
    requires forall v :: v in left <==> v in b.qbinds && v.source != n
    ensures Balanced(left, QBindSlots(m)) <==> forall v :: v in b.qbinds ==> v.source != n
  {
    assert Balanced(left, QBindSlots(m)) <==> forall v :: v in left <==> v in b.qbinds;
  }

  lemma DeleteExchangeGuard(r: Registry, b: Broker, op: Op)
    requires op.DeleteExchange? && Agree(r, b)
    ensures Keeps(r, b, op) <==> Guard(r, op)
  {
    var r', b' := Record(r, op), Effect(b, CommandOf(r, op));
    ForgottenExchanges(b.exchanges, r.exchanges, op.name);
    assert Balanced(b'.exchanges, ExSlots(r'.exchanges));
    DeletedEBinds(b, r.exchanges, op.name, b'.ebinds);
    KeptQBinds(b, r.queues, op.name, b'.qbinds);
    SourcesByAccount(b, r, op.name);
    assert Guard(r, op) <==> Guard(r, DeleteExchange(op.name, false));
    assert r'.queues == r.queues && b'.queues == b.queues && b'.consumers == b.consumers && b'.qos == b.qos;
  }

  lemma SourcesByAccount(b: Broker, r: Registry, n: Name)
    requires Balanced(b.ebinds, EBindSlots(r.exchanges)) && Balanced(b.qbinds, QBindSlots(r.queues))
    ensures Guard(r, DeleteExchange(n, false)) <==>
      && (forall v :: v in b.ebinds && v.destination != n ==> v.source != n)
      && (forall v :: v in b.qbinds ==> v.source != n)
  {
    var s, t := EBindSlots(r.exchanges), QBindSlots(r.queues);
    forall k | k in s ensures s[k] in b.ebinds { assert Accounted(s, s[k]); }
    forall k | k in t ensures t[k] in b.qbinds { assert Accounted(t, t[k]); }
  }

  /** The registries follow the broker through an accepted operation exactly when its guard holds. */
  lemma AgreementSurvivesIffGuarded(r: Registry, b: Broker, op: Op)
    requires Callable(r, op) && Agree(r, b) && Accepts(b, CommandOf(r, op))
    ensures Agree(Record(r, op), Effect(b, CommandOf(r, op))) <==> Guard(r, op)
  {
    match op
    case DeclareExchange(_, _, _, _) => DeclareGuard(r, b, op);
    case DeclareQueue(_, _, _) => DeclareGuard(r, b, op);
    case DeleteExchange(_, _) => DeleteExchangeGuard(r, b, op);
    case DeleteQueue(_, _, _) => DeleteQueueGuard(r, b, op);
    case BindExchange(_, _, _, _) => BindExchangeGuard(r, b, op);
    case UnbindExchange(_, _, _) => UnbindExchangeGuard(r, b, op);
    case BindQueue(_, _, _, _) => BindQueueGuard(r, b, op);
    case UnbindQueue(_, _, _) => UnbindQueueGuard(r, b, op);
    case Consume(_, _, _, _) => ConsumeGuard(r, b, op);
    case Cancel(_, _) => CancelGuard(r, b, op);
    case SetQos(_) =>
  }
}
