/** Runs of a new channel after which a replay is refused, or the registries no longer describe
    the broker. */
module RestoreWitnesses {
  import opened Broker
  import opened Slots
  import opened Registry
  import opened RegistryGuards
  import opened Replay
  import opened RestoreRuns
  import opened RestoreInFlight

  ghost predicate StepsTo(x: Robust, step: Step, y: Robust) { Allowed(x, step) && Next(x, step) == y }

  lemma Prepend(x: Robust, step: Step, y: Robust, steps: seq<Step>)
    requires StepsTo(x, step, y) && Legal(y, steps)
    ensures Legal(x, [step] + steps) && After(x, [step] + steps) == After(y, steps)
  {
    assert ([step] + steps)[1..] == steps;
  }

  // -------------------------------------------------------------------------------------
  // A source registered after its destination

  /** Declare d, declare s, then bind d to s. */
  function LateSource(d: ExDecl, s: ExDecl, route: Route): seq<Step> {
    [Do(DeclareExchange(0, d, false, true))] + ([Do(DeclareExchange(1, s, false, true))]
      + ([Do(BindExchange(0, ByObject(1, s.name), route, true))] + []))
  }

  function TwoExchanges(d: ExDecl, s: ExDecl, bindings: map<ExRef, Route>): Registry {
    NEW_REGISTRY.(exchanges := map[0 := ExObj(true, d, bindings), 1 := ExObj(true, s, map[])], exNames := [d.name, s.name])
  }

  function BoundFrom(d: ExDecl, s: ExDecl, route: Route): Robust {
    Robust(TwoExchanges(d, s, map[ByObject(1, s.name) := route]),
           NEW_BROKER.(exchanges := {d, s}, ebinds := {EBind(d.name, s.name, route.key, route.args)}))
  }

  lemma TwoDeclared(d: ExDecl, s: ExDecl)
    requires d.name != "" && s.name != "" && d.name != s.name
    ensures var x := Robust(NEW_REGISTRY.(exchanges := map[0 := ExObj(true, d, map[])], exNames := [d.name]), NEW_BROKER.(exchanges := {d}));
      && StepsTo(FRESH, Do(DeclareExchange(0, d, false, true)), x)
      && StepsTo(x, Do(DeclareExchange(1, s, false, true)), Robust(TwoExchanges(d, s, map[]), NEW_BROKER.(exchanges := {d, s})))
  {
  }

  lemma ThenBound(d: ExDecl, s: ExDecl, route: Route)
    requires d.name != "" && s.name != "" && d.name != s.name
    ensures StepsTo(Robust(TwoExchanges(d, s, map[]), NEW_BROKER.(exchanges := {d, s})),
                    Do(BindExchange(0, ByObject(1, s.name), route, true)), BoundFrom(d, s, route))
  {
    var r, b := TwoExchanges(d, s, map[]), NEW_BROKER.(exchanges := {d, s});
    assert d in b.exchanges && s in b.exchanges;
    assert Slot(0, ByObject(1, s.name)) !in EBindSlots(r.exchanges);
  }

  lemma LateSourceIsReached(d: ExDecl, s: ExDecl, route: Route)
    requires d.name != "" && s.name != "" && d.name != s.name
    ensures Legal(FRESH, LateSource(d, s, route)) && After(FRESH, LateSource(d, s, route)) == BoundFrom(d, s, route)
  {
    var x := Robust(NEW_REGISTRY.(exchanges := map[0 := ExObj(true, d, map[])], exNames := [d.name]), NEW_BROKER.(exchanges := {d}));
    var y := Robust(TwoExchanges(d, s, map[]), NEW_BROKER.(exchanges := {d, s}));
    TwoDeclared(d, s);
    ThenBound(d, s, route);
    Prepend(y, Do(BindExchange(0, ByObject(1, s.name), route, true)), BoundFrom(d, s, route), []);
    Prepend(x, Do(DeclareExchange(1, s, false, true)), y, [Do(BindExchange(0, ByObject(1, s.name), route, true))] + []);
    Prepend(FRESH, Do(DeclareExchange(0, d, false, true)), x,
            [Do(DeclareExchange(1, s, false, true))] + ([Do(BindExchange(0, ByObject(1, s.name), route, true))] + []));
  }

  /** This run keeps every guard, and yet no replay after a total loss succeeds. */
  lemma LateSourceIsRefused(d: ExDecl, s: ExDecl, route: Route, exOrder: seq<Id>, qOrder: seq<Id>)
    requires d.name != "" && s.name != "" && d.name != s.name
    requires Orders(BoundFrom(d, s, route).registry, exOrder, qOrder)
    ensures Legal(FRESH, LateSource(d, s, route)) && After(FRESH, LateSource(d, s, route)) == BoundFrom(d, s, route)
    ensures Replayed(BoundFrom(d, s, route).registry, NEW_BROKER, exOrder, qOrder) == Refused
  {
    LateSourceIsReached(d, s, route);
    EveryRunCanBeRestored(LateSource(d, s, route), NEW_BROKER, exOrder, qOrder);
    var r := BoundFrom(d, s, route).registry;
    assert ByObject(1, s.name) in r.exchanges[0].bindings;
    assert r.exNames[1..] == [s.name] && Rank(r.exNames[1..], s.name) == 0 && Rank(r.exNames, s.name) == 1;
  }

  // -------------------------------------------------------------------------------------
  // Two routing keys from one source

  /** The operation is accepted, and after it the registries no longer describe the broker. */
  ghost predicate Misleads(x: Robust, op: Op) {
    && Callable(x.registry, op) && Accepts(x.broker, CommandOf(x.registry, op))
    && !Agree(Record(x.registry, op), Effect(x.broker, CommandOf(x.registry, op)))
  }

  lemma UnguardedMisleads(steps: seq<Step>, op: Op)
    requires Legal(FRESH, steps)
    requires Callable(After(FRESH, steps).registry, op) && !Guard(After(FRESH, steps).registry, op)
    requires Accepts(After(FRESH, steps).broker, CommandOf(After(FRESH, steps).registry, op))
    ensures Misleads(After(FRESH, steps), op)
  {
    FreshIsGood();
    RunKeepsGood(FRESH, steps);
    AgreementSurvivesIffGuarded(After(FRESH, steps).registry, After(FRESH, steps).broker, op);
  }

  lemma SecondKeyIsUnguarded(d: ExDecl, s: ExDecl, route: Route, second: Route)
    requires d.name != s.name && route.key != second.key
    ensures !Guard(BoundFrom(d, s, route).registry, BindExchange(0, ByObject(1, s.name), second, true))
  {
    var m := BoundFrom(d, s, route).registry.exchanges;
    assert HasEBind(m, Slot(0, ByObject(1, s.name)));
    assert forall k :: k in EBindSlots(m) ==> k == Slot(0, ByObject(1, s.name));
  }

  /** Binding again under a second key forgets the first: its dictionary is keyed by the source alone. */
  lemma TwoKeysFromOneSource(d: ExDecl, s: ExDecl, route: Route, second: Route)
    requires d.name != "" && s.name != "" && d.name != s.name && route.key != second.key
    ensures Legal(FRESH, LateSource(d, s, route))
    ensures Misleads(After(FRESH, LateSource(d, s, route)), BindExchange(0, ByObject(1, s.name), second, true))
  {
    LateSourceIsReached(d, s, route);
    SecondKeyIsUnguarded(d, s, route, second);
    var b := BoundFrom(d, s, route).broker;
    assert d in b.exchanges && s in b.exchanges;
    UnguardedMisleads(LateSource(d, s, route), BindExchange(0, ByObject(1, s.name), second, true));
  }

  // -------------------------------------------------------------------------------------
  // One exchange named two ways

  function TwoNames(e: ExDecl, q: QDecl, key: string, args: Args): seq<Step> {
    [Do(DeclareExchange(0, e, false, true))] + ([Do(DeclareQueue(0, q, true))]
      + ([Do(BindQueue(0, BindKey(ByObject(0, e.name), key), args, true))]
         + ([Do(BindQueue(0, BindKey(ByName(e.name), key), args, true))] + [])))
  }

  function OneQueue(e: ExDecl, q: QDecl, bindings: map<BindKey, Args>, qbinds: set<QBind>): Robust {
    Robust(NEW_REGISTRY.(exchanges := map[0 := ExObj(true, e, map[])], exNames := [e.name],
                         queues := map[0 := QObj(true, q, bindings, map[])]),
           NEW_BROKER.(exchanges := {e}, queues := {q}, qbinds := qbinds))
  }

  lemma OneQueueDeclared(e: ExDecl, q: QDecl)
    requires e.name != ""
    ensures var x := Robust(NEW_REGISTRY.(exchanges := map[0 := ExObj(true, e, map[])], exNames := [e.name]), NEW_BROKER.(exchanges := {e}));
      && StepsTo(FRESH, Do(DeclareExchange(0, e, false, true)), x)
      && StepsTo(x, Do(DeclareQueue(0, q, true)), OneQueue(e, q, map[], {}))
  {
  }

  lemma OneMoreBinding(e: ExDecl, q: QDecl, bindings: map<BindKey, Args>, qbinds: set<QBind>, k: BindKey, args: Args)
    requires k.source.name == e.name && k !in bindings
    ensures StepsTo(OneQueue(e, q, bindings, qbinds), Do(BindQueue(0, k, args, true)),
                    OneQueue(e, q, bindings[k := args], qbinds + {QBind(q.name, e.name, k.key, args)}))
  {
    var x := OneQueue(e, q, bindings, qbinds);
    assert e in x.broker.exchanges && q in x.broker.queues;
    assert Slot(0, k) !in QBindSlots(x.registry.queues);
    assert x.registry.queues[0 := QBound(x.registry.queues[0], k, args, true)]
           == map[0 := QObj(true, q, bindings[k := args], map[])];
  }

  lemma TwoNamesIsReached(e: ExDecl, q: QDecl, key: string, args: Args)
    requires e.name != ""
    ensures Legal(FRESH, TwoNames(e, q, key, args))
    ensures var v := QBind(q.name, e.name, key, args);
      After(FRESH, TwoNames(e, q, key, args))
      == OneQueue(e, q, map[BindKey(ByObject(0, e.name), key) := args][BindKey(ByName(e.name), key) := args], {v} + {v})
  {
    var k1, k2 := BindKey(ByObject(0, e.name), key), BindKey(ByName(e.name), key);
    var v := QBind(q.name, e.name, key, args);
    var x := Robust(NEW_REGISTRY.(exchanges := map[0 := ExObj(true, e, map[])], exNames := [e.name]), NEW_BROKER.(exchanges := {e}));
    var y := OneQueue(e, q, map[], {});
    var z := OneQueue(e, q, map[][k1 := args], {} + {v});
    var w := OneQueue(e, q, map[k1 := args][k2 := args], {v} + {v});
    assert map[][k1 := args] == map[k1 := args] && {} + {v} == {v};
    OneQueueDeclared(e, q);
    OneMoreBinding(e, q, map[], {}, k1, args);
    OneMoreBinding(e, q, map[k1 := args], {v}, k2, args);
    Prepend(z, Do(BindQueue(0, k2, args, true)), w, []);
    Prepend(y, Do(BindQueue(0, k1, args, true)), z, [Do(BindQueue(0, k2, args, true))] + []);
    Prepend(x, Do(DeclareQueue(0, q, true)), y, [Do(BindQueue(0, k1, args, true))] + ([Do(BindQueue(0, k2, args, true))] + []));
    Prepend(FRESH, Do(DeclareExchange(0, e, false, true)), x,
            [Do(DeclareQueue(0, q, true))] + ([Do(BindQueue(0, k1, args, true))] + ([Do(BindQueue(0, k2, args, true))] + [])));
  }

  lemma SecondNameIsUnguarded(e: ExDecl, q: QDecl, key: string, args: Args)
    ensures var bindings := map[BindKey(ByObject(0, e.name), key) := args][BindKey(ByName(e.name), key) := args];
      !Guard(OneQueue(e, q, bindings, {}).registry, UnbindQueue(0, BindKey(ByName(e.name), key), args))
  {
    var bindings := map[BindKey(ByObject(0, e.name), key) := args][BindKey(ByName(e.name), key) := args];
    var m, s := OneQueue(e, q, bindings, {}).registry.queues, Slot(0, BindKey(ByObject(0, e.name), key));
    assert HasQBind(m, s) && QBindSlots(m)[s] == QBind(q.name, e.name, key, args);
  }

  /** A binding made under the exchange object and again under its name sits in two entries;
      one unbind removes it at the broker and leaves the other entry, to be bound again. */
  lemma NamedTwoWays(e: ExDecl, q: QDecl, key: string, args: Args)
    requires e.name != ""
    ensures Legal(FRESH, TwoNames(e, q, key, args))
    ensures Misleads(After(FRESH, TwoNames(e, q, key, args)), UnbindQueue(0, BindKey(ByName(e.name), key), args))
  {
    TwoNamesIsReached(e, q, key, args);
    SecondNameIsUnguarded(e, q, key, args);
    UnguardedMisleads(TwoNames(e, q, key, args), UnbindQueue(0, BindKey(ByName(e.name), key), args));
  }

  // -------------------------------------------------------------------------------------
  // A bind in flight

  lemma BindIsInFlight(e: ExDecl, q: QDecl, k: BindKey, args: Args)
    requires k.source.name == e.name
    ensures var x, op := OneQueue(e, q, map[], {}), BindQueue(0, k, args, true);
      && InFlight(x.registry, x.broker, op) && CommandOf(x.registry, op).QueueBind?
      && CommandOf(x.registry, op).qbind !in x.broker.qbinds
      && SourcesFirst(x.registry.exchanges, x.registry.exNames, NEW_BROKER)
  {
    OneMoreBinding(e, q, map[], {}, k, args);
  }

  /** Declare an exchange and a queue and bind them; if a total loss and the reopening overtake
      the recording of that bind, the entry promises a binding the broker does not have. */
  lemma BindInFlightIsLost(e: ExDecl, q: QDecl, k: BindKey, args: Args, exOrder: seq<Id>, qOrder: seq<Id>)
    requires e.name != "" && k.source.name == e.name
    requires Orders(OneQueue(e, q, map[], {}).registry, exOrder, qOrder)
    ensures var steps := [Do(DeclareExchange(0, e, false, true))] + ([Do(DeclareQueue(0, q, true))] + []);
      Legal(FRESH, steps) && After(FRESH, steps) == OneQueue(e, q, map[], {})
    ensures var x := OneQueue(e, q, map[], {});
      && Replayed(x.registry, NEW_BROKER, exOrder, qOrder) == Ok(x.broker)
      && !Agree(Record(x.registry, BindQueue(0, k, args, true)), x.broker)
  {
    var x := OneQueue(e, q, map[], {});
    var y := Robust(NEW_REGISTRY.(exchanges := map[0 := ExObj(true, e, map[])], exNames := [e.name]), NEW_BROKER.(exchanges := {e}));
    OneQueueDeclared(e, q);
    Prepend(y, Do(DeclareQueue(0, q, true)), x, []);
    Prepend(FRESH, Do(DeclareExchange(0, e, false, true)), y, [Do(DeclareQueue(0, q, true))] + []);
    FreshIsGood();
    RunKeepsGood(FRESH, [Do(DeclareExchange(0, e, false, true))] + ([Do(DeclareQueue(0, q, true))] + []));
    BindIsInFlight(e, q, k, args);
    BindOvertakenByLoss(x.registry, x.broker, BindQueue(0, k, args, true), exOrder, qOrder);
  }
}
