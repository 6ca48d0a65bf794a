/** `register` and `unregister`: three dictionaries that must describe one bijection. */
module RpcRoutes {

  type Key = string   // routing key, and the name the method queue is declared with
  type Func = nat
  type Tag = string

  datatype Routes = Routes(routes: map<Key, Func>, queues: map<Func, Key>, tags: map<Func, Tag>)

  /** Which broker call of an operation raises, if any. */
  datatype Fault = NoFault | DeclareFails | BindFails | ConsumeFails

  datatype Op =
    | Register(key: Key, func: Func, tag: Tag, generated: Key, fault: Fault)
    | Unregister(func: Func, cancelFails: bool)

  const EMPTY := Routes(map[], map[], map[])

  /** A queue declared without a name gets a generated one. */
  function QueueName(key: Key, generated: Key): Key { if key == "" then generated else key }

  predicate Raises(r: Routes, op: Op) {
    match op
    case Register(key, func, _, _, fault) => !fault.NoFault? || func in r.tags || key in r.routes
    case Unregister(func, cancelFails) =>
      func in r.tags && (cancelFails || func !in r.queues || r.queues[func] !in r.routes)
  }

  function Apply(r: Routes, op: Op): Routes {
    match op
    case Register(key, func, tag, generated, _) =>
      if Raises(r, op) then r
      else Routes(r.routes[key := func], r.queues[func := QueueName(key, generated)], r.tags[func := tag])
    case Unregister(func, cancelFails) =>
      if func !in r.tags then r
      else if func !in r.queues then r.(tags := r.tags - {func})
      else
        var popped := Routes(r.routes, r.queues - {func}, r.tags - {func});
        if cancelFails then popped else popped.(routes := r.routes - {r.queues[func]})
  }

  /** Routes are injective, their functions are the keys of both other dictionaries, and each
      function's queue is named by its route. */
  ghost predicate Bijection(r: Routes) {
    && r.queues.Keys == r.tags.Keys
    && (forall f :: f in r.queues ==> r.queues[f] in r.routes && r.routes[r.queues[f]] == f)
    && (forall k :: k in r.routes ==> r.routes[k] in r.queues && r.queues[r.routes[k]] == k)
  }

  function Run(r: Routes, ops: seq<Op>): Routes
    decreases |ops|
  {
    if ops == [] then r else Run(Apply(r, ops[0]), ops[1..])
  }

  /** What a caller can see to: a name for the method, and a cancel the broker confirms. */
  predicate Careful(r: Routes, op: Op) {
    match op
    case Register(key, _, _, generated, _) => Raises(r, op) || key != "" || generated == ""
    case Unregister(func, cancelFails) => func in r.tags ==> !cancelFails
  }

  /** One operation keeps the bijection exactly when it is careful. */
  lemma BijectionSurvivesIffCareful(r: Routes, op: Op)
    requires Bijection(r)
    ensures Bijection(Apply(r, op)) <==> Careful(r, op)
  {
    var r' := Apply(r, op);
    match op {
      case Register(key, func, tag, generated, fault) =>
        if !Raises(r, op) {
          assert r'.routes[key] == func && r'.queues[func] == QueueName(key, generated);
        }
      case Unregister(func, cancelFails) =>
        if func in r.tags {
          assert r.routes[r.queues[func]] == func;
          if cancelFails {
            assert r.queues[func] in r'.routes && r'.routes[r.queues[func]] == func;
          }
        }
    }
  }

  /** A method without a name is queued under a generated one; a cancel that fails leaves the
      route behind. */
  lemma CarelessOperations(func: Func, tag: Tag, name: Key)
    requires name != ""
    ensures !Bijection(Apply(EMPTY, Register("", func, tag, name, NoFault)))
    ensures !Bijection(Run(EMPTY, [Register(name, func, tag, name, NoFault), Unregister(func, true)]))
  {
    BijectionSurvivesIffCareful(EMPTY, Register("", func, tag, name, NoFault));
    var ops := [Register(name, func, tag, name, NoFault), Unregister(func, true)];
    assert ops[1..] == [Unregister(func, true)] && ops[1..][1..] == [];
    var one := Apply(EMPTY, ops[0]);
    assert func in one.tags;
    BijectionSurvivesIffCareful(EMPTY, ops[0]);
    BijectionSurvivesIffCareful(one, ops[1]);
    var two := Apply(one, ops[1]);
    assert Run(two, ops[1..][1..]) == two && Run(one, ops[1..]) == two && Run(EMPTY, ops) == two;
  }

  /** The pop of the route in `unregister` never misses: it raises only if the cancel does. */
  lemma UnregisterFindsItsRoute(r: Routes, func: Func, cancelFails: bool)
    requires Bijection(r)
    ensures Raises(r, Unregister(func, cancelFails)) <==> func in r.tags && cancelFails
    ensures func in r.tags && !cancelFails ==>
      forall k :: k in r.routes ==> (k in Apply(r, Unregister(func, cancelFails)).routes <==> r.routes[k] != func)
  {
  }

  /** A registration that does not raise adds the route, the queue and the consumer tag of its own
      function, and touches no other's; one that raises adds nothing. */
  lemma RegisterAddsItsOwn(r: Routes, key: Key, func: Func, tag: Tag, generated: Key, fault: Fault)
    requires key != ""
    ensures var op := Register(key, func, tag, generated, fault);
      var r' := Apply(r, op);
      && (Raises(r, op) <==> fault != NoFault || func in r.tags || key in r.routes)
      && (Raises(r, op) ==> r' == r)
      && (!Raises(r, op) ==>
            r' == Routes(r.routes[key := func], r.queues[func := key], r.tags[func := tag]))
  {
  }

  /** The tag that `unregister` cancels is the one that the function's registration was given,
      whatever was registered and unregistered in between. */
  lemma {:induction false} TagIsOfItsRegistration(r: Routes, ops: seq<Op>, func: Func)
    requires func in r.tags && forall op :: op in ops ==> !(op.Unregister? && op.func == func)
    ensures func in Run(r, ops).tags && Run(r, ops).tags[func] == r.tags[func]
    decreases |ops|
  {
    if ops == [] {
    } else {
      assert ops[0] in ops;
      TagIsOfItsRegistration(Apply(r, ops[0]), ops[1..], func);
    }
  }

  predicate AllCareful(r: Routes, ops: seq<Op>)
    decreases |ops|
  {
    ops == [] || (Careful(r, ops[0]) && AllCareful(Apply(r, ops[0]), ops[1..]))
  }

  lemma {:induction false} CarefulRunsKeepBijection(r: Routes, ops: seq<Op>)
    requires Bijection(r) && AllCareful(r, ops)
    ensures Bijection(Run(r, ops))
    decreases |ops|
  {
    if ops == [] {
    } else {
      BijectionSurvivesIffCareful(r, ops[0]);
      CarefulRunsKeepBijection(Apply(r, ops[0]), ops[1..]);
    }
  }

  /** From a new RPC object: whatever is registered and unregistered, duplicates and failing
      declarations included, no function or route is ever orphaned. */
  lemma RegistrationIsABijection(ops: seq<Op>)
    requires AllCareful(EMPTY, ops)
    ensures Bijection(Run(EMPTY, ops))
    ensures forall k, l :: k in Run(EMPTY, ops).routes && l in Run(EMPTY, ops).routes && k != l
              ==> Run(EMPTY, ops).routes[k] != Run(EMPTY, ops).routes[l]
  {
    CarefulRunsKeepBijection(EMPTY, ops);
  }

  // -------------------------------------------------------------------------------------
  // Overlapping calls

  /** `leaving` are the names of queues whose `unregister` awaits the cancel; their routes are
      still there. */
  datatype Overlapping = Overlapping(dicts: Routes, leaving: set<Key>)

  datatype Step =
    | Commit(key: Key, func: Func, tag: Tag)  // the end of `register`: its checks are not made again
    | Leave(func: Func)                       // `unregister` up to its await
    | Left(key: Key)                          // and from there

  predicate Enabled(o: Overlapping, step: Step) {
    match step
    case Commit(_, _, _) => true
    case Leave(func) => func in o.dicts.tags && func in o.dicts.queues
    case Left(key) => key in o.leaving
  }

  function Next(o: Overlapping, step: Step): Overlapping
    requires Enabled(o, step)
  {
    var r := o.dicts;
    match step
    case Commit(key, func, tag) => o.(dicts := Routes(r.routes[key := func], r.queues[func := key], r.tags[func := tag]))
    case Leave(func) =>
      Overlapping(Routes(r.routes, r.queues - {func}, r.tags - {func}), o.leaving + {r.queues[func]})
    case Left(key) => Overlapping(r.(routes := r.routes - {key}), o.leaving - {key})
  }

  /** A bijection, but for the routes of queues that are leaving. */
  ghost predicate BijectionButLeaving(o: Overlapping) {
    var r := o.dicts;
    && r.queues.Keys == r.tags.Keys
    && (forall f :: f in r.queues ==> r.queues[f] in r.routes && r.routes[r.queues[f]] == f && r.queues[f] !in o.leaving)
    && (forall k :: k in r.routes && k !in o.leaving ==> r.routes[k] in r.queues && r.queues[r.routes[k]] == k)
    && (forall k :: k in o.leaving ==> k in r.routes)
  }

  /** The route and the function of a registration are still free when it ends, or registered
      to each other and not leaving. */
  predicate StillFree(o: Overlapping, key: Key, func: Func) {
    || (key !in o.dicts.routes && func !in o.dicts.queues)
    || (key in o.dicts.routes && key !in o.leaving && o.dicts.routes[key] == func)
  }

  /** A step keeps the three dictionaries one bijection, but for what is leaving, exactly when
      it is no registration whose route or function was taken since it was checked. */
  lemma OverlappingStepKeepsIff(o: Overlapping, step: Step)
    requires BijectionButLeaving(o) && Enabled(o, step)
    ensures BijectionButLeaving(Next(o, step)) <==> (step.Commit? ==> StillFree(o, step.key, step.func))
  {
    var r, n := o.dicts, Next(o, step).dicts;
    match step {
      case Commit(key, func, tag) =>
        assert n.routes[key] == func && n.queues[func] == key;
        if key in r.routes && key !in o.leaving && r.routes[key] != func {
          assert n.queues[r.routes[key]] == key;
        }
        if func in r.queues && r.queues[func] != key {
          assert n.routes[r.queues[func]] == func;
        }
      case Leave(func) => assert r.routes[r.queues[func]] == func;
      case Left(key) =>
    }
  }

  /** A registration that ends adds its own route, queue and consumer tag, and replaces no other
      function's queue or tag. */
  lemma CommitAddsItsOwn(o: Overlapping, key: Key, func: Func, tag: Tag)
    ensures var n := Next(o, Commit(key, func, tag)).dicts;
      && key in n.routes && n.routes[key] == func && func in n.queues && n.queues[func] == key && func in n.tags && n.tags[func] == tag
      && (forall k :: k in o.dicts.routes && k != key ==> k in n.routes && n.routes[k] == o.dicts.routes[k])
      && (forall f :: f in o.dicts.tags && f != func ==> f in n.tags && n.tags[f] == o.dicts.tags[f])
  {
  }

  predicate Legal(o: Overlapping, steps: seq<Step>)
    decreases |steps|
  {
    steps == [] || (Enabled(o, steps[0]) && Legal(Next(o, steps[0]), steps[1..]))
  }

  function After(o: Overlapping, steps: seq<Step>): Overlapping
    requires Legal(o, steps)
    decreases |steps|
  {
    if steps == [] then o else After(Next(o, steps[0]), steps[1..])
  }

  predicate AllStillFree(o: Overlapping, steps: seq<Step>)
    requires Legal(o, steps)
    decreases |steps|
  {
    steps == [] || ((steps[0].Commit? ==> StillFree(o, steps[0].key, steps[0].func)) && AllStillFree(Next(o, steps[0]), steps[1..]))
  }

  lemma {:induction false} OverlappingRunKeeps(o: Overlapping, steps: seq<Step>)
    requires BijectionButLeaving(o) && Legal(o, steps) && AllStillFree(o, steps)
    ensures BijectionButLeaving(After(o, steps))
    decreases |steps|
  {
    if steps == [] {
    } else {
      OverlappingStepKeepsIff(o, steps[0]);
      OverlappingRunKeeps(Next(o, steps[0]), steps[1..]);
    }
  }

  /** Over any run of overlapping calls in which registrations end on free ground, the
      dictionaries are one bijection again whenever nothing is leaving. */
  lemma OverlappingCallsKeepBijection(steps: seq<Step>)
    requires Legal(Overlapping(EMPTY, {}), steps) && AllStillFree(Overlapping(EMPTY, {}), steps)
    ensures After(Overlapping(EMPTY, {}), steps).leaving == {} ==> Bijection(After(Overlapping(EMPTY, {}), steps).dicts)
  {
    OverlappingRunKeeps(Overlapping(EMPTY, {}), steps);
  }

  /** Two functions registered under one name at the same time both pass the checks; the second
      commit takes the route, and unregistering the first function then removes it. */
  lemma OverlappingRegistrations(key: Key, f: Func, g: Func, s: Tag, t: Tag)
    requires f != g && key != ""
    ensures !Raises(EMPTY, Register(key, f, s, key, NoFault)) && !Raises(EMPTY, Register(key, g, t, key, NoFault))
    ensures var both := Next(Next(Overlapping(EMPTY, {}), Commit(key, f, s)), Commit(key, g, t));
      && !BijectionButLeaving(both)
      && g in Apply(both.dicts, Unregister(f, false)).tags && Apply(both.dicts, Unregister(f, false)).routes == map[]
  {
    var none := Overlapping(EMPTY, {});
    var one := Next(none, Commit(key, f, s));
    OverlappingStepKeepsIff(none, Commit(key, f, s));
    assert one.dicts.routes[key] == f;
    OverlappingStepKeepsIff(one, Commit(key, g, t));
    assert Next(one, Commit(key, g, t)).dicts.routes == map[key := g];
  }
}
