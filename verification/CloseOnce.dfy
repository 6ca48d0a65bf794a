/** One-shot close callbacks, and a channel whose underlays come and go as it is reopened. */
module CloseOnce {
  import opened Options

  type Id = nat

  datatype Task = NotMade | Made | Running | Done

  /** One `OneShotCallback`.  `finishing` counts the calls of `finished.set` that are queued. */
  datatype OneShot = OneShot(task: Task, hasCallback: bool, finished: bool, finishing: nat, runs: nat)

  const FRESH := OneShot(NotMade, true, false, 0, 0)

  // The four atomic stretches of a callback's life.

  /** `__call__`, which either closing future may make, at any time and any number of times. */
  function Called(c: OneShot): OneShot {
    if c.finished || !c.task.NotMade? then c else c.(task := Made)
  }

  /** `__task_inner` up to the suspension inside the callback. */
  function Started(c: OneShot): OneShot {
    if c.finished then c.(task := Done) else c.(task := Running, runs := c.runs + 1)
  }

  /** The callback returned or raised: the `finally` clause. */
  function Ended(c: OneShot): OneShot {
    c.(task := Done, finishing := c.finishing + 1, hasCallback := false)
  }

  function Set(c: OneShot): OneShot {
    c.(finished := true, finishing := if c.finishing == 0 then 0 else c.finishing - 1)
  }

  datatype Channel = Channel(
    shots: map<Id, OneShot>,    // by underlay, stale ones too
    attached: set<Id>,          // whose callback still hangs on the closing futures
    current: Option<Id>,        // `_channel`
    initializing: bool,
    hearing: set<Id>)           // underlays with our return handler

  const EMPTY := Channel(map[], {}, None, false, {})

  datatype Action =
    | Create(id: Id)
    | Adopt(id: Id, byInitialize: bool)
    | HandlerAdded
    | OpenFailed
    | Fire(id: Id)
    | Start(id: Id)
    | End(id: Id, raises: bool)
    | Finish(id: Id)
    | Detach(id: Id)            // the end of the underlay's close()

  predicate Enabled(s: Channel, a: Action) {
    match a
    case Create(id) => id !in s.shots
    case Adopt(id, byInitialize) => id in s.shots && (byInitialize ==> s.current.None?)
    case HandlerAdded => s.initializing && s.current.Some?
    case OpenFailed => s.current.Some? && s.current.value in s.shots && s.shots[s.current.value].finished
    case Fire(id) => id in s.attached && id in s.shots
    case Start(id) => id in s.shots && s.shots[id].task.Made?
    case End(id, _) => id in s.shots && s.shots[id].task.Running?
    case Finish(id) => id in s.shots && s.shots[id].finishing > 0
    case Detach(id) => id in s.shots && s.shots[id].finished
  }

  /** `_on_close` takes our return handler off the current underlay, whichever one closed. */
  function Deafened(s: Channel): Channel {
    if s.current.Some? then s.(hearing := s.hearing - {s.current.value}) else s
  }

  function Next(s: Channel, a: Action): Channel
    requires Enabled(s, a)
  {
    match a
    case Create(id) => s.(shots := s.shots[id := FRESH], attached := s.attached + {id})
    case Adopt(id, byInitialize) => s.(current := Some(id), initializing := byInitialize || s.initializing)
    case HandlerAdded => s.(hearing := s.hearing + {s.current.value}, initializing := false)
    case OpenFailed => s.(current := None, initializing := false)
    case Fire(id) => s.(shots := s.shots[id := Called(s.shots[id])])
    case Start(id) => s.(shots := s.shots[id := Started(s.shots[id])])
    case End(id, raises) =>
      (if raises then s else Deafened(s)).(shots := s.shots[id := Ended(s.shots[id])])
    case Finish(id) => s.(shots := s.shots[id := Set(s.shots[id])])
    case Detach(id) => s.(attached := s.attached - {id})
  }

  predicate Legal(s: Channel, acts: seq<Action>)
    decreases |acts|
  {
    acts == [] || (Enabled(s, acts[0]) && Legal(Next(s, acts[0]), acts[1..]))
  }

  function After(s: Channel, acts: seq<Action>): Channel
    requires Legal(s, acts)
    decreases |acts|
  {
    if acts == [] then s else After(Next(s, acts[0]), acts[1..])
  }

  // -------------------------------------------------------------------------------------
  // Invariant

  /** What can be read off one callback at any time. */
  predicate Sound(c: OneShot) {
    && c.runs == (if c.task.NotMade? || c.task.Made? then 0 else 1)
    && (c.hasCallback <==> !c.task.Done?)
    && (c.task.Done? <==> c.finished || c.finishing > 0)
    && c.finishing <= 1 && (c.finished ==> c.finishing == 0)
  }

  ghost predicate Inv(s: Channel) {
    forall id :: id in s.shots ==> Sound(s.shots[id])
  }

  lemma StepKeepsInv(s: Channel, a: Action)
    requires Inv(s) && Enabled(s, a)
    ensures Inv(Next(s, a))
  {
  }

  lemma {:induction false} RunKeepsInv(s: Channel, acts: seq<Action>)
    requires Inv(s) && Legal(s, acts)
    ensures Inv(After(s, acts))
    decreases |acts|
  {
    if acts == [] {
    } else {
      StepKeepsInv(s, acts[0]);
      RunKeepsInv(Next(s, acts[0]), acts[1..]);
    }
  }

  // -------------------------------------------------------------------------------------
  // Main results

  /** However often and in whatever order the futures of any number of underlays fire, the
      close handler runs at most once per underlay, and `finished` is set only when its one
      run is over. */
  lemma OneClosePerUnderlay(acts: seq<Action>, id: Id)
    requires Legal(EMPTY, acts) && id in After(EMPTY, acts).shots
    ensures var c := After(EMPTY, acts).shots[id];
      && c.runs <= 1
      && (c.finished ==> c.runs == 1 && c.task.Done?)
  {
    RunKeepsInv(EMPTY, acts);
  }

  /** The deleted callback is never called: whenever a task starts, it is still there, and
      `finished` is not set yet. */
  lemma StartFindsTheCallback(acts: seq<Action>, id: Id)
    requires Legal(EMPTY, acts) && Enabled(After(EMPTY, acts), Start(id))
    ensures var c := After(EMPTY, acts).shots[id]; c.hasCallback && !c.finished && Started(c).task.Running?
  {
    RunKeepsInv(EMPTY, acts);
  }

  lemma RunsStep(s: Channel, a: Action, id: Id)
    requires Inv(s) && Enabled(s, a) && id in s.shots
    ensures id in Next(s, a).shots && Next(s, a).shots[id].runs == s.shots[id].runs + (if a == Start(id) then 1 else 0)
    ensures Next(s, a).shots[id].finished <==> s.shots[id].finished || a == Finish(id)
  {
  }

  /** The close handler runs whenever a task of the callback starts, and `finished` is set only by
      the call that the end of that task leaves to the loop. */
  lemma {:induction false} RunsAreStarts(s: Channel, acts: seq<Action>, id: Id)
    requires Inv(s) && id in s.shots && Legal(s, acts)
    ensures var c := After(s, acts);
      && id in c.shots
      && c.shots[id].runs == s.shots[id].runs + multiset(acts)[Start(id)]
      && (c.shots[id].finished <==> s.shots[id].finished || Finish(id) in acts)
    decreases |acts|
  {
    if acts == [] {
    } else {
      assert acts == [acts[0]] + acts[1..];
      StepKeepsInv(s, acts[0]);
      RunsStep(s, acts[0], id);
      RunsAreStarts(Next(s, acts[0]), acts[1..], id);
    }
  }

  /** The end of the task leaves the setting of `finished` to the loop. */
  lemma EndLeavesFinishing(s: Channel, id: Id, raises: bool)
    requires Inv(s) && Enabled(s, End(id, raises))
    ensures var e := Next(s, End(id, raises));
      && !e.shots[id].finished && !e.shots[id].hasCallback && Enabled(e, Finish(id))
      && Next(e, Finish(id)).shots[id].finished && !Enabled(Next(e, Finish(id)), Finish(id))
  {
  }

  /** A callback fires only while it hangs on the futures: from its creation until a close that
      waited for it takes it off. */
  lemma FiresOnlyAttached(s: Channel, id: Id)
    requires id in s.shots
    ensures Enabled(s, Fire(id)) <==> id in s.attached
    ensures Enabled(s, Detach(id)) <==> s.shots[id].finished
    ensures Enabled(s, Detach(id)) ==> !Enabled(Next(s, Detach(id)), Fire(id)) && Next(s, Detach(id)).shots == s.shots
    ensures id !in s.attached ==> forall a :: Enabled(s, a) && a != Create(id) ==> id !in Next(s, a).attached
  {
  }

  predicate Fired(s: Channel, id: Id) { id in s.shots && !s.shots[id].task.NotMade? }

  lemma FiredIsForEver(s: Channel, a: Action, id: Id)
    requires Enabled(s, a) && Fired(s, id)
    ensures Fired(Next(s, a), id)
  {
  }

  /** The run without the later firings of one underlay. */
  function Without(acts: seq<Action>, id: Id): seq<Action> {
    if acts == [] then [] else
    if acts[0] == Fire(id) then Without(acts[1..], id) else [acts[0]] + Without(acts[1..], id)
  }

  /** Once an underlay has fired, its later firings do nothing: striking them out of a run
      gives a run that ends in the same state. */
  lemma {:induction false} LaterFiringsAreInvisible(s: Channel, acts: seq<Action>, id: Id)
    requires Fired(s, id) && Legal(s, acts)
    ensures Legal(s, Without(acts, id)) && After(s, Without(acts, id)) == After(s, acts)
    decreases |acts|
  {
    if acts == [] {
    } else {
      var s' := Next(s, acts[0]);
      FiredIsForEver(s, acts[0], id);
      LaterFiringsAreInvisible(s', acts[1..], id);
      if acts[0] == Fire(id) {
        assert s'.shots == s.shots;
        assert s' == s;
      } else {
        var rest := Without(acts[1..], id);
        assert ([acts[0]] + rest)[1..] == rest;
      }
    }
  }

  /** The steps of one underlay leave every other underlay's callback as it was. */
  lemma OthersUntouched(s: Channel, a: Action, id: Id, other: Id)
    requires Enabled(s, a) && other in s.shots && other != id
    requires a in {Create(id), Fire(id), Start(id), End(id, true), End(id, false), Finish(id), Detach(id)}
    ensures other in Next(s, a).shots && Next(s, a).shots[other] == s.shots[other]
    ensures other in Next(s, a).attached <==> other in s.attached
  {
  }

  /** The steps a fired callback is away from `finished`. */
  function Left(c: OneShot): nat {
    if c.finished then 0 else
    match c.task case NotMade => 4 case Made => 3 case Running => 2 case Done => 1
  }

  /** Its own next step, which is enabled and brings `finished` nearer. */
  function OwnStep(c: OneShot, id: Id): Action {
    match c.task
    case NotMade => Fire(id)
    case Made => Start(id)
    case Running => End(id, false)
    case Done => Finish(id)
  }

  lemma FiredWindsDown(s: Channel, id: Id)
    requires Inv(s) && Fired(s, id) && !s.shots[id].finished
    ensures Enabled(s, OwnStep(s.shots[id], id))
    ensures Left(Next(s, OwnStep(s.shots[id], id)).shots[id]) < Left(s.shots[id])
  {
  }

  lemma NothingDelaysIt(s: Channel, a: Action, id: Id)
    requires Inv(s) && Enabled(s, a) && id in s.shots
    ensures id in Next(s, a).shots && Left(Next(s, a).shots[id]) <= Left(s.shots[id])
  {
  }

  /** So a closer waiting for `finished` is released: in every run that keeps giving a fired
      underlay its turn, three turns are enough. */
  function Turns(s: Channel, acts: seq<Action>, id: Id): nat
    requires Legal(s, acts)
    decreases |acts|
  {
    if acts == [] then 0 else
    (if id in s.shots && (acts[0] == OwnStep(s.shots[id], id) || acts[0] == End(id, true)) then 1 else 0)
      + Turns(Next(s, acts[0]), acts[1..], id)
  }

  lemma {:induction false} ClosersAreReleased(s: Channel, acts: seq<Action>, id: Id)
    requires Inv(s) && Fired(s, id) && Legal(s, acts) && Turns(s, acts, id) >= Left(s.shots[id])
    ensures var s' := After(s, acts); id in s'.shots && s'.shots[id].finished && s'.shots[id].runs == 1
    decreases |acts|
  {
    if acts == [] {
    } else {
      var s' := Next(s, acts[0]);
      StepKeepsInv(s, acts[0]);
      FiredIsForEver(s, acts[0], id);
      NothingDelaysIt(s, acts[0], id);
      TurnCounts(s, acts[0], id);
      ClosersAreReleased(s', acts[1..], id);
    }
  }

  lemma TurnCounts(s: Channel, a: Action, id: Id)
    requires Inv(s) && Fired(s, id) && Enabled(s, a)
    ensures (a == OwnStep(s.shots[id], id) || a == End(id, true)) && !s.shots[id].finished
      ==> Left(Next(s, a).shots[id]) < Left(s.shots[id])
    ensures s.shots[id].finished ==> a != OwnStep(s.shots[id], id) && a != End(id, true)
  {
  }

  // -------------------------------------------------------------------------------------
  // The current underlay

  /** The underlay that a run leaves current: the last one taken, unless an opening failed since. */
  function LastTaken(current: Option<Id>, acts: seq<Action>): Option<Id>
    decreases |acts|
  {
    if acts == [] then current
    else
      var a := acts[|acts| - 1];
      if a.Adopt? then Some(a.id) else if a.OpenFailed? then None else LastTaken(current, acts[..|acts| - 1])
  }

  lemma {:induction false} LastTakenOfRest(current: Option<Id>, a: Action, acts: seq<Action>)
    ensures LastTaken(current, [a] + acts)
            == LastTaken(if a.Adopt? then Some(a.id) else if a.OpenFailed? then None else current, acts)
    decreases |acts|
  {
    if acts == [] {
      assert ([a] + acts)[..0] == [];
    } else {
      var n := |acts| - 1;
      assert ([a] + acts)[..n + 1] == [a] + acts[..n];
      LastTakenOfRest(current, a, acts[..n]);
    }
  }

  lemma {:induction false} CurrentIsLastTaken(s: Channel, acts: seq<Action>)
    requires Legal(s, acts)
    ensures After(s, acts).current == LastTaken(s.current, acts)
    decreases |acts|
  {
    if acts == [] {
    } else {
      assert acts == [acts[0]] + acts[1..];
      LastTakenOfRest(s.current, acts[0], acts[1..]);
      CurrentIsLastTaken(Next(s, acts[0]), acts[1..]);
    }
  }

  /** An underlay's callback hangs on the two futures from its creation to the end of its close. */
  lemma {:induction false} AttachedSinceCreated(s: Channel, acts: seq<Action>, id: Id)
    requires Legal(s, acts) && id in s.attached
    ensures Detach(id) !in acts ==> id in After(s, acts).attached
    decreases |acts|
  {
    if acts == [] {
    } else {
      assert acts == [acts[0]] + acts[1..];
      if acts[0] != Detach(id) { AttachedSinceCreated(Next(s, acts[0]), acts[1..], id); }
    }
  }

  // -------------------------------------------------------------------------------------
  // The return handler

  /** A close takes the handler off the underlay that closed, and off no other, exactly when
      that underlay is the current one or neither of the two carries it. */
  lemma CloseDeafensTheRightOne(s: Channel, id: Id)
    requires Enabled(s, End(id, false))
    ensures Next(s, End(id, false)).hearing == s.hearing - {id} <==>
      s.current == Some(id) || (id !in s.hearing && (s.current.None? || s.current.value !in s.hearing))
  {
    var h := Next(s, End(id, false)).hearing;
    if s.current.Some? {
      assert h == s.hearing - {s.current.value};
      assert s.current.value !in h;
    } else {
      assert h == s.hearing;
    }
  }

  ghost predicate StepsTo(s: Channel, a: Action, r: Channel) { Enabled(s, a) && Next(s, a) == r }

  lemma Prepend(s: Channel, a: Action, r: Channel, acts: seq<Action>)
    requires StepsTo(s, a, r) && Legal(r, acts)
    ensures Legal(s, [a] + acts) && After(s, [a] + acts) == After(r, acts)
  {
    assert ([a] + acts)[1..] == acts;
  }

  /** An underlay is opened by `initialize`, and a second one by reopening. */
  function InitializeAndReopen(a: Id, b: Id): seq<Action> {
    [Create(a)] + ([Adopt(a, true)] + ([HandlerAdded] + ([Create(b)] + ([Adopt(b, false)] + []))))
  }

  function Reopened(a: Id, b: Id): Channel {
    Channel(map[a := FRESH, b := FRESH], {a, b}, Some(b), false, {a})
  }

  lemma ReopenedIsReached(a: Id, b: Id)
    requires a != b
    ensures Legal(EMPTY, InitializeAndReopen(a, b)) && After(EMPTY, InitializeAndReopen(a, b)) == Reopened(a, b)
  {
    var s1 := Channel(map[a := FRESH], {a}, None, false, {});
    var s2 := s1.(current := Some(a), initializing := true);
    var s3 := s1.(current := Some(a), hearing := {a});
    var s4 := Channel(map[a := FRESH, b := FRESH], {a, b}, Some(a), false, {a});
    Prepend(s4, Adopt(b, false), Reopened(a, b), []);
    Prepend(s3, Create(b), s4, [Adopt(b, false)] + []);
    Prepend(s2, HandlerAdded, s3, [Create(b)] + ([Adopt(b, false)] + []));
    Prepend(s1, Adopt(a, true), s2, [HandlerAdded] + ([Create(b)] + ([Adopt(b, false)] + [])));
    Prepend(EMPTY, Create(a), s1, [Adopt(a, true)] + ([HandlerAdded] + ([Create(b)] + ([Adopt(b, false)] + []))));
  }

  function Closes(id: Id): seq<Action> { [Fire(id)] + ([Start(id)] + ([End(id, false)] + [])) }

  lemma StaleClose(a: Id, b: Id)
    requires a != b
    ensures Legal(Reopened(a, b), Closes(a)) && After(Reopened(a, b), Closes(a)).hearing == {a}
  {
    var s := Reopened(a, b);
    var s1 := s.(shots := s.shots[a := Called(FRESH)]);
    var s2 := s.(shots := s.shots[a := Started(Called(FRESH))]);
    var s3 := s.(shots := s.shots[a := Ended(Started(Called(FRESH)))]);
    Prepend(s2, End(a, false), s3, []);
    Prepend(s1, Start(a), s2, [End(a, false)] + []);
    Prepend(s, Fire(a), s1, [Start(a)] + ([End(a, false)] + []));
  }

  lemma {:induction false} RunsJoin(s: Channel, first: seq<Action>, second: seq<Action>)
    requires Legal(s, first) && Legal(After(s, first), second)
    ensures Legal(s, first + second) && After(s, first + second) == After(After(s, first), second)
    decreases |first|
  {
    if first == [] {
      assert first + second == second;
    } else {
      assert (first + second)[1..] == first[1..] + second;
      RunsJoin(Next(s, first[0]), first[1..], second);
    }
  }

  /** So a new channel that is initialized and reopened, and whose first underlay closes only
      then, is left with the return handler on the underlay that closed, and only there. */
  lemma StaleCloseKeepsItsHandler(a: Id, b: Id)
    requires a != b
    ensures var acts := InitializeAndReopen(a, b) + Closes(a);
      Legal(EMPTY, acts) && After(EMPTY, acts).hearing == {a} && After(EMPTY, acts).current == Some(b)
  {
    ReopenedIsReached(a, b);
    StaleClose(a, b);
    RunsJoin(EMPTY, InitializeAndReopen(a, b), Closes(a));
    CurrentStays(Reopened(a, b), Closes(a));
  }

  lemma {:induction false} CurrentStays(s: Channel, acts: seq<Action>)
    requires Legal(s, acts) && forall a :: a in acts ==> !a.Adopt? && !a.OpenFailed?
    ensures After(s, acts).current == s.current
    decreases |acts|
  {
    if acts == [] {
    } else {
      assert acts[0] in acts;
      CurrentStays(Next(s, acts[0]), acts[1..]);
    }
  }

  /** A close handler that raises leaves the return handlers where they are. */
  lemma RaisingCloseDeafensNobody(s: Channel, id: Id)
    requires Enabled(s, End(id, true))
    ensures Next(s, End(id, true)).hearing == s.hearing
  {
  }

  /** `initialize` puts the handler on the underlay it opened, once. */
  lemma InitializeHears(s: Channel, id: Id)
    requires Enabled(s, Adopt(id, true))
    ensures var i := Next(s, Adopt(id, true));
      Enabled(i, HandlerAdded) && Next(i, HandlerAdded).hearing == s.hearing + {id} && !Enabled(Next(i, HandlerAdded), HandlerAdded)
  {
  }

  /** An opening that failed hears nothing, and can be repeated. */
  lemma FailedOpeningCanBeRepeated(s: Channel, id: Id)
    requires Enabled(s, OpenFailed) && id in s.shots
    ensures var f := Next(s, OpenFailed); !Enabled(f, HandlerAdded) && Enabled(f, Adopt(id, true)) && f.hearing == s.hearing
    ensures !Enabled(Next(Next(s, OpenFailed), Adopt(id, false)), HandlerAdded)
  {
  }

  /** Only `initialize` adds the handler: an underlay made by reopening never hears a return,
      nor does any other that did not hear one before. */
  lemma {:induction false} ReopenedUnderlayIsDeaf(s: Channel, acts: seq<Action>)
    requires Legal(s, acts) && !s.initializing && (forall id :: Adopt(id, true) !in acts)
    ensures After(s, acts).hearing <= s.hearing
    decreases |acts|
  {
    if acts == [] {
    } else {
      assert acts[0] in acts;
      ReopenedUnderlayIsDeaf(Next(s, acts[0]), acts[1..]);
    }
  }
}
