/** The reconnect loop of a robust connection, the close event that wakes it, and `close`. */
module Reconnect {

  datatype Stop = ByClose | FailFast | ByCancel

  /** Where the factory task is. */
  datatype Pc = NoTask | Created | WaitingForClose | Connecting | Restoring | AwaitingConnected | Sleeping | Stopped(why: Stop)

  datatype FailFastFuture = Unresolved | Succeeded | Failed

  datatype State = State(
    pc: Pc,
    closeEvent: bool,
    closeRequested: bool,   // close() has begun: the task's cancellation is on its way
    closeCalled: bool,
    isClosed: bool,
    failFast: FailFastFuture,
    connectedBefore: bool,  // `connection_attempt` is not zero
    connected: bool,        // the event of that name
    hasTransport: bool,
    up: bool,               // the current transport is alive
    orphans: nat,           // live connections replaced without having been closed
    callbacks: nat)         // connections that died and whose close callback has not run yet

  function Start(failFast: bool): State {
    State(NoTask, true, false, false, false, if failFast then Unresolved else Succeeded, false, false, false, false, 0, 0)
  }

  datatype Action =
    | Connect                     // connect() makes the task
    | TaskStarts
    | Wake                        // the close event is set
    | TransportUp                 // the first time, nothing is awaited from here to success
    | RestoreWaits                // a channel being restored waits for `connected`
    | AttemptFails(listed: bool)  // an exception, of CONNECTION_EXCEPTIONS or not
    | AttemptSucceeds
    | SleepOver
    | TransportDies
    | OrphanDies
    | CallbackRuns                // _on_connection_close
    | CloseBegins
    | CancelDelivered
    | CloseEnds

  predicate Suspended(s: State) { !s.pc.NoTask? && !s.pc.Stopped? }

  /** The task is not about to be cancelled. */
  predicate Runs(s: State) { !s.closeRequested }

  predicate Enabled(s: State, a: Action) {
    match a
    case Connect => !s.isClosed && s.pc.NoTask? && Runs(s)
    case TaskStarts => s.pc.Created? && Runs(s)
    case Wake => s.pc.WaitingForClose? && s.closeEvent && Runs(s)
    case TransportUp => s.pc.Connecting? && Runs(s)
    case RestoreWaits => s.pc.Restoring? && !s.connected && Runs(s)
    case AttemptFails(_) => (s.pc.Connecting? || (s.pc.Restoring? && !s.up)) && Runs(s)  // it closes a live transport first
    case AttemptSucceeds => s.pc.Restoring? && Runs(s)
    case SleepOver => s.pc.Sleeping? && Runs(s)
    case TransportDies => s.up
    case OrphanDies => s.orphans > 0
    case CallbackRuns => s.callbacks > 0
    case CloseBegins => !s.closeRequested
    case CancelDelivered => s.closeRequested && Suspended(s)
    case CloseEnds => s.closeRequested && !Suspended(s)
  }

  predicate Ending(s: State) { s.closeCalled || s.isClosed }

  /** The loop condition, and the wait behind it. */
  function LoopHead(s: State): State { s.(pc := if Ending(s) then Stopped(ByClose) else WaitingForClose) }

  /** An attempt forgets the transport without closing it. */
  function Attempt(s: State): State {
    if Ending(s) then s.(pc := Stopped(ByClose))
    else s.(pc := Connecting, connected := false, hasTransport := false, up := false, orphans := s.orphans + (if s.up then 1 else 0))
  }

  /** `_on_connection_close` clears `connected`, and sets the close event unless the connection
      is being closed for good. */
  function Signalled(s: State): State { s.(connected := false, closeEvent := s.closeEvent || !Ending(s)) }

  /** The two `except` clauses of the factory; a failed connect has run the close callback itself. */
  function Caught(s: State, listed: bool): State {
    var f := if s.pc.Connecting? then Signalled(s) else s;
    if listed && s.failFast.Unresolved? then f.(failFast := Failed, pc := Stopped(FailFast)) else f.(pc := Sleeping)
  }

  /** The transport is up.  While no attempt has succeeded there are no channels to restore and
      no callbacks to await, so that the attempt succeeds in the same stretch. */
  function Up(s: State): State {
    var u := s.(hasTransport := true, up := true, connected := true);
    if s.connectedBefore then u.(pc := Restoring) else Connected(u)
  }

  function Connected(s: State): State {
    s.(closeEvent := false, pc := Sleeping, connectedBefore := true, failFast := if s.failFast.Unresolved? then Succeeded else s.failFast)
  }

  /** The task is forgotten; the base class marks the connection closed if it had a transport. */
  function Closed(s: State): State {
    s.(pc := NoTask, closeRequested := false, closeCalled := true,
       isClosed := s.isClosed || s.hasTransport, connected := false, hasTransport := false, up := false)
  }

  function Next(s: State, a: Action): State
    requires Enabled(s, a)
  {
    match a
    case Connect => s.(pc := Created)
    case TaskStarts => LoopHead(s)
    case Wake => Attempt(s)
    case TransportUp => Up(s)
    case RestoreWaits => s.(pc := AwaitingConnected)
    case AttemptFails(listed) => Caught(s, listed)
    case AttemptSucceeds => Connected(s)
    case SleepOver => LoopHead(s)
    case TransportDies => s.(up := false, callbacks := s.callbacks + 1)
    case OrphanDies => s.(orphans := s.orphans - 1, callbacks := s.callbacks + 1)
    case CallbackRuns => Signalled(s).(callbacks := s.callbacks - 1)
    case CloseBegins => s.(closeRequested := true)
    case CancelDelivered => s.(pc := Stopped(ByCancel))
    case CloseEnds => Closed(s)
  }

  predicate Legal(s: State, acts: seq<Action>)
    decreases |acts|
  {
    acts == [] || (Enabled(s, acts[0]) && Legal(Next(s, acts[0]), acts[1..]))
  }

  function After(s: State, acts: seq<Action>): State
    requires Legal(s, acts)
    decreases |acts|
  {
    if acts == [] then s else After(Next(s, acts[0]), acts[1..])
  }

  lemma {:induction false} RunsJoin(s: State, first: seq<Action>, second: seq<Action>)
    requires Legal(s, first)
    ensures Legal(s, first + second) <==> Legal(After(s, first), second)
    ensures Legal(s, first + second) ==> After(s, first + second) == After(After(s, first), second)
    decreases |first|
  {
    if first == [] {
      assert first + second == second;
    } else {
      assert (first + second)[1..] == first[1..] + second;
      RunsJoin(Next(s, first[0]), first[1..], second);
    }
  }

  lemma {:induction false} PrefixLegal(s: State, acts: seq<Action>, k: nat)
    requires Legal(s, acts) && k <= |acts|
    ensures Legal(s, acts[..k]) && Legal(After(s, acts[..k]), acts[k..])
    ensures After(After(s, acts[..k]), acts[k..]) == After(s, acts)
    decreases k
  {
    if k == 0 {
      assert acts[0..] == acts;
    } else {
      PrefixLegal(Next(s, acts[0]), acts[1..], k - 1);
      assert acts[..k][1..] == acts[1..][..k - 1] && acts[k..] == acts[1..][k - 1..];
    }
  }

  /** The last step of a run. */
  lemma LastStep(s: State, acts: seq<Action>)
    requires Legal(s, acts) && acts != []
    ensures var n := |acts| - 1;
      Legal(s, acts[..n]) && Enabled(After(s, acts[..n]), acts[n]) && After(s, acts) == Next(After(s, acts[..n]), acts[n])
  {
    var n := |acts| - 1;
    PrefixLegal(s, acts, n);
    assert acts[n..] == [acts[n]] && acts[n..][1..] == [];
  }

  // -------------------------------------------------------------------------------------
  // Invariant

  predicate Resting(s: State) { s.pc.Sleeping? || s.pc.Created? || s.pc.WaitingForClose? }

  /** An attempt is made only with the event set, and only success clears it. */
  predicate EventInv(s: State) {
    && (s.pc.Restoring? || s.pc.AwaitingConnected? ==> s.connectedBefore)
    && (s.connectedBefore ==> !s.failFast.Unresolved?)
    && (s.pc.Connecting? || s.pc.Restoring? || s.pc.AwaitingConnected? ==> s.closeEvent && !Ending(s))
    && (s.pc.Connecting? ==> !s.up)
    && (s.pc.NoTask? && !Ending(s) ==> s.closeEvent)
  }

  predicate StopInv(s: State) {
    && (s.pc == Stopped(ByClose) ==> Ending(s))
    && (s.pc == Stopped(ByCancel) ==> s.closeRequested)
    && (s.pc.WaitingForClose? ==> !Ending(s))
  }

  ghost predicate Inv(s: State) { EventInv(s) && StopInv(s) }

  lemma EventInvStep(s: State, a: Action)
    requires EventInv(s) && Enabled(s, a)
    ensures EventInv(Next(s, a))
  {
    match a
    case Connect => case TaskStarts => case Wake => case TransportUp => case RestoreWaits => case AttemptFails(_) =>
    case AttemptSucceeds => case SleepOver => case TransportDies => case OrphanDies =>
    case CallbackRuns => case CloseBegins => case CancelDelivered => case CloseEnds =>
  }

  lemma StopInvStep(s: State, a: Action)
    requires StopInv(s) && Enabled(s, a)
    ensures StopInv(Next(s, a))
  {
    match a
    case Connect => case TaskStarts => case Wake => case TransportUp => case RestoreWaits => case AttemptFails(_) =>
    case AttemptSucceeds => case SleepOver => case TransportDies => case OrphanDies =>
    case CallbackRuns => case CloseBegins => case CancelDelivered => case CloseEnds =>
  }

  lemma StepKeepsInv(s: State, a: Action)
    requires Inv(s) && Enabled(s, a)
    ensures Inv(Next(s, a))
  {
    EventInvStep(s, a);
    StopInvStep(s, a);
  }

  lemma {:induction false} RunKeepsInv(s: State, acts: seq<Action>)
    requires Inv(s) && Legal(s, acts)
    ensures Inv(After(s, acts))
    decreases |acts|
  {
    if acts == [] {
    } else {
      StepKeepsInv(s, acts[0]);
      RunKeepsInv(Next(s, acts[0]), acts[1..]);
    }
  }
}
