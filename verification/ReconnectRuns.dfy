/** Why the reconnect loop stops and when it tries, over all runs, and what closing closes. */
module ReconnectRuns {
  import opened Reconnect

  lemma RunFromStart(failFast: bool, acts: seq<Action>)
    requires Legal(Start(failFast), acts)
    ensures Inv(After(Start(failFast), acts))
  {
    RunKeepsInv(Start(failFast), acts);
  }

  // -------------------------------------------------------------------------------------
  // Why the factory stops

  lemma {:induction false} EndingNeedsClose(s: State, acts: seq<Action>)
    requires Legal(s, acts) && !Ending(s) && !s.closeRequested && CloseBegins !in acts
    ensures !Ending(After(s, acts)) && !After(s, acts).closeRequested
    decreases |acts|
  {
    if acts == [] {
    } else {
      assert acts[0] in acts;
      EndingNeedsClose(Next(s, acts[0]), acts[1..]);
    }
  }

  /** The steps that resolve the fail-fast future while it is unresolved: the first transport to
      come up makes its attempt succeed. */
  predicate Decides(a: Action) { a.TransportUp? || a == AttemptFails(true) }

  predicate Undecided(acts: seq<Action>) { forall a :: a in acts ==> !Decides(a) }

  /** The first of them is a failure with a listed exception, at step k. */
  predicate FailsFastAt(acts: seq<Action>, k: nat) {
    k < |acts| && acts[k] == AttemptFails(true) && Undecided(acts[..k])
  }

  lemma DecidingStep(s: State, a: Action)
    requires Enabled(s, a) && EventInv(s) && s.failFast.Unresolved?
    ensures Next(s, a).failFast.Unresolved? <==> !Decides(a)
  {
    match a
    case Connect => case TaskStarts => case Wake => case TransportUp => case RestoreWaits => case AttemptFails(_) =>
    case AttemptSucceeds => case SleepOver => case TransportDies => case OrphanDies =>
    case CallbackRuns => case CloseBegins => case CancelDelivered => case CloseEnds =>
  }

  lemma {:induction false} UnresolvedIffUndecided(s: State, acts: seq<Action>)
    requires Legal(s, acts) && EventInv(s) && s.failFast.Unresolved?
    ensures After(s, acts).failFast.Unresolved? <==> Undecided(acts)
    decreases |acts|
  {
    if acts == [] {
    } else {
      var s' := Next(s, acts[0]);
      EventInvStep(s, acts[0]);
      DecidingStep(s, acts[0]);
      assert acts == [acts[0]] + acts[1..];
      if Decides(acts[0]) {
        FailFastIsFinal(s', acts[1..]);
      } else {
        UnresolvedIffUndecided(s', acts[1..]);
      }
    }
  }

  lemma FailFastStep(s: State, a: Action)
    requires Enabled(s, a) && !s.failFast.Unresolved?
    ensures Next(s, a).failFast == s.failFast
  {
    match a
    case Connect => case TaskStarts => case Wake => case TransportUp => case RestoreWaits => case AttemptFails(_) =>
    case AttemptSucceeds => case SleepOver => case TransportDies => case OrphanDies =>
    case CallbackRuns => case CloseBegins => case CancelDelivered => case CloseEnds =>
  }

  /** The fail-fast future keeps its first outcome. */
  lemma {:induction false} FailFastIsFinal(s: State, acts: seq<Action>)
    requires Legal(s, acts) && !s.failFast.Unresolved?
    ensures After(s, acts).failFast == s.failFast
    decreases |acts|
  {
    if acts == [] {
    } else {
      FailFastStep(s, acts[0]);
      FailFastIsFinal(Next(s, acts[0]), acts[1..]);
    }
  }

  /** How often a run sets a result or an exception on the fail-fast future. */
  function Resolutions(s: State, acts: seq<Action>): nat
    requires Legal(s, acts)
    decreases |acts|
  {
    if acts == [] then 0
    else (if s.failFast.Unresolved? && Decides(acts[0]) then 1 else 0) + Resolutions(Next(s, acts[0]), acts[1..])
  }

  /** It is resolved at most once, and by no attempt when fail-fast is off. */
  lemma {:induction false} ResolvedAtMostOnce(s: State, acts: seq<Action>)
    requires EventInv(s) && Legal(s, acts)
    ensures Resolutions(s, acts) <= (if s.failFast.Unresolved? then 1 else 0)
    decreases |acts|
  {
    if acts == [] {
    } else {
      EventInvStep(s, acts[0]);
      if s.failFast.Unresolved? { DecidingStep(s, acts[0]); } else { FailFastStep(s, acts[0]); }
      ResolvedAtMostOnce(Next(s, acts[0]), acts[1..]);
    }
  }

  lemma FailFastStopStep(s: State, a: Action)
    requires Enabled(s, a)
    ensures Next(s, a).pc == Stopped(FailFast)
            <==> (s.pc == Stopped(FailFast) && !a.CloseEnds?) || (a == AttemptFails(true) && s.failFast.Unresolved?)
  {
    match a
    case Connect => case TaskStarts => case Wake => case TransportUp => case RestoreWaits => case AttemptFails(_) =>
    case AttemptSucceeds => case SleepOver => case TransportDies => case OrphanDies =>
    case CallbackRuns => case CloseBegins => case CancelDelivered => case CloseEnds =>
  }

  lemma ClosedStep(s: State, a: Action)
    requires Enabled(s, a) && s.closeCalled && !s.pc.Connecting? && !s.pc.Restoring? && s.pc != Stopped(FailFast)
    ensures Next(s, a).closeCalled && !Next(s, a).pc.Connecting? && !Next(s, a).pc.Restoring? && Next(s, a).pc != Stopped(FailFast)
  {
    match a
    case Connect => case TaskStarts => case Wake => case TransportUp => case RestoreWaits => case AttemptFails(_) =>
    case AttemptSucceeds => case SleepOver => case TransportDies => case OrphanDies =>
    case CallbackRuns => case CloseBegins => case CancelDelivered => case CloseEnds =>
  }

  lemma {:induction false} StaysFailed(s: State, acts: seq<Action>)
    requires Legal(s, acts) && s.pc == Stopped(FailFast)
    ensures After(s, acts).pc == Stopped(FailFast) <==> CloseEnds !in acts
    decreases |acts|
  {
    if acts == [] {
    } else {
      assert acts == [acts[0]] + acts[1..];
      FailFastStopStep(s, acts[0]);
      if acts[0].CloseEnds? {
        NeverFailsFastAgain(Next(s, acts[0]), acts[1..]);
      } else {
        StaysFailed(Next(s, acts[0]), acts[1..]);
      }
    }
  }

  /** Once close() is through, a new task stops at its first look at the flags. */
  lemma {:induction false} NeverFailsFastAgain(s: State, acts: seq<Action>)
    requires Legal(s, acts) && s.closeCalled && !s.pc.Connecting? && !s.pc.Restoring? && s.pc != Stopped(FailFast)
    ensures After(s, acts).pc != Stopped(FailFast)
    decreases |acts|
  {
    if acts == [] {
    } else {
      ClosedStep(s, acts[0]);
      NeverFailsFastAgain(Next(s, acts[0]), acts[1..]);
    }
  }

  lemma {:induction false} FailedFastAt(failFast: bool, acts: seq<Action>) returns (k: nat)
    requires Legal(Start(failFast), acts) && After(Start(failFast), acts).pc == Stopped(FailFast)
    ensures failFast && FailsFastAt(acts, k) && CloseEnds !in acts[k + 1..]
    decreases |acts|
  {
    var n := |acts| - 1;
    LastStep(Start(failFast), acts);
    var s := After(Start(failFast), acts[..n]);
    FailFastStopStep(s, acts[n]);
    if s.pc == Stopped(FailFast) {
      k := FailedFastAt(failFast, acts[..n]);
      assert acts[..n][..k] == acts[..k];
      assert acts[k + 1..] == acts[..n][k + 1..] + [acts[n]];
    } else {
      k := n;
      if !failFast { FailFastIsFinal(Start(false), acts[..n]); }
      UnresolvedIffUndecided(Start(failFast), acts[..n]);
    }
  }

  lemma FailingFastStops(failFast: bool, acts: seq<Action>, k: nat)
    requires Legal(Start(failFast), acts) && failFast && FailsFastAt(acts, k)
    ensures After(Start(failFast), acts).pc == Stopped(FailFast) <==> CloseEnds !in acts[k + 1..]
  {
    var s0 := Start(failFast);
    PrefixLegal(s0, acts, k);
    UnresolvedIffUndecided(s0, acts[..k]);
    assert acts[k..][0] == acts[k] && acts[k..][1..] == acts[k + 1..];
    StaysFailed(Next(After(s0, acts[..k]), acts[k]), acts[k + 1..]);
  }

  /** In every run: a factory that stopped by the flags or by cancellation was asked to by
      close(); and it stopped by failing fast exactly when fail-fast is on, an attempt failed
      with a listed exception before any other did or brought up a transport, and no close()
      came after. */
  lemma StopsForAReason(failFast: bool, acts: seq<Action>)
    requires Legal(Start(failFast), acts)
    ensures var pc := After(Start(failFast), acts).pc;
      && (pc == Stopped(ByClose) || pc == Stopped(ByCancel) ==> CloseBegins in acts)
      && (pc == Stopped(FailFast) <==> failFast && exists k: nat :: FailsFastAt(acts, k) && CloseEnds !in acts[k + 1..])
  {
    RunFromStart(failFast, acts);
    if CloseBegins !in acts { EndingNeedsClose(Start(failFast), acts); }
    if After(Start(failFast), acts).pc == Stopped(FailFast) {
      var k := FailedFastAt(failFast, acts);
    }
    if k: nat :| failFast && FailsFastAt(acts, k) && CloseEnds !in acts[k + 1..] {
      FailingFastStops(failFast, acts, k);
    }
  }

  // -------------------------------------------------------------------------------------
  // Attempts

  lemma {:induction false} ConnectedIffUp(failFast: bool, acts: seq<Action>)
    requires Legal(Start(failFast), acts)
    ensures After(Start(failFast), acts).connectedBefore <==> TransportUp in acts
    decreases |acts|
  {
    if acts == [] {
    } else {
      var n := |acts| - 1;
      LastStep(Start(failFast), acts);
      ConnectedIffUp(failFast, acts[..n]);
      RunFromStart(failFast, acts[..n]);
      assert acts == acts[..n] + [acts[n]];
      ConnectedStep(After(Start(failFast), acts[..n]), acts[n]);
    }
  }

  lemma ConnectedStep(s: State, a: Action)
    requires EventInv(s) && Enabled(s, a)
    ensures Next(s, a).connectedBefore <==> s.connectedBefore || a.TransportUp?
    ensures s.closeEvent && !a.AttemptSucceeds? && (a.TransportUp? ==> s.connectedBefore) ==> Next(s, a).closeEvent
  {
    match a
    case Connect => case TaskStarts => case Wake => case TransportUp => case RestoreWaits => case AttemptFails(_) =>
    case AttemptSucceeds => case SleepOver => case TransportDies => case OrphanDies =>
    case CallbackRuns => case CloseBegins => case CancelDelivered => case CloseEnds =>
  }

  /** Step j is the success of an attempt: of the first to bring up a transport, there and then. */
  predicate Succeeds(acts: seq<Action>, j: nat)
    requires j < |acts|
  {
    acts[j].AttemptSucceeds? || (acts[j].TransportUp? && TransportUp !in acts[..j])
  }

  lemma {:induction false} EventSetSince(failFast: bool, acts: seq<Action>, k: nat)
    requires Legal(Start(failFast), acts) && k < |acts| && acts[k].AttemptFails?
    requires forall j :: k < j < |acts| ==> !Succeeds(acts, j)
    ensures After(Start(failFast), acts).closeEvent
    decreases |acts|
  {
    var n := |acts| - 1;
    LastStep(Start(failFast), acts);
    RunFromStart(failFast, acts[..n]);
    if k == n {
    } else {
      forall j | k < j < n ensures !Succeeds(acts[..n], j) {
        assert acts[..n][..j] == acts[..j] && !Succeeds(acts, j);
      }
      EventSetSince(failFast, acts[..n], k);
      ConnectedIffUp(failFast, acts[..n]);
      assert !Succeeds(acts, n);
      ConnectedStep(After(Start(failFast), acts[..n]), acts[n]);
    }
  }

  /** After an attempt that failed, and until one succeeds, the loop never waits on a cleared event. */
  lemma FailedAttemptIsRetried(failFast: bool, acts: seq<Action>, k: nat)
    requires Legal(Start(failFast), acts) && k < |acts| && acts[k].AttemptFails?
    requires forall j :: k < j < |acts| ==> !Succeeds(acts, j)
    ensures var s := After(Start(failFast), acts); s.pc.WaitingForClose? && Runs(s) ==> Enabled(s, Wake)
  {
    EventSetSince(failFast, acts, k);
  }

  /** How many attempts a run starts. */
  function Attempts(s: State, acts: seq<Action>): nat
    requires Legal(s, acts)
    decreases |acts|
  {
    if acts == [] then 0
    else (if !s.pc.Connecting? && Next(s, acts[0]).pc.Connecting? then 1 else 0) + Attempts(Next(s, acts[0]), acts[1..])
  }

  /** From the moment close() begins no attempt ever starts again, not even through another connect(). */
  lemma {:induction false} NoAttemptAfterClose(s: State, acts: seq<Action>)
    requires Legal(s, acts) && (s.closeRequested || s.closeCalled)
    ensures Attempts(s, acts) == 0
    decreases |acts|
  {
    if acts == [] {
    } else {
      ClosingStep(s, acts[0]);
      NoAttemptAfterClose(Next(s, acts[0]), acts[1..]);
    }
  }

  lemma ClosingStep(s: State, a: Action)
    requires Enabled(s, a) && (s.closeRequested || s.closeCalled)
    ensures !s.pc.Connecting? ==> !Next(s, a).pc.Connecting?
    ensures Next(s, a).closeRequested || Next(s, a).closeCalled
  {
    match a
    case Connect => case TaskStarts => case Wake => case TransportUp => case RestoreWaits => case AttemptFails(_) =>
    case AttemptSucceeds => case SleepOver => case TransportDies => case OrphanDies =>
    case CallbackRuns => case CloseBegins => case CancelDelivered => case CloseEnds =>
  }

  // -------------------------------------------------------------------------------------
  // What closing closes

  /** The transport that came up at step j is still the connection's: no attempt has begun since,
      and no close has ended. */
  predicate TransportHeld(acts: seq<Action>, j: nat) {
    j < |acts| && acts[j] == TransportUp && Wake !in acts[j + 1..] && CloseEnds !in acts[j + 1..]
  }

  lemma HeldInLonger(acts: seq<Action>, a: Action, j: nat)
    requires j < |acts|
    ensures TransportHeld(acts + [a], j) <==> TransportHeld(acts, j) && a != Wake && a != CloseEnds
  {
    assert (acts + [a])[j + 1..] == acts[j + 1..] + [a];
  }

  lemma TransportStep(s: State, a: Action)
    requires StopInv(s) && Enabled(s, a)
    ensures Next(s, a).hasTransport <==> a.TransportUp? || (s.hasTransport && !a.Wake? && !a.CloseEnds?)
    ensures Next(s, a).isClosed <==> s.isClosed || (a.CloseEnds? && s.hasTransport)
  {
    match a
    case Connect => case TaskStarts => case Wake => case TransportUp => case RestoreWaits => case AttemptFails(_) =>
    case AttemptSucceeds => case SleepOver => case TransportDies => case OrphanDies =>
    case CallbackRuns => case CloseBegins => case CancelDelivered => case CloseEnds =>
  }

  lemma {:induction false} TransportSince(failFast: bool, acts: seq<Action>)
    requires Legal(Start(failFast), acts)
    ensures After(Start(failFast), acts).hasTransport <==> exists j: nat :: TransportHeld(acts, j)
    decreases |acts|
  {
    if acts == [] {
    } else {
      var n := |acts| - 1;
      var a, before := acts[n], acts[..n];
      assert acts == before + [a];
      LastStep(Start(failFast), acts);
      RunFromStart(failFast, before);
      TransportSince(failFast, before);
      TransportStep(After(Start(failFast), before), a);
      forall j: nat | j < n ensures TransportHeld(acts, j) <==> TransportHeld(before, j) && a != Wake && a != CloseEnds {
        HeldInLonger(before, a, j);
      }
      assert TransportHeld(acts, n) <==> a.TransportUp?;
    }
  }

  /** The close that ended at step k found a transport to close. */
  ghost predicate ClosedATransport(acts: seq<Action>, k: nat) {
    k < |acts| && acts[k] == CloseEnds && exists j: nat :: TransportHeld(acts[..k], j)
  }

  /** A connection is closed exactly when some close found the transport of an attempt since the
      last close, and no later attempt had begun. */
  lemma {:induction false} ClosedIffATransportWas(failFast: bool, acts: seq<Action>)
    requires Legal(Start(failFast), acts)
    ensures After(Start(failFast), acts).isClosed <==> exists k: nat :: ClosedATransport(acts, k)
    decreases |acts|
  {
    if acts == [] {
    } else {
      var n := |acts| - 1;
      LastStep(Start(failFast), acts);
      RunFromStart(failFast, acts[..n]);
      ClosedIffATransportWas(failFast, acts[..n]);
      TransportSince(failFast, acts[..n]);
      TransportStep(After(Start(failFast), acts[..n]), acts[n]);
      forall k: nat | k < n ensures ClosedATransport(acts, k) <==> ClosedATransport(acts[..n], k) {
        assert acts[..n][..k] == acts[..k];
      }
      var s := After(Start(failFast), acts[..n]);
      assert ClosedATransport(acts, n) <==> acts[n].CloseEnds? && s.hasTransport;
      if k: nat :| ClosedATransport(acts[..n], k) { assert ClosedATransport(acts, k); }
    }
  }

  /** From then on no connect() gets as far as a task. */
  lemma {:induction false} ClosedRefusesConnect(s: State, acts: seq<Action>)
    requires s.isClosed && StopInv(s) && Legal(s, acts)
    ensures After(s, acts).isClosed && Connect !in acts && !Enabled(After(s, acts), Connect)
    decreases |acts|
  {
    if acts == [] {
    } else {
      assert acts == [acts[0]] + acts[1..];
      TransportStep(s, acts[0]);
      StopInvStep(s, acts[0]);
      ClosedRefusesConnect(Next(s, acts[0]), acts[1..]);
    }
  }

  /** A close that found no transport leaves the connection open to connect(). */
  lemma CloseOfNothingLeavesOpen(s: State)
    requires Enabled(s, CloseEnds) && !s.hasTransport && !s.isClosed
    ensures Enabled(Next(s, CloseEnds), Connect) && Next(s, CloseEnds).closeCalled
  {
  }

  /** close() can always be asked for, and gets through wherever the factory is: its task is
      cancelled where it is suspended, and then forgotten, and nothing of the connection is left. */
  lemma CloseGetsThrough(s: State)
    requires Runs(s)
    ensures Enabled(s, CloseBegins)
    ensures var b := Next(s, CloseBegins);
      if Suspended(s) then
        && Enabled(b, CancelDelivered) && Next(b, CancelDelivered).pc == Stopped(ByCancel)
        && Enabled(Next(b, CancelDelivered), CloseEnds)
        && IsOver(s, Next(Next(b, CancelDelivered), CloseEnds))
      else Enabled(b, CloseEnds) && IsOver(s, Next(b, CloseEnds))
  {
  }

  predicate IsOver(s: State, over: State) {
    && over.pc.NoTask? && over.closeCalled && !over.closeRequested
    && !over.hasTransport && !over.up && !over.connected
    && (over.isClosed <==> s.isClosed || s.hasTransport)
    && over.closeEvent == s.closeEvent && over.callbacks == s.callbacks && over.orphans == s.orphans && over.failFast == s.failFast
  }

  /** The close callback of a dead connection clears `connected`, and wakes the loop unless the
      connection is closed or being closed. */
  lemma CallbackIsHeard(s: State)
    requires Enabled(s, CallbackRuns)
    ensures var h := Next(s, CallbackRuns);
      && !h.connected && h.callbacks == s.callbacks - 1
      && (h.closeEvent <==> s.closeEvent || !(s.closeCalled || s.isClosed))
      && h.pc == s.pc && h.up == s.up
  {
  }
}
