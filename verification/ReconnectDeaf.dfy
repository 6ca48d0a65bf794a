/** Which runs leave the reconnect loop asleep, or stuck inside a restore, for good. */
module ReconnectDeaf {
  import opened Reconnect
  import opened ReconnectRuns

  // -------------------------------------------------------------------------------------
  // Deafness

  /** The loop waits, the connection is dead, and no close callback is left that would set the
      event; one would come only from a connection that was replaced alive and dies later. */
  predicate Deaf(s: State) { Resting(s) && !Ending(s) && !s.closeEvent && !s.up && s.callbacks == 0 }

  function Deaths(acts: seq<Action>): nat { multiset(acts)[TransportDies] + multiset(acts)[OrphanDies] }

  function Heard(acts: seq<Action>): nat { multiset(acts)[CallbackRuns] }

  /** The attempt that brought its transport up at step i and succeeded at step k: the transport
      died in between, and by step k the callbacks of all deaths had run. */
  predicate CloseLost(acts: seq<Action>, i: nat, k: nat) {
    && i < k < |acts| && acts[i] == TransportUp && acts[k] == AttemptSucceeds
    && TransportUp !in acts[i + 1..k] && TransportDies in acts[i + 1..k]
    && Heard(acts[..k]) == Deaths(acts[..k])
  }

  predicate Undisturbed(acts: seq<Action>) { CallbackRuns !in acts && OrphanDies !in acts && CancelDelivered !in acts }

  lemma {:induction false} CallbacksAreDeathsUnheard(failFast: bool, acts: seq<Action>)
    requires Legal(Start(failFast), acts)
    ensures After(Start(failFast), acts).callbacks + Heard(acts) == Deaths(acts)
    decreases |acts|
  {
    if acts == [] {
    } else {
      var n := |acts| - 1;
      LastStep(Start(failFast), acts);
      CallbacksAreDeathsUnheard(failFast, acts[..n]);
      assert acts == acts[..n] + [acts[n]];
      CallbackStep(After(Start(failFast), acts[..n]), acts[n]);
    }
  }

  lemma CallbackStep(s: State, a: Action)
    requires Enabled(s, a)
    ensures Next(s, a).callbacks + (if a.CallbackRuns? then 1 else 0)
            == s.callbacks + (if a.TransportDies? || a.OrphanDies? then 1 else 0)
  {
    match a
    case Connect => case TaskStarts => case Wake => case TransportUp => case RestoreWaits => case AttemptFails(_) =>
    case AttemptSucceeds => case SleepOver => case TransportDies => case OrphanDies =>
    case CallbackRuns => case CloseBegins => case CancelDelivered => case CloseEnds =>
  }

  /** Step i brought up the transport of the current attempt. */
  predicate UpSince(acts: seq<Action>, i: nat) {
    i < |acts| && acts[i] == TransportUp && TransportUp !in acts[i + 1..]
  }

  lemma RestoringStep(s: State, a: Action)
    requires Enabled(s, a) && Next(s, a).pc.Restoring?
    ensures a.TransportUp? ==> Next(s, a).up && Next(s, a).connected && s.connectedBefore
    ensures !a.TransportUp? ==>
      && s.pc.Restoring?
      && (Next(s, a).up <==> s.up && !a.TransportDies?)
      && (Next(s, a).connected <==> s.connected && !a.CallbackRuns?)
  {
    match a
    case Connect => case TaskStarts => case Wake => case TransportUp => case RestoreWaits => case AttemptFails(_) =>
    case AttemptSucceeds => case SleepOver => case TransportDies => case OrphanDies =>
    case CallbackRuns => case CloseBegins => case CancelDelivered => case CloseEnds =>
  }

  /** While channels are restored, which is never the first time a transport is up, the
      transport is dead exactly if it died since it came up, and `connected` is clear exactly
      if a close callback has run since. */
  lemma {:induction false} RestoringSince(failFast: bool, acts: seq<Action>) returns (i: nat)
    requires Legal(Start(failFast), acts) && After(Start(failFast), acts).pc.Restoring?
    ensures UpSince(acts, i) && TransportUp in acts[..i]
    ensures After(Start(failFast), acts).up <==> TransportDies !in acts[i + 1..]
    ensures After(Start(failFast), acts).connected <==> CallbackRuns !in acts[i + 1..]
    decreases |acts|
  {
    var n := |acts| - 1;
    LastStep(Start(failFast), acts);
    var s := After(Start(failFast), acts[..n]);
    RestoringStep(s, acts[n]);
    if acts[n].TransportUp? {
      i := n;
      ConnectedIffUp(failFast, acts[..n]);
    } else {
      i := RestoringSince(failFast, acts[..n]);
      assert acts[i + 1..] == acts[..n][i + 1..] + [acts[n]];
      assert acts[..n][..i] == acts[..i];
    }
  }

  lemma UpSinceIsUnique(acts: seq<Action>, i: nat, j: nat)
    requires UpSince(acts, i) && UpSince(acts, j)
    ensures i == j
  {
    assert forall m :: i < m < |acts| ==> acts[m] == acts[i + 1..][m - i - 1];
    assert forall m :: j < m < |acts| ==> acts[m] == acts[j + 1..][m - j - 1];
  }

  lemma DeafStep(s: State, a: Action)
    requires Deaf(s) && Enabled(s, a)
    ensures Deaf(Next(s, a)) <==> !a.CallbackRuns? && !a.OrphanDies? && !a.CancelDelivered?
    ensures !Next(s, a).pc.Connecting?
  {
    match a
    case Connect => case TaskStarts => case Wake => case TransportUp => case RestoreWaits => case AttemptFails(_) =>
    case AttemptSucceeds => case SleepOver => case TransportDies => case OrphanDies =>
    case CallbackRuns => case CloseBegins => case CancelDelivered => case CloseEnds =>
  }

  /** Only the success of an attempt makes a loop deaf. */
  lemma GoesDeaf(s: State, a: Action)
    requires Inv(s) && Enabled(s, a) && !Deaf(s)
    ensures Deaf(Next(s, a)) <==> a.AttemptSucceeds? && !s.up && s.callbacks == 0
  {
    match a
    case Connect => case TaskStarts => case Wake => case TransportUp => case RestoreWaits => case AttemptFails(_) =>
    case AttemptSucceeds => case SleepOver => case TransportDies => case OrphanDies =>
    case CallbackRuns => case CloseBegins => case CancelDelivered => case CloseEnds =>
  }

  lemma {:induction false} DeafUndisturbed(s: State, acts: seq<Action>)
    requires Deaf(s) && Legal(s, acts) && Undisturbed(acts)
    ensures Deaf(After(s, acts)) && Attempts(s, acts) == 0
    decreases |acts|
  {
    if acts == [] {
    } else {
      assert acts == [acts[0]] + acts[1..];
      DeafStep(s, acts[0]);
      DeafUndisturbed(Next(s, acts[0]), acts[1..]);
    }
  }

  lemma LostInLongerRun(acts: seq<Action>, i: nat, k: nat)
    requires acts != [] && CloseLost(acts[..|acts| - 1], i, k)
    ensures CloseLost(acts, i, k)
    ensures acts[k + 1..] == acts[..|acts| - 1][k + 1..] + [acts[|acts| - 1]]
  {
    var n := |acts| - 1;
    assert acts[..n][i + 1..k] == acts[i + 1..k] && acts[..n][..k] == acts[..k];
  }

  lemma {:induction false} DeafHasLost(failFast: bool, acts: seq<Action>) returns (i: nat, k: nat)
    requires Legal(Start(failFast), acts) && Deaf(After(Start(failFast), acts))
    ensures CloseLost(acts, i, k) && Undisturbed(acts[k + 1..])
    decreases |acts|
  {
    assert acts != [];
    var n := |acts| - 1;
    LastStep(Start(failFast), acts);
    var s := After(Start(failFast), acts[..n]);
    if Deaf(s) {
      i, k := DeafHasLost(failFast, acts[..n]);
      DeafStep(s, acts[n]);
      LostInLongerRun(acts, i, k);
    } else {
      RunFromStart(failFast, acts[..n]);
      GoesDeaf(s, acts[n]);
      k := n;
      i := RestoringSince(failFast, acts[..n]);
      CallbacksAreDeathsUnheard(failFast, acts[..n]);
    }
  }

  /** No attempt before the second that brings up a transport loses a close. */
  lemma LostOnlyLater(failFast: bool, acts: seq<Action>, i: nat, k: nat)
    requires Legal(Start(failFast), acts) && CloseLost(acts, i, k)
    ensures TransportUp in acts[..i]
  {
    PrefixLegal(Start(failFast), acts, k);
    assert acts[k..][0] == acts[k];
    var j := RestoringSince(failFast, acts[..k]);
    assert acts[..k][i + 1..] == acts[i + 1..k];
    UpSinceIsUnique(acts[..k], i, j);
    assert acts[..k][..i] == acts[..i];
  }

  lemma LostGoesDeaf(failFast: bool, acts: seq<Action>, i: nat, k: nat)
    requires Legal(Start(failFast), acts) && CloseLost(acts, i, k)
    ensures Legal(Start(failFast), acts[..k + 1]) && Deaf(After(Start(failFast), acts[..k + 1]))
    ensures Undisturbed(acts[k + 1..]) ==> Deaf(After(Start(failFast), acts))
  {
    PrefixLegal(Start(failFast), acts, k + 1);
    var run := acts[..k + 1];
    LastStep(Start(failFast), run);
    assert run[..k] == acts[..k];
    var s := After(Start(failFast), acts[..k]);
    var j := RestoringSince(failFast, acts[..k]);
    UpSinceIsUnique(acts[..k], i, j);
    assert acts[..k][i + 1..] == acts[i + 1..k];
    CallbacksAreDeathsUnheard(failFast, acts[..k]);
    RunFromStart(failFast, acts[..k]);
    if Undisturbed(acts[k + 1..]) { DeafUndisturbed(Next(s, acts[k]), acts[k + 1..]); }
  }

  /** A run leaves the loop deaf exactly when some attempt lost a close and nothing has
      disturbed the loop since. */
  lemma DeafIffCloseLost(failFast: bool, acts: seq<Action>)
    requires Legal(Start(failFast), acts)
    ensures Deaf(After(Start(failFast), acts))
            <==> exists i: nat, k: nat :: CloseLost(acts, i, k) && Undisturbed(acts[k + 1..])
  {
    if Deaf(After(Start(failFast), acts)) {
      var i, k := DeafHasLost(failFast, acts);
    }
    if i: nat, k: nat :| CloseLost(acts, i, k) && Undisturbed(acts[k + 1..]) {
      LostGoesDeaf(failFast, acts, i, k);
    }
  }

  /** No close callback runs while channels are being restored. */
  predicate QuietWindows(s: State, acts: seq<Action>)
    requires Legal(s, acts)
    decreases |acts|
  {
    acts == [] || (!(s.pc.Restoring? && acts[0].CallbackRuns?) && QuietWindows(Next(s, acts[0]), acts[1..]))
  }

  predicate DeathStillToBeHeard(s: State) {
    !s.pc.AwaitingConnected? && (s.pc.Restoring? ==> s.connected && (s.up || s.callbacks > 0))
  }

  lemma QuietStep(s: State, a: Action)
    requires Enabled(s, a) && !(s.pc.Restoring? && a.CallbackRuns?) && DeathStillToBeHeard(s)
    ensures DeathStillToBeHeard(Next(s, a))
  {
    match a
    case Connect => case TaskStarts => case Wake => case TransportUp => case RestoreWaits => case AttemptFails(_) =>
    case AttemptSucceeds => case SleepOver => case TransportDies => case OrphanDies =>
    case CallbackRuns => case CloseBegins => case CancelDelivered => case CloseEnds =>
  }

  /** So the loop always notices a dead connection, and never waits inside a restore for one to
      come up, unless a close lands in that window. */
  lemma {:induction false} RecoversUnlessCloseLandsInWindow(s: State, acts: seq<Action>)
    requires Inv(s) && !Deaf(s) && DeathStillToBeHeard(s) && Legal(s, acts) && QuietWindows(s, acts)
    ensures !Deaf(After(s, acts)) && !After(s, acts).pc.AwaitingConnected?
    decreases |acts|
  {
    if acts == [] {
    } else {
      StepKeepsInv(s, acts[0]);
      QuietStep(s, acts[0]);
      GoesDeaf(s, acts[0]);
      RecoversUnlessCloseLandsInWindow(Next(s, acts[0]), acts[1..]);
    }
  }

  ghost predicate StepsTo(s: State, a: Action, s': State) { Enabled(s, a) && Next(s, a) == s' }

  lemma ThreeSteps(s0: State, a: Action, s1: State, b: Action, s2: State, c: Action, s3: State)
    requires StepsTo(s0, a, s1) && StepsTo(s1, b, s2) && StepsTo(s2, c, s3)
    ensures Legal(s0, [a, b, c]) && After(s0, [a, b, c]) == s3
  {
    assert [c][1..] == [] && Legal(s2, [c]) && After(s2, [c]) == s3;
    assert [b, c][1..] == [c] && Legal(s1, [b, c]) && After(s1, [b, c]) == s3;
    assert [a, b, c][1..] == [b, c];
  }

  /** Every restore has the window: the transport can die and be heard before the attempt ends,
      and the loop is deaf, or waits for `connected` inside the restore. */
  lemma EveryRestoreCanLoseAClose(s: State)
    requires s.pc.Restoring? && s.up && s.callbacks == 0 && Runs(s) && !Ending(s)
    ensures var acts := [TransportDies, CallbackRuns, AttemptSucceeds]; Legal(s, acts) && Deaf(After(s, acts))
    ensures var acts := [TransportDies, CallbackRuns, RestoreWaits]; Legal(s, acts) && After(s, acts).pc.AwaitingConnected?
  {
    var s1 := s.(up := false, callbacks := 1);
    var s2 := s.(up := false, connected := false, closeEvent := true);
    ThreeSteps(s, TransportDies, s1, CallbackRuns, s2, AttemptSucceeds, Next(s2, AttemptSucceeds));
    ThreeSteps(s, TransportDies, s1, CallbackRuns, s2, RestoreWaits, Next(s2, RestoreWaits));
  }

  /** A run with at most one transport never leaves the loop so. */
  lemma FirstConnectionIsHeard(failFast: bool, acts: seq<Action>)
    requires Legal(Start(failFast), acts) && multiset(acts)[TransportUp] <= 1
    ensures !Deaf(After(Start(failFast), acts)) && !After(Start(failFast), acts).pc.AwaitingConnected?
  {
    if Deaf(After(Start(failFast), acts)) {
      var i, k := DeafHasLost(failFast, acts);
      LostOnlyLater(failFast, acts, i, k);
      TwoUps(acts, i);
    }
    if After(Start(failFast), acts).pc.AwaitingConnected? {
      var i, k := StuckHasWaited(failFast, acts);
      TwoUps(acts, i);
    }
  }

  lemma TwoUps(acts: seq<Action>, i: nat)
    requires i < |acts| && acts[i] == TransportUp && TransportUp in acts[..i]
    ensures multiset(acts)[TransportUp] >= 2
  {
    assert acts == acts[..i] + ([acts[i]] + acts[i + 1..]);
    assert multiset(acts) == multiset(acts[..i]) + (multiset{acts[i]} + multiset(acts[i + 1..]));
  }

  function UpTwice(): seq<Action> {
    [Connect, TaskStarts, Wake] + [TransportUp, TransportDies, CallbackRuns] + [SleepOver, Wake, TransportUp]
  }

  /** The first connection dies and is heard, and the second is being restored. */
  lemma SecondTransportUp(failFast: bool)
    ensures Legal(Start(failFast), UpTwice())
    ensures After(Start(failFast), UpTwice())
            == Start(failFast).(pc := Restoring, connectedBefore := true, connected := true, hasTransport := true, up := true, failFast := Succeeded)
  {
    var s := Start(failFast);
    var s6 := s.(pc := Sleeping, connectedBefore := true, hasTransport := true, failFast := Succeeded);
    ThreeSteps(s, Connect, s.(pc := Created), TaskStarts, s.(pc := WaitingForClose), Wake, s.(pc := Connecting));
    FirstDies(failFast);
    SecondComesUp(s6);
    RunsJoin(s, [Connect, TaskStarts, Wake], [TransportUp, TransportDies, CallbackRuns]);
    RunsJoin(s, [Connect, TaskStarts, Wake] + [TransportUp, TransportDies, CallbackRuns], [SleepOver, Wake, TransportUp]);
  }

  lemma FirstDies(failFast: bool)
    ensures var s, acts := Start(failFast).(pc := Connecting), [TransportUp, TransportDies, CallbackRuns];
      Legal(s, acts)
      && After(s, acts) == s.(pc := Sleeping, connectedBefore := true, hasTransport := true, failFast := Succeeded)
  {
    var s := Start(failFast).(pc := Connecting);
    var r := s.(pc := Sleeping, connectedBefore := true, hasTransport := true, failFast := Succeeded);
    ThreeSteps(s, TransportUp, r.(connected := true, up := true, closeEvent := false),
               TransportDies, r.(connected := true, closeEvent := false, callbacks := 1), CallbackRuns, r);
  }

  lemma SecondComesUp(s: State)
    requires s.pc.Sleeping? && s.closeEvent && s.connectedBefore && !s.up && !Ending(s) && Runs(s)
    ensures var acts := [SleepOver, Wake, TransportUp];
      Legal(s, acts) && After(s, acts) == s.(pc := Restoring, connected := true, hasTransport := true, up := true)
  {
    ThreeSteps(s, SleepOver, s.(pc := WaitingForClose), Wake, s.(pc := Connecting, connected := false, hasTransport := false),
               TransportUp, s.(pc := Restoring, connected := true, hasTransport := true, up := true));
  }

  /** The second connection of a new object can go deaf, or get stuck. */
  lemma SecondConnectionCanGoDeaf(failFast: bool)
    ensures var acts := UpTwice() + [TransportDies, CallbackRuns, AttemptSucceeds];
      Legal(Start(failFast), acts) && Deaf(After(Start(failFast), acts))
    ensures var acts := UpTwice() + [TransportDies, CallbackRuns, RestoreWaits];
      Legal(Start(failFast), acts) && After(Start(failFast), acts).pc.AwaitingConnected?
  {
    SecondTransportUp(failFast);
    EveryRestoreCanLoseAClose(After(Start(failFast), UpTwice()));
    RunsJoin(Start(failFast), UpTwice(), [TransportDies, CallbackRuns, AttemptSucceeds]);
    RunsJoin(Start(failFast), UpTwice(), [TransportDies, CallbackRuns, RestoreWaits]);
  }

  // -------------------------------------------------------------------------------------
  // Stuck inside a restore

  /** Step k waits for `connected` inside the restore of the transport that came up at step i,
      and a close callback ran in between. */
  predicate WaitedFor(acts: seq<Action>, i: nat, k: nat) {
    && i < k < |acts| && acts[i] == TransportUp && acts[k] == RestoreWaits
    && TransportUp !in acts[i + 1..k] && CallbackRuns in acts[i + 1..k]
  }

  lemma StuckStep(s: State, a: Action)
    requires Enabled(s, a)
    ensures Next(s, a).pc.AwaitingConnected? <==> a.RestoreWaits? || (s.pc.AwaitingConnected? && !a.CancelDelivered?)
    ensures s.pc.AwaitingConnected? ==> !Next(s, a).pc.Connecting?
  {
    match a
    case Connect => case TaskStarts => case Wake => case TransportUp => case RestoreWaits => case AttemptFails(_) =>
    case AttemptSucceeds => case SleepOver => case TransportDies => case OrphanDies =>
    case CallbackRuns => case CloseBegins => case CancelDelivered => case CloseEnds =>
  }

  lemma {:induction false} StuckHasWaited(failFast: bool, acts: seq<Action>) returns (i: nat, k: nat)
    requires Legal(Start(failFast), acts) && After(Start(failFast), acts).pc.AwaitingConnected?
    ensures WaitedFor(acts, i, k) && TransportUp in acts[..i] && CancelDelivered !in acts[k + 1..]
    decreases |acts|
  {
    var n := |acts| - 1;
    LastStep(Start(failFast), acts);
    StuckStep(After(Start(failFast), acts[..n]), acts[n]);
    if acts[n].RestoreWaits? {
      k := n;
      i := RestoringSince(failFast, acts[..n]);
      assert acts[..n][i + 1..] == acts[i + 1..n] && acts[..n][..i] == acts[..i];
    } else {
      i, k := StuckHasWaited(failFast, acts[..n]);
      assert acts[k + 1..] == acts[..n][k + 1..] + [acts[n]];
      assert acts[..n][i + 1..k] == acts[i + 1..k] && acts[..n][..i] == acts[..i];
    }
  }

  lemma {:induction false} StaysStuck(s: State, acts: seq<Action>)
    requires s.pc.AwaitingConnected? && Legal(s, acts) && CancelDelivered !in acts
    ensures After(s, acts).pc.AwaitingConnected? && Attempts(s, acts) == 0
    decreases |acts|
  {
    if acts == [] {
    } else {
      assert acts[0] in acts;
      StuckStep(s, acts[0]);
      StaysStuck(Next(s, acts[0]), acts[1..]);
    }
  }

  /** A run leaves the factory waiting inside a restore for a connection that only it could make
      exactly when a close callback ran during a restore that then had to wait, and no
      cancellation has come since; until one comes no attempt is made. */
  lemma StuckIffCallbackRanInRestore(failFast: bool, acts: seq<Action>)
    requires Legal(Start(failFast), acts)
    ensures After(Start(failFast), acts).pc.AwaitingConnected?
            <==> exists i: nat, k: nat :: WaitedFor(acts, i, k) && CancelDelivered !in acts[k + 1..]
  {
    if After(Start(failFast), acts).pc.AwaitingConnected? {
      var i, k := StuckHasWaited(failFast, acts);
    }
    if i: nat, k: nat :| WaitedFor(acts, i, k) && CancelDelivered !in acts[k + 1..] {
      PrefixLegal(Start(failFast), acts, k);
      assert acts[k..][0] == acts[k] && acts[k..][1..] == acts[k + 1..];
      StaysStuck(Next(After(Start(failFast), acts[..k]), acts[k]), acts[k + 1..]);
    }
  }

  /** And a deaf loop makes no attempt until close(), unless a connection it had replaced dies. */
  lemma {:induction false} DeafUntilClosed(s: State, acts: seq<Action>)
    requires Deaf(s) && Runs(s) && s.orphans == 0 && Legal(s, acts) && CloseBegins !in acts
    ensures Deaf(After(s, acts)) && Attempts(s, acts) == 0
    decreases |acts|
  {
    if acts == [] {
    } else {
      assert acts[0] in acts;
      DeafStep(s, acts[0]);
      DeafUntilClosed(Next(s, acts[0]), acts[1..]);
    }
  }
}
