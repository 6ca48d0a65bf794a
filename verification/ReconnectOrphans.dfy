/** Which runs keep to one connection at a time. */
module ReconnectOrphans {
  import opened Reconnect
  import opened ReconnectRuns
  import opened ReconnectDeaf

  // -------------------------------------------------------------------------------------
  // One connection at a time

  /** Every close callback has run by the time the pause between two attempts is over. */
  predicate Prompt(s: State, acts: seq<Action>)
    requires Legal(s, acts)
    decreases |acts|
  {
    acts == [] || ((acts[0].SleepOver? ==> s.callbacks == 0) && Prompt(Next(s, acts[0]), acts[1..]))
  }

  ghost predicate OneConnection(s: State) {
    && s.orphans == 0
    && (!Ending(s) ==> s.callbacks <= if s.up then 0 else 1)
    && (!Ending(s) && (s.pc.Created? || s.pc.WaitingForClose? || s.pc.NoTask?) && s.closeEvent ==> s.callbacks == 0)
    && (!Ending(s) && Resting(s) && s.closeEvent ==> !s.up)
    && (!Ending(s) && (s.pc.NoTask? || s.pc.Connecting?) ==> !s.up && s.callbacks == 0)
  }

  lemma OneConnectionStep(s: State, a: Action)
    requires Inv(s) && OneConnection(s) && Enabled(s, a) && (a.SleepOver? ==> s.callbacks == 0)
    ensures OneConnection(Next(s, a))
  {
    match a
    case Connect => case TaskStarts => case Wake => case TransportUp => case RestoreWaits => case AttemptFails(_) =>
    case AttemptSucceeds => case SleepOver => case TransportDies => case OrphanDies =>
    case CallbackRuns => case CloseBegins => case CancelDelivered => case CloseEnds =>
  }

  /** Then no live connection is ever replaced: there is one at most. */
  lemma {:induction false} PromptRunsKeepOneConnection(s: State, acts: seq<Action>)
    requires Inv(s) && OneConnection(s) && Legal(s, acts) && Prompt(s, acts)
    ensures After(s, acts).orphans == 0
    decreases |acts|
  {
    if acts == [] {
    } else {
      StepKeepsInv(s, acts[0]);
      OneConnectionStep(s, acts[0]);
      PromptRunsKeepOneConnection(Next(s, acts[0]), acts[1..]);
    }
  }

  /** How many connections a run replaced while they were alive. */
  function Replaced(s: State, acts: seq<Action>): nat
    requires Legal(s, acts)
    decreases |acts|
  {
    if acts == [] then 0
    else (if acts[0].Wake? && s.up && Next(s, acts[0]).pc.Connecting? then 1 else 0) + Replaced(Next(s, acts[0]), acts[1..])
  }

  lemma OrphanStep(s: State, a: Action)
    requires Enabled(s, a)
    ensures Next(s, a).orphans + (if a.OrphanDies? then 1 else 0)
            == s.orphans + (if a.Wake? && s.up && Next(s, a).pc.Connecting? then 1 else 0)
  {
    match a
    case Connect => case TaskStarts => case Wake => case TransportUp => case RestoreWaits => case AttemptFails(_) =>
    case AttemptSucceeds => case SleepOver => case TransportDies => case OrphanDies =>
    case CallbackRuns => case CloseBegins => case CancelDelivered => case CloseEnds =>
  }

  /** The orphans are the connections replaced alive that have not died since. */
  lemma {:induction false} OrphansAreReplaced(s: State, acts: seq<Action>)
    requires Legal(s, acts)
    ensures After(s, acts).orphans + multiset(acts)[OrphanDies] == s.orphans + Replaced(s, acts)
    decreases |acts|
  {
    if acts == [] {
    } else {
      assert acts == [acts[0]] + acts[1..];
      OrphanStep(s, acts[0]);
      OrphansAreReplaced(Next(s, acts[0]), acts[1..]);
    }
  }

  /** The transport that came up at step i is alive: it has not died, been replaced or been closed. */
  predicate Alive(acts: seq<Action>, i: nat) {
    && i < |acts| && acts[i] == TransportUp
    && TransportDies !in acts[i + 1..] && Wake !in acts[i + 1..] && CloseEnds !in acts[i + 1..]
  }

  lemma AliveInLonger(acts: seq<Action>, a: Action, i: nat)
    requires i < |acts|
    ensures Alive(acts + [a], i) <==> Alive(acts, i) && a != TransportDies && a != Wake && a != CloseEnds
  {
    assert (acts + [a])[i + 1..] == acts[i + 1..] + [a];
  }

  lemma UpStep(s: State, a: Action)
    requires StopInv(s) && Enabled(s, a)
    ensures Next(s, a).up <==> a.TransportUp? || (s.up && !a.TransportDies? && !a.Wake? && !a.CloseEnds?)
  {
    match a
    case Connect => case TaskStarts => case Wake => case TransportUp => case RestoreWaits => case AttemptFails(_) =>
    case AttemptSucceeds => case SleepOver => case TransportDies => case OrphanDies =>
    case CallbackRuns => case CloseBegins => case CancelDelivered => case CloseEnds =>
  }

  lemma {:induction false} UpIffAlive(failFast: bool, acts: seq<Action>)
    requires Legal(Start(failFast), acts)
    ensures After(Start(failFast), acts).up <==> exists i: nat :: Alive(acts, i)
    decreases |acts|
  {
    if acts == [] {
    } else {
      var n := |acts| - 1;
      var a, before := acts[n], acts[..n];
      assert acts == before + [a];
      LastStep(Start(failFast), acts);
      RunFromStart(failFast, before);
      UpIffAlive(failFast, before);
      UpStep(After(Start(failFast), before), a);
      forall i: nat | i < n ensures Alive(acts, i) <==> Alive(before, i) && a != TransportDies && a != Wake && a != CloseEnds {
        AliveInLonger(before, a, i);
      }
      assert Alive(acts, n) <==> a.TransportUp?;
    }
  }

  /** Step k of the run begins an attempt although the transport of step i is alive. */
  predicate ReplacesAlive(acts: seq<Action>, i: nat, k: nat) { k < |acts| && acts[k] == Wake && Alive(acts[..k], i) }

  lemma {:induction false} ReplacedSnoc(s: State, acts: seq<Action>, a: Action)
    requires Legal(s, acts) && Legal(s, acts + [a])
    requires Enabled(After(s, acts), a)
    ensures Replaced(s, acts + [a])
            == Replaced(s, acts) + (if a.Wake? && After(s, acts).up && Next(After(s, acts), a).pc.Connecting? then 1 else 0)
    decreases |acts|
  {
    if acts == [] {
      assert (acts + [a])[1..] == [];
    } else {
      assert (acts + [a])[1..] == acts[1..] + [a] && (acts + [a])[0] == acts[0];
      ReplacedSnoc(Next(s, acts[0]), acts[1..], a);
    }
  }

  /** A run replaces a live connection exactly if some attempt begins while the transport of an
      earlier one, since which none began, has neither died nor been closed. */
  lemma {:induction false} ReplacedIffAlive(failFast: bool, acts: seq<Action>)
    requires Legal(Start(failFast), acts)
    ensures Replaced(Start(failFast), acts) > 0 <==> exists i: nat, k: nat :: ReplacesAlive(acts, i, k)
    decreases |acts|
  {
    if acts == [] {
    } else {
      var n := |acts| - 1;
      assert acts == acts[..n] + [acts[n]];
      LastStep(Start(failFast), acts);
      RunFromStart(failFast, acts[..n]);
      ReplacedIffAlive(failFast, acts[..n]);
      UpIffAlive(failFast, acts[..n]);
      ReplacedSnoc(Start(failFast), acts[..n], acts[n]);
      forall i: nat, k: nat | k < n ensures ReplacesAlive(acts, i, k) <==> ReplacesAlive(acts[..n], i, k) {
        assert acts[..n][..k] == acts[..k];
      }
      if i: nat :| acts[n].Wake? && Alive(acts[..n], i) { assert ReplacesAlive(acts, i, n); }
      if i: nat, k: nat :| ReplacesAlive(acts[..n], i, k) { assert ReplacesAlive(acts, i, k); }
    }
  }

  lemma FailedRestoreIsFollowedBySuccess(s: State)
    requires s.pc.Restoring? && s.up && s.callbacks == 0 && s.closeEvent && s.connectedBefore && !Ending(s) && Runs(s)
    requires !s.failFast.Unresolved?
    ensures var first, second := [TransportDies, AttemptFails(false), SleepOver], [Wake, TransportUp, AttemptSucceeds];
      && Legal(s, first + second)
      && After(s, first + second) == s.(pc := Sleeping, connected := true, hasTransport := true, closeEvent := false, callbacks := 1)
  {
    var d := s.(up := false, callbacks := 1);
    var w := d.(pc := WaitingForClose);
    ThreeSteps(s, TransportDies, d, AttemptFails(false), d.(pc := Sleeping), SleepOver, w);
    var r := d.(pc := Restoring, connected := true, hasTransport := true, up := true);
    ThreeSteps(w, Wake, d.(pc := Connecting, connected := false, hasTransport := false), TransportUp, r,
               AttemptSucceeds, r.(pc := Sleeping, closeEvent := false));
    RunsJoin(s, [TransportDies, AttemptFails(false), SleepOver], [Wake, TransportUp, AttemptSucceeds]);
  }

  lemma CallbackAfterSuccess(u: State)
    requires u.pc.Sleeping? && u.up && u.callbacks > 0 && !Ending(u) && Runs(u)
    ensures Legal(u, [CallbackRuns, SleepOver, Wake]) && After(u, [CallbackRuns, SleepOver, Wake]).orphans == u.orphans + 1
  {
    var h := u.(connected := false, closeEvent := true, callbacks := u.callbacks - 1);
    ThreeSteps(u, CallbackRuns, h, SleepOver, h.(pc := WaitingForClose), Wake, Next(h.(pc := WaitingForClose), Wake));
  }

  /** A callback that comes only after the next success replaces a live connection: the restore of
      the second transport fails, the third is restored, and then the death of the second is heard. */
  lemma LateCallbackReplacesALiveConnection(failFast: bool)
    ensures var acts := UpTwice() + ([TransportDies, AttemptFails(false), SleepOver] + [Wake, TransportUp, AttemptSucceeds])
                        + [CallbackRuns, SleepOver, Wake];
      Legal(Start(failFast), acts) && After(Start(failFast), acts).orphans == 1
  {
    SecondTransportUp(failFast);
    var s := After(Start(failFast), UpTwice());
    var middle := [TransportDies, AttemptFails(false), SleepOver] + [Wake, TransportUp, AttemptSucceeds];
    FailedRestoreIsFollowedBySuccess(s);
    CallbackAfterSuccess(After(s, middle));
    RunsJoin(Start(failFast), UpTwice(), middle);
    RunsJoin(Start(failFast), UpTwice() + middle, [CallbackRuns, SleepOver, Wake]);
  }
}
