/** The robust connection object and the loop of its factory, run against a script of what the
    network, the callers of close() and the scheduler do while the factory is suspended. */
module RobustConnectionObject {
  import M = Reconnect

  /** A suspended factory is resumed, or it is over: cancelled, or the script has ended. */
  datatype Answer = Resumed(action: M.Action) | Over

  /** What is behind the script of a run so far: the steps taken are legal and lead here, and
      they are the script itself as long as that is legal. */
  ghost predicate Traced(start: M.State, script: seq<M.Action>, next: nat, trace: seq<M.Action>, now: M.State) {
    && next <= |script|
    && M.Legal(start, trace) && M.After(start, trace) == now
    && (M.Legal(start, script) ==> trace == script[..next])
  }

  /** The step at `next - 1` is still to be taken. */
  ghost predicate Due(start: M.State, script: seq<M.Action>, next: nat, trace: seq<M.Action>, now: M.State, a: M.Action) {
    && 0 < next <= |script| && script[next - 1] == a
    && Traced(start, script, next - 1, trace, now) && M.Enabled(now, a)
  }

  lemma Taken(start: M.State, script: seq<M.Action>, next: nat, trace: seq<M.Action>, now: M.State, a: M.Action)
    requires Due(start, script, next, trace, now, a)
    ensures Traced(start, script, next, trace + [a], M.Next(now, a))
  {
    M.RunsJoin(start, trace, [a]);
    assert [a][1..] == [];
    assert script[..next] == script[..next - 1] + [a];
  }

  lemma LegalScriptGoesOn(start: M.State, script: seq<M.Action>, next: nat, trace: seq<M.Action>, now: M.State)
    requires Traced(start, script, next, trace, now) && next < |script| && M.Legal(start, script)
    ensures M.Enabled(now, script[next])
  {
    M.PrefixLegal(start, script, next);
    assert script[next..][0] == script[next];
  }

  ghost predicate Finished(start: M.State, script: seq<M.Action>, trace: seq<M.Action>, now: M.State) {
    && M.Legal(start, trace) && M.After(start, trace) == now
    && (M.Legal(start, script) ==> trace <= script && (now.pc.Stopped? || trace == script))
  }

  /** Steps of the factory; the others are steps of its surroundings. */
  predicate IsFactorys(a: M.Action) {
    a.TaskStarts? || a.Wake? || a.TransportUp? || a.RestoreWaits? || a.AttemptFails? || a.AttemptSucceeds? || a.SleepOver?
  }

  class RobustConnection {
    // the connection's own fields
    var transport: bool
    var closed: bool
    var closeCalled: bool
    var closeEvent: bool
    var failFastFuture: M.FailFastFuture
    var connectionAttempt: nat
    var connected: bool
    // the reconnection task: where it is suspended, and whether its cancellation is due
    var task: M.Pc
    var cancelling: bool
    // the network
    var up: bool
    var orphans: nat
    var callbacks: nat

    function State(): M.State
      reads this
    {
      M.State(task, closeEvent, cancelling, closeCalled, closed, failFastFuture, connectionAttempt > 0, connected, transport, up, orphans, callbacks)
    }

    constructor (failFast: bool)
      ensures State() == M.Start(failFast)
    {
      transport, closed, closeCalled, closeEvent := false, false, false, true;
      failFastFuture := if failFast then M.Unresolved else M.Succeeded;
      connectionAttempt, connected := 0, false;
      task, cancelling := M.NoTask, false;
      up, orphans, callbacks := false, 0, 0;
    }

    /** `connect`, up to its first suspension.  A second call finds the task and only waits. */
    method Connect() returns (raised: bool)
      requires !cancelling
      modifies this
      ensures raised <==> old(closed)
      ensures State() ==
        if M.Enabled(old(State()), M.Connect) then M.Next(old(State()), M.Connect) else old(State())
    {
      raised := closed;
      if !raised && task.NoTask? {
        task := M.Created;
      }
    }

    /** `__connection_factory`, from the first step of its task until the task stops or the
        script ends. */
    method Factory(script: seq<M.Action>) returns (ghost trace: seq<M.Action>)
      requires task.Created?
      modifies this
      ensures M.Legal(old(State()), trace) && State() == M.After(old(State()), trace)
      ensures M.Legal(old(State()), script) ==> trace <= script && (task.Stopped? || trace == script)
    {
      ghost var start := State();
      var next, answer;
      next, answer, trace := Suspend(script, 0, start, []);
      while answer.Resumed? && !closed && !closeCalled
        invariant answer.Over? ==> Finished(start, script, trace, State())
        invariant answer.Resumed? ==> Due(start, script, next, trace, State(), answer.action)
        invariant answer.Resumed? ==> answer.action.TaskStarts? || answer.action.SleepOver?
        decreases answer.Resumed?, |script| - next
      {
        Taken(start, script, next, trace, State(), answer.action);
        trace, task := trace + [answer.action], M.WaitingForClose;
        next, answer, trace := Suspend(script, next, start, trace);
        if answer.Resumed? {
          next, answer, trace := Attempt(script, next, start, trace);
        }
      }
      if answer.Resumed? {
        Taken(start, script, next, trace, State(), answer.action);
        trace, task := trace + [answer.action], M.Stopped(M.ByClose);
      }
    }

    /** The rest of the loop's body: the close event is set. */
    method Attempt(script: seq<M.Action>, from_: nat, ghost start: M.State, ghost before: seq<M.Action>)
        returns (next: nat, answer: Answer, ghost trace: seq<M.Action>)
      requires Due(start, script, from_, before, State(), M.Wake)
      modifies this
      ensures answer.Resumed? ==> answer.action.SleepOver? && from_ < next && Due(start, script, next, trace, State(), answer.action)
      ensures answer.Over? ==> Finished(start, script, trace, State())
    {
      Taken(start, script, from_, before, State(), M.Wake);
      trace := before + [M.Wake];
      if closed || closeCalled {
        task := M.Stopped(M.ByClose);
        return from_, Over, trace;
      }
      StartAttempt();
      next, answer, trace := ConnectTransport(script, from_, start, trace);
      if answer.Resumed? && !answer.action.SleepOver? {
        next, answer, trace := EndAttempt(script, next, start, trace, answer.action);
      }
    }

    /** `Connection.connect` and `_on_connected`, up to their end or their exception; the first
        attempt to get a transport has then succeeded already, and its pause too is over. */
    method ConnectTransport(script: seq<M.Action>, from_: nat, ghost start: M.State, ghost before: seq<M.Action>)
        returns (next: nat, answer: Answer, ghost trace: seq<M.Action>)
      requires task.Connecting? && Traced(start, script, from_, before, State())
      modifies this
      ensures answer.Resumed? ==> from_ < next && Due(start, script, next, trace, State(), answer.action)
      ensures answer.Resumed? ==> answer.action.AttemptSucceeds? || answer.action.AttemptFails? || answer.action.SleepOver?
      ensures answer.Over? ==> Finished(start, script, trace, State())
    {
      next, answer, trace := Suspend(script, from_, start, before);
      if answer == Resumed(M.TransportUp) {
        Taken(start, script, next, trace, State(), M.TransportUp);
        trace := trace + [M.TransportUp];
        TransportUp();
        if task.Sleeping? {
          next, answer, trace := Suspend(script, next, start, trace);
        } else {
          next, answer, trace := Restore(script, next, start, trace);
        }
      }
    }

    /** The end of the `try` statement, and the pause. */
    method EndAttempt(script: seq<M.Action>, from_: nat, ghost start: M.State, ghost before: seq<M.Action>, a: M.Action)
        returns (next: nat, answer: Answer, ghost trace: seq<M.Action>)
      requires Due(start, script, from_, before, State(), a) && (a.AttemptSucceeds? || a.AttemptFails?)
      modifies this
      ensures answer.Resumed? ==> answer.action.SleepOver? && from_ < next && Due(start, script, next, trace, State(), answer.action)
      ensures answer.Over? ==> Finished(start, script, trace, State())
    {
      Taken(start, script, from_, before, State(), a);
      trace := before + [a];
      if a.AttemptSucceeds? {
        Succeed();
      } else {
        Catch(a.listed);
        if task.Stopped? {
          return from_, Over, trace;
        }
      }
      next, answer, trace := Suspend(script, from_, start, trace);
    }

    /** A transport is there.  The first one has no channels to restore and no callbacks to await. */
    method TransportUp()
      requires task.Connecting?
      modifies this
      ensures State() == M.Up(old(State()))
    {
      transport, up, connected := true, true, true;
      if connectionAttempt == 0 {
        Succeed();
      } else {
        task := M.Restoring;
      }
    }

    /** `_on_connected` of a later transport, up to its end or its exception. */
    method Restore(script: seq<M.Action>, from_: nat, ghost start: M.State, ghost before: seq<M.Action>)
        returns (next: nat, answer: Answer, ghost trace: seq<M.Action>)
      requires task.Restoring? && Traced(start, script, from_, before, State())
      modifies this
      ensures answer.Resumed? ==> from_ < next && Due(start, script, next, trace, State(), answer.action)
      ensures answer.Resumed? ==> answer.action.AttemptSucceeds? || answer.action.AttemptFails?
      ensures answer.Over? ==> Finished(start, script, trace, State())
    {
      next, answer, trace := Suspend(script, from_, start, before);
      if answer == Resumed(M.RestoreWaits) {
        Taken(start, script, next, trace, State(), M.RestoreWaits);
        trace, task := trace + [M.RestoreWaits], M.AwaitingConnected;
        next, answer, trace := Suspend(script, next, start, trace);
      }
    }

    /** The factory is suspended: its surroundings follow the script, passing over what cannot
        happen, until the script resumes the factory or cancels it. */
    method Suspend(script: seq<M.Action>, from_: nat, ghost start: M.State, ghost before: seq<M.Action>)
        returns (next: nat, answer: Answer, ghost trace: seq<M.Action>)
      requires M.Suspended(State()) && Traced(start, script, from_, before, State())
      modifies this
      ensures answer.Resumed? ==> task == old(task) && from_ < next && IsFactorys(answer.action)
      ensures answer.Resumed? ==> Due(start, script, next, trace, State(), answer.action)
      ensures answer.Over? ==> Finished(start, script, trace, State())
    {
      next, trace := from_, before;
      while next < |script|
        invariant from_ <= next && task == old(task) && Traced(start, script, next, trace, State())
      {
        var a := script[next];
        if M.Legal(start, script) { LegalScriptGoesOn(start, script, next, trace, State()); }
        next := next + 1;
        if M.Enabled(State(), a) {
          if IsFactorys(a) {
            return next, Resumed(a), trace;
          }
          Taken(start, script, next, trace, State(), a);
          trace := trace + [a];
          if a.CancelDelivered? {
            task := M.Stopped(M.ByCancel);
            return next, Over, trace;
          }
          Meanwhile(a);
        }
      }
      answer := Over;
    }

    method Meanwhile(a: M.Action)
      requires M.Suspended(State()) && M.Enabled(State(), a) && !IsFactorys(a) && !a.CancelDelivered?
      modifies this`up, this`orphans, this`callbacks, this`closeEvent, this`connected, this`cancelling
      ensures State() == M.Next(old(State()), a)
    {
      match a {
        case TransportDies => up, callbacks := false, callbacks + 1;
        case OrphanDies => orphans, callbacks := orphans - 1, callbacks + 1;
        case CallbackRuns =>
          callbacks := callbacks - 1;
          OnConnectionClose();
        case CloseBegins => cancelling := true;
      }
    }

    /** An attempt begins by forgetting the transport. */
    method StartAttempt()
      requires !closed && !closeCalled
      modifies this
      ensures State() == M.Attempt(old(State()))
    {
      if up {
        orphans := orphans + 1;
      }
      transport, connected, up, task := false, false, false, M.Connecting;
    }

    /** The end of `_on_connected` and of the `try` block. */
    method Succeed()
      modifies this
      ensures State() == M.Connected(old(State()))
    {
      connectionAttempt := connectionAttempt + 1;
      closeEvent := false;
      if failFastFuture.Unresolved? {
        failFastFuture := M.Succeeded;
      }
      task := M.Sleeping;
    }

    /** The two `except` clauses of the factory. */
    method Catch(listed: bool)
      modifies this
      ensures State() == M.Caught(old(State()), listed)
    {
      if task.Connecting? {
        OnConnectionClose();
      }
      if listed && failFastFuture.Unresolved? {
        failFastFuture := M.Failed;
        task := M.Stopped(M.FailFast);
      } else {
        task := M.Sleeping;
      }
    }

    /** `_on_connection_close`, its two effects taken together. */
    method OnConnectionClose()
      modifies this`connected, this`closeEvent
      ensures State() == M.Signalled(old(State()))
    {
      connected := false;
      if closeCalled || closed {
        return;
      }
      closeEvent := true;
    }

    /** `close` once the task is over: it is forgotten, and the base class closes the transport. */
    method CloseEnds()
      requires M.Enabled(State(), M.CloseEnds)
      modifies this
      ensures State() == M.Next(old(State()), M.CloseEnds)
    {
      task, cancelling := M.NoTask, false;
      var had := transport;
      transport, connected, up := false, false, false;
      closeCalled := true;
      if had {
        closed := true;
      }
    }
  }
}
