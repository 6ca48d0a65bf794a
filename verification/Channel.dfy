/** The one-shot callback object and the channel that makes one for each underlay.  Each
    method is one atomic stretch of the source and one step of `CloseOnce`. */
module ChannelObjects {
  import opened Options
  import M = CloseOnce

  class OneShotCallback {
    var task: M.Task
    var hasCallback: bool
    var finished: bool
    var finishing: nat  // queued calls of `finished.set`
    var runs: nat

    function State(): M.OneShot
      reads this
    {
      M.OneShot(task, hasCallback, finished, finishing, runs)
    }

    constructor ()
      ensures State() == M.FRESH
    {
      task, hasCallback, finished, finishing, runs := M.NotMade, true, false, 0, 0;
    }

    /** `__call__`. */
    method Call() returns (made: bool)
      modifies this`task
      ensures State() == M.Called(old(State()))
      ensures made <==> old(task).NotMade? && !old(finished)
    {
      made := false;
      if finished || !task.NotMade? {
        return;
      }
      task := M.Made;
      made := true;
    }

    /** `__task_inner` up to the suspension in the callback. */
    method Start()
      modifies this`task, this`runs
      ensures State() == M.Started(old(State()))
    {
      if finished {
        task := M.Done;
        return;
      }
      runs := runs + 1;
      task := M.Running;
    }

    /** The `finally` clause. */
    method End()
      modifies this`task, this`finishing, this`hasCallback
      ensures State() == M.Ended(old(State()))
    {
      finishing := finishing + 1;
      hasCallback := false;
      task := M.Done;
    }

    /** `finished.set`, when the loop gets to it. */
    method SetFinished()
      modifies this`finished, this`finishing
      ensures State() == M.Set(old(State()))
    {
      finished := true;
      if finishing > 0 {
        finishing := finishing - 1;
      }
    }
  }

  class Channel {
    var shots: map<M.Id, OneShotCallback>
    var attached: set<M.Id>
    var current: Option<M.Id>
    var initializing: bool
    var hearing: set<M.Id>

    /** No two underlays share a callback object. */
    ghost predicate Valid()
      reads this
    {
      forall i, j :: i in shots && j in shots && i != j ==> shots[i] != shots[j]
    }

    ghost function State(): M.Channel
      reads this, shots.Values
    {
      M.Channel(map i | i in shots :: shots[i].State(), attached, current, initializing, hearing)
    }

    constructor ()
      ensures Valid() && State() == M.EMPTY
    {
      shots, attached, current, initializing, hearing := map[], {}, None, false, {};
    }

    /** The start of `UnderlayChannel.create`. */
    method Create(id: M.Id)
      requires Valid() && id !in shots
      modifies this
      ensures Valid() && State() == M.Next(old(State()), M.Create(id))
    {
      var shot := new OneShotCallback();
      shots := shots[id := shot];
      attached := attached + {id};
    }

    /** `_open` takes the new underlay for its own. */
    method Adopt(id: M.Id, byInitialize: bool)
      requires Valid() && id in shots && (byInitialize ==> current.None?)
      modifies this
      ensures Valid() && State() == M.Next(old(State()), M.Adopt(id, byInitialize))
    {
      current := Some(id);
      if byInitialize {
        initializing := true;
      }
    }

    /** `_on_initialized`. */
    method OnInitialized()
      requires Valid() && initializing && current.Some?
      modifies this
      ensures Valid() && State() == M.Next(old(State()), M.HandlerAdded)
    {
      hearing := hearing + {current.value};
      initializing := false;
    }

    /** `_open` gives up, once the underlay it had taken is closed. */
    method OpenFailed()
      requires Valid() && current.Some? && current.value in shots && shots[current.value].finished
      modifies this`current, this`initializing
      ensures Valid() && State() == M.Next(old(State()), M.OpenFailed)
    {
      current, initializing := None, false;
    }

    /** One of the two futures the callback hangs on is done. */
    method Fire(id: M.Id)
      requires Valid() && id in shots && id in attached
      modifies shots[id]
      ensures Valid() && State() == M.Next(old(State()), M.Fire(id))
    {
      var made := shots[id].Call();
    }

    method Start(id: M.Id)
      requires Valid() && id in shots && shots[id].task.Made?
      modifies shots[id]
      ensures Valid() && State() == M.Next(old(State()), M.Start(id))
    {
      shots[id].Start();
    }

    /** The rest of `_on_close`, and the end of the task around it. */
    method End(id: M.Id, raises: bool)
      requires Valid() && id in shots && shots[id].task.Running?
      modifies this`hearing, shots[id]
      ensures Valid() && State() == M.Next(old(State()), M.End(id, raises))
    {
      if !raises && current.Some? {
        hearing := hearing - {current.value};
      }
      shots[id].End();
    }

    method SetFinished(id: M.Id)
      requires Valid() && id in shots && shots[id].finishing > 0
      modifies shots[id]
      ensures Valid() && State() == M.Next(old(State()), M.Finish(id))
    {
      shots[id].SetFinished();
    }

    /** `UnderlayChannel.close`, once its wait is over. */
    method Detach(id: M.Id)
      requires Valid() && id in shots && shots[id].finished
      modifies this`attached
      ensures Valid() && State() == M.Next(old(State()), M.Detach(id))
    {
      attached := attached - {id};
    }
  }
}
