/** Losing the channel of a session and opening it again. */
module RobustReopen {
  import opened Broker
  import opened Registry
  import opened RegistryGuards
  import opened Replay
  import opened RobustObjects
  import opened RobustSession
  import R = RestoreRuns

  /** An accepted call of a session within its guard keeps what a later reopening needs; a
      refused one leaves the registries, and everything else if the client refused it, or else the
      closed channel to be reopened. */
  lemma FollowingKeepsGood(r: Registry, b: Broker, op: Op, r': Registry, b': Broker, ok: bool)
    requires R.Good(r, b) && Follows(r, b, op, r', b', ok) && (ok ==> Guard(r, op))
    ensures if ok then R.Good(r', b')
            else r' == r && (if RefusedLocally(b, CommandOf(r, op)) then b' == b else b' == Closed(b) && R.Survives(b', b))
  {
    if ok { R.DoKeepsGood(r, b, op); }
  }

  ghost function ExchangeIds(es: seq<RobustExchange>, objects: map<Id, RobustExchange>): (ids: seq<Id>)
    requires forall e :: e in es ==> e in objects.Values
    ensures |ids| == |es| && forall k :: 0 <= k < |es| ==> ids[k] in objects && objects[ids[k]] == es[k]
  {
    if es == [] then [] else
      assert es[0] in es;
      var i :| i in objects && objects[i] == es[0];
      [i] + ExchangeIds(es[1..], objects)
  }

  ghost function QueueIds(qs: seq<RobustQueue>, objects: map<Id, RobustQueue>): (ids: seq<Id>)
    requires forall q :: q in qs ==> q in objects.Values
    ensures |ids| == |qs| && forall k :: 0 <= k < |qs| ==> ids[k] in objects && objects[ids[k]] == qs[k]
  {
    if qs == [] then [] else
      assert qs[0] in qs;
      var i :| i in objects && objects[i] == qs[0];
      [i] + QueueIds(qs[1..], objects)
  }

  /** A list of the channel's exchange objects is an iteration order over the registry. */
  lemma ExchangeOrder(es: seq<RobustExchange>, sets: ExSets, names: seq<Name>, objects: map<Id, RobustExchange>) returns (order: seq<Id>)
    requires ListsHeldExchanges(es, sets) && InKeyOrder(es, names) && CoversExchanges(sets, objects) && Distinct(objects)
    ensures R.ListsExchanges(order, ExchangesSeen(sets, objects), names)
    ensures R.ExchangesIn(ExchangesSeen(sets, objects), order) == ExViews(es)
  {
    var m := ExchangesSeen(sets, objects);
    forall e | e in es ensures e in objects.Values && HoldsExchange(sets, e) {
      var n :| n in sets && e in sets[n];
    }
    order := ExchangeIds(es, objects);
    forall k | 0 <= k < |order| ensures order[k] in m && m[order[k]] == es[k].View() {
      assert es[k] in es;
    }
    forall i | i in m && m[i].tracked ensures i in order {
      assert objects[i] in es;
      var k :| 0 <= k < |es| && es[k] == objects[i];
      assert order[k] == i;
    }
  }

  lemma QueueOrder(qs: seq<RobustQueue>, sets: QSets, objects: map<Id, RobustQueue>) returns (order: seq<Id>)
    requires ListsHeldQueues(qs, sets) && NoRepeats(qs) && CoversQueues(sets, objects) && Distinct(objects)
    ensures R.ListsQueues(order, QueuesSeen(sets, objects))
    ensures R.QueuesIn(QueuesSeen(sets, objects), order) == QViews(qs)
  {
    var m := QueuesSeen(sets, objects);
    forall q | q in qs ensures q in objects.Values && HoldsQueue(sets, q) {
      var n :| n in sets && q in sets[n];
    }
    order := QueueIds(qs, objects);
    forall k | 0 <= k < |order| ensures order[k] in m && m[order[k]] == qs[k].View() {
      assert qs[k] in qs;
    }
    forall i | i in m && m[i].tracked ensures i in order {
      assert objects[i] in qs;
      var k :| 0 <= k < |qs| && qs[k] == objects[i];
      assert order[k] == i;
    }
  }

  /** The channel's objects, as `_on_open` lists them. */
  ghost predicate Lists(c: RobustChannel, es: seq<RobustExchange>, qs: seq<RobustQueue>)
    reads c
  {
    && ListsHeldExchanges(es, c.exchanges) && InKeyOrder(es, c.exchangeNames)
    && ListsHeldQueues(qs, c.queues) && NoRepeats(qs)
  }

  /** What the channel replays is what the theorem on registries speaks of. */
  lemma SessionReplays(s: Session, b: Broker, survivors: Broker, es: seq<RobustExchange>, qs: seq<RobustQueue>)
    requires s.Valid() && R.Good(s.Known(), b) && R.Survives(survivors, b) && Lists(s.channel, es, qs)
    ensures Replay.OnOpen(survivors, s.channel.prefetchCount, s.channel.prefetchSize, ExViews(es), QViews(qs))
            == if R.SourcesFirst(s.Known().exchanges, s.Known().exNames, survivors) then Ok(b) else Refused
    ensures survivors == Closed(b) ==> R.SourcesFirst(s.Known().exchanges, s.Known().exNames, survivors)
  {
    var exOrder := ExchangeOrder(es, s.channel.exchanges, s.channel.exchangeNames, s.exchanges);
    var qOrder := QueueOrder(qs, s.channel.queues, s.queues);
    R.ReplayRebuilds(s.Known(), b, survivors, exOrder, qOrder);
    R.RefusalIsRepaired(s.Known(), b, exOrder, qOrder);
  }

  /** `_on_open` changes no dictionary of the session. */
  method Reopen(s: Session, es: seq<RobustExchange>, qs: seq<RobustQueue>) returns (ok: bool)
    requires s.Valid() && Lists(s.channel, es, qs)
    modifies s.channel`restored, s.server, es, qs
    ensures s.Valid() && s.Known() == old(s.Known())
    ensures Replay.OnOpen(old(s.server.state), s.channel.prefetchCount, s.channel.prefetchSize, old(ExViews(es)), old(QViews(qs)))
            == if ok then Ok(s.server.state) else Refused
  {
    ghost var known := s.Known();
    ok := s.channel.OnOpen(s.server, es, qs);
    SeenAre(s.channel.exchanges, s.exchanges, known.exchanges);
    QueuesSeenAre(s.channel.queues, s.queues, known.queues);
  }

  /** The channel was lost and is opened again: the objects rebuild the broker as it was, if and
      only if every exchange binds only sources that survived or were registered no later than
      itself; no dictionary changes. */
  method ReopenAfterLoss(s: Session, ghost b: Broker, es: seq<RobustExchange>, qs: seq<RobustQueue>) returns (ok: bool)
    requires s.Valid() && R.Good(s.Known(), b) && R.Survives(s.server.state, b) && Lists(s.channel, es, qs)
    modifies s.channel`restored, s.server, es, qs
    ensures s.Valid() && s.Known() == old(s.Known())
    ensures ok <==> R.SourcesFirst(s.Known().exchanges, s.Known().exNames, old(s.server.state))
    ensures ok ==> s.server.state == b
  {
    SessionReplays(s, b, s.server.state, es, qs);
    ok := Reopen(s, es, qs);
  }

  /** After a refused call the channel is closed; reopening it always succeeds and gives back
      the broker from before the call. */
  method ReopenAfterRefusal(s: Session, ghost b: Broker, es: seq<RobustExchange>, qs: seq<RobustQueue>) returns (ok: bool)
    requires s.Valid() && R.Good(s.Known(), b) && s.server.state == Closed(b) && Lists(s.channel, es, qs)
    modifies s.channel`restored, s.server, es, qs
    ensures s.Valid() && s.Known() == old(s.Known())
    ensures ok && s.server.state == b
  {
    SessionReplays(s, b, s.server.state, es, qs);
    ok := Reopen(s, es, qs);
  }
}
