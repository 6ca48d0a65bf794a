/** What `_on_open` does to the broker when it replays the registries, as a function of the
    order in which the sets of objects happen to be iterated. */
module Replay {
  import opened Broker
  import opened Registry

  function EBindsOf(e: ExObj): set<EBind> { set s | s in e.bindings :: EBindOf(e, s, e.bindings[s]) }

  function QBindsOf(q: QObj): set<QBind> { set k | k in q.bindings :: QBindOf(q, k, q.bindings[k]) }

  function ConsumersOf(q: QObj): set<Consumer> { set t | t in q.consumers :: ConsumerOf(q, t, q.consumers[t]) }

  predicate ExSourcesExist(b: Broker, e: ExObj) { forall s :: s in e.bindings ==> HasExchange(b, s.name) }

  predicate QSourcesExist(b: Broker, q: QObj) { forall k :: k in q.bindings ==> HasExchange(b, k.source.name) }

  predicate TagsFree(b: Broker, q: QObj) { forall t :: t in q.consumers ==> !HasTag(b, t) }

  /** `RobustExchange.restore`: declare, then bind to every recorded source. */
  function RestoreExchange(b: Broker, e: ExObj): Reply {
    if e.decl.name == "" then Ok(b)
    else if !ExchangeFits(b, e.decl) then Refused
    else
      var b1 := Effect(b, ExchangeDeclare(e.decl));
      if ExSourcesExist(b1, e) then Ok(b1.(ebinds := b1.ebinds + EBindsOf(e))) else Refused
  }

  /** `RobustQueue.restore`: declare, bind, then consume again under the recorded tags. */
  function RestoreQueue(b: Broker, q: QObj): Reply {
    if !QueueFits(b, q.decl) then Refused
    else
      var b1 := Effect(b, QueueDeclare(q.decl));
      if QSourcesExist(b1, q) && TagsFree(b1, q) then
        Ok(b1.(qbinds := b1.qbinds + QBindsOf(q), consumers := b1.consumers + ConsumersOf(q)))
      else Refused
  }

  function RestoreExchanges(b: Broker, es: seq<ExObj>): Reply
    decreases |es|
  {
    if es == [] then Ok(b)
    else
      match RestoreExchange(b, es[0])
      case Refused => Refused
      case Ok(b1) => RestoreExchanges(b1, es[1..])
  }

  function RestoreQueues(b: Broker, qs: seq<QObj>): Reply
    decreases |qs|
  {
    if qs == [] then Ok(b)
    else
      match RestoreQueue(b, qs[0])
      case Refused => Refused
      case Ok(b1) => RestoreQueues(b1, qs[1..])
  }

  /** `RobustChannel._on_open`: prefetch, every exchange, then every queue. */
  function OnOpen(b: Broker, count: nat, size: nat, es: seq<ExObj>, qs: seq<QObj>): Reply {
    match RestoreExchanges(Effect(b, BasicQos(Qos(count, size, false))), es)
    case Refused => Refused
    case Ok(b1) => RestoreQueues(b1, qs)
  }

  // -------------------------------------------------------------------------------------
  // Closed forms

  function DeclsOf(es: seq<ExObj>): set<ExDecl> { if es == [] then {} else {es[0].decl} + DeclsOf(es[1..]) }

  function AllEBinds(es: seq<ExObj>): set<EBind> { if es == [] then {} else EBindsOf(es[0]) + AllEBinds(es[1..]) }

  function QDeclsOf(qs: seq<QObj>): set<QDecl> { if qs == [] then {} else {qs[0].decl} + QDeclsOf(qs[1..]) }

  function AllQBinds(qs: seq<QObj>): set<QBind> { if qs == [] then {} else QBindsOf(qs[0]) + AllQBinds(qs[1..]) }

  function AllConsumers(qs: seq<QObj>): set<Consumer> {
    if qs == [] then {} else ConsumersOf(qs[0]) + AllConsumers(qs[1..])
  }

  /** Every source of a replayed exchange survived, or is replayed no later than the exchange. */
  predicate SourcesInOrder(b: Broker, es: seq<ExObj>) {
    forall i, s :: 0 <= i < |es| && s in es[i].bindings ==> HasExchange(b, s.name) || DeclaredBy(es, i, s.name)
  }

  predicate DeclaredBy(es: seq<ExObj>, i: int, n: Name)
    requires 0 <= i < |es|
  {
    exists j :: 0 <= j <= i && es[j].decl.name == n
  }

  ghost predicate ExchangesFit(b: Broker, es: seq<ExObj>) {
    && (forall i :: 0 <= i < |es| ==> ExchangeFits(b, es[i].decl))
    && (forall i, j :: 0 <= i < |es| && 0 <= j < |es| && es[i].decl.name == es[j].decl.name ==> es[i].decl == es[j].decl)
  }

  lemma OrderStep(b: Broker, es: seq<ExObj>)
    requires es != [] && es[0].decl.name != ""
    ensures var b1 := Effect(b, ExchangeDeclare(es[0].decl));
      SourcesInOrder(b, es) <==> ExSourcesExist(b1, es[0]) && SourcesInOrder(b1, es[1..])
  {
    var b1 := Effect(b, ExchangeDeclare(es[0].decl));
    var rest := es[1..];
    assert es[0].decl in b1.exchanges;
    assert forall n :: HasExchange(b1, n) <==> HasExchange(b, n) || n == es[0].decl.name;
    forall i, n | 0 <= i < |rest|
      ensures DeclaredBy(es, i + 1, n) <==> n == es[0].decl.name || DeclaredBy(rest, i, n)
    {
      if DeclaredBy(rest, i, n) {
        var j :| 0 <= j <= i && rest[j].decl.name == n;
        assert es[j + 1].decl.name == n;
      }
      if DeclaredBy(es, i + 1, n) && n != es[0].decl.name {
        var j :| 0 <= j <= i + 1 && es[j].decl.name == n;
        assert rest[j - 1].decl.name == n;
      }
    }
    if SourcesInOrder(b, es) {
      forall i, s | 0 <= i < |rest| && s in rest[i].bindings ensures HasExchange(b1, s.name) || DeclaredBy(rest, i, s.name) {
        assert s in es[i + 1].bindings;
      }
    }
    if ExSourcesExist(b1, es[0]) && SourcesInOrder(b1, rest) {
      forall i, s | 0 <= i < |es| && s in es[i].bindings ensures HasExchange(b, s.name) || DeclaredBy(es, i, s.name) {
        if i > 0 {
          assert s in rest[i - 1].bindings;
        } else {
          assert HasExchange(b1, s.name);
        }
      }
    }
  }

  /** Replaying exchanges succeeds exactly in an order that declares sources first, and then
      adds exactly what the objects record. */
  lemma {:induction false} ExchangesReplay(b: Broker, es: seq<ExObj>)
    requires ExchangesFit(b, es)
    ensures RestoreExchanges(b, es)
            == if SourcesInOrder(b, es)
               then Ok(b.(exchanges := b.exchanges + DeclsOf(es), ebinds := b.ebinds + AllEBinds(es)))
               else Refused
    decreases |es|
  {
    if es == [] {
      assert b.exchanges + {} == b.exchanges && b.ebinds + {} == b.ebinds;
    } else {
      var b1 := Effect(b, ExchangeDeclare(es[0].decl));
      var b2 := b1.(ebinds := b1.ebinds + EBindsOf(es[0]));
      OrderStep(b, es);
      assert SourcesInOrder(b2, es[1..]) <==> SourcesInOrder(b1, es[1..]) by {
        assert forall n :: HasExchange(b2, n) <==> HasExchange(b1, n);
      }
      assert ExchangesFit(b2, es[1..]);
      ExchangesReplay(b2, es[1..]);
      assert b.exchanges + DeclsOf(es) == b2.exchanges + DeclsOf(es[1..]);
      assert b.ebinds + AllEBinds(es) == b2.ebinds + AllEBinds(es[1..]);
    }
  }

  ghost predicate QDeclsFit(b: Broker, qs: seq<QObj>) {
    && (forall i :: 0 <= i < |qs| ==> QueueFits(b, qs[i].decl))
    && (forall i, j :: 0 <= i < |qs| && 0 <= j < |qs| && qs[i].decl.name == qs[j].decl.name ==> qs[i].decl == qs[j].decl)
  }

  ghost predicate QTagsFit(b: Broker, qs: seq<QObj>) {
    && (forall i :: 0 <= i < |qs| ==> TagsFree(b, qs[i]))
    && (forall i, j, t :: 0 <= i < |qs| && 0 <= j < |qs| && t in qs[i].consumers && t in qs[j].consumers ==> i == j)
  }

  ghost predicate QueuesFit(b: Broker, qs: seq<QObj>) {
    QDeclsFit(b, qs) && QTagsFit(b, qs) && forall i :: 0 <= i < |qs| ==> QSourcesExist(b, qs[i])
  }

  lemma RestoreQueueAdds(b: Broker, q: QObj)
    requires QueueFits(b, q.decl) && QSourcesExist(b, q) && TagsFree(b, q)
    ensures RestoreQueue(b, q)
            == Ok(b.(queues := b.queues + {q.decl}, qbinds := b.qbinds + QBindsOf(q), consumers := b.consumers + ConsumersOf(q)))
  {
    var b1 := Effect(b, QueueDeclare(q.decl));
    assert forall n :: HasExchange(b1, n) <==> HasExchange(b, n);
    assert forall t :: HasTag(b1, t) <==> HasTag(b, t);
  }

  lemma RestFits(b: Broker, b2: Broker, qs: seq<QObj>)
    requires qs != [] && QueuesFit(b, qs)
    requires b2.queues == b.queues + {qs[0].decl} && b2.exchanges == b.exchanges
    requires b2.consumers == b.consumers + ConsumersOf(qs[0])
    ensures QueuesFit(b2, qs[1..])
  {
    var q, rest := qs[0], qs[1..];
    assert forall n :: HasExchange(b2, n) <==> HasExchange(b, n);
    forall i | 0 <= i < |rest| ensures QueueFits(b2, rest[i].decl) && QSourcesExist(b2, rest[i]) && TagsFree(b2, rest[i]) {
      assert rest[i] == qs[i + 1];
      forall t | t in rest[i].consumers ensures !HasTag(b2, t) {
        assert !HasTag(b, t) && t !in q.consumers;
      }
    }
    forall i, j, t | 0 <= i < |rest| && 0 <= j < |rest| && t in rest[i].consumers && t in rest[j].consumers
      ensures i == j
    {
      assert t in qs[i + 1].consumers && t in qs[j + 1].consumers;
    }
  }

  lemma {:induction false} QueuesReplay(b: Broker, qs: seq<QObj>)
    requires QueuesFit(b, qs)
    ensures RestoreQueues(b, qs)
            == Ok(b.(queues := b.queues + QDeclsOf(qs), qbinds := b.qbinds + AllQBinds(qs),
                     consumers := b.consumers + AllConsumers(qs)))
    decreases |qs|
  {
    if qs == [] {
      assert b.queues + {} == b.queues && b.qbinds + {} == b.qbinds && b.consumers + {} == b.consumers;
    } else {
      RestoreQueueAdds(b, qs[0]);
      var b2 := RestoreQueue(b, qs[0]).broker;
      RestFits(b, b2, qs);
      QueuesReplay(b2, qs[1..]);
      assert b.queues + QDeclsOf(qs) == b2.queues + QDeclsOf(qs[1..]);
      assert b.qbinds + AllQBinds(qs) == b2.qbinds + AllQBinds(qs[1..]);
      assert b.consumers + AllConsumers(qs) == b2.consumers + AllConsumers(qs[1..]);
    }
  }
}
