/** The part of an AMQP broker that one channel's declarations touch. */
module Broker {

  type Name = string
  type Tag = string
  type Args = map<string, string>

  datatype ExDecl = ExDecl(name: Name, params: Args)
  datatype QDecl = QDecl(name: Name, params: Args)
  datatype EBind = EBind(destination: Name, source: Name, key: string, args: Args)
  datatype QBind = QBind(queue: Name, source: Name, key: string, args: Args)
  datatype Consumer = Consumer(tag: Tag, queue: Name, options: Args)
  datatype Qos = Qos(count: nat, size: nat, global_: bool)

  datatype Broker = Broker(
    exchanges: set<ExDecl>,
    queues: set<QDecl>,
    ebinds: set<EBind>,
    qbinds: set<QBind>,
    consumers: set<Consumer>,
    qos: Qos)

  datatype Reply = Ok(broker: Broker) | Refused

  datatype Command =
    | BasicQos(qos: Qos)
    | ExchangeDeclare(exchange: ExDecl)
    | ExchangeBind(ebind: EBind)
    | ExchangeUnbind(ebind: EBind)
    | ExchangeDelete(exchangeName: Name, ifUnused: bool)
    | QueueDeclare(queue: QDecl)
    | QueueBind(qbind: QBind)
    | QueueUnbind(qbind: QBind)
    | QueueDelete(queueName: Name, ifUnused: bool, notEmpty: bool)  // asked for if_empty, and it holds messages
    | BasicConsume(consumer: Consumer)
    | BasicCancel(tag: Tag)

  const NO_QOS := Qos(0, 0, false)
  const NEW_BROKER := Broker({}, {}, {}, {}, {}, NO_QOS)

  predicate HasExchange(b: Broker, n: Name) { exists d :: d in b.exchanges && d.name == n }

  predicate HasQueue(b: Broker, n: Name) { exists d :: d in b.queues && d.name == n }

  predicate HasTag(b: Broker, t: Tag) { exists c :: c in b.consumers && c.tag == t }

  predicate IsSource(b: Broker, n: Name) {
    (exists e :: e in b.ebinds && e.source == n) || (exists q :: q in b.qbinds && q.source == n)
  }

  predicate IsConsumed(b: Broker, n: Name) { exists c :: c in b.consumers && c.queue == n }

  /** A redeclaration must repeat the parameters. */
  predicate ExchangeFits(b: Broker, d: ExDecl) {
    d.name != "" && forall e :: e in b.exchanges && e.name == d.name ==> e == d
  }

  predicate QueueFits(b: Broker, d: QDecl) { forall e :: e in b.queues && e.name == d.name ==> e == d }

  predicate Accepts(b: Broker, c: Command) {
    match c
    case BasicQos(_) => true
    case ExchangeDeclare(d) => ExchangeFits(b, d)
    case ExchangeBind(e) => HasExchange(b, e.destination) && HasExchange(b, e.source)
    case ExchangeUnbind(_) => true
    case ExchangeDelete(n, ifUnused) => ifUnused ==> !IsSource(b, n)
    case QueueDeclare(d) => QueueFits(b, d)
    case QueueBind(q) => HasQueue(b, q.queue) && HasExchange(b, q.source)
    case QueueUnbind(_) => true
    case QueueDelete(n, ifUnused, notEmpty) => (ifUnused ==> !IsConsumed(b, n)) && !notEmpty
    case BasicConsume(c) => HasQueue(b, c.queue) && !HasTag(b, c.tag)
    case BasicCancel(_) => true
  }

  function Effect(b: Broker, c: Command): Broker {
    match c
    case BasicQos(q) => b.(qos := q)
    case ExchangeDeclare(d) => b.(exchanges := b.exchanges + {d})
    case ExchangeBind(e) => b.(ebinds := b.ebinds + {e})
    case ExchangeUnbind(e) => b.(ebinds := b.ebinds - {e})
    case ExchangeDelete(n, _) =>
      b.(exchanges := (set d | d in b.exchanges && d.name != n),
         ebinds := (set e | e in b.ebinds && e.destination != n && e.source != n),
         qbinds := (set q | q in b.qbinds && q.source != n))
    case QueueDeclare(d) => b.(queues := b.queues + {d})
    case QueueBind(q) => b.(qbinds := b.qbinds + {q})
    case QueueUnbind(q) => b.(qbinds := b.qbinds - {q})
    case QueueDelete(n, _, _) =>
      b.(queues := (set d | d in b.queues && d.name != n),
         qbinds := (set q | q in b.qbinds && q.queue != n),
         consumers := (set c | c in b.consumers && c.queue != n))
    case BasicConsume(c) => b.(consumers := b.consumers + {c})
    case BasicCancel(t) => b.(consumers := (set c | c in b.consumers && c.tag != t))
  }

  /** A refused method is a channel exception: the server closes the channel, and with it go
      the channel's consumers and prefetch. */
  function Closed(b: Broker): Broker { b.(consumers := {}, qos := NO_QOS) }

  /** A consumer tag in use on the channel is refused by the client itself: nothing is sent. */
  predicate RefusedLocally(b: Broker, c: Command) { c.BasicConsume? && HasTag(b, c.consumer.tag) }

  function Answered(b: Broker, c: Command): Broker {
    if Accepts(b, c) then Effect(b, c) else if RefusedLocally(b, c) then b else Closed(b)
  }

  /** What the broker itself guarantees about its state. */
  ghost predicate Sound(b: Broker) {
    && (forall d :: d in b.exchanges ==> ExchangeFits(b, d))
    && (forall d :: d in b.queues ==> QueueFits(b, d))
    && (forall e :: e in b.ebinds ==> HasExchange(b, e.destination) && HasExchange(b, e.source))
    && (forall q :: q in b.qbinds ==> HasQueue(b, q.queue) && HasExchange(b, q.source))
    && (forall c :: c in b.consumers ==> HasQueue(b, c.queue))
  }

  lemma CommandKeepsSound(b: Broker, c: Command)
    requires Sound(b) && Accepts(b, c)
    ensures Sound(Effect(b, c))
  {
    var b' := Effect(b, c);
    assert forall n :: !c.ExchangeDelete? && HasExchange(b, n) ==> HasExchange(b', n);
    assert forall n :: !c.QueueDelete? && HasQueue(b, n) ==> HasQueue(b', n);
    match c
    case ExchangeDeclare(d) => assert d in b'.exchanges;
    case QueueDeclare(d) => assert d in b'.queues;
    case ExchangeDelete(n, _) =>
      forall m | m != n && HasExchange(b, m) ensures HasExchange(b', m) {
        var d :| d in b.exchanges && d.name == m;
        assert d in b'.exchanges;
      }
    case QueueDelete(n, _, _) =>
      forall m | m != n && HasQueue(b, m) ensures HasQueue(b', m) {
        var d :| d in b.queues && d.name == m;
        assert d in b'.queues;
      }
    case _ =>
  }
}
