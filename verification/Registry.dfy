/** The client side of restoration: every robust exchange and queue object a channel has
    handed out, with the `_bindings` and `_consumers` dictionaries they fill, and what these
    dictionaries say the broker should contain. */
module Registry {
  import opened Broker
  import opened Slots

  type Id = nat  // object identity

  /** An exchange argument: a string, or an exchange object.  As dictionary keys the two
      differ even when they name the same exchange. */
  datatype ExRef = ByName(name: Name) | ByObject(id: Id, name: Name)

  datatype Route = Route(key: string, args: Args)
  datatype BindKey = BindKey(source: ExRef, key: string)

  /** `tracked` says whether the object is in the channel's own registry. */
  datatype ExObj = ExObj(tracked: bool, decl: ExDecl, bindings: map<ExRef, Route>)
  datatype QObj = QObj(tracked: bool, decl: QDecl, bindings: map<BindKey, Args>, consumers: map<Tag, Args>)

  /** `exNames` are the keys of the channel's dictionary of exchanges, in insertion order. */
  datatype Registry = Registry(exchanges: Exchanges, exNames: seq<Name>, queues: Queues, prefetchCount: nat, prefetchSize: nat)

  const NEW_REGISTRY := Registry(map[], [], map[], 0, 0)

  function Listed(names: seq<Name>, n: Name): seq<Name> { if n in names then names else names + [n] }

  function Unlisted(names: seq<Name>, n: Name): seq<Name> {
    if names == [] then [] else if names[0] == n then Unlisted(names[1..], n) else [names[0]] + Unlisted(names[1..], n)
  }

  /** The place of a name among the keys. */
  function Rank(names: seq<Name>, n: Name): nat {
    if names == [] || names[0] == n then 0 else 1 + Rank(names[1..], n)
  }

  datatype Slot<K> = Slot(owner: Id, key: K)

  function EBindOf(e: ExObj, source: ExRef, r: Route): EBind { EBind(e.decl.name, source.name, r.key, r.args) }

  function QBindOf(q: QObj, k: BindKey, args: Args): QBind { QBind(q.decl.name, k.source.name, k.key, args) }

  function ConsumerOf(q: QObj, t: Tag, options: Args): Consumer { Consumer(t, q.decl.name, options) }

  type Exchanges = map<Id, ExObj>
  type Queues = map<Id, QObj>

  // What each registry entry accounts for
  ghost function ExSlots(m: Exchanges): imap<Id, ExDecl> { imap i | i in m && m[i].tracked :: m[i].decl }

  ghost function QSlots(m: Queues): imap<Id, QDecl> { imap i | i in m && m[i].tracked :: m[i].decl }

  ghost predicate HasEBind(m: Exchanges, s: Slot<ExRef>) {
    s.owner in m && m[s.owner].tracked && s.key in m[s.owner].bindings
  }

  ghost predicate HasQBind(m: Queues, s: Slot<BindKey>) {
    s.owner in m && m[s.owner].tracked && s.key in m[s.owner].bindings
  }

  ghost predicate HasConsumer(m: Queues, s: Slot<Tag>) {
    s.owner in m && m[s.owner].tracked && s.key in m[s.owner].consumers
  }

  ghost function EBindSlots(m: Exchanges): imap<Slot<ExRef>, EBind> {
    imap s | HasEBind(m, s) :: EBindOf(m[s.owner], s.key, m[s.owner].bindings[s.key])
  }

  ghost function QBindSlots(m: Queues): imap<Slot<BindKey>, QBind> {
    imap s | HasQBind(m, s) :: QBindOf(m[s.owner], s.key, m[s.owner].bindings[s.key])
  }

  ghost function ConsumerSlots(m: Queues): imap<Slot<Tag>, Consumer> {
    imap s | HasConsumer(m, s) :: ConsumerOf(m[s.owner], s.key, m[s.owner].consumers[s.key])
  }

  // -------------------------------------------------------------------------------------
  // Operations

  datatype Op =
    | DeclareExchange(id: Id, exchange: ExDecl, internal: bool, robust: bool)
    | DeleteExchange(name: Name, ifUnused: bool)
    | BindExchange(id: Id, source: ExRef, route: Route, robust: bool)
    | UnbindExchange(id: Id, source: ExRef, route: Route)
    | DeclareQueue(id: Id, queue: QDecl, robust: bool)
    | DeleteQueue(name: Name, ifUnused: bool, notEmpty: bool)
    | BindQueue(id: Id, bindKey: BindKey, args: Args, robust: bool)
    | UnbindQueue(id: Id, bindKey: BindKey, args: Args)
    | Consume(id: Id, tag: Tag, options: Args, robust: bool)
    | Cancel(id: Id, tag: Tag)
    | SetQos(qos: Qos)

  /** The object exists; a declaration makes a new object. */
  predicate Callable(r: Registry, op: Op) {
    match op
    case DeclareExchange(id, _, _, _) => id !in r.exchanges
    case DeclareQueue(id, _, _) => id !in r.queues
    case BindExchange(id, _, _, _) => id in r.exchanges
    case UnbindExchange(id, _, _) => id in r.exchanges
    case BindQueue(id, _, _, _) => id in r.queues
    case UnbindQueue(id, _, _) => id in r.queues
    case Consume(id, _, _, _) => id in r.queues
    case Cancel(id, _) => id in r.queues
    case DeleteExchange(_, _) => true
    case DeleteQueue(_, _, _) => true
    case SetQos(_) => true
  }

  function CommandOf(r: Registry, op: Op): Command
    requires Callable(r, op)
  {
    match op
    case DeclareExchange(_, d, _, _) => ExchangeDeclare(d)
    case DeleteExchange(n, ifUnused) => ExchangeDelete(n, ifUnused)
    case BindExchange(id, s, route, _) => ExchangeBind(EBindOf(r.exchanges[id], s, route))
    case UnbindExchange(id, s, route) => ExchangeUnbind(EBindOf(r.exchanges[id], s, route))
    case DeclareQueue(_, d, _) => QueueDeclare(d)
    case DeleteQueue(n, ifUnused, notEmpty) => QueueDelete(n, ifUnused, notEmpty)
    case BindQueue(id, k, args, _) => QueueBind(QBindOf(r.queues[id], k, args))
    case UnbindQueue(id, k, args) => QueueUnbind(QBindOf(r.queues[id], k, args))
    case Consume(id, t, options, _) => BasicConsume(ConsumerOf(r.queues[id], t, options))
    case Cancel(_, t) => BasicCancel(t)
    case SetQos(q) => BasicQos(q)
  }

  // One function per object method: what the broker's acceptance writes into the dictionaries
  function ExBound(e: ExObj, s: ExRef, route: Route, robust: bool): ExObj {
    if robust then e.(bindings := e.bindings[s := route]) else e
  }

  function ExUnbound(e: ExObj, s: ExRef): ExObj { e.(bindings := e.bindings - {s}) }

  function QBound(q: QObj, k: BindKey, args: Args, robust: bool): QObj {
    if robust then q.(bindings := q.bindings[k := args]) else q
  }

  function QUnbound(q: QObj, k: BindKey): QObj { q.(bindings := q.bindings - {k}) }

  function QConsuming(q: QObj, t: Tag, options: Args, robust: bool): QObj {
    if robust then q.(consumers := q.consumers[t := options]) else q
  }

  function QCancelled(q: QObj, t: Tag): QObj { q.(consumers := q.consumers - {t}) }

  function ForgetExchange(m: Exchanges, n: Name): Exchanges {
    map i | i in m :: if m[i].decl.name == n then m[i].(tracked := false) else m[i]
  }

  function ForgetQueue(m: Queues, n: Name): Queues {
    map i | i in m :: if m[i].decl.name == n then m[i].(tracked := false) else m[i]
  }

  function Record(r: Registry, op: Op): Registry
    requires Callable(r, op)
  {
    match op
    case DeclareExchange(id, d, internal, robust) =>
      r.(exchanges := r.exchanges[id := ExObj(!internal && robust, d, map[])],
         exNames := if !internal && robust then Listed(r.exNames, d.name) else r.exNames)
    case DeleteExchange(n, _) => r.(exchanges := ForgetExchange(r.exchanges, n), exNames := Unlisted(r.exNames, n))
    case BindExchange(id, s, route, robust) =>
      r.(exchanges := r.exchanges[id := ExBound(r.exchanges[id], s, route, robust)])
    case UnbindExchange(id, s, _) => r.(exchanges := r.exchanges[id := ExUnbound(r.exchanges[id], s)])
    case DeclareQueue(id, d, robust) => r.(queues := r.queues[id := QObj(robust, d, map[], map[])])
    case DeleteQueue(n, _, _) => r.(queues := ForgetQueue(r.queues, n))
    case BindQueue(id, k, args, robust) =>
      r.(queues := r.queues[id := QBound(r.queues[id], k, args, robust)])
    case UnbindQueue(id, k, _) => r.(queues := r.queues[id := QUnbound(r.queues[id], k)])
    case Consume(id, t, options, robust) =>
      r.(queues := r.queues[id := QConsuming(r.queues[id], t, options, robust)])
    case Cancel(id, t) => r.(queues := r.queues[id := QCancelled(r.queues[id], t)])
    case SetQos(q) => r.(prefetchCount := q.count, prefetchSize := q.size)
  }

  /** The registries describe the broker exactly.  `_global_qos` is stored but never
      replayed, so what is described is the prefetch of a channel without the global flag. */
  ghost predicate Agree(r: Registry, b: Broker) {
    && Balanced(b.exchanges, ExSlots(r.exchanges))
    && Balanced(b.queues, QSlots(r.queues))
    && Balanced(b.ebinds, EBindSlots(r.exchanges))
    && Balanced(b.qbinds, QBindSlots(r.queues))
    && Balanced(b.consumers, ConsumerSlots(r.queues))
    && b.qos == Qos(r.prefetchCount, r.prefetchSize, false)
  }
}
