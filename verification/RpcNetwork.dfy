/** Many RPC clients and the methods they call, with every request, reply and dead letter that
    is on its way between them. */
module RpcNetwork {
  import opened Options
  import R = RpcMachine
  import RS = RpcSafety
  import D = DeadLetters
  import C = RpcCallee
  import S = Settlement

  /** A published request, by the client and the future that wait for it. */
  datatype Letter = Letter(from_: D.Name, fut: R.Fut, id: R.Cid)

  datatype Mail = Mail(to: D.Name, correlation: Option<R.Cid>, kind: R.Kind, body: R.Body)

  /** History: a reply that was sent, and whether decoding, method and serialisation worked. */
  datatype Service = Service(letter: Letter, mail: Mail, worked: bool)

  datatype Network = Network(
    clients: D.Net,
    requests: set<Letter>,   // published and not settled
    dead: set<Letter>,       // expired or rejected, on their way to `rpc.dlx`
    mails: set<Mail>,        // replies on their way
    services: set<Service>,
    died: set<Letter>)       // history: every letter that was ever dead

  datatype Action =
    | Local(client: D.Name, step: R.Action)
    | Publish(client: D.Name, fut: R.Fut)
    | PublishCut(client: D.Name, fut: R.Fut)  // cancelled while it awaits the confirm of a request that is out
    | Serve(letter: Letter, registered: bool, env: C.Environment, body: R.Body)
    | Unroutable(letter: Letter)
    | Expire(letter: Letter)
    | DeliverDead(letter: Letter, added: D.Table)
    | DeliverMail(mail: Mail)
    | Unbind(client: D.Name)

  /** What a client does without a message from outside. */
  predicate IsLocal(a: R.Action) {
    a.Create? || a.PublishFailed? || a.CancelCaller? || a.Resume? || a.RunCallback? || (a.Sweep? && a.error.Closed?)
  }

  predicate Enabled(n: Network, a: Action) {
    match a
    case Local(q, step) => q in n.clients && IsLocal(step) && R.Enabled(n.clients[q].rpc, step)
    case Publish(q, f) => q in n.clients && f in n.clients[q].rpc.ids && R.Enabled(n.clients[q].rpc, R.Published(f))
    case PublishCut(q, f) => q in n.clients && f in n.clients[q].rpc.ids && R.Enabled(n.clients[q].rpc, R.PublishFailed(f))
    case Serve(l, _, _, _) => l in n.requests
    case Unroutable(l) => l in n.requests
    case Expire(l) => l in n.requests
    case DeliverDead(l, _) => l in n.dead
    case DeliverMail(m) => m in n.mails
    case Unbind(q) => q in n.clients
  }

  function WithStep(clients: D.Net, q: D.Name, step: R.Action): D.Net {
    if q in clients && R.Enabled(clients[q].rpc, step) then
      clients[q := clients[q].(rpc := R.Next(clients[q].rpc, step))]
    else clients
  }

  /** One request through `on_call_message`, on a channel of its own. */
  function Call(l: Letter, registered: bool, env: C.Environment): (seq<C.Event>, S.World, C.End) {
    C.OnCall(registered, env, C.Request(l.from_, Some(l.id)),
             S.World(S.Delivered(false, Some(1), false), S.Channel(false, true, [])))
  }

  predicate Worked(env: C.Environment) { env.decode.Works? && env.execute.Works? && env.serialize.Works? }

  function MailOf(e: C.Event, body: R.Body): Mail
    requires e.Reply?
  {
    Mail(e.replyTo, e.correlation, if e.kind.RESULT? then R.RESULT else R.ERROR, body)
  }

  function MailsOf(events: seq<C.Event>, body: R.Body): set<Mail> {
    set e | e in events && e.Reply? :: MailOf(e, body)
  }

  function Served(n: Network, l: Letter, registered: bool, env: C.Environment, body: R.Body): Network {
    var (events, w, _) := Call(l, registered, env);
    var mails := MailsOf(events, body);
    var n1 := n.(mails := n.mails + mails, services := n.services + (set m | m in mails :: Service(l, m, Worked(env))));
    if w.channel.sent == [] then n1
    else if w.channel.sent[0].BasicReject? then n1.(requests := n.requests - {l}, dead := n.dead + {l}, died := n.died + {l})
    else n1.(requests := n.requests - {l})
  }

  function Next(n: Network, a: Action): Network
    requires Enabled(n, a)
  {
    match a
    case Local(q, step) => n.(clients := WithStep(n.clients, q, step))
    case Publish(q, f) =>
      n.(clients := WithStep(n.clients, q, R.Published(f)),
         requests := n.requests + {Letter(q, f, n.clients[q].rpc.ids[f])})
    case PublishCut(q, f) =>
      n.(clients := WithStep(n.clients, q, R.PublishFailed(f)),
         requests := n.requests + {Letter(q, f, n.clients[q].rpc.ids[f])})
    case Serve(l, registered, env, body) => Served(n, l, registered, env, body)
    case Unroutable(l) =>
      n.(clients := WithStep(n.clients, l.from_, R.Return(Some(l.id))), requests := n.requests - {l})
    case Expire(l) => n.(requests := n.requests - {l}, dead := n.dead + {l}, died := n.died + {l})
    case DeliverDead(l, added) =>
      // the broker adds headers of its own, never another `From`
      n.(clients := D.DeadLetter(n.clients, added["From" := l.from_], Some(l.id), R.Decodes(R.Value(0))), dead := n.dead - {l})
    case DeliverMail(m) =>
      n.(clients := WithStep(n.clients, m.to, R.Reply(m.correlation, m.kind, m.body)), mails := n.mails - {m})
    case Unbind(q) => n.(clients := n.clients[q := n.clients[q].(bound := false)])
  }

  ghost predicate IsStart(n: Network) {
    && n.requests == {} && n.dead == {} && n.mails == {} && n.services == {} && n.died == {}
    && forall q :: q in n.clients ==> n.clients[q].rpc == R.EMPTY
  }

  predicate Legal(n: Network, acts: seq<Action>)
    decreases |acts|
  {
    acts == [] || (Enabled(n, acts[0]) && Legal(Next(n, acts[0]), acts[1..]))
  }

  function After(n: Network, acts: seq<Action>): Network
    requires Legal(n, acts)
    decreases |acts|
  {
    if acts == [] then n else After(Next(n, acts[0]), acts[1..])
  }

  // -------------------------------------------------------------------------------------
  // Invariant

  ghost predicate Clients(clients: D.Net) { forall q :: q in clients ==> R.Inv(clients[q].rpc) }

  predicate Addressed(clients: D.Net, l: Letter) {
    l.from_ in clients && l.fut in clients[l.from_].rpc.ids && clients[l.from_].rpc.ids[l.fut] == l.id
  }

  ghost predicate Letters(n: Network) {
    && (forall l :: l in n.requests || l in n.dead || l in n.died ==> Addressed(n.clients, l))
    && (forall l :: l in n.dead ==> l in n.died)
    && (forall s :: s in n.services ==> Addressed(n.clients, s.letter))
  }

  /** A reply goes where the letter came from, and says RESULT exactly when all of it worked. */
  predicate Truthful(s: Service) {
    && s.mail.to == s.letter.from_ && s.mail.correlation == Some(s.letter.id)
    && s.mail.kind == (if s.worked then R.RESULT else R.ERROR)
  }

  ghost predicate Mails(n: Network) {
    && (forall s :: s in n.services ==> Truthful(s))
    && (forall m :: m in n.mails ==> exists s :: s in n.services && s.mail == m)
  }

  /** The letter was served, with success or not, and its reply had this body. */
  ghost predicate Answered(services: set<Service>, l: Letter, worked: bool, body: R.Body) {
    exists s :: s in services && s.letter == l && s.worked == worked && s.mail.body == body
  }

  /** How a call may have come to its outcome: a result, or the remote error in either form, or a
      reply that could not be decoded, from a service of its own request; a timeout from the death
      of its own request; the rest without any message but its own request returned. */
  ghost predicate Explains(services: set<Service>, died: set<Letter>, l: Letter, outcome: R.Outcome) {
    match outcome
    case Result(p) => Answered(services, l, true, R.Decodes(p))
    case Raised(Remote(e)) => Answered(services, l, false, R.Decodes(R.Exception(e)))
    case Raised(Wrapped(v)) => Answered(services, l, false, R.Decodes(R.Value(v)))
    case Raised(Undecodable(e)) => Answered(services, l, true, R.Garbled(e)) || Answered(services, l, false, R.Garbled(e))
    case Raised(TimedOut) => l in died
    case Raised(UnknownType(_)) => false
    case Raised(MessageReturned) => true
    case Raised(CallerCancelled) => true
    case Raised(Closed(_)) => true
  }

  ghost predicate Explained(services: set<Service>, died: set<Letter>, q: D.Name, s: R.Rpc) {
    forall f :: f in s.states && f in s.ids && s.states[f].Done? ==>
      Explains(services, died, Letter(q, f, s.ids[f]), s.states[f].outcome)
  }

  ghost predicate Outcomes(n: Network) {
    forall q :: q in n.clients ==> Explained(n.services, n.died, q, n.clients[q].rpc)
  }

  ghost predicate Inv(n: Network) { Clients(n.clients) && Letters(n) && Mails(n) && Outcomes(n) }

  // -------------------------------------------------------------------------------------
  // One client's step

  predicate IdsKept(s: R.Rpc, r: R.Rpc) { forall f :: f in s.ids ==> f in r.ids && r.ids[f] == s.ids[f] }

  lemma {:induction false} SweepKeepsIds(s: R.Rpc, order: seq<R.Cid>, o: R.Outcome)
    ensures R.ResolveAll(s, order, o).ids == s.ids
    decreases |order|
  {
    if order == [] {
    } else {
      SweepKeepsIds(if order[0] in s.futures then R.Resolve(s, s.futures[order[0]], o) else s, order[1..], o);
    }
  }

  lemma IdsStay(s: R.Rpc, a: R.Action)
    requires s.states.Keys == s.ids.Keys && R.Enabled(s, a)
    ensures IdsKept(s, R.Next(s, a))
  {
    match a {
      case Sweep(e, order) => SweepKeepsIds(s, order, R.Raised(e));
      case _ =>
    }
  }

  lemma StepKeepsIds(s: R.Rpc, a: R.Action)
    requires R.Inv(s) && R.Enabled(s, a)
    ensures R.Inv(R.Next(s, a)) && IdsKept(s, R.Next(s, a))
  {
    RS.StepKeepsInv(s, a);
    IdsStay(s, a);
  }

  predicate OfItself(o: R.Outcome) { o.Raised? && (o.error.MessageReturned? || o.error.CallerCancelled? || o.error.Closed?) }

  /** What a client does by itself, or learns from a returned message, gives only such outcomes. */
  lemma LocalChange(s: R.Rpc, a: R.Action, f: R.Fut)
    requires R.Inv(s) && R.Enabled(s, a) && (IsLocal(a) || a.Published? || a.Return?)
    requires f in R.Next(s, a).states && R.Next(s, a).states[f].Done?
    ensures (f in s.states && R.Next(s, a).states[f] == s.states[f]) || OfItself(R.Next(s, a).states[f].outcome)
  {
    match a {
      case Sweep(e, order) => RS.SweepOutcomes(s, order, R.Raised(e));
      case Return(_) => if f in s.states { RS.AnswersOnlyItsCall(s, a, f); }
      case _ =>
    }
  }

  lemma LocalStepExplains(services: set<Service>, died: set<Letter>, q: D.Name, s: R.Rpc, a: R.Action)
    requires R.Inv(s) && R.Enabled(s, a) && Explained(services, died, q, s)
    requires IsLocal(a) || a.Published? || a.Return?
    ensures Explained(services, died, q, R.Next(s, a))
  {
    var r := R.Next(s, a);
    StepKeepsIds(s, a);
    forall f | f in r.states && f in r.ids && r.states[f].Done? ensures KeptOrOwn(s, r, f) {
      LocalChange(s, a, f);
    }
    StillExplained(services, died, q, s, r);
  }

  predicate KeptOrOwn(s: R.Rpc, r: R.Rpc, f: R.Fut)
    requires f in r.states && f in r.ids && r.states[f].Done?
  {
    || (f in s.states && f in s.ids && s.ids[f] == r.ids[f] && r.states[f] == s.states[f])
    || OfItself(r.states[f].outcome)
  }

  lemma StillExplained(services: set<Service>, died: set<Letter>, q: D.Name, s: R.Rpc, r: R.Rpc)
    requires Explained(services, died, q, s)
    requires forall f :: f in r.states && f in r.ids && r.states[f].Done? ==> KeptOrOwn(s, r, f)
    ensures Explained(services, died, q, r)
  {
  }

  /** A reply to the future `fut` ends that future, if it waits, and no other. */
  lemma ReplyEndsOne(s: R.Rpc, fut: R.Fut, kind: R.Kind, body: R.Body, f: R.Fut)
    requires R.Inv(s) && fut in s.ids && f in s.states
    ensures var r := R.Next(s, R.Reply(Some(s.ids[fut]), kind, body));
      f in r.states && r.states[f] == if f == fut && s.states[f].Pending? then R.Done(R.OutcomeOf(kind, body)) else s.states[f]
  {
    RS.AnswersOnlyItsCall(s, R.Reply(Some(s.ids[fut]), kind, body), f);
    assert f in s.ids && (f != fut ==> s.ids[f] != s.ids[fut]);
  }

  /** A reply is explained by what the addressee's own letter met with. */
  lemma ReplyExplains(services: set<Service>, died: set<Letter>, q: D.Name, s: R.Rpc, fut: R.Fut, kind: R.Kind, body: R.Body)
    requires R.Inv(s) && Explained(services, died, q, s) && fut in s.ids
    requires Explains(services, died, Letter(q, fut, s.ids[fut]), R.OutcomeOf(kind, body))
    ensures Explained(services, died, q, R.Next(s, R.Reply(Some(s.ids[fut]), kind, body)))
  {
    var a := R.Reply(Some(s.ids[fut]), kind, body);
    var r := R.Next(s, a);
    StepKeepsIds(s, a);
    forall f | f in r.states ensures f in s.states && r.states[f] == if f == fut && s.states[f].Pending? then R.Done(R.OutcomeOf(kind, body)) else s.states[f] {
      assert f in s.states;
      ReplyEndsOne(s, fut, kind, body, f);
    }
  }

  // -------------------------------------------------------------------------------------
  // The network's step

  ghost predicate ClientsKept(clients: D.Net, clients': D.Net) {
    clients'.Keys == clients.Keys && forall q :: q in clients ==> IdsKept(clients[q].rpc, clients'[q].rpc)
  }

  lemma OneClientChanges(clients: D.Net, q: D.Name, r: R.Rpc)
    requires Clients(clients) && q in clients && R.Inv(r) && IdsKept(clients[q].rpc, r)
    ensures Clients(clients[q := clients[q].(rpc := r)]) && ClientsKept(clients, clients[q := clients[q].(rpc := r)])
  {
  }

  lemma ClientStep(clients: D.Net, q: D.Name, a: R.Action)
    requires Clients(clients)
    ensures Clients(WithStep(clients, q, a)) && ClientsKept(clients, WithStep(clients, q, a))
  {
    if q in clients && R.Enabled(clients[q].rpc, a) {
      StepKeepsIds(clients[q].rpc, a);
      OneClientChanges(clients, q, R.Next(clients[q].rpc, a));
    }
  }

  /** By its `From` header a dead letter reaches the client that wrote it, if that is still bound. */
  lemma DeadLetterIsAReply(clients: D.Net, l: Letter, added: D.Table, body: R.Body)
    ensures D.DeadLetter(clients, added["From" := l.from_], Some(l.id), body)
            == if l.from_ in clients && clients[l.from_].bound then WithStep(clients, l.from_, R.Reply(Some(l.id), R.CALL, body))
               else clients
  {
    var headers := added["From" := l.from_];
    D.RoutedByFrom(clients, headers);
    assert forall q :: q in D.RoutedTo(clients, headers) <==> q in clients && clients[q].bound && l.from_ == q;
  }

  lemma OneClientUnbinds(clients: D.Net, q: D.Name)
    requires Clients(clients) && q in clients
    ensures Clients(clients[q := clients[q].(bound := false)]) && ClientsKept(clients, clients[q := clients[q].(bound := false)])
  {
  }

  lemma ServedKeeps(n: Network, l: Letter, registered: bool, env: C.Environment, body: R.Body)
    ensures Served(n, l, registered, env, body).clients == n.clients
    ensures MailsOf(Call(l, registered, env).0, body) <= Served(n, l, registered, env, body).mails
    ensures n.services <= Served(n, l, registered, env, body).services && n.died <= Served(n, l, registered, env, body).died
  {
  }

  lemma DeadClientStep(clients: D.Net, l: Letter, added: D.Table, body: R.Body)
    requires Clients(clients)
    ensures var clients' := D.DeadLetter(clients, added["From" := l.from_], Some(l.id), body);
      Clients(clients') && ClientsKept(clients, clients')
  {
    DeadLetterIsAReply(clients, l, added, body);
    ClientStep(clients, l.from_, R.Reply(Some(l.id), R.CALL, body));
  }

  lemma ClientsStepKept(n: Network, a: Action)
    requires Clients(n.clients) && Enabled(n, a)
    ensures Clients(Next(n, a).clients) && ClientsKept(n.clients, Next(n, a).clients)
  {
    match a {
      case Local(q, step) => ClientStep(n.clients, q, step);
      case Publish(q, f) => ClientStep(n.clients, q, R.Published(f));
      case PublishCut(q, f) => ClientStep(n.clients, q, R.PublishFailed(f));
      case Unroutable(l) => ClientStep(n.clients, l.from_, R.Return(Some(l.id)));
      case DeliverDead(l, added) => DeadClientStep(n.clients, l, added, R.Decodes(R.Value(0)));
      case DeliverMail(m) => ClientStep(n.clients, m.to, R.Reply(m.correlation, m.kind, m.body));
      case Serve(l, registered, env, body) => ServedKeeps(n, l, registered, env, body);
      case Unbind(q) => OneClientUnbinds(n.clients, q);
      case Expire(_) =>
    }
  }

  lemma LettersStep(n: Network, a: Action)
    requires Letters(n) && Enabled(n, a) && ClientsKept(n.clients, Next(n, a).clients)
    ensures Letters(Next(n, a))
  {
    match a
    case Local(_, _) => case Publish(_, _) => case PublishCut(_, _) => case Serve(_, _, _, _) => case Unroutable(_) =>
    case Expire(_) => case DeliverDead(_, _) => case DeliverMail(_) => case Unbind(_) =>
  }

  lemma CallIsTruthful(l: Letter, registered: bool, env: C.Environment, body: R.Body)
    ensures forall m :: m in MailsOf(Call(l, registered, env).0, body) ==> Truthful(Service(l, m, Worked(env)))
  {
  }

  lemma ServedMails(n: Network, l: Letter, registered: bool, env: C.Environment, body: R.Body)
    requires Mails(n)
    ensures Mails(Served(n, l, registered, env, body))
  {
    var mails := MailsOf(Call(l, registered, env).0, body);
    var r := Served(n, l, registered, env, body);
    CallIsTruthful(l, registered, env, body);
    forall m | m in r.mails ensures exists s :: s in r.services && s.mail == m {
      if m in mails { assert Service(l, m, Worked(env)) in r.services; }
    }
  }

  lemma MailsStep(n: Network, a: Action)
    requires Mails(n) && Enabled(n, a)
    ensures Mails(Next(n, a))
  {
    match a
    case Serve(l, registered, env, body) => ServedMails(n, l, registered, env, body);
    case Local(_, _) => case Publish(_, _) => case PublishCut(_, _) => case Unroutable(_) =>
    case Expire(_) => case DeliverDead(_, _) => case DeliverMail(_) => case Unbind(_) =>
  }

  lemma MoreHistory(services: set<Service>, services': set<Service>, died: set<Letter>, died': set<Letter>, q: D.Name, s: R.Rpc)
    requires Explained(services, died, q, s) && services <= services' && died <= died'
    ensures Explained(services', died', q, s)
  {
  }

  lemma OutcomesAfter(n: Network, q: D.Name, a: R.Action)
    requires Outcomes(n)
    requires q in n.clients && R.Enabled(n.clients[q].rpc, a) ==> Explained(n.services, n.died, q, R.Next(n.clients[q].rpc, a))
    ensures Outcomes(n.(clients := WithStep(n.clients, q, a)))
  {
  }

  lemma UnbindOutcomes(n: Network, q: D.Name)
    requires Outcomes(n) && q in n.clients
    ensures Outcomes(Next(n, Unbind(q)))
  {
  }

  lemma DeadExplained(services: set<Service>, died: set<Letter>, clients: D.Net, l: Letter)
    requires Addressed(clients, l) && R.Inv(clients[l.from_].rpc) && l in died
    requires Explained(services, died, l.from_, clients[l.from_].rpc)
    ensures Explained(services, died, l.from_, R.Next(clients[l.from_].rpc, R.Reply(Some(l.id), R.CALL, R.Decodes(R.Value(0)))))
  {
    ReplyExplains(services, died, l.from_, clients[l.from_].rpc, l.fut, R.CALL, R.Decodes(R.Value(0)));
  }

  lemma DeadOutcomes(n: Network, l: Letter)
    requires Clients(n.clients) && Outcomes(n) && Addressed(n.clients, l) && l in n.died
    ensures Outcomes(n.(clients := WithStep(n.clients, l.from_, R.Reply(Some(l.id), R.CALL, R.Decodes(R.Value(0))))))
  {
    DeadExplained(n.services, n.died, n.clients, l);
    OutcomesAfter(n, l.from_, R.Reply(Some(l.id), R.CALL, R.Decodes(R.Value(0))));
  }

  lemma MailExplained(services: set<Service>, died: set<Letter>, clients: D.Net, s: Service)
    requires Truthful(s) && s in services && Addressed(clients, s.letter) && R.Inv(clients[s.mail.to].rpc)
    requires Explained(services, died, s.mail.to, clients[s.mail.to].rpc)
    ensures Explained(services, died, s.mail.to,
                      R.Next(clients[s.mail.to].rpc, R.Reply(s.mail.correlation, s.mail.kind, s.mail.body)))
  {
    ReplyExplains(services, died, s.mail.to, clients[s.mail.to].rpc, s.letter.fut, s.mail.kind, s.mail.body);
  }

  lemma MailOutcomes(n: Network, m: Mail)
    requires Clients(n.clients) && Letters(n) && Mails(n) && Outcomes(n) && m in n.mails
    ensures Outcomes(n.(clients := WithStep(n.clients, m.to, R.Reply(m.correlation, m.kind, m.body))))
  {
    var s :| s in n.services && s.mail == m;
    MailExplained(n.services, n.died, n.clients, s);
    OutcomesAfter(n, m.to, R.Reply(m.correlation, m.kind, m.body));
  }

  lemma LocalOutcomes(n: Network, q: D.Name, a: R.Action)
    requires Clients(n.clients) && Outcomes(n) && (IsLocal(a) || a.Published? || a.Return?)
    ensures Outcomes(n.(clients := WithStep(n.clients, q, a)))
  {
    if q in n.clients && R.Enabled(n.clients[q].rpc, a) {
      LocalStepExplains(n.services, n.died, q, n.clients[q].rpc, a);
    }
    OutcomesAfter(n, q, a);
  }

  lemma HistoryOutcomes(n: Network, r: Network)
    requires Outcomes(n) && r.clients == n.clients && n.services <= r.services && n.died <= r.died
    ensures Outcomes(r)
  {
    forall q | q in n.clients ensures Explained(r.services, r.died, q, r.clients[q].rpc) {
      MoreHistory(n.services, r.services, n.died, r.died, q, n.clients[q].rpc);
    }
  }

  lemma OutcomesStep(n: Network, a: Action)
    requires Inv(n) && Enabled(n, a)
    ensures Outcomes(Next(n, a))
  {
    match a
    case Local(q, step) => LocalOutcomes(n, q, step);
    case Publish(q, f) => LocalOutcomes(n, q, R.Published(f));
    case PublishCut(q, f) => LocalOutcomes(n, q, R.PublishFailed(f));
    case Unroutable(l) => LocalOutcomes(n, l.from_, R.Return(Some(l.id)));
    case DeliverMail(m) => MailOutcomes(n, m);
    case DeliverDead(l, added) =>
      DeadLetterIsAReply(n.clients, l, added, R.Decodes(R.Value(0)));
      DeadOutcomes(n, l);
    case Serve(l, registered, env, body) =>
      ServedKeeps(n, l, registered, env, body);
      HistoryOutcomes(n, Next(n, a));
    case Expire(l) => HistoryOutcomes(n, Next(n, a));
    case Unbind(q) => UnbindOutcomes(n, q);
  }

  lemma StepKeepsInv(n: Network, a: Action)
    requires Inv(n) && Enabled(n, a)
    ensures Inv(Next(n, a))
  {
    ClientsStepKept(n, a);
    LettersStep(n, a);
    MailsStep(n, a);
    OutcomesStep(n, a);
  }

  lemma {:induction false} RunKeepsInv(n: Network, acts: seq<Action>)
    requires Inv(n) && Legal(n, acts)
    ensures Inv(After(n, acts))
    decreases |acts|
  {
    if acts == [] {
    } else {
      StepKeepsInv(n, acts[0]);
      RunKeepsInv(Next(n, acts[0]), acts[1..]);
    }
  }

  // -------------------------------------------------------------------------------------
  // Where letters go

  /** A letter is in flight from its publishing on, whether its caller still waits or was cancelled. */
  lemma PublishedIsInFlight(n: Network, q: D.Name, f: R.Fut)
    requires Enabled(n, Publish(q, f)) || Enabled(n, PublishCut(q, f))
    ensures var l := Letter(q, f, n.clients[q].rpc.ids[f]);
      && (Enabled(n, Publish(q, f)) ==> l in Next(n, Publish(q, f)).requests)
      && (Enabled(n, PublishCut(q, f)) ==> l in Next(n, PublishCut(q, f)).requests)
  {
  }

  /** Served, a letter leaves its queue exactly if it is settled: for good if it is acked, to the
      dead letters if its reply could not be published; unsettled it stays, to be served again.
      Its reply is on its way exactly if it was published. */
  lemma ServedLetterGoes(n: Network, l: Letter, registered: bool, env: C.Environment, body: R.Body)
    requires l in n.requests && l !in n.dead && l.from_ != ""
    ensures var r := Next(n, Serve(l, registered, env, body));
      var settles := registered && !C.LosesChannel(env) && C.ReachesSettlement(env, C.Request(l.from_, Some(l.id)));
      && (l in r.requests <==> !settles)
      && (l in r.dead <==> settles && env.publish.Fails?)
      && (l in r.died <==> l in n.died || l in r.dead)
      && (forall k :: k != l ==> (k in r.requests <==> k in n.requests) && (k in r.dead <==> k in n.dead))
      && (exists m :: m in MailsOf(Call(l, registered, env).0, body))
         == (registered && C.ReachesSettlement(env, C.Request(l.from_, Some(l.id))) && env.publish.Works?)
  {
    CallEvents(l, registered, env);
    var events := Call(l, registered, env).0;
    if exists k :: 0 <= k < |events| && events[k].Reply? {
      var k :| 0 <= k < |events| && events[k].Reply?;
      assert MailOf(events[k], body) in MailsOf(events, body);
    }
  }

  lemma CallEvents(l: Letter, registered: bool, env: C.Environment)
    requires l.from_ != ""
    ensures var (events, w, _) := Call(l, registered, env);
      var reaches := registered && C.ReachesSettlement(env, C.Request(l.from_, Some(l.id)));
      var settles := reaches && !C.LosesChannel(env);
      && (w.channel.sent == [] <==> !settles)
      && (settles ==> |w.channel.sent| == 1 && (w.channel.sent[0].BasicReject? <==> env.publish.Fails?))
      && ((exists k :: 0 <= k < |events| && events[k].Reply?) <==> reaches && env.publish.Works?)
  {
    var events := Call(l, registered, env).0;
    if registered && C.ReachesSettlement(env, C.Request(l.from_, Some(l.id))) && env.publish.Works? {
      assert events[0].Reply?;
    }
  }

  /** An expired letter goes from its queue to the dead letters, a delivered one is gone from where
      it was, and an unroutable one tells its waiting caller so. */
  lemma OtherLettersGo(n: Network, l: Letter, added: D.Table, m: Mail)
    ensures l in n.requests ==> var r := Next(n, Expire(l)); l !in r.requests && l in r.dead && l in r.died
    ensures l in n.dead ==> l !in Next(n, DeliverDead(l, added)).dead
    ensures m in n.mails ==> m !in Next(n, DeliverMail(m)).mails
    ensures l in n.requests ==> var r := Next(n, Unroutable(l)); l !in r.requests && r.dead == n.dead
  {
  }

  lemma UnroutableTellsItsCaller(n: Network, l: Letter)
    requires Clients(n.clients) && l in n.requests && Addressed(n.clients, l) && R.IsPending(n.clients[l.from_].rpc, l.fut)
    ensures var clients := Next(n, Unroutable(l)).clients;
      && l.from_ in clients && l.fut in clients[l.from_].rpc.states
      && clients[l.from_].rpc.states[l.fut] == R.Done(R.Raised(R.MessageReturned))
  {
    RS.AnswersOnlyItsCall(n.clients[l.from_].rpc, R.Return(Some(l.id)), l.fut);
  }

  /** Once unbound, a client hears of no dead letter any more, its own included. */
  lemma UnboundHearsNoDead(n: Network, l: Letter, added: D.Table)
    requires l.from_ in n.clients && l in n.dead
    ensures var u := Next(n, Unbind(l.from_)); Enabled(u, DeliverDead(l, added)) && Next(u, DeliverDead(l, added)).clients == u.clients
  {
    DeadLetterIsAReply(Next(n, Unbind(l.from_)).clients, l, added, R.Decodes(R.Value(0)));
  }

  // -------------------------------------------------------------------------------------
  // Main results

  /** Over all runs of any number of clients, every outcome is explained by what happened to the
      call's own request: it ends in a result only if a service of that request decoded it, ran
      the method and serialised the result, all without error, and the reply decodes to this very
      result; in a remote error only if a service of it failed and replied this very exception, or
      this very value to be wrapped; in a timeout only if it expired or was rejected. */
  lemma CallsEndByTheirOwnRequest(start: Network, acts: seq<Action>, q: D.Name, f: R.Fut)
    requires IsStart(start) && Legal(start, acts)
    requires q in After(start, acts).clients && f in After(start, acts).clients[q].rpc.states
    requires After(start, acts).clients[q].rpc.states[f].Done?
    ensures var n := After(start, acts);
      var s := n.clients[q].rpc;
      f in s.ids && Explains(n.services, n.died, Letter(q, f, s.ids[f]), s.states[f].outcome)
  {
    RunKeepsInv(start, acts);
    assert Explained(After(start, acts).services, After(start, acts).died, q, After(start, acts).clients[q].rpc);
  }

  predicate IsOf(l: Letter, q: D.Name, s: R.Rpc, f: R.Fut) { f in s.ids && l == Letter(q, f, s.ids[f]) }

  lemma DeadLetterAtItsClient(clients: D.Net, l: Letter, added: D.Table, f: R.Fut)
    requires Addressed(clients, l) && R.Inv(clients[l.from_].rpc) && f in clients[l.from_].rpc.states
    ensures var clients' := D.DeadLetter(clients, added["From" := l.from_], Some(l.id), R.Decodes(R.Value(0)));
      var s := clients[l.from_].rpc;
      && l.from_ in clients' && f in clients'[l.from_].rpc.states
      && clients'[l.from_].rpc.states[f]
         == if f == l.fut && clients[l.from_].bound && s.states[f].Pending? then R.Done(R.Raised(R.TimedOut)) else s.states[f]
  {
    var body := R.Decodes(R.Value(0));
    DeadLetterIsAReply(clients, l, added, body);
    ReplyEndsOne(clients[l.from_].rpc, l.fut, R.CALL, body, f);
    assert R.OutcomeOf(R.CALL, body) == R.Raised(R.TimedOut);
  }

  lemma DeadLetterElsewhere(clients: D.Net, l: Letter, added: D.Table, q: D.Name)
    requires q in clients && q != l.from_
    ensures var clients' := D.DeadLetter(clients, added["From" := l.from_], Some(l.id), R.Decodes(R.Value(0)));
      q in clients' && clients'[q] == clients[q]
  {
    DeadLetterIsAReply(clients, l, added, R.Decodes(R.Value(0)));
  }

  /** A dead letter ends the call that published it, if that still waits and its client is
      bound, and touches no other future of any client. */
  lemma DeadLetterEndsOnlyItsOwn(start: Network, acts: seq<Action>, l: Letter, added: D.Table, q: D.Name, f: R.Fut)
    requires IsStart(start) && Legal(start, acts) && Enabled(After(start, acts), DeliverDead(l, added))
    requires q in After(start, acts).clients && f in After(start, acts).clients[q].rpc.states
    ensures var n := After(start, acts);
      var s, clients := n.clients[q].rpc, Next(n, DeliverDead(l, added)).clients;
      && q in clients && f in clients[q].rpc.states
      && clients[q].rpc.states[f]
         == if IsOf(l, q, s, f) && n.clients[q].bound && s.states[f].Pending? then R.Done(R.Raised(R.TimedOut)) else s.states[f]
  {
    RunKeepsInv(start, acts);
    var n := After(start, acts);
    assert Addressed(n.clients, l);
    if q == l.from_ {
      DeadLetterAtItsClient(n.clients, l, added, f);
      assert f in n.clients[q].rpc.ids;
    } else {
      DeadLetterElsewhere(n.clients, l, added, q);
    }
  }

  lemma MailDelivered(n: Network, l: Letter, m: Mail)
    requires Clients(n.clients) && Addressed(n.clients, l) && R.IsPending(n.clients[l.from_].rpc, l.fut)
    requires m in n.mails && m.to == l.from_ && m.correlation == Some(l.id)
    ensures var clients := Next(n, DeliverMail(m)).clients;
      && l.from_ in clients && l.fut in clients[l.from_].rpc.states
      && clients[l.from_].rpc.states[l.fut] == R.Done(R.OutcomeOf(m.kind, m.body))
  {
    ReplyEndsOne(n.clients[l.from_].rpc, l.fut, m.kind, m.body, l.fut);
  }

  /** Across the two sides: a waiting call that is served and gets its reply ends in a result
      if and only if decoding the request, the method, serialising its result and decoding the
      reply all worked; otherwise it ends in an error. */
  lemma ServedCallEndsInResultIff(n: Network, l: Letter, registered: bool, env: C.Environment, body: R.Body, m: Mail)
    requires Clients(n.clients) && l in n.requests && Addressed(n.clients, l)
    requires R.IsPending(n.clients[l.from_].rpc, l.fut)
    requires m in MailsOf(Call(l, registered, env).0, body)
    ensures var n1 := Next(n, Serve(l, registered, env, body));
      && Enabled(n1, DeliverMail(m))
      && var clients := Next(n1, DeliverMail(m)).clients;
      && l.from_ in clients && l.fut in clients[l.from_].rpc.states
      && clients[l.from_].rpc.states[l.fut].Done?
      && (clients[l.from_].rpc.states[l.fut].outcome.Result? <==> Worked(env) && body.Decodes?)
  {
    CallIsTruthful(l, registered, env, body);
    assert Truthful(Service(l, m, Worked(env))) && m.body == body;
    ServedKeeps(n, l, registered, env, body);
    MailDelivered(Served(n, l, registered, env, body), l, m);
  }
}
