/** Many RPC clients share the headers exchange `rpc.dlx`; a request that expired or was
    rejected comes back through it. */
module DeadLetters {
  import opened Options
  import opened RpcMachine
  import opened RpcSafety

  type Name = string
  type Table = map<string, string>

  /** An RPC client by the name of its result queue; `bound` until `close` unbinds it. */
  datatype Client = Client(rpc: Rpc, bound: bool)
  type Net = map<Name, Client>

  predicate Reserved(key: string) { |key| >= 2 && key[0] == 'x' && key[1] == '-' }

  /** Header matching of section 3.1.3.4: "any" needs one equal pair, "all" (the default) needs
      every pair; reserved keys never count. */
  predicate Matches(args: Table, headers: Table) {
    if "x-match" in args && args["x-match"] == "any" then
      exists k :: k in args && !Reserved(k) && k in headers && headers[k] == args[k]
    else
      forall k :: k in args && !Reserved(k) ==> k in headers && headers[k] == args[k]
  }

  /** What `initialize` binds the result queue with. */
  function ResultBinding(queue: Name): Table { map["From" := queue, "x-match" := "any"] }

  function RoutedTo(net: Net, headers: Table): set<Name> {
    set q | q in net && net[q].bound && Matches(ResultBinding(q), headers)
  }

  /** The dead request is delivered to every queue it is routed to.  It still has type CALL. */
  function DeadLetter(net: Net, headers: Table, correlation: Option<Cid>, body: Body): Net {
    map q | q in net ::
      if q in RoutedTo(net, headers) then net[q].(rpc := Next(net[q].rpc, Reply(correlation, CALL, body))) else net[q]
  }

  lemma OnlyFromCounts(queue: Name, headers: Table)
    ensures Matches(ResultBinding(queue), headers) <==> "From" in headers && headers["From"] == queue
  {
    var args := ResultBinding(queue);
    assert args["x-match"] == "any" && args["From"] == queue;
    assert Reserved("x-match") && !Reserved("From");
    assert forall k :: k in args ==> k == "From" || k == "x-match";
  }

  /** Routing looks at the `From` header alone, whatever else the broker added. */
  lemma RoutedByFrom(net: Net, headers: Table)
    ensures forall q :: q in RoutedTo(net, headers) <==> q in net && net[q].bound && "From" in headers && headers["From"] == q
  {
    forall q ensures Matches(ResultBinding(q), headers) <==> "From" in headers && headers["From"] == q {
      OnlyFromCounts(q, headers);
    }
  }

  /** A dead request fails exactly the call that sent it, with a timeout; every other call of
      the same client and every other client is as before. */
  lemma DeadLetterFindsItsCaller(net: Net, from_: Name, headers: Table, f: Fut, payload: Payload)
    requires from_ in net && net[from_].bound && Inv(net[from_].rpc)
    requires "From" in headers && headers["From"] == from_
    requires IsPending(net[from_].rpc, f)
    ensures var id := net[from_].rpc.ids[f];
      var net' := DeadLetter(net, headers, Some(id), Decodes(payload));
      && net'.Keys == net.Keys
      && (forall q :: q in net && q != from_ ==> net'[q] == net[q])
      && (forall g :: g in net[from_].rpc.states ==>
            g in net'[from_].rpc.states
            && net'[from_].rpc.states[g] == if g == f then Done(Raised(TimedOut)) else net[from_].rpc.states[g])
  {
    var s := net[from_].rpc;
    RoutedByFrom(net, headers);
    forall g | g in s.states
      ensures g in Next(s, Reply(Some(s.ids[f]), CALL, Decodes(payload))).states
      ensures Next(s, Reply(Some(s.ids[f]), CALL, Decodes(payload))).states[g]
              == if g == f then Done(Raised(TimedOut)) else s.states[g]
    {
      AnswersOnlyItsCall(s, Reply(Some(s.ids[f]), CALL, Decodes(payload)), g);
    }
  }

  /** Once `close` has unbound the queue, its dead requests reach nobody. */
  lemma DeadLetterOfClosedClient(net: Net, headers: Table, correlation: Option<Cid>, body: Body)
    requires "From" in headers && (headers["From"] in net ==> !net[headers["From"]].bound)
    ensures DeadLetter(net, headers, correlation, body) == net
  {
    RoutedByFrom(net, headers);
  }
}
