/** Poison messages end: a queue drained through `Master` with requeueing, a broker that marks
    what it requeues as redelivered, and handlers that may fail every time. */
module Poison {
  import opened Options
  import opened Settlement

  type Job = nat

  datatype Ready = Ready(job: Job, redelivered: bool)
  datatype Delivery = Delivery(tag: nat, job: Job, redelivered: bool)

  /** `unacked` holds the deliveries being handled, several at a time; `settled` what is over. */
  datatype Queue = Queue(ready: seq<Ready>, unacked: seq<Delivery>, nextTag: nat, deliveries: nat, settled: multiset<Job>)

  datatype Action =
    | Deliver
    | Handle(index: nat, steps: seq<HandlerStep>, end: Outcome, position: nat)

  /** A settlement that asks for no requeue, and covers no delivery but its own. */
  predicate ForItself(op: Op) {
    match op case Ack(multiple) => !multiple case Reject(r) => !r case Nack(multiple, r) => !multiple && !r
  }

  /** A handler that never asks for a requeue itself, and none of whose settlements is cut. */
  predicate Modest(steps: seq<HandlerStep>, end: Outcome) {
    && (forall s :: s in steps ==> s.Call? && !s.cut && ForItself(s.op))
    && end != Raised(RejectAsked(true)) && end != Raised(NackAsked(true))
  }

  predicate Requeues(f: Frame) { match f case BasicAck(_, _) => false case BasicReject(_, r) => r case BasicNack(_, _, r) => r }

  /** The frames `Master` sends for a delivery. */
  function Sent(d: Delivery, supportsNack: bool, steps: seq<HandlerStep>, end: Outcome): seq<Frame> {
    var w := World(Delivered(false, Some(d.tag), d.redelivered), Channel(false, supportsNack, []));
    OnMessage(w, true, true, steps, end, Cuts(false, false)).0.channel.sent
  }

  predicate Enabled(q: Queue, a: Action) {
    match a
    case Deliver => q.ready != []
    case Handle(i, steps, end, position) => i < |q.unacked| && Modest(steps, end) && position <= |q.ready|
  }

  function Without(s: seq<Delivery>, i: nat): seq<Delivery>
    requires i < |s|
  {
    s[..i] + s[i + 1..]
  }

  /** The broker settles the delivery, or requeues it (in any position) marked redelivered. */
  function Next(q: Queue, a: Action, supportsNack: bool): Queue
    requires Enabled(q, a)
  {
    match a
    case Deliver =>
      var m := q.ready[0];
      q.(ready := q.ready[1..], unacked := q.unacked + [Delivery(q.nextTag, m.job, m.redelivered)],
         nextTag := q.nextTag + 1, deliveries := q.deliveries + 1)
    case Handle(i, steps, end, position) =>
      var d := q.unacked[i];
      var sent := Sent(d, supportsNack, steps, end);
      if sent == [] then q
      else if Requeues(sent[0]) then
        q.(ready := q.ready[..position] + [Ready(d.job, true)] + q.ready[position..], unacked := Without(q.unacked, i))
      else q.(unacked := Without(q.unacked, i), settled := q.settled + multiset{d.job})
  }

  predicate Legal(q: Queue, acts: seq<Action>, supportsNack: bool)
    decreases |acts|
  {
    acts == [] || (Enabled(q, acts[0]) && Legal(Next(q, acts[0], supportsNack), acts[1..], supportsNack))
  }

  function After(q: Queue, acts: seq<Action>, supportsNack: bool): Queue
    requires Legal(q, acts, supportsNack)
    decreases |acts|
  {
    if acts == [] then q else After(Next(q, acts[0], supportsNack), acts[1..], supportsNack)
  }

  function Fresh(n: nat): seq<Ready> { seq(n, (i: int) requires 0 <= i => Ready(i, false)) }

  function Start(n: nat): Queue { Queue(Fresh(n), [], 1, 0, multiset{}) }

  // -------------------------------------------------------------------------------------
  // Deliveries still to come

  function ReadyWeight(s: seq<Ready>): nat {
    if s == [] then 0 else (if s[0].redelivered then 1 else 2) + ReadyWeight(s[1..])
  }

  function UnackedWeight(s: seq<Delivery>): nat {
    if s == [] then 0 else (if s[0].redelivered then 0 else 1) + UnackedWeight(s[1..])
  }

  function ReadyJobs(s: seq<Ready>): multiset<Job> { if s == [] then multiset{} else multiset{s[0].job} + ReadyJobs(s[1..]) }

  function UnackedJobs(s: seq<Delivery>): multiset<Job> {
    if s == [] then multiset{} else multiset{s[0].job} + UnackedJobs(s[1..])
  }

  function Jobs(q: Queue): multiset<Job> { ReadyJobs(q.ready) + UnackedJobs(q.unacked) + q.settled }

  function Weight(q: Queue): nat { ReadyWeight(q.ready) + UnackedWeight(q.unacked) }

  lemma {:induction false} ReadyWeightSplit(s: seq<Ready>, t: seq<Ready>)
    ensures ReadyWeight(s + t) == ReadyWeight(s) + ReadyWeight(t)
  {
    if s == [] {
      assert s + t == t;
    } else {
      ReadyWeightSplit(s[1..], t);
      assert (s + t)[1..] == s[1..] + t;
    }
  }

  lemma {:induction false} ReadyJobsSplit(s: seq<Ready>, t: seq<Ready>)
    ensures ReadyJobs(s + t) == ReadyJobs(s) + ReadyJobs(t)
  {
    if s == [] {
      assert s + t == t;
    } else {
      var rest := s[1..] + t;
      assert (s + t)[1..] == rest && (s + t)[0] == s[0];
      ReadyJobsSplit(s[1..], t);
      assert ReadyJobs(s + t) == multiset{s[0].job} + ReadyJobs(rest);
    }
  }

  lemma {:induction false} UnackedWeightSplit(s: seq<Delivery>, t: seq<Delivery>)
    ensures UnackedWeight(s + t) == UnackedWeight(s) + UnackedWeight(t)
  {
    if s == [] {
      assert s + t == t;
    } else {
      UnackedWeightSplit(s[1..], t);
      assert (s + t)[1..] == s[1..] + t;
    }
  }

  lemma {:induction false} UnackedJobsSplit(s: seq<Delivery>, t: seq<Delivery>)
    ensures UnackedJobs(s + t) == UnackedJobs(s) + UnackedJobs(t)
  {
    if s == [] {
      assert s + t == t;
    } else {
      var rest := s[1..] + t;
      assert (s + t)[1..] == rest && (s + t)[0] == s[0];
      UnackedJobsSplit(s[1..], t);
      assert UnackedJobs(s + t) == multiset{s[0].job} + UnackedJobs(rest);
    }
  }

  lemma TakeOut(s: seq<Delivery>, i: nat)
    requires i < |s|
    ensures UnackedWeight(s) == UnackedWeight(Without(s, i)) + (if s[i].redelivered then 0 else 1)
    ensures UnackedJobs(s) == UnackedJobs(Without(s, i)) + multiset{s[i].job}
  {
    var front, rest := s[..i], s[i..];
    assert s == front + rest && rest[1..] == s[i + 1..];
    UnackedWeightSplit(front, rest);
    UnackedWeightSplit(front, rest[1..]);
    UnackedJobsSplit(front, rest);
    UnackedJobsSplit(front, rest[1..]);
  }

  lemma PutIn(s: seq<Ready>, position: nat, m: Ready)
    requires position <= |s|
    ensures var t := s[..position] + [m] + s[position..];
      && ReadyWeight(t) == ReadyWeight(s) + (if m.redelivered then 1 else 2)
      && ReadyJobs(t) == ReadyJobs(s) + multiset{m.job}
  {
    var front, rest := s[..position], s[position..];
    var back := [m] + rest;
    assert s == front + rest && front + [m] + rest == front + back && back[1..] == rest;
    ReadyWeightSplit(front, rest);
    ReadyWeightSplit(front, back);
    ReadyJobsSplit(front, rest);
    ReadyJobsSplit(front, back);
  }

  lemma {:induction false} ModestFrames(d: Delivery, supportsNack: bool, steps: seq<HandlerStep>, end: Outcome)
    requires Modest(steps, end)
    ensures var frames := Frames(d.tag, d.redelivered, supportsNack, true, true, steps, end, false);
      |frames| == 1 && frames[0].tag == d.tag && (Requeues(frames[0]) ==> !d.redelivered)
    decreases |steps|
  {
    if steps == [] {
    } else {
      assert steps[0] in steps;
      ModestFrames(d, supportsNack, steps[1..], end);
    }
  }

  /** `Master` sends one frame, and asks for a requeue only on the first delivery. */
  lemma RequeuesOnce(d: Delivery, supportsNack: bool, steps: seq<HandlerStep>, end: Outcome)
    requires Modest(steps, end) && d.tag > 0
    ensures |Sent(d, supportsNack, steps, end)| == 1
    ensures Requeues(Sent(d, supportsNack, steps, end)[0]) ==> !d.redelivered
  {
    var w := World(Delivered(false, Some(d.tag), d.redelivered), Channel(false, supportsNack, []));
    MasterSends(w, true, true, steps, end, Cuts(false, false));
    ModestFrames(d, supportsNack, steps, end);
  }

  predicate Tagged(q: Queue) { q.nextTag > 0 && forall d :: d in q.unacked ==> d.tag > 0 }

  lemma DeliverWeighs(q: Queue, supportsNack: bool)
    requires q.ready != []
    ensures var q' := Next(q, Deliver, supportsNack);
      && q'.deliveries + Weight(q') == q.deliveries + Weight(q)
      && 2 * Weight(q') + |q'.unacked| < 2 * Weight(q) + |q.unacked|
      && Jobs(q') == Jobs(q)
  {
    var d := Delivery(q.nextTag, q.ready[0].job, q.ready[0].redelivered);
    UnackedWeightSplit(q.unacked, [d]);
    UnackedJobsSplit(q.unacked, [d]);
    assert [d][1..] == [];
    assert UnackedJobs([d]) == multiset{d.job};
  }

  lemma HandleWeighs(q: Queue, a: Action, supportsNack: bool)
    requires a.Handle? && Tagged(q) && Enabled(q, a)
    ensures var q' := Next(q, a, supportsNack);
      && q'.deliveries == q.deliveries && Weight(q') <= Weight(q)
      && |q'.unacked| < |q.unacked|
      && Jobs(q') == Jobs(q)
  {
    var d := q.unacked[a.index];
    assert d in q.unacked;
    RequeuesOnce(d, supportsNack, a.steps, a.end);
    TakeOut(q.unacked, a.index);
    PutIn(q.ready, a.position, Ready(d.job, true));
  }

  lemma StepWeighs(q: Queue, a: Action, supportsNack: bool)
    requires Tagged(q) && Enabled(q, a)
    ensures var q' := Next(q, a, supportsNack);
      && Tagged(q')
      && q'.deliveries + Weight(q') <= q.deliveries + Weight(q)
      && 2 * Weight(q') + |q'.unacked| < 2 * Weight(q) + |q.unacked|
      && Jobs(q') == Jobs(q)
  {
    if a.Deliver? { DeliverWeighs(q, supportsNack); } else { HandleWeighs(q, a, supportsNack); }
  }

  lemma {:induction false} RunWeighs(q: Queue, acts: seq<Action>, supportsNack: bool)
    requires Tagged(q) && Legal(q, acts, supportsNack)
    ensures var q' := After(q, acts, supportsNack);
      && q'.deliveries + Weight(q') <= q.deliveries + Weight(q)
      && |acts| + 2 * Weight(q') + |q'.unacked| <= 2 * Weight(q) + |q.unacked|
      && Jobs(q') == Jobs(q)
    decreases |acts|
  {
    if acts == [] {
    } else {
      StepWeighs(q, acts[0], supportsNack);
      RunWeighs(Next(q, acts[0], supportsNack), acts[1..], supportsNack);
    }
  }

  lemma {:induction false} FreshWeight(s: seq<Ready>)
    requires forall m :: m in s ==> !m.redelivered
    ensures ReadyWeight(s) == 2 * |s|
  {
    if s == [] {
    } else {
      assert s[0] in s;
      FreshWeight(s[1..]);
    }
  }

  /** Draining n fresh messages takes at most 2n deliveries and 4n steps, whatever the
      handlers do and wherever the broker puts what it takes back; a drain that can go no
      further has settled every message exactly once. */
  lemma PoisonMessagesEnd(n: nat, acts: seq<Action>, supportsNack: bool)
    requires Legal(Start(n), acts, supportsNack)
    ensures var q := After(Start(n), acts, supportsNack);
      && q.deliveries <= 2 * n
      && |acts| <= 4 * n
      && ((forall a :: !Enabled(q, a)) ==> q.ready == [] && q.unacked == [] && q.settled == ReadyJobs(Fresh(n)))
  {
    FreshWeight(Fresh(n));
    RunWeighs(Start(n), acts, supportsNack);
    StuckIsDone(After(Start(n), acts, supportsNack));
    assert Jobs(Start(n)) == ReadyJobs(Fresh(n));
  }

  lemma StuckIsDone(q: Queue)
    ensures (forall a :: !Enabled(q, a)) ==> q.ready == [] && q.unacked == [] && Jobs(q) == q.settled
  {
    if forall a :: !Enabled(q, a) {
      assert !Enabled(q, Deliver);
      assert !Enabled(q, Handle(0, [], Returned, 0));
    }
  }

  /** No two deliveries being handled carry the same tag, and the next one will carry a new one. */
  ghost predicate TagsDiffer(q: Queue) {
    && (forall i :: 0 <= i < |q.unacked| ==> q.unacked[i].tag < q.nextTag)
    && (forall i, j :: 0 <= i < j < |q.unacked| ==> q.unacked[i].tag != q.unacked[j].tag)
  }

  lemma {:induction false} TagsKeepDiffering(q: Queue, acts: seq<Action>, supportsNack: bool)
    requires TagsDiffer(q) && Legal(q, acts, supportsNack)
    ensures TagsDiffer(After(q, acts, supportsNack))
    ensures After(q, acts, supportsNack).nextTag == q.nextTag + After(q, acts, supportsNack).deliveries - q.deliveries
    decreases |acts|
  {
    if acts == [] {
    } else {
      TagsDifferStep(q, acts[0], supportsNack);
      TagsKeepDiffering(Next(q, acts[0], supportsNack), acts[1..], supportsNack);
    }
  }

  lemma TagsDifferStep(q: Queue, a: Action, supportsNack: bool)
    requires TagsDiffer(q) && Enabled(q, a)
    ensures var r := Next(q, a, supportsNack); TagsDiffer(r) && r.nextTag - q.nextTag == r.deliveries - q.deliveries
  {
  }
}
