// Runs of the watch service: appends, notifications and subscribers' actions in
// any order. An append commits first and notifies later, so other appends can
// overtake it; a heartbeat reads the newest seq and notifies later.
module WatchRuns {
  import opened Domain
  import opened WatchLog
  import opened Watch

  datatype State = State(
    log: seq<Event>,
    inflight: seq<Event>,     // made but not yet notified, oldest first
    hub: Hub,
    taken: seq<seq<Event>>)   // what each subscriber got from its queue

  datatype Action =
    | Append(e: Event)        // its seq is given by the log
    | Peek(e: Event)          // notify_ephemeral: its seq is the newest one
    | Notify(k: nat)          // of the k-th event in flight
    | Subscribe(o: Options)
    | Unsubscribe(q: QueueId)
    | Get(q: QueueId)

  const INITIAL := State([], [], Hub([], []), [])

  ghost predicate Good(s: State) {
    && Wired(s.hub.subs, s.hub.queues) && |s.taken| == |s.hub.queues|
    && forall q :: 0 <= q < |s.hub.queues| ==> |s.hub.queues[q]| <= CAPACITY
  }

  function EventOf(s: State, a: Action): Option<Event> {
    if a.Notify? && a.k < |s.inflight| then Some(s.inflight[a.k]) else None
  }

  // A step that is not enabled leaves the state alone.
  ghost function Apply(s: State, a: Action): (r: State)
    requires Good(s)
    ensures Good(r)
  {
    match a
    case Append(e) =>
      var row := e.(at := Latest(s.log) + 1);
      s.(log := s.log + [row], inflight := s.inflight + [row])
    case Peek(e) => s.(inflight := s.inflight + [e.(at := Latest(s.log))])
    case Notify(k) =>
      if k < |s.inflight| then
        NotifiedGood(s, s.inflight[k]);
        s.(inflight := s.inflight[..k] + s.inflight[k + 1..], hub := Notified(s.hub, s.inflight[k]))
      else s
    case Subscribe(o) =>
      s.(hub := Hub(s.hub.subs + [Subscriber(|s.hub.queues|, o)], s.hub.queues + [[]]), taken := s.taken + [[]])
    case Unsubscribe(q) =>
      MinusWired(s.hub.subs, {q}, s.hub.queues);
      s.(hub := s.hub.(subs := Minus(s.hub.subs, {q})))
    case Get(q) =>
      if q < |s.hub.queues| && s.hub.queues[q] != [] then
        s.(hub := s.hub.(queues := s.hub.queues[q := s.hub.queues[q][1..]]),
           taken := s.taken[q := s.taken[q] + [s.hub.queues[q][0]]])
      else s
  }

  lemma NotifiedGood(s: State, e: Event)
    requires Good(s)
    ensures Good(s.(hub := Notified(s.hub, e)))
  {
    var h := s.hub;
    MinusWired(h.subs, QueuesOf(Dead(h.queues, h.subs, e)), h.queues);
    forall q: nat | q < |h.queues|
      ensures |Notified(h, e).queues[q]| <= CAPACITY
    {
      DeliveredAt(h.queues, h.subs, e, q);
    }
  }

  // A run: each action with the state it was taken in, and the state reached.
  datatype Moment = Moment(s: State, a: Action)

  ghost predicate IsRun(run: seq<Moment>, end: State)
    ensures IsRun(run, end) ==> Good(end)
  {
    if run == [] then end == INITIAL
    else
      var last := run[|run| - 1];
      IsRun(run[..|run| - 1], last.s) && end == Apply(last.s, last.a)
  }

  // Everything ever put on queue q.
  ghost function Ever(s: State, q: QueueId): seq<Event>
    requires q < |s.taken| == |s.hub.queues|
  {
    s.taken[q] + s.hub.queues[q]
  }

  // ---- one step and one queue ----------------------------------------------------------

  // What ends the subscription of queue q to `o`: leaving, or a matching event
  // while the queue is full.
  ghost predicate Cuts(s: State, a: Action, q: QueueId, o: Options)
  {
    || a == Unsubscribe(q)
    || (Hit(s, a, o).Some? && q < |s.hub.queues| && |s.hub.queues[q]| == CAPACITY)
  }

  // The event the action offers to a subscriber with these options.
  function Hit(s: State, a: Action, o: Options): Option<Event> {
    if EventOf(s, a).Some? && Matches(o, EventOf(s, a).value) then EventOf(s, a) else None
  }

  function With(es: seq<Event>, e: Option<Event>): seq<Event> {
    if e.Some? then es + [e.value] else es
  }

  // A listed queue gets what the action notifies, or its subscription ends.
  ghost predicate Stepped(s: State, a: Action, q: QueueId, r: State)
    requires q < |s.taken| == |s.hub.queues| && q < |r.taken| == |r.hub.queues|
  {
    var seat := Seat(s.hub.subs, q);
    var kept := seat.Some? && !Cuts(s, a, q, seat.value);
    && Seat(r.hub.subs, q) == (if kept then seat else None)
    && Ever(r, q) == if kept then With(Ever(s, q), Hit(s, a, seat.value)) else Ever(s, q)
  }

  lemma NotifyStepped(s: State, k: nat, q: QueueId, r: State)
    requires Good(s) && q < |s.taken| && k < |s.inflight|
    requires r.hub == Notified(s.hub, s.inflight[k]) && r.taken == s.taken
    ensures Stepped(s, Notify(k), q, r)
  {
    NotifiedAt(s.hub, s.inflight[k], q);
    Regroup(s.taken[q], s.hub.queues[q], s.inflight[k]);
  }

  lemma Regroup(a: seq<Event>, b: seq<Event>, e: Event)
    ensures a + (b + [e]) == a + b + [e]
  {
  }

  // An action that notifies nothing and leaves the queue and its seat alone.
  lemma QuietStepped(s: State, a: Action, q: QueueId, r: State)
    requires q < |s.taken| == |s.hub.queues| && q < |r.taken| == |r.hub.queues|
    requires EventOf(s, a) == None && a != Unsubscribe(q)
    requires Seat(r.hub.subs, q) == Seat(s.hub.subs, q) && Ever(r, q) == Ever(s, q)
    ensures Stepped(s, a, q, r)
  {
  }

  lemma SubscribeStepped(s: State, o: Options, q: QueueId, r: State)
    requires q < |s.taken| == |s.hub.queues|
    requires r.hub == Hub(s.hub.subs + [Subscriber(|s.hub.queues|, o)], s.hub.queues + [[]]) && r.taken == s.taken + [[]]
    ensures Stepped(s, Subscribe(o), q, r)
  {
    assert r.hub.subs[..|s.hub.subs|] == s.hub.subs;
    QuietStepped(s, Subscribe(o), q, r);
  }

  lemma GetStepped(s: State, p: QueueId, q: QueueId, r: State)
    requires q < |s.taken| == |s.hub.queues| && p < |s.hub.queues| && s.hub.queues[p] != []
    requires r.hub == Hub(s.hub.subs, s.hub.queues[p := s.hub.queues[p][1..]])
    requires r.taken == s.taken[p := s.taken[p] + [s.hub.queues[p][0]]]
    ensures Stepped(s, Get(p), q, r)
  {
    assert s.taken[p] + [s.hub.queues[p][0]] + s.hub.queues[p][1..] == s.taken[p] + s.hub.queues[p];
    QuietStepped(s, Get(p), q, r);
  }

  lemma StepAt(s: State, a: Action, q: QueueId)
    requires Good(s) && q < |s.taken|
    ensures q < |Apply(s, a).taken| && Stepped(s, a, q, Apply(s, a))
  {
    var r := Apply(s, a);
    match a {
      case Notify(k) =>
        if k < |s.inflight| { NotifyStepped(s, k, q, r); } else { QuietStepped(s, a, q, r); }
      case Subscribe(o) => SubscribeStepped(s, o, q, r);
      case Unsubscribe(p) =>
        SeatMinus(s.hub.subs, {p}, q);
        if p != q { QuietStepped(s, a, q, r); }
      case Get(p) =>
        if p < |s.hub.queues| && s.hub.queues[p] != [] { GetStepped(s, p, q, r); } else { QuietStepped(s, a, q, r); }
      case _ => QuietStepped(s, a, q, r);
    }
  }

  // ---- exact delivery -------------------------------------------------------------------

  // The events matching `o` notified by the actions from number `from` on.
  ghost function Heard(run: seq<Moment>, from: nat, o: Options): seq<Event> {
    if |run| <= from then []
    else With(Heard(run[..|run| - 1], from, o), Hit(run[|run| - 1].s, run[|run| - 1].a, o))
  }

  // None of those actions ends the subscription.
  ghost predicate Uncut(run: seq<Moment>, from: nat, q: QueueId, o: Options) {
    |run| > from ==> Uncut(run[..|run| - 1], from, q, o) && !Cuts(run[|run| - 1].s, run[|run| - 1].a, q, o)
  }

  // Queue q was given the matching events of the actions from..c, and action c,
  // if there is one, is the first to end the subscription.
  ghost predicate Delivery(run: seq<Moment>, end: State, from: nat, q: QueueId, o: Options, c: nat) {
    && from <= c <= |run| && q < |end.taken| == |end.hub.queues|
    && Ever(end, q) == Heard(run[..c], from, o)
    && Uncut(run[..c], from, q, o)
    && (c < |run| ==> Cuts(run[c].s, run[c].a, q, o))
    && Seat(end.hub.subs, q) == (if c == |run| then Some(o) else None)
  }

  lemma DeliveryGoesOn(run: seq<Moment>, end: State, from: nat, q: QueueId, o: Options, c: nat)
    requires run != [] && q < |end.taken| == |end.hub.queues|
    requires var m := run[|run| - 1];
      Delivery(run[..|run| - 1], m.s, from, q, o, c) && Stepped(m.s, m.a, q, end)
    ensures var m := run[|run| - 1];
      Delivery(run, end, from, q, o, if c == |run| - 1 && !Cuts(m.s, m.a, q, o) then |run| else c)
  {
    var front := run[..|run| - 1];
    assert front[..|front|] == front && run[..|run|] == run && run[..c] == front[..c];
  }

  lemma DeliveryNext(run: seq<Moment>, end: State, from: nat, q: QueueId, o: Options, c: nat) returns (c': nat)
    requires run != []
    requires var m := run[|run| - 1];
      Good(m.s) && Delivery(run[..|run| - 1], m.s, from, q, o, c) && end == Apply(m.s, m.a)
    ensures Delivery(run, end, from, q, o, c')
  {
    var m := run[|run| - 1];
    StepAt(m.s, m.a, q);
    DeliveryGoesOn(run, end, from, q, o, c);
    c' := if c == |run| - 1 && !Cuts(m.s, m.a, q, o) then |run| else c;
  }

  lemma DeliveryStarts(run: seq<Moment>, s: State, o: Options)
    requires run != [] && Good(s)
    ensures Delivery(run, Apply(s, Subscribe(o)), |run|, |s.taken|, o, |run|)
  {
  }

  // What was ever queued for a subscription: the matching events notified since,
  // up to its first overflow or its unsubscription (at action c), in order.
  lemma {:induction false} ExactDelivery(run: seq<Moment>, end: State, i: nat, o: Options) returns (c: nat)
    requires IsRun(run, end) && i < |run| && run[i].a == Subscribe(o)
    ensures Delivery(run, end, i + 1, |run[i].s.taken|, o, c)
    decreases |run|
  {
    var n := |run| - 1;
    var front, m := run[..n], run[n];
    if i == n {
      c := |run|;
      DeliveryStarts(run, m.s, o);
    } else {
      c := ExactDelivery(front, m.s, i, o);
      c := DeliveryNext(run, end, i + 1, |run[i].s.taken|, o, c);
    }
  }

  lemma EverStep(s: State, a: Action, q: QueueId)
    requires Good(s) && q < |s.taken|
    ensures q < |Apply(s, a).taken|
    ensures Ever(Apply(s, a), q) == Ever(s, q) ||
            (EventOf(s, a).Some? && Ever(Apply(s, a), q) == Ever(s, q) + [EventOf(s, a).value])
  {
    StepAt(s, a, q);
    assert Ever(s, q) + [] == Ever(s, q);
  }

  lemma FreshQueue(s: State, a: Action, q: QueueId)
    requires Good(s) && |s.taken| <= q < |Apply(s, a).taken|
    ensures Ever(Apply(s, a), q) == []
  {
  }
}
