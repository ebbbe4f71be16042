// WatchService: live subscribers with bounded queues over the durable log.
module Watch {
  import opened Domain
  import opened WatchLog

  type QueueId = nat

  datatype Options = Options(resourceType: Option<Token>, resourceTypes: seq<Token>, cookbook: Option<Token>,
                             prefixes: seq<string>)

  // A queue is named by its place among all queues ever made.
  datatype Subscriber = Subscriber(queue: QueueId, options: Options)

  datatype Hub = Hub(subs: seq<Subscriber>, queues: seq<seq<Event>>)

  predicate ChannelMatches(pattern: string, channel: string) {
    && channel != ""
    && if pattern != "" && pattern[|pattern| - 1] == '*' then pattern[..|pattern| - 1] <= channel else channel == pattern
  }

  predicate Matches(o: Options, e: Event) {
    && (o.resourceType.Some? ==> e.resourceType == o.resourceType.value)
    && (o.resourceTypes != [] ==> e.resourceType in o.resourceTypes)
    && (o.cookbook.Some? ==> e.cookbook == o.cookbook)
    && (o.prefixes != [] ==> exists p :: p in o.prefixes && ChannelMatches(p, e.channel))
  }

  // A subscriber gets what passes all the filters it has set. A prefix with a
  // trailing star stands for everything that starts with the rest of it, any other
  // for itself, and an event without a channel passes none.
  lemma MatchesMeans(o: Options, e: Event)
    ensures Matches(o, e) <==>
      && (o.resourceType == None || o.resourceType == Some(e.resourceType))
      && (o.resourceTypes == [] || e.resourceType in o.resourceTypes)
      && (o.cookbook == None || o.cookbook == e.cookbook)
      && (o.prefixes == [] ||
           (e.channel != "" &&
            exists p :: p in o.prefixes && (p == e.channel || exists stem: string :: p == stem + "*" && stem <= e.channel)))
  {
    forall p: string
      ensures ChannelMatches(p, e.channel) <==>
        e.channel != "" && (p == e.channel || exists stem: string :: p == stem + "*" && stem <= e.channel)
    {
      ChannelMeans(p, e.channel);
    }
  }

  lemma ChannelMeans(p: string, channel: string)
    ensures ChannelMatches(p, channel) <==>
      channel != "" && (p == channel || exists stem: string :: p == stem + "*" && stem <= channel)
  {
    forall stem: string
      ensures (stem + "*")[|stem + "*"| - 1] == '*'
    {
    }
    if p != "" && p[|p| - 1] == '*' {
      var stem := p[..|p| - 1];
      assert p == stem + "*";
      assert forall x: string :: p == x + "*" ==> x == stem by {
        forall x: string | p == x + "*" ensures x == stem { assert (x + "*")[..|x|] == x; }
      }
      if p == channel { assert stem <= channel; }
    }
  }

  // ---- one notification -------------------------------------------------------------

  predicate Full(queues: seq<seq<Event>>, sub: Subscriber, e: Event)
    requires sub.queue < |queues|
  {
    Matches(sub.options, e) && |queues[sub.queue]| >= CAPACITY
  }

  // put_nowait
  function Offered(queues: seq<seq<Event>>, sub: Subscriber, e: Event): (r: seq<seq<Event>>)
    requires sub.queue < |queues|
    ensures |r| == |queues|
  {
    if Matches(sub.options, e) && |queues[sub.queue]| < CAPACITY
    then queues[sub.queue := queues[sub.queue] + [e]]
    else queues
  }

  ghost predicate Wired(subs: seq<Subscriber>, queues: seq<seq<Event>>) {
    && (forall i :: 0 <= i < |subs| ==> subs[i].queue < |queues|)
    && (forall i, j :: 0 <= i < j < |subs| ==> subs[i].queue != subs[j].queue)
  }

  function Delivered(queues: seq<seq<Event>>, subs: seq<Subscriber>, e: Event): (r: seq<seq<Event>>)
    requires forall i :: 0 <= i < |subs| ==> subs[i].queue < |queues|
    ensures |r| == |queues|
  {
    if subs == [] then queues
    else Offered(Delivered(queues, subs[..|subs| - 1], e), subs[|subs| - 1], e)
  }

  function Minus(subs: seq<Subscriber>, gone: set<QueueId>): seq<Subscriber> {
    if subs == [] then []
    else Minus(subs[..|subs| - 1], gone) + if subs[|subs| - 1].queue in gone then [] else [subs[|subs| - 1]]
  }

  // The subscribers whose queue is full, in list order.
  function Dead(queues: seq<seq<Event>>, subs: seq<Subscriber>, e: Event): seq<Subscriber>
    requires forall i :: 0 <= i < |subs| ==> subs[i].queue < |queues|
  {
    if subs == [] then []
    else
      var last := subs[|subs| - 1];
      Dead(queues, subs[..|subs| - 1], e) + if Full(queues, last, e) then [last] else []
  }

  function QueuesOf(subs: seq<Subscriber>): set<QueueId> {
    if subs == [] then {} else QueuesOf(subs[..|subs| - 1]) + {subs[|subs| - 1].queue}
  }

  function Notified(h: Hub, e: Event): (r: Hub)
    requires forall i :: 0 <= i < |h.subs| ==> h.subs[i].queue < |h.queues|
    ensures |r.queues| == |h.queues|
  {
    Hub(Minus(h.subs, QueuesOf(Dead(h.queues, h.subs, e))), Delivered(h.queues, h.subs, e))
  }

  // ---- what a notification means for one queue ------------------------------------------

  // What the subscriber of queue q asked for, if it is still listed.
  function Seat(subs: seq<Subscriber>, q: QueueId): Option<Options> {
    if subs == [] then None
    else if subs[|subs| - 1].queue == q then Some(subs[|subs| - 1].options)
    else Seat(subs[..|subs| - 1], q)
  }

  predicate Wants(seat: Option<Options>, e: Event) {
    seat.Some? && Matches(seat.value, e)
  }

  lemma {:induction false} NoSeat(subs: seq<Subscriber>, q: QueueId)
    requires forall i :: 0 <= i < |subs| ==> subs[i].queue != q
    ensures Seat(subs, q) == None
  {
    if subs != [] {
      NoSeat(subs[..|subs| - 1], q);
    }
  }

  lemma {:induction false} DeliveredAt(queues: seq<seq<Event>>, subs: seq<Subscriber>, e: Event, q: QueueId)
    requires Wired(subs, queues) && q < |queues|
    ensures Delivered(queues, subs, e)[q] ==
      if Wants(Seat(subs, q), e) && |queues[q]| < CAPACITY then queues[q] + [e] else queues[q]
  {
    if subs != [] {
      var front := subs[..|subs| - 1];
      DeliveredAt(queues, front, e, q);
      if subs[|subs| - 1].queue == q {
        NoSeat(front, q);
      }
    }
  }

  // A subscriber loses its place exactly when its own queue is full.
  lemma {:induction false} Overflows(queues: seq<seq<Event>>, subs: seq<Subscriber>, e: Event, q: QueueId)
    requires Wired(subs, queues) && q < |queues|
    ensures q in QueuesOf(Dead(queues, subs, e)) <==> Wants(Seat(subs, q), e) && |queues[q]| >= CAPACITY
  {
    if subs != [] {
      var front, last := subs[..|subs| - 1], subs[|subs| - 1];
      var dead := Dead(queues, front, e);
      Overflows(queues, front, e, q);
      if last.queue == q {
        NoSeat(front, q);
      }
      assert (dead + [last])[..|dead|] == dead && dead + [] == dead;
    }
  }

  lemma {:induction false} SeatMinus(subs: seq<Subscriber>, gone: set<QueueId>, q: QueueId)
    ensures Seat(Minus(subs, gone), q) == if q in gone then None else Seat(subs, q)
  {
    if subs != [] {
      var rest := Minus(subs[..|subs| - 1], gone);
      SeatMinus(subs[..|subs| - 1], gone, q);
      assert (rest + [subs[|subs| - 1]])[..|rest|] == rest && rest + [] == rest;
    }
  }

  // A listed queue gets a matching event at its end, unless it is full: then
  // it gets nothing and leaves the list. Every other queue is left alone.
  lemma NotifiedAt(h: Hub, e: Event, q: QueueId)
    requires Wired(h.subs, h.queues) && q < |h.queues|
    ensures var seat, room := Seat(h.subs, q), |h.queues[q]| < 256;
      && Notified(h, e).queues[q] == (if Wants(seat, e) && room then h.queues[q] + [e] else h.queues[q])
      && Seat(Notified(h, e).subs, q) == if Wants(seat, e) && !room then None else seat
  {
    DeliveredAt(h.queues, h.subs, e, q);
    Overflows(h.queues, h.subs, e, q);
    SeatMinus(h.subs, QueuesOf(Dead(h.queues, h.subs, e)), q);
  }

  lemma {:induction false} DeadMember(queues: seq<seq<Event>>, subs: seq<Subscriber>, e: Event)
    requires Wired(subs, queues)
    ensures var dead := Dead(queues, subs, e);
      && (forall s :: s in dead <==> s in subs && Full(queues, s, e))
      && (forall j, k :: 0 <= j < k < |dead| ==> dead[j].queue != dead[k].queue)
  {
    if subs != [] {
      var front, last := subs[..|subs| - 1], subs[|subs| - 1];
      DeadMember(queues, front, e);
      var dead := Dead(queues, front, e);
      assert subs == front + [last];
      forall j | 0 <= j < |dead|
        ensures dead[j].queue != last.queue
      {
        assert dead[j] in front;
      }
    }
  }

  lemma {:induction false} QueuesOfMember(subs: seq<Subscriber>, q: QueueId)
    ensures q in QueuesOf(subs) <==> exists i :: 0 <= i < |subs| && subs[i].queue == q
  {
    if subs != [] {
      QueuesOfMember(subs[..|subs| - 1], q);
    }
  }

  lemma {:induction false} MinusMember(subs: seq<Subscriber>, gone: set<QueueId>, s: Subscriber)
    ensures s in Minus(subs, gone) <==> s in subs && s.queue !in gone
  {
    if subs != [] {
      var front, last := subs[..|subs| - 1], subs[|subs| - 1];
      MinusMember(front, gone, s);
      assert subs == front + [last];
    }
  }

  lemma {:induction false} MinusWired(subs: seq<Subscriber>, gone: set<QueueId>, queues: seq<seq<Event>>)
    requires Wired(subs, queues)
    ensures Wired(Minus(subs, gone), queues)
  {
    if subs != [] {
      var front, last := subs[..|subs| - 1], subs[|subs| - 1];
      MinusWired(front, gone, queues);
      forall i | 0 <= i < |Minus(front, gone)|
        ensures Minus(front, gone)[i].queue != last.queue && Minus(front, gone)[i].queue < |queues|
      {
        MinusMember(front, gone, Minus(front, gone)[i]);
      }
    }
  }

  // ---- the service --------------------------------------------------------------------

  // list.remove: the first occurrence.
  function Remove(subs: seq<Subscriber>, s: Subscriber): seq<Subscriber> {
    if subs == [] then []
    else if subs[0] == s then subs[1..]
    else [subs[0]] + Remove(subs[1..], s)
  }

  lemma {:induction false} RemoveIsMinus(subs: seq<Subscriber>, gone: set<QueueId>, s: Subscriber, queues: seq<seq<Event>>)
    requires Wired(subs, queues) && s in subs && s.queue !in gone
    ensures Remove(Minus(subs, gone), s) == Minus(subs, gone + {s.queue})
  {
    var front, last := subs[..|subs| - 1], subs[|subs| - 1];
    if last == s {
      MinusMember(front, gone, s);
      MinusSame(front, gone, s.queue);
      RemoveLast(Minus(front, gone), s);
    } else {
      assert s in front;
      RemoveIsMinus(front, gone, s, queues);
      MinusMember(front, gone, s);
      RemoveEarly(Minus(front, gone), if last.queue in gone then [] else [last], s);
    }
  }

  lemma {:induction false} MinusSame(subs: seq<Subscriber>, gone: set<QueueId>, q: QueueId)
    requires forall i :: 0 <= i < |subs| ==> subs[i].queue != q
    ensures Minus(subs, gone) == Minus(subs, gone + {q})
  {
    if subs != [] {
      MinusSame(subs[..|subs| - 1], gone, q);
    }
  }

  lemma {:induction false} RemoveLast(xs: seq<Subscriber>, s: Subscriber)
    requires s !in xs
    ensures Remove(xs + [s], s) == xs
  {
    if xs != [] {
      RemoveLast(xs[1..], s);
      assert (xs + [s])[1..] == xs[1..] + [s];
    }
  }

  lemma {:induction false} RemoveEarly(xs: seq<Subscriber>, ys: seq<Subscriber>, s: Subscriber)
    requires s in xs
    ensures Remove(xs + ys, s) == Remove(xs, s) + ys
  {
    assert (xs + ys)[1..] == xs[1..] + ys;
    if xs[0] != s {
      RemoveEarly(xs[1..], ys, s);
    }
  }

  class WatchService {
    const store: WatchLogStore
    var subscribers: seq<Subscriber>
    var queues: seq<seq<Event>>

    ghost predicate Valid()
      reads this, store
    {
      && store.Valid() && Wired(subscribers, queues)
      && forall q :: 0 <= q < |queues| ==> |queues[q]| <= CAPACITY
    }

    ghost function Now(): Hub
      reads this
    {
      Hub(subscribers, queues)
    }

    constructor ()
      ensures Valid() && fresh(store) && store.rows == [] && Now() == Hub([], [])
    {
      store := new WatchLogStore();
      subscribers, queues := [], [];
    }

    // A committed append followed by the notification; `Notify` alone is the
    // step at which other requests can come in between.
    method Record(resourceType: Token, cookbook: Option<Token>, channel: string, payload: nat) returns (e: Event)
      requires Valid()
      modifies this, store
      ensures Valid() && store.rows == old(store.rows) + [e] && e.at == old(Latest(store.rows)) + 1
      ensures e == Event(e.at, resourceType, cookbook, channel, payload)
      ensures Now() == Notified(old(Now()), e)
    {
      e := store.Append(resourceType, cookbook, channel, payload);
      Notify(e);
    }

    method NotifyEphemeral(resourceType: Token, cookbook: Option<Token>, channel: string, payload: nat) returns (e: Event)
      requires Valid()
      modifies this
      ensures Valid() && e == Event(Latest(store.rows), resourceType, cookbook, channel, payload)
      ensures Now() == Notified(old(Now()), e)
    {
      var n := store.LatestSeq();
      e := Event(n, resourceType, cookbook, channel, payload);
      Notify(e);
    }

    method Subscribe(o: Options) returns (q: QueueId)
      requires Valid()
      modifies this
      ensures Valid() && q == |old(queues)|
      ensures Now() == Hub(old(subscribers) + [Subscriber(q, o)], old(queues) + [[]])
    {
      q := |queues|;
      queues := queues + [[]];
      subscribers := subscribers + [Subscriber(q, o)];
    }

    method Unsubscribe(q: QueueId)
      requires Valid()
      modifies this
      ensures Valid() && Now() == Hub(Minus(old(subscribers), {q}), old(queues))
    {
      var kept: seq<Subscriber> := [];
      for i := 0 to |subscribers|
        invariant kept == Minus(subscribers[..i], {q})
      {
        assert subscribers[..i + 1][..i] == subscribers[..i];
        if subscribers[i].queue != q {
          kept := kept + [subscribers[i]];
        }
      }
      assert subscribers[..|subscribers|] == subscribers;
      MinusWired(subscribers, {q}, queues);
      subscribers := kept;
    }

    // The subscriber's own side of its queue.
    method Get(q: QueueId) returns (e: Option<Event>)
      requires Valid() && q < |queues|
      modifies this
      ensures Valid() && subscribers == old(subscribers)
      ensures e.None? ==> queues == old(queues) && queues[q] == []
      ensures |queues| == old(|queues|)
      ensures e.Some? ==> old(queues[q]) == [e.value] + queues[q] && queues == old(queues)[q := queues[q]]
    {
      if queues[q] == [] {
        return None;
      }
      e := Some(queues[q][0]);
      queues := queues[q := queues[q][1..]];
    }

    method Notify(e: Event)
      requires Valid()
      modifies this
      ensures Valid() && Now() == Notified(old(Now()), e)
    {
      var dead: seq<Subscriber> := [];
      ghost var subs, was := subscribers, queues;
      for i := 0 to |subscribers|
        invariant subscribers == subs && queues == Delivered(was, subs[..i], e)
        invariant forall q :: 0 <= q < |queues| ==> |queues[q]| <= CAPACITY
        invariant dead == Dead(was, subs[..i], e)
      {
        var sub := subscribers[i];
        assert subs[..i + 1][..i] == subs[..i];
        DeliveredAt(was, subs[..i], e, sub.queue);
        NoSeat(subs[..i], sub.queue);
        if Matches(sub.options, e) {
          if |queues[sub.queue]| < CAPACITY {
            queues := queues[sub.queue := queues[sub.queue] + [e]];
          } else {
            dead := dead + [sub];
          }
        }
      }
      assert subs[..|subs|] == subs;
      Bury(dead, subs, e, was);
    }

    method Bury(dead: seq<Subscriber>, ghost subs: seq<Subscriber>, ghost e: Event, ghost was: seq<seq<Event>>)
      requires subscribers == subs && Wired(subs, was) && dead == Dead(was, subs, e)
      modifies this`subscribers
      ensures subscribers == Minus(subs, QueuesOf(Dead(was, subs, e))) && Wired(subscribers, was)
    {
      MinusNone(subs);
      DeadMember(was, subs, e);
      for j := 0 to |dead|
        invariant subscribers == Minus(subs, QueuesOf(dead[..j]))
      {
        QueuesOfMember(dead[..j], dead[j].queue);
        RemoveIsMinus(subs, QueuesOf(dead[..j]), dead[j], was);
        subscribers := Remove(subscribers, dead[j]);
        assert dead[..j + 1][..j] == dead[..j];
      }
      assert dead[..|dead|] == dead;
      MinusWired(subs, QueuesOf(dead), was);
    }
  }

  lemma {:induction false} MinusNone(subs: seq<Subscriber>)
    ensures Minus(subs, {}) == subs
  {
    if subs != [] {
      MinusNone(subs[..|subs| - 1]);
    }
  }
}
