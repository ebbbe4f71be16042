// Reconnecting: who leaves a queue and reads the log from the last seq it got.
module Reconnect {
  import opened Domain
  import opened WatchLog
  import opened Watch
  import opened WatchRuns

  // ---- reconnecting -----------------------------------------------------------------------

  ghost predicate Below(xs: seq<Event>, n: nat) {
    forall i :: 0 <= i < |xs| ==> xs[i].at < n
  }

  // e is in xs, and everything before it has a smaller seq.
  ghost predicate First(xs: seq<Event>, e: Event) {
    xs != [] && (xs[0] == e || (xs[0].at < e.at && First(xs[1..], e)))
  }

  lemma {:induction false} FirstAppend(xs: seq<Event>, e: Event, y: Event)
    requires First(xs, e) || (Below(xs, e.at) && y == e)
    ensures First(xs + [y], e)
  {
    if xs == [] || xs[0] == e {
      assert (xs + [y])[0] == if xs == [] then y else xs[0];
    } else {
      assert (xs + [y])[1..] == xs[1..] + [y];
      FirstAppend(xs[1..], e, y);
    }
  }

  lemma {:induction false} FirstIndex(xs: seq<Event>, e: Event) returns (k: nat)
    requires First(xs, e)
    ensures k < |xs| && xs[k] == e && forall j :: 0 <= j < k ==> xs[j].at < e.at
  {
    if xs[0] == e {
      k := 0;
    } else {
      k := FirstIndex(xs[1..], e);
      k := k + 1;
    }
  }

  // Where a subscriber that got `seen` resumes; `start` when it got nothing.
  function ResumeFrom(seen: seq<Event>, start: nat): nat {
    if seen == [] then start else seen[|seen| - 1].at
  }

  lemma LatestTop(log: seq<Event>, e: Event)
    requires Ascending(log) && e in log
    ensures e.at <= Latest(log)
  {
  }

  // ---- exactly when nothing is missed ---------------------------------------------------

  // Notified now, x goes on queue q although an entry not newer than x, which q
  // should get too, is still in flight.
  ghost predicate Overtakes(s: State, a: Action, q: QueueId, o: Options, start: nat, e: Event) {
    && q < |s.taken| == |s.hub.queues|
    && Hit(s, a, o).Some? && Seat(s.hub.subs, q) == Some(o) && |s.hub.queues[q]| < CAPACITY
    && e in s.log && e in s.inflight && e !in Ever(s, q) && Matches(o, e) && start < e.at
    && e != Hit(s, a, o).value && e.at <= Hit(s, a, o).value.at
  }

  ghost predicate Overtaking(s: State, a: Action, q: QueueId, o: Options, start: nat) {
    exists e :: Overtakes(s, a, q, o, start, e)
  }

  // n more events taken from queue q.
  ghost function Gets(s: State, q: QueueId, n: nat): (r: State)
    requires Good(s)
    ensures Good(r)
  {
    if n == 0 then s else Apply(Gets(s, q, n - 1), Get(q))
  }

  // Whoever reconnects from s has lost the log's entry e: it did not come over
  // the queue and lies before the seq the log is read from.
  ghost predicate Lost(s: State, q: QueueId, o: Options, start: nat, e: Event) {
    && q < |s.taken| && e in s.log && Matches(o, e) && start < e.at
    && e !in s.taken[q] && e !in Select(s.log, ResumeFrom(s.taken[q], start), Query(None, None))
  }

  ghost predicate Loses(s: State, q: QueueId, o: Options, start: nat) {
    exists e :: Lost(s, q, o, start, e)
  }

  lemma {:induction false} RunUpTo(run: seq<Moment>, end: State, k: nat)
    requires IsRun(run, end) && k <= |run|
    ensures IsRun(run[..k], if k < |run| then run[k].s else end)
    decreases |run|
  {
    if k < |run| {
      var n := |run| - 1;
      RunUpTo(run[..n], run[n].s, k);
      assert run[..n][..k] == run[..k];
    } else {
      assert run[..k] == run;
    }
  }

  // The state after k actions.
  ghost function StateAt(run: seq<Moment>, end: State, k: nat): (s: State)
    requires IsRun(run, end) && k <= |run|
    ensures Good(s)
  {
    RunUpTo(run, end, k);
    if k < |run| then run[k].s else end
  }

  // Keys in flight or on queues are keys of the log, or the newest one.
  ghost predicate Bounded(s: State, es: seq<Event>) {
    forall i :: 0 <= i < |es| ==> es[i].at <= Latest(s.log)
  }

  lemma AppendAscending(log: seq<Event>, row: Event)
    requires Ascending(log) && row.at == Latest(log) + 1
    ensures Ascending(log + [row]) && Latest(log + [row]) == row.at
  {
  }

  lemma BoundedStep(s: State, a: Action, es: seq<Event>)
    requires Good(s) && Ascending(s.log) && Bounded(s, es) && Bounded(s, s.inflight)
    ensures var r := Apply(s, a);
      && Ascending(r.log) && Bounded(r, es) && Bounded(r, r.inflight)
      && (EventOf(s, a).Some? ==> Bounded(r, es + [EventOf(s, a).value]))
  {
    if a.Append? { AppendAscending(s.log, a.e.(at := Latest(s.log) + 1)); }
  }

  lemma {:induction false} KeysBounded(run: seq<Moment>, end: State, q: QueueId)
    requires IsRun(run, end)
    ensures Ascending(end.log) && Bounded(end, end.inflight)
    ensures q < |end.taken| ==> Bounded(end, Ever(end, q))
    decreases |run|
  {
    if run != [] {
      var m := run[|run| - 1];
      KeysBounded(run[..|run| - 1], m.s, q);
      BoundedStep(m.s, m.a, []);
      if q < |m.s.taken| {
        EverStep(m.s, m.a, q);
        BoundedStep(m.s, m.a, Ever(m.s, q));
      } else if q < |end.taken| {
        FreshQueue(m.s, m.a, q);
      }
    }
  }

  // On the queue with nothing newer before it, or after all that is on it; in
  // the second case still to come, as long as the subscriber is listed.
  ghost predicate Held(ever: seq<Event>, inflight: seq<Event>, listed: bool, e: Event) {
    First(ever, e) || (Below(ever, e.at) && (listed ==> e in inflight))
  }

  lemma BelowAbsent(es: seq<Event>, e: Event)
    requires Below(es, e.at)
    ensures e !in es
  {
  }

  lemma WithoutOther(es: seq<Event>, k: nat, e: Event)
    requires k < |es| && e in es && e != es[k]
    ensures e in es[..k] + es[k + 1..]
  {
    var j :| 0 <= j < |es| && es[j] == e;
    if j < k { assert es[..k][j] == e; } else { assert es[k + 1..][j - k - 1] == e; }
  }

  lemma HeldMoved(ever: seq<Event>, inflight: seq<Event>, k: nat, listed: bool, e: Event, ever': seq<Event>, listed': bool)
    requires Held(ever, inflight, listed, e) && k < |inflight|
    requires ever' == ever || (listed && ever' == ever + [inflight[k]])
    requires listed' ==> listed && (inflight[k] == e ==> ever' == ever + [e])
    requires ever' != ever && !First(ever, e) && inflight[k] != e ==> inflight[k].at < e.at
    ensures Held(ever', inflight[..k] + inflight[k + 1..], listed', e)
  {
    if First(ever, e) {
      FirstAppend(ever, e, inflight[k]);
    } else if ever' != ever && inflight[k] == e {
      FirstAppend(ever, e, e);
    } else if listed && inflight[k] != e {
      WithoutOther(inflight, k, e);
    }
  }

  lemma HeldNotified(s: State, k: nat, q: QueueId, o: Options, start: nat, e: Event, r: State)
    requires Good(s) && q < |s.taken| && k < |s.inflight| && r == Apply(s, Notify(k))
    requires Seat(s.hub.subs, q) in {Some(o), None} && e in s.log && Matches(o, e) && start < e.at
    requires Held(Ever(s, q), s.inflight, Seat(s.hub.subs, q).Some?, e) && !Overtakes(s, Notify(k), q, o, start, e)
    ensures q < |r.taken| && Held(Ever(r, q), r.inflight, Seat(r.hub.subs, q).Some?, e)
  {
    var ever, x := Ever(s, q), s.inflight[k];
    StepAt(s, Notify(k), q);
    assert ever + [] == ever;
    if Below(ever, e.at) {
      BelowAbsent(ever, e);
    }
    HeldMoved(ever, s.inflight, k, Seat(s.hub.subs, q).Some?, e, Ever(r, q), Seat(r.hub.subs, q).Some?);
  }

  lemma HeldStep(s: State, a: Action, q: QueueId, o: Options, start: nat, e: Event, r: State)
    requires Good(s) && q < |s.taken| && r == Apply(s, a)
    requires Seat(s.hub.subs, q) in {Some(o), None} && e in s.log && Matches(o, e) && start < e.at
    requires Held(Ever(s, q), s.inflight, Seat(s.hub.subs, q).Some?, e) && !Overtakes(s, a, q, o, start, e)
    ensures q < |r.taken| && Held(Ever(r, q), r.inflight, Seat(r.hub.subs, q).Some?, e)
  {
    if a.Notify? && a.k < |s.inflight| {
      HeldNotified(s, a.k, q, o, start, e, r);
    } else {
      StepAt(s, a, q);
      assert Ever(s, q) + [] == Ever(s, q);
    }
  }

  lemma HeldAppended(s: State, a: Action, q: QueueId, e: Event, r: State)
    requires Good(s) && q < |s.taken| && r == Apply(s, a) && Bounded(s, Ever(s, q))
    requires e !in s.log && e in r.log
    ensures q < |r.taken| && Held(Ever(r, q), r.inflight, Seat(r.hub.subs, q).Some?, e)
  {
    assert r.inflight[|s.inflight|] == e;
  }

  ghost predicate NoneOvertaken(run: seq<Moment>, from: nat, q: QueueId, o: Options, start: nat) {
    forall k :: from <= k < |run| ==> !Overtaking(run[k].s, run[k].a, q, o, start)
  }

  lemma {:induction false} StillHeld(run: seq<Moment>, end: State, i: nat, o: Options, e: Event)
    requires IsRun(run, end) && i < |run| && run[i].a == Subscribe(o)
    requires NoneOvertaken(run, i + 1, |run[i].s.taken|, o, Latest(run[i].s.log))
    requires e in end.log && e.at > Latest(run[i].s.log) && Matches(o, e)
    ensures var q := |run[i].s.taken|;
      q < |end.taken| && Held(Ever(end, q), end.inflight, Seat(end.hub.subs, q).Some?, e)
    decreases |run|
  {
    var n := |run| - 1;
    var front, m, q, start := run[..n], run[n], |run[i].s.taken|, Latest(run[i].s.log);
    KeysBounded(front, m.s, q);
    if i == n {
      LatestTop(m.s.log, e);
      assert false;
    } else {
      var c := ExactDelivery(front, m.s, i, o);
      if e in m.s.log {
        StillHeld(front, m.s, i, o, e);
        assert !Overtaking(run[n].s, run[n].a, q, o, start);
        HeldStep(m.s, m.a, q, o, start, e, end);
      } else {
        HeldAppended(m.s, m.a, q, e, end);
      }
    }
  }

  // n Gets move the next n events of the queue, if there are so many.
  lemma {:induction false} GetsTake(s: State, q: QueueId, n: nat)
    requires Good(s) && q < |s.taken|
    ensures var r, m := Gets(s, q, n), if n <= |s.hub.queues[q]| then n else |s.hub.queues[q]|;
      && r.log == s.log && |r.taken| == |s.taken|
      && r.hub.queues[q] == s.hub.queues[q][m..] && r.taken[q] == s.taken[q] + s.hub.queues[q][..m]
  {
    if n == 0 {
      assert s.taken[q] + s.hub.queues[q][..0] == s.taken[q];
    } else {
      GetsTake(s, q, n - 1);
      var p, queue := Gets(s, q, n - 1), s.hub.queues[q];
      if n <= |queue| {
        assert queue[n - 1..][0] == queue[n - 1] && queue[n - 1..][1..] == queue[n..];
        assert queue[..n] == queue[..n - 1] + [queue[n - 1]];
      }
    }
  }

  lemma HeldNotLost(seen: seq<Event>, pending: seq<Event>, start: nat, e: Event)
    requires First(seen + pending, e) || Below(seen + pending, e.at)
    requires start < e.at && e !in seen
    ensures e.at > ResumeFrom(seen, start)
  {
    var all := seen + pending;
    if seen != [] {
      assert all[|seen| - 1] == seen[|seen| - 1];
      if First(all, e) {
        var k := FirstIndex(all, e);
        assert forall j :: 0 <= j < |seen| ==> all[j] == seen[j];
      }
    }
  }

  lemma HeldNotMissed(s: State, q: QueueId, o: Options, start: nat, n: nat, e: Event, listed: bool)
    requires Good(s) && q < |s.taken| && start < e.at && Held(Ever(s, q), s.inflight, listed, e)
    ensures !Lost(Gets(s, q, n), q, o, start, e)
  {
    var r := Gets(s, q, n);
    GetsTake(s, q, n);
    assert Ever(s, q) == r.taken[q] + r.hub.queues[q];
    if e !in r.taken[q] {
      HeldNotLost(r.taken[q], r.hub.queues[q], start, e);
      SelectMember(r.log, ResumeFrom(r.taken[q], start), Query(None, None), e);
    }
  }

  lemma GetsLog(s: State, q: QueueId, n: nat)
    requires Good(s) && q < |s.taken|
    ensures Gets(s, q, n).log == s.log
  {
    GetsTake(s, q, n);
  }

  lemma HeldKeeps(run: seq<Moment>, s: State, i: nat, o: Options, n: nat)
    requires IsRun(run, s) && i < |run| && run[i].a == Subscribe(o)
    requires NoneOvertaken(run, i + 1, |run[i].s.taken|, o, Latest(run[i].s.log))
    ensures !Loses(Gets(s, |run[i].s.taken|, n), |run[i].s.taken|, o, Latest(run[i].s.log))
  {
    var q, start := |run[i].s.taken|, Latest(run[i].s.log);
    if e :| Lost(Gets(s, q, n), q, o, start, e) {
      var c := ExactDelivery(run, s, i, o);
      GetsLog(s, q, n);
      StillHeld(run, s, i, o, e);
      HeldNotMissed(s, q, o, start, n, e, Seat(s.hub.subs, q).Some?);
    }
  }

  lemma NotOvertakenKeeps(run: seq<Moment>, end: State, i: nat, o: Options, k: nat, n: nat)
    requires IsRun(run, end) && i < k <= |run| && run[i].a == Subscribe(o)
    requires NoneOvertaken(run, i + 1, |run[i].s.taken|, o, Latest(run[i].s.log))
    ensures !Loses(Gets(StateAt(run, end, k), |run[i].s.taken|, n), |run[i].s.taken|, o, Latest(run[i].s.log))
  {
    RunUpTo(run, end, k);
    HeldKeeps(run[..k], StateAt(run, end, k), i, o, n);
  }

  // What an overtaking leaves behind is lost once the queue has been emptied.
  lemma OvertakenLost(s: State, a: Action, q: QueueId, o: Options, start: nat)
    requires Good(s) && Overtaking(s, a, q, o, start)
    ensures exists n :: Loses(Gets(Apply(s, a), q, n), q, o, start)
  {
    var e :| Overtakes(s, a, q, o, start, e);
    var r, x := Apply(s, a), Hit(s, a, o).value;
    StepAt(s, a, q);
    var n := |r.hub.queues[q]|;
    var g := Gets(r, q, n);
    GetsTake(r, q, n);
    assert g.taken[q] == Ever(s, q) + [x];
    SelectMember(g.log, x.at, Query(None, None), e);
    assert Lost(g, q, o, start, e);
  }

  // From the subscription at action i on, whenever the subscriber may stop
  // reading its queue and reconnect, it loses no entry.
  ghost predicate Lossless(run: seq<Moment>, end: State, i: nat, o: Options)
    requires IsRun(run, end) && i < |run|
  {
    forall k: nat, n: nat :: i < k <= |run| ==>
      !Loses(Gets(StateAt(run, end, k), |run[i].s.taken|, n), |run[i].s.taken|, o, Latest(run[i].s.log))
  }

  // The promise holds in exactly the runs in which no notification overtakes an
  // entry that the subscriber should get.
  lemma LosslessExactly(run: seq<Moment>, end: State, i: nat, o: Options)
    requires IsRun(run, end) && i < |run| && run[i].a == Subscribe(o)
    ensures Lossless(run, end, i, o) <==> NoneOvertaken(run, i + 1, |run[i].s.taken|, o, Latest(run[i].s.log))
  {
    var q, start := |run[i].s.taken|, Latest(run[i].s.log);
    if NoneOvertaken(run, i + 1, q, o, start) {
      forall k, n | i < k <= |run|
        ensures !Loses(Gets(StateAt(run, end, k), q, n), q, o, start)
      {
        NotOvertakenKeeps(run, end, i, o, k, n);
      }
    } else {
      var k :| i + 1 <= k < |run| && Overtaking(run[k].s, run[k].a, q, o, start);
      assert Good(StateAt(run, end, k));
      var n := OvertakenBreaks(run, end, k, q, o, start);
      assert Loses(Gets(StateAt(run, end, k + 1), q, n), q, o, start);
    }
  }

  lemma OvertakenBreaks(run: seq<Moment>, end: State, k: nat, q: QueueId, o: Options, start: nat) returns (n: nat)
    requires IsRun(run, end) && k < |run| && Good(run[k].s) && Overtaking(run[k].s, run[k].a, q, o, start)
    ensures Loses(Gets(StateAt(run, end, k + 1), q, n), q, o, start)
  {
    RunUpTo(run, end, k + 1);
    assert run[..k + 1][..k] == run[..k];
    OvertakenLost(run[k].s, run[k].a, q, o, start);
    n :| Loses(Gets(Apply(run[k].s, run[k].a), q, n), q, o, start);
  }

  lemma Then(run: seq<Moment>, s: State, a: Action) returns (run': seq<Moment>, s': State)
    requires IsRun(run, s)
    ensures IsRun(run', s') && s' == Apply(s, a)
    ensures run' == run + [Moment(s, a)]
  {
    run', s' := run + [Moment(s, a)], Apply(s, a);
    assert run'[..|run|] == run;
  }

  lemma OneSubscriber(o: Options) returns (run: seq<Moment>, s: State)
    ensures IsRun(run, s) && s == State([], [], Hub([Subscriber(0, o)], [[]]), [[]])
    ensures run == [Moment(INITIAL, Subscribe(o))]
  {
    run, s := Then([], INITIAL, Subscribe(o));
  }

  lemma TwoInFlight(o: Options, e: Event) returns (run: seq<Moment>, s: State)
    ensures IsRun(run, s) && s.taken == [[]] && s.hub == Hub([Subscriber(0, o)], [[]])
    ensures s.inflight == s.log == [e.(at := 1), e.(at := 2)]
    ensures run != [] && run[0] == Moment(INITIAL, Subscribe(o))
  {
    run, s := OneSubscriber(o);
    run, s := Then(run, s, Append(e));
    assert Latest(s.log) == 1;
    run, s := Then(run, s, Append(e));
  }

  lemma SecondNotified(s: State, o: Options, a: Event, b: Event)
    requires Good(s) && s.hub == Hub([Subscriber(0, o)], [[]]) && s.inflight == [a, b] && Matches(o, b)
    ensures var mid := Apply(s, Notify(1));
      |mid.hub.queues| == 1 && mid.hub.queues[0] == [b] && mid.taken == s.taken && mid.log == s.log
  {
    var none: seq<Event> := [];
    assert none + [b] == [b];
    assert Seat(s.hub.subs, 0) == Some(o);
    NotifiedAt(s.hub, b, 0);
  }

  lemma HeadTaken(s: State, b: Event)
    requires Good(s) && |s.hub.queues| == 1 && s.hub.queues[0] == [b] && s.taken == [[]]
    ensures Apply(s, Get(0)).taken == [[b]] && Apply(s, Get(0)).log == s.log
  {
    var none: seq<Event> := [];
    assert none + [b] == [b];
  }

  // In this run, from a subscription to `o` on, entry e is in the log, but neither
  // taken nor read by whoever reconnects at the end.
  ghost predicate Misses(run: seq<Moment>, end: State, o: Options, e: Event) {
    && IsRun(run, end) && run != [] && run[0] == Moment(INITIAL, Subscribe(o))
    && Lost(end, 0, o, Latest(INITIAL.log), e)
  }

  // Without that order the promise fails. Two entries are made, the later one is
  // notified first and taken: whoever reconnects now never sees the earlier one.
  lemma Overtaken(o: Options, e: Event)
    requires Matches(o, e.(at := 1)) && Matches(o, e.(at := 2))
    ensures exists run, end :: Misses(run, end, o, e.(at := 1))
  {
    var run, end := TwoInFlight(o, e);
    SecondNotified(end, o, e.(at := 1), e.(at := 2));
    run, end := Then(run, end, Notify(1));
    HeadTaken(end, e.(at := 2));
    run, end := Then(run, end, Get(0));
    SelectMember(end.log, 2, Query(None, None), e.(at := 1));
    assert end.log[0] == e.(at := 1);
    assert Misses(run, end, o, e.(at := 1));
  }
}
