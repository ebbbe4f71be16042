// Watch runs in which events are notified in the order they were made.
module WatchOrder {
  import opened Domain
  import opened WatchLog
  import opened Watch
  import opened WatchRuns
  import opened Reconnect

  // ---- order ------------------------------------------------------------------------------

  // Events are notified in the order they were made: no append overtakes
  // another between its commit and its notification.
  ghost predicate InOrder(run: seq<Moment>) {
    run != [] ==> InOrder(run[..|run| - 1]) && (run[|run| - 1].a.Notify? ==> run[|run| - 1].a.k == 0)
  }

  ghost predicate Sorted(es: seq<Event>) {
    forall i, j :: 0 <= i <= j < |es| ==> es[i].at <= es[j].at
  }

  // `es` can be followed by what is in flight, and by what the log gives next.
  ghost predicate Ranks(s: State, es: seq<Event>) {
    && Sorted(es + s.inflight)
    && forall i :: 0 <= i < |es + s.inflight| ==> (es + s.inflight)[i].at <= Latest(s.log)
  }

  lemma RanksStep(s: State, a: Action, es: seq<Event>)
    requires Good(s) && Ascending(s.log) && Ranks(s, es) && (a.Notify? ==> a.k == 0)
    ensures Ascending(Apply(s, a).log) && Latest(s.log) <= Latest(Apply(s, a).log)
    ensures Ranks(Apply(s, a), es)
    ensures EventOf(s, a).Some? ==> Ranks(Apply(s, a), es + [EventOf(s, a).value])
  {
    var r := Apply(s, a);
    match a {
      case Append(e) => RanksGrow(s, r, es);
      case Peek(e) => RanksGrow(s, r, es);
      case Notify(k) =>
        if s.inflight != [] {
          var all, e := es + s.inflight, s.inflight[0];
          assert es + [e] + r.inflight == all;
          forall i | 0 <= i < |es + r.inflight|
            ensures (es + r.inflight)[i] == all[if i < |es| then i else i + 1]
          {
          }
          RanksThin(s, r, es);
        }
      case _ =>
    }
  }

  lemma RanksThin(s: State, r: State, es: seq<Event>)
    requires Ranks(s, es) && s.inflight != [] && r.inflight == s.inflight[1..] && r.log == s.log
    ensures Ranks(r, es)
  {
    var all, now := es + s.inflight, es + r.inflight;
    assert forall i :: 0 <= i < |now| ==> now[i] == all[if i < |es| then i else i + 1];
  }

  lemma RanksGrow(s: State, r: State, es: seq<Event>)
    requires Ranks(s, es) && |r.inflight| == |s.inflight| + 1 && r.inflight[..|s.inflight|] == s.inflight
    requires Latest(s.log) <= r.inflight[|s.inflight|].at == Latest(r.log)
    ensures Ranks(r, es)
  {
    var all, now := es + s.inflight, es + r.inflight;
    assert forall i :: 0 <= i < |all| ==> now[i] == all[i];
  }

  lemma QueueStep(s: State, a: Action, q: QueueId)
    requires Good(s) && Ascending(s.log) && q < |s.taken| && Ranks(s, Ever(s, q)) && (a.Notify? ==> a.k == 0)
    ensures q < |Apply(s, a).taken| && Ranks(Apply(s, a), Ever(Apply(s, a), q))
  {
    EverStep(s, a, q);
    RanksStep(s, a, Ever(s, q));
  }

  // Notified in order, the seqs put on a queue never decrease.
  lemma {:induction false} QueuedInOrder(run: seq<Moment>, end: State, q: QueueId)
    requires IsRun(run, end) && InOrder(run)
    ensures Ascending(end.log) && Ranks(end, [])
    ensures q < |end.taken| ==> Ranks(end, Ever(end, q))
    decreases |run|
  {
    if run != [] {
      var m := run[|run| - 1];
      QueuedInOrder(run[..|run| - 1], m.s, q);
      RanksStep(m.s, m.a, []);
      if q < |m.s.taken| {
        QueueStep(m.s, m.a, q);
      } else if q < |end.taken| {
        FreshQueue(m.s, m.a, q);
      }
    }
  }

  // A matching entry made after the subscription: on the queue with nothing
  // newer before it, or still to come, or never to come.
  ghost predicate Placed(ever: seq<Event>, inflight: seq<Event>, listed: bool, e: Event) {
    First(ever, e) || (Below(ever, e.at) && (listed ==> First(inflight, e)))
  }

  lemma PlacedNotified(ever: seq<Event>, inflight: seq<Event>, listed: bool, e: Event, ever': seq<Event>, listed': bool)
    requires Placed(ever, inflight, listed, e) && inflight != []
    requires ever' == ever || (listed && ever' == ever + [inflight[0]])
    requires listed' ==> listed && (inflight[0] == e ==> ever' == ever + [e])
    ensures Placed(ever', inflight[1..], listed', e)
  {
    if First(ever, e) {
      FirstAppend(ever, e, inflight[0]);
    } else if ever' != ever && inflight[0] == e {
      FirstAppend(ever, e, e);
    }
  }

  lemma PlacedGrown(ever: seq<Event>, inflight: seq<Event>, listed: bool, e: Event, y: Event)
    requires Placed(ever, inflight, listed, e)
    ensures Placed(ever, inflight + [y], listed, e)
  {
    if First(inflight, e) {
      FirstAppend(inflight, e, y);
    }
  }

  lemma PlacedStep(s: State, a: Action, q: QueueId, e: Event)
    requires Good(s) && q < |s.taken| && (a.Notify? ==> a.k == 0)
    requires Seat(s.hub.subs, q).Some? ==> Matches(Seat(s.hub.subs, q).value, e)
    requires Placed(Ever(s, q), s.inflight, Seat(s.hub.subs, q).Some?, e)
    ensures var r := Apply(s, a);
      q < |r.taken| && Placed(Ever(r, q), r.inflight, Seat(r.hub.subs, q).Some?, e)
  {
    var r := Apply(s, a);
    var ever, listed := Ever(s, q), Seat(s.hub.subs, q).Some?;
    StepAt(s, a, q);
    assert ever + [] == ever;
    if a.Append? || a.Peek? {
      PlacedGrown(ever, s.inflight, listed, e, r.inflight[|s.inflight|]);
    } else if a.Notify? && s.inflight != [] {
      PlacedNotified(ever, s.inflight, listed, e, Ever(r, q), Seat(r.hub.subs, q).Some?);
      assert r.inflight == s.inflight[1..];
    }
  }

  lemma JustAppended(s: State, a: Action, q: QueueId, e: Event)
    requires Good(s) && q < |s.taken| && Ranks(s, Ever(s, q)) && e !in s.log && e in Apply(s, a).log
    ensures var r := Apply(s, a);
      q < |r.taken| && Placed(Ever(r, q), r.inflight, Seat(r.hub.subs, q).Some?, e)
  {
    var all := Ever(s, q) + s.inflight;
    assert Below(Ever(s, q), e.at) by {
      assert forall i :: 0 <= i < |Ever(s, q)| ==> all[i] == Ever(s, q)[i];
    }
    assert Below(s.inflight, e.at) by {
      assert forall i :: 0 <= i < |s.inflight| ==> all[|Ever(s, q)| + i] == s.inflight[i];
    }
    FirstAppend(s.inflight, e, e);
  }

  lemma {:induction false} StillPlaced(run: seq<Moment>, end: State, i: nat, o: Options, e: Event)
    requires IsRun(run, end) && InOrder(run) && i < |run| && run[i].a == Subscribe(o)
    requires e in end.log && e.at > Latest(run[i].s.log) && Matches(o, e)
    ensures var q := |run[i].s.taken|;
      q < |end.taken| && Placed(Ever(end, q), end.inflight, Seat(end.hub.subs, q).Some?, e)
    decreases |run|
  {
    var n := |run| - 1;
    var m, q := run[n], |run[i].s.taken|;
    QueuedInOrder(run[..n], m.s, q);
    if i == n {
      LatestTop(m.s.log, e);
      assert false;
    } else {
      var c := ExactDelivery(run[..n], m.s, i, o);
      if e in m.s.log {
        StillPlaced(run[..n], m.s, i, o, e);
        PlacedStep(m.s, m.a, q, e);
      } else {
        JustAppended(m.s, m.a, q, e);
      }
    }
  }

  lemma SeenIffOld(seen: seq<Event>, pending: seq<Event>, start: nat, e: Event)
    requires Sorted(seen + pending) && e.at > start
    requires First(seen + pending, e) || Below(seen + pending, e.at)
    ensures e in seen <==> e.at <= ResumeFrom(seen, start)
  {
    var all := seen + pending;
    if seen != [] {
      assert all[|seen| - 1] == seen[|seen| - 1];
      assert forall i :: 0 <= i < |seen| ==> seen[i] == all[i] && all[i].at <= all[|seen| - 1].at;
      if seen[|seen| - 1].at >= e.at {
        var k := FirstIndex(all, e);
        assert e == seen[k];
      }
    }
  }

  lemma RanksSorted(s: State, es: seq<Event>)
    requires Ranks(s, es)
    ensures Sorted(es)
  {
    assert forall i :: 0 <= i < |es| ==> (es + s.inflight)[i] == es[i];
  }

  // A subscriber that reconnects and reads the log from the last seq it got
  // misses nothing and gets no entry twice, even if its queue had overflown.
  lemma ReconnectMissesNothing(run: seq<Moment>, end: State, i: nat, o: Options, e: Event)
    requires IsRun(run, end) && InOrder(run) && i < |run| && run[i].a == Subscribe(o)
    requires e in end.log && e.at > Latest(run[i].s.log) && Matches(o, e)
    ensures var q := |run[i].s.taken|;
      && q < |end.taken|
      && (e in end.taken[q] <==> e !in Select(end.log, ResumeFrom(end.taken[q], Latest(run[i].s.log)), Query(None, None)))
  {
    var q, start := |run[i].s.taken|, Latest(run[i].s.log);
    StillPlaced(run, end, i, o, e);
    QueuedInOrder(run, end, q);
    RanksSorted(end, Ever(end, q));
    SeenIffOld(end.taken[q], end.hub.queues[q], start, e);
    SelectMember(end.log, ResumeFrom(end.taken[q], start), Query(None, None), e);
  }
}
