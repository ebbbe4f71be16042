// The durable watch log: appended to, never trimmed, read in pages.
module WatchLog {
  import opened Domain

  type Token = nat

  // One event; `at` is its seq. A log entry and the event made from it carry the same data; the
  // channel is derived from the payload.
  datatype Event = Event(at: nat, resourceType: Token, cookbook: Option<Token>, channel: string, payload: nat)

  datatype Query = Query(resourceType: Option<Token>, cookbook: Option<Token>)

  predicate Passes(q: Query, e: Event) {
    && (q.resourceType.Some? ==> e.resourceType == q.resourceType.value)
    && (q.cookbook.Some? ==> e.cookbook == q.cookbook)
  }

  // AUTOINCREMENT keys, in insertion order.
  ghost predicate Ascending(log: seq<Event>) {
    && (forall i :: 0 <= i < |log| ==> log[i].at >= 1)
    && forall i, j :: 0 <= i < j < |log| ==> log[i].at < log[j].at
  }

  // MAX(seq), 0 on an empty table.
  function Latest(log: seq<Event>): nat {
    if log == [] then 0 else log[|log| - 1].at
  }

  function Select(log: seq<Event>, since: int, q: Query): seq<Event> {
    if log == [] then []
    else
      var e := log[|log| - 1];
      Select(log[..|log| - 1], since, q) + if e.at > since && Passes(q, e) then [e] else []
  }

  // Both filters, where they are set.
  lemma PassesMeans(q: Query, e: Event)
    ensures Passes(q, e) <==>
      && (q.resourceType == None || q.resourceType == Some(e.resourceType))
      && (q.cookbook == None || q.cookbook == e.cookbook)
  {
  }

  // ORDER BY seq ASC LIMIT ?; SQLite reads a negative limit as no limit.
  function Page(log: seq<Event>, since: int, q: Query, limit: int): seq<Event> {
    var all := Select(log, since, q);
    if 0 <= limit < |all| then all[..limit] else all
  }

  // A page is the front of the selection: all of it without a limit, else as much
  // as the limit allows.
  lemma PageMeans(log: seq<Event>, since: int, q: Query, limit: int)
    ensures var page, all := Page(log, since, q, limit), Select(log, since, q);
      && page <= all
      && |page| == if limit < 0 || |all| <= limit then |all| else limit
  {
  }

  class WatchLogStore {
    var rows: seq<Event>

    ghost predicate Valid()
      reads this
    {
      Ascending(rows)
    }

    constructor ()
      ensures Valid() && rows == []
    {
      rows := [];
    }

    method Append(resourceType: Token, cookbook: Option<Token>, channel: string, payload: nat) returns (e: Event)
      requires Valid()
      modifies this
      ensures Valid() && rows == old(rows) + [e]
      ensures e == Event(old(Latest(rows)) + 1, resourceType, cookbook, channel, payload)
    {
      e := Event(Latest(rows) + 1, resourceType, cookbook, channel, payload);
      rows := rows + [e];
    }

    // The rows in the order of their keys, and no more of them than asked for.
    method ListSince(since: int, q: Query, limit: int) returns (page: seq<Event>)
      requires Valid()
      ensures page == Page(rows, since, q, limit)
    {
      page := [];
      var i := 0;
      while i < |rows| && (limit < 0 || |page| < limit)
        invariant 0 <= i <= |rows|
        invariant page == Select(rows[..i], since, q)
        invariant limit >= 0 ==> |page| <= limit
      {
        assert rows[..i + 1][..i] == rows[..i];
        if rows[i].at > since && Passes(q, rows[i]) {
          page := page + [rows[i]];
        }
        i := i + 1;
      }
      assert rows[..|rows|] == rows && rows == rows[..i] + rows[i..];
      SelectConcat(rows[..i], rows[i..], since, q);
    }

    method LatestSeq() returns (n: nat)
      requires Valid()
      ensures n == Latest(rows)
      ensures forall i :: 0 <= i < |rows| ==> rows[i].at <= n
      ensures n == 0 || exists i :: 0 <= i < |rows| && rows[i].at == n
    {
      n := 0;
      for i := 0 to |rows|
        invariant forall j :: 0 <= j < i ==> rows[j].at <= n
        invariant n == if i == 0 then 0 else rows[i - 1].at
      {
        if rows[i].at > n {
          n := rows[i].at;
        }
      }
    }
  }

  // ---- selection ------------------------------------------------------------------

  lemma {:induction false} SelectConcat(a: seq<Event>, b: seq<Event>, since: int, q: Query)
    ensures Select(a + b, since, q) == Select(a, since, q) + Select(b, since, q)
  {
    if b == [] {
      assert a + b == a;
    } else {
      var front := b[..|b| - 1];
      SelectConcat(a, front, since, q);
      assert (a + b)[..|a + b| - 1] == a + front;
    }
  }

  lemma {:induction false} SelectMember(log: seq<Event>, since: int, q: Query, e: Event)
    ensures e in Select(log, since, q) <==> e in log && e.at > since && Passes(q, e)
  {
    if log != [] {
      var front, last := log[..|log| - 1], log[|log| - 1];
      SelectMember(front, since, q, e);
      assert log == front + [last];
    }
  }

  // A page is in log order and holds no entry twice.
  lemma {:induction false} SelectAscending(log: seq<Event>, since: int, q: Query)
    requires Ascending(log)
    ensures Ascending(Select(log, since, q))
  {
    if log != [] {
      var front, last := log[..|log| - 1], log[|log| - 1];
      SelectAscending(front, since, q);
      forall i | 0 <= i < |Select(front, since, q)|
        ensures Select(front, since, q)[i].at < last.at
      {
        SelectMember(front, since, q, Select(front, since, q)[i]);
      }
    }
  }

  // Two cursors that every entry of the log is past, or that no entry is past.
  lemma {:induction false} SelectPast(log: seq<Event>, s: int, c: int, q: Query)
    requires forall e :: e in log ==> (e.at > s <==> e.at > c)
    ensures Select(log, s, q) == Select(log, c, q)
  {
    if log != [] {
      assert log[|log| - 1] in log;
      SelectPast(log[..|log| - 1], s, c, q);
    }
  }

  lemma {:induction false} SelectNone(log: seq<Event>, c: int, q: Query)
    requires forall e :: e in log ==> e.at <= c
    ensures Select(log, c, q) == []
  {
    if log != [] {
      assert log[|log| - 1] in log;
      SelectNone(log[..|log| - 1], c, q);
    }
  }

  // Reading on from the last entry of a first part gives the second part.
  lemma {:induction false} SelectOn(log: seq<Event>, since: int, q: Query, xs: seq<Event>, ys: seq<Event>)
    requires Ascending(log) && Select(log, since, q) == xs + ys && xs != []
    ensures Select(log, xs[|xs| - 1].at, q) == ys
    ensures xs[|xs| - 1] in log && xs[|xs| - 1].at > since
  {
    var c := xs[|xs| - 1];
    SelectMember(log, since, q, c);
    var front, e := log[..|log| - 1], log[|log| - 1];
    if !(e.at > since && Passes(q, e)) {
      SelectOn(front, since, q, xs, ys);
    } else if ys == [] {
      assert xs + ys == xs;
      assert c == e;
      SelectNone(front, c.at, q);
    } else {
      assert (xs + ys)[..|xs + ys| - 1] == xs + ys[..|ys| - 1];
      SelectOn(front, since, q, xs, ys[..|ys| - 1]);
    }
  }

  // ---- paging while the log grows ----------------------------------------------------

  function Flat(pages: seq<seq<Event>>): seq<Event> {
    if pages == [] then [] else Flat(pages[..|pages| - 1]) + pages[|pages| - 1]
  }

  // Where the next request reads on from.
  function Cursor(since: int, pages: seq<seq<Event>>): int {
    var got := Flat(pages);
    if got == [] then since else got[|got| - 1].at
  }

  // Request k finds the log as logs[k]; between requests it only grows.
  ghost predicate Session(logs: seq<seq<Event>>, pages: seq<seq<Event>>, since: int, q: Query, limit: int)
    decreases |pages|
  {
    && |logs| == |pages|
    && (pages != [] ==>
          var n := |pages| - 1;
          && Session(logs[..n], pages[..n], since, q, limit)
          && Ascending(logs[n])
          && (n > 0 ==> logs[n - 1] <= logs[n])
          && pages[n] == Page(logs[n], Cursor(since, pages[..n]), q, limit))
  }

  // Whatever has been read, the rest is what follows the cursor.
  lemma {:induction false} SessionSplits(logs: seq<seq<Event>>, pages: seq<seq<Event>>, since: int, q: Query, limit: int)
    requires Session(logs, pages, since, q, limit) && pages != []
    ensures var log := logs[|logs| - 1];
      Flat(pages) + Select(log, Cursor(since, pages), q) == Select(log, since, q)
    decreases |pages|
  {
    var n := |pages| - 1;
    var log, front, page := logs[n], pages[..n], pages[n];
    if n > 0 {
      SessionSplits(logs[..n], front, since, q, limit);
      Grows(logs[n - 1], log, Flat(front), since, q);
    }
    Advance(log, Flat(front), page, since, q, limit);
  }

  lemma Advance(log: seq<Event>, got: seq<Event>, page: seq<Event>, since: int, q: Query, limit: int)
    requires Ascending(log)
    requires got + Select(log, if got == [] then since else got[|got| - 1].at, q) == Select(log, since, q)
    requires page == Page(log, if got == [] then since else got[|got| - 1].at, q, limit)
    ensures var now := got + page;
      now + Select(log, if now == [] then since else now[|now| - 1].at, q) == Select(log, since, q)
  {
    var c := if got == [] then since else got[|got| - 1].at;
    var all := Select(log, c, q);
    if page == [] {
      assert got + page == got;
    } else {
      assert all == page + all[|page|..];
      SelectOn(log, c, q, page, all[|page|..]);
      assert got + page + all[|page|..] == got + all;
    }
  }

  lemma Grows(log: seq<Event>, grown: seq<Event>, got: seq<Event>, since: int, q: Query)
    requires Ascending(log) && Ascending(grown) && log <= grown
    requires got + Select(log, if got == [] then since else got[|got| - 1].at, q) == Select(log, since, q)
    ensures got + Select(grown, if got == [] then since else got[|got| - 1].at, q) == Select(grown, since, q)
  {
    if got != [] {
      var c := got[|got| - 1].at;
      var added := grown[|log|..];
      assert grown == log + added;
      SelectConcat(log, added, since, q);
      SelectConcat(log, added, c, q);
      assert got[|got| - 1] in Select(log, since, q);
      SelectMember(log, since, q, got[|got| - 1]);
      var i :| 0 <= i < |log| && log[i].at == c;
      assert forall j :: 0 <= j < |added| ==> added[j] == grown[|log| + j] && added[j].at > grown[i].at;
      SelectPast(added, since, c, q);
    }
  }

  // Paging until an empty page returns every matching entry, in order and once,
  // exactly when the limit is not zero or there is nothing to return.
  lemma PagingComplete(logs: seq<seq<Event>>, pages: seq<seq<Event>>, since: int, q: Query, limit: int)
    requires Session(logs, pages, since, q, limit) && pages != [] && pages[|pages| - 1] == []
    ensures var all := Select(logs[|logs| - 1], since, q);
      Flat(pages) == all <==> limit != 0 || all == []
  {
    var n := |pages| - 1;
    var log := logs[n];
    SessionSplits(logs, pages, since, q, limit);
    assert Flat(pages) == Flat(pages[..n]);
    if limit == 0 {
      NothingRead(pages, since, logs, q);
    } else {
      assert Select(log, Cursor(since, pages), q) == [];
    }
  }

  lemma {:induction false} NothingRead(pages: seq<seq<Event>>, since: int, logs: seq<seq<Event>>, q: Query)
    requires Session(logs, pages, since, q, 0)
    ensures Flat(pages) == []
    decreases |pages|
  {
    if pages != [] {
      var n := |pages| - 1;
      NothingRead(pages[..n], since, logs[..n], q);
    }
  }

  // Every page but an empty one moves the cursor forward.
  lemma PageAdvances(log: seq<Event>, since: int, q: Query, limit: int)
    requires Ascending(log)
    ensures var page := Page(log, since, q, limit);
      && (page != [] ==> page[|page| - 1].at > since && |Select(log, page[|page| - 1].at, q)| == |Select(log, since, q)| - |page|)
      && (page == [] <==> limit == 0 || Select(log, since, q) == [])
  {
    var page, all := Page(log, since, q, limit), Select(log, since, q);
    if page != [] {
      assert all == page + all[|page|..];
      SelectOn(log, since, q, page, all[|page|..]);
    }
  }
}
