// The cascade as a function of the order in which the database lists the rows
// of each task, and when `links_revoked` counts a link twice.
module CascadeOrder {
  import opened Domain
  import opened Graphs
  import opened LinkState
  import opened Cascade
  import opened LinkRuns

  // For each task, some listing of the links that touch it.
  type Orders = map<TaskId, seq<LinkId>>

  ghost predicate Lists(order: Orders, s: State, t: TaskId) {
    forall v :: v == t || v in s.tasks ==>
      && v in order && Distinct(order[v])
      && forall l :: l in s.links && Touches(s.links[l], v) ==> l in order[v]
  }

  // The rows of the frame's query: active, touching v.
  function RowsOf(listing: seq<LinkId>, s: State, v: TaskId): seq<LinkId> {
    if listing == [] then []
    else
      var l, rest := listing[0], RowsOf(listing[1..], s, v);
      if l in s.links && !s.links[l].revoked && Touches(s.links[l], v) then [l] + rest else rest
  }

  // What a later state of a cascade still has.
  ghost predicate Shrunk(s: State, s': State) {
    && s'.tasks.Keys == s.tasks.Keys && s'.links.Keys == s.links.Keys
    && (forall l :: l in s.links ==> s'.links[l] == s.links[l] || s'.links[l] == s.links[l].(revoked := true))
    && (forall v :: v in s.tasks && Cancellable(s'.tasks[v]) ==> Cancellable(s.tasks[v]))
  }

  lemma ShrunkAlive(s: State, s': State)
    requires Shrunk(s, s')
    ensures Alive(s') <= Alive(s)
  {
    SubsetSize(AliveTasks(s'), AliveTasks(s));
  }

  datatype Trail = Trail(s: State, seen: set<TaskId>, count: nat)

  // One call of cascade_on_task_termination.
  ghost function FrameRun(order: Orders, s: State, seen: set<TaskId>, t: TaskId): (r: Trail)
    requires t in order
    requires forall v :: v in s.tasks ==> v in order
    ensures Shrunk(s, r.s)
    decreases Alive(s), 1, 0
  {
    if t in seen then Trail(s, seen, 0)
    else RowsRun(order, s, seen + {t}, t, RowsOf(order[t], s, t))
  }

  // Its loop over the rows it has fetched.
  ghost function RowsRun(order: Orders, s: State, seen: set<TaskId>, t: TaskId, rows: seq<LinkId>): (r: Trail)
    requires forall v :: v in s.tasks ==> v in order
    ensures Shrunk(s, r.s)
    decreases Alive(s), 0, |rows|
  {
    if rows == [] then Trail(s, seen, 0)
    else
      var first := RowRun(order, s, seen, t, rows[0]);
      ShrunkAlive(s, first.s);
      var rest := RowsRun(order, first.s, first.seen, t, rows[1..]);
      Trail(rest.s, rest.seen, first.count + rest.count)
  }

  ghost function RowRun(order: Orders, s: State, seen: set<TaskId>, t: TaskId, l: LinkId): (r: Trail)
    requires forall v :: v in s.tasks ==> v in order
    ensures Shrunk(s, r.s)
    decreases Alive(s), 0, 0
  {
    if l !in s.links then Trail(s, seen, 1)
    else
      var row, s' := s.links[l], Revoke(s, l);
      if row.from != t || row.to !in s.tasks then Trail(s', seen, 1)
      else if DrivesChild(row) then
        if Cancellable(s.tasks[row.to]) then
          AliveCancel(s, l, row.to);
          var sub := FrameRun(order, Cancel(s', row.to), seen, row.to);
          Trail(sub.s, sub.seen, 1 + sub.count)
        else Trail(s', seen, 1)
      else if row.kind == Pipe then Trail(CutDep(s', t, row.to), seen, 1)
      else Trail(s', seen, 1)
  }

  // The loop over `rows` from s0 is at `s` with the rows `left` and the count so far.
  ghost predicate Resumes(order: Orders, s0: State, seen0: set<TaskId>, t: TaskId, rows: seq<LinkId>,
                          s: State, seen: set<TaskId>, count: nat, left: seq<LinkId>)
    requires forall v :: v in s0.tasks || v in s.tasks ==> v in order
  {
    var rest := RowsRun(order, s, seen, t, left);
    RowsRun(order, s0, seen0, t, rows) == Trail(rest.s, rest.seen, count + rest.count)
  }

  lemma ResumesNext(order: Orders, s0: State, seen0: set<TaskId>, t: TaskId, rows: seq<LinkId>,
                    s: State, seen: set<TaskId>, count: nat, left: seq<LinkId>)
    requires (forall v :: v in s0.tasks || v in s.tasks ==> v in order) && left != []
    requires Resumes(order, s0, seen0, t, rows, s, seen, count, left)
    ensures var r := RowRun(order, s, seen, t, left[0]);
      Shrunk(s, r.s) && Resumes(order, s0, seen0, t, rows, r.s, r.seen, count + r.count, left[1..])
  {
  }

  // The three kinds of row.
  lemma RowPassed(order: Orders, s: State, seen: set<TaskId>, t: TaskId, l: LinkId)
    requires (forall v :: v in s.tasks ==> v in order) && l in s.links
    requires var row := s.links[l];
      row.from == t && row.to in s.tasks ==>
        && (DrivesChild(row) ==> !Cancellable(s.tasks[row.to]))
        && (row.kind == Pipe ==> t !in s.tasks[row.to].deps)
    ensures RowRun(order, s, seen, t, l) == Trail(Revoke(s, l), seen, 1)
  {
    var row := s.links[l];
    if row.from == t && row.to in s.tasks && row.kind == Pipe {
      WithoutAbsent(s.tasks[row.to].deps, {t});
      assert CutDep(Revoke(s, l), t, row.to) == Revoke(s, l);
    }
  }

  lemma RowUnblocks(order: Orders, s: State, seen: set<TaskId>, t: TaskId, l: LinkId)
    requires (forall v :: v in s.tasks ==> v in order) && l in s.links
    requires s.links[l].from == t && s.links[l].to in s.tasks && s.links[l].kind == Pipe
    ensures RowRun(order, s, seen, t, l) == Trail(CutDep(Revoke(s, l), t, s.links[l].to), seen, 1)
  {
  }

  lemma RowCancels(order: Orders, s: State, seen: set<TaskId>, t: TaskId, l: LinkId)
    requires (forall v :: v in s.tasks ==> v in order) && l in s.links
    requires s.links[l].from == t && s.links[l].to in s.tasks && DrivesChild(s.links[l]) && Cancellable(s.tasks[s.links[l].to])
    ensures var sub := FrameRun(order, Cancel(Revoke(s, l), s.links[l].to), seen, s.links[l].to);
      RowRun(order, s, seen, t, l) == Trail(sub.s, sub.seen, 1 + sub.count)
  {
  }

  // ---- the rows of a frame -----------------------------------------------------------------

  lemma FrameShrinks(s0: State, t: TaskId, seen: set<TaskId>, handled: set<LinkId>, r: Summary,
                     cuts: seq<(TaskId, TaskId)>, hits: multiset<LinkId>, s: State)
    requires FrameInv(s0, t, seen, handled, r, cuts, hits, s)
    ensures Shrunk(s0, s)
  {
  }

  lemma OrderCovers(order: Orders, s0: State, t: TaskId, seen: set<TaskId>, handled: set<LinkId>, r: Summary,
                    cuts: seq<(TaskId, TaskId)>, hits: multiset<LinkId>, s: State)
    requires Lists(order, s0, t) && FrameInv(s0, t, seen, handled, r, cuts, hits, s)
    ensures forall v :: v in s.tasks ==> v in order
  {
  }

  lemma IdleRow(order: Orders, s0: State, t: TaskId, seen: set<TaskId>, handled: set<LinkId>, r: Summary,
                cuts: seq<(TaskId, TaskId)>, hits: multiset<LinkId>, s: State, l: LinkId)
    requires FrameInv(s0, t, seen, handled, r, cuts, hits, s) && Lists(order, s0, t)
    requires l in ActiveTouching(s0, t) && l !in handled && l in s.links
    requires var row := s.links[l];
      row.from == t && row.to in s.tasks ==>
        && (DrivesChild(row) ==> !Cancellable(s.tasks[row.to]))
        && (row.kind == Pipe ==> t !in s.tasks[row.to].deps)
    ensures FrameInv(s0, t, seen, handled + {l}, Counted(r), cuts, hits + multiset{l}, Revoke(s, l))
    ensures (forall v :: v in s.tasks ==> v in order) && RowRun(order, s, r.seen, t, l) == Trail(Revoke(s, l), r.seen, 1)
  {
    FrameShrinks(s0, t, seen, handled, r, cuts, hits, s);
    OrderCovers(order, s0, t, seen, handled, r, cuts, hits, s);
    FrameIdle(s0, t, seen, handled, r, cuts, hits, s, l);
    RowPassed(order, s, r.seen, t, l);
  }

  lemma PipeRow(order: Orders, s0: State, t: TaskId, seen: set<TaskId>, handled: set<LinkId>, r: Summary,
                cuts: seq<(TaskId, TaskId)>, hits: multiset<LinkId>, s: State, l: LinkId, child: TaskId)
    requires FrameInv(s0, t, seen, handled, r, cuts, hits, s) && Lists(order, s0, t)
    requires l in ActiveTouching(s0, t) && l !in handled && l in s.links
    requires s.links[l].from == t && s.links[l].to == child && s.links[l].kind == Pipe
    requires child in s.tasks && t in s.tasks[child].deps
    ensures FrameInv(s0, t, seen, handled + {l},
      Counted(r).(unblocked := r.unblocked + [child]), cuts + [(t, child)], hits + multiset{l},
      CutDep(Revoke(s, l), t, child))
    ensures (forall v :: v in s.tasks ==> v in order) &&
      RowRun(order, s, r.seen, t, l) == Trail(CutDep(Revoke(s, l), t, child), r.seen, 1)
  {
    FrameShrinks(s0, t, seen, handled, r, cuts, hits, s);
    OrderCovers(order, s0, t, seen, handled, r, cuts, hits, s);
    FramePipe(s0, t, seen, handled, r, cuts, hits, s, l, child);
    RowUnblocks(order, s, r.seen, t, l);
  }

  lemma ChildLists(order: Orders, s0: State, t: TaskId, s: State, l: LinkId, child: TaskId)
    requires Lists(order, s0, t) && Shrunk(s0, s) && l in s.links && child in s.tasks
    ensures Lists(order, Cancel(Revoke(s, l), child), child)
  {
  }

  lemma ChildRow(order: Orders, s0: State, t: TaskId, seen: set<TaskId>, handled: set<LinkId>, r: Summary,
                 cuts: seq<(TaskId, TaskId)>, hits: multiset<LinkId>, s: State, l: LinkId, child: TaskId)
    requires FrameInv(s0, t, seen, handled, r, cuts, hits, s) && Lists(order, s0, t)
    requires l in s.links && s.links[l].from == t && s.links[l].to == child && DrivesChild(s.links[l])
    requires child in s.tasks && Cancellable(s.tasks[child])
    ensures Lists(order, Cancel(Revoke(s, l), child), child)
    ensures ChildRun(order, s, r.seen, t, l, child)
  {
    FrameShrinks(s0, t, seen, handled, r, cuts, hits, s);
    ChildLists(order, s0, t, s, l, child);
    ChildRuns(order, s0, s, r.seen, t, l, child);
  }

  lemma DrivenRow(order: Orders, s0: State, t: TaskId, seen: set<TaskId>, handled: set<LinkId>, r: Summary,
                  cuts: seq<(TaskId, TaskId)>, hits: multiset<LinkId>, s: State, l: LinkId, child: TaskId,
                  r': Summary, cuts': seq<(TaskId, TaskId)>, hits': multiset<LinkId>, s2: State)
    requires FrameInv(s0, t, seen, handled, r, cuts, hits, s) && ChildRun(order, s, r.seen, t, l, child)
    requires Driven(s0, t, handled, Elems(r.cancelled), Elems(cuts), s, l, child) && l !in handled
    requires var s1 := Cancel(Revoke(s, l), child);
      && FrameInv(s1, child, r.seen, ActiveTouching(s1, child), r', cuts', hits', s2)
      && FrameRun(order, s1, r.seen, child) == Trail(s2, r'.seen, r'.revoked)
    ensures FrameInv(s0, t, seen, handled + {l}, Absorb(r, child, r'), cuts + cuts', hits + multiset{l} + hits', s2)
    ensures RowRun(order, s, r.seen, t, l) == Trail(s2, r'.seen, 1 + r'.revoked)
  {
    FrameDriven(s0, t, seen, handled, r, cuts, hits, s, l, child, r', cuts', hits', s2);
  }

  // The row of a child that is cancelled runs the child's frame.
  ghost predicate ChildRun(order: Orders, s: State, seen: set<TaskId>, t: TaskId, l: LinkId, child: TaskId) {
    && l in s.links && child in s.tasks && child in order && (forall v :: v in s.tasks ==> v in order)
    && var sub := FrameRun(order, Cancel(Revoke(s, l), child), seen, child);
       RowRun(order, s, seen, t, l) == Trail(sub.s, sub.seen, 1 + sub.count)
  }

  lemma ChildRuns(order: Orders, s0: State, s: State, seen: set<TaskId>, t: TaskId, l: LinkId, child: TaskId)
    requires Lists(order, s0, t) && Shrunk(s0, s)
    requires l in s.links && s.links[l].from == t && s.links[l].to == child && DrivesChild(s.links[l])
    requires child in s.tasks && Cancellable(s.tasks[child])
    ensures ChildRun(order, s, seen, t, l, child)
  {
    assert forall v :: v in s.tasks ==> v in s0.tasks.Keys;
    RowCancels(order, s, seen, t, l);
  }

  // ---- counting --------------------------------------------------------------------------

  lemma NewlySplits(s: State, s1: State, s2: State)
    requires Shrunk(s, s1) && Shrunk(s1, s2)
    ensures |NewlyRevoked(s, s2)| == |NewlyRevoked(s, s1)| + |NewlyRevoked(s1, s2)|
  {
    var a, b := NewlyRevoked(s, s1), NewlyRevoked(s1, s2);
    assert NewlyRevoked(s, s2) == a + b && a !! b;
  }

  lemma NewlyByRow(s: State, l: LinkId)
    requires l in s.links
    ensures NewlyRevoked(s, Revoke(s, l)) == if s.links[l].revoked then {} else {l}
  {
  }

  ghost predicate Gone(s: State, l: LinkId) {
    l in s.links && s.links[l].revoked
  }

  // Every row is counted, so the count is at least the links revoked, and more
  // once a row was revoked before its turn.
  lemma {:induction false} FrameAtLeast(order: Orders, s: State, seen: set<TaskId>, t: TaskId)
    requires t in order && forall v :: v in s.tasks ==> v in order
    ensures var r := FrameRun(order, s, seen, t); r.count >= |NewlyRevoked(s, r.s)|
    decreases Alive(s), 1, 0
  {
    if t in seen {
      assert NewlyRevoked(s, s) == {};
    } else {
      RowsAtLeast(order, s, seen + {t}, t, RowsOf(order[t], s, t));
    }
  }

  lemma {:induction false} RowsAtLeast(order: Orders, s: State, seen: set<TaskId>, t: TaskId, rows: seq<LinkId>)
    requires forall v :: v in s.tasks ==> v in order
    ensures var r := RowsRun(order, s, seen, t, rows);
      r.count >= |NewlyRevoked(s, r.s)| + if exists l :: l in rows && Gone(s, l) then 1 else 0
    decreases Alive(s), 0, |rows|
  {
    if rows == [] {
      assert NewlyRevoked(s, s) == {};
    } else {
      var first := RowRun(order, s, seen, t, rows[0]);
      ShrunkAlive(s, first.s);
      RowAtLeast(order, s, seen, t, rows[0]);
      RowsAtLeast(order, first.s, first.seen, t, rows[1..]);
      NewlySplits(s, first.s, RowsRun(order, s, seen, t, rows).s);
      if l :| l in rows && Gone(s, l) && l != rows[0] {
        InRest(rows, l);
        assert Gone(first.s, l);
      }
    }
  }

  lemma InRest(rows: seq<LinkId>, l: LinkId)
    requires l in rows && l != rows[0]
    ensures l in rows[1..]
  {
    var i :| 0 <= i < |rows| && rows[i] == l;
    assert rows[1..][i - 1] == l;
  }

  lemma {:induction false} RowAtLeast(order: Orders, s: State, seen: set<TaskId>, t: TaskId, l: LinkId)
    requires forall v :: v in s.tasks ==> v in order
    ensures var r := RowRun(order, s, seen, t, l);
      r.count >= |NewlyRevoked(s, r.s)| + if Gone(s, l) then 1 else 0
    decreases Alive(s), 0, 0
  {
    var r := RowRun(order, s, seen, t, l);
    if l !in s.links {
      assert NewlyRevoked(s, s) == {};
    } else {
      NewlyByRow(s, l);
      if s.links[l].from == t && s.links[l].to in s.tasks && DrivesChild(s.links[l]) && Cancellable(s.tasks[s.links[l].to]) {
        var s1 := Cancel(Revoke(s, l), s.links[l].to);
        AliveCancel(s, l, s.links[l].to);
        FrameAtLeast(order, s1, seen, s.links[l].to);
        NewlySplits(s, s1, r.s);
        assert NewlyRevoked(s, s1) == NewlyRevoked(s, Revoke(s, l));
      } else {
        assert NewlyRevoked(s, r.s) == NewlyRevoked(s, Revoke(s, l));
      }
    }
  }

  // ---- when the count is exact ---------------------------------------------------------------

  ghost predicate Follows(s: State, k: LinkId) {
    && k in s.links && !s.links[k].revoked && DrivesChild(s.links[k])
    && s.links[k].to in s.tasks && Cancellable(s.tasks[s.links[k].to])
  }

  // Link l joins y to a task v that the cascade also finds behind link k out of y.
  ghost predicate Clash(s: State, y: TaskId, k: LinkId, l: LinkId, v: TaskId) {
    && Follows(s, k) && s.links[k].from == y
    && l in s.links && !s.links[l].revoked && l != k
    && v != y && Touches(s.links[l], y) && Touches(s.links[l], v)
    && Reaches(DriveEdges(s), s.links[k].to, v)
  }

  ghost predicate Clear(s: State, x: TaskId) {
    forall y, k, l, v :: Reaches(DriveEdges(s), x, y) ==> !Clash(s, y, k, l, v)
  }

  lemma DrivesShrink(s: State, s': State)
    requires Shrunk(s, s')
    ensures DriveEdges(s') <= DriveEdges(s)
  {
    forall l | l in s'.links && Follows(s', l)
      ensures Follows(s, l) && s.links[l] == s'.links[l]
    {
      assert l in s.links.Keys && s'.links[l].to in s'.tasks.Keys;
    }
  }

  lemma ClearShrinks(s: State, s': State, x: TaskId, z: TaskId)
    requires Shrunk(s, s') && Clear(s, x) && Reaches(DriveEdges(s), x, z)
    ensures Clear(s', z)
  {
    DrivesShrink(s, s');
    forall y, k, l, v | Reaches(DriveEdges(s'), z, y)
      ensures !Clash(s', y, k, l, v)
    {
      ReachesMono(DriveEdges(s'), DriveEdges(s), z, y);
      ReachesTrans(DriveEdges(s), x, z, y);
      if Clash(s', y, k, l, v) {
        ReachesMono(DriveEdges(s'), DriveEdges(s), s'.links[k].to, v);
        assert Clash(s, y, k, l, v);
      }
    }
  }

  // A task that can no longer be cancelled is reached only from itself.
  lemma SettledUnreached(s: State, z: TaskId, x: TaskId)
    requires Settled(s, x) && Reaches(DriveEdges(s), z, x)
    ensures z == x
  {
    forall y
      ensures (y, x) !in DriveEdges(s)
    {
    }
    NoEntry(DriveEdges(s), z, x);
  }

  // Everything revoked between two states touches a task reached from x.
  ghost predicate Behind(s: State, x: TaskId, s': State) {
    forall l :: l in NewlyRevoked(s, s') ==> exists v :: Reaches(DriveEdges(s), x, v) && Touches(s.links[l], v)
  }

  lemma {:induction false} FrameExact(order: Orders, s: State, seen: set<TaskId>, x: TaskId)
    requires Lists(order, s, x) && Settled(s, x) && Clear(s, x)
    ensures var r := FrameRun(order, s, seen, x);
      r.count == |NewlyRevoked(s, r.s)| && Behind(s, x, r.s)
    decreases Alive(s), 1, 0
  {
    if x in seen {
      assert NewlyRevoked(s, s) == {};
    } else {
      RowsListed(order[x], s, x);
      RowsExact(order, s, seen + {x}, x, RowsOf(order[x], s, x));
    }
  }

  lemma {:induction false} RowsListed(listing: seq<LinkId>, s: State, v: TaskId)
    requires Distinct(listing)
    ensures Distinct(RowsOf(listing, s, v))
    ensures forall l :: l in RowsOf(listing, s, v) <==> l in listing && l in ActiveTouching(s, v)
  {
    if listing != [] {
      RowsListed(listing[1..], s, v);
      assert listing == [listing[0]] + listing[1..];
      assert listing[0] !in listing[1..];
    }
  }

  lemma StillReady(order: Orders, s: State, s1: State, x: TaskId)
    requires Lists(order, s, x) && Settled(s, x) && Clear(s, x) && Shrunk(s, s1)
    ensures Lists(order, s1, x) && Settled(s1, x) && Clear(s1, x)
  {
    ReachesSelf(DriveEdges(s), x);
    ClearShrinks(s, s1, x, x);
  }

  lemma StillActive(rows: seq<LinkId>, s: State, s1: State, x: TaskId)
    requires rows != [] && Distinct(rows) && forall l :: l in rows ==> l in ActiveTouching(s, x)
    requires forall k :: k in ActiveTouching(s, x) && k != rows[0] ==> k in ActiveTouching(s1, x)
    ensures Distinct(rows[1..]) && forall l :: l in rows[1..] ==> l in ActiveTouching(s1, x)
  {
    forall l | l in rows[1..]
      ensures l in ActiveTouching(s1, x)
    {
      assert l in rows && l != rows[0];
    }
  }

  lemma {:induction false} RowsExact(order: Orders, s: State, seen: set<TaskId>, x: TaskId, rows: seq<LinkId>)
    requires Lists(order, s, x) && Settled(s, x) && Clear(s, x)
    requires Distinct(rows) && forall l :: l in rows ==> l in ActiveTouching(s, x)
    ensures var r := RowsRun(order, s, seen, x, rows);
      r.count == |NewlyRevoked(s, r.s)| && Behind(s, x, r.s)
    decreases Alive(s), 0, |rows| + 1
  {
    if rows == [] {
      assert NewlyRevoked(s, s) == {};
    } else {
      var first := RowRun(order, s, seen, x, rows[0]);
      var r := RowsRun(order, s, seen, x, rows);
      ShrunkAlive(s, first.s);
      RowExact(order, s, seen, x, rows[0]);
      StillReady(order, s, first.s, x);
      StillActive(rows, s, first.s, x);
      RowsExact(order, first.s, first.seen, x, rows[1..]);
      NewlySplits(s, first.s, r.s);
      BehindJoins(s, first.s, r.s, x);
    }
  }

  lemma BehindJoins(s: State, s1: State, s2: State, x: TaskId)
    requires Shrunk(s, s1) && Shrunk(s1, s2) && Behind(s, x, s1) && Behind(s1, x, s2)
    ensures Behind(s, x, s2)
  {
    DrivesShrink(s, s1);
    forall l | l in NewlyRevoked(s, s2)
      ensures exists v :: Reaches(DriveEdges(s), x, v) && Touches(s.links[l], v)
    {
      if l !in NewlyRevoked(s, s1) {
        assert l in NewlyRevoked(s1, s2);
        var v :| Reaches(DriveEdges(s1), x, v) && Touches(s1.links[l], v);
        ReachesMono(DriveEdges(s1), DriveEdges(s), x, v);
      }
    }
  }

  // One row: no other row of the frame is touched by what lies behind it.
  lemma {:induction false} RowExact(order: Orders, s: State, seen: set<TaskId>, x: TaskId, l: LinkId)
    requires Lists(order, s, x) && Settled(s, x) && Clear(s, x) && l in ActiveTouching(s, x)
    ensures var r := RowRun(order, s, seen, x, l);
      && r.count == |NewlyRevoked(s, r.s)| && Behind(s, x, r.s)
      && forall k :: k in ActiveTouching(s, x) && k != l ==> k in ActiveTouching(r.s, x)
    decreases Alive(s), 0, 1
  {
    NewlyByRow(s, l);
    if Follows(s, l) && s.links[l].from == x {
      ChildExact(order, s, seen, x, l);
    } else {
      QuietRow(s, x, l, RowRun(order, s, seen, x, l).s);
    }
  }

  lemma QuietRow(s: State, x: TaskId, l: LinkId, s1: State)
    requires l in ActiveTouching(s, x) && s1.links == Revoke(s, l).links
    ensures NewlyRevoked(s, s1) == {l} && Behind(s, x, s1)
    ensures forall k :: k in ActiveTouching(s, x) && k != l ==> k in ActiveTouching(s1, x)
  {
    ReachesSelf(DriveEdges(s), x);
  }

  lemma {:induction false} ChildExact(order: Orders, s: State, seen: set<TaskId>, x: TaskId, l: LinkId)
    requires Lists(order, s, x) && Settled(s, x) && Clear(s, x)
    requires Follows(s, l) && s.links[l].from == x
    ensures var r := FrameRun(order, Cancel(Revoke(s, l), s.links[l].to), seen, s.links[l].to);
      && 1 + r.count == |NewlyRevoked(s, r.s)| && Behind(s, x, r.s)
      && forall k :: k in ActiveTouching(s, x) && k != l ==> k in ActiveTouching(r.s, x)
    decreases Alive(s), 0, 0
  {
    var z := s.links[l].to;
    var s1 := Cancel(Revoke(s, l), z);
    var r := FrameRun(order, s1, seen, z);
    AliveCancel(s, l, z);
    ChildReady(order, s, x, l, s1);
    FrameExact(order, s1, seen, z);
    NewlySplits(s, s1, r.s);
    BehindDown(s, x, l, s1, r.s);
  }

  lemma ChildReady(order: Orders, s: State, x: TaskId, l: LinkId, s1: State)
    requires Lists(order, s, x) && Clear(s, x)
    requires Follows(s, l) && s.links[l].from == x && s1 == Cancel(Revoke(s, l), s.links[l].to)
    ensures Shrunk(s, s1) && |NewlyRevoked(s, s1)| == 1
    ensures Lists(order, s1, s.links[l].to) && Settled(s1, s.links[l].to) && Clear(s1, s.links[l].to)
  {
    var z := s.links[l].to;
    assert NewlyRevoked(s, s1) == {l};
    ChildLists(order, s, x, s, l, z);
    assert (x, z) in DriveEdges(s);
    ReachesEdge(DriveEdges(s), x, z);
    ClearShrinks(s, s1, x, z);
  }

  lemma BehindDown(s: State, x: TaskId, l: LinkId, s1: State, s2: State)
    requires Follows(s, l) && s.links[l].from == x && Settled(s, x) && Clear(s, x)
    requires s1 == Cancel(Revoke(s, l), s.links[l].to) && Shrunk(s, s1) && Shrunk(s1, s2) && Behind(s1, s.links[l].to, s2)
    ensures Behind(s, x, s2)
    ensures forall k :: k in ActiveTouching(s, x) && k != l ==> k in ActiveTouching(s2, x)
  {
    var z := s.links[l].to;
    DrivesShrink(s, s1);
    ReachesSelf(DriveEdges(s), x);
    assert (x, z) in DriveEdges(s);
    ReachesEdge(DriveEdges(s), x, z);
    forall k | k in NewlyRevoked(s, s2) && k != l
      ensures k !in ActiveTouching(s, x) && exists v :: Reaches(DriveEdges(s), x, v) && Touches(s.links[k], v)
    {
      assert k in NewlyRevoked(s1, s2);
      var v :| Reaches(DriveEdges(s1), z, v) && Touches(s1.links[k], v);
      ReachesMono(DriveEdges(s1), DriveEdges(s), z, v);
      ReachesTrans(DriveEdges(s), x, z, v);
      if v == x { SettledUnreached(s, z, x); }
      assert !Clash(s, x, l, k, v);
    }
    assert Touches(s.links[l], x);
  }

  // ---- an order that counts twice ----------------------------------------------------------------

  ghost function Stepped(s: State, k: LinkId): (r: State)
    requires Follows(s, k)
    ensures Shrunk(s, r) && Alive(r) < Alive(s)
  {
    AliveCancel(s, k, s.links[k].to);
    Cancel(Revoke(s, k), s.links[k].to)
  }

  // Links that a cascade in this order takes one after the other, each as the
  // first row of its task, from v to w.
  ghost predicate Road(order: Orders, s: State, seen: set<TaskId>, ks: seq<LinkId>, v: TaskId, w: TaskId)
    decreases |ks|
  {
    && v in order && v !in seen
    && if ks == [] then v == w
       else
         var k := ks[0];
         && Follows(s, k) && s.links[k].from == v && order[v] != [] && order[v][0] == k
         && Road(order, Stepped(s, k), seen + {v}, ks[1..], s.links[k].to, w)
  }

  lemma RoadRow(order: Orders, s: State, seen: set<TaskId>, ks: seq<LinkId>, v: TaskId, w: TaskId)
    requires (forall u :: u in s.tasks ==> u in order) && ks != [] && Road(order, s, seen, ks, v, w)
    ensures RowsOf(order[v], s, v) == [ks[0]] + RowsOf(order[v][1..], s, v)
    ensures var sub := FrameRun(order, Stepped(s, ks[0]), seen + {v}, s.links[ks[0]].to);
      RowRun(order, s, seen + {v}, v, ks[0]) == Trail(sub.s, sub.seen, 1 + sub.count)
  {
  }

  // The frame of a task on the road: the road first, then its other rows.
  lemma RoadFrame(order: Orders, s: State, seen: set<TaskId>, ks: seq<LinkId>, v: TaskId, w: TaskId)
    requires (forall u :: u in s.tasks ==> u in order) && ks != [] && Road(order, s, seen, ks, v, w)
    ensures var sub := FrameRun(order, Stepped(s, ks[0]), seen + {v}, s.links[ks[0]].to);
      var rest := RowsRun(order, sub.s, sub.seen, v, RowsOf(order[v][1..], s, v));
      FrameRun(order, s, seen, v) == Trail(rest.s, rest.seen, 1 + sub.count + rest.count)
  {
    var rows := RowsOf(order[v], s, v);
    RoadRow(order, s, seen, ks, v, w);
    assert rows[1..] == RowsOf(order[v][1..], s, v) && rows[0] == ks[0];
    var first := RowRun(order, s, seen + {v}, v, rows[0]);
    assert FrameRun(order, s, seen, v) == RowsRun(order, s, seen + {v}, v, rows);
  }

  lemma {:induction false} RowsHave(listing: seq<LinkId>, s: State, v: TaskId, l: LinkId)
    requires l in listing && l in ActiveTouching(s, v)
    ensures l in RowsOf(listing, s, v)
  {
    if listing[0] != l {
      RowsHave(listing[1..], s, v, l);
    }
  }

  // The road from its second task on, and a link that is not part of it.
  lemma RoadDown(order: Orders, s: State, seen: set<TaskId>, ks: seq<LinkId>, v: TaskId, w: TaskId, l: LinkId)
    requires ks != [] && Road(order, s, seen, ks, v, w) && l in ActiveTouching(s, w) && l !in ks
    ensures var s1 := Stepped(s, ks[0]);
      && Road(order, s1, seen + {v}, ks[1..], s.links[ks[0]].to, w)
      && s1.tasks.Keys == s.tasks.Keys && s1.links.Keys == s.links.Keys
      && l in ActiveTouching(s1, w) && l !in ks[1..]
      && forall k :: k in s.links ==> s1.links[k].from == s.links[k].from
  {
    assert ks[0] in ks;
  }

  // A link that touches the end of the road is revoked on the way.
  lemma {:induction false} RoadBuries(order: Orders, s: State, seen: set<TaskId>, ks: seq<LinkId>, v: TaskId, w: TaskId, l: LinkId)
    requires (forall u :: u in s.tasks ==> u in order) && Road(order, s, seen, ks, v, w)
    requires w in order && l in order[w] && l in ActiveTouching(s, w) && l !in ks
    ensures Gone(FrameRun(order, s, seen, v).s, l)
    decreases |ks|
  {
    if ks == [] {
      RowsHave(order[v], s, v, l);
      RowsBury(order, s, seen + {v}, v, RowsOf(order[v], s, v), l);
    } else {
      RoadFrame(order, s, seen, ks, v, w);
      RoadDown(order, s, seen, ks, v, w, l);
      RoadBuries(order, Stepped(s, ks[0]), seen + {v}, ks[1..], s.links[ks[0]].to, w, l);
    }
  }

  lemma {:induction false} RowsBury(order: Orders, s: State, seen: set<TaskId>, t: TaskId, rows: seq<LinkId>, l: LinkId)
    requires (forall v :: v in s.tasks ==> v in order) && l in rows && l in s.links
    ensures Gone(RowsRun(order, s, seen, t, rows).s, l)
    decreases |rows|
  {
    var first := RowRun(order, s, seen, t, rows[0]);
    if rows[0] != l {
      RowsBury(order, first.s, first.seen, t, rows[1..], l);
    } else {
      assert Gone(first.s, l);
    }
  }

  lemma SteppedNewly(s: State, k: LinkId)
    requires Follows(s, k)
    ensures |NewlyRevoked(s, Stepped(s, k))| == 1
  {
    assert NewlyRevoked(s, Stepped(s, k)) == {k};
  }

  // What the road's frame counts beyond the links it revokes, it counts in the
  // frame below or in its other rows.
  lemma RoadTotal(order: Orders, s: State, seen: set<TaskId>, ks: seq<LinkId>, v: TaskId, w: TaskId)
    requires (forall u :: u in s.tasks ==> u in order) && ks != [] && Road(order, s, seen, ks, v, w)
    ensures var sub := FrameRun(order, Stepped(s, ks[0]), seen + {v}, s.links[ks[0]].to);
      var r := FrameRun(order, s, seen, v);
      && r.count - |NewlyRevoked(s, r.s)| >= sub.count - |NewlyRevoked(Stepped(s, ks[0]), sub.s)|
      && ((exists l :: l in RowsOf(order[v][1..], s, v) && Gone(sub.s, l)) ==>
            r.count - |NewlyRevoked(s, r.s)| > sub.count - |NewlyRevoked(Stepped(s, ks[0]), sub.s)|)
  {
    var rows, s1 := RowsOf(order[v][1..], s, v), Stepped(s, ks[0]);
    var sub, r := FrameRun(order, s1, seen + {v}, s.links[ks[0]].to), FrameRun(order, s, seen, v);
    RoadFrame(order, s, seen, ks, v, w);
    var rest := RowsRun(order, sub.s, sub.seen, v, rows);
    RowsAtLeast(order, sub.s, sub.seen, v, rows);
    NewlySteps(s, ks[0], sub.s, rest.s);
    assert r.s == rest.s && r.count == 1 + sub.count + rest.count;
  }

  lemma NewlySteps(s: State, k: LinkId, s1: State, s2: State)
    requires Follows(s, k) && Shrunk(Stepped(s, k), s1) && Shrunk(s1, s2)
    ensures |NewlyRevoked(s, s2)| == 1 + |NewlyRevoked(Stepped(s, k), s1)| + |NewlyRevoked(s1, s2)|
  {
    SteppedNewly(s, k);
    NewlySplits(s, Stepped(s, k), s1);
    NewlySplits(s, s1, s2);
  }

  // A link that leaves a task of the road for its end, other than the road's own
  // link m out of that task, is counted at the end and again at that task.
  lemma {:induction false} RoadCountsTwice(order: Orders, s: State, seen: set<TaskId>, ks: seq<LinkId>, v: TaskId, w: TaskId,
                                           m: LinkId, l: LinkId)
    requires (forall u :: u in s.tasks ==> u in order) && Road(order, s, seen, ks, v, w)
    requires w in order && l in order[w] && l in ActiveTouching(s, w) && l !in ks
    requires m in ks && m in s.links && s.links[l].from == s.links[m].from
    requires s.links[l].from in order && l in order[s.links[l].from]
    ensures var r := FrameRun(order, s, seen, v); r.count > |NewlyRevoked(s, r.s)|
    decreases |ks|
  {
    if m == ks[0] {
      RoadEndsTwice(order, s, seen, ks, v, w, l);
    } else {
      RoadTotal(order, s, seen, ks, v, w);
      RoadDown(order, s, seen, ks, v, w, l);
      InRest(ks, m);
      var s1 := Stepped(s, ks[0]);
      assert forall u :: u in s1.tasks ==> u in s.tasks.Keys;
      assert m in s1.links.Keys && l in s1.links.Keys;
      RoadCountsTwice(order, s1, seen + {v}, ks[1..], s.links[ks[0]].to, w, m, l);
    }
  }

  lemma RoadEndsTwice(order: Orders, s: State, seen: set<TaskId>, ks: seq<LinkId>, v: TaskId, w: TaskId, l: LinkId)
    requires (forall u :: u in s.tasks ==> u in order) && ks != [] && Road(order, s, seen, ks, v, w)
    requires w in order && l in order[w] && l in ActiveTouching(s, w) && l !in ks
    requires s.links[l].from == v && l in order[v]
    ensures var r := FrameRun(order, s, seen, v); r.count > |NewlyRevoked(s, r.s)|
  {
    var s1, z := Stepped(s, ks[0]), s.links[ks[0]].to;
    assert l != ks[0];
    RoadTotal(order, s, seen, ks, v, w);
    FrameAtLeast(order, s1, seen + {v}, z);
    RoadBuries(order, s1, seen + {v}, ks[1..], z, w, l);
    RowsHave(order[v][1..], s, v, l);
  }

  // ---- the theorem -------------------------------------------------------------------------------

  ghost function ActiveEdges(links: map<LinkId, Link>): Edges {
    set l | l in links && !links[l].revoked :: (links[l].from, links[l].to)
  }

  // Links k and l leave x; the cascade follows k and finds the end of l behind it.
  ghost predicate Fork(s: State, x: TaskId, k: LinkId, l: LinkId) {
    && Follows(s, k) && s.links[k].from == x
    && l in s.links && !s.links[l].revoked && s.links[l].from == x && l != k
    && Reaches(DriveEdges(s), s.links[k].to, s.links[l].to)
  }

  // A second way, beginning with another link, from one task of the cascade to
  // the end of one of its links.
  ghost predicate Bypassed(s: State, t: TaskId) {
    exists x, k, l :: Reaches(DriveEdges(s), t, x) && Fork(s, x, k, l)
  }

  lemma DrivesActive(s: State)
    ensures DriveEdges(s) <= ActiveEdges(s.links)
  {
  }

  lemma UnbypassedClear(s: State, t: TaskId)
    requires Acyclic(ActiveEdges(s.links)) && !Bypassed(s, t)
    ensures Clear(s, t)
  {
    forall y, k, l, v | Reaches(DriveEdges(s), t, y)
      ensures !Clash(s, y, k, l, v)
    {
      if Clash(s, y, k, l, v) {
        if s.links[l].from == y && s.links[l].to == v {
          assert Fork(s, y, k, l);
        } else {
          DrivesActive(s);
          var es := ActiveEdges(s.links);
          assert (v, y) in es && (y, s.links[k].to) in es;
          ReachesMono(DriveEdges(s), es, s.links[k].to, v);
          ReachesEdge(es, y, s.links[k].to);
          ReachesTrans(es, y, s.links[k].to, v);
        }
      }
    }
  }

  lemma WalkDistinct(es: Edges, p: seq<Node>)
    requires Acyclic(es) && IsWalk(es, p)
    ensures Distinct(p)
  {
    forall i, j | 0 <= i < j < |p|
      ensures p[i] != p[j]
    {
      assert (p[i], p[i + 1]) in es;
      assert IsWalk(es, p[i + 1..j + 1]);
    }
  }

  // The drive links along a walk.
  ghost predicate Along(s: State, ks: seq<LinkId>, p: seq<TaskId>) {
    && |p| == |ks| + 1
    && forall i :: 0 <= i < |ks| ==> Follows(s, ks[i]) && s.links[ks[i]].from == p[i] && s.links[ks[i]].to == p[i + 1]
  }

  lemma {:induction false} LinksAlong(s: State, p: seq<TaskId>) returns (ks: seq<LinkId>)
    requires IsWalk(DriveEdges(s), p)
    ensures Along(s, ks, p)
  {
    if |p| == 1 {
      ks := [];
    } else {
      assert (p[0], p[0 + 1]) in DriveEdges(s);
      var k :| k in s.links && Follows(s, k) && (p[0], p[1]) == (s.links[k].from, s.links[k].to);
      forall i | 0 <= i < |p[1..]| - 1
        ensures (p[1..][i], p[1..][i + 1]) in DriveEdges(s)
      {
        assert (p[i + 1], p[i + 1 + 1]) in DriveEdges(s);
      }
      var rest := LinksAlong(s, p[1..]);
      ks := [k] + rest;
    }
  }

  ghost predicate Leads(order: Orders, ks: seq<LinkId>, p: seq<TaskId>)
    requires |p| == |ks| + 1
  {
    && (forall i :: 0 <= i < |p| ==> p[i] in order)
    && forall i :: 0 <= i < |ks| ==> order[p[i]] != [] && order[p[i]][0] == ks[i]
  }

  // The walk from its i-th task on, when the tasks before have been passed.
  ghost predicate Ahead(s: State, seen: set<TaskId>, ks: seq<LinkId>, p: seq<TaskId>, i: nat)
    requires |p| == |ks| + 1
  {
    && (forall j :: i <= j < |ks| ==> Follows(s, ks[j]) && s.links[ks[j]].from == p[j] && s.links[ks[j]].to == p[j + 1])
    && (forall j :: i <= j < |p| ==> p[j] !in seen)
  }

  lemma AheadStepped(s: State, seen: set<TaskId>, ks: seq<LinkId>, p: seq<TaskId>, i: nat)
    requires |p| == |ks| + 1 && Ahead(s, seen, ks, p, i) && Distinct(p) && i < |ks|
    ensures Follows(s, ks[i]) && Ahead(Stepped(s, ks[i]), seen + {p[i]}, ks, p, i + 1)
  {
    assert Follows(s, ks[i]);
    forall j | i + 1 <= j < |ks|
      ensures Follows(Stepped(s, ks[i]), ks[j]) && Stepped(s, ks[i]).links[ks[j]] == s.links[ks[j]]
    {
      assert Follows(s, ks[j]) && p[j] != p[i] && p[j + 1] != p[i + 1];
    }
  }

  lemma {:induction false} MakeRoad(order: Orders, s: State, seen: set<TaskId>, ks: seq<LinkId>, p: seq<TaskId>, i: nat)
    requires |p| == |ks| + 1 && Ahead(s, seen, ks, p, i) && Distinct(p) && Leads(order, ks, p) && i < |p|
    ensures Road(order, s, seen, ks[i..], p[i], p[|p| - 1])
    decreases |p| - i
  {
    if i < |ks| {
      AheadStepped(s, seen, ks, p, i);
      MakeRoad(order, Stepped(s, ks[i]), seen + {p[i]}, ks, p, i + 1);
      assert ks[i..][0] == ks[i] && ks[i..][1..] == ks[i + 1..];
    }
  }

  ghost function Listed(ls: set<LinkId>): seq<LinkId> {
    if ls == {} then []
    else
      var l :| l in ls;
      [l] + Listed(ls - {l})
  }

  lemma {:induction false} ListedAll(ls: set<LinkId>)
    ensures Distinct(Listed(ls)) && forall l :: l in Listed(ls) <==> l in ls
  {
    if ls != {} {
      var l := Listed(ls)[0];
      assert l in ls && Listed(ls)[1..] == Listed(ls - {l});
      ListedAll(ls - {l});
    }
  }

  ghost function LinksOf(s: State, v: TaskId): set<LinkId> {
    set l | l in s.links && Touches(s.links[l], v)
  }

  // Each task of the walk lists the walk's own link first.
  ghost function RoadOrder(s: State, t: TaskId, ks: seq<LinkId>, p: seq<TaskId>): Orders
    requires |p| == |ks| + 1
  {
    map v | v in s.tasks.Keys + {t} ::
      if v in p[..|ks|] then
        var k := ks[First(p, v)];
        [k] + Listed(LinksOf(s, v) - {k})
      else Listed(LinksOf(s, v))
  }

  lemma RoadOrderLists(s: State, t: TaskId, ks: seq<LinkId>, p: seq<TaskId>)
    requires Along(s, ks, p) && Distinct(p) && p[0] == t
    ensures var order := RoadOrder(s, t, ks, p);
      Lists(order, s, t) && Leads(order, ks, p)
  {
    var order := RoadOrder(s, t, ks, p);
    forall v | v in s.tasks.Keys + {t}
      ensures v in order && Distinct(order[v]) && forall l :: l in LinksOf(s, v) ==> l in order[v]
    {
      ListedAll(LinksOf(s, v));
      if v in p[..|ks|] {
        var k := ks[First(p, v)];
        ListedAll(LinksOf(s, v) - {k});
      }
    }
    forall i | 0 <= i < |ks|
      ensures p[i] in order && order[p[i]] != [] && order[p[i]][0] == ks[i]
    {
      assert i > 0 ==> Follows(s, ks[i - 1]) && s.links[ks[i - 1]].to == p[i - 1 + 1];
      assert p[..|ks|][i] == p[i];
      assert First(p, p[i]) == i;
    }
    assert ks != [] ==> Follows(s, ks[|ks| - 1]) && s.links[ks[|ks| - 1]].to == p[|ks| - 1 + 1];
  }

  lemma JoinWalks(es: Edges, p: seq<Node>, q: seq<Node>)
    requires IsWalk(es, p) && IsWalk(es, q) && (p[|p| - 1], q[0]) in es
    ensures IsWalk(es, p + q)
  {
    var r := p + q;
    forall i | 0 <= i < |r| - 1
      ensures (r[i], r[i + 1]) in es
    {
      if i >= |p| { assert (q[i - |p|], q[i - |p| + 1]) in es; }
    }
  }

  // The walk to the fork and on behind link k.
  lemma ForkPath(s: State, t: TaskId, x: TaskId, k: LinkId, l: LinkId) returns (p: seq<TaskId>, n: nat)
    requires Acyclic(ActiveEdges(s.links)) && Reaches(DriveEdges(s), t, x) && Fork(s, x, k, l)
    ensures IsWalk(DriveEdges(s), p) && Distinct(p) && p[0] == t && p[|p| - 1] == s.links[l].to
    ensures n + 1 < |p| && p[n] == x && p[n + 1] == s.links[k].to
  {
    var es := DriveEdges(s);
    var walk :| IsWalk(es, walk) && walk[0] == t && walk[|walk| - 1] == x;
    var on :| IsWalk(es, on) && on[0] == s.links[k].to && on[|on| - 1] == s.links[l].to;
    assert (x, on[0]) in es;
    JoinWalks(es, walk, on);
    p, n := walk + on, |walk| - 1;
    DrivesActive(s);
    AcyclicMono(es, ActiveEdges(s.links));
    WalkDistinct(es, p);
  }

  // And the links along it, k among them.
  lemma ForkWalk(s: State, t: TaskId, x: TaskId, k: LinkId, l: LinkId) returns (ks: seq<LinkId>, p: seq<TaskId>, n: nat)
    requires Acyclic(ActiveEdges(s.links)) && Reaches(DriveEdges(s), t, x) && Fork(s, x, k, l)
    ensures Along(s, ks, p) && Distinct(p) && p[0] == t && p[|p| - 1] == s.links[l].to
    ensures n < |ks| && ks[n] == k && l !in ks
  {
    p, n := ForkPath(s, t, x, k, l);
    var along := LinksAlong(s, p);
    ks := along[n := k];
    OffWalk(s, ks, p, n, l);
  }

  lemma OffWalk(s: State, ks: seq<LinkId>, p: seq<TaskId>, n: nat, l: LinkId)
    requires Along(s, ks, p) && Distinct(p) && n < |ks| && ks[n] != l && l in s.links && s.links[l].from == p[n]
    ensures l !in ks
  {
    forall i | 0 <= i < |ks|
      ensures ks[i] != l
    {
      assert Follows(s, ks[i]) && s.links[ks[i]].from == p[i];
    }
  }

  lemma BypassOrder(s: State, t: TaskId, x: TaskId, k: LinkId, l: LinkId) returns (order: Orders)
    requires Acyclic(ActiveEdges(s.links)) && Reaches(DriveEdges(s), t, x) && Fork(s, x, k, l)
    ensures Lists(order, s, t)
    ensures var r := FrameRun(order, s, {}, t); r.count > |NewlyRevoked(s, r.s)|
  {
    var ks, p, n := ForkWalk(s, t, x, k, l);
    order := RoadOrder(s, t, ks, p);
    RoadOrderLists(s, t, ks, p);
    MakeRoad(order, s, {}, ks, p, 0);
    assert ks[0..] == ks;
    RoadTaskListed(s, ks, p, |p| - 1);
    RoadTaskListed(s, ks, p, n);
    assert Follows(s, ks[n]) && p[n] == x;
    RoadCountsTwice(order, s, {}, ks, t, s.links[l].to, k, l);
  }

  ghost predicate CountsMore(order: Orders, s: State, t: TaskId) {
    Lists(order, s, t) && var r := FrameRun(order, s, {}, t); r.count > |NewlyRevoked(s, r.s)|
  }

  // With a bypass, some listing of the rows makes the cascade count a link twice.
  lemma BypassCounts(s: State, t: TaskId)
    requires Acyclic(ActiveEdges(s.links)) && Bypassed(s, t)
    ensures exists order :: CountsMore(order, s, t)
  {
    var x, k, l :| Reaches(DriveEdges(s), t, x) && Fork(s, x, k, l);
    var order := BypassOrder(s, t, x, k, l);
    assert CountsMore(order, s, t);
  }

  lemma RoadTaskListed(s: State, ks: seq<LinkId>, p: seq<TaskId>, i: nat)
    requires Along(s, ks, p) && i < |p|
    ensures i > 0 ==> p[i] in s.tasks
  {
    if i > 0 {
      assert Follows(s, ks[i - 1]) && s.links[ks[i - 1]].to == p[i - 1 + 1];
    }
  }

  // The count returned is the number of links revoked.
  ghost predicate CountsOnce(order: Orders, s: State, t: TaskId)
    requires Lists(order, s, t)
  {
    var r := FrameRun(order, s, {}, t);
    r.count == |NewlyRevoked(s, r.s)|
  }

  // `links_revoked` is the number of links revoked, however the rows come,
  // exactly when the cascade finds no second way round one of its links.
  lemma CountExactWhen(s: State, t: TaskId)
    requires Settled(s, t) && Acyclic(ActiveEdges(s.links))
    ensures (forall order :: Lists(order, s, t) ==> CountsOnce(order, s, t)) <==> !Bypassed(s, t)
  {
    if Bypassed(s, t) {
      BypassCounts(s, t);
      var order :| CountsMore(order, s, t);
      assert !CountsOnce(order, s, t);
    } else {
      UnbypassedClear(s, t);
      forall order | Lists(order, s, t)
        ensures CountsOnce(order, s, t)
      {
        FrameExact(order, s, {}, t);
      }
    }
  }

  // Every run of requests stays where the theorem applies.
  lemma RunsApply(s: State)
    requires LinkInv(s)
    ensures Acyclic(ActiveEdges(s.links))
  {
    var es := ActiveEdges(s.links);
    forall x, y | (x, y) in es
      ensures !Reaches(es, y, x)
    {
      var l :| l in s.links && !s.links[l].revoked && (x, y) == (s.links[l].from, s.links[l].to);
      var b := s.links[l].bundle;
      assert Acyclic(LinkEdges(s.links, b)) && (x, y) in LinkEdges(s.links, b);
      if Reaches(es, y, x) {
        var p :| IsWalk(es, p) && p[0] == y && p[|p| - 1] == x;
        WalkInBundle(s, b, p);
      }
    }
  }

  // What a cancellation and a removal report, in any run.
  lemma CallersCount(s: State, t: TaskId)
    requires LinkInv(s) && t in s.tasks
    ensures Cancellable(s.tasks[t]) ==>
      ((forall order :: Lists(order, Cancel(s, t), t) ==> CountsOnce(order, Cancel(s, t), t)) <==> !Bypassed(Cancel(s, t), t))
    ensures (forall order :: Lists(order, Delete(s, t), t) ==> CountsOnce(order, Delete(s, t), t)) <==> !Bypassed(Delete(s, t), t)
  {
    RunsApply(s);
    if Cancellable(s.tasks[t]) { CountExactWhen(Cancel(s, t), t); }
    CountExactWhen(Delete(s, t), t);
  }

  lemma {:induction false} WalkInBundle(s: State, b: BundleId, p: seq<TaskId>)
    requires LinkInv(s) && IsWalk(ActiveEdges(s.links), p) && p[0] in s.tasks && s.tasks[p[0]].bundle == b
    ensures IsWalk(LinkEdges(s.links, b), p)
    decreases |p|
  {
    if |p| > 1 {
      assert (p[0], p[0 + 1]) in ActiveEdges(s.links);
      var l :| l in s.links && !s.links[l].revoked && (p[0], p[1]) == (s.links[l].from, s.links[l].to);
      var q := p[1..];
      forall i | 0 <= i < |q| - 1
        ensures (q[i], q[i + 1]) in ActiveEdges(s.links)
      {
        assert (p[i + 1], p[i + 1 + 1]) in ActiveEdges(s.links);
      }
      WalkInBundle(s, b, q);
      forall i | 0 <= i < |p| - 1
        ensures (p[i], p[i + 1]) in LinkEdges(s.links, b)
      {
        if i > 0 { assert (q[i - 1], q[i - 1 + 1]) in LinkEdges(s.links, b); }
      }
    }
  }

  // ---- the smallest case -------------------------------------------------------------------

  ghost predicate Joins(s: State, l: LinkId, f: TaskId, t: TaskId) {
    l in s.links && s.links[l].kind == Drives && s.links[l].from == f && s.links[l].to == t
  }

  // Task 0 has just been cancelled; it drives 1 and 2, and 1 drives 2.
  ghost predicate Diamond(s: State) {
    && s.tasks.Keys == {0, 1, 2} && s.links.Keys == {10, 11, 12}
    && Joins(s, 10, 0, 1) && Joins(s, 11, 0, 2) && Joins(s, 12, 1, 2)
    && !Cancellable(s.tasks[0])
  }

  ghost predicate DiamondOrder(order: Orders) {
    order.Keys == {0, 1, 2} && order[0] == [10, 11] && order[1] == [10, 12] && order[2] == [11, 12]
  }

  ghost predicate Untouched(s: State) {
    && (forall l :: l in s.links ==> !s.links[l].revoked)
    && (forall v :: v in s.tasks && v != 0 ==> Cancellable(s.tasks[v]))
  }

  lemma OneRow(order: Orders, s: State, seen: set<TaskId>, t: TaskId, l: LinkId)
    requires t in order && t !in seen && (forall v :: v in s.tasks ==> v in order) && RowsOf(order[t], s, t) == [l]
    ensures var r := RowRun(order, s, seen + {t}, t, l); FrameRun(order, s, seen, t) == r
  {
    var r := RowRun(order, s, seen + {t}, t, l);
    assert RowsRun(order, r.s, r.seen, t, [l][1..]) == Trail(r.s, r.seen, 0);
  }

  lemma TwoRows(order: Orders, s: State, seen: set<TaskId>, t: TaskId, k: LinkId, l: LinkId)
    requires t in order && t !in seen && (forall v :: v in s.tasks ==> v in order) && RowsOf(order[t], s, t) == [k, l]
    ensures var q := RowRun(order, s, seen + {t}, t, k);
      var r := RowRun(order, q.s, q.seen, t, l); FrameRun(order, s, seen, t) == Trail(r.s, r.seen, q.count + r.count)
  {
    var q := RowRun(order, s, seen + {t}, t, k);
    var r := RowRun(order, q.s, q.seen, t, l);
    assert RowsRun(order, r.s, r.seen, t, [l][1..]) == Trail(r.s, r.seen, 0);
    assert [k, l][1..] == [l] && RowsRun(order, q.s, q.seen, t, [l]) == r;
  }

  lemma PairRows(s: State, v: TaskId, k: LinkId, l: LinkId)
    ensures RowsOf([k, l], s, v) ==
      (if k in ActiveTouching(s, v) then [k] else []) + if l in ActiveTouching(s, v) then [l] else []
  {
    assert [k, l][1..] == [l] && [l][1..] == [];
    assert RowsOf([], s, v) == [];
    assert RowsOf([l], s, v) == if l in ActiveTouching(s, v) then [l] else [];
  }

  // A row that a deeper frame has revoked is counted again.
  lemma RowSpent(order: Orders, s: State, seen: set<TaskId>, t: TaskId, l: LinkId)
    requires (forall v :: v in s.tasks ==> v in order) && Gone(s, l)
    requires s.links[l].kind != Pipe && Settled(s, s.links[l].to)
    ensures RowRun(order, s, seen, t, l) == Trail(s, seen, 1)
  {
    RowPassed(order, s, seen, t, l);
    assert Revoke(s, l) == s;
  }

  lemma LastFrame(order: Orders, s: State, seen: set<TaskId>)
    requires Diamond(s) && DiamondOrder(order) && 2 !in seen
    requires !s.links[11].revoked && s.links[12].revoked
    ensures FrameRun(order, s, seen, 2) == Trail(Revoke(s, 11), seen + {2}, 1)
  {
    PairRows(s, 2, 11, 12);
    OneRow(order, s, seen, 2, 11);
    RowPassed(order, s, seen + {2}, 2, 11);
  }

  lemma MiddleFrame(order: Orders, s: State, seen: set<TaskId>)
    requires Diamond(s) && DiamondOrder(order) && 1 !in seen && 2 !in seen
    requires s.links[10].revoked && !s.links[11].revoked && !s.links[12].revoked && Cancellable(s.tasks[2])
    ensures FrameRun(order, s, seen, 1) == Trail(Revoke(Cancel(Revoke(s, 12), 2), 11), seen + {1} + {2}, 2)
  {
    PairRows(s, 1, 10, 12);
    OneRow(order, s, seen, 1, 12);
    RowCancels(order, s, seen + {1}, 1, 12);
    LastFrame(order, Cancel(Revoke(s, 12), 2), seen + {1});
  }

  lemma FirstRow(order: Orders, s: State, s1: State, seen: set<TaskId>)
    requires Diamond(s) && DiamondOrder(order) && Untouched(s) && 1 !in seen && 2 !in seen
    requires s1 == Cancel(Revoke(s, 10), 1)
    ensures RowRun(order, s, seen, 0, 10) == Trail(Revoke(Cancel(Revoke(s1, 12), 2), 11), seen + {1} + {2}, 3)
  {
    RowCancels(order, s, seen, 0, 10);
    MiddleFrame(order, s1, seen);
  }

  lemma DiamondListed(order: Orders, s: State)
    requires Diamond(s) && DiamondOrder(order)
    ensures Lists(order, s, 0)
  {
    forall v, l | v in s.tasks && l in s.links && Touches(s.links[l], v)
      ensures l in order[v]
    {
      var row := order[v];
      assert row[0] in row && row[1] in row;
    }
  }

  lemma TopFrame(order: Orders, s: State, s1: State, s3: State)
    requires Diamond(s) && DiamondOrder(order) && Untouched(s)
    requires s1 == Cancel(Revoke(s, 10), 1) && s3 == Revoke(Cancel(Revoke(s1, 12), 2), 11)
    ensures var r := FrameRun(order, s, {}, 0); r.s == s3 && r.count == 4
  {
    PairRows(s, 0, 10, 11);
    TwoRows(order, s, {}, 0, 10, 11);
    FirstRow(order, s, s1, {} + {0});
    RowSpent(order, s3, {} + {0} + {1} + {2}, 0, 11);
  }

  // Link 11 is counted in the frame of task 2 and again in the frame of task 0:
  // four for three links.
  lemma DiamondCountsFour(order: Orders, s: State)
    requires Diamond(s) && DiamondOrder(order) && Untouched(s)
    ensures Lists(order, s, 0)
    ensures var r := FrameRun(order, s, {}, 0);
      r.count == 4 && NewlyRevoked(s, r.s) == {10, 11, 12}
  {
    var s1 := Cancel(Revoke(s, 10), 1);
    var s3 := Revoke(Cancel(Revoke(s1, 12), 2), 11);
    TopFrame(order, s, s1, s3);
    DiamondListed(order, s);
    assert NewlyRevoked(s, s3) == {10, 11, 12};
  }

  lemma DiamondExists() returns (order: Orders, s: State)
    ensures Diamond(s) && DiamondOrder(order) && Untouched(s)
  {
    var row := Task(0, Open, [], None, None, None, None);
    order := map[0 := [10, 11], 1 := [10, 12], 2 := [11, 12]];
    s := State(map[0 := row.(status := Cancelled), 1 := row, 2 := row],
               map[10 := Link(0, 0, 1, Drives, None, false), 11 := Link(0, 0, 2, Drives, None, false),
                   12 := Link(0, 1, 2, Drives, None, false)]);
  }
}
