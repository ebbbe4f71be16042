// What cascade_on_task_termination achieves, stated on table values, and how
// the effect of a recursive call composes with the rows handled so far.
module Cascade {
  import opened Domain
  import opened Graphs
  import opened LinkState

  // The edges a cascade may follow in s: active, driving, into a task that can
  // still be cancelled.
  ghost function DriveEdges(s: State): Edges {
    set l | l in s.links && !s.links[l].revoked && DrivesChild(s.links[l])
         && s.links[l].to in s.tasks && Cancellable(s.tasks[s.links[l].to])
       :: (s.links[l].from, s.links[l].to)
  }

  ghost function ActiveTouching(s: State, t: TaskId): set<LinkId> {
    set l | l in s.links && !s.links[l].revoked && Touches(s.links[l], t)
  }

  // Cancelled or deleted: the cascade has nothing left to cancel here.
  ghost predicate Settled(s: State, t: TaskId) {
    t in s.tasks ==> !Cancellable(s.tasks[t])
  }

  ghost function CutOf(cut: set<(TaskId, TaskId)>, v: TaskId): set<TaskId> {
    set p | p in cut && p.1 == v :: p.0
  }

  ghost predicate TouchesAny(l: Link, ts: set<TaskId>) {
    l.from in ts || l.to in ts
  }

  ghost predicate IsActivePipe(s: State, l: LinkId, u: TaskId, v: TaskId) {
    l in s.links && !s.links[l].revoked && s.links[l].kind == Pipe && s.links[l].from == u && s.links[l].to == v
  }

  function Reaped(t: Task, dead: bool, gone: set<TaskId>): Task {
    t.(status := if dead then Cancelled else t.status, deps := Without(t.deps, gone))
  }

  function Unlinked(l: Link, gone: bool): Link {
    l.(revoked := l.revoked || gone)
  }

  lemma ReapedTwice(t: Task, dead: bool, gone: set<TaskId>, dead': bool, gone': set<TaskId>)
    ensures Reaped(Reaped(t, dead, gone), dead', gone') == Reaped(t, dead || dead', gone + gone')
  {
    WithoutTwice(t.deps, gone, gone');
  }

  // The tables differ from s0 exactly by the revoked links, the cancelled tasks
  // and the dependencies (u, v) cut from v.
  ghost predicate Tables(s0: State, gone: set<LinkId>, dead: set<TaskId>, cut: set<(TaskId, TaskId)>, s1: State) {
    && s1.tasks.Keys == s0.tasks.Keys
    && s1.links.Keys == s0.links.Keys
    && (forall v :: v in s0.tasks ==> s1.tasks[v] == Reaped(s0.tasks[v], v in dead, CutOf(cut, v)))
    && (forall l :: l in s0.links ==>
          s1.links[l] == Unlinked(s0.links[l], l in gone || TouchesAny(s0.links[l], dead)))
  }

  // Every cancelled task was cancellable and is driven from t.
  ghost predicate DeadSound(s0: State, t: TaskId, dead: set<TaskId>) {
    forall c :: c in dead ==> c in s0.tasks && Cancellable(s0.tasks[c]) && Reaches(DriveEdges(s0), t, c)
  }

  // Every edge out of a cancelled task, or out of t among the handled rows, has
  // been followed.
  ghost predicate DeadClosed(s0: State, t: TaskId, handled: set<LinkId>, dead: set<TaskId>) {
    forall l :: l in s0.links && !s0.links[l].revoked && DrivesChild(s0.links[l])
          && s0.links[l].to in s0.tasks && Cancellable(s0.tasks[s0.links[l].to])
          && (s0.links[l].from in dead || (l in handled && s0.links[l].from == t))
      ==> s0.links[l].to in dead
  }

  ghost predicate CutSound(s0: State, t: TaskId, dead: set<TaskId>, cut: set<(TaskId, TaskId)>) {
    forall u, v :: (u, v) in cut ==>
      && (u == t || u in dead)
      && v in s0.tasks && u in s0.tasks[v].deps
      && exists l :: IsActivePipe(s0, l, u, v)
  }

  // A task that stays alive waits for no dead pipe upstream any more.
  ghost predicate CutClosed(s0: State, t: TaskId, handled: set<LinkId>, dead: set<TaskId>, cut: set<(TaskId, TaskId)>) {
    forall l :: l in s0.links && !s0.links[l].revoked && s0.links[l].kind == Pipe
          && s0.links[l].to in s0.tasks && s0.links[l].from in s0.tasks[s0.links[l].to].deps
          && ((s0.links[l].from in dead && s0.links[l].to !in dead && s0.links[l].to != t)
              || (l in handled && s0.links[l].from == t))
      ==> (s0.links[l].from, s0.links[l].to) in cut
  }

  // The work of a cascade from t after the rows in `handled`.
  ghost predicate Progress(s0: State, t: TaskId, handled: set<LinkId>, dead: set<TaskId>,
                           cut: set<(TaskId, TaskId)>, s1: State)
  {
    && Tables(s0, handled, dead, cut, s1)
    && DeadSound(s0, t, dead)
    && DeadClosed(s0, t, handled, dead)
    && CutSound(s0, t, dead, cut)
    && CutClosed(s0, t, handled, dead, cut)
  }

  ghost predicate Complete(s0: State, t: TaskId, dead: set<TaskId>, cut: set<(TaskId, TaskId)>, s1: State) {
    Progress(s0, t, ActiveTouching(s0, t), dead, cut, s1)
  }

  function Revoke(s: State, l: LinkId): State
    requires l in s.links
  {
    s.(links := s.links[l := s.links[l].(revoked := true)])
  }

  function Cancel(s: State, t: TaskId): State
    requires t in s.tasks
  {
    s.(tasks := s.tasks[t := s.tasks[t].(status := Cancelled)])
  }

  function CutDep(s: State, u: TaskId, v: TaskId): State
    requires v in s.tasks
  {
    s.(tasks := s.tasks[v := s.tasks[v].(deps := Without(s.tasks[v].deps, {u}))])
  }

  lemma TablesCompose(s0: State, gone: set<LinkId>, dead: set<TaskId>, cut: set<(TaskId, TaskId)>, s1: State,
                      gone': set<LinkId>, dead': set<TaskId>, cut': set<(TaskId, TaskId)>, s2: State)
    requires Tables(s0, gone, dead, cut, s1) && Tables(s1, gone', dead', cut', s2)
    ensures Tables(s0, gone + gone', dead + dead', cut + cut', s2)
  {
    forall v | v in s0.tasks
      ensures s2.tasks[v] == Reaped(s0.tasks[v], v in dead + dead', CutOf(cut + cut', v))
    {
      assert CutOf(cut + cut', v) == CutOf(cut, v) + CutOf(cut', v);
      ReapedTwice(s0.tasks[v], v in dead, CutOf(cut, v), v in dead', CutOf(cut', v));
    }
  }

  lemma TablesThenRevoke(s0: State, gone: set<LinkId>, dead: set<TaskId>, cut: set<(TaskId, TaskId)>, s: State,
                         l: LinkId)
    requires Tables(s0, gone, dead, cut, s) && l in s.links
    ensures Tables(s0, gone + {l}, dead, cut, Revoke(s, l))
  {
  }

  lemma TablesCutDep(s: State, u: TaskId, v: TaskId)
    requires v in s.tasks
    ensures Tables(s, {}, {}, {(u, v)}, CutDep(s, u, v))
  {
    forall w | w in s.tasks && w != v
      ensures Without(s.tasks[w].deps, CutOf({(u, v)}, w)) == s.tasks[w].deps
    {
      WithoutAbsent(s.tasks[w].deps, CutOf({(u, v)}, w));
    }
    assert CutOf({(u, v)}, v) == {u};
  }

  // The rows a child's cascade handles are the active ones touching the child.
  lemma TablesCancel(s: State, child: TaskId, dead: set<TaskId>, cut: set<(TaskId, TaskId)>, s2: State)
    requires child in s.tasks
    requires Tables(Cancel(s, child), ActiveTouching(s, child), dead, cut, s2)
    ensures Tables(s, {}, {child} + dead, cut, s2)
  {
    var c := Cancel(s, child);
    forall v | v in s.tasks
      ensures s2.tasks[v] == Reaped(s.tasks[v], v in {child} + dead, CutOf(cut, v))
    {
      assert s2.tasks[v] == Reaped(c.tasks[v], v in dead, CutOf(cut, v));
    }
    forall l | l in s.links
      ensures s2.links[l] == Unlinked(s.links[l], TouchesAny(s.links[l], {child} + dead))
    {
      assert l in ActiveTouching(s, child) <==> !s.links[l].revoked && Touches(s.links[l], child);
    }
  }

  lemma Start(s0: State, t: TaskId)
    ensures Progress(s0, t, {}, {}, {}, s0)
  {
    forall v | v in s0.tasks
      ensures Without(s0.tasks[v].deps, CutOf({}, v)) == s0.tasks[v].deps
    {
      WithoutAbsent(s0.tasks[v].deps, CutOf({}, v));
    }
  }

  lemma StillDepends(s0: State, gone: set<LinkId>, dead: set<TaskId>, cut: set<(TaskId, TaskId)>, s: State,
                     u: TaskId, v: TaskId)
    requires Tables(s0, gone, dead, cut, s) && v in s0.tasks
    ensures u in s.tasks[v].deps <==> u in s0.tasks[v].deps && (u, v) !in cut
  {
    WithoutMember(s0.tasks[v].deps, CutOf(cut, v), u);
    assert (u, v) in cut <==> u in CutOf(cut, v);
  }

  // A row that calls for nothing beyond its own revocation.
  lemma HandleIdle(s0: State, t: TaskId, handled: set<LinkId>, dead: set<TaskId>,
                   cut: set<(TaskId, TaskId)>, s: State, l: LinkId)
    requires Progress(s0, t, handled, dead, cut, s) && l in ActiveTouching(s0, t)
    requires var link := s0.links[l];
      link.from == t && link.to in s.tasks ==>
        && (DrivesChild(link) ==> !Cancellable(s.tasks[link.to]))
        && (link.kind == Pipe ==> t !in s.tasks[link.to].deps)
    ensures Progress(s0, t, handled + {l}, dead, cut, Revoke(s, l))
  {
    var v := s0.links[l].to;
    TablesThenRevoke(s0, handled, dead, cut, s, l);
    if v in s0.tasks { StillDepends(s0, handled, dead, cut, s, t, v); }
  }

  lemma PipeTables(s0: State, gone: set<LinkId>, dead: set<TaskId>, cut: set<(TaskId, TaskId)>, s: State,
                   l: LinkId, u: TaskId, v: TaskId)
    requires Tables(s0, gone, dead, cut, s) && l in s0.links && v in s0.tasks
    ensures Tables(s0, gone + {l}, dead, cut + {(u, v)}, CutDep(Revoke(s, l), u, v))
  {
    TablesThenRevoke(s0, gone, dead, cut, s, l);
    TablesCutDep(Revoke(s, l), u, v);
    assert dead + {} == dead && gone + {l} + {} == gone + {l};
    TablesCompose(s0, gone + {l}, dead, cut, Revoke(s, l), {}, {}, {(u, v)}, CutDep(Revoke(s, l), u, v));
  }

  // A pipe row whose downstream still waits for t: the wait is lifted.
  lemma HandlePipe(s0: State, t: TaskId, handled: set<LinkId>, dead: set<TaskId>,
                   cut: set<(TaskId, TaskId)>, s: State, l: LinkId)
    requires Progress(s0, t, handled, dead, cut, s) && l in ActiveTouching(s0, t)
    requires var link := s0.links[l];
      && link.from == t && link.kind == Pipe && link.to in s.tasks && t in s.tasks[link.to].deps
    ensures Progress(s0, t, handled + {l}, dead, cut + {(t, s0.links[l].to)},
                     CutDep(Revoke(s, l), t, s0.links[l].to))
    ensures (t, s0.links[l].to) !in cut
  {
    var v := s0.links[l].to;
    PipeTables(s0, handled, dead, cut, s, l, t, v);
    StillDepends(s0, handled, dead, cut, s, t, v);
    assert IsActivePipe(s0, l, t, v);
  }

  lemma DriveEdgesShrink(s0: State, handled: set<LinkId>, dead: set<TaskId>,
                         cut: set<(TaskId, TaskId)>, s: State)
    requires Tables(s0, handled, dead, cut, s)
    ensures DriveEdges(s) <= DriveEdges(s0)
  {
    forall e | e in DriveEdges(s)
      ensures e in DriveEdges(s0)
    {
      var l :| l in s.links && !s.links[l].revoked && DrivesChild(s.links[l])
         && s.links[l].to in s.tasks && Cancellable(s.tasks[s.links[l].to])
         && e == (s.links[l].from, s.links[l].to);
      assert s0.links[l].to == s.links[l].to;
      assert Cancellable(s0.tasks[s0.links[l].to]);
    }
  }

  // The situation after the cascade of a driven child has returned.
  ghost predicate Driven(s0: State, t: TaskId, handled: set<LinkId>, dead: set<TaskId>,
                         cut: set<(TaskId, TaskId)>, s: State, l: LinkId, child: TaskId)
  {
    && Settled(s0, t)
    && Tables(s0, handled, dead, cut, s)
    && handled <= ActiveTouching(s0, t)
    && l in ActiveTouching(s0, t)
    && s0.links[l].from == t && s0.links[l].to == child && DrivesChild(s0.links[l])
    && child in s.tasks && Cancellable(s.tasks[child])
  }

  lemma DrivenDead(s0: State, t: TaskId, handled: set<LinkId>, dead: set<TaskId>, cut: set<(TaskId, TaskId)>,
                   s: State, l: LinkId, child: TaskId, more: set<TaskId>)
    requires Driven(s0, t, handled, dead, cut, s, l, child)
    requires DeadSound(s0, t, dead) && DeadSound(Cancel(Revoke(s, l), child), child, more)
    ensures child !in dead && dead !! more && child !in more && t !in dead + {child} + more
    ensures DeadSound(s0, t, dead + {child} + more)
  {
    var s1 := Cancel(Revoke(s, l), child);
    DriveEdgesShrink(s0, handled, dead, cut, s);
    assert DriveEdges(s1) <= DriveEdges(s);
    assert (t, child) in DriveEdges(s0);
    ReachesEdge(DriveEdges(s0), t, child);
    forall c | c in more
      ensures c in s0.tasks && Cancellable(s0.tasks[c]) && Reaches(DriveEdges(s0), t, c)
    {
      ReachesMono(DriveEdges(s1), DriveEdges(s0), child, c);
      ReachesTrans(DriveEdges(s0), t, child, c);
    }
  }

  lemma DrivenDeadClosed(s0: State, t: TaskId, handled: set<LinkId>, dead: set<TaskId>, cut: set<(TaskId, TaskId)>,
                         s: State, l: LinkId, child: TaskId, more: set<TaskId>)
    requires Driven(s0, t, handled, dead, cut, s, l, child)
    requires DeadClosed(s0, t, handled, dead)
    requires var s1 := Cancel(Revoke(s, l), child); DeadClosed(s1, child, ActiveTouching(s1, child), more)
    requires t !in dead + {child} + more && dead !! more && child !in dead
    ensures DeadClosed(s0, t, handled + {l}, dead + {child} + more)
  {
    var s1 := Cancel(Revoke(s, l), child);
    forall k | k in s0.links && !s0.links[k].revoked && DrivesChild(s0.links[k])
          && s0.links[k].to in s0.tasks && Cancellable(s0.tasks[s0.links[k].to])
          && s0.links[k].from in more + {child}
      ensures s0.links[k].to in dead + {child} + more
    {
      var v := s0.links[k].to;
      if v !in dead + {child} {
        assert k !in handled + {l};
        assert !s1.links[k].revoked && Cancellable(s1.tasks[v]);
        assert s0.links[k].from == child ==> k in ActiveTouching(s1, child);
      }
    }
  }

  lemma DrivenTables(s0: State, handled: set<LinkId>, dead: set<TaskId>, cut: set<(TaskId, TaskId)>,
                     s: State, l: LinkId, child: TaskId,
                     more: set<TaskId>, cutMore: set<(TaskId, TaskId)>, s2: State)
    requires Tables(s0, handled, dead, cut, s) && l in s0.links && child in s0.tasks
    requires var s1 := Cancel(Revoke(s, l), child); Tables(s1, ActiveTouching(s1, child), more, cutMore, s2)
    ensures Tables(s0, handled + {l}, dead + {child} + more, cut + cutMore, s2)
  {
    var r := Revoke(s, l);
    TablesThenRevoke(s0, handled, dead, cut, s, l);
    assert ActiveTouching(r, child) == ActiveTouching(Cancel(r, child), child);
    TablesCancel(r, child, more, cutMore, s2);
    TablesCompose(s0, handled + {l}, dead, cut, r, {}, {child} + more, cutMore, s2);
    assert dead + ({child} + more) == dead + {child} + more;
    assert handled + {l} + {} == handled + {l};
  }

  lemma DrivenCut(s0: State, t: TaskId, handled: set<LinkId>, dead: set<TaskId>, cut: set<(TaskId, TaskId)>,
                  s: State, l: LinkId, child: TaskId, more: set<TaskId>, cutMore: set<(TaskId, TaskId)>)
    requires Driven(s0, t, handled, dead, cut, s, l, child)
    requires CutSound(s0, t, dead, cut) && CutSound(Cancel(Revoke(s, l), child), child, more, cutMore)
    ensures CutSound(s0, t, dead + {child} + more, cut + cutMore)
    ensures cut !! cutMore
  {
    var s1 := Cancel(Revoke(s, l), child);
    forall u, v | (u, v) in cutMore
      ensures (u == child || u in more) && v in s0.tasks && u in s0.tasks[v].deps && (u, v) !in cut
      ensures exists k :: IsActivePipe(s0, k, u, v)
    {
      StillDepends(s0, handled, dead, cut, s, u, v);
      var k :| IsActivePipe(s1, k, u, v);
      assert IsActivePipe(s0, k, u, v);
    }
  }

  lemma DrivenCutClosed(s0: State, t: TaskId, handled: set<LinkId>, dead: set<TaskId>, cut: set<(TaskId, TaskId)>,
                        s: State, l: LinkId, child: TaskId, more: set<TaskId>, cutMore: set<(TaskId, TaskId)>)
    requires Driven(s0, t, handled, dead, cut, s, l, child)
    requires CutClosed(s0, t, handled, dead, cut)
    requires var s1 := Cancel(Revoke(s, l), child); CutClosed(s1, child, ActiveTouching(s1, child), more, cutMore)
    requires t !in dead + {child} + more && dead !! more && child !in dead
    ensures CutClosed(s0, t, handled + {l}, dead + {child} + more, cut + cutMore)
  {
    var s1 := Cancel(Revoke(s, l), child);
    forall k | k in s0.links && !s0.links[k].revoked && s0.links[k].kind == Pipe
          && s0.links[k].to in s0.tasks && s0.links[k].from in s0.tasks[s0.links[k].to].deps
          && s0.links[k].from in more + {child} && s0.links[k].to !in dead + {child} + more && s0.links[k].to != t
      ensures (s0.links[k].from, s0.links[k].to) in cut + cutMore
    {
      var u, v := s0.links[k].from, s0.links[k].to;
      assert k !in handled + {l};
      assert !s1.links[k].revoked;
      StillDepends(s0, handled, dead, cut, s, u, v);
      assert u == child ==> k in ActiveTouching(s1, child);
    }
  }

  // A driving row: the child is cancelled and its own cascade runs to the end.
  lemma HandleDriven(s0: State, t: TaskId, handled: set<LinkId>, dead: set<TaskId>,
                     cut: set<(TaskId, TaskId)>, s: State, l: LinkId, child: TaskId,
                     more: set<TaskId>, cutMore: set<(TaskId, TaskId)>, s2: State)
    requires Driven(s0, t, handled, dead, cut, s, l, child)
    requires Progress(s0, t, handled, dead, cut, s)
    requires Complete(Cancel(Revoke(s, l), child), child, more, cutMore, s2)
    ensures Progress(s0, t, handled + {l}, dead + {child} + more, cut + cutMore, s2)
    ensures child !in dead && dead !! more && child !in more && cut !! cutMore
  {
    DrivenDead(s0, t, handled, dead, cut, s, l, child, more);
    DrivenDeadClosed(s0, t, handled, dead, cut, s, l, child, more);
    DrivenTables(s0, handled, dead, cut, s, l, child, more, cutMore, s2);
    DrivenCut(s0, t, handled, dead, cut, s, l, child, more, cutMore);
    DrivenCutClosed(s0, t, handled, dead, cut, s, l, child, more, cutMore);
  }

  // ---- the closed form -----------------------------------------------------

  ghost function Doomed(s: State, t: TaskId): set<TaskId> {
    set v | v in s.tasks && v != t && Reaches(DriveEdges(s), t, v)
  }

  ghost function PipeUpstreams(s: State, v: TaskId, from: set<TaskId>): set<TaskId> {
    set l | l in s.links && !s.links[l].revoked && s.links[l].kind == Pipe && s.links[l].to == v
         && s.links[l].from in from :: s.links[l].from
  }

  // The tables after a whole cascade. What a dying task still waited for
  // depends on the order of the recursion; nothing else does.
  ghost predicate Cascaded(s0: State, t: TaskId, s1: State) {
    var dead := Doomed(s0, t);
    && s1.tasks.Keys == s0.tasks.Keys
    && s1.links.Keys == s0.links.Keys
    && (forall l :: l in s0.links ==>
          s1.links[l] == Unlinked(s0.links[l], TouchesAny(s0.links[l], dead + {t})))
    && (forall v :: v in s0.tasks ==> exists gone: set<TaskId> ::
          && gone <= PipeUpstreams(s0, v, dead + {t})
          && (v !in dead + {t} ==> gone == PipeUpstreams(s0, v, dead + {t}))
          && s1.tasks[v] == Reaped(s0.tasks[v], v in dead, gone))
  }

  lemma CompleteIsDoomed(s0: State, t: TaskId, dead: set<TaskId>)
    requires Settled(s0, t)
    requires DeadSound(s0, t, dead) && DeadClosed(s0, t, ActiveTouching(s0, t), dead)
    ensures dead == Doomed(s0, t)
  {
    var es := DriveEdges(s0);
    forall x, y | (x, y) in es && x in dead + {t}
      ensures y in dead + {t}
    {
      var l :| l in s0.links && !s0.links[l].revoked && DrivesChild(s0.links[l])
        && s0.links[l].to in s0.tasks && Cancellable(s0.tasks[s0.links[l].to])
        && (x, y) == (s0.links[l].from, s0.links[l].to);
      assert x == t ==> l in ActiveTouching(s0, t);
    }
    forall v | v in Doomed(s0, t)
      ensures v in dead
    {
      ClosedTraps(es, dead + {t}, t, v);
    }
  }

  lemma {:induction false} WithoutIrrelevant(s: seq<TaskId>, a: set<TaskId>, b: set<TaskId>)
    requires forall d :: d in s ==> (d in a <==> d in b)
    ensures Without(s, a) == Without(s, b)
  {
    if s != [] {
      WithoutIrrelevant(s[1..], a, b);
    }
  }

  lemma CompleteIsCascaded(s0: State, t: TaskId, dead: set<TaskId>, cut: set<(TaskId, TaskId)>, s1: State)
    requires Settled(s0, t) && Complete(s0, t, dead, cut, s1)
    ensures dead == Doomed(s0, t) && Cascaded(s0, t, s1)
  {
    CompleteIsDoomed(s0, t, dead);
    forall v | v in s0.tasks
      ensures exists gone: set<TaskId> ::
          && gone <= PipeUpstreams(s0, v, dead + {t})
          && (v !in dead + {t} ==> gone == PipeUpstreams(s0, v, dead + {t}))
          && s1.tasks[v] == Reaped(s0.tasks[v], v in dead, gone)
    {
      var ups := PipeUpstreams(s0, v, dead + {t});
      forall u | u in CutOf(cut, v)
        ensures u in ups
      {
        var l :| IsActivePipe(s0, l, u, v);
      }
      if v in dead + {t} {
        assert s1.tasks[v] == Reaped(s0.tasks[v], v in dead, CutOf(cut, v));
      } else {
        forall d | d in s0.tasks[v].deps && d in ups
          ensures d in CutOf(cut, v)
        {
          var l :| IsActivePipe(s0, l, d, v) && d in dead + {t};
          assert d == t ==> l in ActiveTouching(s0, t);
          assert (d, v) in cut;
        }
        WithoutIrrelevant(s0.tasks[v].deps, CutOf(cut, v), ups);
        assert s1.tasks[v] == Reaped(s0.tasks[v], v in dead, ups);
      }
    }
  }

  // ---- counting revocations ------------------------------------------------

  function Ends(l: Link, ts: set<TaskId>): nat {
    (if l.from in ts then 1 else 0) + (if l.to in ts && l.to != l.from then 1 else 0)
  }

  // hits[l]: how often link l has been counted. A frame counts a row it fetched
  // even when a deeper frame has revoked it meanwhile.
  ghost predicate Tally(s0: State, handled: set<LinkId>, dead: set<TaskId>, hits: multiset<LinkId>) {
    && (forall l :: l in hits ==> l in s0.links)
    && (forall l :: l in s0.links ==>
          && hits[l] <= (if l in handled then 1 else 0) + Ends(s0.links[l], dead)
          && (l in hits <==> !s0.links[l].revoked && (l in handled || TouchesAny(s0.links[l], dead))))
  }

  lemma EndsGrow(l: Link, dead: set<TaskId>, child: TaskId, more: set<TaskId>)
    requires child !in dead && dead !! more && child !in more
    ensures Ends(l, dead + {child} + more) == Ends(l, dead) + (if Touches(l, child) then 1 else 0) + Ends(l, more)
    ensures TouchesAny(l, dead + {child} + more) <==> (TouchesAny(l, dead) || Touches(l, child) || TouchesAny(l, more))
  {
  }

  lemma TallyDriven(s0: State, handled: set<LinkId>, dead: set<TaskId>, cut: set<(TaskId, TaskId)>,
                    s: State, l: LinkId, child: TaskId, more: set<TaskId>,
                    hits: multiset<LinkId>, hitsMore: multiset<LinkId>)
    requires Tables(s0, handled, dead, cut, s) && l in s0.links && child in s0.tasks
    requires !s0.links[l].revoked && s0.links[l].to == child && l !in handled
    requires Tally(s0, handled, dead, hits)
    requires var s1 := Cancel(Revoke(s, l), child); Tally(s1, ActiveTouching(s1, child), more, hitsMore)
    requires child !in dead && dead !! more && child !in more
    ensures Tally(s0, handled + {l}, dead + {child} + more, hits + multiset{l} + hitsMore)
  {
    var s1 := Cancel(Revoke(s, l), child);
    var hits' := hits + multiset{l} + hitsMore;
    var dead' := dead + {child} + more;
    forall k | k in s0.links
      ensures hits'[k] <= (if k in handled + {l} then 1 else 0) + Ends(s0.links[k], dead')
      ensures k in hits' <==> (!s0.links[k].revoked && (k in handled + {l} || TouchesAny(s0.links[k], dead')))
    {
      var k0, k1 := s0.links[k], s1.links[k];
      EndsGrow(k0, dead, child, more);
      assert k1 == Unlinked(k0, k in handled || TouchesAny(k0, dead) || k == l);
      assert Ends(k1, more) == Ends(k0, more) && TouchesAny(k1, more) == TouchesAny(k0, more);
      assert k in ActiveTouching(s1, child) <==> !k1.revoked && Touches(k0, child);
      assert hits'[k] == hits[k] + (if k == l then 1 else 0) + hitsMore[k];
    }
  }

  lemma {:induction false} OnceOrTwice(hits: multiset<LinkId>, s: set<LinkId>)
    requires forall l :: l in hits <==> l in s
    requires forall l :: hits[l] <= 2
    ensures |s| <= |hits| <= 2 * |s|
  {
    if s == {} {
      assert hits == multiset{};
    } else {
      var l :| l in s;
      var rest := hits[l := 0];
      assert hits == rest + multiset{}[l := hits[l]];
      OnceOrTwice(rest, s - {l});
    }
  }

  // ---- one frame -----------------------------------------------------------

  // What a frame returns: the `seen` set, the summary, and for the proof the
  // dependencies cut and the rows counted.
  datatype Summary = Summary(seen: set<TaskId>, revoked: nat, cancelled: seq<TaskId>, unblocked: seq<TaskId>)

  // The summary tells exactly what has been done: `cuts` lists the dependencies
  // removed in order, `hits` counts the rows.
  ghost predicate Accounts(s0: State, t: TaskId, seen: set<TaskId>, handled: set<LinkId>, r: Summary,
                           cuts: seq<(TaskId, TaskId)>, hits: multiset<LinkId>)
  {
    && Distinct(r.cancelled)
    && r.seen == seen + {t} + Elems(r.cancelled)
    && r.revoked == |hits| && Tally(s0, handled, Elems(r.cancelled), hits)
    && Reports(r.unblocked, cuts)
  }

  // One entry per dependency removed: its downstream task.
  ghost predicate Reports(unblocked: seq<TaskId>, cuts: seq<(TaskId, TaskId)>) {
    && Distinct(cuts)
    && |unblocked| == |cuts|
    && forall i :: 0 <= i < |cuts| ==> unblocked[i] == cuts[i].1
  }

  ghost predicate FrameInv(s0: State, t: TaskId, seen: set<TaskId>, handled: set<LinkId>, r: Summary,
                           cuts: seq<(TaskId, TaskId)>, hits: multiset<LinkId>, s: State)
  {
    && Progress(s0, t, handled, Elems(r.cancelled), Elems(cuts), s)
    && Accounts(s0, t, seen, handled, r, cuts, hits)
  }

  lemma FrameStart(s0: State, t: TaskId, seen: set<TaskId>)
    ensures FrameInv(s0, t, seen, {}, Summary(seen + {t}, 0, [], []), [], multiset{}, s0)
  {
    Start(s0, t);
    assert Elems<TaskId>([]) == {} && Elems<(TaskId, TaskId)>([]) == {};
  }

  lemma TallyIdle(s0: State, t: TaskId, handled: set<LinkId>, dead: set<TaskId>, hits: multiset<LinkId>, l: LinkId)
    requires Tally(s0, handled, dead, hits) && l in ActiveTouching(s0, t) && l !in handled
    ensures Tally(s0, handled + {l}, dead, hits + multiset{l})
  {
  }

  // ---- one row ---------------------------------------------------------------

  function Counted(r: Summary): Summary {
    r.(revoked := r.revoked + 1)
  }

  lemma FrameIdle(s0: State, t: TaskId, seen: set<TaskId>, handled: set<LinkId>, r: Summary,
                  cuts: seq<(TaskId, TaskId)>, hits: multiset<LinkId>, s: State, l: LinkId)
    requires FrameInv(s0, t, seen, handled, r, cuts, hits, s) && l in ActiveTouching(s0, t) && l !in handled
    requires var link := s0.links[l];
      link.from == t && link.to in s.tasks ==>
        && (DrivesChild(link) ==> !Cancellable(s.tasks[link.to]))
        && (link.kind == Pipe ==> t !in s.tasks[link.to].deps)
    ensures FrameInv(s0, t, seen, handled + {l}, Counted(r), cuts, hits + multiset{l}, Revoke(s, l))
  {
    HandleIdle(s0, t, handled, Elems(r.cancelled), Elems(cuts), s, l);
    TallyIdle(s0, t, handled, Elems(r.cancelled), hits, l);
  }

  lemma FramePipe(s0: State, t: TaskId, seen: set<TaskId>, handled: set<LinkId>, r: Summary,
                  cuts: seq<(TaskId, TaskId)>, hits: multiset<LinkId>, s: State, l: LinkId, child: TaskId)
    requires FrameInv(s0, t, seen, handled, r, cuts, hits, s) && l in ActiveTouching(s0, t) && l !in handled
    requires var link := s0.links[l];
      && link.from == t && link.to == child && link.kind == Pipe && child in s.tasks && t in s.tasks[child].deps
    ensures FrameInv(s0, t, seen, handled + {l},
      Counted(r).(unblocked := r.unblocked + [child]), cuts + [(t, child)], hits + multiset{l},
      CutDep(Revoke(s, l), t, child))
  {
    HandlePipe(s0, t, handled, Elems(r.cancelled), Elems(cuts), s, l);
    TallyIdle(s0, t, handled, Elems(r.cancelled), hits, l);
    ElemsJoin(cuts, [(t, child)]);
    assert Elems([(t, child)]) == {(t, child)};
    DistinctJoin(cuts, [(t, child)]);
  }

  // The caller's summary after a child's frame returned r'.
  function Absorb(r: Summary, child: TaskId, r': Summary): Summary {
    Summary(r'.seen, r.revoked + 1 + r'.revoked, r.cancelled + [child] + r'.cancelled, r.unblocked + r'.unblocked)
  }

  lemma ElemsJoin<T>(a: seq<T>, b: seq<T>)
    ensures Elems(a + b) == Elems(a) + Elems(b)
  {
  }

  lemma DistinctJoin<T>(a: seq<T>, b: seq<T>)
    requires Distinct(a) && Distinct(b) && Elems(a) !! Elems(b)
    ensures Distinct(a + b)
  {
    var c := a + b;
    forall i, j | 0 <= i < j < |c|
      ensures c[i] != c[j]
    {
      if i < |a| <= j { assert a[i] in Elems(a) && b[j - |a|] in Elems(b); }
    }
  }

  lemma AccountsDriven(s0: State, t: TaskId, seen: set<TaskId>, handled: set<LinkId>, r: Summary,
                       cuts: seq<(TaskId, TaskId)>, hits: multiset<LinkId>, s: State, l: LinkId, child: TaskId,
                       r': Summary, cuts': seq<(TaskId, TaskId)>, hits': multiset<LinkId>)
    requires Accounts(s0, t, seen, handled, r, cuts, hits)
    requires Tally(s0, handled + {l}, Elems(r.cancelled) + {child} + Elems(r'.cancelled), hits + multiset{l} + hits')
    requires l in s.links && child in s.tasks
    requires var s1 := Cancel(Revoke(s, l), child);
      Accounts(s1, child, r.seen, ActiveTouching(s1, child), r', cuts', hits')
    requires child !in Elems(r.cancelled) && Elems(r.cancelled) !! Elems(r'.cancelled) && child !in Elems(r'.cancelled)
    requires Elems(cuts) !! Elems(cuts')
    ensures Elems(Absorb(r, child, r').cancelled) == Elems(r.cancelled) + {child} + Elems(r'.cancelled)
    ensures Accounts(s0, t, seen, handled + {l}, Absorb(r, child, r'), cuts + cuts', hits + multiset{l} + hits')
  {
    ElemsJoin(r.cancelled, [child]);
    ElemsJoin(r.cancelled + [child], r'.cancelled);
    assert Elems([child]) == {child};
    DistinctJoin(r.cancelled, [child]);
    DistinctJoin(r.cancelled + [child], r'.cancelled);
    DistinctJoin(cuts, cuts');
  }

  lemma FrameDriven(s0: State, t: TaskId, seen: set<TaskId>, handled: set<LinkId>, r: Summary,
                    cuts: seq<(TaskId, TaskId)>, hits: multiset<LinkId>, s: State, l: LinkId, child: TaskId,
                    r': Summary, cuts': seq<(TaskId, TaskId)>, hits': multiset<LinkId>, s2: State)
    requires FrameInv(s0, t, seen, handled, r, cuts, hits, s)
    requires Driven(s0, t, handled, Elems(r.cancelled), Elems(cuts), s, l, child) && l !in handled
    requires l in s.links && child in s.tasks
    requires var s1 := Cancel(Revoke(s, l), child);
      FrameInv(s1, child, r.seen, ActiveTouching(s1, child), r', cuts', hits', s2)
    ensures FrameInv(s0, t, seen, handled + {l}, Absorb(r, child, r'), cuts + cuts', hits + multiset{l} + hits', s2)
  {
    HandleDriven(s0, t, handled, Elems(r.cancelled), Elems(cuts), s, l, child, Elems(r'.cancelled), Elems(cuts'), s2);
    TallyDriven(s0, handled, Elems(r.cancelled), Elems(cuts), s, l, child, Elems(r'.cancelled), hits, hits');
    AccountsDriven(s0, t, seen, handled, r, cuts, hits, s, l, child, r', cuts', hits');
    ElemsJoin(cuts, cuts');
  }

  // ---- termination -----------------------------------------------------------

  ghost function AliveTasks(s: State): set<TaskId> {
    set v | v in s.tasks && Cancellable(s.tasks[v])
  }

  ghost function Alive(s: State): nat {
    |AliveTasks(s)|
  }

  lemma SubsetSize<T>(a: set<T>, b: set<T>)
    requires a <= b
    ensures |a| <= |b|
  {
    assert b == a + (b - a);
  }

  lemma AliveShrinks(s0: State, t: TaskId, seen: set<TaskId>, handled: set<LinkId>, r: Summary,
                     cuts: seq<(TaskId, TaskId)>, hits: multiset<LinkId>, s: State)
    requires FrameInv(s0, t, seen, handled, r, cuts, hits, s)
    ensures Alive(s) <= Alive(s0)
  {
    SubsetSize(AliveTasks(s), AliveTasks(s0));
  }

  lemma AliveCancel(s: State, l: LinkId, child: TaskId)
    requires l in s.links && child in s.tasks && Cancellable(s.tasks[child])
    ensures Alive(Cancel(Revoke(s, l), child)) < Alive(s)
  {
    assert AliveTasks(s) == AliveTasks(Cancel(Revoke(s, l), child)) + {child};
  }

  // A task just cancelled has not been seen, and everything seen stays settled.
  lemma SettledChild(s0: State, t: TaskId, seen: set<TaskId>, handled: set<LinkId>, r: Summary,
                     cuts: seq<(TaskId, TaskId)>, hits: multiset<LinkId>, s: State, l: LinkId, child: TaskId)
    requires FrameInv(s0, t, seen, handled, r, cuts, hits, s)
    requires forall v :: v in seen + {t} ==> Settled(s0, v)
    requires l in s.links && child in s.tasks && Cancellable(s.tasks[child])
    ensures child !in r.seen
    ensures forall v :: v in r.seen + {child} ==> Settled(Cancel(Revoke(s, l), child), v)
  {
  }

  // ---- the finished cascade --------------------------------------------------

  ghost function NewlyRevoked(s0: State, s1: State): set<LinkId> {
    set l | l in s0.links && l in s1.links && !s0.links[l].revoked && s1.links[l].revoked
  }

  ghost predicate Summarizes(s0: State, t: TaskId, r: Summary, cuts: seq<(TaskId, TaskId)>, s1: State) {
    && Distinct(r.cancelled)
    && Elems(r.cancelled) == Doomed(s0, t)
    && |NewlyRevoked(s0, s1)| <= r.revoked <= 2 * |NewlyRevoked(s0, s1)|
    && Reports(r.unblocked, cuts)
    && CutSound(s0, t, Doomed(s0, t), Elems(cuts))
    && (forall v :: v in s0.tasks ==> v in s1.tasks && s1.tasks[v] == Reaped(s0.tasks[v], v in Doomed(s0, t), CutOf(Elems(cuts), v)))
  }

  lemma FrameResult(s0: State, t: TaskId, r: Summary, cuts: seq<(TaskId, TaskId)>, hits: multiset<LinkId>, s1: State)
    requires Settled(s0, t)
    requires FrameInv(s0, t, {}, ActiveTouching(s0, t), r, cuts, hits, s1)
    ensures Cascaded(s0, t, s1) && Summarizes(s0, t, r, cuts, s1)
  {
    CompleteIsCascaded(s0, t, Elems(r.cancelled), Elems(cuts), s1);
    forall l
      ensures hits[l] <= 2 && (l in hits <==> l in NewlyRevoked(s0, s1))
    {
      if l in s0.links { assert t !in Elems(r.cancelled); }
    }
    OnceOrTwice(hits, NewlyRevoked(s0, s1));
  }
}
