// The link requests of routes/links.py and the cancel and remove requests of
// routes/tasks.py, each one atomic step on the task and link tables.
module Links {
  import opened Domain
  import opened Graphs
  import opened LinkState
  import opened Cascade
  import opened CascadeOrder
  import opened LinkRuns

  // The rows of a SELECT without ORDER BY: any order.
  method Rows(wanted: set<LinkId>) returns (rows: seq<LinkId>)
    ensures Distinct(rows)
    ensures forall j :: 0 <= j < |rows| ==> rows[j] in wanted
    ensures forall l :: l in wanted ==> l in rows
  {
    rows := [];
    var left := wanted;
    while left != {}
      invariant left <= wanted && Distinct(rows)
      invariant forall j :: 0 <= j < |rows| ==> rows[j] in wanted - left
      invariant forall l :: l in wanted - left ==> l in rows
      decreases left
    {
      var l :| l in left;
      rows := rows + [l];
      left := left - {l};
    }
  }

  // The walk both cycle guards share: an explicit stack and a `seen` set.
  method Search(adj: map<Node, seq<Node>>, start: Node, goal: Node) returns (found: bool)
    ensures found <==> Reaches(Adjacency(adj), start, goal)
  {
    ghost var es := Adjacency(adj);
    ghost var universe := {start} + (set x, y | x in adj && y in adj[x] :: y);
    var stack, seen := [start], {};
    ReachesSelf(es, start);
    while stack != []
      invariant seen <= universe && Elems(stack) <= universe
      invariant forall v :: v in stack || v in seen ==> Reaches(es, start, v)
      invariant start in seen || start in stack
      invariant goal !in seen
      invariant forall x, y :: x in seen && (x, y) in es ==> y in seen || y in stack
      decreases universe - seen, |stack|
    {
      var cur := stack[|stack| - 1];
      assert stack == stack[..|stack| - 1] + [cur];
      stack := stack[..|stack| - 1];
      if cur == goal {
        return true;
      }
      if cur in seen {
        continue;
      }
      seen := seen + {cur};
      if cur in adj {
        forall y | y in adj[cur]
          ensures Reaches(es, start, y) && y in universe
        {
          assert (cur, y) in es;
          ReachesStep(es, start, cur, y);
        }
        stack := stack + adj[cur];
      }
    }
    if Reaches(es, start, goal) {
      assert Closed(es, seen);
      ClosedTraps(es, seen, start, goal);
    }
    return false;
  }

  datatype Answer = NotFound | Forbidden | BadRequest | Terminated(summary: Summary)

  datatype Revocation = Missing | Denied | Already | RevokedNow

  lemma RowsSplit(rows: seq<LinkId>, i: nat)
    requires i < |rows| && Distinct(rows)
    ensures Elems(rows[..i + 1]) == Elems(rows[..i]) + {rows[i]} && rows[i] !in Elems(rows[..i])
    ensures Elems(rows[..i]) <= Elems(rows)
  {
    assert rows[..i + 1] == rows[..i] + [rows[i]];
    ElemsJoin(rows[..i], [rows[i]]);
  }

  lemma RowsAll(rows: seq<LinkId>, wanted: set<LinkId>)
    requires forall j :: 0 <= j < |rows| ==> rows[j] in wanted
    requires forall l :: l in wanted ==> l in rows
    ensures Elems(rows[..|rows|]) == wanted
  {
    assert rows[..|rows|] == rows;
  }

  class LinkService {
    var tasks: map<TaskId, Task>
    var links: map<LinkId, Link>

    ghost function Db(): State
      reads this
    {
      State(tasks, links)
    }

    // ---- cycle guards ------------------------------------------------------

    method WouldCycle(b: BundleId, f: TaskId, t: TaskId) returns (r: bool)
      ensures r <==> Reaches(DepEdges(tasks, b), f, t)
    {
      var deps := map v | v in tasks && tasks[v].bundle == b :: tasks[v].deps;
      assert Adjacency(deps) == DepEdges(tasks, b);
      r := Search(deps, f, t);
    }

    method WouldCycleLinks(b: BundleId, f: TaskId, t: TaskId) returns (r: bool)
      ensures r <==> Reaches(LinkEdges(links, b), t, f)
    {
      var rows := Rows(set l | l in links && links[l].bundle == b && !links[l].revoked);
      var adj: map<Node, seq<Node>> := map[];
      for i := 0 to |rows|
        invariant forall x, y :: (x, y) in Adjacency(adj) <==>
          exists j :: 0 <= j < i && links[rows[j]].from == x && links[rows[j]].to == y
      {
        var row := links[rows[i]];
        ghost var was := adj;
        adj := adj[row.from := (if row.from in adj then adj[row.from] else []) + [row.to]];
        assert Adjacency(adj) == Adjacency(was) + {(row.from, row.to)};
      }
      forall x, y
        ensures (x, y) in Adjacency(adj) <==> (x, y) in LinkEdges(links, b)
      {
        if (x, y) in LinkEdges(links, b) {
          var l :| l in links && !links[l].revoked && links[l].bundle == b && (x, y) == (links[l].from, links[l].to);
          assert l in rows;
          var j :| 0 <= j < |rows| && rows[j] == l;
        }
      }
      assert Adjacency(adj) == LinkEdges(links, b);
      r := Search(adj, t, f);
    }

    // ---- task termination --------------------------------------------------

    // TaskService.cancel_task
    method CancelTask(t: TaskId) returns (ok: bool)
      modifies this`tasks
      ensures ok <==> t in old(tasks) && old(tasks)[t].status in {Open, Claimed, Working}
      ensures Db() == if ok then Cancel(old(Db()), t) else old(Db())
    {
      if t !in tasks || !Cancellable(tasks[t]) {
        return false;
      }
      tasks := tasks[t := tasks[t].(status := Cancelled)];
      return true;
    }

    // SELECT ... WHERE (from_task_id = ? OR to_task_id = ?) AND revoked_at IS NULL,
    // in the order in which the database lists the rows of that task.
    method SelectRows(listing: seq<LinkId>, t: TaskId) returns (rows: seq<LinkId>)
      ensures rows == RowsOf(listing, Db(), t)
    {
      rows := [];
      var i := |listing|;
      while i > 0
        invariant 0 <= i <= |listing| && rows == RowsOf(listing[i..], Db(), t)
      {
        i := i - 1;
        assert listing[i..][1..] == listing[i + 1..];
        var l := listing[i];
        if l in links && !links[l].revoked && (links[l].from == t || links[l].to == t) {
          rows := [l] + rows;
        }
      }
      assert listing[0..] == listing;
    }

    // One frame of cascade_on_task_termination; the frames share `seen`. `order`
    // is how the database lists the rows of each task.
    method Frame(order: Orders, t: TaskId, seen: set<TaskId>)
      returns (r: Summary, ghost cuts: seq<(TaskId, TaskId)>, ghost hits: multiset<LinkId>)
      requires Lists(order, Db(), t)
      requires forall v :: v in seen + {t} ==> Settled(Db(), v)
      modifies this
      ensures FrameRun(order, old(Db()), seen, t) == Trail(Db(), r.seen, r.revoked)
      ensures t in seen ==> Db() == old(Db()) && r == Summary(seen, 0, [], [])
      ensures t !in seen ==> FrameInv(old(Db()), t, seen, ActiveTouching(old(Db()), t), r, cuts, hits, Db())
      decreases Alive(Db()), 2
    {
      r, cuts, hits := Summary(seen, 0, [], []), [], multiset{};
      if t in seen {
        return;
      }
      r := r.(seen := seen + {t});
      ghost var s0 := Db();
      var rows := SelectRows(order[t], t);
      RowsListed(order[t], s0, t);
      FrameStart(s0, t, seen);
      for i := 0 to |rows|
        invariant FrameInv(s0, t, seen, Elems(rows[..i]), r, cuts, hits, Db())
        invariant Resumes(order, s0, seen + {t}, t, rows, Db(), r.seen, r.revoked, rows[i..])
      {
        RowsSplit(rows, i);
        AliveShrinks(s0, t, seen, Elems(rows[..i]), r, cuts, hits, Db());
        OrderCovers(order, s0, t, seen, Elems(rows[..i]), r, cuts, hits, Db());
        ResumesNext(order, s0, seen + {t}, t, rows, Db(), r.seen, r.revoked, rows[i..]);
        assert rows[i..][0] == rows[i] && rows[i..][1..] == rows[i + 1..];
        r, cuts, hits := HandleRow(order, s0, t, seen, Elems(rows[..i]), rows[i], r, cuts, hits);
      }
      RowsAll(rows, ActiveTouching(s0, t));
      assert rows[|rows|..] == [];
    }

    // The body of the frame's loop.
    method HandleRow(order: Orders, ghost s0: State, t: TaskId, ghost seen: set<TaskId>, ghost handled: set<LinkId>, l: LinkId,
                     r0: Summary, ghost cuts0: seq<(TaskId, TaskId)>, ghost hits0: multiset<LinkId>)
      returns (r: Summary, ghost cuts: seq<(TaskId, TaskId)>, ghost hits: multiset<LinkId>)
      requires FrameInv(s0, t, seen, handled, r0, cuts0, hits0, Db())
      requires forall v :: v in seen + {t} ==> Settled(s0, v)
      requires handled <= ActiveTouching(s0, t) && l in ActiveTouching(s0, t) && l !in handled
      requires Lists(order, s0, t)
      modifies this
      ensures FrameInv(s0, t, seen, handled + {l}, r, cuts, hits, Db())
      ensures r.revoked >= r0.revoked
      ensures RowRun(order, old(Db()), r0.seen, t, l) == Trail(Db(), r.seen, r.revoked - r0.revoked)
      decreases Alive(Db()), 1
    {
      ghost var s := Db();
      var row := links[l];
      links := links[l := row.(revoked := true)];
      r, cuts, hits := Counted(r0), cuts0, hits0 + multiset{l};
      if row.from == t && row.to in tasks {
        var child := row.to;
        if row.kind == Drives || (row.kind == Subagent && row.createdByTask == Some(t)) {
          if tasks[child].status !in {Done, Cancelled} {
            r, cuts, hits := Drive(order, s0, t, seen, handled, l, child, r0, cuts0, hits0, s);
            return;
          }
        } else if row.kind == Pipe && t in tasks[child].deps {
          tasks := tasks[child := tasks[child].(deps := Without(tasks[child].deps, {t}))];
          PipeRow(order, s0, t, seen, handled, r0, cuts0, hits0, s, l, child);
          r, cuts := r.(unblocked := r.unblocked + [child]), cuts0 + [(t, child)];
          return;
        }
      }
      IdleRow(order, s0, t, seen, handled, r0, cuts0, hits0, s, l);
    }

    // A driven child that is not terminal: cancel it and go on from there.
    method Drive(order: Orders, ghost s0: State, t: TaskId, ghost seen: set<TaskId>, ghost handled: set<LinkId>, l: LinkId, child: TaskId,
                 r0: Summary, ghost cuts0: seq<(TaskId, TaskId)>, ghost hits0: multiset<LinkId>, ghost s: State)
      returns (r: Summary, ghost cuts: seq<(TaskId, TaskId)>, ghost hits: multiset<LinkId>)
      requires FrameInv(s0, t, seen, handled, r0, cuts0, hits0, s)
      requires forall v :: v in seen + {t} ==> Settled(s0, v)
      requires handled <= ActiveTouching(s0, t) && l in ActiveTouching(s0, t) && l !in handled
      requires l in s.links && Db() == Revoke(s, l) && child in s.tasks
      requires s.links[l].from == t && s.links[l].to == child && DrivesChild(s.links[l])
      requires Lists(order, s0, t)
      modifies this
      ensures FrameInv(s0, t, seen, handled + {l}, r, cuts, hits, Db())
      ensures r.revoked >= r0.revoked
      ensures RowRun(order, s, r0.seen, t, l) == Trail(Db(), r.seen, r.revoked - r0.revoked)
      decreases Alive(s), 0
    {
      var ok := CancelTask(child);
      if !ok {
        r, cuts, hits := Counted(r0), cuts0, hits0 + multiset{l};
        IdleRow(order, s0, t, seen, handled, r0, cuts0, hits0, s, l);
        return;
      }
      AliveCancel(s, l, child);
      r, cuts, hits := Descend(order, s0, t, seen, handled, l, child, r0, cuts0, hits0, s);
    }

    // The frame of a child just cancelled, and what it adds to the caller's.
    method Descend(order: Orders, ghost s0: State, t: TaskId, ghost seen: set<TaskId>, ghost handled: set<LinkId>, l: LinkId, child: TaskId,
                   r0: Summary, ghost cuts0: seq<(TaskId, TaskId)>, ghost hits0: multiset<LinkId>, ghost s: State)
      returns (r: Summary, ghost cuts: seq<(TaskId, TaskId)>, ghost hits: multiset<LinkId>)
      requires FrameInv(s0, t, seen, handled, r0, cuts0, hits0, s)
      requires forall v :: v in seen + {t} ==> Settled(s0, v)
      requires handled <= ActiveTouching(s0, t) && l in ActiveTouching(s0, t) && l !in handled
      requires l in s.links && child in s.tasks && Cancellable(s.tasks[child]) && Db() == Cancel(Revoke(s, l), child)
      requires s.links[l].from == t && s.links[l].to == child && DrivesChild(s.links[l])
      requires Lists(order, s0, t)
      modifies this
      ensures FrameInv(s0, t, seen, handled + {l}, r, cuts, hits, Db())
      ensures r.revoked >= r0.revoked
      ensures RowRun(order, s, r0.seen, t, l) == Trail(Db(), r.seen, r.revoked - r0.revoked)
      decreases Alive(Db()), 3
    {
      SettledChild(s0, t, seen, handled, r0, cuts0, hits0, s, l, child);
      ChildRow(order, s0, t, seen, handled, r0, cuts0, hits0, s, l, child);
      var sub;
      ghost var cuts', hits';
      sub, cuts', hits' := Frame(order, child, r0.seen);
      DrivenRow(order, s0, t, seen, handled, r0, cuts0, hits0, s, l, child, sub, cuts', hits', Db());
      r, cuts, hits := Absorb(r0, child, sub), cuts0 + cuts', hits0 + multiset{l} + hits';
    }

    method CascadeOnTermination(order: Orders, t: TaskId) returns (r: Summary, ghost cuts: seq<(TaskId, TaskId)>)
      requires Settled(Db(), t) && Lists(order, Db(), t)
      modifies this
      ensures Cascaded(old(Db()), t, Db()) && Summarizes(old(Db()), t, r, cuts, Db())
      ensures FrameRun(order, old(Db()), {}, t) == Trail(Db(), r.seen, r.revoked)
    {
      ghost var s0 := Db();
      ghost var hits;
      r, cuts, hits := Frame(order, t, {});
      FrameResult(s0, t, r, cuts, hits, Db());
    }

    // POST /tasks/{id}/cancel
    method Cancellation(order: Orders, t: TaskId, allowed: bool) returns (a: Answer)
      requires Lists(order, Db(), t)
      modifies this
      ensures a == NotFound <==> t !in old(tasks)
      ensures a == Forbidden <==> t in old(tasks) && !allowed
      ensures a == BadRequest <==> t in old(tasks) && allowed && old(tasks)[t].status !in {Open, Claimed, Working}
      ensures Next(old(Db()), CancelStep(t, allowed), Db())
      ensures a.Terminated? ==> t in tasks && tasks[t].status == Status.Cancelled
      ensures !a.Terminated? ==> Db() == old(Db())
      ensures a.Terminated? ==> exists cuts :: Summarizes(Cancel(old(Db()), t), t, a.summary, cuts, Db())
      ensures a.Terminated? ==> a.summary.revoked == FrameRun(order, Cancel(old(Db()), t), {}, t).count
    {
      if t !in tasks { return NotFound; }
      if !allowed { return Forbidden; }
      var ok := CancelTask(t);
      if !ok { return BadRequest; }
      ghost var s0 := Db();
      var r;
      ghost var cuts;
      r, cuts := CascadeOnTermination(order, t);
      a := Terminated(r);
      assert Summarizes(s0, t, a.summary, cuts, Db());
    }

    // DELETE /tasks/{id}
    method Removal(order: Orders, t: TaskId, allowed: bool) returns (a: Answer)
      requires Lists(order, Db(), t)
      modifies this
      ensures a == NotFound <==> t !in old(tasks)
      ensures a == Forbidden <==> t in old(tasks) && !allowed
      ensures a == BadRequest <==> t in old(tasks) && allowed && old(tasks)[t].status != Open
      ensures Next(old(Db()), RemoveStep(t, allowed), Db())
      ensures a.Terminated? ==> t !in tasks
      ensures !a.Terminated? ==> Db() == old(Db())
      ensures a.Terminated? ==> exists cuts :: Summarizes(Delete(old(Db()), t), t, a.summary, cuts, Db())
      ensures a.Terminated? ==> a.summary.revoked == FrameRun(order, Delete(old(Db()), t), {}, t).count
    {
      if t !in tasks { return NotFound; }
      if !allowed { return Forbidden; }
      if tasks[t].status != Open { return BadRequest; }
      tasks := tasks - {t};
      ghost var s0 := Db();
      assert s0 == Delete(old(Db()), t);
      var r;
      ghost var cuts;
      r, cuts := CascadeOnTermination(order, t);
      a := Terminated(r);
      assert Summarizes(s0, t, a.summary, cuts, Db());
    }

    // ---- link requests -------------------------------------------------------

    // POST /tasks/{f}/links; newTask and newLink are the ids it draws.
    method CreateLink(f: TaskId, q: Request, owner: bool, newTask: TaskId, newLink: LinkId) returns (a: Outcome)
      requires FreshIds(Db(), newTask, newLink)
      modifies this
      ensures a == Verdict(old(Db()), f, q, owner)
      ensures Next(old(Db()), Create(f, q, owner, newTask, newLink), Db())
      ensures a != Accepted ==> Db() == old(Db())
      ensures a == Accepted ==> newLink in links && !links[newLink].revoked && links[newLink].from == f && Some(links[newLink].kind) == q.kind
    {
      if q.kind == None { return Refused(BadKind); }
      if q.to.Some? == q.spawn { return Refused(BadTarget); }
      if !q.payloadValid { return Refused(BadPayload); }
      if f !in tasks { return Refused(FromNotFound); }
      if !owner { return Refused(NotOwner); }
      var b, k := tasks[f].bundle, q.kind.value;
      var t;
      if q.spawn {
        t := newTask;
        tasks := tasks[t := Task(b, Open, [], None, None, None, None)];
      } else {
        t := q.to.value;
        if t == f { return Refused(SelfLink); }
        if t !in tasks { return Refused(ToNotFound); }
        if tasks[t].bundle != b { return Refused(CrossBundle); }
      }
      if exists l :: l in links && !links[l].revoked && links[l].from == f && links[l].to == t && links[l].kind == k {
        return Refused(Duplicate);
      }
      if !q.spawn {
        var loop := WouldCycle(b, f, t);
        if !loop { loop := WouldCycleLinks(b, f, t); }
        if loop { return Refused(Error.WouldCycle); }
      }
      if k == Pipe && f !in tasks[t].deps {
        tasks := tasks[t := tasks[t].(deps := tasks[t].deps + [f])];
      }
      links := links[newLink := Link(b, f, t, k, if q.spawn then Some(f) else None, false)];
      if q.spawn {
        tasks := tasks[t := tasks[t].(createdBy := Some(f))];
      }
      return Accepted;
    }

    // DELETE /links/{l}
    method RevokeLink(l: LinkId, owner: bool) returns (a: Revocation)
      modifies this
      ensures a == Missing <==> l !in old(links)
      ensures a == Denied <==> l in old(links) && !owner
      ensures a == Already <==> l in old(links) && owner && old(links)[l].revoked
      ensures Next(old(Db()), RevokeStep(l, owner), Db())
      ensures a != RevokedNow ==> Db() == old(Db())
      ensures a == RevokedNow ==> links == old(links)[l := old(links)[l].(revoked := true)]
    {
      if l !in links { return Missing; }
      if !owner { return Denied; }
      var row := links[l];
      if row.revoked { return Already; }
      links := links[l := row.(revoked := true)];
      if row.kind == Pipe {
        var others := set k | k in links && links[k].from == row.from && links[k].to == row.to
          && links[k].kind == Pipe && !links[k].revoked && k != l;
        if HasActive(links, row.from, row.to, Pipe) {
          ghost var k :| k in links && !links[k].revoked && links[k].from == row.from && links[k].to == row.to
            && links[k].kind == Pipe;
          assert k in others;
        }
        if others == {} && row.to in tasks {
          if row.from in tasks[row.to].deps {
            tasks := tasks[row.to := tasks[row.to].(deps := Without(tasks[row.to].deps, {row.from}))];
          } else {
            WithoutAbsent(tasks[row.to].deps, {row.from});
          }
        }
      }
      return RevokedNow;
    }
  }
}
