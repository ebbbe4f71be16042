// What the link requests do to tasks and links, read off the tables.
module LinkMeaning {
  import opened Domain
  import opened Graphs
  import opened LinkState
  import opened Cascade
  import opened LinkRuns

  // ---- who dies in a cascade -------------------------------------------------------------

  lemma DriveEdge(s: State, l: LinkId)
    requires l in s.links && !s.links[l].revoked
    requires s.links[l].kind == Drives || (s.links[l].kind == Subagent && s.links[l].createdByTask == Some(s.links[l].from))
    requires s.links[l].to in s.tasks && s.tasks[s.links[l].to].status in {Open, Claimed, Working}
    ensures (s.links[l].from, s.links[l].to) in DriveEdges(s)
  {
  }

  // A doomed task is open, claimed or working, and a driving link leads to it from
  // the root or another doomed task: one of kind drives, or a subagent link made
  // by the task it comes from.
  lemma DoomedBecause(s: State, t: TaskId, v: TaskId)
    requires v in Doomed(s, t)
    ensures v in s.tasks && v != t && s.tasks[v].status in {Open, Claimed, Working}
    ensures exists l ::
      && l in s.links && !s.links[l].revoked && s.links[l].to == v
      && (s.links[l].from == t || s.links[l].from in Doomed(s, t))
      && (s.links[l].kind == Drives || (s.links[l].kind == Subagent && s.links[l].createdByTask == Some(s.links[l].from)))
  {
    var es := DriveEdges(s);
    var p :| IsWalk(es, p) && p[0] == t && p[|p| - 1] == v;
    var n := |p| - 1;
    assert (p[n - 1], p[n - 1 + 1]) in es;
    var u := p[n - 1];
    assert IsWalk(es, p[..n]) by {
      forall i | 0 <= i < n - 1 ensures (p[..n][i], p[..n][i + 1]) in es { assert (p[i], p[i + 1]) in es; }
    }
    assert Reaches(es, t, u);
    if u != t {
      assert (p[n - 2], p[n - 2 + 1]) in es;
    }
  }

  // And every such link out of the root or a doomed task dooms its target.
  lemma DoomedBy(s: State, t: TaskId, l: LinkId)
    requires l in s.links && !s.links[l].revoked && (s.links[l].from == t || s.links[l].from in Doomed(s, t))
    requires s.links[l].kind == Drives || (s.links[l].kind == Subagent && s.links[l].createdByTask == Some(s.links[l].from))
    requires s.links[l].to in s.tasks && s.links[l].to != t && s.tasks[s.links[l].to].status in {Open, Claimed, Working}
    ensures s.links[l].to in Doomed(s, t)
  {
    DriveEdge(s, l);
    if s.links[l].from == t { ReachesSelf(DriveEdges(s), t); }
    ReachesStep(DriveEdges(s), t, s.links[l].from, s.links[l].to);
  }

  // Nobody else: any set of tasks that these links do not leave has them all.
  lemma DoomedLeast(s: State, t: TaskId, d: set<TaskId>)
    requires forall l ::
      l in s.links && !s.links[l].revoked && (s.links[l].from == t || s.links[l].from in d) &&
      (s.links[l].kind == Drives || (s.links[l].kind == Subagent && s.links[l].createdByTask == Some(s.links[l].from))) &&
      s.links[l].to in s.tasks && s.links[l].to != t && s.tasks[s.links[l].to].status in {Open, Claimed, Working} ==>
        s.links[l].to in d
    ensures Doomed(s, t) <= d
  {
    forall v | v in Doomed(s, t)
      ensures v in d
    {
      assert Closed(DriveEdges(s), d + {t});
      ClosedTraps(DriveEdges(s), d + {t}, t, v);
    }
  }

  // The tables after a cascade: exactly the doomed tasks are cancelled, and exactly
  // the active links at the root or a doomed task are revoked.
  lemma CascadeMeans(s: State, t: TaskId, s': State)
    requires Cascaded(s, t, s')
    ensures s'.tasks.Keys == s.tasks.Keys && s'.links.Keys == s.links.Keys
    ensures forall v :: v in s.tasks ==>
      && s'.tasks[v].status == (if v in Doomed(s, t) then Status.Cancelled else s.tasks[v].status)
      && s'.tasks[v] == s.tasks[v].(status := s'.tasks[v].status, deps := s'.tasks[v].deps)
    ensures forall l :: l in s.links ==>
      && s'.links[l] == s.links[l].(revoked := s'.links[l].revoked)
      && (s'.links[l].revoked <==> s.links[l].revoked || s.links[l].from in Doomed(s, t) + {t} || s.links[l].to in Doomed(s, t) + {t})
  {
  }

  // A survivor stops waiting for exactly the root and the doomed tasks that an
  // active pipe leads from.
  lemma SurvivorWaits(s: State, t: TaskId, s': State, v: TaskId, d: TaskId)
    requires Cascaded(s, t, s') && v in s.tasks && v !in Doomed(s, t) + {t} && d in s.tasks[v].deps
    ensures d !in s'.tasks[v].deps <==>
      (d == t || d in Doomed(s, t)) &&
      exists l ::
        && l in s.links && !s.links[l].revoked && s.links[l].kind == Pipe
        && s.links[l].from == d && s.links[l].to == v
  {
    CascadedDeps(s, t, s', v);
  }

  // ---- what an accepted link means when its source is cancelled -------------------------------

  lemma SameDrives(s: State, f: TaskId, q: Request, owner: bool, newTask: TaskId, newLink: LinkId)
    requires FreshIds(s, newTask, newLink) && Verdict(s, f, q, owner) == Accepted
    requires q.kind == Some(Pipe) || (q.kind == Some(Subagent) && !q.spawn)
    ensures DriveEdges(Cancel(Created(s, f, q, newTask, newLink), f)) == DriveEdges(Cancel(s, f))
  {
    var s1, s2 := Cancel(Created(s, f, q, newTask, newLink), f), Cancel(s, f);
    forall e | e in DriveEdges(s2)
      ensures e in DriveEdges(s1)
    {
      var l :| l in s2.links && !s2.links[l].revoked && DrivesChild(s2.links[l])
        && s2.links[l].to in s2.tasks && Cancellable(s2.tasks[s2.links[l].to]) && e == (s2.links[l].from, s2.links[l].to);
      assert s1.links[l] == s2.links[l];
    }
  }

  // A child spawned over drives or subagent dies with its parent, and so does an
  // existing task taken over by drives. A pipe, or a subagent link to an existing
  // task, adds nobody to those that die with f.
  lemma DiesWithSource(s: State, f: TaskId, q: Request, owner: bool, newTask: TaskId, newLink: LinkId)
    requires FreshIds(s, newTask, newLink) && Verdict(s, f, q, owner) == Accepted
    ensures var s1 := Cancel(Created(s, f, q, newTask, newLink), f);
      && (q.spawn && q.kind != Some(Pipe) ==> newTask in Doomed(s1, f))
      && (!q.spawn && q.kind == Some(Drives) && s.tasks[q.to.value].status in {Open, Claimed, Working} ==>
            q.to.value in Doomed(s1, f))
      && (q.kind == Some(Pipe) || (q.kind == Some(Subagent) && !q.spawn) ==> Doomed(s1, f) == Doomed(Cancel(s, f), f))
  {
    var s1 := Cancel(Created(s, f, q, newTask, newLink), f);
    if q.spawn && q.kind != Some(Pipe) {
      DoomedBy(s1, f, newLink);
    } else if q.kind == Some(Drives) {
      if s.tasks[q.to.value].status in {Open, Claimed, Working} { DoomedBy(s1, f, newLink); }
    } else {
      SameDrives(s, f, q, owner, newTask, newLink);
      if q.spawn { SpawnedApart(s, f, newTask); }
    }
  }

  lemma SpawnedApart(s: State, f: TaskId, newTask: TaskId)
    requires f in s.tasks && Fresh(s, newTask)
    ensures !Reaches(DriveEdges(Cancel(s, f)), f, newTask)
  {
    if Reaches(DriveEdges(Cancel(s, f)), f, newTask) {
      NoEntry(DriveEdges(Cancel(s, f)), f, newTask);
    }
  }

  // ---- create and revoke -------------------------------------------------------------------------

  // The two graphs that the guards walk: every dependency of a task of the bundle,
  // and every active link of the bundle, whatever its kind.
  lemma GuardsWalk(s: State, b: BundleId, x: TaskId, y: TaskId)
    ensures (x, y) in DepEdges(s.tasks, b) <==> x in s.tasks && s.tasks[x].bundle == b && y in s.tasks[x].deps
    ensures (x, y) in LinkEdges(s.links, b) <==>
      exists l :: l in s.links && !s.links[l].revoked && s.links[l].bundle == b && s.links[l].from == x && s.links[l].to == y
  {
  }

  // Exactly which requests are accepted.
  lemma AcceptedExactlyWhen(s: State, f: TaskId, q: Request, owner: bool)
    ensures Verdict(s, f, q, owner) == Accepted <==>
      && q.kind.Some? && q.payloadValid && owner && f in s.tasks
      && (q.spawn <==> q.to == None)
      && (q.to.Some? ==>
            && q.to.value in s.tasks && q.to.value != f && s.tasks[q.to.value].bundle == s.tasks[f].bundle
            && (forall l :: l in s.links && !s.links[l].revoked ==>
                  !(s.links[l].from == f && s.links[l].to == q.to.value && s.links[l].kind == q.kind.value))
            && !Reaches(DepEdges(s.tasks, s.tasks[f].bundle), f, q.to.value)
            && !Reaches(LinkEdges(s.links, s.tasks[f].bundle), q.to.value, f))
  {
  }

  // Why a request is refused: the first of these that applies, a request for a
  // new task having none of the last five.
  lemma RefusedExactlyWhen(s: State, f: TaskId, q: Request, owner: bool)
    ensures var v := Verdict(s, f, q, owner);
      && (v == Refused(BadKind) <==> q.kind == None)
      && (v == Refused(BadTarget) <==> q.kind.Some? && (q.spawn <==> q.to.Some?))
      && (v == Refused(BadPayload) <==> q.kind.Some? && (q.spawn <==> q.to == None) && !q.payloadValid)
      && (v == Refused(FromNotFound) <==> q.kind.Some? && (q.spawn <==> q.to == None) && q.payloadValid && f !in s.tasks)
      && (v == Refused(NotOwner) <==> Asked(s, f, q) && !owner)
      && (v == Refused(SelfLink) <==> Asked(s, f, q) && owner && q.to == Some(f))
      && (v == Refused(ToNotFound) <==> Asked(s, f, q) && owner && q.to.Some? && q.to.value !in s.tasks)
      && (v == Refused(CrossBundle) <==>
            Asked(s, f, q) && owner && q.to.Some? && q.to.value in s.tasks && s.tasks[q.to.value].bundle != s.tasks[f].bundle)
      && (v == Refused(Duplicate) <==>
            && Asked(s, f, q) && owner && q.to.Some? && q.to.value in s.tasks && s.tasks[q.to.value].bundle == s.tasks[f].bundle
            && q.to.value != f
            && exists l :: l in s.links && !s.links[l].revoked && s.links[l].from == f && s.links[l].to == q.to.value
                           && s.links[l].kind == q.kind.value)
  {
  }

  predicate Asked(s: State, f: TaskId, q: Request) {
    q.kind.Some? && (q.spawn <==> q.to == None) && q.payloadValid && f in s.tasks
  }

  // A spawned child is open and unclaimed; it waits for its parent exactly over a
  // pipe, and an existing target waits for nobody new but f, over a pipe.
  lemma CreatedWaits(s: State, f: TaskId, q: Request, owner: bool, newTask: TaskId, newLink: LinkId)
    requires FreshIds(s, newTask, newLink) && Verdict(s, f, q, owner) == Accepted
    ensures var s' := Created(s, f, q, newTask, newLink);
      var v := if q.spawn then newTask else q.to.value;
      && s'.tasks.Keys == s.tasks.Keys + {v} && s'.links.Keys == s.links.Keys + {newLink}
      && (forall u :: u in s.tasks && u != v ==> s'.tasks[u] == s.tasks[u])
      && (forall l :: l in s.links ==> s'.links[l] == s.links[l])
      && !s'.links[newLink].revoked && s'.links[newLink].from == f && s'.links[newLink].to == v
      && s'.links[newLink].kind == q.kind.value && s'.links[newLink].bundle == s'.tasks[v].bundle == s.tasks[f].bundle
      && (s'.links[newLink].createdByTask == if q.spawn then Some(f) else None)
      && (forall d :: d in s'.tasks[v].deps <==> (q.kind.value == Pipe && d == f) || (!q.spawn && d in s.tasks[v].deps))
      && (q.spawn ==>
            && s'.tasks[v].status == Open && s'.tasks[v].claimedBy == None && s'.tasks[v].assignee == None
            && (DepsDone(s'.tasks, s'.tasks[v].deps) <==> q.kind.value != Pipe || s.tasks[f].status == Done))
      && (!q.spawn ==> s'.tasks[v] == s.tasks[v].(deps := s'.tasks[v].deps))
  {
    var s' := Created(s, f, q, newTask, newLink);
    if q.spawn && q.kind.value == Pipe {
      assert s'.tasks[newTask].deps == [f];
      assert f in s'.tasks[newTask].deps;
    }
  }

  // A revocation takes away one dependency at most: of the link's target on its
  // source, exactly when the link is the last active pipe between them.
  lemma RevokeDrops(s: State, l: LinkId, v: TaskId, d: TaskId)
    requires l in s.links && !s.links[l].revoked && v in s.tasks
    ensures var s' := Revoked(s, l);
      && s'.tasks.Keys == s.tasks.Keys && s'.tasks[v] == s.tasks[v].(deps := s'.tasks[v].deps)
      && s'.links == s.links[l := s.links[l].(revoked := true)]
      && (d in s.tasks[v].deps && d !in s'.tasks[v].deps <==>
            && d in s.tasks[v].deps && v == s.links[l].to && d == s.links[l].from && s.links[l].kind == Pipe
            && forall k :: k in s.links && k != l && s.links[k].kind == Pipe && s.links[k].from == d && s.links[k].to == v ==>
                 s.links[k].revoked)
      && (d in s'.tasks[v].deps ==> d in s.tasks[v].deps)
  {
    var link := s.links[l];
    var rest := s.links[l := link.(revoked := true)];
    if link.to in s.tasks { WithoutMember(s.tasks[link.to].deps, {link.from}, d); }
    if k :| k in s.links && k != l && s.links[k].kind == Pipe && s.links[k].from == link.from && s.links[k].to == link.to
            && !s.links[k].revoked {
      assert rest[k] == s.links[k];
      assert HasActive(rest, link.from, link.to, Pipe);
    }
  }
}
