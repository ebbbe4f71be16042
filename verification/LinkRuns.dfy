// Safety over every run of link, cancel and remove requests: what the link and
// dependency graphs keep, and what a cascade or a revocation undoes.
module LinkRuns {
  import opened Domain
  import opened Graphs
  import opened LinkState
  import opened Cascade

  datatype Step =
    | Create(f: TaskId, q: Request, owner: bool, newTask: TaskId, newLink: LinkId)
    | RevokeStep(l: LinkId, owner: bool)
    | CancelStep(t: TaskId, allowed: bool)
    | RemoveStep(t: TaskId, allowed: bool)
    | AddTask(t: TaskId, task: Task)
    | Work        // status, claim and other columns move; bundles and deps stay
    | EditDeps    // edit_task: dependencies are overwritten without a guard

  ghost predicate Next(s: State, step: Step, s': State) {
    match step
    case Create(f, q, owner, newTask, newLink) =>
      && FreshIds(s, newTask, newLink)
      && s' == if Verdict(s, f, q, owner) == Accepted then Created(s, f, q, newTask, newLink) else s
    case RevokeStep(l, owner) =>
      s' == if l in s.links && owner && !s.links[l].revoked then Revoked(s, l) else s
    case CancelStep(t, allowed) =>
      if t in s.tasks && allowed && Cancellable(s.tasks[t]) then Cascaded(Cancel(s, t), t, s') else s' == s
    case RemoveStep(t, allowed) =>
      if t in s.tasks && allowed && s.tasks[t].status == Open then Cascaded(Delete(s, t), t, s') else s' == s
    case AddTask(t, task) =>
      Fresh(s, t) && t !in task.deps && s' == s.(tasks := s.tasks[t := task])
    case Work =>
      && s'.links == s.links && s'.tasks.Keys == s.tasks.Keys
      && (forall v :: v in s.tasks ==> s'.tasks[v].bundle == s.tasks[v].bundle && s'.tasks[v].deps == s.tasks[v].deps)
    case EditDeps =>
      && s'.links == s.links && s'.tasks.Keys == s.tasks.Keys
      && (forall v :: v in s.tasks ==> s'.tasks[v].bundle == s.tasks[v].bundle)
  }

  // Active links join two tasks of their own bundle.
  ghost predicate WithinBundle(s: State) {
    forall l :: l in s.links && !s.links[l].revoked ==>
      && s.links[l].from in s.tasks && s.tasks[s.links[l].from].bundle == s.links[l].bundle
      && s.links[l].to in s.tasks && s.tasks[s.links[l].to].bundle == s.links[l].bundle
  }

  ghost predicate OnePerKind(s: State) {
    forall k, l :: k in s.links && l in s.links && !s.links[k].revoked && !s.links[l].revoked
      && s.links[k].from == s.links[l].from && s.links[k].to == s.links[l].to && s.links[k].kind == s.links[l].kind
      ==> k == l
  }

  ghost predicate LinksAcyclic(s: State) {
    forall b :: Acyclic(LinkEdges(s.links, b))
  }

  ghost predicate LinkInv(s: State) {
    WithinBundle(s) && OnePerKind(s) && LinksAcyclic(s)
  }

  ghost predicate PipesWait(s: State) {
    forall l :: l in s.links && !s.links[l].revoked && s.links[l].kind == Pipe && s.links[l].to in s.tasks
      ==> s.links[l].from in s.tasks[s.links[l].to].deps
  }

  ghost predicate DepsAcyclic(s: State) {
    forall b :: Acyclic(DepEdges(s.tasks, b))
  }

  ghost predicate DepInv(s: State) {
    PipesWait(s) && DepsAcyclic(s)
  }

  // ---- create ----------------------------------------------------------------

  lemma LastEdge(es: Edges, p: seq<Node>) returns (z: Node)
    requires IsWalk(es, p) && |p| > 1
    ensures (z, p[|p| - 1]) in es
  {
    z := p[|p| - 2];
    assert (p[|p| - 2], p[|p| - 2 + 1]) in es;
  }

  // A node without incoming edges is reached only from itself.
  lemma NoEntry(es: Edges, x: Node, y: Node)
    requires forall z :: (z, y) !in es
    requires Reaches(es, x, y)
    ensures x == y
  {
    var p :| IsWalk(es, p) && p[0] == x && p[|p| - 1] == y;
    if |p| > 1 {
      var z := LastEdge(es, p);
    }
  }

  lemma NoExit(es: Edges, x: Node, y: Node)
    requires forall z :: (x, z) !in es
    requires Reaches(es, x, y)
    ensures x == y
  {
    assert Closed(es, {x});
    ClosedTraps(es, {x}, x, y);
  }

  // The edges an accepted create adds: one link, and for a pipe one dependency.
  lemma CreatedLinkEdges(s: State, f: TaskId, q: Request, owner: bool, newTask: TaskId, newLink: LinkId, b: BundleId)
    requires FreshIds(s, newTask, newLink) && Verdict(s, f, q, owner) == Accepted
    ensures var s' := Created(s, f, q, newTask, newLink);
      LinkEdges(s'.links, b) == LinkEdges(s.links, b) + if b == s.tasks[f].bundle then {(f, s'.links[newLink].to)} else {}
  {
    var s' := Created(s, f, q, newTask, newLink);
    var t := s'.links[newLink].to;
    forall e
      ensures e in LinkEdges(s'.links, b) <==> e in LinkEdges(s.links, b) || (b == s.tasks[f].bundle && e == (f, t))
    {
      if e in LinkEdges(s.links, b) {
        var l :| l in s.links && !s.links[l].revoked && s.links[l].bundle == b && e == (s.links[l].from, s.links[l].to);
        assert s'.links[l] == s.links[l];
      }
      if b == s.tasks[f].bundle && e == (f, t) { assert s'.links[newLink].bundle == b; }
    }
  }

  lemma CreatedDepEdges(s: State, f: TaskId, q: Request, owner: bool, newTask: TaskId, newLink: LinkId, b: BundleId)
    requires FreshIds(s, newTask, newLink) && Verdict(s, f, q, owner) == Accepted
    ensures var s' := Created(s, f, q, newTask, newLink);
      DepEdges(s'.tasks, b) ==
        DepEdges(s.tasks, b) + if b == s.tasks[f].bundle && q.kind == Some(Pipe) then {(s'.links[newLink].to, f)} else {}
  {
  }

  lemma CreateLinkEdges(s: State, f: TaskId, q: Request, owner: bool, newTask: TaskId, newLink: LinkId, b: BundleId)
    requires LinkInv(s) && FreshIds(s, newTask, newLink) && Verdict(s, f, q, owner) == Accepted
    ensures Acyclic(LinkEdges(Created(s, f, q, newTask, newLink).links, b))
  {
    var t := Created(s, f, q, newTask, newLink).links[newLink].to;
    var es := LinkEdges(s.links, b);
    assert Acyclic(es);
    CreatedLinkEdges(s, f, q, owner, newTask, newLink, b);
    AcyclicAddEdge(es, f, t);
    if q.spawn && Reaches(es, t, f) {
      NoExit(es, t, f);
    }
  }

  lemma CreateKeepsLinks(s: State, f: TaskId, q: Request, owner: bool, newTask: TaskId, newLink: LinkId)
    requires LinkInv(s) && FreshIds(s, newTask, newLink) && Verdict(s, f, q, owner) == Accepted
    ensures LinkInv(Created(s, f, q, newTask, newLink))
  {
    forall b
      ensures Acyclic(LinkEdges(Created(s, f, q, newTask, newLink).links, b))
    {
      CreateLinkEdges(s, f, q, owner, newTask, newLink, b);
    }
  }

  lemma CreateKeepsDeps(s: State, f: TaskId, q: Request, owner: bool, newTask: TaskId, newLink: LinkId)
    requires DepInv(s) && FreshIds(s, newTask, newLink) && Verdict(s, f, q, owner) == Accepted
    ensures DepInv(Created(s, f, q, newTask, newLink))
  {
    var s' := Created(s, f, q, newTask, newLink);
    var t := s'.links[newLink].to;
    forall b
      ensures Acyclic(DepEdges(s'.tasks, b))
    {
      var es := DepEdges(s.tasks, b);
      assert Acyclic(es);
      CreatedDepEdges(s, f, q, owner, newTask, newLink, b);
      AcyclicAddEdge(es, t, f);
      if q.spawn && Reaches(es, f, t) {
        NoEntry(es, f, t);
      }
    }
  }

  // ---- revoke ----------------------------------------------------------------

  lemma {:induction false} WithoutElems(s: seq<TaskId>, gone: set<TaskId>)
    ensures forall d :: d in Without(s, gone) <==> d in s && d !in gone
  {
    forall d { WithoutMember(s, gone, d); }
  }

  lemma FewerLinks(s: State, s': State)
    requires s'.links.Keys <= s.links.Keys
    requires forall l :: l in s'.links ==>
      s'.links[l] == s.links[l] || s'.links[l] == s.links[l].(revoked := true)
    requires LinksAcyclic(s) && OnePerKind(s)
    ensures LinksAcyclic(s') && OnePerKind(s')
  {
    forall b
      ensures Acyclic(LinkEdges(s'.links, b))
    {
      AcyclicMono(LinkEdges(s'.links, b), LinkEdges(s.links, b));
    }
  }

  lemma FewerDeps(s: State, s': State)
    requires s'.tasks.Keys <= s.tasks.Keys
    requires forall v :: v in s'.tasks ==> s'.tasks[v].bundle == s.tasks[v].bundle
    requires forall v, d :: v in s'.tasks && d in s'.tasks[v].deps ==> d in s.tasks[v].deps
    requires DepsAcyclic(s)
    ensures DepsAcyclic(s')
  {
    forall b
      ensures Acyclic(DepEdges(s'.tasks, b))
    {
      AcyclicMono(DepEdges(s'.tasks, b), DepEdges(s.tasks, b));
    }
  }

  lemma RevokeKeeps(s: State, l: LinkId)
    requires l in s.links && !s.links[l].revoked
    ensures LinkInv(s) ==> LinkInv(Revoked(s, l))
    ensures DepInv(s) ==> DepInv(Revoked(s, l))
  {
    var s' := Revoked(s, l);
    var link := s.links[l];
    if link.to in s.tasks {
      WithoutElems(s.tasks[link.to].deps, {link.from});
    }
    if LinkInv(s) { FewerLinks(s, s'); }
    if DepInv(s) {
      FewerDeps(s, s');
      forall k | k in s'.links && !s'.links[k].revoked && s'.links[k].kind == Pipe && s'.links[k].to in s'.tasks
        ensures s'.links[k].from in s'.tasks[s'.links[k].to].deps
      {
        assert s'.links[k] == s.links[k];
        assert s'.links[k].from == link.from && s'.links[k].to == link.to
          ==> HasActive(s.links[l := link.(revoked := true)], link.from, link.to, Pipe);
      }
    }
  }

  // ---- cascade ---------------------------------------------------------------

  lemma CascadedDeps(s0: State, t: TaskId, s1: State, v: TaskId)
    requires Cascaded(s0, t, s1) && v in s0.tasks
    ensures s1.tasks[v].bundle == s0.tasks[v].bundle
    ensures forall d :: d in s1.tasks[v].deps ==> d in s0.tasks[v].deps
    ensures v !in Doomed(s0, t) + {t} ==> forall d :: d in s1.tasks[v].deps <==>
      d in s0.tasks[v].deps && d !in PipeUpstreams(s0, v, Doomed(s0, t) + {t})
  {
    var dead := Doomed(s0, t);
    var gone: set<TaskId> :|
      && gone <= PipeUpstreams(s0, v, dead + {t})
      && (v !in dead + {t} ==> gone == PipeUpstreams(s0, v, dead + {t}))
      && s1.tasks[v] == Reaped(s0.tasks[v], v in dead, gone);
    WithoutElems(s0.tasks[v].deps, gone);
  }

  // s0 may be a state from which t has just been deleted: only links touching t
  // then lack an endpoint, and the cascade revokes them.
  lemma CascadeKeepsLinks(s0: State, t: TaskId, s1: State)
    requires Cascaded(s0, t, s1)
    requires OnePerKind(s0) && LinksAcyclic(s0)
    requires forall l :: l in s0.links && !s0.links[l].revoked && !Touches(s0.links[l], t) ==>
      && s0.links[l].from in s0.tasks && s0.tasks[s0.links[l].from].bundle == s0.links[l].bundle
      && s0.links[l].to in s0.tasks && s0.tasks[s0.links[l].to].bundle == s0.links[l].bundle
    ensures LinkInv(s1)
  {
    forall l | l in s0.links
      ensures s1.links[l] == s0.links[l] || s1.links[l] == s0.links[l].(revoked := true)
      ensures !s1.links[l].revoked ==> !s0.links[l].revoked && !Touches(s0.links[l], t)
    {
      assert s1.links[l] == Unlinked(s0.links[l], TouchesAny(s0.links[l], Doomed(s0, t) + {t}));
    }
    FewerLinks(s0, s1);
    forall v | v in s0.tasks
      ensures s1.tasks[v].bundle == s0.tasks[v].bundle
    {
      CascadedDeps(s0, t, s1, v);
    }
  }

  lemma CascadeKeepsDeps(s0: State, t: TaskId, s1: State)
    requires Cascaded(s0, t, s1) && DepInv(s0)
    ensures DepInv(s1)
  {
    forall v | v in s0.tasks
      ensures s1.tasks[v].bundle == s0.tasks[v].bundle
      ensures forall d :: d in s1.tasks[v].deps ==> d in s0.tasks[v].deps
    {
      CascadedDeps(s0, t, s1, v);
    }
    FewerDeps(s0, s1);
    forall l | l in s1.links && !s1.links[l].revoked && s1.links[l].kind == Pipe && s1.links[l].to in s1.tasks
      ensures s1.links[l].from in s1.tasks[s1.links[l].to].deps
    {
      assert s1.links[l] == Unlinked(s0.links[l], TouchesAny(s0.links[l], Doomed(s0, t) + {t}));
      CascadedDeps(s0, t, s1, s1.links[l].to);
    }
  }

  // No surviving task waits for the root or a cancelled task through a pipe
  // that was active when the cascade began, in whatever order it ran.
  lemma CascadeFreesDownstream(s0: State, t: TaskId, s1: State, l: LinkId)
    requires Cascaded(s0, t, s1)
    requires l in s0.links && !s0.links[l].revoked && s0.links[l].kind == Pipe
    requires s0.links[l].from in Doomed(s0, t) + {t}
    requires s0.links[l].to in s1.tasks && s0.links[l].to !in Doomed(s0, t) + {t}
    ensures s0.links[l].from !in s1.tasks[s0.links[l].to].deps
    ensures var v := s0.links[l].to;
      forall d :: d in s0.tasks[v].deps && d !in Doomed(s0, t) + {t} ==> d in s1.tasks[v].deps
  {
    CascadedDeps(s0, t, s1, s0.links[l].to);
  }

  // ---- runs ------------------------------------------------------------------

  ghost predicate IsRun(states: seq<State>, steps: seq<Step>) {
    && |states| == |steps| + 1
    && forall i :: 0 <= i < |steps| ==> Next(states[i], steps[i], states[i + 1])
  }

  lemma NextKeepsLinks(s: State, step: Step, s': State)
    requires Next(s, step, s') && LinkInv(s)
    ensures LinkInv(s')
  {
    match step
    case Create(f, q, owner, newTask, newLink) =>
      if Verdict(s, f, q, owner) == Accepted { CreateKeepsLinks(s, f, q, owner, newTask, newLink); }
    case RevokeStep(l, owner) =>
      if l in s.links && owner && !s.links[l].revoked { RevokeKeeps(s, l); }
    case CancelStep(t, allowed) =>
      if t in s.tasks && allowed && Cancellable(s.tasks[t]) { CascadeKeepsLinks(Cancel(s, t), t, s'); }
    case RemoveStep(t, allowed) =>
      if t in s.tasks && allowed && s.tasks[t].status == Open { CascadeKeepsLinks(Delete(s, t), t, s'); }
    case AddTask(t, task) =>
    case Work =>
    case EditDeps =>
  }

  lemma NextKeepsDeps(s: State, step: Step, s': State)
    requires Next(s, step, s') && DepInv(s) && step != EditDeps
    ensures DepInv(s')
  {
    match step
    case Create(f, q, owner, newTask, newLink) =>
      if Verdict(s, f, q, owner) == Accepted { CreateKeepsDeps(s, f, q, owner, newTask, newLink); }
    case RevokeStep(l, owner) =>
      if l in s.links && owner && !s.links[l].revoked { RevokeKeeps(s, l); }
    case CancelStep(t, allowed) =>
      if t in s.tasks && allowed && Cancellable(s.tasks[t]) {
        FewerDeps(s, Cancel(s, t));
        CascadeKeepsDeps(Cancel(s, t), t, s');
      }
    case RemoveStep(t, allowed) =>
      if t in s.tasks && allowed && s.tasks[t].status == Open {
        FewerDeps(s, Delete(s, t));
        CascadeKeepsDeps(Delete(s, t), t, s');
      }
    case AddTask(t, task) => AddTaskKeepsDeps(s, t, task);
    case Work => FewerDeps(s, s');
  }

  // A task nobody depends on yet may depend on anything but itself.
  lemma AddTaskKeepsDeps(s: State, t: TaskId, task: Task)
    requires DepInv(s) && Fresh(s, t) && t !in task.deps
    ensures DepInv(s.(tasks := s.tasks[t := task]))
  {
    var s' := s.(tasks := s.tasks[t := task]);
    forall b
      ensures Acyclic(DepEdges(s'.tasks, b))
    {
      forall x, y | (x, y) in DepEdges(s'.tasks, b)
        ensures !Reaches(DepEdges(s'.tasks, b), y, x)
      {
        if Reaches(DepEdges(s'.tasks, b), y, x) {
          if x == t {
            NoEntry(DepEdges(s'.tasks, b), y, t);
          } else {
            AvoidsFresh(s, t, task, b, y, x);
          }
        }
      }
    }
  }

  lemma AvoidsFresh(s: State, t: TaskId, task: Task, b: BundleId, y: TaskId, x: TaskId)
    requires Fresh(s, t) && t !in task.deps && x != t && y != t
    requires Reaches(DepEdges(s.tasks[t := task], b), y, x)
    ensures Reaches(DepEdges(s.tasks, b), y, x)
  {
    var es := DepEdges(s.tasks[t := task], b);
    var p :| IsWalk(es, p) && p[0] == y && p[|p| - 1] == x;
    forall i | 0 <= i < |p|
      ensures p[i] != t
    {
      if i > 0 { assert (p[i - 1], p[i - 1 + 1]) in es; }
    }
    assert IsWalk(DepEdges(s.tasks, b), p);
  }

  // Tables without active links are a start; so are tables without dependencies.
  lemma EmptyStart(s: State)
    ensures (forall l :: l in s.links ==> s.links[l].revoked) ==> LinkInv(s)
    ensures (forall l :: l in s.links ==> s.links[l].revoked) && (forall v :: v in s.tasks ==> s.tasks[v].deps == [])
      ==> DepInv(s)
  {
  }

  lemma {:induction false} LinksSafe(states: seq<State>, steps: seq<Step>, i: nat)
    requires IsRun(states, steps) && LinkInv(states[0]) && i < |states|
    ensures LinkInv(states[i])
  {
    if i > 0 {
      LinksSafe(states, steps, i - 1);
      NextKeepsLinks(states[i - 1], steps[i - 1], states[i - 1 + 1]);
    }
  }

  lemma {:induction false} DepsSafe(states: seq<State>, steps: seq<Step>, i: nat)
    requires IsRun(states, steps) && DepInv(states[0]) && i < |states|
    requires forall j :: 0 <= j < |steps| ==> steps[j] != EditDeps
    ensures DepInv(states[i])
  {
    if i > 0 {
      DepsSafe(states, steps, i - 1);
      NextKeepsDeps(states[i - 1], steps[i - 1], states[i - 1 + 1]);
    }
  }

  // ---- what a revocation undoes ------------------------------------------------

  // Creating a pipe between existing tasks and revoking it again restores every
  // task row exactly when the downstream task did not depend on f before.
  lemma CreateThenRevoke(s: State, f: TaskId, q: Request, owner: bool, newTask: TaskId, newLink: LinkId)
    requires FreshIds(s, newTask, newLink) && Verdict(s, f, q, owner) == Accepted
    requires q.kind == Some(Pipe) && !q.spawn
    ensures var s' := Revoked(Created(s, f, q, newTask, newLink), newLink);
      && (s'.tasks == s.tasks <==> f !in s.tasks[q.to.value].deps)
      && s'.links == s.links[newLink := s'.links[newLink]] && s'.links[newLink].revoked
  {
    var t := q.to.value;
    var s' := Revoked(Created(s, f, q, newTask, newLink), newLink);
    if f in s.tasks[t].deps {
      WithoutMember(s.tasks[t].deps, {f}, f);
    } else {
      WithoutAppend(s.tasks[t].deps, f);
      assert s'.tasks[t] == s.tasks[t];
    }
  }

  // ---- what the two guards do not see ---------------------------------------------

  // Work flows from a driver to its target and from a dependency to its dependent.
  ghost function FlowEdges(s: State, b: BundleId): Edges {
    LinkEdges(s.links, b) + set e | e in DepEdges(s.tasks, b) :: (e.1, e.0)
  }

  lemma CreatedFlow(s: State, f: TaskId, q: Request, owner: bool, newTask: TaskId, newLink: LinkId, b: BundleId)
    requires FreshIds(s, newTask, newLink) && Verdict(s, f, q, owner) == Accepted
    ensures var s' := Created(s, f, q, newTask, newLink);
      FlowEdges(s', b) == FlowEdges(s, b) + if b == s.tasks[f].bundle then {(f, s'.links[newLink].to)} else {}
  {
    CreatedLinkEdges(s, f, q, owner, newTask, newLink, b);
    CreatedDepEdges(s, f, q, owner, newTask, newLink, b);
  }

  // An accepted link closes a loop through both graphs exactly when its target
  // already reaches its source along links and dependencies taken together;
  // a spawned task never does.
  lemma AcceptedKeepsFlow(s: State, f: TaskId, q: Request, owner: bool, newTask: TaskId, newLink: LinkId)
    requires FreshIds(s, newTask, newLink) && Verdict(s, f, q, owner) == Accepted && FlowAcyclic(s)
    ensures FlowAcyclic(Created(s, f, q, newTask, newLink)) <==>
      q.spawn || !Reaches(FlowEdges(s, s.tasks[f].bundle), q.to.value, f)
  {
    var s', b := Created(s, f, q, newTask, newLink), s.tasks[f].bundle;
    var t, es := s'.links[newLink].to, FlowEdges(s, b);
    assert Acyclic(es);
    AcyclicAddEdge(es, f, t);
    if q.spawn && Reaches(es, t, f) {
      NoExit(es, t, f);
    }
    forall c
      ensures Acyclic(FlowEdges(s', c)) <==> c != b || !Reaches(es, t, f)
    {
      CreatedFlow(s, f, q, owner, newTask, newLink, c);
      assert Acyclic(FlowEdges(s, c));
    }
    assert FlowAcyclic(s') ==> Acyclic(FlowEdges(s', b));
  }

  ghost predicate FlowAcyclic(s: State) {
    forall b :: Acyclic(FlowEdges(s, b))
  }

  lemma FlowShrinks(s: State, s': State)
    requires s'.links.Keys <= s.links.Keys && s'.tasks.Keys <= s.tasks.Keys
    requires forall l :: l in s'.links ==> s'.links[l] == s.links[l] || s'.links[l] == s.links[l].(revoked := true)
    requires forall v :: v in s'.tasks ==> s'.tasks[v].bundle == s.tasks[v].bundle
    requires forall v, d :: v in s'.tasks && d in s'.tasks[v].deps ==> d in s.tasks[v].deps
    requires FlowAcyclic(s)
    ensures FlowAcyclic(s')
  {
    forall b
      ensures Acyclic(FlowEdges(s', b))
    {
      assert LinkEdges(s'.links, b) <= LinkEdges(s.links, b) && DepEdges(s'.tasks, b) <= DepEdges(s.tasks, b);
      AcyclicMono(FlowEdges(s', b), FlowEdges(s, b));
    }
  }

  // A create that closes such a loop.
  ghost predicate Closes(s: State, step: Step) {
    && step.Create? && Verdict(s, step.f, step.q, step.owner) == Accepted && !step.q.spawn
    && Reaches(FlowEdges(s, s.tasks[step.f].bundle), step.q.to.value, step.f)
  }

  // Apart from edit_task, that is the only request that makes the two graphs
  // cyclic together.
  lemma NextKeepsFlow(s: State, step: Step, s': State)
    requires Next(s, step, s') && FlowAcyclic(s) && step != EditDeps
    ensures FlowAcyclic(s') <==> !Closes(s, step)
  {
    match step
    case Create(f, q, owner, newTask, newLink) =>
      if Verdict(s, f, q, owner) == Accepted { AcceptedKeepsFlow(s, f, q, owner, newTask, newLink); }
    case RevokeStep(l, owner) =>
      if l in s.links && owner && !s.links[l].revoked {
        if s.links[l].to in s.tasks { WithoutElems(s.tasks[s.links[l].to].deps, {s.links[l].from}); }
        FlowShrinks(s, s');
      }
    case CancelStep(t, allowed) =>
      if t in s.tasks && allowed && Cancellable(s.tasks[t]) { CascadedFlow(s, Cancel(s, t), t, s'); }
    case RemoveStep(t, allowed) =>
      if t in s.tasks && allowed && s.tasks[t].status == Open { CascadedFlow(s, Delete(s, t), t, s'); }
    case AddTask(t, task) => AddTaskFlow(s, t, task);
    case Work => FlowShrinks(s, s');
  }

  lemma {:induction false} FlowSafe(states: seq<State>, steps: seq<Step>, i: nat)
    requires IsRun(states, steps) && FlowAcyclic(states[0]) && i < |states|
    requires forall j :: 0 <= j < |steps| ==> steps[j] != EditDeps && !Closes(states[j], steps[j])
    ensures FlowAcyclic(states[i])
  {
    if i > 0 {
      FlowSafe(states, steps, i - 1);
      NextKeepsFlow(states[i - 1], steps[i - 1], states[i - 1 + 1]);
    }
  }

  lemma CascadedFlow(s: State, s0: State, t: TaskId, s': State)
    requires Cascaded(s0, t, s') && FlowAcyclic(s) && s0.links == s.links && s0.tasks.Keys <= s.tasks.Keys
    requires forall v :: v in s0.tasks ==> s0.tasks[v].bundle == s.tasks[v].bundle && s0.tasks[v].deps == s.tasks[v].deps
    ensures FlowAcyclic(s')
  {
    forall v | v in s0.tasks
      ensures s'.tasks[v].bundle == s0.tasks[v].bundle
      ensures forall d :: d in s'.tasks[v].deps ==> d in s0.tasks[v].deps
    {
      CascadedDeps(s0, t, s', v);
    }
    FlowShrinks(s, s');
  }

  // A new task has no way out, so nothing leads through it.
  lemma AddTaskFlow(s: State, t: TaskId, task: Task)
    requires FlowAcyclic(s) && Fresh(s, t) && t !in task.deps
    ensures FlowAcyclic(s.(tasks := s.tasks[t := task]))
  {
    var s' := s.(tasks := s.tasks[t := task]);
    forall b
      ensures Acyclic(FlowEdges(s', b))
    {
      forall x, y | (x, y) in FlowEdges(s', b)
        ensures !Reaches(FlowEdges(s', b), y, x)
      {
        if Reaches(FlowEdges(s', b), y, x) {
          if y == t {
            NoExit(FlowEdges(s', b), t, x);
          } else {
            FlowAvoids(s, t, task, b, y, x);
          }
        }
      }
    }
  }

  lemma FlowAvoids(s: State, t: TaskId, task: Task, b: BundleId, y: TaskId, x: TaskId)
    requires Fresh(s, t) && t !in task.deps && x != t
    requires Reaches(FlowEdges(s.(tasks := s.tasks[t := task]), b), y, x)
    ensures Reaches(FlowEdges(s, b), y, x)
  {
    var es := FlowEdges(s.(tasks := s.tasks[t := task]), b);
    var p :| IsWalk(es, p) && p[0] == y && p[|p| - 1] == x;
    forall i | 0 <= i < |p|
      ensures p[i] != t
    {
      if i < |p| - 1 { assert (p[i], p[i + 1]) in es; }
    }
    assert IsWalk(FlowEdges(s, b), p);
  }

  // 0 drives 1, and 2 waits for 1.
  function MixedTables(): State {
    var task := Task(0, Open, [], None, None, None, None);
    State(map[0 := task, 1 := task, 2 := task.(deps := [1])], map[0 := Link(0, 0, 1, Drives, None, false)])
  }

  lemma MixedEdges()
    ensures LinkEdges(MixedTables().links, 0) == {(0, 1)} && DepEdges(MixedTables().tasks, 0) == {(2, 1)}
  {
    var s := MixedTables();
    assert s.links[0].from == 0 && s.tasks[2].deps[0] == 1;
    assert (0, 1) in LinkEdges(s.links, 0);
    assert (2, 1) in DepEdges(s.tasks, 0);
  }

  lemma MixedSafe()
    ensures LinkInv(MixedTables()) && DepInv(MixedTables())
  {
    var s := MixedTables();
    forall b
      ensures Acyclic(LinkEdges(s.links, b)) && Acyclic(DepEdges(s.tasks, b))
    {
      if Reaches(LinkEdges(s.links, b), 1, 0) { NoExit(LinkEdges(s.links, b), 1, 0); }
      if Reaches(DepEdges(s.tasks, b), 1, 2) { NoExit(DepEdges(s.tasks, b), 1, 2); }
    }
  }

  lemma MixedOpen()
    ensures !ClosesCycle(MixedTables(), 2, 0)
  {
    MixedEdges();
    if Reaches({(2, 1)}, 2, 0) { ClosedTraps({(2, 1)}, {1, 2}, 2, 0); }
    if Reaches({(0, 1)}, 0, 2) { ClosedTraps({(0, 1)}, {0, 1}, 0, 2); }
  }

  lemma MixedFlow(es: Edges)
    requires {(0, 1), (1, 2), (2, 0)} <= es
    ensures !Acyclic(es)
  {
    ReachesEdge(es, 0, 1);
    ReachesStep(es, 0, 1, 2);
    assert (2, 0) in es;
  }

  // A link from 2 to 0 passes both guards and closes a loop through both graphs.
  lemma MixedCycleAccepted()
    ensures var s, q := MixedTables(), Request(Some(Drives), Some(0), false, true);
      && LinkInv(s) && DepInv(s)
      && Verdict(s, 2, q, true) == Accepted
      && !Acyclic(FlowEdges(Created(s, 2, q, 3, 1), 0))
  {
    var s, q := MixedTables(), Request(Some(Drives), Some(0), false, true);
    MixedSafe();
    MixedOpen();
    assert !HasActive(s.links, 2, 0, Drives);
    MixedCreated();
    MixedFlow(FlowEdges(Created(s, 2, q, 3, 1), 0));
  }

  lemma MixedCreated()
    ensures var s' := Created(MixedTables(), 2, Request(Some(Drives), Some(0), false, true), 3, 1);
      {(0, 1), (1, 2), (2, 0)} <= FlowEdges(s', 0)
  {
    var s' := Created(MixedTables(), 2, Request(Some(Drives), Some(0), false, true), 3, 1);
    assert s'.links[0] == Link(0, 0, 1, Drives, None, false) && s'.links[1] == Link(0, 2, 0, Drives, None, false);
    assert (0, 1) in LinkEdges(s'.links, 0) && (2, 0) in LinkEdges(s'.links, 0);
    assert s'.tasks[2].deps[0] == 1;
    assert (2, 1) in DepEdges(s'.tasks, 0);
  }
}
