// The task and task_links tables as values, the two graphs they carry, and
// what each link request does to them.
module LinkState {
  import opened Domain
  import opened Graphs

  type LinkId = nat

  datatype Kind = Drives | Pipe | Subagent

  datatype Link = Link(
    bundle: BundleId,
    from: TaskId,
    to: TaskId,
    kind: Kind,
    createdByTask: Option<TaskId>,
    revoked: bool)

  datatype State = State(tasks: map<TaskId, Task>, links: map<LinkId, Link>)

  predicate Touches(l: Link, t: TaskId) {
    l.from == t || l.to == t
  }

  // "A drives B" unconditionally; a legacy subagent edge only when A created it.
  predicate DrivesChild(l: Link) {
    l.kind == Drives || (l.kind == Subagent && l.createdByTask == Some(l.from))
  }

  // t depends on d
  ghost function DepEdges(tasks: map<TaskId, Task>, b: BundleId): Edges {
    set t, d | t in tasks && tasks[t].bundle == b && d in tasks[t].deps :: (t, d)
  }

  ghost function LinkEdges(links: map<LinkId, Link>, b: BundleId): Edges {
    set l | l in links && !links[l].revoked && links[l].bundle == b :: (links[l].from, links[l].to)
  }

  // ---- create --------------------------------------------------------------

  datatype Request = Request(
    kind: Option<Kind>,      // None: not one of the three kinds
    to: Option<TaskId>,      // link to an existing task
    spawn: bool,             // create the downstream task inline
    payloadValid: bool)      // payload_map source and target are known names

  datatype Error =
    | BadKind | BadTarget | BadPayload | FromNotFound | NotOwner
    | SelfLink | ToNotFound | CrossBundle | Duplicate | WouldCycle

  datatype Outcome = Accepted | Refused(error: Error)

  ghost predicate HasActive(links: map<LinkId, Link>, f: TaskId, t: TaskId, k: Kind) {
    exists l :: l in links && !links[l].revoked && links[l].from == f && links[l].to == t && links[l].kind == k
  }

  ghost predicate ClosesCycle(s: State, f: TaskId, t: TaskId)
    requires f in s.tasks
  {
    || Reaches(DepEdges(s.tasks, s.tasks[f].bundle), f, t)
    || Reaches(LinkEdges(s.links, s.tasks[f].bundle), t, f)
  }

  // What create_link answers, checks in the order the route makes them.
  ghost function Verdict(s: State, f: TaskId, q: Request, owner: bool): Outcome {
    if q.kind == None then Refused(BadKind)
    else if q.to.Some? == q.spawn then Refused(BadTarget)
    else if !q.payloadValid then Refused(BadPayload)
    else if f !in s.tasks then Refused(FromNotFound)
    else if !owner then Refused(NotOwner)
    else if q.spawn then Accepted
    else if q.to.value == f then Refused(SelfLink)
    else if q.to.value !in s.tasks then Refused(ToNotFound)
    else if s.tasks[q.to.value].bundle != s.tasks[f].bundle then Refused(CrossBundle)
    else if HasActive(s.links, f, q.to.value, q.kind.value) then Refused(Duplicate)
    else if ClosesCycle(s, f, q.to.value) then Refused(WouldCycle)
    else Accepted
  }

  function Spawned(f: TaskId, b: BundleId): Task {
    Task(b, Open, [], None, None, None, Some(f))
  }

  // The tables after an accepted create: newTask and newLink are the fresh ids.
  function Created(s: State, f: TaskId, q: Request, newTask: TaskId, newLink: LinkId): State
    requires f in s.tasks && q.kind.Some? && (!q.spawn ==> q.to.Some? && q.to.value in s.tasks)
  {
    var b := s.tasks[f].bundle;
    var t := if q.spawn then newTask else q.to.value;
    var child := if q.spawn then Spawned(f, b) else s.tasks[t];
    var waiting := if q.kind.value == Pipe && f !in child.deps then child.(deps := child.deps + [f]) else child;
    var link := Link(b, f, t, q.kind.value, if q.spawn then Some(f) else None, false);
    State(s.tasks[t := waiting], s.links[newLink := link])
  }

  // The uuids of a request are new to the tables, links to deleted tasks included.
  ghost predicate FreshIds(s: State, newTask: TaskId, newLink: LinkId) {
    Fresh(s, newTask) && newLink !in s.links
  }

  ghost predicate Fresh(s: State, t: TaskId) {
    && t !in s.tasks
    && (forall l :: l in s.links ==> !Touches(s.links[l], t))
    && (forall v :: v in s.tasks ==> t !in s.tasks[v].deps)
  }

  // ---- revoke --------------------------------------------------------------

  // The tables after revoking an active link: a pipe takes its dependency with
  // it unless another active pipe between the two tasks still needs it.
  ghost function Revoked(s: State, l: LinkId): State
    requires l in s.links
  {
    var link := s.links[l];
    var rest := s.links[l := link.(revoked := true)];
    if link.kind == Pipe && link.to in s.tasks && !HasActive(rest, link.from, link.to, Pipe)
    then
      var t := s.tasks[link.to];
      State(s.tasks[link.to := t.(deps := Without(t.deps, {link.from}))], rest)
    else State(s.tasks, rest)
  }

  function Delete(s: State, t: TaskId): State {
    s.(tasks := s.tasks - {t})
  }
}
