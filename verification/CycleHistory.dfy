// What a dispatch_cycle call asks of the outside and in which order: the
// histories of its calls, and what holds in each of them. What it meets outside
// (task rows, agent lists, gateway answers, waits) is arbitrary.
module CycleHistory {
  import opened Domain
  import opened AgentPicker
  import opened Polling

  type NodeId = nat

  datatype AttemptStatus = Succeeded | Rejected | TimedOut | NoAgent | NoTask | MissingTask | Exhausted | Ended(status: Status)

  datatype Attempt = Attempt(iteration: int, agent: Option<AgentId>, status: AttemptStatus)

  datatype NodeResult = NodeResult(success: bool, attempts: seq<Attempt>)

  // What dispatch_cycle returns: "done: ...", "error: ...", or an exception.
  datatype Outcome = Completed | Failed(status: AttemptStatus) | FailedDeps | Raised

  // `mapped`: the node has a task id.
  datatype Call = Call(mapped: bool, accept: Status, kind: Skill, maxIterations: int, pollMs: int)

  // ---- the environment ---------------------------------------------------------

  datatype Event =
    | SawRow(row: Option<Row>)                   // the task's row was read
    | SawDeps(deps: seq<TaskId>, met: DepWait)   // the dependencies were waited for
    | SawEnd(end: Wait)                          // the task's end was waited for
    | SawAgents(agents: seq<Agent>)              // the cookbook's agents were listed
    | Slept(ms: int)
    | Posted(agent: AgentId, accepted: bool)     // a dispatch and the gateway's answer

  datatype History = Start | Then(past: History, event: Event)

  // Only these methods reach the outside, and each call is in the history.
  class World {
    ghost var history: History

    method ReadRow() returns (r: Option<Row>)
      modifies this
      ensures history == Then(old(history), SawRow(r))
    {
      r := *;
      history := Then(history, SawRow(r));
    }

    method ListAgents() returns (agents: seq<Agent>)
      modifies this
      ensures history == Then(old(history), SawAgents(agents))
    {
      agents := *;
      history := Then(history, SawAgents(agents));
    }

    method Sleep(ms: int)
      modifies this
      ensures history == Then(old(history), Slept(ms))
    {
      history := Then(history, Slept(ms));
    }

    method PostToGateway(agent: AgentId) returns (accepted: bool)
      modifies this
      ensures history == Then(old(history), Posted(agent, accepted))
    {
      accepted := *;
      history := Then(history, Posted(agent, accepted));
    }

    method AwaitTerminal() returns (w: Wait)
      modifies this
      ensures history == Then(old(history), SawEnd(w))
      ensures w.Terminal? ==> w.row.status in {Status.Done, Status.Blocked, Status.Cancelled}
    {
      var rows: nat -> Option<Row>, rounds: nat := *, *;
      w := WaitForTaskTerminal(rows, rounds);
      history := Then(history, SawEnd(w));
    }

    // `upstream` and `rounds` are the reads of the dependencies' rows.
    method AwaitDependencies(deps: seq<TaskId>, accept: Status, upstream: Reads, rounds: nat) returns (w: DepWait)
      modifies this
      ensures history == Then(old(history), SawDeps(deps, w))
      ensures w == Satisfied <==> forall d :: d in deps ==> Met(upstream, d, accept, rounds)
    {
      w := WaitForDependencies(deps, accept, upstream, rounds);
      history := Then(history, SawDeps(deps, w));
    }
  }

  // ---- what a history says ------------------------------------------------------

  // The agents dispatched to, in order.
  ghost function Posts(h: History): seq<AgentId> {
    match h
    case Start => []
    case Then(p, e) => if e.Posted? then Posts(p) + [e.agent] else Posts(p)
  }

  ghost function LastList(h: History): seq<Agent> {
    match h
    case Start => []
    case Then(p, e) => if e.SawAgents? then e.agents else LastList(p)
  }

  // The first and the last row read of the task itself.
  ghost function FirstRow(h: History): Option<Row> {
    match h
    case Start => None
    case Then(p, e) => if FirstRow(p) == None && e.SawRow? then e.row else FirstRow(p)
  }

  ghost function LastRow(h: History): Option<Row> {
    match h
    case Start => None
    case Then(p, e) => if e.SawRow? && e.row.Some? then e.row else LastRow(p)
  }

  // The last status seen of the task, in a read or at the end of a wait.
  ghost function LastStatus(h: History): Option<Status> {
    match h
    case Start => None
    case Then(p, e) =>
      if e.SawRow? && e.row.Some? then Some(e.row.value.status)
      else if e.SawEnd? && e.end.Terminal? then Some(e.end.row.status)
      else LastStatus(p)
  }

  ghost predicate DepsMet(h: History, deps: seq<TaskId>) {
    match h
    case Start => false
    case Then(p, e) => e == SawDeps(deps, Satisfied) || DepsMet(p, deps)
  }

  // The task's end was waited for before anything was dispatched.
  ghost predicate OwnerAwaited(h: History) {
    match h
    case Start => false
    case Then(p, e) => OwnerAwaited(p) || (e.SawEnd? && Posts(p) == [])
  }

  // No dispatch that a gateway accepted is still waiting for its end.
  ghost predicate Idle(h: History) {
    match h
    case Start => true
    case Then(p, e) => if e.Posted? then !e.accepted else e.SawEnd? || Idle(p)
  }

  // Milliseconds slept, and whether no list had anyone eligible, since the last dispatch.
  ghost function SleptSince(h: History): int {
    match h
    case Start => 0
    case Then(p, e) => if e.Posted? then 0 else if e.Slept? then SleptSince(p) + e.ms else SleptSince(p)
  }

  ghost predicate NobodySince(h: History) {
    match h
    case Start => true
    case Then(p, e) => e.Posted? || (NobodySince(p) && (e.SawAgents? ==> forall a :: a in e.agents ==> !Eligible(a, {})))
  }

  // The event is in the history.
  ghost predicate Occurs(h: History, e: Event) {
    h.Then? && (h.event == e || Occurs(h.past, e))
  }

  ghost predicate Extends(h: History, p: History) {
    h == p || (h.Then? && Extends(h.past, p))
  }

  // ---- the protocol ---------------------------------------------------------------

  // Where a call stands: which question it asks next, or how it ended.
  datatype Stage =
    | Entry
    | Fanin(task: Row)
    | Recheck(task: Row)
    | Owned(task: Row)
    | Choosing(k: int, waited: int)
    | Napping(k: int, waited: int)
    | Sending(k: int, agent: AgentId)
    | Waiting(k: int, agent: AgentId)
    | Closed(outcome: Outcome)

  // `record` is the node's record, `made` the attempts this call has added to it.
  datatype Control = Control(stage: Stage, record: Option<NodeResult>, made: seq<Attempt>, tried: set<AgentId>)

  function Added(r: Option<NodeResult>, a: Attempt): NodeResult {
    if r.Some? then r.value.(attempts := r.value.attempts + [a]) else NodeResult(false, [a])
  }

  function Marked(r: Option<NodeResult>, success: bool): NodeResult {
    if r.Some? then r.value.(success := success) else NodeResult(success, [])
  }

  function Add(c: Control, a: Attempt): Control {
    c.(record := Some(Added(c.record, a)), made := c.made + [a])
  }

  function Adopt(c: Control): Control {
    c.(stage := Closed(Completed), record := Some(Marked(c.record, true)))
  }

  // _record_failure: the failure is an attempt only from iteration 1 on.
  function Fail(c: Control, r: Outcome, iteration: int, status: AttemptStatus): Control {
    var c' := c.(stage := Closed(r), record := Some(Marked(c.record, false)));
    if iteration > 0 then Add(c', Attempt(iteration, None, status)) else c'
  }

  function Opening(call: Call, used: set<AgentId>, record: Option<NodeResult>): Control {
    var c := Control(Entry, record, [], {});
    if call.mapped then c else Fail(c, Failed(NoTask), 1, NoTask)
  }

  function Loop(call: Call, c: Control, k: int): Control {
    if k <= call.maxIterations then c.(stage := Choosing(k, 0))
    else Fail(c, Failed(Exhausted), call.maxIterations, Exhausted)
  }

  // The row read last decides whether someone else runs the task.
  function Guarded(call: Call, c: Control, task: Row): Control {
    if task.status == call.accept then Adopt(c)
    else if task.status in {Claimed, Working} then c.(stage := Owned(task))
    else Loop(call, c, 1)
  }

  // A wait for the task's end, as iteration `k` by `agent`.
  function Ending(call: Call, c: Control, k: int, agent: Option<AgentId>, w: Wait): Control {
    match w
    case Vanished => c.(stage := Closed(Raised))
    case Expired => Loop(call, Add(c, Attempt(k, agent, TimedOut)), k + 1)
    case Terminal(row) =>
      if row.status == call.accept then Adopt(Add(c, Attempt(k, agent, Succeeded)))
      else Loop(call, Add(c, Attempt(k, agent, Ended(row.status))), k + 1)
  }

  function Chosen(call: Call, used: set<AgentId>, c: Control, k: int, waited: int, agents: seq<Agent>): Control {
    var p := PickDiverse(agents, call.kind, c.tried, used + c.tried);
    if p.Some? then c.(stage := Sending(k, p.value.id))
    else if waited < 60_000 then c.(stage := Napping(k, waited))
    else Fail(Add(c, Attempt(k, None, NoAgent)), Failed(Exhausted), call.maxIterations, Exhausted)
  }

  function Sent(call: Call, c: Control, k: int, id: AgentId, accepted: bool): Control {
    var c' := c.(tried := c.tried + {id});
    if accepted then c'.(stage := Waiting(k, id))
    else Loop(call, Add(c', Attempt(k, Some(id), Rejected)), k + 1)
  }

  // None: the call does not ask this now.
  function Step(call: Call, used: set<AgentId>, c: Control, e: Event): Option<Control> {
    match (c.stage, e)
    case (Entry, SawRow(None)) => Some(Fail(c, Failed(MissingTask), 1, MissingTask))
    case (Entry, SawRow(Some(task))) =>
      if task.status != call.accept && task.deps != [] then Some(c.(stage := Fanin(task))) else Some(Guarded(call, c, task))
    case (Fanin(task), SawDeps(deps, w)) =>
      if deps != task.deps then None
      else if w == Satisfied then Some(c.(stage := Recheck(task)))
      else Some(Fail(c, FailedDeps, 0, TimedOut))
    case (Recheck(task), SawRow(row)) => Some(Guarded(call, c, if row.Some? then row.value else task))
    case (Owned(task), SawEnd(w)) => Some(Ending(call, c, 0, task.claimedBy, w))
    case (Choosing(k, waited), SawAgents(agents)) => Some(Chosen(call, used, c, k, waited, agents))
    case (Napping(k, waited), Slept(ms)) =>
      if ms != call.pollMs then None else Some(c.(stage := Choosing(k, waited + ms)))
    case (Sending(k, agent), Posted(id, accepted)) =>
      if id != agent then None else Some(Sent(call, c, k, id, accepted))
    case (Waiting(k, agent), SawEnd(w)) => Some(Ending(call, c, k, Some(agent), w))
    case _ => None
  }

  function Play(call: Call, used: set<AgentId>, record: Option<NodeResult>, h: History): Option<Control> {
    match h
    case Start => Some(Opening(call, used, record))
    case Then(p, e) =>
      var c := Play(call, used, record, p);
      if c == None then None else Step(call, used, c.value, e)
  }

  // Nobody there: a nap, and the next list decides.
  lemma ChosenLater(call: Call, used: set<AgentId>, record: Option<NodeResult>, h: History,
                    c: Control, k: int, waited: int, agents: seq<Agent>, next: seq<Agent>)
    requires Play(call, used, record, h) == Some(Chosen(call, used, c, k, waited, agents))
    requires PickDiverse(agents, call.kind, c.tried, used + c.tried) == None && waited < 60_000
    ensures Play(call, used, record, Then(Then(h, Slept(call.pollMs)), SawAgents(next))) ==
      Some(Chosen(call, used, c, k, waited + call.pollMs, next))
  {
    assert Play(call, used, record, Then(h, Slept(call.pollMs))) == Some(c.(stage := Choosing(k, waited + call.pollMs)));
  }

  lemma {:induction false} PlayPrefix(call: Call, used: set<AgentId>, record: Option<NodeResult>, h: History, p: History)
    requires Play(call, used, record, h).Some? && Extends(h, p)
    ensures Play(call, used, record, p).Some?
  {
    if h != p { PlayPrefix(call, used, record, h.past, p); }
  }

  // ---- how often ------------------------------------------------------------------

  ghost function Limit(call: Call): nat {
    if call.maxIterations > 0 then call.maxIterations else 0
  }

  ghost predicate Counted(call: Call, h: History, c: Control) {
    && c.tried == Elems(Posts(h))
    && match c.stage
       case Choosing(k, _) => |Posts(h)| == k - 1 && 1 <= k <= call.maxIterations
       case Napping(k, _) => |Posts(h)| == k - 1 && 1 <= k <= call.maxIterations
       case Sending(k, _) => |Posts(h)| == k - 1 && 1 <= k <= call.maxIterations
       case Waiting(k, agent) => |Posts(h)| == k && 1 <= k <= call.maxIterations && Posts(h)[k - 1] == agent
       case Closed(_) => |Posts(h)| <= Limit(call)
       case _ => Posts(h) == [] && !OwnerAwaited(h)
  }

  lemma {:induction false} PlayCounts(call: Call, used: set<AgentId>, record: Option<NodeResult>, h: History)
    requires Play(call, used, record, h).Some?
    ensures Counted(call, h, Play(call, used, record, h).value)
  {
    if h.Then? {
      PlayCounts(call, used, record, h.past);
      assert h.event.Posted? ==> Elems(Posts(h.past) + [h.event.agent]) == Elems(Posts(h.past)) + {h.event.agent};
    }
  }

  // ---- the answer -----------------------------------------------------------------

  ghost predicate Answers(call: Call, h: History, c: Control) {
    match c.stage
    case Entry => LastStatus(h) == None
    case Closed(Raised) => true
    case Closed(r) =>
      && (r == Completed <==> LastStatus(h) == Some(call.accept))
      && c.record.Some? && (r == Completed <==> c.record.value.success)
    case Fanin(task) => LastStatus(h) == Some(task.status) && task.status != call.accept
    case Recheck(task) => LastStatus(h) == Some(task.status) && task.status != call.accept
    case _ => LastStatus(h) != Some(call.accept)
  }

  lemma GuardAnswers(call: Call, used: set<AgentId>, p: History, c: Control, e: Event)
    requires c.stage == Entry || c.stage.Recheck? || c.stage.Fanin?
    requires Step(call, used, c, e).Some? && Answers(call, p, c)
    ensures Answers(call, Then(p, e), Step(call, used, c, e).value)
  {
  }

  lemma LoopAnswers(call: Call, used: set<AgentId>, p: History, c: Control, e: Event)
    requires c.stage != Entry && !c.stage.Recheck? && !c.stage.Fanin?
    requires Step(call, used, c, e).Some? && Answers(call, p, c)
    ensures Answers(call, Then(p, e), Step(call, used, c, e).value)
  {
  }

  lemma {:induction false} PlayAnswers(call: Call, used: set<AgentId>, record: Option<NodeResult>, h: History)
    requires Play(call, used, record, h).Some?
    ensures Answers(call, h, Play(call, used, record, h).value)
  {
    if h.Then? {
      var c := Play(call, used, record, h.past).value;
      PlayAnswers(call, used, record, h.past);
      if c.stage == Entry || c.stage.Recheck? || c.stage.Fanin? {
        GuardAnswers(call, used, h.past, c, h.event);
      } else {
        LoopAnswers(call, used, h.past, c, h.event);
      }
    }
  }

  // ---- the guards ------------------------------------------------------------------

  // The dependencies of the first row read have been met.
  ghost predicate GateOpen(h: History) {
    FirstRow(h).Some? && (FirstRow(h).value.deps == [] || DepsMet(h, FirstRow(h).value.deps))
  }

  // When the row read last shows a run by someone else, its end has been awaited.
  ghost predicate OwnerLeft(h: History) {
    LastRow(h).Some? && (LastRow(h).value.status in {Claimed, Working} ==> OwnerAwaited(h))
  }

  ghost predicate PassedGuards(h: History, c: Control) {
    match c.stage
    case Entry => FirstRow(h) == None && Idle(h)
    case Fanin(task) => FirstRow(h) == Some(task) && LastRow(h) == Some(task) && Idle(h)
    case Recheck(task) => GateOpen(h) && LastRow(h) == Some(task) && Idle(h)
    case Owned(task) => GateOpen(h) && LastRow(h) == Some(task) && task.status in {Claimed, Working}
    case Waiting(_, _) => GateOpen(h) && OwnerLeft(h)
    case Closed(_) => true
    case _ => GateOpen(h) && OwnerLeft(h) && Idle(h)
  }

  lemma {:induction false} PlayGuards(call: Call, used: set<AgentId>, record: Option<NodeResult>, h: History)
    requires Play(call, used, record, h).Some?
    ensures PassedGuards(h, Play(call, used, record, h).value)
  {
    if h.Then? {
      PlayGuards(call, used, record, h.past);
      PlayCounts(call, used, record, h.past);
    }
  }

  // ---- the choice -------------------------------------------------------------------

  ghost predicate Chooses(call: Call, used: set<AgentId>, h: History, c: Control) {
    match c.stage
    case Choosing(_, waited) => SleptSince(h) == waited && NobodySince(h)
    case Napping(_, waited) => SleptSince(h) == waited < 60_000 && NobodySince(h)
    case Sending(_, agent) => exists a :: PickDiverse(LastList(h), call.kind, c.tried, used + c.tried) == Some(a) && a.id == agent
    case Waiting(_, _) => SleptSince(h) == 0 && NobodySince(h)
    case Closed(_) => true
    case _ => SleptSince(h) == 0 && NobodySince(h)
  }

  lemma {:induction false} PlayChooses(call: Call, used: set<AgentId>, record: Option<NodeResult>, h: History)
    requires Play(call, used, record, h).Some?
    ensures Chooses(call, used, h, Play(call, used, record, h).value)
  {
    if h.Then? { PlayChooses(call, used, record, h.past); }
  }

  // A call gives up before its last iteration only after a minute in which no
  // list had anyone eligible.
  ghost predicate NobodyForAMinute(h: History) {
    SleptSince(h) >= 60_000 && NobodySince(h)
  }

  ghost predicate GivesUp(call: Call, h: History, c: Control) {
    c.stage == Closed(Failed(Exhausted)) ==> |Posts(h)| == Limit(call) || NobodyForAMinute(h)
  }

  lemma {:induction false} PlayGivesUp(call: Call, used: set<AgentId>, record: Option<NodeResult>, h: History)
    requires Play(call, used, record, h).Some?
    ensures GivesUp(call, h, Play(call, used, record, h).value)
  {
    if h.Then? {
      PlayCounts(call, used, record, h.past);
      PlayChooses(call, used, record, h.past);
    }
  }

  // ---- the attempts -----------------------------------------------------------------

  ghost function AttemptsOf(r: Option<NodeResult>): seq<Attempt> {
    if r.Some? then r.value.attempts else []
  }

  // The agents of the loop's attempts, in order. Attempt 0 is a run someone
  // else started.
  ghost function Names(made: seq<Attempt>): seq<AgentId> {
    NamesTo(made, |made|)
  }

  ghost function NamesTo(made: seq<Attempt>, n: nat): seq<AgentId>
    requires n <= |made|
  {
    if n == 0 then []
    else
      var a, before := made[n - 1], NamesTo(made, n - 1);
      if a.iteration > 0 && a.agent.Some? then before + [a.agent.value] else before
  }

  lemma {:induction false} NamesKept(made: seq<Attempt>, a: Attempt, n: nat)
    requires n <= |made|
    ensures NamesTo(made + [a], n) == NamesTo(made, n)
  {
    if n > 0 { NamesKept(made, a, n - 1); }
  }

  lemma NamesAdd(made: seq<Attempt>, a: Attempt)
    ensures Names(made + [a]) == if a.iteration > 0 && a.agent.Some? then Names(made) + [a.agent.value] else Names(made)
  {
    NamesKept(made, a, |made|);
  }

  ghost predicate InOrder(made: seq<Attempt>) {
    forall i, j :: 0 <= i < j < |made| ==> made[i].iteration <= made[j].iteration
  }

  // In iteration order, up to `high`; only the first can be number 0.
  ghost predicate Steady(made: seq<Attempt>, high: int) {
    && InOrder(made)
    && forall i :: 0 <= i < |made| ==> made[i].iteration <= high && made[i].iteration >= if i == 0 then 0 else 1
  }

  // Attempt 0 stands for the awaited run, under its owner's name.
  ghost predicate ZeroIsOwner(h: History, made: seq<Attempt>) {
    && (OwnerAwaited(h) <==> made != [] && made[0].iteration == 0)
    && (OwnerAwaited(h) ==> LastRow(h).Some? && made[0].agent == LastRow(h).value.claimedBy)
  }

  ghost function Top(call: Call): int {
    if call.maxIterations > 1 then call.maxIterations else 1
  }

  ghost predicate Clean(made: seq<Attempt>) {
    forall a :: a in made ==> a.status != NoAgent
  }

  lemma SteadyAdd(made: seq<Attempt>, a: Attempt, high: int)
    requires Steady(made, high) && high <= a.iteration && (a.iteration >= 1 || (made == [] && a.iteration == 0))
    ensures Steady(made + [a], a.iteration)
  {
  }

  // ---- which answer --------------------------------------------------------------------

  // A call raises exactly when its row was gone at the end of a wait.
  lemma {:induction false} PlayRaises(call: Call, used: set<AgentId>, record: Option<NodeResult>, h: History)
    requires Play(call, used, record, h).Some?
    ensures Play(call, used, record, h).value.stage == Closed(Raised) <==> Occurs(h, SawEnd(Vanished))
  {
    if h.Then? {
      PlayRaises(call, used, record, h.past);
    }
  }

  // Each other answer has its own reason, and there is no other: in particular a
  // call that has dispatched fails only when its iterations are used up or nobody
  // is there.
  ghost predicate Reasoned(call: Call, h: History, c: Control) {
    match c.stage
    case Closed(r) =>
      && (r == FailedDeps <==> h.Then? && h.event.SawDeps? && h.event.met != Satisfied)
      && (r == Failed(NoTask) <==> !call.mapped)
      && (r == Failed(MissingTask) <==> h == Then(Start, SawRow(None)))
      && (r.Failed? ==> r.status in {NoTask, MissingTask, Exhausted})
      && (Posts(h) != [] ==> r in {Raised, Completed, Failed(Exhausted)})
    case Entry => h == Start && call.mapped
    case _ => h.Then? && call.mapped
  }

  lemma EntryReasons(call: Call, used: set<AgentId>, c: Control, e: Event)
    requires c.stage == Entry && call.mapped && Step(call, used, c, e).Some?
    ensures Reasoned(call, Then(Start, e), Step(call, used, c, e).value)
  {
  }

  lemma StepReasons(call: Call, used: set<AgentId>, p: History, c: Control, e: Event)
    requires c.stage != Entry && p.Then? && call.mapped && Step(call, used, c, e).Some? && Counted(call, p, c)
    ensures Reasoned(call, Then(p, e), Step(call, used, c, e).value)
  {
  }

  lemma {:induction false} PlayReasons(call: Call, used: set<AgentId>, record: Option<NodeResult>, h: History)
    requires Play(call, used, record, h).Some?
    ensures Reasoned(call, h, Play(call, used, record, h).value)
  {
    if h.Then? {
      var c := Play(call, used, record, h.past).value;
      PlayReasons(call, used, record, h.past);
      PlayCounts(call, used, record, h.past);
      if c.stage == Entry {
        EntryReasons(call, used, c, h.event);
      } else {
        StepReasons(call, used, h.past, c, h.event);
      }
    }
  }

  // The naps between two dispatches add up to a minute and less than one nap more.
  lemma {:induction false} PlayNaps(call: Call, used: set<AgentId>, record: Option<NodeResult>, h: History)
    requires Play(call, used, record, h).Some? && call.pollMs > 0
    ensures SleptSince(h) < 60_000 + call.pollMs
  {
    if h.Then? {
      PlayNaps(call, used, record, h.past);
      PlayChooses(call, used, record, h.past);
    }
  }

  // A run before the first dispatch is waited for only if the row read last shows one.
  lemma {:induction false} PlayOwner(call: Call, used: set<AgentId>, record: Option<NodeResult>, h: History)
    requires Play(call, used, record, h).Some? && OwnerAwaited(h)
    ensures LastRow(h).Some? && LastRow(h).value.status in {Claimed, Working}
  {
    PlayGuards(call, used, record, h.past);
    PlayCounts(call, used, record, h.past);
    if OwnerAwaited(h.past) {
      PlayOwner(call, used, record, h.past);
    }
  }

  // ---- every attempt --------------------------------------------------------------------

  // Whose run the wait is for: the last agent dispatched to, or the owner.
  ghost function RunBy(h: History): Option<AgentId> {
    if Posts(h) != [] then Some(Posts(h)[|Posts(h)| - 1])
    else if LastRow(h).Some? then LastRow(h).value.claimedBy else None
  }

  // The attempt that a wait's end becomes.
  ghost function EndStatus(call: Call, w: Wait): AttemptStatus {
    match w
    case Terminal(row) => if row.status == call.accept then Succeeded else Ended(row.status)
    case _ => TimedOut
  }

  // What became of each run, numbered by the dispatches so far.
  ghost function Fates(call: Call, h: History): seq<Attempt> {
    match h
    case Start => []
    case Then(p, Posted(agent, false)) => Fates(call, p) + [Attempt(|Posts(p)| + 1, Some(agent), Rejected)]
    case Then(p, SawEnd(Expired)) => Fates(call, p) + [Attempt(|Posts(p)|, RunBy(p), TimedOut)]
    case Then(p, SawEnd(Terminal(row))) =>
      Fates(call, p) + [Attempt(|Posts(p)|, RunBy(p), if row.status == call.accept then Succeeded else Ended(row.status))]
    case Then(p, _) => Fates(call, p)
  }

  // All attempts of a call that ended so: its runs, and what it adds on failing.
  ghost function Told(call: Call, h: History, r: Outcome): seq<Attempt> {
    match r
    case Failed(NoTask) => Fates(call, h) + [Attempt(1, None, NoTask)]
    case Failed(MissingTask) => Fates(call, h) + [Attempt(1, None, MissingTask)]
    case Failed(Exhausted) =>
      var runs := if |Posts(h)| < Limit(call) then Fates(call, h) + [Attempt(|Posts(h)| + 1, None, NoAgent)] else Fates(call, h);
      if call.maxIterations > 0 then runs + [Attempt(call.maxIterations, None, Exhausted)] else runs
    case _ => Fates(call, h)
  }

  // The attempts are exactly what the history calls for.
  ghost predicate Recorded(call: Call, h: History, c: Control) {
    match c.stage
    case Closed(r) => c.made == Told(call, h, r)
    case _ => c.made == Fates(call, h)
  }

  lemma LoopRecorded(call: Call, h: History, c: Control, k: int)
    requires c.made == Fates(call, h) && |Posts(h)| == k - 1 && (k - 1 <= call.maxIterations || k == 1)
    ensures Recorded(call, h, Loop(call, c, k))
  {
  }

  lemma GuardedRecorded(call: Call, h: History, c: Control, task: Row)
    requires c.made == Fates(call, h) && Posts(h) == []
    ensures Recorded(call, h, Guarded(call, c, task))
  {
    LoopRecorded(call, h, c, 1);
  }

  lemma EndingRecorded(call: Call, p: History, c: Control, k: int, w: Wait)
    requires c.made == Fates(call, p) && |Posts(p)| == k && (k <= call.maxIterations || k == 0)
    ensures Recorded(call, Then(p, SawEnd(w)), Ending(call, c, k, RunBy(p), w))
  {
    if w != Vanished && !(w.Terminal? && w.row.status == call.accept) {
      LoopRecorded(call, Then(p, SawEnd(w)), Add(c, Attempt(k, RunBy(p), EndStatus(call, w))), k + 1);
    }
  }

  lemma NobodyRecorded(call: Call, h: History, c: Control, k: int)
    requires c.made == Fates(call, h) && |Posts(h)| == k - 1 && 1 <= k <= call.maxIterations
    ensures Recorded(call, h, Fail(Add(c, Attempt(k, None, NoAgent)), Failed(Exhausted), call.maxIterations, Exhausted))
  {
  }

  lemma StepRecorded(call: Call, used: set<AgentId>, p: History, c: Control, e: Event)
    requires Step(call, used, c, e).Some?
    requires Recorded(call, p, c) && Counted(call, p, c) && PassedGuards(p, c)
    ensures Recorded(call, Then(p, e), Step(call, used, c, e).value)
  {
    var h := Then(p, e);
    match c.stage
    case Entry => if e.row.Some? { GuardedRecorded(call, h, c, e.row.value); }
    case Recheck(task) => GuardedRecorded(call, h, c, if e.row.Some? then e.row.value else task);
    case Owned(task) => EndingRecorded(call, p, c, 0, e.end);
    case Choosing(k, _) => NobodyRecorded(call, h, c, k);
    case Sending(k, id) =>
      if !e.accepted { LoopRecorded(call, h, Add(c.(tried := c.tried + {id}), Attempt(k, Some(id), Rejected)), k + 1); }
    case Waiting(k, id) => EndingRecorded(call, p, c, k, e.end);
    case _ =>
  }

  lemma {:induction false} PlayRecords(call: Call, used: set<AgentId>, record: Option<NodeResult>, h: History)
    requires Play(call, used, record, h).Some?
    ensures Recorded(call, h, Play(call, used, record, h).value)
  {
    if h.Then? {
      PlayRecords(call, used, record, h.past);
      PlayCounts(call, used, record, h.past);
      PlayGuards(call, used, record, h.past);
      StepRecorded(call, used, h.past, Play(call, used, record, h.past).value, h.event);
    }
  }

  // ---- what the attempts tell -----------------------------------------------------------

  lemma {:induction false} FatesSteady(call: Call, used: set<AgentId>, record: Option<NodeResult>, h: History)
    requires Play(call, used, record, h).Some?
    ensures Steady(Fates(call, h), |Posts(h)|) && Clean(Fates(call, h))
    ensures Posts(h) == [] && !OwnerAwaited(h) ==> Fates(call, h) == []
  {
    if h.Then? {
      FatesSteady(call, used, record, h.past);
      PlayCounts(call, used, record, h.past);
      PlayCounts(call, used, record, h);
      var f, g := Fates(call, h.past), Fates(call, h);
      if g != f {
        SteadyAdd(f, g[|f|], |Posts(h.past)|);
        assert g == f + [g[|f|]];
      }
    }
  }

  ghost function Pending(c: Control): seq<AgentId> {
    if c.stage.Waiting? then [c.stage.agent] else []
  }

  lemma {:induction false} FatesNamed(call: Call, used: set<AgentId>, record: Option<NodeResult>, h: History)
    requires Play(call, used, record, h).Some?
    ensures var c := Play(call, used, record, h).value;
      c.stage != Closed(Raised) ==> Names(Fates(call, h)) + Pending(c) == Posts(h)
  {
    if h.Then? {
      var c := Play(call, used, record, h.past).value;
      FatesNamed(call, used, record, h.past);
      PlayCounts(call, used, record, h.past);
      NamedOn(call, h.past, c, h.event, used);
    }
  }

  lemma NamedEnd(call: Call, p: History, c: Control, w: Wait)
    requires Counted(call, p, c) && (c.stage.Waiting? || c.stage.Owned?) && w != Vanished
    requires Names(Fates(call, p)) + Pending(c) == Posts(p)
    ensures Names(Fates(call, Then(p, SawEnd(w)))) == Posts(p)
  {
    NamesAdd(Fates(call, p), Attempt(|Posts(p)|, RunBy(p), EndStatus(call, w)));
    assert Names(Fates(call, p)) + [] == Names(Fates(call, p));
  }

  lemma NamedRejected(call: Call, p: History, agent: AgentId)
    requires Names(Fates(call, p)) == Posts(p)
    ensures Names(Fates(call, Then(p, Posted(agent, false)))) == Posts(p) + [agent]
  {
    NamesAdd(Fates(call, p), Attempt(|Posts(p)| + 1, Some(agent), Rejected));
  }

  lemma NamedOn(call: Call, p: History, c: Control, e: Event, used: set<AgentId>)
    requires Step(call, used, c, e).Some? && Counted(call, p, c)
    requires Names(Fates(call, p)) + Pending(c) == Posts(p)
    ensures var c', h := Step(call, used, c, e).value, Then(p, e);
      c'.stage != Closed(Raised) ==> Names(Fates(call, h)) + Pending(c') == Posts(h)
  {
    NothingPending(Names(Fates(call, p)));
    NothingPending(Names(Fates(call, Then(p, e))));
    if e.SawEnd? && e.end != Vanished {
      NamedEnd(call, p, c, e.end);
    } else if e.Posted? && !e.accepted {
      NamedRejected(call, p, e.agent);
    }
  }

  lemma NothingPending(names: seq<AgentId>)
    ensures names + [] == names
  {
  }

  lemma {:induction false} FatesOwned(call: Call, used: set<AgentId>, record: Option<NodeResult>, h: History)
    requires Play(call, used, record, h).Some?
    ensures Play(call, used, record, h).value.stage != Closed(Raised) ==> ZeroIsOwner(h, Fates(call, h))
  {
    if h.Then? {
      FatesOwned(call, used, record, h.past);
      FatesSteady(call, used, record, h.past);
      PlayCounts(call, used, record, h.past);
      PlayGuards(call, used, record, h.past);
    }
  }

  // In iteration order, the attempts name the agents dispatched to; number 0 is
  // the awaited run of another owner.
  lemma PlayTells(call: Call, used: set<AgentId>, record: Option<NodeResult>, h: History)
    requires Play(call, used, record, h).Some?
    ensures var c := Play(call, used, record, h).value;
      c.stage.Closed? && c.stage != Closed(Raised) ==>
        Names(c.made) == Posts(h) && Steady(c.made, Top(call)) && ZeroIsOwner(h, c.made)
  {
    var c := Play(call, used, record, h).value;
    if c.stage.Closed? && c.stage != Closed(Raised) {
      PlayRecords(call, used, record, h);
      PlayCounts(call, used, record, h);
      PlayReasons(call, used, record, h);
      FatesSteady(call, used, record, h);
      FatesNamed(call, used, record, h);
      FatesOwned(call, used, record, h);
      NothingPending(Names(Fates(call, h)));
      ToldTells(call, h, c.stage.outcome);
    }
  }

  lemma AddedTells(h: History, f: seq<Attempt>, a: Attempt, high: int)
    requires Steady(f, high) && ZeroIsOwner(h, f) && high <= a.iteration && a.iteration >= 1 && a.agent == None
    ensures Names(f + [a]) == Names(f) && Steady(f + [a], a.iteration) && ZeroIsOwner(h, f + [a])
  {
    NamesAdd(f, a);
    SteadyAdd(f, a, high);
  }

  lemma AddedTwice(h: History, f: seq<Attempt>, a: Attempt, b: Attempt, high: int)
    requires Steady(f, high) && ZeroIsOwner(h, f) && high <= a.iteration <= b.iteration && a.iteration >= 1
    requires a.agent == None && b.agent == None
    ensures Names(f + [a] + [b]) == Names(f) && Steady(f + [a] + [b], b.iteration) && ZeroIsOwner(h, f + [a] + [b])
  {
    AddedTells(h, f, a, high);
    AddedTells(h, f + [a], b, a.iteration);
  }

  lemma SteadyUp(made: seq<Attempt>, low: int, high: int)
    requires Steady(made, low) && low <= high
    ensures Steady(made, high)
  {
  }

  lemma ToldExhausted(call: Call, h: History, f: seq<Attempt>)
    requires f == Fates(call, h) && Steady(f, |Posts(h)|) && ZeroIsOwner(h, f) && |Posts(h)| <= Limit(call)
    ensures var made := Told(call, h, Failed(Exhausted));
      Names(made) == Names(f) && Steady(made, Limit(call)) && ZeroIsOwner(h, made)
  {
    var none, last := Attempt(|Posts(h)| + 1, None, NoAgent), Attempt(call.maxIterations, None, Exhausted);
    if |Posts(h)| < Limit(call) {
      assert Told(call, h, Failed(Exhausted)) == f + [none] + [last];
      AddedTwice(h, f, none, last, |Posts(h)|);
    } else if call.maxIterations > 0 {
      assert Told(call, h, Failed(Exhausted)) == f + [last];
      AddedTells(h, f, last, |Posts(h)|);
    }
  }

  lemma ToldTells(call: Call, h: History, r: Outcome)
    requires Steady(Fates(call, h), |Posts(h)|) && ZeroIsOwner(h, Fates(call, h)) && |Posts(h)| <= Limit(call)
    requires r in {Failed(NoTask), Failed(MissingTask)} ==> Posts(h) == []
    ensures var made := Told(call, h, r);
      Names(made) == Names(Fates(call, h)) && Steady(made, Top(call)) && ZeroIsOwner(h, made)
  {
    var f := Fates(call, h);
    if r == Failed(NoTask) {
      AddedTells(h, f, Attempt(1, None, NoTask), |Posts(h)|);
      SteadyUp(Told(call, h, r), 1, Top(call));
    } else if r == Failed(MissingTask) {
      AddedTells(h, f, Attempt(1, None, MissingTask), |Posts(h)|);
      SteadyUp(Told(call, h, r), 1, Top(call));
    } else if r == Failed(Exhausted) {
      ToldExhausted(call, h, f);
      SteadyUp(Told(call, h, r), Limit(call), Top(call));
    } else {
      SteadyUp(f, |Posts(h)|, Top(call));
    }
  }

  // An attempt says that nobody was there only in a call that gives up so.
  lemma PlayClean(call: Call, used: set<AgentId>, record: Option<NodeResult>, h: History)
    requires Play(call, used, record, h).Some?
    ensures var c := Play(call, used, record, h).value;
      Clean(c.made) || (c.stage == Closed(Failed(Exhausted)) && NobodyForAMinute(h))
  {
    PlayRecords(call, used, record, h);
    PlayCounts(call, used, record, h);
    FatesSteady(call, used, record, h);
    PlayGivesUp(call, used, record, h);
  }

  // Attempts are only added.
  ghost predicate Grown(base: seq<Attempt>, c: Control) {
    AttemptsOf(c.record) == base + c.made
  }

  lemma AddGrows(base: seq<Attempt>, c: Control, a: Attempt)
    requires Grown(base, c)
    ensures Grown(base, Add(c, a))
  {
  }

  lemma LoopGrows(call: Call, base: seq<Attempt>, c: Control, k: int)
    requires Grown(base, c)
    ensures Grown(base, Loop(call, c, k)) && Grown(base, Fail(c, Failed(Exhausted), call.maxIterations, Exhausted))
  {
    AddGrows(base, Fail(c, Failed(Exhausted), 0, Exhausted), Attempt(call.maxIterations, None, Exhausted));
  }

  lemma EndingGrows(call: Call, base: seq<Attempt>, c: Control, k: int, agent: Option<AgentId>, w: Wait)
    requires Grown(base, c)
    ensures Grown(base, Ending(call, c, k, agent, w))
  {
    var c' := Add(c, Attempt(k, agent, EndStatus(call, w)));
    AddGrows(base, c, Attempt(k, agent, EndStatus(call, w)));
    LoopGrows(call, base, c', k + 1);
  }

  lemma OpeningGrows(call: Call, used: set<AgentId>, record: Option<NodeResult>)
    ensures Grown(AttemptsOf(record), Opening(call, used, record))
  {
    var c := Control(Entry, record, [], {});
    assert Grown(AttemptsOf(record), c);
    AddGrows(AttemptsOf(record), Fail(c, Failed(NoTask), 0, NoTask), Attempt(1, None, NoTask));
  }

  lemma {:induction false} PlayGrows(call: Call, used: set<AgentId>, record: Option<NodeResult>, h: History)
    requires Play(call, used, record, h).Some?
    ensures Grown(AttemptsOf(record), Play(call, used, record, h).value)
  {
    if h == Start {
      OpeningGrows(call, used, record);
    } else {
      var c, e, base := Play(call, used, record, h.past).value, h.event, AttemptsOf(record);
      PlayGrows(call, used, record, h.past);
      match c.stage
      case Entry =>
        AddGrows(base, Fail(c, Failed(MissingTask), 0, MissingTask), Attempt(1, None, MissingTask));
        LoopGrows(call, base, c, 1);
      case Recheck(_) => LoopGrows(call, base, c, 1);
      case Owned(task) => EndingGrows(call, base, c, 0, task.claimedBy, e.end);
      case Choosing(k, _) =>
        AddGrows(base, c, Attempt(k, None, NoAgent));
        LoopGrows(call, base, Add(c, Attempt(k, None, NoAgent)), k);
      case Sending(k, id) =>
        var c' := c.(tried := c.tried + {id});
        AddGrows(base, c', Attempt(k, Some(id), Rejected));
        LoopGrows(call, base, Add(c', Attempt(k, Some(id), Rejected)), k + 1);
      case Waiting(k, id) => EndingGrows(call, base, c, k, Some(id), e.end);
      case _ =>
    }
  }

  // ---- every dispatch ----------------------------------------------------------------

  // The agent is the diversity rule's choice out of the last list read.
  ghost predicate Follows(call: Call, used: set<AgentId>, p: History, agent: AgentId) {
    var tried := Elems(Posts(p));
    exists a :: PickDiverse(LastList(p), call.kind, tried, used + tried) == Some(a) && a.id == agent
  }

  ghost predicate Rightly(call: Call, used: set<AgentId>, p: History, agent: AgentId) {
    && GateOpen(p) && OwnerLeft(p) && Idle(p) && LastStatus(p) != Some(call.accept)
    && |Posts(p)| < Limit(call)
    && Follows(call, used, p, agent)
  }

  lemma EveryDispatch(call: Call, used: set<AgentId>, record: Option<NodeResult>, h: History, p: History, agent: AgentId, accepted: bool)
    requires Play(call, used, record, h).Some? && Extends(h, Then(p, Posted(agent, accepted)))
    ensures Rightly(call, used, p, agent)
  {
    PlayPrefix(call, used, record, h, Then(p, Posted(agent, accepted)));
    PlayCounts(call, used, record, p);
    PlayAnswers(call, used, record, p);
    PlayGuards(call, used, record, p);
    PlayChooses(call, used, record, p);
  }

  // An agent is dispatched to twice only when every agent eligible at that
  // moment has had a dispatch, and every dispatch is to an eligible agent.
  lemma DispatchIsDiverse(call: Call, used: set<AgentId>, p: History, agent: AgentId)
    requires Follows(call, used, p, agent)
    ensures exists a :: a in LastList(p) && Eligible(a, {}) && a.id == agent
    ensures agent in Posts(p) ==> forall a :: a in LastList(p) && Eligible(a, {}) ==> a.id in Posts(p)
  {
    var tried := Elems(Posts(p));
    var a :| PickDiverse(LastList(p), call.kind, tried, used + tried) == Some(a) && a.id == agent;
    assert a in LastList(p) && Eligible(a, {});
  }
}
