// The orchestration loop over Brief-managed tasks: accept a Report, escalate,
// respawn a lost worker, or stand down. One reconcile of one task is one step;
// everybody else may change the row in between.
module Orchestration {
  import opened Domain

  type RuntimeId = nat
  type LinkId = nat

  // The bookkeeping in orch_json; the time stamps are left out.
  datatype Orch = Orch(respawns: nat, accepted: bool, halted: bool, awaiting: bool, invalid: bool, managed: bool)

  datatype Report = Report(valid: bool, body: nat)

  // What a link can carry. A report that flowed to a task's tape is a reply there.
  datatype Content = Rendered(report: Report) | Said(text: nat) | Nothing(task: TaskId)
                   | Quoted(link: LinkId, source: TaskId, content: Content)

  datatype Row = Row(
    status: Status,
    brief: bool,
    report: Option<Report>,
    runtime: Option<RuntimeId>,
    orch: Orch,
    reply: Option<Content>,       // body of the newest agent_reply event
    description: seq<Content>,    // the blocks appended by pipes
    context: seq<Content>)        // likewise, in the Brief

  const FRESH := Orch(0, false, false, false, false, false)

  // Retired, parked, or left to the brain.
  predicate Settled(o: Orch) {
    o.accepted || o.halted || o.awaiting
  }

  predicate ReportOk(r: Row) {
    r.report.Some? && r.report.value.valid
  }

  // ---- what one reconcile does ---------------------------------------------------------

  datatype Move = Stay | Accept | Defer | Flag | Respawn | Park

  function Decide(r: Row, alive: bool, maxRespawns: int): Move {
    if !r.brief || Settled(r.orch) then Stay
    else if r.status == Done then
      if ReportOk(r) then (if r.orch.managed then Defer else Accept)
      else if r.orch.invalid then Stay else Flag
    else if r.status in {Claimed, Working} && r.runtime.Some? && !alive then
      if r.orch.respawns >= maxRespawns then Park else Respawn
    else Stay
  }

  // The row after a move: its bookkeeping, its status, its runtime; nothing else.
  function Moved(r: Row, m: Move): Row {
    match m
    case Stay => r
    case Accept => r.(orch := r.orch.(accepted := true))
    case Defer => r.(orch := r.orch.(awaiting := true))
    case Flag => r.(orch := r.orch.(invalid := true))
    case Respawn => r.(orch := r.orch.(respawns := r.orch.respawns + 1), status := Open)
    case Park => r.(orch := r.orch.(halted := true), status := Blocked)
  }

  function Checked(r: Row, alive: bool, maxRespawns: int): Row {
    Moved(r, Decide(r, alive, maxRespawns))
  }

  // Field by field: when a reconcile accepts, defers, flags, parks or reopens.
  lemma CheckedMeans(r: Row, alive: bool, maxRespawns: int)
    ensures var r', o := Checked(r, alive, maxRespawns), r.orch;
      var due := r.brief && !o.accepted && !o.halted && !o.awaiting;
      var good := r.report.Some? && r.report.value.valid;
      var lost := due && r.status in {Claimed, Working} && r.runtime.Some? && !alive;
      && r' == r.(orch := r'.orch, status := r'.status) && r'.orch.managed == o.managed
      && (r'.orch.accepted <==> o.accepted || (due && r.status == Done && good && !o.managed))
      && (r'.orch.awaiting <==> o.awaiting || (due && r.status == Done && good && o.managed))
      && (r'.orch.invalid <==> o.invalid || (due && r.status == Done && !good))
      && (r'.orch.halted <==> o.halted || (lost && o.respawns >= maxRespawns))
      && r'.orch.respawns == o.respawns + (if lost && o.respawns < maxRespawns then 1 else 0)
      && r'.status == if lost then (if o.respawns < maxRespawns then Open else Blocked) else r.status
  {
  }

  // Running the reconcile again changes nothing more.
  lemma CheckedTwice(r: Row, alive: bool, maxRespawns: int)
    ensures var once := Checked(r, alive, maxRespawns);
      Checked(once, alive, maxRespawns) == once
  {
  }

  class OrchController {
    const maxRespawns: int
    var tasks: map<TaskId, Row>
    var live: set<RuntimeId>   // runtimes that are not offline and were seen in time

    constructor (maxRespawns: int, tasks: map<TaskId, Row>)
      ensures this.maxRespawns == maxRespawns && this.tasks == tasks && live == {}
    {
      this.maxRespawns, this.tasks, live := maxRespawns, tasks, {};
    }

    method WriteOrch(id: TaskId, o: Orch)
      requires id in tasks
      modifies this`tasks
      ensures tasks == old(tasks)[id := old(tasks)[id].(orch := o)]
    {
      tasks := tasks[id := tasks[id].(orch := o)];
    }

    method SetStatus(id: TaskId, s: Status)
      requires id in tasks
      modifies this`tasks
      ensures tasks == old(tasks)[id := old(tasks)[id].(status := s)]
    {
      tasks := tasks[id := tasks[id].(status := s)];
    }

    method ReconcileTask(id: TaskId)
      modifies this`tasks
      ensures id !in old(tasks) ==> tasks == old(tasks)
      ensures id in old(tasks) ==>
        var r := old(tasks)[id];
        tasks == old(tasks)[id := Checked(r, r.runtime.Some? && r.runtime.value in live, maxRespawns)]
    {
      if id !in tasks || !tasks[id].brief {
        return;
      }
      var task := tasks[id];
      if Settled(task.orch) {
        return;
      }
      if task.status == Done {
        HandleDone(id);
      } else if task.status in {Claimed, Working} {
        CheckLiveness(id);
      }
    }

    method HandleDone(id: TaskId)
      requires id in tasks && tasks[id].brief && !Settled(tasks[id].orch) && tasks[id].status == Done
      modifies this`tasks
      ensures tasks == old(tasks)[id := Checked(old(tasks)[id], true, maxRespawns)]
    {
      var task := tasks[id];
      if task.report.Some? && task.report.value.valid {
        if task.orch.managed {
          WriteOrch(id, task.orch.(awaiting := true));
        } else {
          WriteOrch(id, task.orch.(accepted := true));
        }
      } else if !task.orch.invalid {
        WriteOrch(id, task.orch.(invalid := true));
      }
    }

    method CheckLiveness(id: TaskId)
      requires id in tasks && tasks[id].brief && !Settled(tasks[id].orch) && tasks[id].status in {Claimed, Working}
      modifies this`tasks
      ensures var r := old(tasks)[id];
        tasks == old(tasks)[id := Checked(r, r.runtime.Some? && r.runtime.value in live, maxRespawns)]
    {
      var task := tasks[id];
      if task.runtime.None? || task.runtime.value in live {
        return;
      }
      if task.orch.respawns >= maxRespawns {
        WriteOrch(id, task.orch.(halted := true));
        SetStatus(id, Blocked);
      } else {
        WriteOrch(id, task.orch.(respawns := task.orch.respawns + 1));
        SetStatus(id, Open);
      }
    }

    // One pass over the Brief-managed tasks that are not cancelled.
    method Reconcile(ids: seq<TaskId>)
      requires forall id :: id in ids <==> id in tasks && tasks[id].brief && tasks[id].status != Cancelled
      requires Distinct(ids)
      modifies this`tasks
      ensures tasks.Keys == old(tasks).Keys
      ensures forall id :: id in tasks ==>
        var r := old(tasks)[id];
        tasks[id] == Checked(r, r.runtime.Some? && r.runtime.value in live, maxRespawns)
    {
      for i := 0 to |ids|
        invariant tasks.Keys == old(tasks).Keys
        invariant forall id :: id in tasks && id !in ids[..i] ==> tasks[id] == old(tasks)[id]
        invariant forall id :: id in ids[..i] ==>
          var r := old(tasks)[id];
          tasks[id] == Checked(r, r.runtime.Some? && r.runtime.value in live, maxRespawns)
      {
        assert ids[i] !in ids[..i];
        ReconcileTask(ids[i]);
      }
    }
  }

  // ---- runs of one task ------------------------------------------------------------------

  // Everybody else: any change that takes nothing back in the bookkeeping.
  ghost predicate Grows(o: Orch, p: Orch) {
    && p.respawns >= o.respawns && (o.accepted ==> p.accepted) && (o.halted ==> p.halted)
    && (o.awaiting ==> p.awaiting) && (o.invalid ==> p.invalid)
  }

  datatype Step = Check(alive: bool) | Others(now: Row)

  datatype Moment = Moment(row: Row, step: Step)

  ghost predicate Goes(r: Row, s: Step, maxRespawns: int, r': Row) {
    match s
    case Check(alive) => r' == Checked(r, alive, maxRespawns)
    case Others(now) => r' == now && Grows(r.orch, now.orch)
  }

  ghost predicate IsRun(run: seq<Moment>, start: Row, end: Row, maxRespawns: int) {
    if run == [] then end == start
    else
      var last := run[|run| - 1];
      IsRun(run[..|run| - 1], start, last.row, maxRespawns) && Goes(last.row, last.step, maxRespawns, end)
  }

  function MoveOf(m: Moment, maxRespawns: int): Move {
    if m.step.Check? then Decide(m.row, m.step.alive, maxRespawns) else Stay
  }

  function Count(run: seq<Moment>, maxRespawns: int, moves: set<Move>): nat {
    if run == [] then 0
    else Count(run[..|run| - 1], maxRespawns, moves) + if MoveOf(run[|run| - 1], maxRespawns) in moves then 1 else 0
  }

  // Every move but Stay writes the bookkeeping.
  const WRITES: set<Move> := {Accept, Defer, Flag, Respawn, Park}
  const RETIRES: set<Move> := {Accept, Defer, Park}

  lemma WritesAreMoves(r: Row, alive: bool, maxRespawns: int)
    ensures Decide(r, alive, maxRespawns) in WRITES <==> Checked(r, alive, maxRespawns).orch != r.orch
    ensures Decide(r, alive, maxRespawns) == Stay ==> Checked(r, alive, maxRespawns) == r
  {
  }

  function Left(o: Orch, maxRespawns: int): nat {
    if o.respawns >= maxRespawns then 0 else maxRespawns - o.respawns
  }

  // What a task can still cost.
  lemma {:induction false} Budget(run: seq<Moment>, start: Row, end: Row, maxRespawns: int)
    requires IsRun(run, start, end, maxRespawns)
    ensures Count(run, maxRespawns, {Respawn}) + Left(end.orch, maxRespawns) <= Left(start.orch, maxRespawns)
    ensures Count(run, maxRespawns, {Flag}) + (if end.orch.invalid then 0 else 1) <= if start.orch.invalid then 0 else 1
    ensures Count(run, maxRespawns, RETIRES) + (if Settled(end.orch) then 0 else 1) <= if Settled(start.orch) then 0 else 1
    ensures Count(run, maxRespawns, WRITES) ==
      Count(run, maxRespawns, {Respawn}) + Count(run, maxRespawns, {Flag}) + Count(run, maxRespawns, RETIRES)
    decreases |run|
  {
    if run != [] {
      Budget(run[..|run| - 1], start, run[|run| - 1].row, maxRespawns);
    }
  }

  // Reconciles that were seen to change the bookkeeping, or to reopen the task.
  function Writes(run: seq<Moment>, maxRespawns: int): nat {
    if run == [] then 0
    else
      var m := run[|run| - 1];
      Writes(run[..|run| - 1], maxRespawns) +
      if m.step.Check? && Checked(m.row, m.step.alive, maxRespawns).orch != m.row.orch then 1 else 0
  }

  function Reopenings(run: seq<Moment>, maxRespawns: int): nat {
    if run == [] then 0
    else
      var m := run[|run| - 1];
      Reopenings(run[..|run| - 1], maxRespawns) +
      if m.step.Check? && m.row.status != Open && Checked(m.row, m.step.alive, maxRespawns).status == Open then 1 else 0
  }

  lemma {:induction false} SeenAreMoves(run: seq<Moment>, maxRespawns: int)
    ensures Writes(run, maxRespawns) == Count(run, maxRespawns, WRITES)
    ensures Reopenings(run, maxRespawns) == Count(run, maxRespawns, {Respawn})
    decreases |run|
  {
    if run != [] {
      var m := run[|run| - 1];
      SeenAreMoves(run[..|run| - 1], maxRespawns);
      if m.step.Check? { WritesAreMoves(m.row, m.step.alive, maxRespawns); }
    }
  }

  // Over any run a task is reopened at most maxRespawns times and its
  // bookkeeping written at most maxRespawns + 2 times.
  lemma BoundedWork(run: seq<Moment>, start: Row, end: Row, maxRespawns: int)
    requires IsRun(run, start, end, maxRespawns)
    ensures var most := if maxRespawns > 0 then maxRespawns else 0;
      Reopenings(run, maxRespawns) <= most && Writes(run, maxRespawns) <= most + 2
  {
    Budget(run, start, end, maxRespawns);
    SeenAreMoves(run, maxRespawns);
  }

  // While nobody else changes the row and the worker's runtime stays as it is,
  // any number of reconciles does what one does.
  lemma {:induction false} ChecksConverge(run: seq<Moment>, start: Row, end: Row, alive: bool, maxRespawns: int)
    requires IsRun(run, start, end, maxRespawns)
    requires forall k :: 0 <= k < |run| ==> run[k].step == Check(alive)
    ensures end == if run == [] then start else Checked(start, alive, maxRespawns)
    decreases |run|
  {
    if run != [] {
      var last := run[|run| - 1];
      ChecksConverge(run[..|run| - 1], start, last.row, alive, maxRespawns);
      CheckedTwice(start, alive, maxRespawns);
      assert last.step == Check(alive);
    }
  }

  // Once retired, parked or left to the brain, a task is never touched again.
  lemma {:induction false} SettledForGood(run: seq<Moment>, start: Row, end: Row, maxRespawns: int)
    requires IsRun(run, start, end, maxRespawns) && Settled(start.orch)
    ensures Settled(end.orch) && Count(run, maxRespawns, WRITES) == 0
    ensures forall k :: 0 <= k < |run| && run[k].step.Check? ==> Checked(run[k].row, run[k].step.alive, maxRespawns) == run[k].row
    decreases |run|
  {
    if run != [] {
      SettledForGood(run[..|run| - 1], start, run[|run| - 1].row, maxRespawns);
    }
  }

  // The bound is met: lose every worker, finish without a Report, then with one.
  lemma BoundMet(maxRespawns: nat, r: Row) returns (run: seq<Moment>, end: Row)
    requires r.brief && r.orch == FRESH
    ensures IsRun(run, r, end, maxRespawns) && Writes(run, maxRespawns) == maxRespawns + 2
  {
    run, end := LoseWorkers(maxRespawns, maxRespawns, r);
    run, end := Check1(run, r, end, end.(status := Done, report := None), maxRespawns);
    run, end := Check1(run, r, end, end.(report := Some(Report(true, 0))), maxRespawns);
    SeenAreMoves(run, maxRespawns);
  }

  lemma {:induction false} LoseWorkers(n: nat, maxRespawns: nat, r: Row) returns (run: seq<Moment>, end: Row)
    requires n <= maxRespawns && r.brief && r.orch == FRESH
    ensures IsRun(run, r, end, maxRespawns) && Count(run, maxRespawns, WRITES) == n
    ensures end.brief && end.orch == FRESH.(respawns := n)
  {
    if n == 0 {
      run, end := [], r;
    } else {
      run, end := LoseWorkers(n - 1, maxRespawns, r);
      run, end := Check1(run, r, end, end.(status := Working, runtime := Some(0)), maxRespawns);
    }
  }

  // Someone changes the row to `now`, then the worker's runtime is found dead.
  lemma Check1(run: seq<Moment>, start: Row, r: Row, now: Row, maxRespawns: int) returns (run': seq<Moment>, end: Row)
    requires IsRun(run, start, r, maxRespawns) && Grows(r.orch, now.orch)
    ensures end == Checked(now, false, maxRespawns) && IsRun(run', start, end, maxRespawns)
    ensures Count(run', maxRespawns, WRITES) ==
      Count(run, maxRespawns, WRITES) + if Decide(now, false, maxRespawns) in WRITES then 1 else 0
  {
    var mid := run + [Moment(r, Others(now))];
    end := Checked(now, false, maxRespawns);
    run' := mid + [Moment(now, Check(false))];
    assert mid[..|run|] == run && run'[..|mid|] == mid;
  }
}
