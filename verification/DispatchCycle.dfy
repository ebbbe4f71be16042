// The code of dispatch_cycle, proved against the histories of its calls.
module DispatchCycle {
  import opened Domain
  import opened AgentPicker
  import opened Polling
  import opened CycleHistory

  ghost function RecordOf(results: map<NodeId, NodeResult>, n: NodeId): Option<NodeResult> {
    if n in results then Some(results[n]) else None
  }

  ghost predicate OnlyNode(was: map<NodeId, NodeResult>, n: NodeId, now: map<NodeId, NodeResult>) {
    forall m :: m != n ==> RecordOf(now, m) == RecordOf(was, m)
  }

  class OrchestratorState {
    var results: map<NodeId, NodeResult>
    var bundleUsed: set<AgentId>

    // For the call that began with the records `was` and the agents `used`, the
    // state is what c says.
    ghost predicate Holds(n: NodeId, was: map<NodeId, NodeResult>, used: set<AgentId>, c: Control)
      reads this
    {
      RecordOf(results, n) == c.record && OnlyNode(was, n, results) && bundleUsed == used + c.tried
    }

    // And the protocol has brought the call to c.
    ghost predicate At(env: World, n: NodeId, call: Call, was: map<NodeId, NodeResult>, used: set<AgentId>, c: Control)
      reads this, env
    {
      Play(call, used, RecordOf(was, n), env.history) == Some(c) && Holds(n, was, used, c)
    }

    // Every dependency on the first row read has been met.
    ghost predicate GateMet(env: World, call: Call, upstream: Reads, rounds: nat)
      reads env
    {
      && FirstRow(env.history).Some?
      && forall d :: d in FirstRow(env.history).value.deps ==> Met(upstream, d, call.accept, rounds)
    }

    // ---- records ------------------------------------------------------------------

    method AppendAttempt(n: NodeId, a: Attempt)
      modifies this`results
      ensures OnlyNode(old(results), n, results) && RecordOf(results, n) == Some(Added(RecordOf(old(results), n), a))
    {
      var r := if n in results then results[n] else NodeResult(false, []);
      results := results[n := r.(attempts := r.attempts + [a])];
      assert [] + [a] == [a];
    }

    method RecordSuccess(n: NodeId)
      modifies this`results
      ensures OnlyNode(old(results), n, results) && RecordOf(results, n) == Some(Marked(RecordOf(old(results), n), true))
    {
      results := results[n := if n in results then results[n].(success := true) else NodeResult(true, [])];
    }

    method RecordFailure(n: NodeId, iteration: int, status: AttemptStatus)
      modifies this`results
      ensures OnlyNode(old(results), n, results) && n in results && !results[n].success
      ensures var r := Marked(RecordOf(old(results), n), false);
        RecordOf(results, n) == Some(if iteration > 0 then Added(Some(r), Attempt(iteration, None, status)) else r)
    {
      results := results[n := if n in results then results[n].(success := false) else NodeResult(false, [])];
      if iteration > 0 {
        AppendAttempt(n, Attempt(iteration, None, status));
      }
    }

    // ---- the cycle ------------------------------------------------------------------

    // The outside's history is that of this call. `upstream` and `rounds` are the
    // reads of the dependencies' rows.
    method DispatchCycle(env: World, n: NodeId, call: Call, upstream: Reads, rounds: nat)
      returns (r: Outcome, ghost made: seq<Attempt>)
      requires call.pollMs > 0 && env.history == Start
      modifies this, env
      // what the call asked, what it left and what it answered are one of the protocol's runs
      ensures exists c :: At(env, n, call, old(results), old(bundleUsed), c) && c.stage == Closed(r)
      // the answer
      ensures r != Raised ==> (r == Completed <==> LastStatus(env.history) == Some(call.accept))
      ensures r != Raised ==> n in results && (r == Completed <==> results[n].success)
      ensures r == Raised <==> Occurs(env.history, SawEnd(Vanished))
      ensures r == FailedDeps <==> env.history.Then? && env.history.event.SawDeps? && env.history.event.met != Satisfied
      ensures r == Failed(NoTask) <==> !call.mapped
      ensures r == Failed(MissingTask) <==> env.history == Then(Start, SawRow(None))
      ensures Posts(env.history) != [] ==> r in {Raised, Completed, Failed(Exhausted)}
      // the dispatches
      ensures |Posts(env.history)| <= Limit(call)
      ensures r.Failed? ==> r.status in {NoTask, MissingTask, Exhausted}
      ensures r == Failed(Exhausted) ==> |Posts(env.history)| == Limit(call) || NobodyForAMinute(env.history)
      ensures SleptSince(env.history) < 60_000 + call.pollMs
      ensures OwnerAwaited(env.history) ==>
        LastRow(env.history).Some? && LastRow(env.history).value.status in {Claimed, Working}
      ensures forall p, agent, accepted :: Extends(env.history, Then(p, Posted(agent, accepted))) ==>
        Rightly(call, old(bundleUsed), p, agent)
      ensures Posts(env.history) != [] ==> GateMet(env, call, upstream, rounds)
      ensures bundleUsed == old(bundleUsed) + Elems(Posts(env.history))
      // the record
      ensures forall m :: m != n ==> RecordOf(results, m) == RecordOf(old(results), m)
      ensures AttemptsOf(RecordOf(results, n)) == AttemptsOf(RecordOf(old(results), n)) + made
      ensures made == Told(call, env.history, r)
      ensures r != Raised ==> Names(made) == Posts(env.history) && Steady(made, Top(call)) && ZeroIsOwner(env.history, made)
      ensures Clean(made) || (r == Failed(Exhausted) && NobodyForAMinute(env.history))
    {
      ghost var was, used := results, bundleUsed;
      ghost var c;
      var early;
      early, c := Guards(env, n, call, upstream, rounds);
      if early.Some? {
        r := early.value;
      } else {
        r, c := RetryLoop(env, n, call, was, used, c);
      }
      made := c.made;
      assert At(env, n, call, was, used, c);
      ghost var record := RecordOf(was, n);
      PlayCounts(call, used, record, env.history);
      PlayAnswers(call, used, record, env.history);
      PlayGivesUp(call, used, record, env.history);
      PlayGrows(call, used, record, env.history);
      PlayTells(call, used, record, env.history);
      PlayClean(call, used, record, env.history);
      PlayRaises(call, used, record, env.history);
      PlayReasons(call, used, record, env.history);
      PlayRecords(call, used, record, env.history);
      PlayNaps(call, used, record, env.history);
      if OwnerAwaited(env.history) { PlayOwner(call, used, record, env.history); }
      forall p, agent, accepted | Extends(env.history, Then(p, Posted(agent, accepted)))
        ensures Rightly(call, used, p, agent)
      {
        EveryDispatch(call, used, record, env.history, p, agent, accepted);
      }
    }

    // Everything before the retry loop: lookups, the resume, fan-in and
    // in-flight guards. None: the loop takes over.
    method Guards(env: World, n: NodeId, call: Call, upstream: Reads, rounds: nat)
      returns (r: Option<Outcome>, ghost c: Control)
      requires env.history == Start
      modifies this`results, env
      ensures Holds(n, old(results), bundleUsed, c) && c.tried == {}
      ensures r.Some? ==> At(env, n, call, old(results), bundleUsed, c) && c.stage == Closed(r.value)
      ensures r.None? ==> Play(call, bundleUsed, RecordOf(old(results), n), env.history) == Some(Loop(call, c, 1))
      ensures r.None? ==> GateMet(env, call, upstream, rounds)
      ensures r.Some? ==> Posts(env.history) == []
    {
      ghost var was, used := results, bundleUsed;
      c := Control(Entry, RecordOf(was, n), [], {});
      if !call.mapped {
        RecordFailure(n, 1, NoTask);
        c := Fail(c, Failed(NoTask), 1, NoTask);
        return Some(Failed(NoTask)), c;
      }
      var row := env.ReadRow();
      if row.None? {
        RecordFailure(n, 1, MissingTask);
        c := Fail(c, Failed(MissingTask), 1, MissingTask);
        return Some(Failed(MissingTask)), c;
      }
      var task := row.value;
      if task.status == call.accept {
        RecordSuccess(n);
        c := Adopt(c);
        return Some(Completed), c;
      }
      if task.deps != [] {
        c := c.(stage := Fanin(task));
        r, task, c := FanIn(env, n, call, task, upstream, rounds, was, used, c);
        if r.Some? {
          return;
        }
      }
      if task.status in {Claimed, Working} {
        c := c.(stage := Owned(task));
        r, c := InFlight(env, n, call, task, was, used, c);
        return;
      }
      r := None;
    }

    // A step waits for all it depends on, then reads its row again.
    method FanIn(env: World, n: NodeId, call: Call, task0: Row, upstream: Reads, rounds: nat,
                 ghost was: map<NodeId, NodeResult>, ghost used: set<AgentId>, ghost c0: Control)
      returns (r: Option<Outcome>, task: Row, ghost c: Control)
      requires At(env, n, call, was, used, c0) && c0.stage == Fanin(task0) && task0.status != call.accept
      modifies this`results, env
      ensures Holds(n, was, used, c) && c.tried == c0.tried
      ensures r.Some? ==> At(env, n, call, was, used, c) && c.stage == Closed(r.value)
      ensures r.None? ==> Play(call, used, RecordOf(was, n), env.history) == Some(Guarded(call, c, task))
      ensures r.None? ==> task.status != call.accept
      ensures r.None? ==> forall d :: d in task0.deps ==> Met(upstream, d, call.accept, rounds)
      ensures FirstRow(old(env.history)).Some? ==> FirstRow(env.history) == FirstRow(old(env.history))
      ensures Posts(env.history) == Posts(old(env.history))
    {
      task, c := task0, c0;
      var w := env.AwaitDependencies(task.deps, call.accept, upstream, rounds);
      if w != Satisfied {
        RecordFailure(n, 0, TimedOut);
        c := Fail(c, FailedDeps, 0, TimedOut);
        return Some(FailedDeps), task, c;
      }
      var refreshed := env.ReadRow();
      if refreshed.Some? {
        task := refreshed.value;
        if task.status == call.accept {
          RecordSuccess(n);
          c := Adopt(c);
          return Some(Completed), task, c;
        }
      }
      c := c.(stage := Recheck(task0));
      r := None;
    }

    // Someone else already runs the task: wait for them as attempt 0.
    method InFlight(env: World, n: NodeId, call: Call, task: Row,
                    ghost was: map<NodeId, NodeResult>, ghost used: set<AgentId>, ghost c0: Control)
      returns (r: Option<Outcome>, ghost c: Control)
      requires At(env, n, call, was, used, c0) && c0.stage == Owned(task)
      modifies this`results, env
      ensures Holds(n, was, used, c) && c.tried == c0.tried
      ensures r.Some? ==> At(env, n, call, was, used, c) && c.stage == Closed(r.value)
      ensures r.None? ==> Play(call, used, RecordOf(was, n), env.history) == Some(Loop(call, c, 1))
      ensures FirstRow(env.history) == FirstRow(old(env.history)) && Posts(env.history) == Posts(old(env.history))
    {
      c := c0;
      var w := env.AwaitTerminal();
      match w {
        case Vanished =>
          c := c.(stage := Closed(Raised));
          return Some(Raised), c;
        case Expired =>
          AppendAttempt(n, Attempt(0, task.claimedBy, TimedOut));
          c := Add(c, Attempt(0, task.claimedBy, TimedOut));
          return None, c;
        case Terminal(final) =>
          var accepted := final.status == call.accept;
          var a := Attempt(0, task.claimedBy, if accepted then Succeeded else Ended(final.status));
          AppendAttempt(n, a);
          c := Add(c, a);
          if accepted {
            RecordSuccess(n);
            c := Adopt(c);
          }
          return if accepted then Some(Completed) else None, c;
      }
    }

    method RetryLoop(env: World, n: NodeId, call: Call,
                     ghost was: map<NodeId, NodeResult>, ghost used: set<AgentId>, ghost c0: Control)
      returns (r: Outcome, ghost c: Control)
      requires call.pollMs > 0 && Holds(n, was, used, c0) && c0.tried == {}
      requires Play(call, used, RecordOf(was, n), env.history) == Some(Loop(call, c0, 1))
      modifies this, env
      ensures At(env, n, call, was, used, c) && c.stage == Closed(r)
      ensures FirstRow(env.history) == FirstRow(old(env.history))
    {
      c := c0;
      var tried: set<AgentId> := {};
      var attempt := 1;
      var verdict := Next;
      while attempt <= call.maxIterations && verdict == Next
        invariant attempt >= 1 && verdict in {Next, Stop} && tried == c.tried
        invariant Holds(n, was, used, c)
        invariant Play(call, used, RecordOf(was, n), env.history) ==
          Some(if verdict == Next then Loop(call, c, attempt) else Fail(c, Failed(Exhausted), call.maxIterations, Exhausted))
        invariant FirstRow(env.history) == FirstRow(old(env.history))
      {
        verdict, tried, c := TryOnce(env, n, call, attempt, tried, was, used, c);
        if verdict == Crash {
          return Raised, c;
        }
        if verdict == Win {
          return Completed, c;
        }
        attempt := attempt + 1;
      }
      RecordFailure(n, call.maxIterations, Exhausted);
      c := Fail(c, Failed(Exhausted), call.maxIterations, Exhausted);
      r := Failed(Exhausted);
    }

    // One iteration: choose, dispatch, wait.
    method TryOnce(env: World, n: NodeId, call: Call, attempt: int, tried0: set<AgentId>,
                   ghost was: map<NodeId, NodeResult>, ghost used: set<AgentId>, ghost c0: Control)
      returns (v: Verdict, tried: set<AgentId>, ghost c: Control)
      requires call.pollMs > 0 && 1 <= attempt <= call.maxIterations
      requires Holds(n, was, used, c0) && tried0 == c0.tried
      requires Play(call, used, RecordOf(was, n), env.history) == Some(Loop(call, c0, attempt))
      modifies this, env
      ensures Holds(n, was, used, c) && tried == c.tried
      ensures v == Next ==> Play(call, used, RecordOf(was, n), env.history) == Some(Loop(call, c, attempt + 1))
      ensures v == Stop ==>
        Play(call, used, RecordOf(was, n), env.history) == Some(Fail(c, Failed(Exhausted), call.maxIterations, Exhausted))
      ensures v in {Win, Crash} ==>
        At(env, n, call, was, used, c) && c.stage == Closed(if v == Win then Completed else Raised)
      ensures FirstRow(env.history) == FirstRow(old(env.history))
    {
      c, tried := c0.(stage := Choosing(attempt, 0)), tried0;
      var chosen := Choose(env, call, attempt, tried, was, used, n, c);
      if chosen == None {
        AppendAttempt(n, Attempt(attempt, None, NoAgent));
        c := Add(c0, Attempt(attempt, None, NoAgent));
        return Stop, tried, c;
      }
      var id := chosen.value.id;
      tried := tried + {id};
      bundleUsed := bundleUsed + {id};
      c := c.(stage := Waiting(attempt, id), tried := tried);
      var accepted := env.PostToGateway(id);
      if !accepted {
        AppendAttempt(n, Attempt(attempt, Some(id), Rejected));
        c := Add(c, Attempt(attempt, Some(id), Rejected));
        return Next, tried, c;
      }
      v, c := AwaitRun(env, n, call, attempt, id, was, used, c);
    }

    // Waiting for the task's end under `agent`.
    method AwaitRun(env: World, n: NodeId, call: Call, attempt: int, agent: AgentId,
                    ghost was: map<NodeId, NodeResult>, ghost used: set<AgentId>, ghost c0: Control)
      returns (v: Verdict, ghost c: Control)
      requires At(env, n, call, was, used, c0) && c0.stage == Waiting(attempt, agent)
      modifies this`results, env
      ensures Holds(n, was, used, c) && c.tried == c0.tried && v != Stop
      ensures v == Next ==> Play(call, used, RecordOf(was, n), env.history) == Some(Loop(call, c, attempt + 1))
      ensures v in {Win, Crash} ==>
        At(env, n, call, was, used, c) && c.stage == Closed(if v == Win then Completed else Raised)
      ensures FirstRow(env.history) == FirstRow(old(env.history))
    {
      c := c0;
      var w := env.AwaitTerminal();
      match w {
        case Vanished =>
          v, c := Crash, c.(stage := Closed(Raised));
        case Expired =>
          AppendAttempt(n, Attempt(attempt, Some(agent), TimedOut));
          v, c := Next, Add(c, Attempt(attempt, Some(agent), TimedOut));
        case Terminal(final) =>
          if final.status == call.accept {
            AppendAttempt(n, Attempt(attempt, Some(agent), Succeeded));
            RecordSuccess(n);
            v, c := Win, Adopt(Add(c, Attempt(attempt, Some(agent), Succeeded)));
          } else {
            AppendAttempt(n, Attempt(attempt, Some(agent), Ended(final.status)));
            v, c := Next, Add(c, Attempt(attempt, Some(agent), Ended(final.status)));
          }
      }
    }

    // The diversity rule on the agents listed, asked again for up to a minute.
    method Choose(env: World, call: Call, attempt: int, tried: set<AgentId>,
                  ghost was: map<NodeId, NodeResult>, ghost used: set<AgentId>, ghost n: NodeId, ghost c: Control)
      returns (chosen: Option<Agent>)
      requires call.pollMs > 0 && At(env, n, call, was, used, c) && c.stage == Choosing(attempt, 0) && tried == c.tried
      modifies env
      ensures Play(call, used, RecordOf(was, n), env.history) ==
        Some(if chosen.Some? then c.(stage := Sending(attempt, chosen.value.id))
             else Fail(Add(c, Attempt(attempt, None, NoAgent)), Failed(Exhausted), call.maxIterations, Exhausted))
      ensures FirstRow(env.history) == FirstRow(old(env.history))
    {
      var agents := env.ListAgents();
      chosen := PickDiverse(agents, call.kind, tried, bundleUsed);
      var waited := 0;
      while chosen == None && waited < 60_000
        invariant chosen == PickDiverse(agents, call.kind, tried, bundleUsed)
        invariant Play(call, used, RecordOf(was, n), env.history) == Some(Chosen(call, used, c, attempt, waited, agents))
        invariant FirstRow(env.history) == FirstRow(old(env.history))
        decreases 60_000 - waited
      {
        ghost var h := env.history;
        ghost var before := agents;
        env.Sleep(call.pollMs);
        waited := waited + call.pollMs;
        agents := env.ListAgents();
        ChosenLater(call, used, RecordOf(was, n), h, c, attempt, waited - call.pollMs, before, agents);
        chosen := PickDiverse(agents, call.kind, tried, bundleUsed);
      }
    }
  }

  // How an iteration ends: go on, give up, done, or an exception.
  datatype Verdict = Next | Stop | Win | Crash
}
