// TaskService.claim_task: the status, one-active-task and dependency gates in
// front of a claim.
module Claims {
  import opened Domain
  import opened Attachment

  // The scope of a bundle without a cookbook is every task.
  predicate InScope(bundles: Bundles, scope: Option<CookbookId>, t: Task) {
    scope.Some? ==> InCookbook(bundles, scope.value, t)
  }

  predicate Holds(tasks: map<TaskId, Task>, t: TaskId, a: AgentId) {
    t in tasks && tasks[t].claimedBy == Some(a) && tasks[t].status in {Claimed, Working}
  }

  ghost predicate Idle(tasks: map<TaskId, Task>, bundles: Bundles, scope: Option<CookbookId>, a: AgentId) {
    forall t :: Holds(tasks, t, a) ==> !InScope(bundles, scope, tasks[t])
  }

  datatype Claim = TaskNotFound | NotAllowed | NoBundle | Refused | Won

  class TaskService {
    var tasks: map<TaskId, Task>
    var bundles: Bundles

    // POST /tasks/{t}/claim
    method ClaimTask(t: TaskId, a: AgentId, allowed: bool) returns (c: Claim)
      modifies this`tasks
      ensures c == TaskNotFound <==> t !in old(tasks)
      ensures c == NotAllowed <==> t in old(tasks) && !allowed
      ensures c == NoBundle <==> t in old(tasks) && allowed && old(tasks)[t].bundle !in bundles
      ensures c == Won <==>
        && t in old(tasks) && allowed && old(tasks)[t].bundle in bundles
        && Ready(old(tasks), t) && Idle(old(tasks), bundles, bundles[old(tasks)[t].bundle], a)
      ensures tasks == if c == Won then old(tasks)[t := old(tasks)[t].(status := Claimed, claimedBy := Some(a))] else old(tasks)
    {
      if t !in tasks { return TaskNotFound; }
      if !allowed { return NotAllowed; }
      var task := tasks[t];
      if task.bundle !in bundles { return NoBundle; }
      var scope := bundles[task.bundle];
      if task.status != Open { return Refused; }
      if exists u :: u in tasks && Holds(tasks, u, a) && InScope(bundles, scope, tasks[u]) { return Refused; }
      for i := 0 to |task.deps|
        invariant forall j :: 0 <= j < i ==> task.deps[j] in tasks && tasks[task.deps[j]].status == Status.Done
      {
        if task.deps[i] !in tasks || tasks[task.deps[i]].status != Status.Done { return Refused; }
      }
      tasks := tasks[t := task.(status := Claimed, claimedBy := Some(a))];
      c := Won;
    }
  }

  // What a claim takes: an open task with every dependency there and done, and an
  // agent with nothing claimed or in work in the scope of the task's bundle.
  lemma WonMeans(tasks: map<TaskId, Task>, bundles: Bundles, t: TaskId, a: AgentId)
    requires t in tasks && tasks[t].bundle in bundles
    ensures Ready(tasks, t) && Idle(tasks, bundles, bundles[tasks[t].bundle], a) <==>
      && tasks[t].status == Open
      && (forall d :: d in tasks[t].deps ==> d in tasks && tasks[d].status == Status.Done)
      && forall u :: u in tasks && tasks[u].claimedBy == Some(a) && tasks[u].status in {Claimed, Working} ==>
           bundles[tasks[t].bundle].Some? && !(tasks[u].bundle in bundles && bundles[tasks[u].bundle] == bundles[tasks[t].bundle])
  {
  }

  // An agent holds at most one task of a cookbook.
  ghost predicate OneEach(tasks: map<TaskId, Task>, bundles: Bundles) {
    forall t, u, a :: Holds(tasks, t, a) && Holds(tasks, u, a) && SameCookbook(bundles, tasks[t], tasks[u]) ==> t == u
  }

  predicate SameCookbook(bundles: Bundles, t: Task, u: Task) {
    t.bundle in bundles && u.bundle in bundles && bundles[t.bundle].Some? && bundles[t.bundle] == bundles[u.bundle]
  }

  // Claims keep it, and keep every claimed or finished task past its gate.
  lemma ClaimKeepsOneEach(tasks: map<TaskId, Task>, bundles: Bundles, t: TaskId, a: AgentId)
    requires OneEach(tasks, bundles) && Ready(tasks, t) && tasks[t].bundle in bundles
    requires Idle(tasks, bundles, bundles[tasks[t].bundle], a)
    ensures OneEach(tasks[t := tasks[t].(status := Claimed, claimedBy := Some(a))], bundles)
  {
    var now := tasks[t := tasks[t].(status := Claimed, claimedBy := Some(a))];
    forall u, v, b | Holds(now, u, b) && Holds(now, v, b) && SameCookbook(bundles, now[u], now[v])
      ensures u == v
    {
      assert u != t ==> Holds(tasks, u, b);
      assert v != t ==> Holds(tasks, v, b);
    }
  }

  ghost predicate Gated(tasks: map<TaskId, Task>) {
    forall t :: t in tasks && tasks[t].status in {Claimed, Working} ==> GatePasses(tasks, t)
  }

  lemma ClaimKeepsGated(tasks: map<TaskId, Task>, t: TaskId, a: AgentId)
    requires Gated(tasks) && Ready(tasks, t)
    ensures Gated(tasks[t := tasks[t].(status := Claimed, claimedBy := Some(a))])
  {
    var now := tasks[t := tasks[t].(status := Claimed, claimedBy := Some(a))];
    forall u | u in now && now[u].status in {Claimed, Working}
      ensures GatePasses(now, u)
    {
      assert GatePasses(tasks, u);
      forall d | d in now[u].deps
        ensures d in now && now[d].status == Status.Done
      {
        assert d in tasks[u].deps;
      }
    }
  }
}
