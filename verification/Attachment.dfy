// GraphAttachmentService.attach_graph_artifact: one task per graph step, edges
// turned into dependencies, and why the attached bundle can always be finished.
module Attachment {
  import opened Domain
  import opened Graphs
  import opened CycleCheck

  // What the sandbox extracts from accepted graph code: distinct step names,
  // deduplicated edges between them.
  datatype Structure = Structure(nodes: seq<Node>, edges: seq<(Node, Node)>)

  ghost predicate WellFormed(g: Structure) {
    && Distinct(g.nodes) && Distinct(g.edges)
    && forall s, d :: (s, d) in g.edges ==> s in g.nodes && d in g.nodes
  }

  datatype Answer = Attached(created: seq<Task>) | BundleNotFound | AlreadyAttached | Rejected | NoSteps | HasCycle

  // The dependencies of step i mirror its incoming edges, each once.
  ghost predicate Mirrors(g: Structure, ids: seq<TaskId>, i: nat, deps: seq<TaskId>)
    requires |ids| == |g.nodes| && i < |ids|
  {
    && Distinct(deps)
    && (forall d :: d in deps ==> d in ids)
    && (forall j :: 0 <= j < |ids| ==> (ids[j] in deps <==> (g.nodes[j], g.nodes[i]) in g.edges))
  }

  ghost predicate IsAttachment(before: map<TaskId, Task>, b: BundleId, g: Structure, ids: seq<TaskId>,
                               after: map<TaskId, Task>)
    requires |ids| == |g.nodes|
  {
    && after.Keys == before.Keys + Elems(ids)
    && (forall t :: t in before ==> after[t] == before[t])
    && (forall i :: 0 <= i < |ids| ==>
          && after[ids[i]] == Task(b, Open, after[ids[i]].deps, None, None, Some(g.nodes[i]), None)
          && Mirrors(g, ids, i, after[ids[i]].deps))
  }

  ghost predicate FreshIds(tasks: map<TaskId, Task>, ids: seq<TaskId>) {
    Distinct(ids) && forall i :: 0 <= i < |ids| ==> ids[i] !in tasks
  }

  // Edge sources by target, each list in edge order.
  method IncomingEdges(g: Structure) returns (incoming: map<Node, seq<Node>>)
    requires WellFormed(g)
    ensures forall n :: n in g.nodes <==> n in incoming
    ensures forall n :: n in incoming ==> Distinct(incoming[n])
    ensures forall s, n :: n in incoming ==> (s in incoming[n] <==> (s, n) in g.edges)
  {
    incoming := map n | n in g.nodes :: [];
    for i := 0 to |g.edges|
      invariant forall n :: n in g.nodes <==> n in incoming
      invariant forall n :: n in incoming ==> Distinct(incoming[n])
      invariant forall s, n :: n in incoming ==> (s in incoming[n] <==> (s, n) in g.edges[..i])
    {
      var (src, dst) := g.edges[i];
      assert (src, dst) !in g.edges[..i];
      assert (src, dst) in g.edges;
      assert g.edges[..i + 1] == g.edges[..i] + [(src, dst)];
      incoming := incoming[dst := incoming[dst] + [src]];
    }
    assert g.edges[..|g.edges|] == g.edges;
  }

  class AttachmentService {
    var tasks: map<TaskId, Task>
    var bundles: map<BundleId, bool>   // true: graph_code is set

    method Attach(b: BundleId, graph: Option<Structure>, ids: seq<TaskId>) returns (a: Answer)
      requires graph.Some? ==> WellFormed(graph.value) && |ids| == |graph.value.nodes|
      requires FreshIds(tasks, ids)
      modifies this
      ensures a == BundleNotFound <==> b !in old(bundles)
      ensures a == AlreadyAttached <==> b in old(bundles) && old(bundles)[b]
      ensures a == Rejected <==> b in old(bundles) && !old(bundles)[b] && graph.None?
      ensures a == NoSteps <==> b in old(bundles) && !old(bundles)[b] && graph.Some? && graph.value.nodes == []
      ensures a == HasCycle <==>
        && b in old(bundles) && !old(bundles)[b] && graph.Some? && graph.value.nodes != []
        && !Acyclic(Elems(graph.value.edges))
      ensures !a.Attached? ==> tasks == old(tasks) && bundles == old(bundles)
      ensures a.Attached? ==>
        && IsAttachment(old(tasks), b, graph.value, ids, tasks)
        && bundles == old(bundles)[b := true]
        && |a.created| == |ids| && forall i :: 0 <= i < |ids| ==> a.created[i] == tasks[ids[i]]
    {
      if b !in bundles { return BundleNotFound; }
      if bundles[b] { return AlreadyAttached; }
      if graph.None? { return Rejected; }
      var g := graph.value;
      if g.nodes == [] { return NoSteps; }
      var loop := EdgesHaveCycle(g.nodes, g.edges);
      if loop { return HasCycle; }
      var incoming := IncomingEdges(g);
      var created, taskOf := CreateTasks(b, g, ids);
      created := SetDependencies(old(tasks), b, g, ids, incoming, created, taskOf);
      bundles := bundles[b := true];
      a := Attached(created);
    }

    // One task per step; the dependencies follow once every id exists.
    method CreateTasks(b: BundleId, g: Structure, ids: seq<TaskId>)
      returns (created: seq<Task>, taskOf: map<Node, TaskId>)
      requires WellFormed(g) && |ids| == |g.nodes| && FreshIds(tasks, ids)
      modifies this`tasks
      ensures Skeleton(old(tasks), b, g, ids, tasks, created)
      ensures forall j :: 0 <= j < |ids| ==> tasks[ids[j]].deps == []
      ensures forall j :: 0 <= j < |ids| ==> g.nodes[j] in taskOf && taskOf[g.nodes[j]] == ids[j]
    {
      taskOf, created := map[], [];
      for i := 0 to |g.nodes|
        invariant |created| == i
        invariant tasks.Keys == old(tasks).Keys + Elems(ids[..i])
        invariant forall t :: t in old(tasks) ==> tasks[t] == old(tasks)[t]
        invariant forall j :: 0 <= j < i ==>
          ids[j] in tasks && created[j] == tasks[ids[j]] == Task(b, Open, [], None, None, Some(g.nodes[j]), None)
        invariant forall j :: 0 <= j < i ==> g.nodes[j] in taskOf && taskOf[g.nodes[j]] == ids[j]
      {
        var task := Task(b, Open, [], None, None, Some(g.nodes[i]), None);
        assert Elems(ids[..i + 1]) == Elems(ids[..i]) + {ids[i]} by { assert ids[..i + 1] == ids[..i] + [ids[i]]; }
        tasks := tasks[ids[i] := task];
        taskOf := taskOf[g.nodes[i] := ids[i]];
        created := created + [task];
      }
      assert ids[..|ids|] == ids;
    }

    method SetDependencies(ghost before: map<TaskId, Task>, b: BundleId, g: Structure, ids: seq<TaskId>,
                           incoming: map<Node, seq<Node>>, created0: seq<Task>, taskOf: map<Node, TaskId>)
      returns (created: seq<Task>)
      requires WellFormed(g) && |ids| == |g.nodes| && FreshIds(before, ids)
      requires Skeleton(before, b, g, ids, tasks, created0)
      requires forall j :: 0 <= j < |ids| ==> tasks[ids[j]].deps == []
      requires forall j :: 0 <= j < |ids| ==> g.nodes[j] in taskOf && taskOf[g.nodes[j]] == ids[j]
      requires forall n :: n in g.nodes ==> n in incoming && Distinct(incoming[n])
      requires forall s, n :: n in g.nodes ==> (s in incoming[n] <==> (s, n) in g.edges)
      modifies this`tasks
      ensures IsAttachment(before, b, g, ids, tasks)
      ensures |created| == |ids| && forall j :: 0 <= j < |ids| ==> created[j] == tasks[ids[j]]
    {
      created := created0;
      for i := 0 to |g.nodes|
        invariant Skeleton(before, b, g, ids, tasks, created)
        invariant forall j :: i <= j < |ids| ==> tasks[ids[j]].deps == []
        invariant forall j :: 0 <= j < i ==> Mirrors(g, ids, j, tasks[ids[j]].deps)
      {
        var srcs := incoming[g.nodes[i]];
        SourcesNamed(g, ids, i, srcs, taskOf);
        var deps := TaskIds(srcs, taskOf);
        DepsMirror(g, ids, i, srcs, taskOf, deps);
        SetOne(before, b, g, ids, tasks, created, i, deps);
        if deps != [] {
          tasks := tasks[ids[i] := tasks[ids[i]].(deps := deps)];
          created := created[i := tasks[ids[i]]];
        }
      }
    }
  }

  // The created rows, whatever their dependencies.
  ghost predicate Skeleton(before: map<TaskId, Task>, b: BundleId, g: Structure, ids: seq<TaskId>,
                           tasks: map<TaskId, Task>, created: seq<Task>)
    requires |ids| == |g.nodes|
  {
    && |created| == |ids|
    && tasks.Keys == before.Keys + Elems(ids)
    && (forall t :: t in before ==> tasks[t] == before[t])
    && (forall j :: 0 <= j < |ids| ==>
          created[j] == tasks[ids[j]] == Task(b, Open, tasks[ids[j]].deps, None, None, Some(g.nodes[j]), None))
  }

  lemma SetOne(before: map<TaskId, Task>, b: BundleId, g: Structure, ids: seq<TaskId>,
               tasks: map<TaskId, Task>, created: seq<Task>, i: nat, deps: seq<TaskId>)
    requires |ids| == |g.nodes| && FreshIds(before, ids) && Skeleton(before, b, g, ids, tasks, created) && i < |ids|
    ensures var task := tasks[ids[i]].(deps := deps);
      && Skeleton(before, b, g, ids, tasks[ids[i] := task], created[i := task])
      && forall j :: 0 <= j < |ids| && j != i ==> tasks[ids[i] := task][ids[j]] == tasks[ids[j]]
  {
  }

  function TaskIds(srcs: seq<Node>, taskOf: map<Node, TaskId>): (r: seq<TaskId>)
    requires forall k :: 0 <= k < |srcs| ==> srcs[k] in taskOf
    ensures |r| == |srcs| && forall k :: 0 <= k < |srcs| ==> r[k] == taskOf[srcs[k]]
  {
    seq(|srcs|, k requires 0 <= k < |srcs| => taskOf[srcs[k]])
  }

  lemma SourcesNamed(g: Structure, ids: seq<TaskId>, i: nat, srcs: seq<Node>, taskOf: map<Node, TaskId>)
    requires WellFormed(g) && |ids| == |g.nodes| && i < |ids|
    requires forall s :: s in srcs <==> (s, g.nodes[i]) in g.edges
    requires forall j :: 0 <= j < |ids| ==> g.nodes[j] in taskOf
    ensures forall k :: 0 <= k < |srcs| ==> srcs[k] in g.nodes && srcs[k] in taskOf
  {
    forall k | 0 <= k < |srcs|
      ensures srcs[k] in g.nodes && srcs[k] in taskOf
    {
      assert (srcs[k], g.nodes[i]) in g.edges;
      var j :| 0 <= j < |g.nodes| && g.nodes[j] == srcs[k];
    }
  }

  lemma DepsMirror(g: Structure, ids: seq<TaskId>, i: nat, srcs: seq<Node>, taskOf: map<Node, TaskId>, deps: seq<TaskId>)
    requires WellFormed(g) && Distinct(ids) && |ids| == |g.nodes| && i < |ids|
    requires Distinct(srcs) && forall s :: s in srcs <==> (s, g.nodes[i]) in g.edges
    requires forall j :: 0 <= j < |ids| ==> g.nodes[j] in taskOf && taskOf[g.nodes[j]] == ids[j]
    requires forall k :: 0 <= k < |srcs| ==> srcs[k] in g.nodes && srcs[k] in taskOf
    requires |deps| == |srcs| && forall k :: 0 <= k < |srcs| ==> deps[k] == taskOf[srcs[k]]
    ensures Mirrors(g, ids, i, deps)
  {
    forall k | 0 <= k < |deps|
      ensures exists j :: 0 <= j < |ids| && srcs[k] == g.nodes[j] && deps[k] == ids[j]
    {
      var j :| 0 <= j < |g.nodes| && g.nodes[j] == srcs[k];
    }
    forall k, m | 0 <= k < m < |deps|
      ensures deps[k] != deps[m]
    {
      var j :| 0 <= j < |ids| && srcs[k] == g.nodes[j] && deps[k] == ids[j];
      var j' :| 0 <= j' < |ids| && srcs[m] == g.nodes[j'] && deps[m] == ids[j'];
      assert j != j';
    }
    forall j | 0 <= j < |ids|
      ensures ids[j] in deps <==> (g.nodes[j], g.nodes[i]) in g.edges
    {
      if ids[j] in deps {
        var k :| 0 <= k < |deps| && deps[k] == ids[j];
        var j' :| 0 <= j' < |ids| && srcs[k] == g.nodes[j'] && deps[k] == ids[j'];
        assert j == j';
      }
      if (g.nodes[j], g.nodes[i]) in g.edges {
        var k :| 0 <= k < |srcs| && srcs[k] == g.nodes[j];
        assert deps[k] == ids[j];
      }
    }
  }

  // ---- the attached bundle can be finished -------------------------------------

  ghost function DepsAmong(tasks: map<TaskId, Task>, ids: seq<TaskId>): Edges {
    set t, d | t in ids && t in tasks && d in tasks[t].deps :: (t, d)
  }

  // A dependency walk is an edge walk read backwards.
  lemma {:induction false} DepsWalkBack(before: map<TaskId, Task>, b: BundleId, g: Structure, ids: seq<TaskId>,
                                        after: map<TaskId, Task>, p: seq<TaskId>)
      returns (i: nat, j: nat)
    requires WellFormed(g) && |ids| == |g.nodes| && Distinct(ids) && IsAttachment(before, b, g, ids, after)
    requires IsWalk(DepsAmong(after, ids), p) && p[0] in ids
    ensures i < |ids| && j < |ids| && ids[i] == p[0] && ids[j] == p[|p| - 1]
    ensures Reaches(Elems(g.edges), g.nodes[j], g.nodes[i])
    decreases |p|
  {
    i :| 0 <= i < |ids| && ids[i] == p[0];
    if |p| == 1 {
      j := i;
      ReachesSelf(Elems(g.edges), g.nodes[i]);
    } else {
      assert (p[0], p[0 + 1]) in DepsAmong(after, ids);
      var q := p[1..];
      assert forall k :: 0 <= k < |q| - 1 ==> (q[k], q[k + 1]) == (p[k + 1], p[k + 1 + 1]);
      assert Mirrors(g, ids, i, after[ids[i]].deps);
      var m;
      m, j := DepsWalkBack(before, b, g, ids, after, q);
      assert (g.nodes[m], g.nodes[i]) in g.edges;
      ReachesStep(Elems(g.edges), g.nodes[j], g.nodes[m], g.nodes[i]);
    }
  }

  lemma AttachedAcyclic(before: map<TaskId, Task>, b: BundleId, g: Structure, ids: seq<TaskId>, after: map<TaskId, Task>)
    requires WellFormed(g) && |ids| == |g.nodes| && Distinct(ids) && IsAttachment(before, b, g, ids, after)
    requires Acyclic(Elems(g.edges))
    ensures Acyclic(DepsAmong(after, ids))
  {
    var es := DepsAmong(after, ids);
    forall x, y | (x, y) in es
      ensures !Reaches(es, y, x)
    {
      var i :| 0 <= i < |ids| && ids[i] == x;
      assert Mirrors(g, ids, i, after[ids[i]].deps);
      if Reaches(es, y, x) {
        var p :| IsWalk(es, p) && p[0] == y && p[|p| - 1] == x;
        var k, j := DepsWalkBack(before, b, g, ids, after, p);
      }
    }
  }

  // The claim gate: every dependency exists and is done.
  predicate GatePasses(tasks: map<TaskId, Task>, t: TaskId)
    requires t in tasks
  {
    DepsDone(tasks, tasks[t].deps)
  }

  predicate Ready(tasks: map<TaskId, Task>, t: TaskId) {
    t in tasks && tasks[t].status == Open && GatePasses(tasks, t)
  }

  function Finish(tasks: map<TaskId, Task>, t: TaskId): map<TaskId, Task>
    requires t in tasks
  {
    tasks[t := tasks[t].(status := Status.Done)]
  }

  // Tasks claimed and completed one after another, each past its gate.
  ghost predicate IsSchedule(tasks: map<TaskId, Task>, order: seq<TaskId>) {
    order == [] || (Ready(tasks, order[0]) && IsSchedule(Finish(tasks, order[0]), order[1..]))
  }

  ghost function After(tasks: map<TaskId, Task>, order: seq<TaskId>): map<TaskId, Task>
    requires IsSchedule(tasks, order)
  {
    if order == [] then tasks else After(Finish(tasks, order[0]), order[1..])
  }

  lemma {:induction false} ScheduleEffect(tasks: map<TaskId, Task>, order: seq<TaskId>)
    requires IsSchedule(tasks, order)
    ensures After(tasks, order).Keys == tasks.Keys && Elems(order) <= tasks.Keys
    ensures forall t :: t in tasks ==>
      After(tasks, order)[t] == if t in order then tasks[t].(status := Status.Done) else tasks[t]
    ensures forall k :: 0 <= k < |order| ==> tasks[order[k]].status == Open
    ensures Distinct(order)
  {
    if order != [] {
      var tasks' := Finish(tasks, order[0]);
      ScheduleEffect(tasks', order[1..]);
      assert order == [order[0]] + order[1..];
    }
  }

  lemma {:induction false} ScheduleRespects(tasks: map<TaskId, Task>, order: seq<TaskId>, k: nat, d: TaskId)
    requires IsSchedule(tasks, order) && k < |order|
    requires order[k] in tasks && d in tasks[order[k]].deps
    ensures d in tasks && (tasks[d].status == Status.Done || d in order[..k])
  {
    if k > 0 {
      var tasks' := Finish(tasks, order[0]);
      assert order[1..][k - 1] == order[k];
      ScheduleRespects(tasks', order[1..], k - 1, d);
      assert order[..k] == [order[0]] + order[1..][..k - 1];
    }
  }

  // While a created task is not done, one is ready.
  lemma SomeoneReady(before: map<TaskId, Task>, b: BundleId, g: Structure, ids: seq<TaskId>, after: map<TaskId, Task>,
                     order: seq<TaskId>) returns (t: TaskId)
    requires WellFormed(g) && |ids| == |g.nodes| && Distinct(ids) && IsAttachment(before, b, g, ids, after)
    requires Acyclic(Elems(g.edges))
    requires IsSchedule(after, order) && Elems(order) <= Elems(ids) && Elems(order) != Elems(ids)
    ensures t in ids && Ready(After(after, order), t)
  {
    AttachedAcyclic(before, b, g, ids, after);
    var open := Elems(ids) - Elems(order);
    assert Elems(ids) == open + Elems(order);
    t := SinkExists(DepsAmong(after, ids), open);
    ScheduleEffect(after, order);
    forall d | d in after[t].deps
      ensures d in order
    {
      DepCreated(before, b, g, ids, after, t, d);
    }
  }

  lemma DepCreated(before: map<TaskId, Task>, b: BundleId, g: Structure, ids: seq<TaskId>, after: map<TaskId, Task>,
                   t: TaskId, d: TaskId)
    requires |ids| == |g.nodes| && IsAttachment(before, b, g, ids, after)
    requires t in ids && t in after && d in after[t].deps
    ensures d in Elems(ids) && (t, d) in DepsAmong(after, ids)
  {
    var i :| 0 <= i < |ids| && ids[i] == t;
    assert Mirrors(g, ids, i, after[ids[i]].deps);
  }

  // Any schedule of the created tasks that cannot be continued has finished all
  // of them, each once and after its upstream steps.
  lemma EveryScheduleFinishes(before: map<TaskId, Task>, b: BundleId, g: Structure, ids: seq<TaskId>,
                              after: map<TaskId, Task>, order: seq<TaskId>)
    requires WellFormed(g) && |ids| == |g.nodes| && Distinct(ids) && IsAttachment(before, b, g, ids, after)
    requires Acyclic(Elems(g.edges))
    requires IsSchedule(after, order) && Elems(order) <= Elems(ids)
    ensures Distinct(order)
    ensures forall i, k :: 0 <= i < |ids| && 0 <= k < |order| ==>
      forall j :: 0 <= j < |ids| && ids[j] == order[k] && (g.nodes[i], g.nodes[j]) in g.edges ==> ids[i] in order[..k]
    ensures var final := After(after, order);
      (forall t :: t in ids ==> !Ready(final, t))
      <==> (forall t :: t in ids ==> t in final && final[t].status == Status.Done)
  {
    ScheduleEffect(after, order);
    forall i, k | 0 <= i < |ids| && 0 <= k < |order|
      ensures forall j ::
        0 <= j < |ids| && ids[j] == order[k] && (g.nodes[i], g.nodes[j]) in g.edges ==> ids[i] in order[..k]
    {
      forall j | 0 <= j < |ids| && ids[j] == order[k] && (g.nodes[i], g.nodes[j]) in g.edges
        ensures ids[i] in order[..k]
      {
        assert Mirrors(g, ids, j, after[ids[j]].deps);
        ScheduleRespects(after, order, k, ids[i]);
      }
    }
    if Elems(order) != Elems(ids) {
      var t := SomeoneReady(before, b, g, ids, after, order);
    } else {
      assert forall t :: t in ids ==> t in Elems(order);
    }
  }
}
