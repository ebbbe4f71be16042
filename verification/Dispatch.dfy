// One pass of TaskDispatchController over a cookbook: capacity accounting, the
// dependency gate and first-fit dispatch to gateways that may refuse.
module Dispatch {
  import opened Domain

  datatype Gateway = Gateway(id: AgentId, limit: int)

  type Answers = (AgentId, TaskId) -> bool   // whether a gateway would accept a task

  function ActiveOf(tasks: map<TaskId, Task>, bundles: Bundles, cb: CookbookId, a: AgentId): set<TaskId> {
    set t | t in tasks && InCookbook(bundles, cb, tasks[t])
      && tasks[t].claimedBy == Some(a) && tasks[t].status in {Claimed, Working}
  }

  function PendingOf(tasks: map<TaskId, Task>, bundles: Bundles, cb: CookbookId, a: AgentId): set<TaskId> {
    set t | t in tasks && InCookbook(bundles, cb, tasks[t])
      && tasks[t].assignee == Some(a) && tasks[t].status == Open && tasks[t].claimedBy == None
  }

  function Load(tasks: map<TaskId, Task>, bundles: Bundles, cb: CookbookId, a: AgentId): nat {
    |ActiveOf(tasks, bundles, cb, a)| + |PendingOf(tasks, bundles, cb, a)|
  }

  // Open, unassigned and not owned by the graph runner.
  predicate Candidate(tasks: map<TaskId, Task>, bundles: Bundles, cb: CookbookId, t: TaskId) {
    && t in tasks && InCookbook(bundles, cb, tasks[t])
    && tasks[t].status == Open && tasks[t].assignee == None && tasks[t].graphNode == None
  }

  predicate Dispatchable(tasks: map<TaskId, Task>, bundles: Bundles, cb: CookbookId, t: TaskId) {
    Candidate(tasks, bundles, cb, t) && DepsDone(tasks, tasks[t].deps)
  }

  // A task is ready for dispatch exactly when its row says so: a bundle of the
  // cookbook, open, unassigned, of no graph, every dependency there and done.
  lemma DispatchableMeans(tasks: map<TaskId, Task>, bundles: Bundles, cb: CookbookId, t: TaskId)
    ensures Dispatchable(tasks, bundles, cb, t) <==>
      && t in tasks && tasks[t].bundle in bundles && bundles[tasks[t].bundle] == Some(cb)
      && tasks[t].status == Open && tasks[t].assignee == None && tasks[t].graphNode == None
      && forall d :: d in tasks[t].deps ==> d in tasks && tasks[d].status == Done
  {
  }

  // An agent's load counts the cookbook's tasks it has claimed or works on, and
  // the open ones assigned to it that nobody has claimed.
  lemma LoadCounts(tasks: map<TaskId, Task>, bundles: Bundles, cb: CookbookId, a: AgentId)
    ensures Load(tasks, bundles, cb, a) ==
      |set t | t in tasks && tasks[t].bundle in bundles && bundles[tasks[t].bundle] == Some(cb)
             && ((tasks[t].claimedBy == Some(a) && tasks[t].status in {Claimed, Working})
                 || (tasks[t].assignee == Some(a) && tasks[t].status == Open && tasks[t].claimedBy == None))|
  {
    var all := set t | t in tasks && tasks[t].bundle in bundles && bundles[tasks[t].bundle] == Some(cb)
             && ((tasks[t].claimedBy == Some(a) && tasks[t].status in {Claimed, Working})
                 || (tasks[t].assignee == Some(a) && tasks[t].status == Open && tasks[t].claimedBy == None));
    assert all == ActiveOf(tasks, bundles, cb, a) + PendingOf(tasks, bundles, cb, a);
    assert ActiveOf(tasks, bundles, cb, a) !! PendingOf(tasks, bundles, cb, a);
  }

  function Sent(task: Task, a: AgentId): Task {
    task.(status := Claimed, assignee := Some(a), claimedBy := Some(a))
  }

  // The rows differ exactly by the dispatches in `sent`.
  ghost predicate After(before: map<TaskId, Task>, sent: map<TaskId, AgentId>, now: map<TaskId, Task>) {
    && now.Keys == before.Keys
    && forall t :: t in before ==> now[t] == if t in sent then Sent(before[t], sent[t]) else before[t]
  }

  ghost function SentTo(sent: map<TaskId, AgentId>, a: AgentId): set<TaskId> {
    set t | t in sent && sent[t] == a
  }

  lemma LoadAfterSend(tasks: map<TaskId, Task>, bundles: Bundles, cb: CookbookId, t: TaskId, g: AgentId,
                      a: AgentId)
    requires Candidate(tasks, bundles, cb, t)
    ensures Load(tasks[t := Sent(tasks[t], g)], bundles, cb, a)
      == Load(tasks, bundles, cb, a) + (if a == g then 1 else 0)
  {
    var tasks' := tasks[t := Sent(tasks[t], g)];
    assert PendingOf(tasks', bundles, cb, a) == PendingOf(tasks, bundles, cb, a);
    assert t !in ActiveOf(tasks, bundles, cb, a);
    assert ActiveOf(tasks', bundles, cb, a) == ActiveOf(tasks, bundles, cb, a) + (if a == g then {t} else {});
  }

  // The `capacity` dictionary holds what every gateway with room has left.
  ghost predicate Room(tasks: map<TaskId, Task>, bundles: Bundles, cb: CookbookId,
                       gateways: seq<Gateway>, capacity: map<AgentId, int>)
  {
    && (forall a :: a in capacity ==> exists i :: 0 <= i < |gateways| && gateways[i].id == a)
    && (forall i :: 0 <= i < |gateways| ==>
          var left := gateways[i].limit - Load(tasks, bundles, cb, gateways[i].id);
          && (gateways[i].id in capacity <==> left > 0)
          && (gateways[i].id in capacity ==> capacity[gateways[i].id] == left))
  }

  ghost predicate DistinctIds(gateways: seq<Gateway>) {
    forall i, j :: 0 <= i < j < |gateways| ==> gateways[i].id != gateways[j].id
  }

  function Spend(capacity: map<AgentId, int>, g: AgentId): map<AgentId, int>
    requires g in capacity
  {
    if capacity[g] - 1 <= 0 then capacity - {g} else capacity[g := capacity[g] - 1]
  }

  lemma RoomAfterSend(tasks: map<TaskId, Task>, bundles: Bundles, cb: CookbookId,
                      gateways: seq<Gateway>, capacity: map<AgentId, int>, t: TaskId, g: AgentId)
    requires Room(tasks, bundles, cb, gateways, capacity) && DistinctIds(gateways)
    requires Candidate(tasks, bundles, cb, t) && g in capacity
    ensures Room(tasks[t := Sent(tasks[t], g)], bundles, cb, gateways, Spend(capacity, g))
  {
    forall i | 0 <= i < |gateways|
      ensures Load(tasks[t := Sent(tasks[t], g)], bundles, cb, gateways[i].id)
        == Load(tasks, bundles, cb, gateways[i].id) + (if gateways[i].id == g then 1 else 0)
    {
      LoadAfterSend(tasks, bundles, cb, t, g, gateways[i].id);
    }
  }

  // Every dispatched task was open, unassigned, past its gate and accepted.
  ghost predicate Eligible(before: map<TaskId, Task>, bundles: Bundles, cb: CookbookId,
                           gateways: seq<Gateway>, accepts: Answers, sent: map<TaskId, AgentId>)
  {
    forall t :: t in sent ==>
      && Dispatchable(before, bundles, cb, t) && accepts(sent[t], t)
      && exists i :: 0 <= i < |gateways| && gateways[i].id == sent[t]
  }

  // Loads grow by exactly the dispatches.
  ghost predicate Conserved(before: map<TaskId, Task>, bundles: Bundles, cb: CookbookId,
                            sent: map<TaskId, AgentId>, now: map<TaskId, Task>)
  {
    forall a :: Load(now, bundles, cb, a) == Load(before, bundles, cb, a) + |SentTo(sent, a)|
  }

  ghost predicate Full(now: map<TaskId, Task>, bundles: Bundles, cb: CookbookId, g: Gateway) {
    Load(now, bundles, cb, g.id) >= g.limit
  }

  // What gateway a had been sent before the p-th dispatch.
  ghost function SentBefore(sent: map<TaskId, AgentId>, order: seq<TaskId>, p: nat, a: AgentId): set<TaskId>
    requires p <= |order|
  {
    set t | t in order[..p] && t in sent && sent[t] == a
  }

  // `order` lists the dispatches as they were made.
  ghost predicate InTurn(sent: map<TaskId, AgentId>, order: seq<TaskId>) {
    Distinct(order) && forall t :: t in order <==> t in sent
  }

  // Each task went to the first gateway in the list that accepted and, at that
  // moment, had room.
  ghost predicate FirstFit(before: map<TaskId, Task>, bundles: Bundles, cb: CookbookId, gateways: seq<Gateway>, accepts: Answers,
                           sent: map<TaskId, AgentId>, order: seq<TaskId>)
    requires InTurn(sent, order)
  {
    forall p, i, k :: 0 <= p < |order| && 0 <= i < k < |gateways| && gateways[k].id == sent[order[p]] ==>
      || !accepts(gateways[i].id, order[p])
      || Load(before, bundles, cb, gateways[i].id) + |SentBefore(sent, order, p, gateways[i].id)| >= gateways[i].limit
  }

  // A task passed over was refused by every gateway that still has room.
  ghost predicate Exhausted(bundles: Bundles, cb: CookbookId,
                            gateways: seq<Gateway>, accepts: Answers, now: map<TaskId, Task>, t: TaskId)
  {
    forall i :: 0 <= i < |gateways| ==> Full(now, bundles, cb, gateways[i]) || !accepts(gateways[i].id, t)
  }

  // No gateway is filled beyond its limit by a dispatch.
  ghost predicate WithinLimits(before: map<TaskId, Task>, bundles: Bundles, cb: CookbookId,
                               gateways: seq<Gateway>, now: map<TaskId, Task>)
  {
    forall i :: 0 <= i < |gateways| ==>
      || Load(now, bundles, cb, gateways[i].id) <= gateways[i].limit
      || Load(now, bundles, cb, gateways[i].id) == Load(before, bundles, cb, gateways[i].id)
  }

  ghost predicate Pass(before: map<TaskId, Task>, bundles: Bundles, cb: CookbookId,
                       gateways: seq<Gateway>, accepts: Answers, sent: map<TaskId, AgentId>, order: seq<TaskId>,
                       now: map<TaskId, Task>)
  {
    && After(before, sent, now)
    && Eligible(before, bundles, cb, gateways, accepts, sent)
    && Conserved(before, bundles, cb, sent, now)
    && InTurn(sent, order) && FirstFit(before, bundles, cb, gateways, accepts, sent, order)
    && WithinLimits(before, bundles, cb, gateways, now)
  }

  lemma NothingSent(before: map<TaskId, Task>, bundles: Bundles, cb: CookbookId,
                    gateways: seq<Gateway>, accepts: Answers)
    ensures Pass(before, bundles, cb, gateways, accepts, map[], [], before)
  {
    forall a
      ensures SentTo(map[], a) == {}
    {
    }
  }

  lemma SentToGrows(sent: map<TaskId, AgentId>, t: TaskId, g: AgentId, a: AgentId)
    requires t !in sent
    ensures |SentTo(sent[t := g], a)| == |SentTo(sent, a)| + (if a == g then 1 else 0)
  {
    assert SentTo(sent[t := g], a) == SentTo(sent, a) + (if a == g then {t} else {});
  }

  lemma SendConserved(before: map<TaskId, Task>, bundles: Bundles, cb: CookbookId,
                      sent: map<TaskId, AgentId>, now: map<TaskId, Task>, t: TaskId, g: AgentId)
    requires Conserved(before, bundles, cb, sent, now) && t !in sent && Candidate(now, bundles, cb, t)
    ensures Conserved(before, bundles, cb, sent[t := g], now[t := Sent(now[t], g)])
  {
    forall a
      ensures Load(now[t := Sent(now[t], g)], bundles, cb, a) == Load(before, bundles, cb, a) + |SentTo(sent[t := g], a)|
    {
      LoadAfterSend(now, bundles, cb, t, g, a);
      SentToGrows(sent, t, g, a);
    }
  }

  lemma FullStays(now: map<TaskId, Task>, bundles: Bundles, cb: CookbookId, gateways: seq<Gateway>,
                  t: TaskId, g: AgentId)
    requires Candidate(now, bundles, cb, t)
    ensures forall i ::
      0 <= i < |gateways| && Full(now, bundles, cb, gateways[i]) ==> Full(now[t := Sent(now[t], g)], bundles, cb, gateways[i])
  {
    forall i | 0 <= i < |gateways| && Full(now, bundles, cb, gateways[i])
      ensures Full(now[t := Sent(now[t], g)], bundles, cb, gateways[i])
    {
      LoadAfterSend(now, bundles, cb, t, g, gateways[i].id);
    }
  }

  lemma SendWithinLimits(before: map<TaskId, Task>, bundles: Bundles, cb: CookbookId,
                         gateways: seq<Gateway>, now: map<TaskId, Task>, t: TaskId, k: nat)
    requires WithinLimits(before, bundles, cb, gateways, now) && DistinctIds(gateways) && k < |gateways|
    requires Candidate(now, bundles, cb, t) && !Full(now, bundles, cb, gateways[k])
    ensures WithinLimits(before, bundles, cb, gateways, now[t := Sent(now[t], gateways[k].id)])
  {
    forall i | 0 <= i < |gateways|
      ensures var now' := now[t := Sent(now[t], gateways[k].id)];
        Load(now', bundles, cb, gateways[i].id) == Load(now, bundles, cb, gateways[i].id) + (if i == k then 1 else 0)
    {
      LoadAfterSend(now, bundles, cb, t, gateways[k].id, gateways[i].id);
    }
  }

  lemma TurnTaken(sent: map<TaskId, AgentId>, order: seq<TaskId>, t: TaskId, g: AgentId)
    requires InTurn(sent, order) && t !in sent
    ensures InTurn(sent[t := g], order + [t])
    ensures forall p, a :: 0 <= p <= |order| ==> SentBefore(sent[t := g], order + [t], p, a) == SentBefore(sent, order, p, a)
    ensures forall a :: SentBefore(sent, order, |order|, a) == SentTo(sent, a)
  {
    assert order[..|order|] == order;
    forall p, a | 0 <= p <= |order|
      ensures SentBefore(sent[t := g], order + [t], p, a) == SentBefore(sent, order, p, a)
    {
      assert (order + [t])[..p] == order[..p];
      assert forall u :: u in order[..p] ==> u in order;
    }
  }

  lemma SendFirstFit(before: map<TaskId, Task>, bundles: Bundles, cb: CookbookId, gateways: seq<Gateway>, accepts: Answers,
                     sent: map<TaskId, AgentId>, order: seq<TaskId>, now: map<TaskId, Task>, t: TaskId, k: nat)
    requires InTurn(sent, order) && FirstFit(before, bundles, cb, gateways, accepts, sent, order)
    requires Conserved(before, bundles, cb, sent, now) && t !in sent && DistinctIds(gateways) && k < |gateways|
    requires forall i :: 0 <= i < k ==> !accepts(gateways[i].id, t) || Full(now, bundles, cb, gateways[i])
    ensures InTurn(sent[t := gateways[k].id], order + [t])
    ensures FirstFit(before, bundles, cb, gateways, accepts, sent[t := gateways[k].id], order + [t])
  {
    var sent', order' := sent[t := gateways[k].id], order + [t];
    TurnTaken(sent, order, t, gateways[k].id);
    forall p, i, j | 0 <= p < |order'| && 0 <= i < j < |gateways| && gateways[j].id == sent'[order'[p]]
      ensures !accepts(gateways[i].id, order'[p]) ||
        Load(before, bundles, cb, gateways[i].id) + |SentBefore(sent', order', p, gateways[i].id)| >= gateways[i].limit
    {
      if p < |order| {
        assert order[p] in order && order'[p] == order[p];
      } else {
        assert j == k;
      }
    }
  }

  lemma SendAfter(before: map<TaskId, Task>, sent: map<TaskId, AgentId>, now: map<TaskId, Task>, t: TaskId, g: AgentId)
    requires After(before, sent, now) && t in before && t !in sent
    ensures After(before, sent[t := g], now[t := Sent(now[t], g)])
  {
  }

  lemma SendEligible(before: map<TaskId, Task>, bundles: Bundles, cb: CookbookId,
                     gateways: seq<Gateway>, accepts: Answers, sent: map<TaskId, AgentId>, t: TaskId, k: nat)
    requires Eligible(before, bundles, cb, gateways, accepts, sent)
    requires Dispatchable(before, bundles, cb, t) && k < |gateways| && accepts(gateways[k].id, t)
    ensures Eligible(before, bundles, cb, gateways, accepts, sent[t := gateways[k].id])
  {
  }

  lemma Send(before: map<TaskId, Task>, bundles: Bundles, cb: CookbookId,
             gateways: seq<Gateway>, accepts: Answers, sent: map<TaskId, AgentId>, order: seq<TaskId>,
             now: map<TaskId, Task>, t: TaskId, k: nat)
    requires Pass(before, bundles, cb, gateways, accepts, sent, order, now) && DistinctIds(gateways)
    requires t !in sent && Dispatchable(before, bundles, cb, t) && Candidate(now, bundles, cb, t)
    requires k < |gateways| && accepts(gateways[k].id, t) && !Full(now, bundles, cb, gateways[k])
    requires forall i :: 0 <= i < k ==> !accepts(gateways[i].id, t) || Full(now, bundles, cb, gateways[i])
    ensures Pass(before, bundles, cb, gateways, accepts, sent[t := gateways[k].id], order + [t],
                 now[t := Sent(now[t], gateways[k].id)])
  {
    SendAfter(before, sent, now, t, gateways[k].id);
    SendEligible(before, bundles, cb, gateways, accepts, sent, t, k);
    SendConserved(before, bundles, cb, sent, now, t, gateways[k].id);
    SendFirstFit(before, bundles, cb, gateways, accepts, sent, order, now, t, k);
    SendWithinLimits(before, bundles, cb, gateways, now, t, k);
  }

  // After the first i listed rows.
  ghost predicate Visited(before: map<TaskId, Task>, bundles: Bundles, cb: CookbookId,
                          gateways: seq<Gateway>, accepts: Answers, rows: seq<TaskId>, i: nat,
                          sent: map<TaskId, AgentId>, now: map<TaskId, Task>)
    requires i <= |rows|
  {
    && (forall t :: t in sent ==> t in rows[..i])
    && (forall t :: t in rows[..i] && t !in sent && Dispatchable(before, bundles, cb, t) ==>
          Exhausted(bundles, cb, gateways, accepts, now, t))
  }

  ghost predicate Listed(before: map<TaskId, Task>, bundles: Bundles, cb: CookbookId, rows: seq<TaskId>) {
    Distinct(rows) && forall t :: t in rows <==> Candidate(before, bundles, cb, t)
  }

  // The row listed at the start of the pass is unchanged when its turn comes,
  // and no dependency has moved to or from DONE.
  lemma StillCandidate(before: map<TaskId, Task>, bundles: Bundles, cb: CookbookId,
                       gateways: seq<Gateway>, accepts: Answers, rows: seq<TaskId>, i: nat,
                       sent: map<TaskId, AgentId>, now: map<TaskId, Task>)
    requires After(before, sent, now) && Listed(before, bundles, cb, rows) && i < |rows|
    requires Eligible(before, bundles, cb, gateways, accepts, sent)
    requires Visited(before, bundles, cb, gateways, accepts, rows, i, sent, now)
    ensures rows[i] !in sent && Candidate(now, bundles, cb, rows[i]) && now[rows[i]] == before[rows[i]]
    ensures DepsDone(now, now[rows[i]].deps) <==> DepsDone(before, before[rows[i]].deps)
  {
    assert rows[i] in rows;
    forall d | d in before
      ensures now[d].status == Done <==> before[d].status == Done
    {
    }
  }

  lemma VisitKept(before: map<TaskId, Task>, bundles: Bundles, cb: CookbookId,
                  gateways: seq<Gateway>, accepts: Answers, rows: seq<TaskId>, i: nat,
                  sent: map<TaskId, AgentId>, now: map<TaskId, Task>)
    requires i < |rows| && Visited(before, bundles, cb, gateways, accepts, rows, i, sent, now)
    requires Dispatchable(before, bundles, cb, rows[i]) ==> Exhausted(bundles, cb, gateways, accepts, now, rows[i])
    ensures Visited(before, bundles, cb, gateways, accepts, rows, i + 1, sent, now)
  {
    assert rows[..i + 1] == rows[..i] + [rows[i]];
  }

  lemma VisitSent(before: map<TaskId, Task>, bundles: Bundles, cb: CookbookId,
                  gateways: seq<Gateway>, accepts: Answers, rows: seq<TaskId>, i: nat,
                  sent: map<TaskId, AgentId>, now: map<TaskId, Task>, g: AgentId)
    requires i < |rows| && Visited(before, bundles, cb, gateways, accepts, rows, i, sent, now)
    requires Candidate(now, bundles, cb, rows[i])
    ensures var t := rows[i];
      Visited(before, bundles, cb, gateways, accepts, rows, i + 1, sent[t := g], now[t := Sent(now[t], g)])
  {
    assert rows[..i + 1] == rows[..i] + [rows[i]];
    FullStays(now, bundles, cb, gateways, rows[i], g);
  }

  class TaskDispatcher {
    var tasks: map<TaskId, Task>
    const bundles: Bundles

    constructor (tasks: map<TaskId, Task>, bundles: Bundles)
      ensures this.tasks == tasks && this.bundles == bundles
    {
      this.tasks, this.bundles := tasks, bundles;
    }

    // The unassigned rows of list_open_by_cookbook, in some order.
    method ListUnassigned(cb: CookbookId) returns (rows: seq<TaskId>)
      ensures Distinct(rows)
      ensures forall t :: t in rows <==> Candidate(tasks, bundles, cb, t)
    {
      rows := [];
      var left := set t | t in tasks && Candidate(tasks, bundles, cb, t);
      while left != {}
        invariant Distinct(rows)
        invariant forall t :: t in rows || t in left <==> Candidate(tasks, bundles, cb, t)
        invariant forall t :: t in rows ==> t !in left
        decreases left
      {
        var t :| t in left;
        rows := rows + [t];
        left := left - {t};
      }
    }

    method DepsSatisfied(deps: seq<TaskId>) returns (ok: bool)
      ensures ok <==> DepsDone(tasks, deps)
    {
      for i := 0 to |deps|
        invariant forall j :: 0 <= j < i ==> deps[j] in tasks && tasks[deps[j]].status == Done
      {
        if deps[i] !in tasks || tasks[deps[i]].status != Done {
          return false;
        }
      }
      return true;
    }

    method Capacity(cb: CookbookId, gateways: seq<Gateway>) returns (capacity: map<AgentId, int>)
      requires DistinctIds(gateways)
      ensures Room(tasks, bundles, cb, gateways, capacity)
    {
      capacity := map[];
      for i := 0 to |gateways|
        invariant Room(tasks, bundles, cb, gateways[..i], capacity)
      {
        var g := gateways[i];
        var remaining := g.limit - |ActiveOf(tasks, bundles, cb, g.id)| - |PendingOf(tasks, bundles, cb, g.id)|;
        assert gateways[..i + 1] == gateways[..i] + [g];
        assert g.id !in capacity;
        assert gateways[..i + 1][i] == g;
        assert forall j :: 0 <= j < i ==> gateways[..i + 1][j] == gateways[..i][j];
        if remaining > 0 {
          capacity := capacity[g.id := remaining];
        }
      }
      assert gateways[..|gateways|] == gateways;
    }

    // The first gateway with room that accepts.
    method TryDispatch(t: TaskId, gateways: seq<Gateway>, capacity: map<AgentId, int>, accepts: Answers)
      returns (k: int)
      ensures -1 <= k < |gateways|
      ensures k >= 0 ==> gateways[k].id in capacity && accepts(gateways[k].id, t)
      ensures forall i :: 0 <= i < (if k >= 0 then k else |gateways|) ==>
        gateways[i].id !in capacity || !accepts(gateways[i].id, t)
    {
      for i := 0 to |gateways|
        invariant forall j :: 0 <= j < i ==> gateways[j].id !in capacity || !accepts(gateways[j].id, t)
      {
        if gateways[i].id in capacity && accepts(gateways[i].id, t) {
          return i;
        }
      }
      return -1;
    }

    method DispatchForCookbook(cb: CookbookId, gateways: seq<Gateway>, accepts: Answers)
      returns (ghost sent: map<TaskId, AgentId>, ghost order: seq<TaskId>)
      requires DistinctIds(gateways)
      modifies this`tasks
      ensures Pass(old(tasks), bundles, cb, gateways, accepts, sent, order, tasks)
      ensures forall t :: Dispatchable(old(tasks), bundles, cb, t) && t !in sent ==>
        Exhausted(bundles, cb, gateways, accepts, tasks, t)
    {
      ghost var before := tasks;
      sent, order := map[], [];
      NothingSent(tasks, bundles, cb, gateways, accepts);
      var rows := ListUnassigned(cb);
      if rows == [] {
        return;
      }
      var capacity := Capacity(cb, gateways);
      var i := 0;
      while i < |rows|
        invariant 0 <= i <= |rows|
        invariant Pass(before, bundles, cb, gateways, accepts, sent, order, tasks)
        invariant Room(tasks, bundles, cb, gateways, capacity)
        invariant Visited(before, bundles, cb, gateways, accepts, rows, i, sent, tasks)
      {
        if capacity == map[] {
          break;
        }
        sent, order, capacity := DispatchRow(before, cb, gateways, accepts, rows, i, sent, order, capacity);
        i := i + 1;
      }
      assert i == |rows| ==> rows[..i] == rows;
    }

    // The body of the task loop.
    method DispatchRow(ghost before: map<TaskId, Task>, cb: CookbookId, gateways: seq<Gateway>, accepts: Answers,
                       rows: seq<TaskId>, i: nat, ghost sent0: map<TaskId, AgentId>, ghost order0: seq<TaskId>,
                       capacity0: map<AgentId, int>)
      returns (ghost sent: map<TaskId, AgentId>, ghost order: seq<TaskId>, capacity: map<AgentId, int>)
      requires DistinctIds(gateways) && Listed(before, bundles, cb, rows) && i < |rows|
      requires Pass(before, bundles, cb, gateways, accepts, sent0, order0, tasks)
      requires Room(tasks, bundles, cb, gateways, capacity0)
      requires Visited(before, bundles, cb, gateways, accepts, rows, i, sent0, tasks)
      modifies this`tasks
      ensures Pass(before, bundles, cb, gateways, accepts, sent, order, tasks)
      ensures Room(tasks, bundles, cb, gateways, capacity)
      ensures Visited(before, bundles, cb, gateways, accepts, rows, i + 1, sent, tasks)
    {
      sent, order, capacity := sent0, order0, capacity0;
      var t := rows[i];
      StillCandidate(before, bundles, cb, gateways, accepts, rows, i, sent, tasks);
      var ready := DepsSatisfied(tasks[t].deps);
      if !ready {
        VisitKept(before, bundles, cb, gateways, accepts, rows, i, sent, tasks);
        return;
      }
      var k := TryDispatch(t, gateways, capacity, accepts);
      if k < 0 {
        VisitKept(before, bundles, cb, gateways, accepts, rows, i, sent, tasks);
        return;
      }
      var g := gateways[k].id;
      Send(before, bundles, cb, gateways, accepts, sent, order, tasks, t, k);
      RoomAfterSend(tasks, bundles, cb, gateways, capacity, t, g);
      VisitSent(before, bundles, cb, gateways, accepts, rows, i, sent, tasks, g);
      tasks := tasks[t := Sent(tasks[t], g)];
      capacity := Spend(capacity, g);
      sent, order := sent[t := g], order + [t];
    }
  }

  // What a pass leaves in the rows.
  lemma PassMeans(before: map<TaskId, Task>, bundles: Bundles, cb: CookbookId, gateways: seq<Gateway>, accepts: Answers,
                  sent: map<TaskId, AgentId>, order: seq<TaskId>, now: map<TaskId, Task>, t: TaskId)
    requires Pass(before, bundles, cb, gateways, accepts, sent, order, now) && t in before
    ensures t in now
    ensures t in sent ==>
      && before[t].status == Open && before[t].assignee == None && before[t].graphNode == None
      && (forall d :: d in before[t].deps ==> d in before && before[d].status == Done)
      && accepts(sent[t], t) && (exists i :: 0 <= i < |gateways| && gateways[i].id == sent[t])
      && now[t] == before[t].(status := Claimed, assignee := Some(sent[t]), claimedBy := Some(sent[t]))
    ensures t !in sent ==> now[t] == before[t]
  {
    DispatchableMeans(before, bundles, cb, t);
  }

  // If every gateway accepts, either all ready tasks go out or no room is left.
  lemma AllAccepted(before: map<TaskId, Task>, bundles: Bundles, cb: CookbookId,
                    gateways: seq<Gateway>, accepts: Answers, sent: map<TaskId, AgentId>, order: seq<TaskId>,
                    now: map<TaskId, Task>)
    requires Pass(before, bundles, cb, gateways, accepts, sent, order, now)
    requires forall t :: Dispatchable(before, bundles, cb, t) && t !in sent ==>
      Exhausted(bundles, cb, gateways, accepts, now, t)
    requires forall a, t :: accepts(a, t)
    ensures
      || (forall t :: Dispatchable(before, bundles, cb, t) <==> t in sent)
      || (forall i :: 0 <= i < |gateways| ==> Full(now, bundles, cb, gateways[i]))
  {
    if t :| Dispatchable(before, bundles, cb, t) && t !in sent {
      assert Exhausted(bundles, cb, gateways, accepts, now, t);
    }
  }
}
