// LinkReconcileController: pipes carry output down, drives and subagent links
// carry the report up, each link once. `fired` is the one-shot mark.
module LinkFiring {
  import opened Domain
  import opened Orchestration

  datatype LinkRow = LinkRow(from: TaskId, to: TaskId, pipe: bool, fired: bool, revoked: bool,
                             wantsReport: bool, intoBrief: bool)

  // A payload on its way: by which link, from which task, to which.
  datatype Delivery = Delivery(link: LinkId, source: TaskId, to: TaskId, content: Content)

  datatype State = State(tasks: map<TaskId, Row>, links: map<LinkId, LinkRow>, sent: seq<Delivery>)

  // _upstream_output, with the placeholder both callers put for None.
  function Output(id: TaskId, r: Row, wantsReport: bool): Content {
    if wantsReport && r.report.Some? then Rendered(r.report.value)
    else if r.reply.Some? then r.reply.value
    else Nothing(id)
  }

  // Whose output a link carries, and to whom.
  function Source(l: LinkRow): TaskId {
    if l.pipe then l.from else l.to
  }

  function Target(l: LinkRow): TaskId {
    if l.pipe then l.to else l.from
  }

  // Done, and accepted if a Brief manages it.
  predicate Vetted(r: Row) {
    r.status == Done && (r.brief ==> r.orch.accepted)
  }

  // There is somebody to deliver to.
  predicate Reachable(tasks: map<TaskId, Row>, l: LinkRow) {
    && Target(l) in tasks && tasks[Target(l)].status != Cancelled
    && (l.pipe ==> tasks[Target(l)].status != Done)
  }

  datatype Firing = Wait | Drop | Send

  // A vanished source drops a report link but leaves a pipe waiting.
  function Decided(tasks: map<TaskId, Row>, l: LinkRow): Firing {
    if Source(l) !in tasks then (if l.pipe then Wait else Drop)
    else if !Vetted(tasks[Source(l)]) then Wait
    else if Reachable(tasks, l) then Send
    else Drop
  }

  function Landed(r: Row, l: LinkRow, id: LinkId, c: Content): Row {
    if !l.pipe then r.(reply := Some(Quoted(id, Source(l), c)))
    else if l.intoBrief && r.brief then r.(context := r.context + [Quoted(id, Source(l), c)])
    else r.(description := r.description + [Quoted(id, Source(l), c)])
  }

  class LinkReconciler {
    var tasks: map<TaskId, Row>
    var links: map<LinkId, LinkRow>
    ghost var sent: seq<Delivery>

    ghost function Now(): State
      reads this
    {
      State(tasks, links, sent)
    }

    constructor (tasks: map<TaskId, Row>, links: map<LinkId, LinkRow>)
      ensures Now() == State(tasks, links, [])
    {
      this.tasks, this.links, sent := tasks, links, [];
    }

    method MarkFired(id: LinkId)
      requires id in links
      modifies this`links
      ensures links == old(links)[id := old(links)[id].(fired := true)]
    {
      links := links[id := links[id].(fired := true)];
    }

    // `row` is the link as the pass selected it; the link itself may have been
    // revoked since.
    method MaybeFirePipe(id: LinkId, row: LinkRow)
      requires id in links && row.pipe
      modifies this
      ensures Now() == Fired(old(Now()), id, row)
    {
      if row.from !in tasks || tasks[row.from].status != Done {
        return;
      }
      var upstream := tasks[row.from];
      if upstream.brief && !upstream.orch.accepted {
        return;
      }
      if row.to !in tasks || tasks[row.to].status in {Done, Cancelled} {
        MarkFired(id);
        return;
      }
      var downstream := tasks[row.to];
      var content := Output(row.from, upstream, row.wantsReport);
      var block := Quoted(id, row.from, content);
      if row.intoBrief && downstream.brief {
        tasks := tasks[row.to := downstream.(context := downstream.context + [block])];
      } else {
        tasks := tasks[row.to := downstream.(description := downstream.description + [block])];
      }
      sent := sent + [Delivery(id, row.from, row.to, content)];
      MarkFired(id);
    }

    method MaybeFlowReport(id: LinkId, row: LinkRow)
      requires id in links && !row.pipe
      modifies this
      ensures Now() == Fired(old(Now()), id, row)
    {
      if row.to !in tasks {
        MarkFired(id);
        return;
      }
      var child := tasks[row.to];
      if child.status != Done {
        return;
      }
      if child.brief && !child.orch.accepted {
        return;
      }
      if row.from !in tasks || tasks[row.from].status == Cancelled {
        MarkFired(id);
        return;
      }
      var content := Output(row.to, child, row.wantsReport);
      tasks := tasks[row.from := tasks[row.from].(reply := Some(Quoted(id, row.to, content)))];
      sent := sent + [Delivery(id, row.to, row.from, content)];
      MarkFired(id);
    }

    // One pass over the links selected as neither fired nor revoked, in any order.
    method Reconcile(pending: seq<LinkId>)
      requires Distinct(pending)
      requires forall id :: id in pending <==> id in links && !links[id].fired && !links[id].revoked
      modifies this
      ensures Now() == Passed(old(Now()), old(links), pending)
      ensures links.Keys == old(links).Keys
    {
      ghost var before := Now();
      ghost var selected := links;
      for i := 0 to |pending|
        invariant links.Keys == selected.Keys
        invariant forall id :: id in links && id !in pending[..i] ==> links[id] == selected[id]
        invariant Now() == Passed(before, selected, pending[..i])
      {
        var id := pending[i];
        assert id !in pending[..i];
        assert pending[..i + 1][..i] == pending[..i];
        if links[id].pipe {
          MaybeFirePipe(id, links[id]);
        } else {
          MaybeFlowReport(id, links[id]);
        }
      }
      assert pending[..|pending|] == pending;
    }
  }

  // ---- specification --------------------------------------------------------------------

  // The step for one selected link.
  function Fired(s: State, id: LinkId, row: LinkRow): (r: State)
    requires id in s.links
    ensures r.links.Keys == s.links.Keys
  {
    match Decided(s.tasks, row)
    case Wait => s
    case Drop => s.(links := s.links[id := s.links[id].(fired := true)])
    case Send =>
      var c := Output(Source(row), s.tasks[Source(row)], row.wantsReport);
      State(s.tasks[Target(row) := Landed(s.tasks[Target(row)], row, id, c)],
            s.links[id := s.links[id].(fired := true)],
            s.sent + [Delivery(id, Source(row), Target(row), c)])
  }

  // What is delivered: the report if it is wanted and there, else the reply, else
  // a placeholder.
  ghost predicate Carries(s: State, source: TaskId, wantsReport: bool, c: Content) {
    source in s.tasks &&
    if wantsReport && s.tasks[source].report.Some? then c == Rendered(s.tasks[source].report.value)
    else if s.tasks[source].reply.Some? then c == s.tasks[source].reply.value
    else c == Nothing(source)
  }

  // A pipe whose source is done, and accepted if a Brief manages it, delivers to a
  // target that is neither done nor cancelled: into the Brief if asked for and
  // there is one, else into the description.
  lemma PipeDelivers(s: State, id: LinkId, row: LinkRow)
    requires id in s.links && row.pipe && row.from in s.tasks && row.to in s.tasks
    requires s.tasks[row.from].status == Done && (s.tasks[row.from].brief ==> s.tasks[row.from].orch.accepted)
    requires s.tasks[row.to].status !in {Done, Cancelled}
    ensures var r, was := Fired(s, id, row), s.tasks[row.to];
      exists c ::
        && Carries(s, row.from, row.wantsReport, c)
        && r.sent == s.sent + [Delivery(id, row.from, row.to, c)]
        && r.links == s.links[id := s.links[id].(fired := true)]
        && r.tasks == s.tasks[row.to :=
             if row.intoBrief && was.brief then was.(context := was.context + [Quoted(id, row.from, c)])
             else was.(description := was.description + [Quoted(id, row.from, c)])]
  {
    assert Carries(s, row.from, row.wantsReport, Output(row.from, s.tasks[row.from], row.wantsReport));
  }

  // A report link delivers such a child's report to a parent that is not cancelled.
  lemma ReportDelivers(s: State, id: LinkId, row: LinkRow)
    requires id in s.links && !row.pipe && row.from in s.tasks && row.to in s.tasks
    requires s.tasks[row.to].status == Done && (s.tasks[row.to].brief ==> s.tasks[row.to].orch.accepted)
    requires s.tasks[row.from].status != Cancelled
    ensures var r := Fired(s, id, row);
      exists c ::
        && Carries(s, row.to, row.wantsReport, c)
        && r.sent == s.sent + [Delivery(id, row.to, row.from, c)]
        && r.links == s.links[id := s.links[id].(fired := true)]
        && r.tasks == s.tasks[row.from := s.tasks[row.from].(reply := Some(Quoted(id, row.to, c)))]
  {
    assert Carries(s, row.to, row.wantsReport, Output(row.to, s.tasks[row.to], row.wantsReport));
  }

  // Otherwise nothing is delivered. The link waits while its source is not done or
  // not accepted, and a pipe also when its source is gone; else it is marked.
  lemma NothingDelivered(s: State, id: LinkId, row: LinkRow)
    requires id in s.links
    requires var source, target := if row.pipe then row.from else row.to, if row.pipe then row.to else row.from;
      || source !in s.tasks || s.tasks[source].status != Done || (s.tasks[source].brief && !s.tasks[source].orch.accepted)
      || target !in s.tasks || s.tasks[target].status == Cancelled || (row.pipe && s.tasks[target].status == Done)
    ensures var r := Fired(s, id, row);
      var source := if row.pipe then row.from else row.to;
      var waits := if source in s.tasks then s.tasks[source].status != Done || (s.tasks[source].brief && !s.tasks[source].orch.accepted)
                   else row.pipe;
      r == if waits then s else s.(links := s.links[id := s.links[id].(fired := true)])
  {
  }

  function Passed(s: State, selected: map<LinkId, LinkRow>, pending: seq<LinkId>): (r: State)
    requires forall id :: id in pending ==> id in s.links && id in selected
    ensures r.links.Keys == s.links.Keys
  {
    if pending == [] then s
    else
      var last := pending[|pending| - 1];
      Fired(Passed(s, selected, pending[..|pending| - 1]), last, selected[last])
  }

  // A pass takes its links in turn, none left out.
  lemma PassSteps(s: State, selected: map<LinkId, LinkRow>, pending: seq<LinkId>, k: nat)
    requires k < |pending| && forall id :: id in pending ==> id in s.links && id in selected
    ensures Passed(s, selected, pending[..0]) == s && Passed(s, selected, pending[..|pending|]) == Passed(s, selected, pending)
    ensures Passed(s, selected, pending[..k + 1]) == Fired(Passed(s, selected, pending[..k]), pending[k], selected[pending[k]])
  {
    assert pending[..|pending|] == pending && pending[..k + 1][..k] == pending[..k];
  }

  // ---- runs, together with the orchestrator ------------------------------------------------

  datatype Action =
    | Fire(link: LinkId, row: LinkRow)   // `row`: the link as some pass selected it
    | Check(task: TaskId, alive: bool)   // the orchestrator's reconcile of a task
    | Others(now: State)

  datatype Moment = Moment(s: State, a: Action)

  // Everybody else: any change to rows and links that writes no acceptance, and
  // neither re-arms a link nor changes what it connects.
  ghost predicate Elsewhere(s: State, t: State) {
    && t.sent == s.sent
    && (forall id :: id in t.tasks && t.tasks[id].orch.accepted ==> id in s.tasks && s.tasks[id].orch.accepted)
    && (forall id :: id in s.links ==> id in t.links && t.links[id] == s.links[id].(revoked := t.links[id].revoked))
  }

  ghost predicate Goes(s: State, a: Action, maxRespawns: int, t: State) {
    match a
    case Fire(id, row) =>
      && id in s.links && !s.links[id].fired && row == s.links[id].(revoked := row.revoked)
      && t == Fired(s, id, row)
    case Check(id, alive) =>
      id in s.tasks && t == s.(tasks := s.tasks[id := Checked(s.tasks[id], alive, maxRespawns)])
    case Others(now) => t == now && Elsewhere(s, t)
  }

  ghost predicate Starts(s: State) {
    s.sent == [] && forall id :: id in s.tasks ==> !s.tasks[id].orch.accepted
  }

  ghost predicate IsRun(run: seq<Moment>, end: State, maxRespawns: int) {
    if run == [] then Starts(end)
    else
      var last := run[|run| - 1];
      IsRun(run[..|run| - 1], last.s, maxRespawns) && Goes(last.s, last.a, maxRespawns, end)
  }

  // Links that have delivered are fired, and no two deliveries share a link.
  ghost predicate OneShot(s: State) {
    && (forall i :: 0 <= i < |s.sent| ==> s.sent[i].link in s.links && s.links[s.sent[i].link].fired)
    && forall i, j :: 0 <= i < j < |s.sent| ==> s.sent[i].link != s.sent[j].link
  }

  lemma {:induction false} DeliversOnce(run: seq<Moment>, end: State, maxRespawns: int)
    requires IsRun(run, end, maxRespawns)
    ensures OneShot(end)
    decreases |run|
  {
    if run != [] {
      var last := run[|run| - 1];
      DeliversOnce(run[..|run| - 1], last.s, maxRespawns);
    }
  }

  // At this moment the orchestrator accepts a valid Report of the task.
  ghost predicate Accepts(m: Moment, id: TaskId, maxRespawns: int) {
    && m.a.Check? && m.a.task == id && id in m.s.tasks
    && Decide(m.s.tasks[id], m.a.alive, maxRespawns) == Accept
  }

  // What Accept asks for: a valid Report on a task that is done.
  ghost predicate Presentable(r: Row) {
    r.brief && r.status == Done && ReportOk(r) && !r.orch.managed
  }

  lemma AcceptsValid(m: Moment, id: TaskId, maxRespawns: int)
    requires Accepts(m, id, maxRespawns)
    ensures Presentable(m.s.tasks[id])
  {
  }

  lemma {:induction false} AcceptedOnlyByCheck(run: seq<Moment>, end: State, maxRespawns: int, id: TaskId)
    requires IsRun(run, end, maxRespawns) && id in end.tasks && end.tasks[id].orch.accepted
    ensures exists k :: 0 <= k < |run| && Accepts(run[k], id, maxRespawns)
    decreases |run|
  {
    var n := |run| - 1;
    if n < 0 {
      assert false;
    } else if id in run[n].s.tasks && run[n].s.tasks[id].orch.accepted {
      AcceptedOnlyByCheck(run[..n], run[n].s, maxRespawns, id);
      var k :| 0 <= k < n && Accepts(run[..n][k], id, maxRespawns);
      assert Accepts(run[k], id, maxRespawns);
    } else {
      assert Accepts(run[n], id, maxRespawns);
    }
  }

  // A payload leaves a Brief-managed task only after the orchestrator accepted
  // a valid Report of it, and any payload leaves only a task that is done.
  lemma SendsOnlyVetted(run: seq<Moment>, end: State, maxRespawns: int, j: nat)
    requires IsRun(run, end, maxRespawns) && j < |run| && run[j].a.Fire?
    requires Decided(run[j].s.tasks, run[j].a.row) == Send
    ensures var id, s := Source(run[j].a.row), run[j].s;
      && id in s.tasks && s.tasks[id].status == Done
      && (s.tasks[id].brief ==>
            exists k :: 0 <= k < j && Accepts(run[k], id, maxRespawns) && Presentable(run[k].s.tasks[id]))
  {
    var id, s := Source(run[j].a.row), run[j].s;
    PrefixIsRun(run, end, maxRespawns, j);
    if s.tasks[id].brief {
      AcceptedOnlyByCheck(run[..j], s, maxRespawns, id);
      var k :| 0 <= k < j && Accepts(run[..j][k], id, maxRespawns);
      AcceptsValid(run[k], id, maxRespawns);
      assert Accepts(run[k], id, maxRespawns);
    }
  }

  lemma {:induction false} PrefixIsRun(run: seq<Moment>, end: State, maxRespawns: int, j: nat)
    requires IsRun(run, end, maxRespawns) && j < |run|
    ensures IsRun(run[..j], run[j].s, maxRespawns)
    decreases |run|
  {
    var n := |run| - 1;
    if j < n {
      PrefixIsRun(run[..n], run[n].s, maxRespawns, j);
      assert run[..n][..j] == run[..j];
    }
  }

  // Every delivery is the work of one Fire step that decided to send.
  lemma {:induction false} SentByFire(run: seq<Moment>, end: State, maxRespawns: int, i: nat)
    requires IsRun(run, end, maxRespawns) && i < |end.sent|
    ensures exists j :: 0 <= j < |run| && Sends(run[j], end.sent[i])
    decreases |run|
  {
    var n := |run| - 1;
    if n < 0 {
      assert false;
    } else if i < |run[n].s.sent| {
      SentByFire(run[..n], run[n].s, maxRespawns, i);
      var j :| 0 <= j < n && Sends(run[..n][j], run[n].s.sent[i]);
      assert Sends(run[j], end.sent[i]);
    } else {
      assert Sends(run[n], end.sent[i]);
    }
  }

  ghost predicate Sends(m: Moment, d: Delivery) {
    && m.a.Fire? && m.a.link == d.link && Decided(m.s.tasks, m.a.row) == Send
    && d.source == Source(m.a.row) && d.to == Target(m.a.row)
    && d.content == Output(d.source, m.s.tasks[d.source], m.a.row.wantsReport)
  }
}
