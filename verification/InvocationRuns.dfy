// What must become of an invocation: where its result comes from, that its
// runner gets to the end, and what submissions and cancellations do.
module InvocationRuns {
  import opened Domain
  import opened Schema
  import opened Invocations

  // ---- where a result comes from -----------------------------------------------------------

  // At this step the result is decided, and d is what decides it: a submission
  // that has arrived, else how the Hand ended.
  ghost predicate Decisive(s: State, step: Step, d: Envelope) {
    match step
    case Begin(false) => s.phase == Queued && d.action == Action.Error && d.content == None && d.reason == Some("no_hand_registered")
    case HandEnds(how) =>
      && s.phase == Executing
      && if s.external.Some? then s.external == Some(d) else EndsAs(how, s.cancelled, d)
    case _ => false
  }

  ghost predicate EndsAs(how: Ending, cancelled: Option<string>, d: Envelope) {
    match how
    case Returned(e) => d == e
    case TimedOut => d.action == Action.Cancel && d.content == None && d.reason == Some("deadline_exceeded")
    case Interrupted =>
      && d.action == Action.Cancel && d.content == None
      && d.reason == Some(if cancelled.Some? && cancelled.value != "" then cancelled.value else "operator_cancelled")
    case Crashed => d.action == Action.Error && d.content == None && d.reason == Some("hand_crash")
  }

  // What is stored for it: an error if an accept's content is text or does not
  // fit the schema asked for, else the very envelope.
  ghost predicate Settles(check: Option<Checker>, d: Envelope, r: Envelope) {
    if d.action == Action.Accept && check.Some? && d.content.Some?
       && (d.content.value.Text? || check.value(d.content.value.fields) != Fits)
    then r.action == Action.Error && r.content == None && r.reason == Some("schema_mismatch")
    else r == d
  }

  ghost predicate DecidedBy(start: State, steps: seq<Step>, i: nat, r: Envelope)
    requires i < |steps|
  {
    exists d :: Decisive(Run(start, steps[..i]), steps[i], d) && Settles(start.check, d, r)
  }

  lemma DecidedStep(s: State, step: Step)
    requires ResultOf(s.phase) == None && ResultOf(Apply(s, step).phase).Some?
    ensures exists d :: Decisive(s, step, d) && Settles(s.check, d, ResultOf(Apply(s, step).phase).value)
  {
    var d := if step.Begin? then Envelope(Action.Error, None, Some("no_hand_registered"))
             else if s.external.Some? then s.external.value else Natural(step.how, s.cancelled);
    assert Decisive(s, step, d);
  }

  lemma ResultStays(s: State, step: Step)
    requires ResultOf(s.phase).Some?
    ensures ResultOf(Apply(s, step).phase) == ResultOf(s.phase)
  {
  }

  lemma {:induction false} ResultDecided(start: State, steps: seq<Step>) returns (i: nat)
    requires ResultOf(start.phase) == None && ResultOf(Run(start, steps).phase).Some?
    ensures i < |steps| && DecidedBy(start, steps, i, ResultOf(Run(start, steps).phase).value)
  {
    var n := |steps| - 1;
    var front := steps[..n];
    RunFixed(start, front);
    if ResultOf(Run(start, front).phase).Some? {
      i := ResultDecided(start, front);
      ResultStays(Run(start, front), steps[n]);
      assert front[..i] == steps[..i];
    } else {
      i := n;
      DecidedStep(Run(start, front), steps[n]);
    }
  }

  // Every stored result was decided at one step of the run.
  lemma ResultComesFrom(schema: Option<Fields>, human: bool, hasParent: bool, steps: seq<Step>)
    ensures var start := Initial(schema, human, hasParent);
      var s := Run(start, steps);
      s.result.Some? ==> exists i :: 0 <= i < |steps| && DecidedBy(start, steps, i, s.result.value)
  {
    var start := Initial(schema, human, hasParent);
    RunKeeps(start, steps);
    if Run(start, steps).result.Some? {
      var i := ResultDecided(start, steps);
    }
  }

  // ---- submissions ---------------------------------------------------------------------------

  // Submitted while the row was running and the runner there.
  ghost predicate InTime(start: State, steps: seq<Step>, e: Envelope) {
    exists i :: 0 <= i < |steps| && steps[i] == Submit(e) && Run(start, steps[..i]).status == Running && !Run(start, steps[..i]).phase.Over?
  }

  ghost function Delivered(s: State, steps: seq<Step>): seq<Envelope> {
    if steps == [] then []
    else
      var front, last := Run(s, steps[..|steps| - 1]), steps[|steps| - 1];
      var before := Delivered(s, steps[..|steps| - 1]);
      if last.Deliver? && last.k < |front.submitting| then before + [front.submitting[last.k]] else before
  }

  ghost function Decisions(tape: seq<Event>): seq<Envelope> {
    if tape == [] then []
    else
      var last, before := tape[|tape| - 1], Decisions(tape[..|tape| - 1]);
      if last.Decision? then before + [last.result] else before
  }

  lemma DecisionsAdd(tape: seq<Event>, e: Event)
    ensures Decisions(tape + [e]) == if e.Decision? then Decisions(tape) + [e.result] else Decisions(tape)
  {
    assert (tape + [e])[..|tape|] == tape;
  }

  lemma InTimeLater(start: State, steps: seq<Step>, step: Step, e: Envelope)
    requires InTime(start, steps, e)
    ensures InTime(start, steps + [step], e)
  {
    var i :| 0 <= i < |steps| && steps[i] == Submit(e) && Run(start, steps[..i]).status == Running && !Run(start, steps[..i]).phase.Over?;
    assert (steps + [step])[..i] == steps[..i] && (steps + [step])[i] == steps[i];
  }

  lemma InTimeNow(start: State, steps: seq<Step>, e: Envelope)
    requires Run(start, steps).status == Running && !Run(start, steps).phase.Over?
    ensures InTime(start, steps + [Submit(e)], e)
  {
    assert (steps + [Submit(e)])[..|steps|] == steps && (steps + [Submit(e)])[|steps|] == Submit(e);
  }

  // Only submissions made in time are delivered.
  lemma {:induction false} DeliveredInTime(start: State, steps: seq<Step>, e: Envelope)
    requires start.submitting == []
    requires e in Run(start, steps).submitting || e in Delivered(start, steps)
    ensures InTime(start, steps, e)
    decreases |steps|
  {
    if steps != [] {
      var n := |steps| - 1;
      var front, last := steps[..n], steps[n];
      assert steps == front + [last];
      if e in Run(start, front).submitting || e in Delivered(start, front) {
        DeliveredInTime(start, front, e);
        InTimeLater(start, front, last, e);
      } else {
        assert last == Submit(e);
        InTimeNow(start, front, e);
      }
    }
  }

  lemma DecisionsOn(s: State, step: Step)
    ensures var d := if step.Deliver? && step.k < |s.submitting| && s.human then [s.submitting[step.k]] else [];
      Decisions(Apply(s, step).tape) == Decisions(s.tape) + d
  {
    var t := Apply(s, step).tape;
    assert s.tape + [] == s.tape && Decisions(s.tape) + [] == Decisions(s.tape);
    if t != s.tape { DecisionsAdd(s.tape, t[|s.tape|]); }
  }

  lemma DeliveredOn(start: State, steps: seq<Step>)
    requires steps != []
    ensures var front, last := steps[..|steps| - 1], steps[|steps| - 1];
      var s := Run(start, front);
      Delivered(start, steps) ==
        Delivered(start, front) + if last.Deliver? && last.k < |s.submitting| then [s.submitting[last.k]] else []
  {
  }

  lemma ExternalOn(s: State, step: Step)
    ensures Apply(s, step).external ==
      if step.Deliver? && step.k < |s.submitting| && s.external == None then Some(s.submitting[step.k]) else s.external
  {
  }

  // The first delivery is the one kept.
  lemma {:induction false} FirstKept(start: State, steps: seq<Step>)
    requires start.external == None
    ensures var d := Delivered(start, steps);
      Run(start, steps).external == if d == [] then None else Some(d[0])
  {
    if steps != [] {
      var n := |steps| - 1;
      FirstKept(start, steps[..n]);
      ExternalOn(Run(start, steps[..n]), steps[n]);
    }
  }

  // A human's submissions are all on the tape, nobody else's are.
  lemma {:induction false} DecisionsTold(start: State, steps: seq<Step>)
    requires Decisions(start.tape) == []
    ensures Decisions(Run(start, steps).tape) == if start.human then Delivered(start, steps) else []
  {
    if steps != [] {
      var n := |steps| - 1;
      var s := Run(start, steps[..n]);
      DecisionsTold(start, steps[..n]);
      RunFixed(start, steps[..n]);
      DecisionsOn(s, steps[n]);
      DeliveredOn(start, steps);
    }
  }

  // An accepted or declined result is an envelope that the Hand returned, or one
  // that was submitted in time.
  lemma AcceptsWereOffered(schema: Option<Fields>, human: bool, hasParent: bool, steps: seq<Step>)
    requires var s := Run(Initial(schema, human, hasParent), steps); s.result.Some? && s.result.value.action in {Action.Accept, Decline}
    ensures var start := Initial(schema, human, hasParent);
      var r := Run(start, steps).result.value;
      HandEnds(Returned(r)) in steps || InTime(start, steps, r)
  {
    var start := Initial(schema, human, hasParent);
    var r := Run(start, steps).result.value;
    ResultComesFrom(schema, human, hasParent, steps);
    var i :| 0 <= i < |steps| && DecidedBy(start, steps, i, r);
    var d :| Decisive(Run(start, steps[..i]), steps[i], d) && Settles(start.check, d, r);
    if Run(start, steps[..i]).external.Some? {
      FirstKept(start, steps[..i]);
      DeliveredInTime(start, steps[..i], r);
      InTimeMore(start, steps, i, r);
    } else {
      assert steps[i] in steps;
    }
  }

  lemma InTimeMore(start: State, steps: seq<Step>, n: nat, e: Envelope)
    requires n <= |steps| && InTime(start, steps[..n], e)
    ensures InTime(start, steps, e)
  {
    var i :| 0 <= i < n && steps[..n][i] == Submit(e) && Run(start, steps[..n][..i]).status == Running
      && !Run(start, steps[..n][..i]).phase.Over?;
    assert steps[..n][..i] == steps[..i];
  }

  // ---- getting there -----------------------------------------------------------------------------

  // A step of somebody other than the runner.
  predicate Outside(step: Step) {
    step.Submit? || step.Deliver? || step.CancelRun? || step.TapeGrows? || step.ParentGrows? || step.HandWrites?
  }

  lemma OutsideStep(s: State, step: Step)
    requires Outside(step)
    ensures Apply(s, step).phase == s.phase
  {
  }

  lemma {:induction false} OutsideLeaves(s: State, steps: seq<Step>)
    requires forall i :: 0 <= i < |steps| ==> Outside(steps[i])
    ensures Run(s, steps).phase == s.phase
    decreases |steps|
  {
    if steps != [] {
      OutsideLeaves(s, steps[..|steps| - 1]);
      OutsideStep(Run(s, steps[..|steps| - 1]), steps[|steps| - 1]);
    }
  }

  // Others' steps, then one of the runner's.
  lemma OutsideThen(s: State, steps: seq<Step>, step: Step)
    requires Inv(s) && forall i :: 0 <= i < |steps| ==> Outside(steps[i])
    ensures var t := Run(s, steps);
      && t.phase == s.phase && Inv(Apply(t, step))
      && Apply(t, step).check == s.check && Apply(t, step).hasParent == s.hasParent
  {
    OutsideLeaves(s, steps);
    RunKeeps(s, steps);
    RunFixed(s, steps);
    InvKept(Run(s, steps), step);
  }

  lemma OverMeans(s: State, r: Envelope)
    requires Inv(s) && s.phase == Over(r)
    ensures s.result == Some(r) && Ends(s.tape) == [r] && Handoffs(s.parent) == if s.hasParent then [r] else []
    ensures s.status == match r.action
      case Accept => Completed case Decline => Completed case Cancel => Standing.Cancelled case _ => Errored
  {
  }

  // Once its result is judged, a runner that goes on writes `done`, stores the
  // result and hands it over, whatever others do in between.
  lemma RunnerFinishes(s: State, a: seq<Step>, b: seq<Step>, c: seq<Step>)
    requires Inv(s) && s.phase.Judged?
    requires forall x :: x in a || x in b || x in c ==> Outside(x)
    ensures var s1 := Apply(Run(s, a), WriteDone);
      var s2 := Apply(Run(s1, b), Store);
      var s3 := Apply(Run(s2, c), HandOver);
      var r := s.phase.r;
      && s3.phase == Over(r) && s3.result == Some(r)
      && s3.status == (match r.action case Accept => Completed case Decline => Completed
                       case Cancel => Standing.Cancelled case _ => Errored)
      && Ends(s3.tape) == [r] && Handoffs(s3.parent) == if s.hasParent then [r] else []
  {
    OutsideThen(s, a, WriteDone);
    var s1 := Apply(Run(s, a), WriteDone);
    OutsideThen(s1, b, Store);
    var s2 := Apply(Run(s1, b), Store);
    OutsideThen(s2, c, HandOver);
    OverMeans(Apply(Run(s2, c), HandOver), s.phase.r);
  }

  // What an executing runner makes of the Hand's end.
  lemma HandEndsJudged(s: State, how: Ending)
    requires s.phase == Executing
    ensures var t := Apply(s, HandEnds(how));
      exists d :: Decisive(s, HandEnds(how), d) &&
        if t.phase == Dead then Breaks(s.check, d) else t.phase.Judged? && Settles(s.check, d, t.phase.r)
  {
    var d := if s.external.Some? then s.external.value else Natural(how, s.cancelled);
    assert Decisive(s, HandEnds(how), d);
  }

  ghost predicate Breaks(check: Option<Checker>, d: Envelope) {
    && d.action == Action.Accept && d.content.Some? && d.content.value.Dict?
    && check.Some? && check.value(d.content.value.fields) == Broken
  }

  // A runner gets there: it begins, and when the Hand ends, the result is judged,
  // unless the content check breaks on it.
  lemma RunnerJudges(schema: Option<Fields>, human: bool, hasParent: bool, a: seq<Step>, b: seq<Step>, how: Ending)
    requires forall x :: x in a || x in b ==> Outside(x)
    ensures var s0 := Run(Initial(schema, human, hasParent), a);
      var s1 := Run(Apply(s0, Begin(true)), b);
      var s2 := Apply(s1, HandEnds(how));
      && Apply(s0, Begin(false)).phase == Judged(Envelope(Action.Error, None, Some("no_hand_registered")))
      && exists d :: Decisive(s1, HandEnds(how), d) &&
           if s2.phase == Dead then Breaks(s1.check, d) else s2.phase.Judged? && Settles(s1.check, d, s2.phase.r)
  {
    var start := Initial(schema, human, hasParent);
    OutsideLeaves(start, a);
    OutsideLeaves(Apply(Run(start, a), Begin(true)), b);
    HandEndsJudged(Run(Apply(Run(start, a), Begin(true)), b), how);
  }

  // A submission made while the invocation runs arrives, and is the one that
  // counts if it is the first; a later one is refused for good. Likewise a cancel.
  lemma SubmissionArrives(s: State, e: Envelope, reason: string)
    ensures s.status == Running && !s.phase.Over? ==>
      && Apply(Apply(s, Submit(e)), Deliver(|s.submitting|)).external == (if s.external.Some? then s.external else Some(e))
      && Apply(s, CancelRun(reason)).cancelled == if s.cancelled.Some? then s.cancelled else Some(reason)
    ensures s.status != Running || s.phase.Over? ==> Apply(s, Submit(e)) == s && Apply(s, CancelRun(reason)) == s
  {
  }
}
