// One invocation from its creation to its handoff. The runner, submitters,
// cancellers and writers of the two tapes take their steps in any order; every
// await is a step boundary.
module Invocations {
  import opened Domain
  import opened Schema

  datatype Action = Accept | Decline | Cancel | Error | Pending

  datatype Content = Text(s: string) | Dict(fields: Fields)

  datatype Envelope = Envelope(action: Action, content: Option<Content>, reason: Option<string>)

  datatype Standing = Running | Completed | Cancelled | Errored

  function ActionToStatus(a: Action): Standing {
    match a
    case Accept => Completed
    case Decline => Completed
    case Cancel => Standing.Cancelled
    case _ => Errored
  }

  // What the tapes hold: this invocation's own end, its handoff, and the rest.
  datatype Event = Finished(result: Envelope) | Handoff(result: Envelope) | Decision(result: Envelope) | Other

  datatype Phase = Queued | Executing | Judged(r: Envelope) | Told(r: Envelope) | Stored(r: Envelope)
                 | Over(r: Envelope) | Dead

  datatype State = State(
    check: Option<Checker>,         // the content check of the schema asked for
    human: bool,
    hasParent: bool,
    phase: Phase,                   // of the runner
    status: Standing,               // the row
    result: Option<Envelope>,       // the row
    tape: seq<Event>,
    parent: seq<Event>,             // the parent's tape
    external: Option<Envelope>,     // the future of submit_result
    cancelled: Option<string>,
    submitting: seq<Envelope>)      // submissions let through but not yet delivered

  // How the Hand ends.
  datatype Ending = Returned(e: Envelope) | TimedOut | Interrupted | Crashed

  datatype Step =
    | Begin(registered: bool) | HandWrites | HandEnds(how: Ending)
    | WriteDone | Store | HandOver
    | Submit(e: Envelope) | Deliver(k: nat) | CancelRun(reason: string)
    | TapeGrows | ParentGrows     // written by others

  type Checker = Fields -> Check

  function CheckOf(schema: Fields): Checker {
    (content: Fields) => ValidateContent(schema, Obj(content))
  }

  function Initial(schema: Option<Fields>, human: bool, hasParent: bool): State {
    var check := if schema.Some? then Some(CheckOf(schema.value)) else None;
    State(check, human, hasParent, Queued, Running, None, [], [], None, None, [])
  }

  function Natural(how: Ending, cancelled: Option<string>): Envelope {
    match how
    case Returned(e) => e
    case TimedOut => Envelope(Cancel, None, Some("deadline_exceeded"))
    case Interrupted =>
      Envelope(Cancel, None, if cancelled.Some? && cancelled.value != "" then cancelled else Some("operator_cancelled"))
    case Crashed => Envelope(Error, None, Some("hand_crash"))
  }

  const MISMATCH := Envelope(Error, None, Some("schema_mismatch"))

  // The content check of an accepted result. None: an exception nobody catches.
  function Judge(check: Option<Checker>, e: Envelope): Option<Envelope> {
    if e.action != Accept || check.None? || e.content.None? then Some(e)
    else if e.content.value.Text? then Some(MISMATCH)
    else
      match check.value(e.content.value.fields)
      case Fits => Some(e)
      case Broken => None
      case _ => Some(MISMATCH)
  }

  // A step that is not enabled leaves the state alone.
  function Apply(s: State, step: Step): State {
    match step
    case Begin(registered) =>
      if s.phase != Queued then s
      else s.(tape := s.tape + [Other],
              phase := if registered then Executing else Judged(Envelope(Error, None, Some("no_hand_registered"))))
    case HandWrites => if s.phase == Executing then s.(tape := s.tape + [Other]) else s
    case HandEnds(how) =>
      if s.phase != Executing then s
      else
        var r := Judge(s.check, if s.external.Some? then s.external.value else Natural(how, s.cancelled));
        s.(phase := if r.Some? then Judged(r.value) else Dead)
    case WriteDone => if s.phase.Judged? then s.(tape := s.tape + [Finished(s.phase.r)], phase := Told(s.phase.r)) else s
    case Store =>
      if !s.phase.Told? then s
      else if s.status == Running then
        s.(status := ActionToStatus(s.phase.r.action), result := Some(s.phase.r), phase := Stored(s.phase.r))
      else s.(phase := Stored(s.phase.r))
    case HandOver =>
      if !s.phase.Stored? then s
      else s.(parent := s.parent + (if s.hasParent then [Handoff(s.phase.r)] else []), phase := Over(s.phase.r))
    case Submit(e) =>   // refused once the row is terminal or the runner gone
      if s.status == Running && !s.phase.Over? then s.(submitting := s.submitting + [e]) else s
    case Deliver(k) =>
      if k >= |s.submitting| then s
      else
        var e := s.submitting[k];
        s.(submitting := s.submitting[..k] + s.submitting[k + 1..],
           tape := s.tape + (if s.human then [Decision(e)] else []),
           external := if s.external.Some? then s.external else Some(e))
    case CancelRun(reason) =>
      if s.status == Running && !s.phase.Over? && s.cancelled.None? then s.(cancelled := Some(reason)) else s
    case TapeGrows => s.(tape := s.tape + [Other])
    case ParentGrows => s.(parent := s.parent + [Other])
  }

  function Run(s: State, steps: seq<Step>): State {
    if steps == [] then s else Apply(Run(s, steps[..|steps| - 1]), steps[|steps| - 1])
  }

  // ---- the invariant -----------------------------------------------------------------------

  // The results of the events that end the invocation, or hand it over.
  function Ends(tape: seq<Event>): seq<Envelope> {
    if tape == [] then []
    else Ends(tape[..|tape| - 1]) + if tape[|tape| - 1].Finished? then [tape[|tape| - 1].result] else []
  }

  function Handoffs(tape: seq<Event>): seq<Envelope> {
    if tape == [] then []
    else Handoffs(tape[..|tape| - 1]) + if tape[|tape| - 1].Handoff? then [tape[|tape| - 1].result] else []
  }

  lemma Appended(tape: seq<Event>, e: Event)
    ensures Ends(tape + [e]) == Ends(tape) + if e.Finished? then [e.result] else []
    ensures Handoffs(tape + [e]) == Handoffs(tape) + if e.Handoff? then [e.result] else []
    ensures tape + [] == tape
  {
    assert (tape + [e])[..|tape|] == tape;
  }

  // Accepted content conforms to the schema asked for.
  predicate Lawful(check: Option<Checker>, e: Envelope) {
    e.action == Accept && check.Some? && e.content.Some? ==>
      e.content.value.Dict? && check.value(e.content.value.fields) == Fits
  }

  lemma JudgedLawful(check: Option<Checker>, e: Envelope)
    ensures Judge(check, e).Some? ==> Lawful(check, Judge(check, e).value)
  {
  }

  // What the tapes tell, and the row.
  datatype Account = Account(ends: seq<Envelope>, handoffs: seq<Envelope>, status: Standing, result: Option<Envelope>)

  function AccountOf(s: State): Account {
    Account(Ends(s.tape), Handoffs(s.parent), s.status, s.result)
  }

  // How far they have come in each phase of the runner.
  function Expected(phase: Phase, hasParent: bool): Account {
    match phase
    case Told(r) => Account([r], [], Running, None)
    case Stored(r) => Account([r], [], ActionToStatus(r.action), Some(r))
    case Over(r) => Account([r], if hasParent then [r] else [], ActionToStatus(r.action), Some(r))
    case _ => Account([], [], Running, None)
  }

  function ResultOf(phase: Phase): Option<Envelope> {
    match phase
    case Judged(r) => Some(r)
    case Told(r) => Some(r)
    case Stored(r) => Some(r)
    case Over(r) => Some(r)
    case _ => None
  }

  ghost predicate Inv(s: State) {
    && AccountOf(s) == Expected(s.phase, s.hasParent)
    && (ResultOf(s.phase).Some? ==> Lawful(s.check, ResultOf(s.phase).value))
  }

  // Steps that leave the runner and the row alone and end nothing.
  lemma InvElsewhere(s: State, t: State)
    requires Inv(s) && t.phase == s.phase && t.check == s.check && t.hasParent == s.hasParent
    requires AccountOf(t) == AccountOf(s)
    ensures Inv(t)
  {
  }

  lemma InvBegin(s: State, registered: bool)
    requires Inv(s)
    ensures Inv(Apply(s, Begin(registered)))
  {
    Appended(s.tape, Other);
  }

  lemma InvHandEnds(s: State, how: Ending)
    requires Inv(s)
    ensures Inv(Apply(s, HandEnds(how)))
  {
    JudgedLawful(s.check, if s.external.Some? then s.external.value else Natural(how, s.cancelled));
  }

  lemma InvWriteDone(s: State)
    requires Inv(s)
    ensures Inv(Apply(s, WriteDone))
  {
    if s.phase.Judged? {
      Appended(s.tape, Finished(s.phase.r));
    }
  }

  lemma InvStore(s: State)
    requires Inv(s)
    ensures Inv(Apply(s, Store))
  {
  }

  lemma InvHandOver(s: State)
    requires Inv(s)
    ensures Inv(Apply(s, HandOver))
  {
    if s.phase.Stored? {
      Appended(s.parent, Handoff(s.phase.r));
    }
  }

  lemma AccountKept(s: State, step: Step)
    requires !step.Begin? && !step.HandEnds? && !step.WriteDone? && !step.Store? && !step.HandOver?
    ensures AccountOf(Apply(s, step)) == AccountOf(s)
  {
    match step {
      case HandWrites => Appended(s.tape, Other);
      case TapeGrows => Appended(s.tape, Other);
      case ParentGrows => Appended(s.parent, Other);
      case Deliver(k) =>
        if k < |s.submitting| {
          Appended(s.tape, Decision(s.submitting[k]));
        }
      case _ =>
    }
  }

  lemma InvKept(s: State, step: Step)
    requires Inv(s)
    ensures Inv(Apply(s, step))
  {
    match step {
      case Begin(registered) => InvBegin(s, registered);
      case HandEnds(how) => InvHandEnds(s, how);
      case WriteDone => InvWriteDone(s);
      case Store => InvStore(s);
      case HandOver => InvHandOver(s);
      case _ =>
        AccountKept(s, step);
        InvElsewhere(s, Apply(s, step));
    }
  }

  lemma {:induction false} RunKeeps(s: State, steps: seq<Step>)
    requires Inv(s)
    ensures Inv(Run(s, steps))
  {
    if steps != [] {
      RunKeeps(s, steps[..|steps| - 1]);
      InvKept(Run(s, steps[..|steps| - 1]), steps[|steps| - 1]);
    }
  }

  // ---- what is promised ----------------------------------------------------------------------

  // A finished invocation has exactly one `done`, and its envelope is the stored
  // result, sets the status, and is handed to the parent exactly once.
  lemma OneEnding(schema: Option<Fields>, human: bool, hasParent: bool, steps: seq<Step>)
    ensures var s := Run(Initial(schema, human, hasParent), steps);
      && |Ends(s.tape)| <= 1
      && (s.status != Running ==> s.result.Some? && Ends(s.tape) == [s.result.value])
      && (s.status == Completed ==> s.result.value.action in {Accept, Decline})
      && (s.status == Standing.Cancelled ==> s.result.value.action == Cancel)
      && (s.status == Errored ==> s.result.value.action in {Error, Pending})
      && (s.result.Some? ==> s.status != Running)
      && (s.result.Some? && schema.Some? ==> Lawful(Some(CheckOf(schema.value)), s.result.value))
      && (s.phase.Over? ==> s.status != Running && Handoffs(s.parent) == if hasParent then [s.result.value] else [])
      && (!s.phase.Over? ==> Handoffs(s.parent) == [])
  {
    var start := Initial(schema, human, hasParent);
    RunKeeps(start, steps);
    RunFixed(start, steps);
  }

  lemma {:induction false} RunFixed(s: State, steps: seq<Step>)
    ensures var t := Run(s, steps);
      t.check == s.check && t.human == s.human && t.hasParent == s.hasParent
  {
    if steps != [] {
      RunFixed(s, steps[..|steps| - 1]);
    }
  }

  // A terminal row is never written again.
  lemma {:induction false} TerminalForGood(s: State, steps: seq<Step>)
    requires s.status != Running
    ensures Run(s, steps).status == s.status && Run(s, steps).result == s.result
  {
    if steps != [] {
      TerminalForGood(s, steps[..|steps| - 1]);
    }
  }

  // The first submission delivered while the Hand still runs decides the
  // result, whatever the Hand, the deadline or a cancel make of it later.
  lemma {:induction false} SubmissionDecides(s: State, steps: seq<Step>)
    requires s.phase in {Queued, Executing} && s.external.Some?
    requires forall i :: 0 <= i < |steps| ==> steps[i] != Begin(false)
    ensures var t := Run(s, steps);
      && Decided(t.phase, Judge(s.check, s.external.value)) && t.external == s.external && t.check == s.check
  {
    if steps != [] {
      var front := steps[..|steps| - 1];
      SubmissionDecides(s, front);
      assert steps[|steps| - 1] != Begin(false);
    }
  }

  ghost predicate Decided(phase: Phase, r: Option<Envelope>) {
    (ResultOf(phase).Some? ==> ResultOf(phase) == r) && (phase == Dead ==> r == None)
  }

  // ---- the runner that dies ------------------------------------------------------------------

  lemma DiesNow(s: State, step: Step)
    requires s.phase != Dead && Apply(s, step).phase == Dead
    ensures s.check.Some? && exists content :: s.check.value(content) == Broken
  {
    var e := if s.external.Some? then s.external.value else Natural(step.how, s.cancelled);
    assert s.check.value(e.content.value.fields) == Broken;
  }

  lemma {:induction false} DiesByContent(start: State, steps: seq<Step>)
    requires start.phase != Dead && Run(start, steps).phase == Dead
    ensures start.check.Some? && exists content :: start.check.value(content) == Broken
  {
    var front := steps[..|steps| - 1];
    RunFixed(start, front);
    if Run(start, front).phase == Dead {
      DiesByContent(start, front);
    } else {
      DiesNow(Run(start, front), steps[|steps| - 1]);
    }
  }

  // The contents in these steps are ones a Python program can hold.
  ghost predicate Sendable(steps: seq<Step>) {
    forall i :: 0 <= i < |steps| ==>
      match steps[i]
      case Submit(e) => ProperContent(e)
      case HandEnds(Returned(e)) => ProperContent(e)
      case _ => true
  }

  ghost predicate ProperContent(e: Envelope) {
    e.content.Some? && e.content.value.Dict? ==> Proper(Obj(e.content.value.fields))
  }

  // For a schema the service accepts, a run can end without a `done` and with
  // the row stuck in `running` exactly when the schema can crash the check.
  lemma DiesExactlyWhen(schema: Fields, human: bool, hasParent: bool)
    requires ValidateSchema(schema) == Ok
    ensures CanCrash(schema) <==>
      exists steps :: Sendable(steps) && Run(Initial(Some(schema), human, hasParent), steps).phase == Dead
  {
    var start := Initial(Some(schema), human, hasParent);
    if CanCrash(schema) {
      CrashesExactlyWhen(schema);
      var content :| Proper(content) && ValidateContent(schema, content) == Broken;
      DiesOfContent(schema, content, start);
    }
    if steps :| Sendable(steps) && Run(start, steps).phase == Dead {
      DiesByContent(start, steps);
      var content :| start.check.value(content) == Broken;
      CrashMeans(schema, Obj(content));
    }
  }

  lemma DiesOfContent(schema: Fields, content: Json, start: State)
    requires Proper(content) && ValidateContent(schema, content) == Broken
    requires start.phase == Queued && start.external == None && start.check == Some(CheckOf(schema))
    ensures exists steps :: Sendable(steps) && Run(start, steps).phase == Dead
  {
    var e := Envelope(Accept, Some(Dict(content.fields)), None);
    assert content == Obj(content.fields);
    DiesOf(start, e);
  }

  lemma DiesOf(start: State, e: Envelope)
    requires start.phase == Queued && start.external == None && Judge(start.check, e) == None && ProperContent(e)
    ensures var steps := [Begin(true), HandEnds(Returned(e))]; Sendable(steps) && Run(start, steps).phase == Dead
  {
    var steps := [Begin(true), HandEnds(Returned(e))];
    assert steps[..1] == [Begin(true)] && steps[..1][..0] == [];
    assert Run(start, steps[..1]) == Apply(start, Begin(true));
  }

  // A dead runner stays dead, and its row running.
  lemma {:induction false} DeadForGood(s: State, steps: seq<Step>)
    requires Inv(s) && s.phase == Dead
    ensures var t := Run(s, steps); t.phase == Dead && t.status == Running && t.result == None && Ends(t.tape) == []
  {
    RunKeeps(s, steps);
    if steps != [] {
      DeadForGood(s, steps[..|steps| - 1]);
    }
  }
}
