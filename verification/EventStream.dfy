// GET /invocations/{id}/stream: a reader subscribes, replays the tape and then
// follows the live queue, while writers insert and announce events. Every
// await is a step boundary; runs interleave the steps freely.
module EventStream {
  import opened Domain

  datatype Event = Event(id: nat, done: bool)

  // What the watch queue delivers: events of this tape, and everything else
  // (other tapes, objects that are no events), which the reader skips.
  datatype Note = Ours(event: Event) | Foreign

  datatype Phase = Idle | Subscribed | Backlog(rest: seq<Event>) | Live | Closed

  datatype State = State(
    after: Option<int>,     // the query parameter
    log: seq<Event>,        // rows of the tape
    announced: nat,         // how many of them have been notified, in id order
    listed: bool,           // still among the service's subscribers
    queue: seq<Note>,
    joined: nat,            // announced when the reader subscribed
    phase: Phase,
    found: bool,            // the backlog had something for this reader
    last: int,
    emitted: seq<Event>)

  datatype Action =
    | Insert(done: bool) | Announce | AnnounceForeign
    | Subscribe | ReadBacklog | EmitBacklog | Receive | Leave

  function Initial(after: Option<int>): State {
    State(after, [], 0, false, [], 0, Idle, false, -1, [])
  }

  // put_nowait: a full queue costs the subscriber its place.
  function Push(s: State, n: Note): State {
    if !s.listed then s
    else if |s.queue| < CAPACITY then s.(queue := s.queue + [n])
    else s.(listed := false)
  }

  function Since(log: seq<Event>, after: Option<int>): seq<Event> {
    if after.None? || after.value < 0 then log
    else if after.value + 1 <= |log| then log[after.value + 1..]
    else []
  }

  function Emit(s: State, e: Event, phase: Phase): State {
    s.(emitted := s.emitted + [e], last := e.id,
       phase := if e.done then Closed else phase, listed := s.listed && !e.done)
  }

  // A step that is not enabled leaves the state alone.
  function Apply(s: State, a: Action): State {
    match a
    case Insert(done) => s.(log := s.log + [Event(|s.log|, done)])
    case Announce =>
      if s.announced < |s.log| then Push(s, Ours(s.log[s.announced])).(announced := s.announced + 1) else s
    case AnnounceForeign => Push(s, Foreign)
    case Subscribe =>
      if s.phase == Idle then s.(phase := Subscribed, listed := true, queue := [], joined := s.announced) else s
    case ReadBacklog =>
      if s.phase == Subscribed then s.(phase := Backlog(Since(s.log, s.after)), found := Since(s.log, s.after) != []) else s
    case EmitBacklog =>
      if !s.phase.Backlog? then s
      else if s.phase.rest == [] then s.(phase := Live)
      else Emit(s, s.phase.rest[0], Backlog(s.phase.rest[1..]))
    case Receive =>
      if s.phase != Live || s.queue == [] then s
      else
        var s' := s.(queue := s.queue[1..]);
        if s.queue[0].Foreign? || s.queue[0].event.id <= s.last then s'
        else Emit(s', s.queue[0].event, Live)
    case Leave =>   // timeout or client disconnect
      if s.phase == Idle then s else s.(phase := Closed, listed := false)
  }

  function Run(s: State, actions: seq<Action>): State {
    if actions == [] then s else Apply(Run(s, actions[..|actions| - 1]), actions[|actions| - 1])
  }

  // ---- the invariant -----------------------------------------------------------

  function OursOf(queue: seq<Note>): seq<Event> {
    if queue == [] then []
    else (if queue[0].Ours? then [queue[0].event] else []) + OursOf(queue[1..])
  }

  lemma {:induction false} OursOfAppend(queue: seq<Note>, n: Note)
    ensures OursOf(queue + [n]) == OursOf(queue) + (if n.Ours? then [n.event] else [])
  {
    if queue != [] {
      OursOfAppend(queue[1..], n);
      assert (queue + [n])[1..] == queue[1..] + [n];
    }
  }

  function Start(after: Option<int>): nat {
    if after.None? || after.value < 0 then 0 else after.value + 1
  }

  ghost predicate Numbered(log: seq<Event>) {
    forall i :: 0 <= i < |log| ==> log[i].id == i
  }

  // `es` is the piece of the log that starts at `from`.
  ghost predicate IsPiece(log: seq<Event>, from: nat, es: seq<Event>) {
    && from + |es| <= |log|
    && forall i :: 0 <= i < |es| ==> es[i] == log[from + i]
  }

  // `s.emitted` is a piece of the log and stops at the first `done` in it.
  ghost predicate Segment(s: State, base: nat) {
    && IsPiece(s.log, base, s.emitted)
    && (forall i :: 0 <= i < |s.emitted| && s.emitted[i].done ==> i == |s.emitted| - 1 && s.phase == Closed)
    && (s.emitted != [] ==> s.last == base + |s.emitted| - 1)
    && (s.emitted == [] ==> s.last == -1)
  }

  // The queue holds the announced events log[low..high] of this tape.
  ghost predicate Holds(s: State, low: nat, high: nat) {
    && s.joined <= low <= high <= s.announced <= |s.log|
    && |OursOf(s.queue)| == high - low && IsPiece(s.log, low, OursOf(s.queue))
    && (s.listed ==> high == s.announced)
  }

  // The reader is in step with the queue: nothing between what it has seen and
  // the queue's next event.
  ghost predicate InStep(s: State, base: nat, low: nat) {
    match s.phase
    case Idle => s.emitted == [] && !s.listed && !s.found
    case Subscribed => s.emitted == [] && low == s.joined && !s.found
    case Backlog(rest) =>
      && low == s.joined && base == Origin(s)
      && (s.found <==> s.emitted + rest != [])
      && IsPiece(s.log, base + |s.emitted|, rest)
      && (s.found ==> low <= base + |s.emitted| + |rest|)
      && (s.after == None && !s.found ==> s.joined == 0)
    case Live =>
      && low <= base + |s.emitted| && base == Origin(s)
      && (s.after == None ==> base == 0)
      && (s.found ==> s.emitted != [])
      && (s.emitted == [] ==> low == base == s.joined)
    case Closed =>
      s.emitted != [] ==> base == Origin(s) && (s.after == None ==> base == 0)
  }

  // Where the reader's piece of the tape starts: after `after`, or, when there
  // was no backlog, where it joined.
  ghost function Origin(s: State): nat {
    if s.found then Start(s.after) else s.joined
  }

  ghost predicate InvAt(s: State, base: nat, low: nat, high: nat) {
    Numbered(s.log) && Segment(s, base) && Holds(s, low, high) && InStep(s, base, low)
  }

  ghost predicate Inv(s: State) {
    exists base, low, high :: InvAt(s, base, low, high)
  }

  lemma InvInitial(after: Option<int>)
    ensures Inv(Initial(after))
  {
    assert InvAt(Initial(after), 0, 0, 0);
  }

  lemma HoldsPush(s: State, n: Note, s': State, low: nat, high: nat) returns (high': nat)
    requires Holds(s, low, high)
    requires match n
      case Ours(e) => s.announced < |s.log| && e == s.log[s.announced]
        && s' == Push(s, n).(announced := s.announced + 1)
      case Foreign => s' == Push(s, n)
    ensures Holds(s', low, high')
  {
    OursOfAppend(s.queue, n);
    high' := if n.Ours? && s.listed && |s.queue| < CAPACITY then high + 1 else high;
  }

  // The reader's own fields decide whether it is in step.
  lemma ReaderUntouched(s: State, s': State, base: nat, low: nat)
    requires Segment(s, base) && InStep(s, base, low)
    requires s' == s.(queue := s'.queue, listed := s'.listed, announced := s'.announced) && (s'.listed ==> s.listed)
    ensures Segment(s', base) && InStep(s', base, low)
  {
  }

  lemma InvPush(s: State, n: Note, s': State, base: nat, low: nat, high: nat)
    requires InvAt(s, base, low, high)
    requires match n
      case Ours(e) => s.announced < |s.log| && e == s.log[s.announced]
        && s' == Push(s, n).(announced := s.announced + 1)
      case Foreign => s' == Push(s, n)
    ensures Inv(s')
  {
    var high' := HoldsPush(s, n, s', low, high);
    ReaderUntouched(s, s', base, low);
    assert InvAt(s', base, low, high');
  }

  lemma InvInsert(s: State, done: bool, base: nat, low: nat, high: nat)
    requires InvAt(s, base, low, high)
    ensures Inv(Apply(s, Insert(done)))
  {
    assert InvAt(Apply(s, Insert(done)), base, low, high);
  }

  lemma InvSubscribe(s: State, base: nat, low: nat, high: nat)
    requires InvAt(s, base, low, high) && s.phase == Idle
    ensures Inv(Apply(s, Subscribe))
  {
    assert InvAt(Apply(s, Subscribe), 0, s.announced, s.announced);
  }

  lemma InvReadBacklog(s: State, base: nat, low: nat, high: nat)
    requires InvAt(s, base, low, high) && s.phase == Subscribed
    ensures Inv(Apply(s, ReadBacklog))
  {
    var base' := if Since(s.log, s.after) == [] then s.joined else Start(s.after);
    assert InvAt(Apply(s, ReadBacklog), base', low, high);
  }

  lemma SegmentEmit(s: State, e: Event, phase: Phase, base: nat)
    requires Segment(s, base) && s.phase != Closed && phase != Closed && Numbered(s.log)
    requires base + |s.emitted| < |s.log| && e == s.log[base + |s.emitted|]
    ensures Segment(Emit(s, e, phase), base)
  {
  }

  lemma InvEmitBacklog(s: State, base: nat, low: nat, high: nat)
    requires InvAt(s, base, low, high) && s.phase.Backlog?
    ensures Inv(Apply(s, EmitBacklog))
  {
    var s' := Apply(s, EmitBacklog);
    var rest := s.phase.rest;
    if rest != [] {
      SegmentEmit(s, rest[0], Backlog(rest[1..]), base);
    } else {
      assert s.emitted + rest == s.emitted;
    }
    assert InvAt(s', base, low, high);
  }

  lemma HoldsPop(s: State, low: nat, high: nat)
    requires Holds(s, low, high) && s.queue != []
    ensures s.queue[0].Foreign? ==> Holds(s.(queue := s.queue[1..]), low, high)
    ensures s.queue[0].Ours? ==>
      low < high && s.queue[0].event == s.log[low] && Holds(s.(queue := s.queue[1..]), low + 1, high)
  {
    var tail := OursOf(s.queue[1..]);
    if s.queue[0].Foreign? {
      assert OursOf(s.queue) == tail;
    } else {
      assert OursOf(s.queue)[0] == s.queue[0].event;
      assert forall i :: 0 <= i < |tail| ==> tail[i] == OursOf(s.queue)[i + 1];
    }
  }

  lemma InvReceive(s: State, base: nat, low: nat, high: nat)
    requires InvAt(s, base, low, high) && s.phase == Live && s.queue != []
    ensures Inv(Apply(s, Receive))
  {
    var popped := s.(queue := s.queue[1..]);
    HoldsPop(s, low, high);
    if s.queue[0].Foreign? {
      assert InvAt(popped, base, low, high);
    } else if low > s.last {
      SegmentEmit(popped, s.log[low], Live, base);
      assert InvAt(Emit(popped, s.log[low], Live), base, low + 1, high);
    } else {
      assert InvAt(popped, base, low + 1, high);
    }
  }

  lemma InvStep(s: State, a: Action)
    requires Inv(s)
    ensures Inv(Apply(s, a))
  {
    var base: nat, low: nat, high: nat :| InvAt(s, base, low, high);
    match a
    case Insert(done) => InvInsert(s, done, base, low, high);
    case Announce =>
      if s.announced < |s.log| { InvPush(s, Ours(s.log[s.announced]), Apply(s, a), base, low, high); }
    case AnnounceForeign => InvPush(s, Foreign, Apply(s, a), base, low, high);
    case Subscribe => if s.phase == Idle { InvSubscribe(s, base, low, high); }
    case ReadBacklog => if s.phase == Subscribed { InvReadBacklog(s, base, low, high); }
    case EmitBacklog => if s.phase.Backlog? { InvEmitBacklog(s, base, low, high); }
    case Receive => if s.phase == Live && s.queue != [] { InvReceive(s, base, low, high); }
    case Leave => assert InvAt(Apply(s, a), base, low, high);
  }

  lemma ApplyKeepsAfter(s: State, a: Action)
    ensures Apply(s, a).after == s.after
  {
  }

  lemma {:induction false} InvRun(s: State, actions: seq<Action>)
    requires Inv(s)
    ensures Inv(Run(s, actions)) && Run(s, actions).after == s.after
  {
    if actions != [] {
      var s' := Run(s, actions[..|actions| - 1]);
      InvRun(s, actions[..|actions| - 1]);
      InvStep(s', actions[|actions| - 1]);
      ApplyKeepsAfter(s', actions[|actions| - 1]);
    }
  }

  // ---- what a reader sees ------------------------------------------------------

  // Without `after`, in every interleaving, even past an overflow: the stream is
  // a prefix of the tape and nothing follows the first `done`.
  lemma StreamIsPrefix(actions: seq<Action>)
    ensures var s := Run(Initial(None), actions);
      && s.emitted <= s.log
      && (forall i :: 0 <= i < |s.emitted| ==> s.emitted[i].id == i)
      && (forall i :: 0 <= i < |s.emitted| - 1 ==> !s.emitted[i].done)
      && (s.emitted != [] && s.emitted[|s.emitted| - 1].done ==> s.phase == Closed)
  {
    InvInitial(None);
    InvRun(Initial(None), actions);
    var s := Run(Initial(None), actions);
    var base: nat, low: nat, high: nat :| InvAt(s, base, low, high);
    assert s.emitted != [] ==> base == 0;
  }

  // A following reader that kept its place and drained its queue has missed no
  // announced event.
  lemma CaughtUp(actions: seq<Action>)
    requires var s := Run(Initial(None), actions); s.phase == Live && s.listed && OursOf(s.queue) == []
    ensures var s := Run(Initial(None), actions);
      s.announced <= |s.log| && s.log[..s.announced] <= s.emitted
  {
    InvInitial(None);
    InvRun(Initial(None), actions);
    var s := Run(Initial(None), actions);
    var base: nat, low: nat, high: nat :| InvAt(s, base, low, high);
  }

  // With `after` the stream is still one unbroken piece of the tape.
  lemma StreamIsUnbroken(after: Option<int>, actions: seq<Action>)
    ensures var s := Run(Initial(after), actions);
      exists base: nat :: IsPiece(s.log, base, s.emitted)
  {
    InvInitial(after);
    InvRun(Initial(after), actions);
    var s := Run(Initial(after), actions);
    var base: nat, low: nat, high: nat :| InvAt(s, base, low, high);
  }

  // The backlog is what lies behind `after`, in the order of the tape.
  lemma BacklogMeans(log: seq<Event>, after: Option<int>)
    requires Numbered(log)
    ensures var rest := Since(log, after);
      && rest == log[|log| - |rest|..]
      && forall e :: e in rest <==> e in log && (after == None || e.id > after.value)
  {
    var rest := Since(log, after);
    forall e | e in log
      ensures e in rest <==> after == None || e.id > after.value
    {
      var i :| 0 <= i < |log| && log[i] == e;
      if i >= |log| - |rest| { assert rest[i - (|log| - |rest|)] == e; }
    }
    forall e | e in rest
      ensures e in log
    {
    }
  }

  // ---- what a reader is owed --------------------------------------------------------

  lemma ClosingStep(s: State, a: Action)
    requires a != Leave && (s.phase == Closed ==> s.emitted != [] && s.emitted[|s.emitted| - 1].done)
    ensures var r := Apply(s, a); r.phase == Closed ==> r.emitted != [] && r.emitted[|r.emitted| - 1].done
  {
  }

  // A stream ends only when the client leaves or times out, or with `done`.
  lemma {:induction false} ClosesOnlyBy(after: Option<int>, actions: seq<Action>)
    requires forall i :: 0 <= i < |actions| ==> actions[i] != Leave
    ensures var s := Run(Initial(after), actions);
      s.phase == Closed ==> s.emitted != [] && s.emitted[|s.emitted| - 1].done
  {
    if actions != [] {
      var front := actions[..|actions| - 1];
      ClosesOnlyBy(after, front);
      ClosingStep(Run(Initial(after), front), actions[|actions| - 1]);
    }
  }

  // A subscriber keeps its place until it leaves, its stream ends, or an event is
  // announced to it while 256 are waiting.
  lemma LosesPlace(s: State, a: Action)
    ensures s.phase == Idle ==> Apply(s, Subscribe).listed && Apply(s, Subscribe).phase == Subscribed
    ensures s.phase != Idle ==> !Apply(s, Leave).listed && Apply(s, Leave).phase == Closed
    ensures s.listed && !Apply(s, a).listed ==>
      || a == Leave
      || (a in {Announce, AnnounceForeign} && |s.queue| >= 256)
      || (Apply(s, a).emitted != s.emitted && Apply(s, a).emitted[|s.emitted|].done)
  {
  }

  // The reader's own next step.
  function ReaderStep(s: State): Action {
    match s.phase
    case Subscribed => ReadBacklog
    case Backlog(_) => EmitBacklog
    case _ => Receive
  }

  function Reads(s: State, n: nat): State
    decreases n
  {
    if n == 0 then s else Reads(Apply(s, ReaderStep(s)), n - 1)
  }

  // The steps a reader needs until it is idle in the live phase.
  function Steps(s: State): nat {
    match s.phase
    case Subscribed => 2 + |Since(s.log, s.after)| + |s.queue|
    case Backlog(rest) => 1 + |rest| + |s.queue|
    case _ => |s.queue|
  }

  predicate Reading(s: State) {
    s.phase == Subscribed || s.phase.Backlog? || s.phase == Live
  }

  ghost predicate EndedByDone(s: State) {
    s.phase == Closed && s.emitted != [] && s.emitted[|s.emitted| - 1].done
  }

  lemma ReaderMoves(s: State)
    requires Reading(s) && Steps(s) > 0
    ensures var r := Apply(s, ReaderStep(s));
      && r.log == s.log && r.announced == s.announced && r.after == s.after
      && (EndedByDone(r) || (Reading(r) && Steps(r) == Steps(s) - 1 && r.listed == s.listed))
  {
  }

  // The step of a reader that is done, or has nothing to read, changes nothing.
  lemma ReaderRests(s: State)
    requires EndedByDone(s) || (s.phase == Live && s.queue == [])
    ensures Apply(s, ReaderStep(s)) == s
  {
  }

  lemma {:induction false} ReaderRested(s: State, n: nat)
    requires EndedByDone(s) || (s.phase == Live && s.queue == [])
    ensures Reads(s, n) == s
  {
    if n > 0 {
      ReaderRests(s);
      ReaderRested(s, n - 1);
    }
  }

  lemma {:induction false} ReaderFinishes(s: State, n: nat)
    requires Inv(s) && Reading(s) && n >= Steps(s)
    ensures var r := Reads(s, n);
      && Inv(r) && r.log == s.log && r.announced == s.announced && r.after == s.after
      && (EndedByDone(r) || (r.phase == Live && r.queue == [] && r.listed == s.listed))
    decreases n
  {
    if Steps(s) == 0 {
      ReaderRested(s, n);
    } else {
      var r := Apply(s, ReaderStep(s));
      InvStep(s, ReaderStep(s));
      ReaderMoves(s);
      if EndedByDone(r) {
        ReaderRested(r, n - 1);
      } else {
        ReaderFinishes(r, n - 1);
      }
    }
  }

  // Whatever happened before, a reader that has its place and is left to itself
  // sends everything announced so far that is due to it, or ends with `done`: it
  // goes from the backlog to the queue and through the queue.
  lemma CatchesUp(after: Option<int>, actions: seq<Action>, n: nat)
    requires var s := Run(Initial(after), actions); Reading(s) && s.listed && n >= Steps(s)
    ensures var s, r := Run(Initial(after), actions), Reads(Run(Initial(after), actions), n);
      || EndedByDone(r)
      || (&& r.phase == Live && r.queue == [] && r.listed && r.announced == s.announced
          && s.announced <= Origin(r) + |r.emitted| && IsPiece(s.log, Origin(r), r.emitted)
          && (after == None ==> Origin(r) == 0)
          && (after.Some? && !r.found ==> Origin(r) == r.joined)
          && (after.Some? && r.found ==> Origin(r) == if after.value < 0 then 0 else after.value + 1))
  {
    InvInitial(after);
    InvRun(Initial(after), actions);
    var s := Run(Initial(after), actions);
    ReaderFinishes(s, n);
    var r := Reads(s, n);
    var base: nat, low: nat, high: nat :| InvAt(r, base, low, high);
  }

  // ---- when `after` is respected ---------------------------------------------------

  ghost predicate OnlyLater(s: State) {
    forall i :: 0 <= i < |s.emitted| ==> s.after == None || s.emitted[i].id > s.after.value
  }

  // In every run: a reader that found no backlog follows from where it joined,
  // `last` being -1 and not `after`.
  lemma WhoIsServed(a: int, actions: seq<Action>)
    ensures var s := Run(Initial(Some(a)), actions);
      OnlyLater(s) <==> s.emitted == [] || s.found || a < s.joined
  {
    InvInitial(Some(a));
    InvRun(Initial(Some(a)), actions);
    var s := Run(Initial(Some(a)), actions);
    var base: nat, low: nat, high: nat :| InvAt(s, base, low, high);
    assert s.emitted != [] ==> s.emitted[0].id == Origin(s);
  }

  // The reader can still be handed an event of this tape.
  ghost predicate Reachable(s: State) {
    s.listed || OursOf(s.queue) != []
  }

  // It has found nothing behind `after`, or may still find nothing, and what it
  // would follow from does not lie behind `after` either.
  ghost predicate AtRisk(s: State)
    requires s.after.Some?
  {
    match s.phase
    case Idle => s.announced <= s.after.value && |s.log| <= s.after.value + 1
    case Subscribed => s.joined <= s.after.value && |s.log| <= s.after.value + 1 && Reachable(s)
    case Backlog(_) => !s.found && s.joined <= s.after.value && Reachable(s)
    case Live => s.emitted == [] && s.joined <= s.after.value && Reachable(s)
    case Closed => false
  }

  ghost predicate Safe(s: State) {
    Inv(s) && s.after.Some? && OnlyLater(s) && !AtRisk(s)
  }

  lemma SafePush(s: State, a: Action)
    requires Safe(s) && a in {Announce, AnnounceForeign}
    ensures !AtRisk(Apply(s, a)) && OnlyLater(Apply(s, a))
  {
    var base: nat, low: nat, high: nat :| InvAt(s, base, low, high);
  }

  lemma SafeEmit(s: State)
    requires Safe(s)
    ensures !AtRisk(Apply(s, EmitBacklog)) && OnlyLater(Apply(s, EmitBacklog))
  {
    var base: nat, low: nat, high: nat :| InvAt(s, base, low, high);
    if s.phase.Backlog? && s.phase.rest != [] {
      assert s.emitted + s.phase.rest != [];
      assert s.phase.rest[0] == s.log[base + |s.emitted|];
    }
  }

  lemma SafeReceive(s: State)
    requires Safe(s)
    ensures !AtRisk(Apply(s, Receive)) && OnlyLater(Apply(s, Receive))
  {
    if s.phase == Live && s.queue != [] {
      var base: nat, low: nat, high: nat :| InvAt(s, base, low, high);
      HoldsPop(s, low, high);
      assert s.emitted != [] ==> s.emitted[|s.emitted| - 1].id == s.last;
    }
  }

  lemma SafeStep(s: State, a: Action)
    requires Safe(s)
    ensures Safe(Apply(s, a))
  {
    InvStep(s, a);
    ApplyKeepsAfter(s, a);
    match a
    case Announce => SafePush(s, a);
    case AnnounceForeign => SafePush(s, a);
    case EmitBacklog => SafeEmit(s);
    case Receive => SafeReceive(s);
    case Insert(_) =>
    case Subscribe =>
    case ReadBacklog =>
    case Leave =>
  }

  lemma {:induction false} SafeRun(s: State, actions: seq<Action>)
    requires Safe(s)
    ensures Safe(Run(s, actions))
  {
    if actions != [] {
      SafeRun(s, actions[..|actions| - 1]);
      SafeStep(Run(s, actions[..|actions| - 1]), actions[|actions| - 1]);
    }
  }

  lemma {:induction false} RunAppend(s: State, xs: seq<Action>, ys: seq<Action>)
    ensures Run(s, xs + ys) == Run(Run(s, xs), ys)
  {
    if ys == [] {
      assert xs + ys == xs;
    } else {
      var n := |ys| - 1;
      RunAppend(s, xs, ys[..n]);
      assert (xs + ys)[..|xs + ys| - 1] == xs + ys[..n];
    }
  }

  lemma RunOne(s: State, a: Action)
    ensures Run(s, [a]) == Apply(s, a)
  {
    assert [a][..0] == [] && Run(s, []) == s;
  }

  // Draining the queue up to its first event of this tape emits that event.
  lemma {:induction false} Drain(s: State, base: nat, low: nat, high: nat) returns (actions: seq<Action>)
    requires InvAt(s, base, low, high) && s.phase == Live && s.emitted == [] && OursOf(s.queue) != []
    ensures Run(s, actions).emitted == [s.log[s.joined]]
    decreases |s.queue|
  {
    var s' := Apply(s, Receive);
    RunOne(s, Receive);
    HoldsPop(s, low, high);
    if s.queue[0].Ours? {
      actions := [Receive];
    } else {
      var rest := Drain(s', base, low, high);
      RunAppend(s, [Receive], rest);
      actions := [Receive] + rest;
    }
  }

  // Without an event of this tape in the queue, draining only empties it.
  lemma {:induction false} Empty(s: State, base: nat, low: nat, high: nat) returns (actions: seq<Action>)
    requires InvAt(s, base, low, high) && s.phase == Live && s.emitted == [] && OursOf(s.queue) == []
    ensures Run(s, actions) == s.(queue := [])
    decreases |s.queue|
  {
    if s.queue == [] {
      actions := [];
    } else {
      var s' := Apply(s, Receive);
      RunOne(s, Receive);
      HoldsPop(s, low, high);
      var rest := Empty(s', base, low, high);
      RunAppend(s, [Receive], rest);
      actions := [Receive] + rest;
    }
  }

  // A reader with nothing from the backlog can be handed the event it joined at.
  lemma Replay(s: State) returns (actions: seq<Action>)
    requires Inv(s) && s.phase == Live && s.emitted == [] && Reachable(s)
    ensures |Run(s, actions).emitted| == 1 && Run(s, actions).emitted[0].id == s.joined
  {
    var base: nat, low: nat, high: nat :| InvAt(s, base, low, high);
    if OursOf(s.queue) != [] {
      actions := Drain(s, base, low, high);
    } else {
      var drained := Empty(s, base, low, high);
      var s1 := s.(queue := []);
      var two, s3 := AnnounceNext(s1, base, low, high);
      var base', low', high' :| InvAt(s3, base', low', high');
      var rest := Drain(s3, base', low', high');
      RunAppend(s, drained, two);
      RunAppend(s, drained + two, rest);
      actions := drained + two + rest;
    }
  }

  lemma AnnounceNext(s: State, base: nat, low: nat, high: nat) returns (actions: seq<Action>, s': State)
    requires InvAt(s, base, low, high) && s.listed && s.queue == []
    ensures s' == Run(s, actions) && Inv(s') && OursOf(s'.queue) != []
    ensures s'.phase == s.phase && s'.emitted == s.emitted && s'.joined == s.joined
  {
    var s1 := Apply(s, Insert(false));
    s', actions := Apply(s1, Announce), [Insert(false)] + [Announce];
    InvInsert(s, false, base, low, high);
    InvStep(s1, Announce);
    RunOne(s, Insert(false));
    RunOne(s1, Announce);
    RunAppend(s, [Insert(false)], [Announce]);
  }

  // The steps that bring a reader at risk to following with nothing emitted.
  lemma {:induction false} Follow(s: State, left: nat) returns (actions: seq<Action>)
    requires Inv(s) && s.after.Some? && AtRisk(s)
    requires left >= match s.phase case Idle => 3 case Subscribed => 2 case Backlog(_) => 1 case _ => 0
    ensures var r := Run(s, actions); Inv(r) && r.after == s.after && r.phase == Live && AtRisk(r)
    decreases left
  {
    if s.phase == Live {
      actions := [];
    } else {
      var a := match s.phase case Idle => Subscribe case Subscribed => ReadBacklog case _ => EmitBacklog;
      InvStep(s, a);
      RiskStep(s, a);
      var rest := Follow(Apply(s, a), left - 1);
      RunOne(s, a);
      RunAppend(s, [a], rest);
      actions := [a] + rest;
    }
  }

  lemma RiskStep(s: State, a: Action)
    requires Inv(s) && s.after.Some? && AtRisk(s) && s.phase != Live
    requires a == match s.phase case Idle => Subscribe case Subscribed => ReadBacklog case _ => EmitBacklog
    ensures var s' := Apply(s, a); s'.after == s.after && AtRisk(s')
    ensures var s' := Apply(s, a); match s.phase case Idle => s'.phase == Subscribed case Subscribed => s'.phase.Backlog? case _ => s'.phase == Live
  {
    var base: nat, low: nat, high: nat :| InvAt(s, base, low, high);
    if s.phase.Backlog? { assert s.emitted + s.phase.rest == []; }
  }

  // In every state of every run: all that may follow respects `after` exactly
  // when nothing before it does not and the reader is not at risk.
  lemma AfterRespected(a: int, before: seq<Action>)
    ensures var s := Run(Initial(Some(a)), before);
      && s.after == Some(a)
      && ((forall actions :: OnlyLater(Run(s, actions))) <==> OnlyLater(s) && !AtRisk(s))
  {
    InvInitial(Some(a));
    InvRun(Initial(Some(a)), before);
    var s := Run(Initial(Some(a)), before);
    if OnlyLater(s) && !AtRisk(s) {
      forall actions
        ensures OnlyLater(Run(s, actions))
      {
        SafeRun(s, actions);
      }
    } else if !OnlyLater(s) {
      assert Run(s, []) == s;
    } else {
      var actions := Overruled(s);
      assert !OnlyLater(Run(s, actions));
    }
  }

  lemma Overruled(s: State) returns (actions: seq<Action>)
    requires Inv(s) && s.after.Some? && AtRisk(s)
    ensures !OnlyLater(Run(s, actions))
  {
    var first := Follow(s, 3);
    var r := Run(s, first);
    var rest := Replay(r);
    RunAppend(s, first, rest);
    actions := first + rest;
    InvRun(s, actions);
    assert Run(s, actions).emitted[0].id == r.joined;
  }

  // One such run: a client asks for what follows event `a`, subscribes before
  // anything is on the tape, and is sent event 0.
  lemma AfterReplayed(a: nat)
    ensures var s := Run(Initial(Some(a)), [Subscribe, ReadBacklog, EmitBacklog, Insert(false), Announce, Receive]);
      s.emitted == [Event(0, false)] && !OnlyLater(s)
  {
    var acts := [Subscribe, ReadBacklog, EmitBacklog, Insert(false), Announce, Receive];
    var s0 := Initial(Some(a));
    assert acts[..5] == [Subscribe, ReadBacklog, EmitBacklog, Insert(false), Announce];
    assert acts[..5][..4] == [Subscribe, ReadBacklog, EmitBacklog, Insert(false)];
    assert acts[..5][..4][..3] == [Subscribe, ReadBacklog, EmitBacklog];
    assert acts[..5][..4][..3][..2] == [Subscribe, ReadBacklog];
    assert acts[..5][..4][..3][..2][..1] == [Subscribe];
    var s1 := Apply(s0, Subscribe);
    assert Run(s0, acts[..5][..4][..3][..2][..1]) == s1;
    var s2 := Apply(s1, ReadBacklog);
    assert Run(s0, acts[..5][..4][..3][..2]) == s2;
    var s3 := Apply(s2, EmitBacklog);
    assert Run(s0, acts[..5][..4][..3]) == s3;
    var s4 := Apply(s3, Insert(false));
    assert Run(s0, acts[..5][..4]) == s4;
    var s5 := Apply(s4, Announce);
    assert Run(s0, acts[..5]) == s5;
  }
}
