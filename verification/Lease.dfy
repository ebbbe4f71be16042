// Elicit reservations and the credential relay: a lease with one-second stamps,
// relays that inject under a timeout, a sweeper and a clock.
module Lease {
  import opened Domain

  type ElicitId = nat
  type InvocationId = nat
  type RelayId = nat

  // Lease ends are stored as datetime text, that is in whole seconds.
  datatype Status = Pending | Injecting(until: nat) | Resolved | Expired

  datatype Row = Row(invocation: InvocationId, status: Status)

  // Times are in milliseconds; datetime('now') drops the fraction.
  function Stamp(now: nat): nat {
    now / 1000
  }

  predicate Lapsed(s: Status, now: nat) {
    s.Injecting? && s.until < Stamp(now)
  }

  // What the three statements do to the status of a row.
  function Reserving(s: Status, now: nat, lease: nat): Status {
    if s == Pending then Injecting(Stamp(now) + lease) else s
  }

  function Finalizing(s: Status): Status {
    if s.Injecting? then Resolved else s
  }

  function Swept(s: Status, now: nat): Status {
    if Lapsed(s, now) then Pending else s
  }

  // ---- the protocol around one elicit --------------------------------------------

  // delay: at most so long from the reservation to the start of the injection;
  // timeout: asyncio.timeout around it; lease: relay_lease_s, in seconds.
  datatype Timing = Timing(delay: nat, timeout: nat, lease: nat)

  datatype Relay =
    | Reserved(since: nat)
    | Running(since: nat, start: nat)
    | Injected                       // about to finalize
    | Over

  datatype State = State(now: nat, status: Status, relays: map<RelayId, Relay>, finalized: nat)

  datatype Action =
    | Arrive(r: RelayId) | Start(r: RelayId) | Succeed(r: RelayId) | Fail(r: RelayId)
    | Conclude(r: RelayId) | Sweep | Tick(ms: nat)

  function Initial(now: nat): State {
    State(now, Pending, map[], 0)
  }

  // The deadline a relay cannot sleep through.
  function Deadline(t: Timing, r: Relay): Option<nat> {
    match r
    case Reserved(since) => Some(since + t.delay)
    case Running(since, start) => Some(start + t.timeout)
    case _ => None
  }

  predicate MayTick(t: Timing, s: State, ms: nat) {
    forall r :: r in s.relays && Deadline(t, s.relays[r]).Some? ==> s.now + ms <= Deadline(t, s.relays[r]).value
  }

  // A step that is not enabled leaves the state alone.
  function Apply(t: Timing, s: State, a: Action): State {
    match a
    case Arrive(r) =>
      if r in s.relays then s
      else if s.status == Pending then
        s.(status := Reserving(s.status, s.now, t.lease), relays := s.relays[r := Reserved(s.now)])
      else s.(relays := s.relays[r := Over])
    case Start(r) =>
      if r in s.relays && s.relays[r].Reserved?
      then s.(relays := s.relays[r := Running(s.relays[r].since, s.now)]) else s
    case Succeed(r) =>
      if r in s.relays && s.relays[r].Running? then s.(relays := s.relays[r := Injected]) else s
    case Fail(r) =>    // timeout, injection error, or a relay that dies earlier
      if r in s.relays then s.(relays := s.relays[r := Over]) else s
    case Conclude(r) =>
      if r in s.relays && s.relays[r].Injected? then
        s.(status := Finalizing(s.status), relays := s.relays[r := Over],
           finalized := s.finalized + if s.status.Injecting? then 1 else 0)
      else s
    case Sweep => s.(status := Swept(s.status, s.now))
    case Tick(ms) => if MayTick(t, s, ms) then s.(now := s.now + ms) else s
  }

  function Run(t: Timing, s: State, actions: seq<Action>): State
    decreases |actions|
  {
    if actions == [] then s else Run(t, Apply(t, s, actions[0]), actions[1..])
  }

  ghost predicate Exclusive(s: State) {
    forall p, q :: p in s.relays && q in s.relays && s.relays[p].Running? && s.relays[q].Running? ==> p == q
  }

  // ---- safety ----------------------------------------------------------------------

  predicate Holds(r: Relay) {
    r.Reserved? || r.Running?
  }

  predicate SafeTiming(t: Timing) {
    t.delay + t.timeout <= 1000 * t.lease
  }

  ghost predicate OnTime(t: Timing, s: State, r: Relay) {
    match r
    case Reserved(since) => since <= s.now <= since + t.delay
    case Running(since, start) => since <= start <= since + t.delay && start <= s.now <= start + t.timeout
    case _ => true
  }

  // The current lease, if any, belongs to the only relay that may still inject.
  ghost predicate Inv(t: Timing, s: State) {
    && (forall r :: r in s.relays ==> OnTime(t, s, s.relays[r]))
    && (forall r :: r in s.relays && Holds(s.relays[r]) ==>
          s.status == Resolved || s.status == Injecting(Stamp(s.relays[r].since) + t.lease))
    && (forall p, q :: p in s.relays && q in s.relays && Holds(s.relays[p]) && Holds(s.relays[q]) ==> p == q)
  }

  lemma LeaseOutlives(t: Timing, s: State, r: RelayId)
    requires SafeTiming(t) && r in s.relays && Holds(s.relays[r]) && OnTime(t, s, s.relays[r])
    ensures Stamp(s.now) <= Stamp(s.relays[r].since) + t.lease
  {
    var since := s.relays[r].since;
    assert s.now <= since + 1000 * t.lease;
    assert s.now / 1000 <= (since + 1000 * t.lease) / 1000 == since / 1000 + t.lease;
  }

  lemma InvTick(t: Timing, s: State, ms: nat)
    requires Inv(t, s)
    ensures Inv(t, Apply(t, s, Tick(ms)))
  {
  }

  lemma InvSweep(t: Timing, s: State)
    requires SafeTiming(t) && Inv(t, s)
    ensures Inv(t, Apply(t, s, Sweep))
  {
    forall r | r in s.relays && Holds(s.relays[r])
      ensures !Lapsed(s.status, s.now)
    {
      LeaseOutlives(t, s, r);
    }
  }

  // Reserving needs a pending elicit, and then nobody holds it.
  lemma InvArrive(t: Timing, s: State, r: RelayId)
    requires Inv(t, s)
    ensures Inv(t, Apply(t, s, Arrive(r)))
  {
  }

  lemma InvRelay(t: Timing, s: State, a: Action)
    requires Inv(t, s) && !a.Sweep? && !a.Tick? && !a.Arrive?
    ensures Inv(t, Apply(t, s, a))
  {
  }

  lemma InvStep(t: Timing, s: State, a: Action)
    requires SafeTiming(t) && Inv(t, s)
    ensures Inv(t, Apply(t, s, a))
  {
    match a
    case Sweep => InvSweep(t, s);
    case Tick(ms) => InvTick(t, s, ms);
    case Arrive(r) => InvArrive(t, s, r);
    case _ => InvRelay(t, s, a);
  }

  lemma {:induction false} InvRun(t: Timing, s: State, actions: seq<Action>)
    requires SafeTiming(t) && Inv(t, s)
    ensures Inv(t, Run(t, s, actions))
    decreases |actions|
  {
    if actions != [] {
      InvStep(t, s, actions[0]);
      InvRun(t, Apply(t, s, actions[0]), actions[1..]);
    }
  }

  // ---- the bound is exact -------------------------------------------------------------

  // With a longer delay and timeout, a relay that reserves late in a second is
  // still injecting when the lease lapses, is swept and is taken by another.
  function Overlap(t: Timing): seq<Action> {
    var gap := 1000 * t.lease + 1;
    var wait := if t.delay < gap then t.delay else gap;
    [Arrive(0), Tick(wait), Start(0), Tick(gap - wait), Sweep, Arrive(1), Start(1)]
  }

  lemma OverlapRuns(t: Timing)
    requires !SafeTiming(t)
    ensures !Exclusive(Run(t, Initial(999), Overlap(t)))
  {
    var gap := 1000 * t.lease + 1;
    var wait := if t.delay < gap then t.delay else gap;
    var acts := Overlap(t);
    var s1 := Apply(t, Initial(999), Arrive(0));
    assert s1.relays[0] == Reserved(999) && s1.status == Injecting(t.lease);
    var s2 := Apply(t, s1, Tick(wait));
    assert s2.now == 999 + wait;
    var s3 := Apply(t, s2, Start(0));
    assert s3.relays[0] == Running(999, 999 + wait);
    var s4 := Apply(t, s3, Tick(gap - wait));
    assert s4.now == 999 + gap == 1000 * (t.lease + 1);
    var s5 := Apply(t, s4, Sweep);
    assert s5.status == Pending;
    var s6 := Apply(t, s5, Arrive(1));
    var s7 := Apply(t, s6, Start(1));
    assert s7.relays[0].Running? && s7.relays[1].Running?;
    Unroll7(t, Initial(999), acts);
  }

  lemma Unroll7(t: Timing, s: State, a: seq<Action>)
    requires |a| == 7
    ensures Run(t, s, a) == Apply(t, Apply(t, Apply(t, Apply(t, Apply(t, Apply(t,
      Apply(t, s, a[0]), a[1]), a[2]), a[3]), a[4]), a[5]), a[6])
  {
    var s1 := Apply(t, s, a[0]);
    var s2 := Apply(t, s1, a[1]);
    var s3 := Apply(t, s2, a[2]);
    var s4 := Apply(t, s3, a[3]);
    var s5 := Apply(t, s4, a[4]);
    var s6 := Apply(t, s5, a[5]);
    assert Run(t, s, a) == Run(t, s1, a[1..]);
    assert Run(t, s1, a[1..]) == Run(t, s2, a[1..][1..]) && a[1..][1..] == a[2..];
    assert Run(t, s2, a[2..]) == Run(t, s3, a[2..][1..]) && a[2..][1..] == a[3..];
    assert Run(t, s3, a[3..]) == Run(t, s4, a[3..][1..]) && a[3..][1..] == a[4..];
    assert Run(t, s4, a[4..]) == Run(t, s5, a[4..][1..]) && a[4..][1..] == a[5..];
    assert Run(t, s5, a[5..]) == Run(t, s6, a[5..][1..]) && a[5..][1..] == a[6..];
    assert Run(t, s6, a[6..]) == Run(t, Apply(t, s6, a[6]), a[6..][1..]) && a[6..][1..] == [];
  }

  // No two relays ever inject at once, whatever the interleaving with the
  // sweeper and the clock, exactly when delay and timeout fit into the lease.
  lemma MutualExclusion(t: Timing)
    ensures (forall now, actions :: Exclusive(Run(t, Initial(now), actions))) <==> SafeTiming(t)
  {
    if SafeTiming(t) {
      forall now: nat, actions
        ensures Exclusive(Run(t, Initial(now), actions))
      {
        InvRun(t, Initial(now), actions);
      }
    } else {
      OverlapRuns(t);
    }
  }

  // ---- resolution and recovery ----------------------------------------------------------

  // However the timing is chosen: `resolved` is final and is reached at most once.
  lemma {:induction false} ResolvedOnce(t: Timing, s: State, actions: seq<Action>)
    requires s.finalized == if s.status == Resolved then 1 else 0
    ensures var s' := Run(t, s, actions);
      && s'.finalized == (if s'.status == Resolved then 1 else 0)
      && (s.status == Resolved ==> s'.status == Resolved)
    decreases |actions|
  {
    if actions != [] {
      ResolvedOnce(t, Apply(t, s, actions[0]), actions[1..]);
    }
  }

  // The sweeper takes no lease during these actions.
  ghost predicate LeaseKept(t: Timing, s: State, actions: seq<Action>)
    decreases |actions|
  {
    actions != [] ==> (actions[0] == Sweep ==> !Lapsed(s.status, s.now)) && LeaseKept(t, Apply(t, s, actions[0]), actions[1..])
  }

  predicate ActionOf(a: Action, r: RelayId) {
    a in {Arrive(r), Start(r), Succeed(r), Fail(r), Conclude(r)}
  }

  // What others do leaves a relay where it is, and its lease, unless another
  // relay resolves the elicit.
  lemma {:induction false} OthersLeave(t: Timing, s: State, r: RelayId, actions: seq<Action>)
    requires s.status == Resolved || s.status.Injecting?
    requires r in s.relays && LeaseKept(t, s, actions) && forall i :: 0 <= i < |actions| ==> !ActionOf(actions[i], r)
    ensures var s' := Run(t, s, actions);
      && r in s'.relays && s'.relays[r] == s.relays[r]
      && (s'.status == s.status || s'.status == Resolved)
    decreases |actions|
  {
    if actions != [] {
      assert !ActionOf(actions[0], r);
      OthersLeave(t, Apply(t, s, actions[0]), r, actions[1..]);
    }
  }

  // A relay that has reserved, starts, succeeds and concludes leaves the elicit
  // resolved, whatever others do in between, unless the sweeper has taken its lease.
  lemma SuccessResolves(t: Timing, s: State, r: RelayId, a: seq<Action>, b: seq<Action>, c: seq<Action>)
    requires r in s.relays && s.relays[r].Reserved? && s.status.Injecting?
    requires forall x :: x in a + b + c ==> !ActionOf(x, r)
    requires var s1 := Run(t, s, a);
      var s2 := Run(t, Apply(t, s1, Start(r)), b);
      LeaseKept(t, s, a) && LeaseKept(t, Apply(t, s1, Start(r)), b) && LeaseKept(t, Apply(t, s2, Succeed(r)), c)
    ensures var s1 := Run(t, s, a);
      var s2 := Run(t, Apply(t, s1, Start(r)), b);
      var s3 := Run(t, Apply(t, s2, Succeed(r)), c);
      Apply(t, s3, Conclude(r)).status == Resolved
  {
    assert forall x :: x in a || x in b || x in c ==> x in a + b + c;
    var s1 := Run(t, s, a);
    OthersLeave(t, s, r, a);
    var s2 := Run(t, Apply(t, s1, Start(r)), b);
    OthersLeave(t, Apply(t, s1, Start(r)), r, b);
    OthersLeave(t, Apply(t, s2, Succeed(r)), r, c);
  }

  // Undisturbed, it is this relay that resolves it.
  lemma SuccessCounts(t: Timing, s: State, r: RelayId)
    requires r in s.relays && s.relays[r].Reserved? && s.status.Injecting?
    ensures var s' := Run(t, s, [Start(r), Succeed(r), Conclude(r)]);
      s'.status == Resolved && s'.finalized == s.finalized + 1 && s'.relays == s.relays[r := Over]
  {
    var actions := [Start(r), Succeed(r), Conclude(r)];
    assert actions[1..] == [Succeed(r), Conclude(r)] && actions[1..][1..] == [Conclude(r)] && [Conclude(r)][1..] == [];
    var s1 := Apply(t, s, Start(r));
    var s2 := Apply(t, s1, Succeed(r));
    assert Run(t, s2, [Conclude(r)]) == Run(t, Apply(t, s2, Conclude(r)), []);
    assert Run(t, s1, [Succeed(r), Conclude(r)]) == Run(t, s2, [Conclude(r)]);
  }

  // Each relay has come as far as its own actions, and an elicit is resolved only
  // by a relay whose injection succeeded.
  ghost predicate Earned(s: State, past: set<Action>) {
    && (forall r :: r in s.relays ==>
          && (s.relays[r].Running? ==> Start(r) in past)
          && (s.relays[r].Injected? ==> Start(r) in past && Succeed(r) in past))
    && (s.status == Resolved ==> exists r :: Start(r) in past && Succeed(r) in past && Conclude(r) in past)
  }

  lemma EarnedStep(t: Timing, s: State, past: set<Action>, a: Action)
    requires Earned(s, past)
    ensures Earned(Apply(t, s, a), past + {a})
  {
    if s.status == Resolved {
      var r :| Start(r) in past && Succeed(r) in past && Conclude(r) in past;
      assert Start(r) in past + {a};
    } else if a.Conclude? && Apply(t, s, a).status == Resolved {
      assert Start(a.r) in past + {a} && Succeed(a.r) in past + {a} && Conclude(a.r) in past + {a};
    }
  }

  lemma {:induction false} ResolvedIsEarned(t: Timing, s: State, past: set<Action>, actions: seq<Action>)
    requires Earned(s, past)
    ensures Earned(Run(t, s, actions), past + Elems(actions))
    decreases |actions|
  {
    if actions == [] {
      assert past + Elems<Action>([]) == past;
    } else {
      EarnedStep(t, s, past, actions[0]);
      ResolvedIsEarned(t, Apply(t, s, actions[0]), past + {actions[0]}, actions[1..]);
      assert past + Elems(actions) == past + {actions[0]} + Elems(actions[1..]);
    }
  }

  lemma ResolvedBy(t: Timing, now: nat, actions: seq<Action>)
    requires Run(t, Initial(now), actions).status == Resolved
    ensures exists r :: Start(r) in actions && Succeed(r) in actions && Conclude(r) in actions
  {
    ResolvedIsEarned(t, Initial(now), {}, actions);
    var r :| Start(r) in {} + Elems(actions) && Succeed(r) in {} + Elems(actions) && Conclude(r) in {} + Elems(actions);
  }

  // A lease that has lapsed is reservable again once the sweeper has run, by
  // any relay that has not been here yet.
  lemma LapsedRecovers(t: Timing, s: State, r: RelayId)
    requires Lapsed(s.status, s.now) && r !in s.relays
    ensures Run(t, s, [Sweep, Arrive(r)]).relays == s.relays[r := Reserved(s.now)]
  {
    assert [Sweep, Arrive(r)][1..] == [Arrive(r)] && [Arrive(r)][1..] == [];
    var s' := Apply(t, s, Sweep);
    assert Run(t, s', [Arrive(r)]) == Run(t, Apply(t, s', Arrive(r)), []);
  }

  // ---- the table and the requests ---------------------------------------------------------

  // elicit_repo.py: each method is one SQL statement.
  class ElicitRepo {
    var rows: map<ElicitId, Row>

    ghost predicate Names(inv: InvocationId, id: ElicitId)
      reads this
    {
      id in rows && rows[id].invocation == inv
    }

    // INSERT ... ON CONFLICT(id) DO NOTHING
    method Put(id: ElicitId, row: Row)
      modifies this
      ensures rows == if id in old(rows) then old(rows) else old(rows)[id := row]
    {
      if id !in rows {
        rows := rows[id := row];
      }
    }

    method Reserve(inv: InvocationId, id: ElicitId, now: nat, lease: nat) returns (won: bool)
      modifies this
      ensures won <==> old(Names(inv, id)) && old(rows[id].status) == Pending
      ensures rows == if old(Names(inv, id))
        then old(rows)[id := Row(inv, Reserving(old(rows)[id].status, now, lease))] else old(rows)
    {
      won := id in rows && rows[id].invocation == inv && rows[id].status == Pending;
      if won {
        rows := rows[id := rows[id].(status := Injecting(Stamp(now) + lease))];
      }
    }

    method Finalize(inv: InvocationId, id: ElicitId) returns (won: bool)
      modifies this
      ensures won <==> old(Names(inv, id)) && old(rows[id].status).Injecting?
      ensures rows == if old(Names(inv, id)) then old(rows)[id := Row(inv, Finalizing(old(rows)[id].status))] else old(rows)
    {
      won := id in rows && rows[id].invocation == inv && rows[id].status.Injecting?;
      if won {
        rows := rows[id := rows[id].(status := Resolved)];
      }
    }

    method SweepExpiredLeases(now: nat) returns (count: nat)
      modifies this
      ensures rows.Keys == old(rows).Keys
      ensures forall id :: id in rows ==> rows[id] == old(rows)[id].(status := Swept(old(rows)[id].status, now))
      ensures count == |set id | id in old(rows) && Lapsed(old(rows)[id].status, now)|
    {
      count := |set id | id in rows && Lapsed(rows[id].status, now)|;
      rows := map id | id in rows :: rows[id].(status := Swept(rows[id].status, now));
    }
  }

  // A relay request that has named an elicit of its invocation.
  datatype Job = Job(invocation: InvocationId, elicit: ElicitId, relay: Relay)

  // What the protocol sees of each elicit in the table.
  type Views = map<ElicitId, State>

  ghost function ViewsOf(rows: map<ElicitId, Row>, jobs: map<RelayId, Job>, now: nat, finalized: multiset<ElicitId>): Views {
    map id | id in rows :: State(now, rows[id].status, RelaysOf(jobs, id), finalized[id])
  }

  ghost function RelaysOf(jobs: map<RelayId, Job>, id: ElicitId): map<RelayId, Relay> {
    map r | r in jobs && jobs[r].elicit == id :: jobs[r].relay
  }

  lemma RelaysChange(jobs: map<RelayId, Job>, r: RelayId, job: Job, id: ElicitId)
    requires r in jobs ==> jobs[r].elicit == job.elicit
    ensures RelaysOf(jobs[r := job], id) ==
      if id == job.elicit then RelaysOf(jobs, id)[r := job.relay] else RelaysOf(jobs, id)
  {
  }

  // A new elicit, one elicit moving, or all of them.
  datatype Move = New(id: ElicitId, at: nat) | One(id: ElicitId, a: Action) | All(a: Action)

  ghost function Moved(t: Timing, views: Views, m: Move): Views {
    match m
    case New(id, at) => if id in views then views else views[id := Initial(at)]
    case One(id, a) => if id in views then views[id := Apply(t, views[id], a)] else views
    case All(a) => map id | id in views :: Apply(t, views[id], a)
  }

  ghost function MovedBy(t: Timing, views: Views, moves: seq<Move>): Views
    decreases |moves|
  {
    if moves == [] then views else MovedBy(t, Moved(t, views, moves[0]), moves[1..])
  }

  lemma ConcludedViews(t: Timing, rows: map<ElicitId, Row>, jobs: map<RelayId, Job>, now: nat, finalized: multiset<ElicitId>,
                       r: RelayId)
    requires r in jobs && jobs[r].elicit in rows && jobs[r].relay.Injected?
    ensures var e := jobs[r].elicit;
      var row := rows[e].(status := Finalizing(rows[e].status));
      ViewsOf(rows[e := row], jobs[r := jobs[r].(relay := Over)], now,
              if rows[e].status.Injecting? then finalized + multiset{e} else finalized)
        == Moved(t, ViewsOf(rows, jobs, now, finalized), One(e, Action.Conclude(r)))
  {
    forall id: ElicitId { RelaysChange(jobs, r, jobs[r].(relay := Over), id); }
  }

  // The steps of all relay requests, the sweeper and the clock on one table:
  // every elicit follows the protocol.
  class RelayDesk {
    const t: Timing
    const repo: ElicitRepo
    var now: nat
    var jobs: map<RelayId, Job>
    ghost var finalized: multiset<ElicitId>

    ghost function Views(): Views
      reads this, repo
    {
      ViewsOf(repo.rows, jobs, now, finalized)
    }

    // Each relay names an elicit of its invocation.
    ghost predicate Valid()
      reads this, repo
    {
      && (forall r :: r in jobs ==> repo.Names(jobs[r].invocation, jobs[r].elicit))
      && (forall id :: id in finalized ==> id in repo.rows)
    }

    constructor (t: Timing, now: nat)
      ensures Valid() && this.t == t && this.now == now && Views() == map[] && fresh(repo)
    {
      this.t, this.now := t, now;
      repo, jobs, finalized := new ElicitRepo, map[], multiset{};
      new;
      repo.rows := map[];
    }

    // Emitting an elicit: it starts pending; emitting it again changes nothing.
    method Emit(inv: InvocationId, id: ElicitId)
      requires Valid()
      modifies repo
      ensures Valid() && Views() == Moved(t, old(Views()), New(id, now))
    {
      repo.Put(id, Row(inv, Pending));
      assert id !in old(repo.rows) ==> RelaysOf(jobs, id) == map[];
    }

    // A request reserves, or loses the race. One that names no elicit of its
    // invocation goes no further.
    method Arrive(r: RelayId, inv: InvocationId, id: ElicitId) returns (won: bool)
      requires Valid() && r !in jobs
      modifies this`jobs, repo
      ensures Valid()
      ensures won <==> old(repo.Names(inv, id)) && old(Views())[id].status == Pending
      ensures Views() == if old(repo.Names(inv, id)) then Moved(t, old(Views()), One(id, Action.Arrive(r))) else old(Views())
    {
      won := repo.Reserve(inv, id, now, t.lease);
      if id in repo.rows && repo.rows[id].invocation == inv {
        Advance(r, Job(inv, id, if won then Reserved(now) else Over));
      }
    }

    method Advance(r: RelayId, job: Job)
      requires r in jobs ==> jobs[r].elicit == job.elicit
      modifies this`jobs
      ensures jobs == old(jobs)[r := job]
      ensures forall id :: id != job.elicit ==> RelaysOf(jobs, id) == RelaysOf(old(jobs), id)
      ensures RelaysOf(jobs, job.elicit) == RelaysOf(old(jobs), job.elicit)[r := job.relay]
    {
      jobs := jobs[r := job];
      forall id: ElicitId { RelaysChange(old(jobs), r, job, id); }
    }

    // The injection starts under its timeout.
    method Start(r: RelayId)
      requires Valid() && r in jobs
      modifies this`jobs
      ensures Valid() && Views() == Moved(t, old(Views()), One(old(jobs)[r].elicit, Action.Start(r)))
    {
      var job := jobs[r];
      if job.relay.Reserved? {
        Advance(r, job.(relay := Running(job.relay.since, now)));
      }
    }

    method Succeed(r: RelayId)
      requires Valid() && r in jobs
      modifies this`jobs
      ensures Valid() && Views() == Moved(t, old(Views()), One(old(jobs)[r].elicit, Action.Succeed(r)))
    {
      if jobs[r].relay.Running? {
        Advance(r, jobs[r].(relay := Injected));
      }
    }

    // A timeout, an injection error, or a request that dies: the row is left.
    method Fail(r: RelayId)
      requires Valid() && r in jobs
      modifies this`jobs
      ensures Valid() && Views() == Moved(t, old(Views()), One(old(jobs)[r].elicit, Action.Fail(r)))
    {
      Advance(r, jobs[r].(relay := Over));
    }

    // After the injection: the elicit is resolved, unless its lease was lost.
    method Conclude(r: RelayId) returns (done: bool)
      requires Valid() && r in jobs
      modifies this, repo
      ensures Valid() && now == old(now) && Views() == Moved(t, old(Views()), One(old(jobs)[r].elicit, Action.Conclude(r)))
      ensures done <==> finalized == old(finalized) + multiset{old(jobs)[r].elicit}
    {
      var job := jobs[r];
      done := false;
      if job.relay.Injected? {
        ConcludedViews(t, repo.rows, jobs, now, finalized, r);
        done := repo.Finalize(job.invocation, job.elicit);
        jobs := jobs[r := job.(relay := Over)];
        if done {
          finalized := finalized + multiset{job.elicit};
        }
      }
    }

    method Sweep() returns (count: nat)
      requires Valid()
      modifies repo
      ensures Valid() && Views() == Moved(t, old(Views()), All(Action.Sweep))
      ensures count == |set id | id in old(Views()) && Lapsed(old(Views())[id].status, now)|
    {
      count := repo.SweepExpiredLeases(now);
      assert (set id | id in old(repo.rows) && Lapsed(old(repo.rows)[id].status, now)) ==
        set id | id in old(Views()) && Lapsed(old(Views())[id].status, now);
    }

    predicate Punctual(ms: nat)
      reads this
    {
      forall r :: r in jobs && Deadline(t, jobs[r].relay).Some? ==> now + ms <= Deadline(t, jobs[r].relay).value
    }

    // Time passes, but no relay sleeps through its deadline.
    method Tick(ms: nat)
      requires Valid()
      modifies this`now
      ensures Valid() && Views() == if old(Punctual(ms)) then Moved(t, old(Views()), All(Action.Tick(ms))) else old(Views())
    {
      if Punctual(ms) {
        ghost var was := Views();
        assert forall id :: id in was ==> MayTick(t, was[id], ms);
        now := now + ms;
        assert Views() == Moved(t, was, All(Action.Tick(ms)));
      }
    }
  }

  ghost predicate AllSafe(t: Timing, views: Views) {
    forall id :: id in views ==> Inv(t, views[id])
  }

  lemma MovedSafe(t: Timing, views: Views, m: Move)
    requires SafeTiming(t) && AllSafe(t, views)
    ensures AllSafe(t, Moved(t, views, m))
  {
    forall id | id in views && (m.One? || m.All?)
      ensures Inv(t, Apply(t, views[id], m.a))
    {
      InvStep(t, views[id], m.a);
    }
  }

  // Whatever the requests on the table: no elicit is ever injected by two relays
  // at once.
  lemma {:induction false} TableExclusive(t: Timing, views: Views, moves: seq<Move>)
    requires SafeTiming(t) && AllSafe(t, views)
    ensures AllSafe(t, MovedBy(t, views, moves))
    ensures forall id :: id in MovedBy(t, views, moves) ==> Exclusive(MovedBy(t, views, moves)[id])
    decreases |moves|
  {
    if moves != [] {
      MovedSafe(t, views, moves[0]);
      TableExclusive(t, Moved(t, views, moves[0]), moves[1..]);
    }
  }
}
