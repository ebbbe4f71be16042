// Waiting on task rows: wait_for_task_terminal and wait_for_dependencies.
// What the k-th read of a row returns is arbitrary, and the timeout shows as
// the number of rounds of reads that fit into it.
module Polling {
  import opened Domain

  // A task row as read from the database.
  datatype Row = Row(status: Status, claimedBy: Option<AgentId>, deps: seq<TaskId>)

  const TERMINAL: set<Status> := {Status.Done, Status.Blocked, Status.Cancelled}

  datatype Wait = Terminal(row: Row) | Expired | Vanished

  datatype DepWait = Satisfied | Broken(dep: TaskId) | Late

  // The row is there and still on its way.
  predicate Running(row: Option<Row>) {
    row.Some? && row.value.status !in TERMINAL
  }

  method WaitForTaskTerminal(rows: nat -> Option<Row>, rounds: nat) returns (w: Wait)
    ensures w == Expired <==> forall t: nat :: t < rounds ==> Running(rows(t))
    ensures w == Expired ==> forall t: nat :: t < rounds ==>
      rows(t).Some? && rows(t).value.status !in {Status.Done, Status.Blocked, Status.Cancelled}
    ensures w != Expired ==> exists t: nat :: t < rounds && Settles(rows, t)
    ensures forall t: nat :: t < rounds && Settles(rows, t) ==> w == if rows(t).Some? then Terminal(rows(t).value) else Vanished
    ensures w.Terminal? ==> w.row.status in {Status.Done, Status.Blocked, Status.Cancelled}
  {
    for t := 0 to rounds
      invariant forall s: nat :: s < t ==> Running(rows(s))
    {
      var row := rows(t);
      if row.None? {
        assert Settles(rows, t);
        return Vanished;
      }
      if row.value.status in TERMINAL {
        assert Settles(rows, t);
        return Terminal(row.value);
      }
    }
    w := Expired;
  }

  // Round t is the first whose row is gone or terminal.
  ghost predicate Settles(rows: nat -> Option<Row>, t: nat) {
    !Running(rows(t)) && forall s: nat :: s < t ==> Running(rows(s))
  }

  // ---- fan-in --------------------------------------------------------------------

  type Reads = (nat, TaskId) -> Option<Row>

  predicate Undecided(row: Option<Row>, accept: Status) {
    row.Some? && row.value.status != accept && row.value.status !in TERMINAL
  }

  predicate Accepted(row: Option<Row>, accept: Status) {
    row.Some? && row.value.status == accept
  }

  // Dependency d reaches `accept` in round t, having failed in no round before.
  ghost predicate MetAt(rows: Reads, d: TaskId, accept: Status, t: nat) {
    Accepted(rows(t, d), accept) && forall s: nat :: s < t ==> Undecided(rows(s, d), accept)
  }

  ghost predicate Met(rows: Reads, d: TaskId, accept: Status, rounds: nat) {
    exists t: nat :: t < rounds && MetAt(rows, d, accept, t)
  }

  ghost predicate BrokenAt(rows: Reads, d: TaskId, accept: Status, t: nat) {
    && !Accepted(rows(t, d), accept) && !Undecided(rows(t, d), accept)
    && forall s: nat :: s < t ==> Undecided(rows(s, d), accept)
  }

  // The outcome is decided by what each dependency does first, whatever the
  // order of the list.
  method WaitForDependencies(deps: seq<TaskId>, accept: Status, rows: Reads, rounds: nat) returns (w: DepWait)
    ensures w == Satisfied <==> forall d :: d in deps ==> Met(rows, d, accept, rounds)
    ensures w.Broken? ==> w.dep in deps && exists t: nat :: t < rounds && BrokenAt(rows, w.dep, accept, t)
    ensures w == Late ==>
      && (exists d :: d in deps && forall t: nat :: t < rounds ==> Undecided(rows(t, d), accept))
      && (forall d, t: nat :: d in deps && t < rounds ==> !BrokenAt(rows, d, accept, t))
  {
    var pending := deps;
    if pending == [] {
      return Satisfied;
    }
    for t := 0 to rounds
      invariant pending != []
      invariant forall d :: d in pending ==> d in deps && Open(rows, d, accept, t)
      invariant forall d :: d in deps && d !in pending ==> Met(rows, d, accept, t)
    {
      var failed, next := PollOnce(pending, accept, rows, t);
      if failed.Some? {
        ghost var k: nat :| k < |pending| && FailsFirst(pending, accept, rows, t, k) && pending[k] == failed.value;
        assert pending[k] in pending;
        assert BrokenAt(rows, failed.value, accept, t);
        return Broken(failed.value);
      }
      forall d | d in deps && d !in next
        ensures Met(rows, d, accept, t + 1)
      {
        if d in pending {
          assert MetAt(rows, d, accept, t);
        }
      }
      if next == [] {
        forall d | d in deps
          ensures Met(rows, d, accept, rounds)
        {
          var s: nat :| s < t + 1 && MetAt(rows, d, accept, s);
        }
        return Satisfied;
      }
      pending := next;
    }
    assert pending[0] in deps && Open(rows, pending[0], accept, rounds);
    w := Late;
  }

  ghost predicate Open(rows: Reads, d: TaskId, accept: Status, t: nat) {
    forall s: nat :: s < t ==> Undecided(rows(s, d), accept)
  }

  // The k-th of the list is the first that is gone or has ended otherwise.
  ghost predicate FailsFirst(pending: seq<TaskId>, accept: Status, rows: Reads, t: nat, k: nat)
    requires k < |pending|
  {
    && !Accepted(rows(t, pending[k]), accept) && !Undecided(rows(t, pending[k]), accept)
    && forall j :: 0 <= j < k ==> Accepted(rows(t, pending[j]), accept) || Undecided(rows(t, pending[j]), accept)
  }

  // One pass over the pending list: the first failure, or those still open.
  method PollOnce(pending: seq<TaskId>, accept: Status, rows: Reads, t: nat)
    returns (failed: Option<TaskId>, next: seq<TaskId>)
    ensures failed.Some? ==> exists k :: 0 <= k < |pending| && FailsFirst(pending, accept, rows, t, k) && pending[k] == failed.value
    ensures failed.None? ==> forall d :: d in next <==> d in pending && Undecided(rows(t, d), accept)
    ensures failed.None? ==> forall d :: d in pending && d !in next ==> Accepted(rows(t, d), accept)
  {
    next := [];
    for i := 0 to |pending|
      invariant forall d :: d in next <==> d in pending[..i] && Undecided(rows(t, d), accept)
      invariant forall d :: d in pending[..i] && d !in next ==> Accepted(rows(t, d), accept)
      invariant forall j :: 0 <= j < i ==> Accepted(rows(t, pending[j]), accept) || Undecided(rows(t, pending[j]), accept)
    {
      var d := pending[i];
      var row := rows(t, d);
      assert Accepted(row, accept) || Undecided(row, accept) || FailsFirst(pending, accept, rows, t, i);
      if row.None? {
        return Some(d), next;
      }
      if row.value.status == accept {
        continue;
      }
      if row.value.status in TERMINAL {
        return Some(d), next;
      }
      next := next + [d];
    }
    failed := None;
  }
}
