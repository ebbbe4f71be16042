// The task rows shared by the link, attachment and dispatch models.
module Domain {

  datatype Option<+T> = None | Some(value: T)

  // Row identifiers are opaque tokens: the programs only compare them.
  type TaskId = nat
  type BundleId = nat
  type AgentId = nat

  // asyncio.Queue(maxsize=256), the queue of every subscriber of the watch service
  const CAPACITY: nat := 256

  datatype Status = Open | Claimed | Working | Done | Blocked | Cancelled | BlockedOnReview

  datatype Task = Task(
    bundle: BundleId,
    status: Status,
    deps: seq<TaskId>,
    assignee: Option<AgentId>,
    claimedBy: Option<AgentId>,
    graphNode: Option<nat>,
    createdBy: Option<TaskId>)

  // The states cancel_task accepts; a blocked task is not among them.
  predicate Cancellable(t: Task) {
    t.status in {Open, Claimed, Working}
  }

  type CookbookId = nat

  // None: a bundle from before cookbooks.
  type Bundles = map<BundleId, Option<CookbookId>>

  predicate InCookbook(bundles: Bundles, cb: CookbookId, t: Task) {
    t.bundle in bundles && bundles[t.bundle] == Some(cb)
  }

  // The gate in front of a claim or a dispatch.
  predicate DepsDone(tasks: map<TaskId, Task>, deps: seq<TaskId>) {
    forall d :: d in deps ==> d in tasks && tasks[d].status == Done
  }

  function Elems<T>(s: seq<T>): set<T> {
    set x | x in s
  }

  ghost predicate Distinct<T>(s: seq<T>) {
    forall i, j :: 0 <= i < j < |s| ==> s[i] != s[j]
  }

  // The list without the members of `gone`, order and duplicates kept.
  function Without(s: seq<TaskId>, gone: set<TaskId>): seq<TaskId> {
    if s == [] then []
    else if s[0] in gone then Without(s[1..], gone)
    else [s[0]] + Without(s[1..], gone)
  }

  lemma {:induction false} WithoutMember(s: seq<TaskId>, gone: set<TaskId>, d: TaskId)
    ensures d in Without(s, gone) <==> d in s && d !in gone
  {
    if s != [] {
      WithoutMember(s[1..], gone, d);
      assert d in s <==> d == s[0] || d in s[1..];
      assert s[0] !in gone ==> Without(s, gone) == [s[0]] + Without(s[1..], gone);
    }
  }

  lemma {:induction false} WithoutTwice(s: seq<TaskId>, a: set<TaskId>, b: set<TaskId>)
    ensures Without(Without(s, a), b) == Without(s, a + b)
  {
    if s != [] {
      WithoutTwice(s[1..], a, b);
      if s[0] !in a {
        assert Without(s, a)[1..] == Without(s[1..], a);
      }
    }
  }

  lemma {:induction false} WithoutAbsent(s: seq<TaskId>, gone: set<TaskId>)
    requires forall d :: d in s ==> d !in gone
    ensures Without(s, gone) == s
  {
    if s != [] {
      WithoutAbsent(s[1..], gone);
    }
  }

  lemma {:induction false} WithoutAppend(s: seq<TaskId>, d: TaskId)
    requires d !in s
    ensures Without(s + [d], {d}) == s
  {
    if s != [] {
      WithoutAppend(s[1..], d);
      assert (s + [d])[1..] == s[1..] + [d];
    }
  }
}
