// Finite directed graphs given as sets of edges: reachability, acyclicity and
// the facts about them that the link, dependency and attachment models share.
module Graphs {

  // Identifiers are opaque tokens; only equality matters.
  type Node = nat
  type Edges = set<(Node, Node)>

  // The edges of an adjacency dictionary.
  ghost function Adjacency(adj: map<Node, seq<Node>>): Edges {
    set x, y | x in adj && y in adj[x] :: (x, y)
  }

  ghost predicate IsWalk(es: Edges, p: seq<Node>) {
    && |p| > 0
    && forall i :: 0 <= i < |p| - 1 ==> (p[i], p[i + 1]) in es
  }

  ghost predicate Reaches(es: Edges, a: Node, b: Node) {
    exists p :: IsWalk(es, p) && p[0] == a && p[|p| - 1] == b
  }

  // No edge can be closed into a cycle; self-loops are cycles.
  ghost predicate Acyclic(es: Edges) {
    forall x, y :: (x, y) in es ==> !Reaches(es, y, x)
  }

  ghost predicate Closed(es: Edges, s: set<Node>) {
    forall x, y :: (x, y) in es && x in s ==> y in s
  }

  lemma ReachesSelf(es: Edges, a: Node)
    ensures Reaches(es, a, a)
  {
    assert IsWalk(es, [a]);
  }

  lemma ReachesTrans(es: Edges, a: Node, b: Node, c: Node)
    requires Reaches(es, a, b) && Reaches(es, b, c)
    ensures Reaches(es, a, c)
  {
    var p :| IsWalk(es, p) && p[0] == a && p[|p| - 1] == b;
    var q :| IsWalk(es, q) && q[0] == b && q[|q| - 1] == c;
    var r := p + q[1..];
    forall i | 0 <= i < |r| - 1
      ensures (r[i], r[i + 1]) in es
    {
      if i >= |p| - 1 {
        assert (q[i - (|p| - 1)], q[i - (|p| - 1) + 1]) in es;
      }
    }
    assert IsWalk(es, r);
  }

  lemma ReachesEdge(es: Edges, a: Node, b: Node)
    requires (a, b) in es
    ensures Reaches(es, a, b)
  {
    assert IsWalk(es, [a, b]);
  }

  lemma ReachesStep(es: Edges, a: Node, b: Node, c: Node)
    requires Reaches(es, a, b) && (b, c) in es
    ensures Reaches(es, a, c)
  {
    ReachesEdge(es, b, c);
    ReachesTrans(es, a, b, c);
  }

  lemma ReachesMono(es: Edges, fs: Edges, a: Node, b: Node)
    requires es <= fs && Reaches(es, a, b)
    ensures Reaches(fs, a, b)
  {
    var p :| IsWalk(es, p) && p[0] == a && p[|p| - 1] == b;
    assert IsWalk(fs, p);
  }

  lemma AcyclicMono(es: Edges, fs: Edges)
    requires es <= fs && Acyclic(fs)
    ensures Acyclic(es)
  {
    forall x, y | (x, y) in es
      ensures !Reaches(es, y, x)
    {
      if Reaches(es, y, x) { ReachesMono(es, fs, y, x); }
    }
  }

  // A set closed under the edges traps every walk that starts in it.
  lemma ClosedTraps(es: Edges, s: set<Node>, a: Node, b: Node)
    requires Closed(es, s) && a in s && Reaches(es, a, b)
    ensures b in s
  {
    var p :| IsWalk(es, p) && p[0] == a && p[|p| - 1] == b;
    WalkStays(es, s, p, |p| - 1);
  }

  lemma {:induction false} WalkStays(es: Edges, s: set<Node>, p: seq<Node>, k: nat)
    requires Closed(es, s) && IsWalk(es, p) && p[0] in s && k < |p|
    ensures p[k] in s
  {
    if k > 0 {
      WalkStays(es, s, p, k - 1);
      assert (p[k - 1], p[k - 1 + 1]) in es;
    }
  }

  // A walk in the extended graph either avoids the new edge or splits into an
  // old walk to its source and an old walk from its target.
  lemma {:induction false} WalkSplits(es: Edges, a: Node, b: Node, p: seq<Node>)
    requires IsWalk(es + {(a, b)}, p)
    ensures var x, y := p[0], p[|p| - 1];
      Reaches(es, x, y) || (Reaches(es, x, a) && Reaches(es, b, y))
    decreases |p|
  {
    var x, y := p[0], p[|p| - 1];
    if |p| == 1 {
      ReachesSelf(es, x);
    } else {
      var q := p[..|p| - 1];
      assert IsWalk(es + {(a, b)}, q);
      WalkSplits(es, a, b, q);
      var z := p[|p| - 2];
      assert (p[|p| - 2], p[|p| - 2 + 1]) in es + {(a, b)};
      if (z, y) in es {
        if Reaches(es, x, z) {
          ReachesStep(es, x, z, y);
        } else {
          ReachesStep(es, b, z, y);
        }
      } else {
        ReachesSelf(es, b);
      }
    }
  }

  // The exact condition under which an edge may join an acyclic graph.
  lemma AcyclicAddEdge(es: Edges, a: Node, b: Node)
    requires Acyclic(es)
    ensures Acyclic(es + {(a, b)}) <==> !Reaches(es, b, a)
  {
    var fs := es + {(a, b)};
    if Reaches(es, b, a) {
      ReachesMono(es, fs, b, a);
      assert (a, b) in fs;
    } else {
      forall x, y | (x, y) in fs
        ensures !Reaches(fs, y, x)
      {
        if Reaches(fs, y, x) {
          var p :| IsWalk(fs, p) && p[0] == y && p[|p| - 1] == x;
          WalkSplits(es, a, b, p);
          if (x, y) in es {
            assert Reaches(es, b, x) && Reaches(es, y, a);
            ReachesStep(es, b, x, y);
            ReachesTrans(es, b, y, a);
          }
        }
      }
    }
  }

  // Later elements of `order` only point to earlier ones.
  ghost predicate PointsBack(es: Edges, order: seq<Node>) {
    && (forall x, y :: (x, y) in es ==> x in order)
    && (forall k, y :: 0 <= k < |order| && (order[k], y) in es ==> y in order[..k])
  }

  // An enumeration in which every edge points back excludes cycles.
  lemma PointsBackAcyclic(es: Edges, order: seq<Node>)
    requires PointsBack(es, order)
    ensures Acyclic(es)
  {
    forall x, y | (x, y) in es
      ensures !Reaches(es, y, x)
    {
      if Reaches(es, y, x) {
        var k := First(order, x);
        var s := set i | 0 <= i < k :: order[i];
        forall u, v | (u, v) in es && u in s
          ensures v in s
        {
          var i :| 0 <= i < k && order[i] == u;
          assert (order[i], v) in es;
          var j :| 0 <= j < i && order[..i][j] == v;
          assert order[j] in s;
        }
        assert (order[k], y) in es;
        var j :| 0 <= j < k && order[..k][j] == y;
        assert order[j] in s;
        ClosedTraps(es, s, y, x);
        assert false;
      }
    }
  }

  ghost function First(order: seq<Node>, x: Node): (k: nat)
    requires x in order
    ensures k < |order| && order[k] == x && x !in order[..k]
  {
    if order[0] == x then 0 else
      assert order == [order[0]] + order[1..];
      var k := 1 + First(order[1..], x);
      assert forall i :: 1 <= i < k ==> order[i] == order[1..][..k - 1][i - 1];
      k
  }

  // Every nonempty set of nodes of an acyclic graph has a member with no edge
  // into the set: follow edges inside the set; each step shrinks it.
  lemma {:induction false} SinkExists(es: Edges, s: set<Node>) returns (m: Node)
    requires Acyclic(es) && s != {}
    ensures m in s && forall y :: (m, y) in es ==> y !in s
  {
    var a :| a in s;
    m := SinkFrom(es, s, s, a);
  }

  lemma {:induction false} SinkFrom(es: Edges, s: set<Node>, left: set<Node>, a: Node) returns (m: Node)
    requires Acyclic(es) && a in left && left <= s
    requires forall v :: v in s - left ==> Reaches(es, v, a)
    ensures m in s && forall y :: (m, y) in es ==> y !in s
    decreases left
  {
    if y :| (a, y) in es && y in s {
      ReachesSelf(es, a);
      assert y in left && y != a;
      forall v | v in s - (left - {a})
        ensures Reaches(es, v, y)
      {
        if v != a { assert v in s - left; }
        ReachesStep(es, v, a, y);
      }
      m := SinkFrom(es, s, left - {a}, y);
    } else {
      m := a;
    }
  }
}
