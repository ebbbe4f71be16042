// _edges_have_cycle: a depth-first search with three colours and an explicit
// stack of iterators, shown to decide acyclicity.
module CycleCheck {
  import opened Domain
  import opened Graphs

  datatype Colour = White | Grey | Black

  type Adj = map<Node, seq<Node>>

  // A node with the position its iterator has reached.
  datatype Frame = Frame(node: Node, next: nat)

  ghost predicate OnStack(stack: seq<Frame>, n: Node) {
    exists i :: 0 <= i < |stack| && stack[i].node == n
  }

  ghost predicate Wired(adj: Adj) {
    forall x, k :: x in adj && 0 <= k < |adj[x]| ==> adj[x][k] in adj
  }

  // Grey nodes are those on the stack, black ones those finished.
  ghost predicate Coloured(adj: Adj, colour: map<Node, Colour>, stack: seq<Frame>, done: seq<Node>) {
    && colour.Keys == adj.Keys
    && (forall n :: n in adj ==> (colour[n] == Grey <==> OnStack(stack, n)))
    && (forall n :: n in adj ==> (colour[n] == Black <==> n in done))
    && (forall i, j :: 0 <= i < j < |stack| ==> stack[i].node != stack[j].node)
    && (forall n :: n in done ==> n in adj)
  }

  // Each frame has been left through the edge to the frame above it.
  ghost predicate Chained(adj: Adj, stack: seq<Frame>) {
    && (forall i :: 0 <= i < |stack| ==> stack[i].node in adj && stack[i].next <= |adj[stack[i].node]|)
    && (forall i :: 0 <= i < |stack| - 1 ==>
          stack[i].next > 0 && adj[stack[i].node][stack[i].next - 1] == stack[i + 1].node)
  }

  // What a frame's iterator has passed is finished, or is the frame above.
  ghost predicate Passed(adj: Adj, stack: seq<Frame>, done: seq<Node>)
    requires Chained(adj, stack)
  {
    forall i, k :: 0 <= i < |stack| && 0 <= k < stack[i].next ==>
      adj[stack[i].node][k] in done || (i + 1 < |stack| && k == stack[i].next - 1)
  }

  // Finished nodes only point to nodes finished before them.
  ghost predicate Finished(adj: Adj, done: seq<Node>) {
    forall k, y :: 0 <= k < |done| && done[k] in adj && y in adj[done[k]] ==> y in done[..k]
  }

  ghost predicate Dfs(adj: Adj, colour: map<Node, Colour>, stack: seq<Frame>, done: seq<Node>) {
    && Coloured(adj, colour, stack, done)
    && Chained(adj, stack)
    && Passed(adj, stack, done)
    && Finished(adj, done)
  }

  lemma {:induction false} StackReaches(adj: Adj, stack: seq<Frame>, i: nat, j: nat)
    requires Chained(adj, stack) && i <= j < |stack|
    ensures Reaches(Adjacency(adj), stack[i].node, stack[j].node)
  {
    var es := Adjacency(adj);
    if i == j {
      ReachesSelf(es, stack[i].node);
    } else {
      StackReaches(adj, stack, i, j - 1);
      assert stack[j - 1 + 1].node in adj[stack[j - 1].node];
      ReachesStep(es, stack[i].node, stack[j - 1].node, stack[j].node);
    }
  }

  // An edge from the top of the stack into the stack closes a cycle.
  lemma BackEdge(adj: Adj, colour: map<Node, Colour>, stack: seq<Frame>, done: seq<Node>, y: Node)
    requires Dfs(adj, colour, stack, done) && stack != []
    requires y in adj[stack[|stack| - 1].node] && y in adj && colour[y] == Grey
    ensures !Acyclic(Adjacency(adj))
  {
    var i :| 0 <= i < |stack| && stack[i].node == y;
    StackReaches(adj, stack, i, |stack| - 1);
    assert (stack[|stack| - 1].node, y) in Adjacency(adj);
  }

  ghost function Unvisited(colour: map<Node, Colour>): set<Node> {
    set n | n in colour && colour[n] == White
  }

  ghost predicate Monotone(colour: map<Node, Colour>, colour': map<Node, Colour>) {
    && colour'.Keys == colour.Keys
    && (forall n :: n in colour && colour[n] == Black ==> colour'[n] == Black)
    && (forall n :: n in colour && colour'[n] == White ==> colour[n] == White)
  }

  lemma Advance(adj: Adj, colour: map<Node, Colour>, stack: seq<Frame>, done: seq<Node>, node: Node, it: nat)
    requires Dfs(adj, colour, stack, done) && stack != [] && Wired(adj) && stack[|stack| - 1] == Frame(node, it)
    requires it < |adj[node]| && colour[adj[node][it]] == Black
    ensures Dfs(adj, colour, stack[|stack| - 1 := Frame(node, it + 1)], done)
  {
    var stack' := stack[|stack| - 1 := Frame(node, it + 1)];
    assert forall i :: 0 <= i < |stack| ==> stack'[i].node == stack[i].node;
    forall n | n in adj
      ensures OnStack(stack', n) <==> OnStack(stack, n)
    {
    }
  }

  lemma DescendColoured(adj: Adj, colour: map<Node, Colour>, stack: seq<Frame>, done: seq<Node>, f: Frame, y: Node)
    requires Coloured(adj, colour, stack, done) && stack != [] && f.node == stack[|stack| - 1].node
    requires y in adj && colour[y] == White
    ensures Coloured(adj, colour[y := Grey], stack[|stack| - 1 := f] + [Frame(y, 0)], done)
  {
    var stack' := stack[|stack| - 1 := f] + [Frame(y, 0)];
    assert forall i :: 0 <= i < |stack| ==> stack'[i].node == stack[i].node;
    assert stack'[|stack|].node == y;
    forall n | n in adj
      ensures OnStack(stack', n) <==> OnStack(stack, n) || n == y
    {
    }
  }

  lemma DescendPassed(adj: Adj, stack: seq<Frame>, done: seq<Node>, node: Node, it: nat)
    requires Chained(adj, stack) && Passed(adj, stack, done) && stack != [] && stack[|stack| - 1] == Frame(node, it)
    requires it < |adj[node]| && adj[node][it] in adj
    ensures var stack' := stack[|stack| - 1 := Frame(node, it + 1)] + [Frame(adj[node][it], 0)];
      Chained(adj, stack') && Passed(adj, stack', done)
  {
  }

  lemma Descend(adj: Adj, colour: map<Node, Colour>, stack: seq<Frame>, done: seq<Node>, node: Node, it: nat)
    requires Dfs(adj, colour, stack, done) && stack != [] && Wired(adj) && stack[|stack| - 1] == Frame(node, it)
    requires it < |adj[node]| && colour[adj[node][it]] == White
    ensures var y := adj[node][it];
      && Dfs(adj, colour[y := Grey], stack[|stack| - 1 := Frame(node, it + 1)] + [Frame(y, 0)], done)
      && Monotone(colour, colour[y := Grey]) && Unvisited(colour[y := Grey]) < Unvisited(colour)
  {
    DescendColoured(adj, colour, stack, done, Frame(node, it + 1), adj[node][it]);
    DescendPassed(adj, stack, done, node, it);
    assert adj[node][it] in Unvisited(colour);
  }

  lemma RetreatColoured(adj: Adj, colour: map<Node, Colour>, stack: seq<Frame>, done: seq<Node>)
    requires Coloured(adj, colour, stack, done) && stack != [] && stack[|stack| - 1].node in adj
    ensures var x := stack[|stack| - 1].node;
      Coloured(adj, colour[x := Black], stack[..|stack| - 1], done + [x]) && colour[x] == Grey
  {
    var top := |stack| - 1;
    var x, stack' := stack[top].node, stack[..top];
    assert OnStack(stack, x);
    forall n | n in adj
      ensures OnStack(stack', n) <==> OnStack(stack, n) && n != x
    {
      if OnStack(stack, n) && n != x {
        var i :| 0 <= i < |stack| && stack[i].node == n;
        assert stack'[i].node == n;
      }
    }
  }

  lemma RetreatPassed(adj: Adj, stack: seq<Frame>, done: seq<Node>)
    requires Chained(adj, stack) && Passed(adj, stack, done) && stack != []
    ensures Chained(adj, stack[..|stack| - 1])
    ensures Passed(adj, stack[..|stack| - 1], done + [stack[|stack| - 1].node])
  {
  }

  lemma RetreatFinished(adj: Adj, done: seq<Node>, x: Node)
    requires Finished(adj, done) && x in adj && forall y :: y in adj[x] ==> y in done
    ensures Finished(adj, done + [x])
  {
    var done' := done + [x];
    forall k, y | 0 <= k < |done'| && done'[k] in adj && y in adj[done'[k]]
      ensures y in done'[..k]
    {
      assert done'[..k] == done[..k];
      assert done[..|done|] == done;
    }
  }

  // The top frame's iterator is at its end: its node is finished.
  lemma Retreat(adj: Adj, colour: map<Node, Colour>, stack: seq<Frame>, done: seq<Node>)
    requires Dfs(adj, colour, stack, done) && stack != []
    requires var f := stack[|stack| - 1]; f.next == |adj[f.node]|
    ensures var x := stack[|stack| - 1].node;
      && Dfs(adj, colour[x := Black], stack[..|stack| - 1], done + [x])
      && Unvisited(colour[x := Black]) == Unvisited(colour) && Monotone(colour, colour[x := Black])
  {
    var x := stack[|stack| - 1].node;
    RetreatColoured(adj, colour, stack, done);
    RetreatPassed(adj, stack, done);
    forall y | y in adj[x]
      ensures y in done
    {
      var k :| 0 <= k < |adj[x]| && adj[x][k] == y;
      assert adj[stack[|stack| - 1].node][k] in done;
    }
    RetreatFinished(adj, done, x);
  }

  method EdgesHaveCycle(nodeIds: seq<Node>, edges: seq<(Node, Node)>) returns (found: bool)
    ensures found <==> !Acyclic(Elems(edges))
  {
    var adj := BuildAdjacency(nodeIds, edges);
    var colour := map n | n in adj :: White;
    ghost var done: seq<Node> := [];
    var roots := adj.Keys;
    while roots != {}
      invariant Dfs(adj, colour, [], done)
      invariant forall n :: n in adj && n !in roots ==> colour[n] == Black
      invariant roots <= adj.Keys
      decreases roots
    {
      var root :| root in roots;
      roots := roots - {root};
      if colour[root] == White {
        ghost var was := colour;
        found, colour, done := Visit(adj, colour, root, done);
        if found { return; }
        assert Monotone(was, colour);
      }
    }
    assert PointsBack(Adjacency(adj), done);
    PointsBackAcyclic(Adjacency(adj), done);
    return false;
  }

  // The search from one root.
  method Visit(adj: Adj, colour0: map<Node, Colour>, root: Node, ghost done0: seq<Node>)
    returns (found: bool, colour: map<Node, Colour>, ghost done: seq<Node>)
    requires Wired(adj) && Dfs(adj, colour0, [], done0) && root in adj && colour0[root] == White
    ensures found ==> !Acyclic(Adjacency(adj))
    ensures !found ==> Dfs(adj, colour, [], done) && Monotone(colour0, colour) && colour[root] == Black
  {
    found, colour, done := false, colour0[root := Grey], done0;
    var stack := [Frame(root, 0)];
    assert stack[0].node == root;
    while stack != []
      invariant Dfs(adj, colour, stack, done) && Monotone(colour0, colour) && colour[root] != White
      decreases Unvisited(colour), |stack|
    {
      var advanced;
      found, advanced, colour, stack := Iterate(adj, colour, stack, done);
      if found {
        return;
      }
      if !advanced {
        Retreat(adj, colour, stack, done);
        var node := stack[|stack| - 1].node;
        colour, stack, done := colour[node := Black], stack[..|stack| - 1], done + [node];
      }
    }
  }

  // The inner loop: the top iterator runs until it finds an unvisited node, a
  // back edge, or its end.
  method Iterate(adj: Adj, colour0: map<Node, Colour>, stack0: seq<Frame>, ghost done: seq<Node>)
    returns (found: bool, advanced: bool, colour: map<Node, Colour>, stack: seq<Frame>)
    requires Wired(adj) && Dfs(adj, colour0, stack0, done) && stack0 != []
    ensures found ==> !Acyclic(Adjacency(adj))
    ensures !found ==> Dfs(adj, colour, stack, done) && Monotone(colour0, colour)
    ensures !found && advanced ==> Unvisited(colour) < Unvisited(colour0)
    ensures !found && !advanced ==> colour == colour0 && |stack| == |stack0|
    ensures !found && !advanced ==> stack[|stack| - 1].next == |adj[stack[|stack| - 1].node]|
  {
    found, advanced, colour, stack := false, false, colour0, stack0;
    var top := |stack| - 1;
    var node, it := stack[top].node, stack[top].next;
    while it < |adj[node]|
      invariant |stack| == top + 1 && stack[top] == Frame(node, it) && it <= |adj[node]|
      invariant Dfs(adj, colour0, stack, done)
    {
      var nxt := adj[node][it];
      if colour[nxt] == Grey {
        BackEdge(adj, colour, stack, done, nxt);
        found := true;
        return;
      }
      if colour[nxt] == White {
        Descend(adj, colour, stack, done, node, it);
        colour := colour[nxt := Grey];
        stack := stack[top := Frame(node, it + 1)] + [Frame(nxt, 0)];
        advanced := true;
        return;
      }
      Advance(adj, colour, stack, done, node, it);
      it := it + 1;
      stack := stack[top := Frame(node, it)];
    }
  }

  method BuildAdjacency(nodeIds: seq<Node>, edges: seq<(Node, Node)>) returns (adj: Adj)
    ensures Wired(adj) && Adjacency(adj) == Elems(edges)
  {
    adj := map n | n in nodeIds :: [];
    for i := 0 to |edges|
      invariant Wired(adj)
      invariant Adjacency(adj) == Elems(edges[..i])
    {
      var (src, dst) := edges[i];
      ghost var was := adj;
      adj := adj[src := (if src in adj then adj[src] else []) + [dst]];
      if dst !in adj {
        adj := adj[dst := []];
      }
      assert edges[..i + 1] == edges[..i] + [edges[i]];
      forall x, y
        ensures (x, y) in Adjacency(adj) <==> (x, y) in Adjacency(was) || (x, y) == (src, dst)
      {
      }
      assert Adjacency(adj) == Adjacency(was) + {(src, dst)};
    }
    assert edges[..|edges|] == edges;
  }
}
