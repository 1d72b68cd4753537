/** The explorer's iterative three-colour depth-first search (crates/machine/src/explore.rs,
    has_cycle), proved against the definition of a directed cycle. */
module Cycle {

  type Graph = seq<seq<nat>>

  /** Every edge leads to a node of the graph. */
  predicate InRange(adj: Graph) {
    forall v, e :: 0 <= v < |adj| && 0 <= e < |adj[v]| ==> adj[v][e] < |adj|
  }

  ghost predicate Edge(adj: Graph, u: nat, v: nat) {
    u < |adj| && v in adj[u]
  }

  /** A path of at least one node along the edges. */
  ghost predicate Walk(adj: Graph, p: seq<nat>) {
    |p| > 0 && forall i :: 0 <= i < |p| - 1 ==> Edge(adj, p[i], p[i + 1])
  }

  ghost predicate IsCycle(adj: Graph, p: seq<nat>) {
    Walk(adj, p) && |p| >= 2 && p[0] == p[|p| - 1]
  }

  ghost predicate Cyclic(adj: Graph) {
    exists p :: IsCycle(adj, p)
  }

  const WHITE := 0
  const GREY := 1
  const BLACK := 2

  ghost function Whites(colour: seq<int>): set<int> {
    set v | 0 <= v < |colour| && colour[v] == WHITE
  }

  /** The stack is a path of exactly the grey nodes, and every edge already taken leads to a
      black node, except the one that pushed the next stack entry. */
  ghost predicate StackOk(adj: Graph, colour: seq<int>, stack: seq<(nat, nat)>) {
    && |colour| == |adj|
    && (forall i :: 0 <= i < |stack| ==> OnStack(adj, colour, stack, i))
    && (forall i, j :: 0 <= i < j < |stack| ==> stack[i].0 != stack[j].0)
    && (forall v :: 0 <= v < |adj| && colour[v] == GREY ==> exists i :: 0 <= i < |stack| && stack[i].0 == v)
  }

  ghost predicate OnStack(adj: Graph, colour: seq<int>, stack: seq<(nat, nat)>, i: nat)
    requires i < |stack| && |colour| == |adj|
  {
    var (v, edge) := stack[i];
    && v < |adj| && colour[v] == GREY && edge <= |adj[v]|
    && (i + 1 < |stack| ==> 0 < edge && adj[v][edge - 1] == stack[i + 1].0)
    && forall e :: 0 <= e < (if i + 1 < |stack| then edge - 1 else edge) ==>
         adj[v][e] < |adj| && colour[adj[v][e]] == BLACK
  }

  /** Black nodes carry a finishing time above that of each of their successors. */
  ghost predicate Finished(adj: Graph, colour: seq<int>, fin: seq<nat>, clock: nat) {
    && |fin| == |adj| == |colour|
    && forall v :: 0 <= v < |adj| && colour[v] == BLACK ==>
         fin[v] < clock && forall w :: w in adj[v] ==> w < |adj| && colour[w] == BLACK && fin[w] < fin[v]
  }

  /** A grey target closes a cycle along the stack. */
  lemma BackEdgeClosesCycle(adj: Graph, colour: seq<int>, stack: seq<(nat, nat)>, next: nat)
    requires StackOk(adj, colour, stack) && |stack| > 0
    requires Edge(adj, stack[|stack| - 1].0, next) && next < |adj| && colour[next] == GREY
    ensures Cyclic(adj)
  {
    var j :| 0 <= j < |stack| && stack[j].0 == next;
    var m := |stack| - j;
    var p := seq(m + 1, i requires 0 <= i <= m => if i == m then next else stack[j + i].0);
    forall i | 0 <= i < |p| - 1 ensures Edge(adj, p[i], p[i + 1]) {
      assert OnStack(adj, colour, stack, j + i);
    }
    assert IsCycle(adj, p);
  }

  /** Finishing times fall along every walk of black nodes. */
  lemma {:induction false} TimesFall(adj: Graph, colour: seq<int>, fin: seq<nat>, clock: nat, p: seq<nat>)
    requires Finished(adj, colour, fin, clock) && Walk(adj, p) && |p| >= 2
    requires p[0] < |adj| && colour[p[0]] == BLACK
    ensures p[|p| - 1] < |adj| && fin[p[|p| - 1]] < fin[p[0]]
    decreases |p|
  {
    assert Edge(adj, p[0], p[1]);
    if |p| > 2 {
      forall i | 0 <= i < |p[1..]| - 1 ensures Edge(adj, p[1..][i], p[1..][i + 1]) {
        assert Edge(adj, p[i + 1], p[(i + 1) + 1]);
      }
      TimesFall(adj, colour, fin, clock, p[1..]);
    }
  }

  lemma AllBlackIsAcyclic(adj: Graph, colour: seq<int>, fin: seq<nat>, clock: nat)
    requires Finished(adj, colour, fin, clock) && forall v :: 0 <= v < |adj| ==> colour[v] == BLACK
    ensures !Cyclic(adj)
  {
    if Cyclic(adj) {
      var p :| IsCycle(adj, p);
      assert Edge(adj, p[0], p[1]);
      TimesFall(adj, colour, fin, clock, p);
    }
  }

  ghost function Remaining(adj: Graph, stack: seq<(nat, nat)>): int {
    if stack == [] || stack[|stack| - 1].0 >= |adj| then 0
    else |adj[stack[|stack| - 1].0]| - stack[|stack| - 1].1
  }

  lemma PushKeepsStack(adj: Graph, colour: seq<int>, stack: seq<(nat, nat)>, next: nat)
    requires InRange(adj) && StackOk(adj, colour, stack) && |stack| > 0
    requires var (node, edge) := stack[|stack| - 1]; node < |adj| && edge < |adj[node]| && next == adj[node][edge]
    requires colour[next] == WHITE
    ensures var (node, edge) := stack[|stack| - 1];
      StackOk(adj, colour[next := GREY], stack[|stack| - 1 := (node, edge + 1)] + [(next, 0)])
    ensures Whites(colour[next := GREY]) < Whites(colour)
  {
    var top := |stack| - 1;
    var (node, edge) := stack[top];
    var colour', stack' := colour[next := GREY], stack[top := (node, edge + 1)] + [(next, 0)];
    forall i | 0 <= i < |stack'| ensures OnStack(adj, colour', stack', i) && (i < |stack| ==> stack'[i].0 == stack[i].0 != next) {
      if i < |stack| { assert OnStack(adj, colour, stack, i); }
    }
    forall v | 0 <= v < |adj| && colour'[v] == GREY ensures exists i :: 0 <= i < |stack'| && stack'[i].0 == v {
      if v == next {
        assert stack'[|stack|].0 == v;
      } else {
        var i :| 0 <= i < |stack| && stack[i].0 == v;
        assert stack'[i].0 == v;
      }
    }
    assert next in Whites(colour) && next !in Whites(colour');
  }

  lemma SkipKeepsStack(adj: Graph, colour: seq<int>, stack: seq<(nat, nat)>)
    requires InRange(adj) && StackOk(adj, colour, stack) && |stack| > 0
    requires var (node, edge) := stack[|stack| - 1];
      node < |adj| && edge < |adj[node]| && colour[adj[node][edge]] == BLACK
    ensures var (node, edge) := stack[|stack| - 1];
      StackOk(adj, colour, stack[|stack| - 1 := (node, edge + 1)])
  {
    var top := |stack| - 1;
    var (node, edge) := stack[top];
    var stack' := stack[top := (node, edge + 1)];
    assert forall i :: 0 <= i < |stack| ==> stack'[i].0 == stack[i].0;
    forall i | 0 <= i < |stack'| ensures OnStack(adj, colour, stack', i) {
      assert OnStack(adj, colour, stack, i);
      assert i < top ==> stack'[i] == stack[i];
    }
    forall v | 0 <= v < |adj| && colour[v] == GREY ensures exists i :: 0 <= i < |stack'| && stack'[i].0 == v {
      var i :| 0 <= i < |stack| && stack[i].0 == v;
      assert stack'[i].0 == v;
    }
  }

  lemma PopKeepsStack(adj: Graph, colour: seq<int>, stack: seq<(nat, nat)>)
    requires StackOk(adj, colour, stack) && |stack| > 0
    requires var (node, edge) := stack[|stack| - 1]; node < |adj| && edge == |adj[node]|
    ensures StackOk(adj, colour[stack[|stack| - 1].0 := BLACK], stack[..|stack| - 1])
    ensures Whites(colour[stack[|stack| - 1].0 := BLACK]) == Whites(colour)
  {
    var top := |stack| - 1;
    var node := stack[top].0;
    var colour', stack' := colour[node := BLACK], stack[..top];
    assert OnStack(adj, colour, stack, top);
    forall i | 0 <= i < |stack'| ensures OnStack(adj, colour', stack', i) {
      assert OnStack(adj, colour, stack, i);
      assert stack[i].0 != node;
    }
    forall v | 0 <= v < |adj| && colour'[v] == GREY ensures exists i :: 0 <= i < |stack'| && stack'[i].0 == v {
      var i :| 0 <= i < |stack| && stack[i].0 == v;
      assert stack'[i].0 == v;
    }
  }

  lemma PopFinishes(adj: Graph, colour: seq<int>, fin: seq<nat>, clock: nat, stack: seq<(nat, nat)>)
    requires StackOk(adj, colour, stack) && |stack| > 0 && Finished(adj, colour, fin, clock)
    requires var (node, edge) := stack[|stack| - 1]; node < |adj| && edge == |adj[node]|
    ensures var node := stack[|stack| - 1].0; Finished(adj, colour[node := BLACK], fin[node := clock], clock + 1)
  {
    assert OnStack(adj, colour, stack, |stack| - 1);
    var node := stack[|stack| - 1].0;
    forall w | w in adj[node] ensures w < |adj| && colour[w] == BLACK && fin[w] < clock {
      var e :| 0 <= e < |adj[node]| && adj[node][e] == w;
    }
  }

  /** True exactly when the graph has a directed cycle. */
  method HasCycle(adj: Graph) returns (found: bool)
    requires InRange(adj)
    ensures found <==> Cyclic(adj)
  {
    var colour := seq(|adj|, _ => WHITE);
    ghost var fin := seq(|adj|, _ => 0);
    ghost var clock := 0;
    for start := 0 to |adj|
      invariant StackOk(adj, colour, [])
      invariant Finished(adj, colour, fin, clock)
      invariant forall v :: 0 <= v < |adj| ==> WHITE <= colour[v] <= BLACK && (v < start ==> colour[v] != WHITE)
    {
      if colour[start] != WHITE {
        continue;
      }
      colour := colour[start := GREY];
      var stack: seq<(nat, nat)> := [(start, 0)];
      assert OnStack(adj, colour, stack, 0);
      assert stack[0].0 == start;
      while stack != []
        invariant StackOk(adj, colour, stack)
        invariant Finished(adj, colour, fin, clock)
        invariant forall v :: 0 <= v < |adj| ==> WHITE <= colour[v] <= BLACK && (v <= start ==> colour[v] != WHITE)
        decreases Whites(colour), |stack|, Remaining(adj, stack)
      {
        var top := |stack| - 1;
        var (node, edge) := stack[top];
        assert OnStack(adj, colour, stack, top);
        if edge < |adj[node]| {
          var next := adj[node][edge];
          if colour[next] == WHITE {
            PushKeepsStack(adj, colour, stack, next);
            colour := colour[next := GREY];
            stack := stack[top := (node, edge + 1)] + [(next, 0)];
          } else if colour[next] == GREY {
            BackEdgeClosesCycle(adj, colour, stack, next);
            return true;
          } else {
            SkipKeepsStack(adj, colour, stack);
            stack := stack[top := (node, edge + 1)];
          }
        } else {
          PopKeepsStack(adj, colour, stack);
          PopFinishes(adj, colour, fin, clock, stack);
          colour := colour[node := BLACK];
          fin, clock := fin[node := clock], clock + 1;
          stack := stack[..top];
        }
      }
    }
    forall v | 0 <= v < |adj| ensures colour[v] == BLACK {
      assert colour[v] != GREY;
    }
    AllBlackIsAcyclic(adj, colour, fin, clock);
    found := false;
  }
}
