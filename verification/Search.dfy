/** The exhaustive explorer (crates/machine/src/explore.rs, explore): a breadth-first search of
    every interleaving, its counterexample traces, its counts and its livelock verdict. The
    search never looks inside a world, so it is stated over an abstract transition system;
    module Explore plugs the machine and its environment in. */
module Search {
  import opened Types
  import Cycle

  /** A deterministic system of worlds and moves. `check` names a violated invariant; `complete`
      and `current` are asked of terminal worlds. */
  datatype System<!W, !A> = System(
    init: W,
    moves: W -> set<A>,
    step: (W, A) -> W,
    check: W -> Option<string>,
    complete: W -> bool,
    current: W -> bool)

  datatype Report<A> = Report(
    states: nat,
    violation: Option<(string, seq<A>)>,
    terminals: nat,
    incompleteTerminals: nat,
    unfreshTerminals: nat,
    hasCycle: bool)

  // --- the meaning of a report --------------------------------------------------------

  /** The moves are enabled one after the other. */
  ghost predicate IsRun<W, A>(sys: System<W, A>, w: W, moves: seq<A>)
    decreases |moves|
  {
    moves == [] || (moves[0] in sys.moves(w) && IsRun(sys, sys.step(w, moves[0]), moves[1..]))
  }

  ghost function After<W, A>(sys: System<W, A>, w: W, moves: seq<A>): W
    decreases |moves|
  {
    if moves == [] then w else After(sys, sys.step(w, moves[0]), moves[1..])
  }

  ghost predicate Reachable<W, A(!new)>(sys: System<W, A>, w: W) {
    exists moves :: IsRun(sys, sys.init, moves) && After(sys, sys.init, moves) == w
  }

  ghost predicate LoopsAt<W, A>(sys: System<W, A>, w: W, moves: seq<A>) {
    moves != [] && IsRun(sys, w, moves) && After(sys, w, moves) == w
  }

  /** Some reachable world can come back to itself. */
  ghost predicate Livelock<W(!new), A(!new)>(sys: System<W, A>) {
    exists w, moves :: Reachable(sys, w) && LoopsAt(sys, w, moves)
  }

  function Where<T>(s: set<T>, p: T -> bool): set<T> {
    set x | x in s && p(x)
  }

  function Terminal<W, A>(sys: System<W, A>): W -> bool {
    w => sys.moves(w) == {}
  }

  function Incomplete<W, A>(sys: System<W, A>): W -> bool {
    w => sys.moves(w) == {} && !sys.complete(w)
  }

  function Unfresh<W, A>(sys: System<W, A>): W -> bool {
    w => sys.moves(w) == {} && !sys.current(w)
  }

  /** What the report promises. A violation comes with a run that reaches it; otherwise `seen`
      is exactly the reachable worlds, all of them pass, and the counts and the livelock
      verdict are theirs. */
  ghost predicate Truthful<W(!new), A(!new)>(sys: System<W, A>, seen: set<W>, r: Report<A>) {
    match r.violation
    case Some(v) => IsRun(sys, sys.init, v.1) && sys.check(After(sys, sys.init, v.1)) == Some(v.0)
    case None =>
      && (forall w :: w in seen <==> Reachable(sys, w))
      && (forall w :: w in seen ==> sys.check(w) == None)
      && r.states == |seen|
      && r.terminals == |Where(seen, Terminal(sys))|
      && r.incompleteTerminals == |Where(seen, Incomplete(sys))|
      && r.unfreshTerminals == |Where(seen, Unfresh(sys))|
      && (r.hasCycle <==> Livelock(sys))
  }

  // --- the search's tables --------------------------------------------------------------

  /** `u` turns into `v` by the enabled move `a`. */
  ghost predicate Moves<W(!new), A(!new)>(sys: System<W, A>, u: W, a: A, v: W) {
    a in sys.moves(u) && sys.step(u, a) == v
  }

  /** `ids` numbers the discovered worlds, `worlds` lists them by number. */
  ghost predicate Numbered<W(!new)>(ids: map<W, nat>, worlds: seq<W>) {
    && (forall i :: 0 <= i < |worlds| ==> worlds[i] in ids && ids[worlds[i]] == i)
    && (forall w :: w in ids ==> ids[w] < |worlds| && worlds[ids[w]] == w)
    && |ids| == |worlds|
  }

  /** Each world but the first was discovered from an earlier one. */
  ghost predicate Parented<W(!new), A(!new)>(sys: System<W, A>, worlds: seq<W>, parent: seq<Option<(nat, A)>>) {
    && |parent| == |worlds| > 0 && worlds[0] == sys.init && parent[0].None?
    && forall i :: 0 < i < |worlds| ==> HasParent(sys, worlds, parent[i], i)
  }

  ghost predicate HasParent<W(!new), A(!new)>(sys: System<W, A>, worlds: seq<W>, from: Option<(nat, A)>, i: nat)
    requires i < |worlds|
  {
    from.Some? && from.value.0 < i && Moves(sys, worlds[from.value.0], from.value.1, worlds[i])
  }

  /** Every edge of `row` is a move of `w`. */
  ghost predicate Sound<W(!new), A(!new)>(sys: System<W, A>, worlds: seq<W>, row: seq<nat>, w: W) {
    forall e :: e in row ==> e < |worlds| && exists a :: Moves(sys, w, a, worlds[e])
  }

  /** Every move of `w` outside `todo` is an edge of `row`. */
  ghost predicate Covered<W(!new), A(!new)>(sys: System<W, A>, ids: map<W, nat>, row: seq<nat>, w: W, todo: set<A>) {
    forall a :: a in sys.moves(w) && a !in todo ==> sys.step(w, a) in ids && ids[sys.step(w, a)] in row
  }

  ghost predicate Rows<W(!new), A(!new)>(sys: System<W, A>, ids: map<W, nat>, worlds: seq<W>, adj: Cycle.Graph, done: nat) {
    && |adj| == |worlds|
    && (forall i :: 0 <= i < |adj| ==> Sound(sys, worlds, adj[i], worlds[i]))
    && (forall i :: 0 <= i < done && i < |adj| ==> Covered(sys, ids, adj[i], worlds[i], {}))
  }

  function Range(lo: nat, hi: nat): seq<nat>
    requires lo <= hi
  {
    seq(hi - lo, i requires 0 <= i < hi - lo => lo + i)
  }

  // --- traces -----------------------------------------------------------------------------

  lemma {:induction false} RunExtends<W(!new), A(!new)>(sys: System<W, A>, w: W, moves: seq<A>, a: A, v: W)
    requires IsRun(sys, w, moves) && Moves(sys, After(sys, w, moves), a, v)
    ensures IsRun(sys, w, moves + [a]) && After(sys, w, moves + [a]) == v
    decreases moves
  {
    if moves == [] {
      assert [a][1..] == [];
      assert moves + [a] == [a];
    } else {
      assert (moves + [a])[1..] == moves[1..] + [a];
      RunExtends(sys, sys.step(w, moves[0]), moves[1..], a, v);
    }
  }

  function Reversed<T>(s: seq<T>): seq<T> {
    if s == [] then [] else [s[|s| - 1]] + Reversed(s[..|s| - 1])
  }

  /** Follow the parents back to the start and reverse: a run that reaches the world. */
  method TraceTo<W(==, !new), A(==, !new)>(sys: System<W, A>, worlds: seq<W>, parent: seq<Option<(nat, A)>>, id: nat) returns (trace: seq<A>)
    requires Parented(sys, worlds, parent) && id < |worlds|
    ensures IsRun(sys, sys.init, trace) && After(sys, sys.init, trace) == worlds[id]
  {
    var acts: seq<A> := [];
    var at: nat := id;
    while parent[at].Some?
      invariant at < |worlds|
      invariant IsRun(sys, worlds[at], Reversed(acts)) && After(sys, worlds[at], Reversed(acts)) == worlds[id]
      decreases at
    {
      assert HasParent(sys, worlds, parent[at], at);
      var (prev, act) := parent[at].value;
      assert (acts + [act])[..|acts|] == acts;
      assert Reversed(acts + [act])[1..] == Reversed(acts);
      acts := acts + [act];
      at := prev;
    }
    assert at > 0 ==> HasParent(sys, worlds, parent[at], at);
    trace := Reversed(acts);
  }

  // --- the search finds exactly the reachable worlds ----------------------------------------

  lemma {:induction false} DiscoveredIsReachable<W(!new), A(!new)>(sys: System<W, A>, worlds: seq<W>, parent: seq<Option<(nat, A)>>, i: nat)
    requires Parented(sys, worlds, parent) && i < |worlds|
    ensures Reachable(sys, worlds[i])
    decreases i
  {
    if i == 0 {
      assert IsRun(sys, sys.init, []) && After(sys, sys.init, []) == sys.init;
    } else {
      assert HasParent(sys, worlds, parent[i], i);
      var (j, a) := parent[i].value;
      DiscoveredIsReachable(sys, worlds, parent, j);
      var moves :| IsRun(sys, sys.init, moves) && After(sys, sys.init, moves) == worlds[j];
      RunExtends(sys, sys.init, moves, a, worlds[i]);
    }
  }

  /** Walking a run stays inside fully expanded tables, edge by edge. */
  lemma {:induction false} RunIsWalk<W(!new), A(!new)>(sys: System<W, A>, ids: map<W, nat>, worlds: seq<W>, adj: Cycle.Graph, i: nat, moves: seq<A>)
      returns (p: seq<nat>)
    requires Numbered(ids, worlds) && Rows(sys, ids, worlds, adj, |worlds|)
    requires i < |worlds| && IsRun(sys, worlds[i], moves)
    ensures |p| == |moves| + 1 && p[0] == i && Cycle.Walk(adj, p)
    ensures p[|moves|] < |worlds| && worlds[p[|moves|]] == After(sys, worlds[i], moves)
    decreases moves
  {
    if moves == [] {
      p := [i];
    } else {
      assert Covered(sys, ids, adj[i], worlds[i], {});
      var w := sys.step(worlds[i], moves[0]);
      var rest := RunIsWalk(sys, ids, worlds, adj, ids[w], moves[1..]);
      p := [i] + rest;
      forall k | 0 <= k < |p| - 1 ensures Cycle.Edge(adj, p[k], p[k + 1]) {
        if k > 0 { assert Cycle.Edge(adj, rest[k - 1], rest[k - 1 + 1]); }
      }
    }
  }

  /** And every walk along the recorded edges is a run. */
  lemma {:induction false} WalkIsRun<W(!new), A(!new)>(sys: System<W, A>, ids: map<W, nat>, worlds: seq<W>, adj: Cycle.Graph, p: seq<nat>)
      returns (moves: seq<A>)
    requires Rows(sys, ids, worlds, adj, |worlds|) && Cycle.Walk(adj, p) && p[0] < |worlds|
    ensures |moves| == |p| - 1 && IsRun(sys, worlds[p[0]], moves)
    ensures p[|p| - 1] < |worlds| && After(sys, worlds[p[0]], moves) == worlds[p[|p| - 1]]
    decreases |p|
  {
    if |p| == 1 {
      moves := [];
    } else {
      assert Cycle.Edge(adj, p[0], p[0 + 1]);
      assert Sound(sys, worlds, adj[p[0]], worlds[p[0]]);
      var a :| Moves(sys, worlds[p[0]], a, worlds[p[1]]);
      forall k | 0 <= k < |p[1..]| - 1 ensures Cycle.Edge(adj, p[1..][k], p[1..][k + 1]) {
        assert Cycle.Edge(adj, p[k + 1], p[(k + 1) + 1]);
      }
      var rest := WalkIsRun(sys, ids, worlds, adj, p[1..]);
      moves := [a] + rest;
      assert moves[1..] == rest;
    }
  }

  /** With every row complete, the discovered worlds are the reachable ones. */
  lemma DiscoveredAreReachable<W(!new), A(!new)>(sys: System<W, A>, ids: map<W, nat>, worlds: seq<W>,
                               parent: seq<Option<(nat, A)>>, adj: Cycle.Graph)
    requires Numbered(ids, worlds) && Parented(sys, worlds, parent) && Rows(sys, ids, worlds, adj, |worlds|)
    ensures forall w :: w in ids.Keys <==> Reachable(sys, w)
  {
    forall w | w in ids ensures Reachable(sys, w) {
      DiscoveredIsReachable(sys, worlds, parent, ids[w]);
    }
    forall w | Reachable(sys, w) ensures w in ids {
      var moves :| IsRun(sys, sys.init, moves) && After(sys, sys.init, moves) == w;
      var p := RunIsWalk(sys, ids, worlds, adj, 0, moves);
    }
  }

  /** And the recorded graph is cyclic exactly when the environment can livelock. */
  lemma GraphCyclesAreLivelocks<W(!new), A(!new)>(sys: System<W, A>, ids: map<W, nat>, worlds: seq<W>,
                                parent: seq<Option<(nat, A)>>, adj: Cycle.Graph)
    requires Numbered(ids, worlds) && Parented(sys, worlds, parent) && Rows(sys, ids, worlds, adj, |worlds|)
    ensures Cycle.Cyclic(adj) <==> Livelock(sys)
  {
    if Cycle.Cyclic(adj) {
      var p :| Cycle.IsCycle(adj, p);
      assert Cycle.Edge(adj, p[0], p[0 + 1]);
      var moves := WalkIsRun(sys, ids, worlds, adj, p);
      DiscoveredIsReachable(sys, worlds, parent, p[0]);
      assert LoopsAt(sys, worlds[p[0]], moves);
    }
    if Livelock(sys) {
      DiscoveredAreReachable(sys, ids, worlds, parent, adj);
      var w, moves :| Reachable(sys, w) && LoopsAt(sys, w, moves);
      assert w in ids.Keys;
      var p := RunIsWalk(sys, ids, worlds, adj, ids[w], moves);
      assert Cycle.IsCycle(adj, p);
    }
  }

  // --- the search ---------------------------------------------------------------------------

  ghost function Listed<W>(worlds: seq<W>, done: nat): set<W>
    requires done <= |worlds|
  {
    set w | w in worlds[..done]
  }

  /** A new world enters the tables with an empty row. */
  lemma DiscoverKeepsTables<W(!new), A(!new)>(sys: System<W, A>, ids: map<W, nat>, worlds: seq<W>,
                            parent: seq<Option<(nat, A)>>, adj: Cycle.Graph, done: nat, id: nat, a: A, next: W)
    requires Numbered(ids, worlds) && Parented(sys, worlds, parent) && Rows(sys, ids, worlds, adj, done)
    requires id < |worlds| && Moves(sys, worlds[id], a, next) && next !in ids && done <= |worlds|
    ensures Numbered(ids[next := |worlds|], worlds + [next])
    ensures Parented(sys, worlds + [next], parent + [Some((id, a))])
    ensures Rows(sys, ids[next := |worlds|], worlds + [next], adj + [[]], done)
  {
    var ids', worlds' := ids[next := |worlds|], worlds + [next];
    var parent' := parent + [Some((id, a))];
    forall i | 0 < i < |worlds'| ensures HasParent(sys, worlds', parent'[i], i) {
      if i < |worlds| { assert HasParent(sys, worlds, parent[i], i); }
    }
    var adj' := adj + [[]];
    forall i | 0 <= i < |adj'| ensures Sound(sys, worlds', adj'[i], worlds'[i]) {
      if i < |adj| {
        assert Sound(sys, worlds, adj[i], worlds[i]);
        assert forall e :: e in adj[i] ==> worlds'[e] == worlds[e];
      }
    }
    forall i | 0 <= i < done ensures Covered(sys, ids', adj'[i], worlds'[i], {}) {
      assert Covered(sys, ids, adj[i], worlds[i], {});
    }
  }

  /** Recording the edge of `a` discharges `a`. */
  lemma EdgeKeepsTables<W(!new), A(!new)>(sys: System<W, A>, ids: map<W, nat>, worlds: seq<W>, adj: Cycle.Graph,
                        id: nat, a: A, next: W, todo: set<A>)
    requires Numbered(ids, worlds) && Rows(sys, ids, worlds, adj, id)
    requires id < |worlds| && Moves(sys, worlds[id], a, next) && next in ids
    requires Covered(sys, ids, adj[id], worlds[id], todo)
    ensures Rows(sys, ids, worlds, adj[id := adj[id] + [ids[next]]], id)
    ensures Covered(sys, ids, adj[id] + [ids[next]], worlds[id], todo - {a})
  {
    var row := adj[id] + [ids[next]];
    assert Sound(sys, worlds, adj[id], worlds[id]);
    assert Sound(sys, worlds, row, worlds[id]);
    var adj' := adj[id := row];
    forall i | 0 <= i < |adj'| ensures Sound(sys, worlds, adj'[i], worlds[i]) {
      assert Sound(sys, worlds, adj[i], worlds[i]);
    }
    forall i | 0 <= i < id ensures Covered(sys, ids, adj'[i], worlds[i], {}) {
      assert Covered(sys, ids, adj[i], worlds[i], {});
    }
  }

  lemma CoveredExtends<W(!new), A(!new)>(sys: System<W, A>, ids: map<W, nat>, row: seq<nat>, w: W, todo: set<A>, next: W, n: nat)
    requires Covered(sys, ids, row, w, todo) && next !in ids
    ensures Covered(sys, ids[next := n], row, w, todo)
  {
  }

  lemma ListOneMore<W>(worlds: seq<W>, done: nat)
    requires done < |worlds|
    ensures Listed(worlds, done + 1) == Listed(worlds, done) + {worlds[done]}
  {
    assert worlds[..done + 1] == worlds[..done] + [worlds[done]];
  }

  lemma CountOneMore<T>(s: set<T>, x: T, p: T -> bool)
    requires x !in s
    ensures |Where(s + {x}, p)| == |Where(s, p)| + if p(x) then 1 else 0
  {
    assert Where(s + {x}, p) == Where(s, p) + if p(x) then {x} else {};
  }

  /** The report's counts are those of the worlds searched so far, all of which pass. */
  ghost predicate Counted<W(!new), A(!new)>(sys: System<W, A>, r: Report<A>, ws: set<W>) {
    && r.violation.None?
    && (forall w :: w in ws ==> sys.check(w) == None)
    && r.terminals == |Where(ws, Terminal(sys))|
    && r.incompleteTerminals == |Where(ws, Incomplete(sys))|
    && r.unfreshTerminals == |Where(ws, Unfresh(sys))|
  }

  function Tally<W, A>(sys: System<W, A>, r: Report<A>, w: W): Report<A> {
    if !Terminal(sys)(w) then r
    else r.(
      terminals := r.terminals + 1,
      incompleteTerminals := r.incompleteTerminals + if sys.complete(w) then 0 else 1,
      unfreshTerminals := r.unfreshTerminals + if sys.current(w) then 0 else 1)
  }

  lemma TallyCounts<W(!new), A(!new)>(sys: System<W, A>, r: Report<A>, ws: set<W>, w: W)
    requires Counted(sys, r, ws) && w !in ws && sys.check(w) == None
    ensures Counted(sys, Tally(sys, r, w), ws + {w})
  {
    CountOneMore(ws, w, Terminal(sys));
    CountOneMore(ws, w, Incomplete(sys));
    CountOneMore(ws, w, Unfresh(sys));
  }

  lemma VisitCounts<W(!new), A(!new)>(sys: System<W, A>, r: Report<A>, ids: map<W, nat>, worlds: seq<W>, worlds': seq<W>, id: nat)
    requires Numbered(ids, worlds) && id < |worlds| <= |worlds'| && worlds'[..|worlds|] == worlds
    requires Counted(sys, r, Listed(worlds, id)) && sys.check(worlds[id]) == None
    ensures Counted(sys, Tally(sys, r, worlds[id]), Listed(worlds', id + 1))
  {
    assert worlds'[..id + 1] == worlds[..id + 1];
    ListOneMore(worlds, id);
    TallyCounts(sys, r, Listed(worlds, id), worlds[id]);
  }

  /** A finite collection of worlds that every enabled move stays inside. */
  ghost predicate Closed<W(!new), A(!new)>(sys: System<W, A>, space: set<W>) {
    forall w, a :: w in space && a in sys.moves(w) ==> sys.step(w, a) in space
  }

  /** The search's tables, as one value. */
  datatype Tables<W(==, !new), A(!new)> = Tables(
    ids: map<W, nat>,
    worlds: seq<W>,
    adj: Cycle.Graph,
    parent: seq<Option<(nat, A)>>,
    queue: seq<nat>)
  {
    /** The first `done` worlds are fully expanded; the queue holds the rest, in order. */
    ghost predicate Valid(sys: System<W, A>, space: set<W>, done: nat) {
      && Numbered(ids, worlds) && Parented(sys, worlds, parent) && Rows(sys, ids, worlds, adj, done)
      && done <= |worlds|
      && ids.Keys <= space
    }
  }

  /** Take one move of world `id`: discover its target if it is new and record the edge. */
  method Take<W(==, !new), A(==, !new)>(sys: System<W, A>, t: Tables<W, A>, id: nat, act: A, ghost todo: set<A>, ghost space: set<W>)
      returns (t': Tables<W, A>)
    requires t.Valid(sys, space, id) && Closed(sys, space) && id < |t.worlds| && t.queue == Range(id + 1, |t.worlds|)
    requires act in sys.moves(t.worlds[id]) && Covered(sys, t.ids, t.adj[id], t.worlds[id], todo)
    ensures t'.Valid(sys, space, id) && id < |t'.worlds| && t'.queue == Range(id + 1, |t'.worlds|)
    ensures |t.worlds| <= |t'.worlds| && t'.worlds[..|t.worlds|] == t.worlds
    ensures Covered(sys, t'.ids, t'.adj[id], t'.worlds[id], todo - {act})
  {
    var w := t.worlds[id];
    var next := sys.step(w, act);
    assert Moves(sys, w, act, next) && w in space && next in space;
    t' := t;
    if next !in t.ids {
      var nid := |t.worlds|;
      DiscoverKeepsTables(sys, t.ids, t.worlds, t.parent, t.adj, id, id, act, next);
      CoveredExtends(sys, t.ids, t.adj[id], w, todo, next, nid);
      t' := Tables(t.ids[next := nid], t.worlds + [next], t.adj + [[]], t.parent + [Some((id, act))], t.queue + [nid]);
    }
    EdgeKeepsTables(sys, t'.ids, t'.worlds, t'.adj, id, act, next, todo);
    t' := t'.(adj := t'.adj[id := t'.adj[id] + [t'.ids[next]]]);
  }

  /** Take every enabled move of one world. */
  method Expand<W(==, !new), A(==, !new)>(sys: System<W, A>, t0: Tables<W, A>, id: nat, ghost space: set<W>) returns (t: Tables<W, A>)
    requires t0.Valid(sys, space, id) && Closed(sys, space) && id < |t0.worlds| && t0.queue == Range(id + 1, |t0.worlds|)
    ensures t.Valid(sys, space, id + 1) && t.queue == Range(id + 1, |t.worlds|)
    ensures |t0.worlds| <= |t.worlds| && t.worlds[..|t0.worlds|] == t0.worlds
  {
    t := t0;
    var w := t.worlds[id];
    var acts := sys.moves(w);
    while acts != {}
      invariant t.Valid(sys, space, id) && id < |t.worlds| && t.queue == Range(id + 1, |t.worlds|)
      invariant |t0.worlds| <= |t.worlds| && t.worlds[..|t0.worlds|] == t0.worlds
      invariant t.worlds[id] == w
      invariant forall a :: a in acts ==> a in sys.moves(w)
      invariant Covered(sys, t.ids, t.adj[id], w, acts)
    {
      var act := Pick(acts);
      t := Take(sys, t, id, act, acts, space);
      acts := acts - {act};
    }
  }

  /** Count the world at the head of the queue, which passes, and expand it. */
  method Visit<W(==, !new), A(==, !new)>(sys: System<W, A>, t0: Tables<W, A>, r0: Report<A>, id: nat, ghost space: set<W>)
      returns (t: Tables<W, A>, r: Report<A>)
    requires t0.Valid(sys, space, id) && Closed(sys, space) && id < |t0.worlds| && t0.queue == Range(id, |t0.worlds|)
    requires Counted(sys, r0, Listed(t0.worlds, id)) && sys.check(t0.worlds[id]) == None
    ensures t.Valid(sys, space, id + 1) && t.queue == Range(id + 1, |t.worlds|)
    ensures Counted(sys, r, Listed(t.worlds, id + 1))
  {
    r := Tally(sys, r0, t0.worlds[id]);
    t := Expand(sys, t0.(queue := t0.queue[1..]), id, space);
    VisitCounts(sys, r0, t0.ids, t0.worlds, t.worlds, id);
  }

  method Begin<W(==, !new), A(==, !new)>(sys: System<W, A>, ghost space: set<W>) returns (t: Tables<W, A>)
    requires sys.init in space
    ensures t.Valid(sys, space, 0) && t.queue == Range(0, |t.worlds|)
  {
    t := Tables(map[sys.init := 0], [sys.init], [[]], [None], [0]);
  }

  lemma EmptyCount<W(!new), A(!new)>(sys: System<W, A>, r: Report<A>, worlds: seq<W>)
    requires r.violation.None? && r.terminals == r.incompleteTerminals == r.unfreshTerminals == 0
    ensures Counted(sys, r, Listed(worlds, 0))
  {
    assert Listed(worlds, 0) == {};
    assert Where({}, Terminal(sys)) == {} && Where({}, Incomplete(sys)) == {} && Where({}, Unfresh(sys)) == {};
  }

  /** Report the violated invariant with a run that reaches it. */
  method Refute<W(==, !new), A(==, !new)>(sys: System<W, A>, t: Tables<W, A>, r: Report<A>, id: nat, name: string,
                                          ghost space: set<W>) returns (report: Report<A>)
    requires t.Valid(sys, space, id) && id < |t.worlds| && sys.check(t.worlds[id]) == Some(name)
    ensures Truthful(sys, {}, report)
  {
    var trace := TraceTo(sys, t.worlds, t.parent, id);
    report := r.(states := |t.ids|, violation := Some((name, trace)));
  }

  /** Visit the queue until it is empty or a world fails its check. */
  method Sweep<W(==, !new), A(==, !new)>(sys: System<W, A>, ghost space: set<W>)
      returns (t: Tables<W, A>, r: Report<A>, done: nat, bad: Option<string>)
    requires sys.init in space && Closed(sys, space)
    ensures t.Valid(sys, space, done) && Counted(sys, r, Listed(t.worlds, done))
    ensures if bad.Some? then done < |t.worlds| && sys.check(t.worlds[done]) == bad else done == |t.worlds|
  {
    t := Begin(sys, space);
    r := Report(0, None, 0, 0, 0, false);
    EmptyCount(sys, r, t.worlds);
    done, bad := 0, None;
    while t.queue != []
      invariant t.Valid(sys, space, done) && t.queue == Range(done, |t.worlds|)
      invariant Counted(sys, r, Listed(t.worlds, done))
      invariant bad.None?
      decreases |space| - done
    {
      SubsetSize(t.ids.Keys, space);
      var id := t.queue[0];
      bad := sys.check(t.worlds[id]);
      if bad.Some? {
        return;
      }
      t, r := Visit(sys, t, r, id, space);
      done := done + 1;
    }
  }

  /** Exhaustive search of every interleaving from the start. It ends because the worlds are
      finitely many: `space` is any finite collection the moves stay inside. */
  method Explore<W(==, !new), A(==, !new)>(sys: System<W, A>, ghost space: set<W>)
      returns (report: Report<A>)
    requires sys.init in space && Closed(sys, space)
    ensures exists seen :: Truthful(sys, seen, report)
  {
    var t, r, done, bad := Sweep(sys, space);
    if bad.Some? {
      report := Refute(sys, t, r, done, bad.value, space);
      assert Truthful(sys, {}, report);
    } else {
      report := Conclude(sys, t, r, space);
      assert Truthful(sys, t.ids.Keys, report);
    }
  }

  /** The verdict over the finished tables. */
  method Conclude<W(==, !new), A(==, !new)>(sys: System<W, A>, t: Tables<W, A>, r: Report<A>, ghost space: set<W>) returns (report: Report<A>)
    requires t.Valid(sys, space, |t.worlds|) && Counted(sys, r, Listed(t.worlds, |t.worlds|))
    ensures Truthful(sys, t.ids.Keys, report)
  {
    DiscoveredAreReachable(sys, t.ids, t.worlds, t.parent, t.adj);
    GraphCyclesAreLivelocks(sys, t.ids, t.worlds, t.parent, t.adj);
    assert Listed(t.worlds, |t.worlds|) == t.ids.Keys;
    forall i, e | 0 <= i < |t.adj| && 0 <= e < |t.adj[i]| ensures t.adj[i][e] < |t.adj| {
      assert Sound(sys, t.worlds, t.adj[i], t.worlds[i]) && t.adj[i][e] in t.adj[i];
    }
    var cyclic := Cycle.HasCycle(t.adj);
    report := r.(states := |t.ids|, hasCycle := cyclic);
  }
}
