/** The explorer over the shipped machine (crates/machine/src/explore.rs): every scenario's
    report is truthful, and every positive scenario's report is clean. */
module Explore {
  import opened Types
  import opened Machine
  import opened Explorer
  import T = Termination
  import Search
  import Spaces

  // --- enabled moves ------------------------------------------------------------------

  /** Every enabled move, as a finite collection. */
  function EnabledMoves(sc: Scenario, w: World): set<Move> {
    (set e | e in w.m.EnabledWants() :: Want(e.0, e.1))
    + (set e | e in Pairs(w.m.want) && sc.Honest(e.1) :: Deliver(e.0, e.1))
    + (set e | e in Pairs(w.m.want) && w.m.cfg.failover && (!sc.Honest(e.1) || w.tmo > 0) :: Stall(e.0, e.1))
    + (set c | c in sc.liveChunks && Enabled(sc, w, New(c)) :: New(c))
    + (set c, p | c in sc.chunks && p in At(w.m.holders, c) && Enabled(sc, w, Lose(c, p)) :: Lose(c, p))
    + (set c, p | c in sc.chunks && p in sc.peers && Enabled(sc, w, Gain(c, p)) :: Gain(c, p))
    + (set c | c in sc.chunks && w.m.CanResetExcluded(c) :: Reset(c))
  }

  lemma EnabledMovesAre(sc: Scenario, w: World, a: Move)
    ensures a in EnabledMoves(sc, w) <==> Enabled(sc, w, a)
  {
    match a {
      case Want(c, p) => w.m.EnabledWantsAre(c, p);
      case Deliver(c, p) => assert (c, p) in Pairs(w.m.want) <==> p in At(w.m.want, c);
      case Stall(c, p) => assert (c, p) in Pairs(w.m.want) <==> p in At(w.m.want, c);
      case _ =>
    }
  }

  /** The transition system the explorer searches. */
  function SystemOf(sc: Scenario): Search.System<World, Move> {
    Search.System(
      Init(sc),
      w => EnabledMoves(sc, w),
      (w, a) => if Enabled(sc, w, a) then Apply(sc, w, a) else w,
      w => CheckEnvInvariants(sc, w),
      (w: World) => sc.chunks <= w.m.got,
      (w: World) => sc.liveChunks <= w.m.got)
  }

  /** Its runs are the environment's runs. */
  lemma {:induction false} RunsAgree(sc: Scenario, w: World, moves: seq<Move>)
    ensures Search.IsRun(SystemOf(sc), w, moves) <==> T.IsRun(sc, w, moves)
    ensures T.IsRun(sc, w, moves) ==> Search.After(SystemOf(sc), w, moves) == T.After(sc, w, moves)
    decreases moves
  {
    if moves != [] {
      EnabledMovesAre(sc, w, moves[0]);
      RunsAgree(sc, SystemOf(sc).step(w, moves[0]), moves[1..]);
    }
  }

  // --- every scenario -----------------------------------------------------------------------

  /** No scenario's moves leave its finite space. */
  lemma SpaceIsClosed(sc: Scenario)
    ensures Init(sc) in Spaces.Space(sc) && Search.Closed(SystemOf(sc), Spaces.Space(sc))
  {
    Spaces.InitBounded(sc);
    Spaces.SpaceIs(sc, Init(sc));
    forall w, a | w in Spaces.Space(sc) && a in EnabledMoves(sc, w) ensures SystemOf(sc).step(w, a) in Spaces.Space(sc) {
      EnabledMovesAre(sc, w, a);
      Spaces.SpaceIs(sc, w);
      Spaces.StepBounded(sc, w, a);
      Spaces.SpaceIs(sc, Apply(sc, w, a));
    }
  }

  /** Exploring any scenario, ablated configurations included, ends and reports the truth. */
  method ExploreScenario(sc: Scenario) returns (report: Search.Report<Move>)
    ensures exists seen :: Search.Truthful(SystemOf(sc), seen, report)
  {
    SpaceIsClosed(sc);
    report := Search.Explore(SystemOf(sc), Spaces.Space(sc));
  }

  // --- positive scenarios -------------------------------------------------------------------

  lemma ReachableIsSound(sc: Scenario, w: World)
    requires Positive(sc) && Search.Reachable(SystemOf(sc), w)
    ensures EnvInv(sc, w)
  {
    var moves :| Search.IsRun(SystemOf(sc), Init(sc), moves) && Search.After(SystemOf(sc), Init(sc), moves) == w;
    RunsAgree(sc, Init(sc), moves);
    EnvInvInitially(sc);
    T.RunKeepsAndSpends(sc, Init(sc), moves);
  }

  lemma TerminalWorldsAgree(sc: Scenario, w: World)
    ensures EnabledMoves(sc, w) == {} <==> T.Terminal(sc, w)
  {
    forall a ensures a in EnabledMoves(sc, w) <==> Enabled(sc, w, a) { EnabledMovesAre(sc, w, a); }
    if EnabledMoves(sc, w) != {} { var a := Witness(EnabledMoves(sc, w)); }
  }

  /** Some terminal world is reachable: keep moving until nothing is enabled. */
  lemma {:induction false} TerminalReachable(sc: Scenario, w: World, moves: seq<Move>) returns (v: World)
    requires Positive(sc) && EnvInv(sc, w)
    requires Search.IsRun(SystemOf(sc), Init(sc), moves) && Search.After(SystemOf(sc), Init(sc), moves) == w
    ensures Search.Reachable(SystemOf(sc), v) && EnabledMoves(sc, v) == {}
    decreases T.Rank(sc, w)
  {
    if EnabledMoves(sc, w) == {} {
      v := w;
    } else {
      var a := Witness(EnabledMoves(sc, w));
      EnabledMovesAre(sc, w, a);
      T.RankDecreases(sc, w, a);
      Search.RunExtends(SystemOf(sc), Init(sc), moves, a, Apply(sc, w, a));
      v := TerminalReachable(sc, Apply(sc, w, a), moves + [a]);
    }
  }

  lemma NoLivelock(sc: Scenario)
    requires Positive(sc)
    ensures !Search.Livelock(SystemOf(sc))
  {
    if Search.Livelock(SystemOf(sc)) {
      var w, moves :| Search.Reachable(SystemOf(sc), w) && Search.LoopsAt(SystemOf(sc), w, moves);
      ReachableIsSound(sc, w);
      RunsAgree(sc, w, moves);
      T.RunKeepsAndSpends(sc, w, moves);
    }
  }

  lemma NoneWhere<W>(s: set<W>, p: W -> bool)
    requires forall w :: w in s ==> !p(w)
    ensures |Search.Where(s, p)| == 0
  {
    assert Search.Where(s, p) == {};
  }

  /** The verdict asserted of every positive row of the check matrix: no violation, no
      incomplete or stale terminal, no livelock, and the search does come to an end. */
  predicate Clean(r: Search.Report<Move>) {
    r.violation.None? && r.incompleteTerminals == 0 && r.unfreshTerminals == 0 && !r.hasCycle && r.terminals > 0
  }

  lemma PositiveReportIsClean(sc: Scenario, seen: set<World>, r: Search.Report<Move>)
    requires Positive(sc) && Search.Truthful(SystemOf(sc), seen, r)
    ensures Clean(r)
  {
    var sys := SystemOf(sc);
    if r.violation.Some? {
      var moves := r.violation.value.1;
      RunsAgree(sc, Init(sc), moves);
      T.RunsTerminateComplete(sc, moves);
    } else {
      forall w | w in seen ensures !Search.Incomplete(sys)(w) && !Search.Unfresh(sys)(w) {
        ReachableIsSound(sc, w);
        TerminalWorldsAgree(sc, w);
        if EnabledMoves(sc, w) == {} { T.TerminalIsComplete(sc, w); }
      }
      NoneWhere(seen, Search.Incomplete(sys));
      NoneWhere(seen, Search.Unfresh(sys));
      NoLivelock(sc);
      EnvInvInitially(sc);
      var v := TerminalReachable(sc, Init(sc), []);
      assert v in Search.Where(seen, Search.Terminal(sys));
    }
  }

  /** Exploring a positive scenario, whatever its size, reports a clean verdict. */
  method ExplorePositive(sc: Scenario) returns (report: Search.Report<Move>)
    requires Positive(sc)
    ensures Clean(report)
  {
    report := ExploreScenario(sc);
    ghost var seen :| Search.Truthful(SystemOf(sc), seen, report);
    PositiveReportIsClean(sc, seen, report);
  }
}
