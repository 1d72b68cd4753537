/** What the explorer's verdicts mean (crates/machine/src/explore.rs), in the environment's own
    terms, and what the ablated configurations are caught at (crates/machine/tests/parity.rs). */
module Verdicts {
  import opened Types
  import opened Machine
  import opened MachineActions
  import opened Explorer
  import opened Explore
  import T = Termination
  import Search

  // --- the checks, exactly ---------------------------------------------------------------------

  predicate Supply(sc: Scenario, w: World) {
    forall c :: c in sc.chunks ==> exists p :: p in At(w.m.holders, c) && sc.Honest(p)
  }

  ghost predicate BarsDeserved(sc: Scenario, w: World) {
    sc.timeoutBudget == 0 ==> forall c, p :: p in At(w.m.excluded, c) ==> !sc.Honest(p)
  }

  ghost predicate MachineSound(m: State) {
    !m.conflict && DeliveriesAddUp(m) && ClaimedOnce(m) && ClaimsHeld(m)
  }

  ghost predicate Sound(sc: Scenario, w: World) {
    MachineSound(w.m) && Supply(sc, w) && BarsDeserved(sc, w)
  }

  lemma SupplyTest(sc: Scenario, w: World)
    ensures Supply(sc, w) <==> !exists c :: c in sc.chunks && !Supplied(sc, w, c)
  {
    if Supply(sc, w) {
      forall c | c in sc.chunks ensures Supplied(sc, w, c) {
        var p :| p in At(w.m.holders, c) && sc.Honest(p);
      }
    }
  }

  lemma BarsTest(sc: Scenario, w: World)
    ensures BarsDeserved(sc, w) <==>
      !(sc.timeoutBudget == 0 && exists c :: c in w.m.excluded && exists p :: p in w.m.excluded[c] && sc.Honest(p))
  {
    if sc.timeoutBudget == 0 {
      if c :| c in w.m.excluded && exists p :: p in w.m.excluded[c] && sc.Honest(p) {
        var p :| p in w.m.excluded[c] && sc.Honest(p);
        assert p in At(w.m.excluded, c);
      }
      if c, p :| p in At(w.m.excluded, c) && sc.Honest(p) {
        assert c in w.m.excluded && p in w.m.excluded[c];
      }
    }
  }

  /** The environment's checks look too: first the machine's own, by their names; then an
      unsupplied chunk; then, with no timeouts to spend, a barred honest peer. */
  lemma EnvChecksAreExact(sc: Scenario, w: World)
    ensures CheckEnvInvariants(sc, w) == None <==> Sound(sc, w)
    ensures !MachineSound(w.m) ==> CheckEnvInvariants(sc, w) == w.m.CheckInvariants()
    ensures CheckEnvInvariants(sc, w) == Some("ConflictFree") <==> w.m.conflict
    ensures CheckEnvInvariants(sc, w) == Some("SupplyInv") <==> MachineSound(w.m) && !Supply(sc, w)
    ensures CheckEnvInvariants(sc, w) == Some("NoFalseExclusion") <==>
      MachineSound(w.m) && Supply(sc, w) && !BarsDeserved(sc, w)
  {
    ChecksAreExact(w.m);
    SupplyTest(sc, w);
    BarsTest(sc, w);
  }

  // --- the moves, exactly ------------------------------------------------------------------------

  /** Who may do what: honest lease holders deliver; Byzantine ones stall at will, honest ones
      within the timeout budget; within the churn budget an unstored chunk loses a holder if an
      honest one survives, or gains one; live chunks arrive once. */
  lemma EnabledIs(sc: Scenario, w: World, c: Triple, p: PeerId)
    ensures Enabled(sc, w, Deliver(c, p)) <==> p in At(w.m.want, c) && p !in sc.byzantine
    ensures Enabled(sc, w, Stall(c, p)) <==>
      p in At(w.m.want, c) && w.m.cfg.failover && (p in sc.byzantine || w.tmo > 0)
    ensures Enabled(sc, w, New(c)) <==> c in sc.liveChunks && c !in w.m.got && c !in w.m.rejected && c !in w.m.arrived
    ensures Enabled(sc, w, Lose(c, p)) <==>
      && w.chn > 0 && c in sc.chunks && c !in w.m.got && p in At(w.m.holders, c)
      && exists q :: q in At(w.m.holders, c) && q !in sc.byzantine && q != p
    ensures Enabled(sc, w, Gain(c, p)) <==>
      w.chn > 0 && c in sc.chunks && c !in w.m.got && p in sc.peers && p !in At(w.m.holders, c)
  {
  }

  function Churns(moves: seq<Move>): nat {
    if moves == [] then 0 else (if moves[0].Lose? || moves[0].Gain? then 1 else 0) + Churns(moves[1..])
  }

  function Timeouts(sc: Scenario, moves: seq<Move>): nat {
    if moves == [] then 0 else (if moves[0].Stall? && sc.Honest(moves[0].p) then 1 else 0) + Timeouts(sc, moves[1..])
  }

  /** Budgets are spent move by move, and never overspent. */
  lemma {:induction false} BudgetsAddUp(sc: Scenario, w: World, moves: seq<Move>)
    requires T.IsRun(sc, w, moves)
    ensures T.After(sc, w, moves).chn + Churns(moves) == w.chn
    ensures T.After(sc, w, moves).tmo + Timeouts(sc, moves) == w.tmo
    decreases moves
  {
    if moves != [] {
      BudgetsAddUp(sc, Apply(sc, w, moves[0]), moves[1..]);
    }
  }

  /** The start: the holdings of the scenario, everything arrived but the live chunks, and the
      whole budgets. */
  lemma InitIs(sc: Scenario, c: Triple, p: PeerId)
    ensures var w := Init(sc);
      && (p in At(w.m.holders, c) <==> (p, c) in sc.holds)
      && (c in w.m.arrived <==> c in sc.chunks && c !in sc.liveChunks)
      && w.m.got == {} && w.m.want == map[] && w.m.excluded == map[] && w.m.live == {}
      && w.m.prio == sc.prio && w.m.assign == sc.assign && w.m.cfg == sc.cfg
      && w.tmo == sc.timeoutBudget && w.chn == sc.churnBudget
  {
    if (p, c) in sc.holds {
      assert (p, c).1 == c && (p, c) in sc.holds;
      assert c in Init(sc).m.holders;
    }
  }

  // --- a report in the environment's terms --------------------------------------------------------

  ghost predicate Reached(sc: Scenario, w: World) {
    exists moves :: T.IsRun(sc, Init(sc), moves) && T.After(sc, Init(sc), moves) == w
  }

  ghost predicate Loops(sc: Scenario, w: World, moves: seq<Move>) {
    moves != [] && T.IsRun(sc, w, moves) && T.After(sc, w, moves) == w
  }

  ghost predicate Misses(sc: Scenario, w: World, wanted: set<Triple>) {
    T.Terminal(sc, w) && exists c :: c in wanted && c !in w.m.got
  }

  /** A violation comes with a run from the start to a world whose first failed check it names.
      Without one, the worlds counted are those that can be reached, all are sound, the terminal
      ones are those with nothing enabled, incomplete if a chunk is missing and stale if a live
      one is, and there is a cycle exactly if some reachable world can come back to itself. */
  ghost predicate Reported(sc: Scenario, seen: set<World>, r: Search.Report<Move>) {
    match r.violation
    case Some(v) =>
      T.IsRun(sc, Init(sc), v.1) && CheckEnvInvariants(sc, T.After(sc, Init(sc), v.1)) == Some(v.0)
      && !Sound(sc, T.After(sc, Init(sc), v.1))
    case None =>
      && (forall w :: w in seen <==> Reached(sc, w))
      && (forall w :: w in seen ==> Sound(sc, w))
      && r.states == |seen|
      && r.terminals == |set w | w in seen && T.Terminal(sc, w)|
      && r.incompleteTerminals == |set w | w in seen && Misses(sc, w, sc.chunks)|
      && r.unfreshTerminals == |set w | w in seen && Misses(sc, w, sc.liveChunks)|
      && (r.hasCycle <==> exists w, moves :: Reached(sc, w) && Loops(sc, w, moves))
  }

  lemma ReachedIs(sc: Scenario, w: World)
    ensures Reached(sc, w) <==> Search.Reachable(SystemOf(sc), w)
  {
    if moves :| T.IsRun(sc, Init(sc), moves) && T.After(sc, Init(sc), moves) == w {
      RunsAgree(sc, Init(sc), moves);
    }
    if moves :| Search.IsRun(SystemOf(sc), Init(sc), moves) && Search.After(SystemOf(sc), Init(sc), moves) == w {
      RunsAgree(sc, Init(sc), moves);
    }
  }

  lemma LoopsAre(sc: Scenario, w: World, moves: seq<Move>)
    ensures Loops(sc, w, moves) <==> Search.LoopsAt(SystemOf(sc), w, moves)
  {
    RunsAgree(sc, w, moves);
  }

  lemma MissesIs(sc: Scenario, w: World, wanted: set<Triple>)
    ensures Misses(sc, w, wanted) <==> EnabledMoves(sc, w) == {} && !(wanted <= w.m.got)
  {
    TerminalWorldsAgree(sc, w);
    if !(wanted <= w.m.got) { var c := NotSubset(wanted, w.m.got); }
  }

  lemma SameWorlds(sc: Scenario, seen: set<World>)
    ensures Search.Where(seen, Search.Terminal(SystemOf(sc))) == set w | w in seen && T.Terminal(sc, w)
    ensures Search.Where(seen, Search.Incomplete(SystemOf(sc))) == set w | w in seen && Misses(sc, w, sc.chunks)
    ensures Search.Where(seen, Search.Unfresh(SystemOf(sc))) == set w | w in seen && Misses(sc, w, sc.liveChunks)
  {
    forall w ensures EnabledMoves(sc, w) == {} <==> T.Terminal(sc, w) { TerminalWorldsAgree(sc, w); }
    forall w ensures Misses(sc, w, sc.chunks) <==> Search.Incomplete(SystemOf(sc))(w) { MissesIs(sc, w, sc.chunks); }
    forall w ensures Misses(sc, w, sc.liveChunks) <==> Search.Unfresh(SystemOf(sc))(w) { MissesIs(sc, w, sc.liveChunks); }
  }

  lemma ReportMeans(sc: Scenario, seen: set<World>, r: Search.Report<Move>)
    requires Search.Truthful(SystemOf(sc), seen, r)
    ensures Reported(sc, seen, r)
  {
    match r.violation {
      case Some(v) =>
        RunsAgree(sc, Init(sc), v.1);
        EnvChecksAreExact(sc, T.After(sc, Init(sc), v.1));
      case None =>
        forall w ensures w in seen <==> Reached(sc, w) { ReachedIs(sc, w); }
        forall w | w in seen ensures Sound(sc, w) { EnvChecksAreExact(sc, w); }
        SameWorlds(sc, seen);
        forall w, moves ensures Loops(sc, w, moves) <==> Search.LoopsAt(SystemOf(sc), w, moves) { LoopsAre(sc, w, moves); }
        forall w ensures Reached(sc, w) <==> Search.Reachable(SystemOf(sc), w) { ReachedIs(sc, w); }
    }
  }

  /** Exploring any scenario, ablated configurations included, ends, and reports just that. */
  method ExploreAll(sc: Scenario) returns (report: Search.Report<Move>)
    ensures exists seen :: Reported(sc, seen, report)
  {
    report := ExploreScenario(sc);
    ghost var seen :| Search.Truthful(SystemOf(sc), seen, report);
    ReportMeans(sc, seen, report);
  }
}
