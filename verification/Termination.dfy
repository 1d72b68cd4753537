/** Termination and completeness of the environment's runs in every positive configuration:
    any chunks, peers, holdings, Byzantine set and budgets, priority on or off. */
module Termination {
  import opened Types
  import opened Machine
  import Safety = MachineSafety
  import opened Explorer

  /** All (chunk, peer) pairs of a scenario: the space bars and leases live in. */
  ghost function Grid(sc: Scenario): set<(Triple, PeerId)> {
    set c, p | c in sc.chunks && p in sc.peers :: (c, p)
  }

  ghost function Leased(sc: Scenario, w: World): set<(Triple, PeerId)> {
    set e | e in Grid(sc) && e.1 in At(w.m.want, e.0)
  }

  ghost function Unbarred(sc: Scenario, w: World): set<(Triple, PeerId)> {
    set e | e in Grid(sc) && e.1 !in At(w.m.excluded, e.0)
  }

  ghost function HonestBars(sc: Scenario, w: World): set<(Triple, PeerId)> {
    set e | e in Grid(sc) && e.1 in At(w.m.excluded, e.0) && sc.Honest(e.1)
  }

  /** First level: what is spent or gained for good. */
  ghost function Outstanding(sc: Scenario, w: World): nat {
    w.tmo + w.chn + |sc.chunks - w.m.arrived| + |sc.chunks - w.m.got|
  }

  /** Third level: a Byzantine stall trades one lease for one bar. */
  ghost function Slack(sc: Scenario, w: World): int {
    2 * |Unbarred(sc, w)| - |Leased(sc, w)|
  }

  ghost predicate Decreases(sc: Scenario, w: World, w': World) {
    || Outstanding(sc, w') < Outstanding(sc, w)
    || (Outstanding(sc, w') == Outstanding(sc, w) && |HonestBars(sc, w')| < |HonestBars(sc, w)|)
    || (Outstanding(sc, w') == Outstanding(sc, w) && |HonestBars(sc, w')| == |HonestBars(sc, w)|
        && Slack(sc, w') < Slack(sc, w))
  }

  lemma LeaseInGrid(sc: Scenario, w: World, c: Triple, p: PeerId)
    requires EnvInv(sc, w) && p in At(w.m.want, c)
    ensures (c, p) in Leased(sc, w) && (c, p) in Unbarred(sc, w) && (c, p) in Grid(sc)
  {
    assert Safety.LeaseOk(w.m, c);
    assert p in At(w.m.holders, c);
  }

  lemma LeasedAreUnbarred(sc: Scenario, w: World)
    requires EnvInv(sc, w)
    ensures Leased(sc, w) <= Unbarred(sc, w)
  {
    forall e | e in Leased(sc, w) ensures e in Unbarred(sc, w) {
      assert Safety.LeaseOk(w.m, e.0);
    }
  }

  /** The levels are bounded by the grid. */
  lemma LevelBounds(sc: Scenario, w: World)
    requires EnvInv(sc, w)
    ensures |HonestBars(sc, w)| <= |Grid(sc)|
    ensures 0 <= Slack(sc, w) <= 2 * |Grid(sc)|
  {
    LeasedAreUnbarred(sc, w);
    SubsetSize(HonestBars(sc, w), Grid(sc));
    SubsetSize(Unbarred(sc, w), Grid(sc));
    SubsetSize(Leased(sc, w), Unbarred(sc, w));
  }

  lemma WantDecreases(sc: Scenario, w: World, c: Triple, p: PeerId)
    requires EnvInv(sc, w) && Enabled(sc, w, Want(c, p))
    ensures Decreases(sc, w, Apply(sc, w, Want(c, p)))
  {
    var w' := Apply(sc, w, Want(c, p));
    AtSetInsert(w.m.want, c, p);
    assert (c, p) in Grid(sc);
    assert Leased(sc, w') == Leased(sc, w) + {(c, p)};
    assert (c, p) !in Leased(sc, w);
  }

  lemma DeliverDecreases(sc: Scenario, w: World, c: Triple, p: PeerId)
    requires EnvInv(sc, w) && Enabled(sc, w, Deliver(c, p))
    ensures Decreases(sc, w, Apply(sc, w, Deliver(c, p)))
  {
    var w' := Apply(sc, w, Deliver(c, p));
    assert Safety.LeaseOk(w.m, c);
    assert sc.chunks - w'.m.got == (sc.chunks - w.m.got) - {c};
    assert c in sc.chunks - w.m.got;
  }

  /** A stall of an honest peer spends budget; a Byzantine one becomes a bar that no honest
      bar is counted for. */
  lemma StallDecreases(sc: Scenario, w: World, c: Triple, p: PeerId)
    requires Positive(sc) && EnvInv(sc, w) && Enabled(sc, w, Stall(c, p))
    ensures Decreases(sc, w, Apply(sc, w, Stall(c, p)))
  {
    if !sc.Honest(p) {
      var w' := Apply(sc, w, Stall(c, p));
      LeaseInGrid(sc, w, c, p);
      AtSetRemove(w.m.want, c, p);
      AtSetInsert(w.m.excluded, c, p);
      assert HonestBars(sc, w') == HonestBars(sc, w);
      assert Leased(sc, w') == Leased(sc, w) - {(c, p)};
      assert Unbarred(sc, w') == Unbarred(sc, w) - {(c, p)};
    }
  }

  lemma NewDecreases(sc: Scenario, w: World, c: Triple)
    requires Positive(sc) && EnvInv(sc, w) && Enabled(sc, w, New(c))
    ensures Decreases(sc, w, Apply(sc, w, New(c)))
  {
    var w' := Apply(sc, w, New(c));
    assert sc.chunks - w'.m.arrived == (sc.chunks - w.m.arrived) - {c};
    assert c in sc.chunks - w.m.arrived;
  }

  /** A reset frees an honest holder: the bars covered every holder and supply says one of
      them is honest. */
  lemma ResetDecreases(sc: Scenario, w: World, c: Triple)
    requires EnvInv(sc, w) && Enabled(sc, w, Reset(c))
    ensures Decreases(sc, w, Apply(sc, w, Reset(c)))
  {
    var w' := Apply(sc, w, Reset(c));
    AtDrop(w.m.excluded, c);
    assert Supplied(sc, w, c);
    var p :| p in At(w.m.holders, c) && sc.Honest(p);
    assert (c, p) in HonestBars(sc, w) && (c, p) !in HonestBars(sc, w');
    assert HonestBars(sc, w') <= HonestBars(sc, w) - {(c, p)};
    SubsetSize(HonestBars(sc, w'), HonestBars(sc, w) - {(c, p)});
  }

  /** Every enabled move strictly decreases the three-level measure. */
  lemma StepDecreases(sc: Scenario, w: World, a: Move)
    requires Positive(sc) && EnvInv(sc, w) && Enabled(sc, w, a)
    ensures Decreases(sc, w, Apply(sc, w, a))
  {
    match a {
      case Want(c, p) => WantDecreases(sc, w, c, p);
      case Deliver(c, p) => DeliverDecreases(sc, w, c, p);
      case Stall(c, p) => StallDecreases(sc, w, c, p);
      case Lose(c, p) =>
      case Gain(c, p) =>
      case New(c) => NewDecreases(sc, w, c);
      case Reset(c) => ResetDecreases(sc, w, c);
    }
  }

  ghost function Mix(x: nat, y: nat, k: nat): nat {
    x * k + y
  }

  lemma {:induction false} MulMonotone(a: nat, b: nat, k: nat)
    requires a <= b
    ensures a * k <= b * k
    decreases b
  {
    if a < b {
      MulMonotone(a, b - 1, k);
      assert b * k == (b - 1) * k + k;
    }
  }

  lemma LexBelow(x: nat, y: nat, x': nat, y': nat, k: nat)
    requires x' < x || (x' == x && y' < y)
    requires y' < k
    ensures Mix(x', y', k) < Mix(x, y, k)
  {
    if x' < x {
      MulMonotone(x' + 1, x, k);
      assert (x' + 1) * k == x' * k + k;
    }
  }

  /** The measure as one number. */
  ghost function Rank(sc: Scenario, w: World): nat
    requires EnvInv(sc, w)
  {
    LevelBounds(sc, w);
    Mix(Mix(Outstanding(sc, w), |HonestBars(sc, w)|, |Grid(sc)| + 1), Slack(sc, w), 2 * |Grid(sc)| + 1)
  }

  lemma RankDecreases(sc: Scenario, w: World, a: Move)
    requires Positive(sc) && EnvInv(sc, w) && Enabled(sc, w, a)
    ensures EnvInv(sc, Apply(sc, w, a)) && Rank(sc, Apply(sc, w, a)) < Rank(sc, w)
  {
    StepEnv(sc, w, a);
    StepDecreases(sc, w, a);
    RankFollowsLevels(sc, w, Apply(sc, w, a));
  }

  lemma RankFollowsLevels(sc: Scenario, w: World, w': World)
    requires EnvInv(sc, w) && EnvInv(sc, w') && Decreases(sc, w, w')
    ensures Rank(sc, w') < Rank(sc, w)
  {
    LevelBounds(sc, w);
    LevelBounds(sc, w');
    MixDecreases(Outstanding(sc, w), |HonestBars(sc, w)|, Slack(sc, w),
                 Outstanding(sc, w'), |HonestBars(sc, w')|, Slack(sc, w'), |Grid(sc)| + 1, 2 * |Grid(sc)| + 1);
  }

  lemma MixDecreases(o: nat, b: nat, s: nat, o': nat, b': nat, s': nat, k: nat, l: nat)
    requires o' < o || (o' == o && (b' < b || (b' == b && s' < s)))
    requires b' < k && s' < l
    ensures Mix(Mix(o', b', k), s', l) < Mix(Mix(o, b, k), s, l)
  {
    if o' < o || b' < b {
      LexBelow(o, b, o', b', k);
    }
    LexBelow(Mix(o, b, k), s, Mix(o', b', k), s', l);
  }

  // --- runs -----------------------------------------------------------------------

  /** The moves are enabled one after the other. */
  ghost predicate IsRun(sc: Scenario, w: World, moves: seq<Move>)
    decreases moves
  {
    moves == [] || (Enabled(sc, w, moves[0]) && IsRun(sc, Apply(sc, w, moves[0]), moves[1..]))
  }

  ghost function After(sc: Scenario, w: World, moves: seq<Move>): World
    requires IsRun(sc, w, moves)
    decreases moves
  {
    if moves == [] then w else After(sc, Apply(sc, w, moves[0]), moves[1..])
  }

  lemma {:induction false} RunKeepsAndSpends(sc: Scenario, w: World, moves: seq<Move>)
    requires Positive(sc) && EnvInv(sc, w) && IsRun(sc, w, moves)
    ensures EnvInv(sc, After(sc, w, moves))
    ensures Rank(sc, After(sc, w, moves)) + |moves| <= Rank(sc, w)
    decreases moves
  {
    if moves != [] {
      RankDecreases(sc, w, moves[0]);
      RunKeepsAndSpends(sc, Apply(sc, w, moves[0]), moves[1..]);
    }
  }

  ghost predicate Terminal(sc: Scenario, w: World) {
    forall a :: !Enabled(sc, w, a)
  }

  /** No lease survives at a terminal world: an honest claim can deliver, any other can stall. */
  lemma TerminalHasNoLease(sc: Scenario, w: World)
    requires Positive(sc) && EnvInv(sc, w) && Terminal(sc, w)
    ensures w.m.want == map[]
  {
    if w.m.want != map[] {
      var c := Witness(w.m.want.Keys);
      assert Safety.LeaseOk(w.m, c);
      var p :| w.m.want[c] == {p};
      assert p in At(w.m.want, c);
      if sc.Honest(p) {
        assert Enabled(sc, w, Deliver(c, p));
      } else {
        assert Enabled(sc, w, Stall(c, p));
      }
    }
  }

  /** An unfetched chunk at a lease-free world where no reset is enabled still has a candidate. */
  lemma UnfetchedIsEligible(sc: Scenario, w: World, c: Triple)
    requires Positive(sc) && EnvInv(sc, w) && Terminal(sc, w)
    requires c in sc.chunks && c !in w.m.got
    ensures c in w.m.arrived && w.m.Eligible(c)
  {
    TerminalHasNoLease(sc, w);
    assert !Enabled(sc, w, New(c));
    assert Supplied(sc, w, c);
    var p :| p in At(w.m.holders, c) && sc.Honest(p);
    if At(w.m.holders, c) <= At(w.m.excluded, c) {
      assert p in At(w.m.excluded, c);
      assert Enabled(sc, w, Reset(c));
    } else {
      var q := NotSubset(At(w.m.holders, c), At(w.m.excluded, c));
    }
  }

  /** Completeness: a world with nothing enabled has every chunk stored. The weakened priority
      guard is what makes the deepest unfetched chunk claimable. */
  lemma TerminalIsComplete(sc: Scenario, w: World)
    requires Positive(sc) && EnvInv(sc, w) && Terminal(sc, w)
    ensures w.m.got == sc.chunks
  {
    var missing := sc.chunks - w.m.got;
    if !(sc.chunks <= w.m.got) {
      var x := NotSubset(sc.chunks, w.m.got);
      assert x in missing;
      var c := DeepestExists(w.m, missing);
      TerminalHasNoLease(sc, w);
      UnfetchedIsEligible(sc, w, c);
      var p :| p in At(w.m.holders, c) && p !in At(w.m.excluded, c);
      forall d | d in w.m.arrived && w.m.Eligible(d) ensures w.m.PrioOf(d) <= w.m.PrioOf(c) { assert d in missing; }
      assert w.m.PrioOk(c);
      assert Enabled(sc, w, Want(c, p));
    }
  }

  /** Every run from the start is finite, with a bound fixed by the scenario; every world on
      the way passes the explorer's checks; a run that cannot be extended has stored every
      chunk, live arrivals included, each exactly once. */
  lemma RunsTerminateComplete(sc: Scenario, moves: seq<Move>)
    requires Positive(sc) && IsRun(sc, Init(sc), moves)
    ensures EnvInv(sc, Init(sc)) && |moves| <= Rank(sc, Init(sc))
    ensures CheckEnvInvariants(sc, After(sc, Init(sc), moves)) == None
    ensures Terminal(sc, After(sc, Init(sc), moves)) ==>
      var m := After(sc, Init(sc), moves).m;
      m.got == sc.chunks && m.want == map[] && m.ndeliv + m.npre == |sc.chunks|
  {
    EnvInvInitially(sc);
    RunKeepsAndSpends(sc, Init(sc), moves);
    var w := After(sc, Init(sc), moves);
    EnvInvPassesChecks(sc, w);
    if Terminal(sc, w) {
      TerminalIsComplete(sc, w);
      TerminalHasNoLease(sc, w);
    }
  }
}
