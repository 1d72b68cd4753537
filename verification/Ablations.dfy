/** What each mechanism is for: with one switched off, what every exploration then reports
    (crates/machine/tests/parity.rs), for all scenarios of the kind. */
module Ablations {
  import opened Types
  import opened Machine
  import opened MachineActions
  import Safety = MachineSafety
  import opened Explorer
  import opened Verdicts
  import T = Termination
  import Search

  lemma {:induction false} RunMore(sc: Scenario, w: World, moves: seq<Move>, a: Move)
    requires T.IsRun(sc, w, moves) && Enabled(sc, T.After(sc, w, moves), a)
    ensures T.IsRun(sc, w, moves + [a])
    ensures T.After(sc, w, moves + [a]) == Apply(sc, T.After(sc, w, moves), a)
    decreases moves
  {
    if moves == [] {
      assert moves + [a] == [a] && [a][1..] == [];
    } else {
      assert (moves + [a])[1..] == moves[1..] + [a];
      RunMore(sc, Apply(sc, w, moves[0]), moves[1..], a);
    }
  }

  lemma ReachMore(sc: Scenario, w: World, a: Move)
    requires Reached(sc, w) && Enabled(sc, w, a)
    ensures Reached(sc, Apply(sc, w, a))
  {
    var moves :| T.IsRun(sc, Init(sc), moves) && T.After(sc, Init(sc), moves) == w;
    RunMore(sc, Init(sc), moves, a);
  }

  lemma StartReached(sc: Scenario)
    ensures Reached(sc, Init(sc))
  {
    assert T.IsRun(sc, Init(sc), []) && T.After(sc, Init(sc), []) == Init(sc);
  }

  // --- with dedup: no violation, whatever else is off -----------------------------------------------

  /** Dedup on, and every chunk starts on an honest peer. */
  predicate Guarded(sc: Scenario) {
    sc.cfg.dedup && Supply(sc, Init(sc))
  }

  /** What keeps every world sound. */
  ghost predicate KeptSound(sc: Scenario, w: World) {
    && Safety.Safe(w.m) && Supply(sc, w) && BarsDeserved(sc, w)
    && (sc.timeoutBudget == 0 ==> w.tmo == 0)
  }

  lemma StartSound(sc: Scenario)
    requires Guarded(sc)
    ensures KeptSound(sc, Init(sc))
  {
    forall c | c in Init(sc).m.holders ensures Init(sc).m.holders[c] != {} {
      var h :| h in sc.holds && h.1 == c;
      assert h.0 in HoldersOf(sc, c);
    }
  }

  function ActOf(a: Move): Safety.Act {
    match a
    case Want(c, p) => Safety.Want(c, p)
    case Deliver(c, p) => Safety.Deliver(c, p)
    case Stall(c, p) => Safety.Stall(c, p)
    case Lose(c, p) => Safety.Lose(c, p)
    case Gain(c, p) => Safety.Observe(c, p)
    case New(c) => Safety.ArriveLive(c)
    case Reset(c) => Safety.Reset(c)
  }

  lemma StepSupply(sc: Scenario, w: World, a: Move)
    requires Enabled(sc, w, a) && Supply(sc, w)
    ensures Supply(sc, Apply(sc, w, a))
  {
    var w' := Apply(sc, w, a);
    if a.Lose? { AtSetRemove(w.m.holders, a.c, a.p); }
    if a.Gain? { AtSetInsert(w.m.holders, a.c, a.p); }
    forall c | c in sc.chunks ensures exists p :: p in At(w'.m.holders, c) && sc.Honest(p) {
      var p :| p in At(w.m.holders, c) && sc.Honest(p);
      if a.Lose? && a.c == c {
        var q :| q in At(w.m.holders, c) && q != a.p && sc.Honest(q);
        assert q in At(w'.m.holders, c);
      } else {
        assert p in At(w'.m.holders, c);
      }
    }
  }

  /** The environment's moves are actions of the machine. */
  lemma StepIsAct(sc: Scenario, w: World, a: Move)
    requires Enabled(sc, w, a)
    ensures Apply(sc, w, a).m == Safety.Do(w.m, ActOf(a)) && Safety.Allowed(w.m, ActOf(a))
  {
  }

  lemma StepBars(sc: Scenario, w: World, a: Move)
    requires Enabled(sc, w, a) && BarsDeserved(sc, w) && (sc.timeoutBudget == 0 ==> w.tmo == 0)
    ensures BarsDeserved(sc, Apply(sc, w, a)) && (sc.timeoutBudget == 0 ==> Apply(sc, w, a).tmo == 0)
  {
    match a {
      case Stall(c, p) => AtSetInsert(w.m.excluded, c, p);
      case Reset(c) => AtDrop(w.m.excluded, c);
      case _ =>
    }
  }

  lemma StepSound(sc: Scenario, w: World, a: Move)
    requires Enabled(sc, w, a) && KeptSound(sc, w)
    ensures KeptSound(sc, Apply(sc, w, a))
  {
    StepIsAct(sc, w, a);
    Safety.StepSafe(w.m, ActOf(a));
    StepSupply(sc, w, a);
    StepBars(sc, w, a);
  }

  lemma {:induction false} RunSound(sc: Scenario, w: World, moves: seq<Move>)
    requires T.IsRun(sc, w, moves) && KeptSound(sc, w)
    ensures KeptSound(sc, T.After(sc, w, moves))
    decreases moves
  {
    if moves != [] {
      StepSound(sc, w, moves[0]);
      RunSound(sc, Apply(sc, w, moves[0]), moves[1..]);
    }
  }

  /** With dedup, and every chunk on an honest peer to start with, no exploration reports a
      violation, whichever other mechanisms are off. */
  lemma DedupIsSafe(sc: Scenario, seen: set<World>, r: Search.Report<Move>)
    requires Reported(sc, seen, r) && Guarded(sc)
    ensures r.violation.None?
  {
    if r.violation.Some? {
      var w := T.After(sc, Init(sc), r.violation.value.1);
      StartSound(sc);
      RunSound(sc, Init(sc), r.violation.value.1);
      Safety.SafePassesChecks(w.m);
      ChecksAreExact(w.m);
    }
  }

  // --- without dedup: the double delivery is found ------------------------------------------------

  /** One reachable unsound world, and the report is a violation. */
  lemma UnsoundIsReported(sc: Scenario, seen: set<World>, r: Search.Report<Move>, w: World)
    requires Reported(sc, seen, r) && Reached(sc, w) && !Sound(sc, w)
    ensures r.violation.Some?
  {
  }

  lemma BothLeased(sc: Scenario, w: World, c: Triple, p: PeerId, q: PeerId)
    requires !w.m.cfg.dedup && p != q && w.m.Claimable(c, p) && w.m.Claimable(c, q)
    ensures Enabled(sc, w, Want(c, p)) && Apply(sc, w, Want(c, p)).m.Claimable(c, q)
  {
    var m' := w.m.Want(c, p);
    AtSetInsert(w.m.want, c, p);
    GuardIs(w.m, c);
    GuardIs(m', c);
    assert forall x :: Waits(m', x) ==> Waits(w.m, x);
  }

  /** Without dedup, two honest peers that may both be asked for one chunk, in a world that can be
      reached, end in a double delivery, and every exploration reports a violation. */
  lemma NoDedupIsCaught(sc: Scenario, seen: set<World>, r: Search.Report<Move>, w: World, c: Triple, p: PeerId, q: PeerId)
    requires Reported(sc, seen, r) && Reached(sc, w)
    requires !w.m.cfg.dedup && p != q && sc.Honest(p) && sc.Honest(q)
    requires w.m.Claimable(c, p) && w.m.Claimable(c, q)
    ensures r.violation.Some?
  {
    BothLeased(sc, w, c, p, q);
    ReachMore(sc, w, Want(c, p));
    var w1 := Apply(sc, w, Want(c, p));
    ReachMore(sc, w1, Want(c, q));
    var w2 := Apply(sc, w1, Want(c, q));
    WantIs(w.m, c, p, c, p);
    WantIs(w1.m, c, q, c, p);
    WantIs(w1.m, c, q, c, q);
    ReachMore(sc, w2, Deliver(c, p));
    var w3 := Apply(sc, w2, Deliver(c, p));
    DeliverIs(w2.m, c, p, c, q);
    ReachMore(sc, w3, Deliver(c, q));
    DeliverIs(w3.m, c, q, c, q);
    UnsoundIsReported(sc, seen, r, Apply(sc, w3, Deliver(c, q)));
  }

  // --- without exclusion: the livelock is found ----------------------------------------------------

  lemma StepNormal(sc: Scenario, w: World, a: Move)
    requires Enabled(sc, w, a) && Normal(w.m.want)
    ensures Normal(Apply(sc, w, a).m.want)
  {
  }

  lemma {:induction false} RunNormal(sc: Scenario, w: World, moves: seq<Move>)
    requires T.IsRun(sc, w, moves) && Normal(w.m.want)
    ensures Normal(T.After(sc, w, moves).m.want)
    decreases moves
  {
    if moves != [] {
      StepNormal(sc, w, moves[0]);
      RunNormal(sc, Apply(sc, w, moves[0]), moves[1..]);
    }
  }

  lemma StallUndoes(sc: Scenario, w: World, c: Triple, p: PeerId)
    requires w.m.cfg.failover && !w.m.cfg.exclude && !sc.Honest(p) && w.m.Claimable(c, p) && Normal(w.m.want)
    ensures Enabled(sc, Apply(sc, w, Want(c, p)), Stall(c, p))
    ensures Apply(sc, Apply(sc, w, Want(c, p)), Stall(c, p)) == w
  {
    var t := SetInsert(w.m.want, c, p);
    assert t[c] - {p} == At(w.m.want, c);
    assert SetRemove(t, c, p) == w.m.want;
  }

  /** Without exclusion, a claim a Byzantine peer may take it may stall and take again, and every
      exploration reports the cycle. */
  lemma NoExcludeLoops(sc: Scenario, seen: set<World>, r: Search.Report<Move>, w: World, c: Triple, p: PeerId)
    requires Reported(sc, seen, r) && Reached(sc, w)
    requires Guarded(sc) && w.m.cfg.failover && !w.m.cfg.exclude && !sc.Honest(p) && w.m.Claimable(c, p)
    ensures r.violation.None? && r.hasCycle
  {
    DedupIsSafe(sc, seen, r);
    var run :| T.IsRun(sc, Init(sc), run) && T.After(sc, Init(sc), run) == w;
    RunNormal(sc, Init(sc), run);
    StallUndoes(sc, w, c, p);
    RunMore(sc, w, [], Want(c, p));
    assert [] + [Want(c, p)] == [Want(c, p)];
    RunMore(sc, w, [Want(c, p)], Stall(c, p));
    assert Loops(sc, w, [Want(c, p)] + [Stall(c, p)]);
  }

  // --- without live fetching: staleness is found -----------------------------------------------------

  /** A live chunk is neither stored nor leased, and marked if it has arrived. */
  predicate Unfetched(m: State, c: Triple) {
    c !in m.got && At(m.want, c) == {} && (c in m.arrived ==> c in m.live)
  }

  lemma StepUnfetched(sc: Scenario, w: World, a: Move, c: Triple)
    requires !w.m.cfg.enableLive && Enabled(sc, w, a) && Unfetched(w.m, c)
    ensures Unfetched(Apply(sc, w, a).m, c) && !Apply(sc, w, a).m.cfg.enableLive
  {
    match a {
      case Want(d, p) =>
        AtSetInsert(w.m.want, d, p);
      case Deliver(d, p) => AtSetRemove(w.m.want, d, p);
      case Stall(d, p) => AtSetRemove(w.m.want, d, p);
      case Lose(d, p) => AtSetRemove(w.m.want, d, p);
      case _ =>
    }
  }

  lemma {:induction false} RunUnfetched(sc: Scenario, w: World, moves: seq<Move>, c: Triple)
    requires T.IsRun(sc, w, moves) && !w.m.cfg.enableLive && Unfetched(w.m, c)
    ensures Unfetched(T.After(sc, w, moves).m, c)
    decreases moves
  {
    if moves != [] {
      StepUnfetched(sc, w, moves[0], c);
      RunUnfetched(sc, Apply(sc, w, moves[0]), moves[1..], c);
    }
  }

  /** Without live fetching no live chunk is ever stored: every terminal is reported stale. */
  lemma NoLiveIsStale(sc: Scenario, seen: set<World>, r: Search.Report<Move>, c: Triple)
    requires Reported(sc, seen, r) && Guarded(sc) && !sc.cfg.enableLive && c in sc.liveChunks
    ensures r.violation.None? && r.unfreshTerminals == r.terminals
  {
    DedupIsSafe(sc, seen, r);
    forall w | w in seen ensures Misses(sc, w, sc.liveChunks) || !T.Terminal(sc, w) {
      var moves :| T.IsRun(sc, Init(sc), moves) && T.After(sc, Init(sc), moves) == w;
      RunUnfetched(sc, Init(sc), moves, c);
    }
    AllMiss(sc, seen, sc.liveChunks);
  }

  // --- with a single source: incompleteness is found ---------------------------------------------------

  /** The one peer a chunk is assigned to cannot serve it: it omits, or it does not hold the chunk
      and nothing can bring it there. */
  predicate Unservable(sc: Scenario, w: World, c: Triple) {
    c in w.m.assign && (!sc.Honest(w.m.assign[c]) || (w.chn == 0 && w.m.assign[c] !in At(w.m.holders, c)))
  }

  predicate Unserved(sc: Scenario, w: World, c: Triple) {
    && w.m.cfg.singleSource && Unservable(sc, w, c) && c !in w.m.got
    && forall p :: p in At(w.m.want, c) ==> p == w.m.assign[c] && !sc.Honest(p)
  }

  lemma StepUnserved(sc: Scenario, w: World, a: Move, c: Triple)
    requires Enabled(sc, w, a) && Unserved(sc, w, c)
    ensures Unserved(sc, Apply(sc, w, a), c)
  {
    match a {
      case Want(d, p) =>
        AtSetInsert(w.m.want, d, p);
      case Deliver(d, p) => AtSetRemove(w.m.want, d, p);
      case Stall(d, p) => AtSetRemove(w.m.want, d, p);
      case Lose(d, p) =>
        AtSetRemove(w.m.want, d, p);
        AtSetRemove(w.m.holders, d, p);
      case _ =>
    }
  }

  lemma {:induction false} RunUnserved(sc: Scenario, w: World, moves: seq<Move>, c: Triple)
    requires T.IsRun(sc, w, moves) && Unserved(sc, w, c)
    ensures Unserved(sc, T.After(sc, w, moves), c)
    decreases moves
  {
    if moves != [] {
      StepUnserved(sc, w, moves[0], c);
      RunUnserved(sc, Apply(sc, w, moves[0]), moves[1..], c);
    }
  }

  lemma AllMiss(sc: Scenario, seen: set<World>, wanted: set<Triple>)
    requires forall w :: w in seen ==> Misses(sc, w, wanted) || !T.Terminal(sc, w)
    ensures (set w | w in seen && Misses(sc, w, wanted)) == set w | w in seen && T.Terminal(sc, w)
  {
  }

  /** With a single source a chunk assigned to one that cannot serve it is never stored: every
      terminal is reported incomplete. */
  lemma SingleSourceIsIncomplete(sc: Scenario, seen: set<World>, r: Search.Report<Move>, c: Triple)
    requires Reported(sc, seen, r) && Guarded(sc) && sc.cfg.singleSource && c in sc.chunks && Unservable(sc, Init(sc), c)
    ensures r.violation.None? && r.incompleteTerminals == r.terminals
  {
    DedupIsSafe(sc, seen, r);
    forall w | w in seen ensures Misses(sc, w, sc.chunks) || !T.Terminal(sc, w) {
      var moves :| T.IsRun(sc, Init(sc), moves) && T.After(sc, Init(sc), moves) == w;
      RunUnserved(sc, Init(sc), moves, c);
    }
    AllMiss(sc, seen, sc.chunks);
  }
}
