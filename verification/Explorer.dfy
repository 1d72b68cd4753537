/** The machine's environment (crates/machine/src/explore.rs): who may deliver, stall, churn,
    arrive or reset, within which budgets, and the invariants that need to know the peers. */
module Explorer {
  import opened Types
  import opened Machine
  import Safety = MachineSafety

  /** One row of the check matrix. The source's lists are only searched, so they are sets. */
  datatype Scenario = Scenario(
    cfg: Config,
    chunks: set<Triple>,
    peers: set<PeerId>,
    holds: set<(PeerId, Triple)>,
    byzantine: set<PeerId>,
    liveChunks: set<Triple>,
    prio: map<Triple, int>,
    assign: map<Triple, PeerId>,
    timeoutBudget: nat,
    churnBudget: nat)
  {
    predicate Honest(p: PeerId) {
      p !in byzantine
    }
  }

  /** The explored state: the machine and what is left of the environment's budgets. */
  datatype World = World(m: State, tmo: nat, chn: nat)

  datatype Move =
    | Want(c: Triple, p: PeerId)
    | Deliver(c: Triple, p: PeerId)
    | Stall(c: Triple, p: PeerId)
    | Lose(c: Triple, p: PeerId)
    | Gain(c: Triple, p: PeerId)
    | New(c: Triple)
    | Reset(c: Triple)

  function HoldersOf(sc: Scenario, c: Triple): set<PeerId> {
    set h | h in sc.holds && h.1 == c :: h.0
  }

  function Init(sc: Scenario): World {
    World(Initial(sc.cfg).(
      holders := map c | c in (set h | h in sc.holds :: h.1) :: HoldersOf(sc, c),
      prio := sc.prio,
      assign := sc.assign,
      arrived := sc.chunks - sc.liveChunks), sc.timeoutBudget, sc.churnBudget)
  }

  predicate Enabled(sc: Scenario, w: World, a: Move) {
    match a
    case Want(c, p) => w.m.Claimable(c, p)
    case Deliver(c, p) => p in At(w.m.want, c) && sc.Honest(p)
    case Stall(c, p) => p in At(w.m.want, c) && w.m.cfg.failover && (!sc.Honest(p) || w.tmo > 0)
    case New(c) => c in sc.liveChunks && !w.m.Settled(c) && c !in w.m.arrived
    case Lose(c, p) =>
      && w.chn > 0 && c in sc.chunks && c !in w.m.got
      && p in At(w.m.holders, c)
      && exists q :: q in At(w.m.holders, c) && q != p && sc.Honest(q)
    case Gain(c, p) => w.chn > 0 && c in sc.chunks && c !in w.m.got && p in sc.peers && p !in At(w.m.holders, c)
    case Reset(c) => c in sc.chunks && w.m.CanResetExcluded(c)
  }

  function Apply(sc: Scenario, w: World, a: Move): World
    requires Enabled(sc, w, a)
  {
    match a
    case Want(c, p) => w.(m := w.m.Want(c, p))
    case Deliver(c, p) => w.(m := w.m.Deliver(c, p))
    case Stall(c, p) => World(w.m.Stall(c, p), if sc.Honest(p) then w.tmo - 1 else w.tmo, w.chn)
    case Lose(c, p) => World(w.m.LoseHolder(c, p), w.tmo, w.chn - 1)
    case Gain(c, p) => World(w.m.ObserveHolder(c, p), w.tmo, w.chn - 1)
    case New(c) => w.(m := w.m.ArriveLive(c))
    case Reset(c) => w.(m := w.m.ResetExcluded(c))
  }

  predicate Supplied(sc: Scenario, w: World, c: Triple) {
    exists p :: p in At(w.m.holders, c) && sc.Honest(p)
  }

  /** The environment-aware checks, in the source's order. */
  function CheckEnvInvariants(sc: Scenario, w: World): Option<string> {
    if w.m.CheckInvariants().Some? then w.m.CheckInvariants()
    else if exists c :: c in sc.chunks && !Supplied(sc, w, c) then Some("SupplyInv")
    else if sc.timeoutBudget == 0 && exists c :: c in w.m.excluded && exists p :: p in w.m.excluded[c] && sc.Honest(p)
      then Some("NoFalseExclusion")
    else None
  }

  /** A positive configuration: every mechanism on, the disqualified single-source family off,
      priority either way; and each chunk starts on at least one honest peer. */
  predicate Positive(sc: Scenario) {
    && sc.cfg.dedup && sc.cfg.failover && sc.cfg.exclude && sc.cfg.resetOnExhaust
    && sc.cfg.enableLive && !sc.cfg.singleSource
    && sc.liveChunks <= sc.chunks
    && (forall h :: h in sc.holds ==> h.0 in sc.peers && h.1 in sc.chunks)
    && (forall c :: c in sc.chunks ==> exists h :: h in sc.holds && h.1 == c && sc.Honest(h.0))
  }

  /** What every reachable world of a positive configuration satisfies. */
  ghost predicate EnvInv(sc: Scenario, w: World) {
    && w.m.cfg == sc.cfg
    && Safety.Safe(w.m)
    && w.m.rejected == {}
    && w.m.arrived <= sc.chunks
    && sc.chunks - sc.liveChunks <= w.m.arrived
    && w.m.got <= sc.chunks
    && (forall c :: c in sc.chunks ==> Supplied(sc, w, c))
    && InGrid(sc, w.m.holders) && InGrid(sc, w.m.excluded)
    && (sc.timeoutBudget == 0 ==> w.tmo == 0 && forall c, p :: p in At(w.m.excluded, c) ==> !sc.Honest(p))
  }

  ghost predicate InGrid(sc: Scenario, t: Table) {
    forall c, p :: p in At(t, c) ==> c in sc.chunks && p in sc.peers
  }

  lemma GridShrinks(sc: Scenario, t: Table, c: Triple, p: PeerId)
    requires InGrid(sc, t)
    ensures InGrid(sc, SetRemove(t, c, p))
  {
    AtSetRemove(t, c, p);
    assert forall d, q :: q in At(SetRemove(t, c, p), d) ==> q in At(t, d);
  }

  lemma GridGrows(sc: Scenario, t: Table, c: Triple, p: PeerId)
    requires InGrid(sc, t) && c in sc.chunks && p in sc.peers
    ensures InGrid(sc, SetInsert(t, c, p))
  {
    AtSetInsert(t, c, p);
    assert forall d, q :: q in At(SetInsert(t, c, p), d) ==> q in At(t, d) || (d == c && q == p);
  }

  lemma GridDrops(sc: Scenario, t: Table, c: Triple)
    requires InGrid(sc, t)
    ensures InGrid(sc, t - {c})
  {
    AtDrop(t, c);
    assert forall d, q :: q in At(t - {c}, d) ==> q in At(t, d);
  }

  lemma InitialGrid(sc: Scenario)
    requires Positive(sc)
    ensures InGrid(sc, Init(sc).m.holders)
  {
    var t := Init(sc).m.holders;
    forall c, p | p in At(t, c) ensures c in sc.chunks && p in sc.peers {
      assert p in HoldersOf(sc, c);
      var h :| h in sc.holds && h.1 == c && h.0 == p;
    }
  }

  lemma EnvInvInitially(sc: Scenario)
    requires Positive(sc)
    ensures EnvInv(sc, Init(sc))
  {
    var w := Init(sc);
    forall c | c in sc.chunks ensures Supplied(sc, w, c) {
      var h :| h in sc.holds && h.1 == c && sc.Honest(h.0);
      assert h.0 in At(w.m.holders, c);
    }
    InitialGrid(sc);
    forall c | c in w.m.holders ensures w.m.holders[c] != {} {
      var h :| h in sc.holds && h.1 == c;
      assert h.0 in w.m.holders[c];
    }
  }

  lemma SupplyKept(sc: Scenario, w: World, w': World)
    requires forall c :: c in sc.chunks ==> Supplied(sc, w, c)
    requires w'.m.holders == w.m.holders
    ensures forall c :: c in sc.chunks ==> Supplied(sc, w', c)
  {
    forall c | c in sc.chunks ensures Supplied(sc, w', c) { assert Supplied(sc, w, c); }
  }

  lemma WantEnv(sc: Scenario, w: World, c: Triple, p: PeerId)
    requires EnvInv(sc, w) && Enabled(sc, w, Want(c, p))
    ensures EnvInv(sc, Apply(sc, w, Want(c, p)))
  {
    Safety.SafeWant(w.m, c, p);
    SupplyKept(sc, w, Apply(sc, w, Want(c, p)));
  }

  lemma DeliverEnv(sc: Scenario, w: World, c: Triple, p: PeerId)
    requires EnvInv(sc, w) && Enabled(sc, w, Deliver(c, p))
    ensures EnvInv(sc, Apply(sc, w, Deliver(c, p)))
  {
    assert Safety.LeaseOk(w.m, c);
    Safety.SafeDeliver(w.m, c, p);
    SupplyKept(sc, w, Apply(sc, w, Deliver(c, p)));
  }

  lemma StallEnv(sc: Scenario, w: World, c: Triple, p: PeerId)
    requires Positive(sc) && EnvInv(sc, w) && Enabled(sc, w, Stall(c, p))
    ensures EnvInv(sc, Apply(sc, w, Stall(c, p)))
  {
    assert Safety.LeaseOk(w.m, c);
    assert p in At(w.m.holders, c);
    Safety.SafeStall(w.m, c, p);
    AtSetInsert(w.m.excluded, c, p);
    GridGrows(sc, w.m.excluded, c, p);
    SupplyKept(sc, w, Apply(sc, w, Stall(c, p)));
  }

  lemma LoseEnv(sc: Scenario, w: World, c: Triple, p: PeerId)
    requires EnvInv(sc, w) && Enabled(sc, w, Lose(c, p))
    ensures EnvInv(sc, Apply(sc, w, Lose(c, p)))
  {
    Safety.SafeLose(w.m, c, p);
    AtSetRemove(w.m.holders, c, p);
    var w' := Apply(sc, w, Lose(c, p));
    forall d | d in sc.chunks ensures Supplied(sc, w', d) {
      assert Supplied(sc, w, d);
      if d == c {
        var q :| q in At(w.m.holders, c) && q != p && sc.Honest(q);
        assert q in At(w'.m.holders, c);
      } else {
        assert At(w'.m.holders, d) == At(w.m.holders, d);
      }
    }
    GridShrinks(sc, w.m.holders, c, p);
  }

  lemma GainEnv(sc: Scenario, w: World, c: Triple, p: PeerId)
    requires EnvInv(sc, w) && Enabled(sc, w, Gain(c, p))
    ensures EnvInv(sc, Apply(sc, w, Gain(c, p)))
  {
    Safety.SafeObserve(w.m, c, p);
    GridGrows(sc, w.m.holders, c, p);
    AtSetInsert(w.m.holders, c, p);
    var w' := Apply(sc, w, Gain(c, p));
    forall d | d in sc.chunks ensures Supplied(sc, w', d) {
      assert Supplied(sc, w, d);
      var q :| q in At(w.m.holders, d) && sc.Honest(q);
      assert q in At(w'.m.holders, d);
    }
  }

  lemma NewEnv(sc: Scenario, w: World, c: Triple)
    requires Positive(sc) && EnvInv(sc, w) && Enabled(sc, w, New(c))
    ensures EnvInv(sc, Apply(sc, w, New(c)))
  {
    Safety.SafeArrive(w.m, c);
    SupplyKept(sc, w, Apply(sc, w, New(c)));
  }

  lemma ResetEnv(sc: Scenario, w: World, c: Triple)
    requires EnvInv(sc, w) && Enabled(sc, w, Reset(c))
    ensures EnvInv(sc, Apply(sc, w, Reset(c)))
  {
    Safety.SafeReset(w.m, c);
    AtDrop(w.m.excluded, c);
    GridDrops(sc, w.m.excluded, c);
    SupplyKept(sc, w, Apply(sc, w, Reset(c)));
  }

  /** Every enabled move keeps the environment's invariant. */
  lemma StepEnv(sc: Scenario, w: World, a: Move)
    requires Positive(sc) && EnvInv(sc, w) && Enabled(sc, w, a)
    ensures EnvInv(sc, Apply(sc, w, a))
  {
    match a {
      case Want(c, p) => WantEnv(sc, w, c, p);
      case Deliver(c, p) => DeliverEnv(sc, w, c, p);
      case Stall(c, p) => StallEnv(sc, w, c, p);
      case Lose(c, p) => LoseEnv(sc, w, c, p);
      case Gain(c, p) => GainEnv(sc, w, c, p);
      case New(c) => NewEnv(sc, w, c);
      case Reset(c) => ResetEnv(sc, w, c);
    }
  }

  /** The invariant passes the explorer's checks. */
  lemma EnvInvPassesChecks(sc: Scenario, w: World)
    requires EnvInv(sc, w)
    ensures CheckEnvInvariants(sc, w) == None
    ensures Safety.Clean(w.m) && forall c :: c in sc.chunks ==> Supplied(sc, w, c)
    ensures sc.timeoutBudget == 0 ==> forall c, p :: p in At(w.m.excluded, c) ==> !sc.Honest(p)
  {
    Safety.SafePassesChecks(w.m);
    assert forall c :: c in w.m.excluded ==> w.m.excluded[c] == At(w.m.excluded, c);
  }
}
