/** The worlds of a scenario are finitely many (crates/machine/src/explore.rs): whatever the
    configuration, no move leaves a finite space, so every exploration ends. */
module Spaces {
  import opened Types
  import opened Machine
  import opened Explorer
  import S = Settlement

  // --- finite collections of tables ---------------------------------------------------------

  /** `t` has its rows among `cs` and its peers among `ps`. */
  predicate Within(t: Table, cs: set<Triple>, ps: set<PeerId>) {
    t.Keys <= cs && forall c :: c in t ==> t[c] <= ps
  }

  /** Every such table. */
  ghost function Tables(cs: set<Triple>, ps: set<PeerId>): set<Table> {
    if cs == {} then {map[]}
    else
      var fewer := Tables(cs - {S.MinOf(cs)}, ps);
      fewer + set t, row | t in fewer && row <= ps :: t[S.MinOf(cs) := row]
  }

  lemma {:induction false} TablesAre(cs: set<Triple>, ps: set<PeerId>, t: Table)
    requires Within(t, cs, ps)
    ensures t in Tables(cs, ps)
    decreases cs
  {
    if cs != {} {
      var c := S.MinOf(cs);
      TablesAre(cs - {c}, ps, t - {c});
      if c in t {
        assert (t - {c})[c := t[c]] == t && t[c] <= ps;
      } else {
        assert t - {c} == t;
      }
    }
  }

  // --- what bounds a world --------------------------------------------------------------------

  function Chunks(sc: Scenario): set<Triple> {
    sc.chunks + sc.liveChunks + set h | h in sc.holds :: h.1
  }

  function Peers(sc: Scenario): set<PeerId> {
    sc.peers + set h | h in sc.holds :: h.0
  }

  /** The pairs that may still deliver: of an id not stored any, of a stored one its leases. */
  ghost function Undelivered(sc: Scenario, m: State): set<(Triple, PeerId)> {
    set c, p | c in Chunks(sc) && p in Peers(sc) && (c !in m.got || p in At(m.want, c)) :: (c, p)
  }

  ghost function Grid(sc: Scenario): set<(Triple, PeerId)> {
    set c, p | c in Chunks(sc) && p in Peers(sc) :: (c, p)
  }

  ghost predicate Bounded(sc: Scenario, w: World) {
    && w.m == Initial(sc.cfg).(want := w.m.want, holders := w.m.holders, excluded := w.m.excluded,
                               arrived := w.m.arrived, live := w.m.live, got := w.m.got,
                               prio := sc.prio, assign := sc.assign, conflict := w.m.conflict, ndeliv := w.m.ndeliv)
    && InTables(sc, w.m)
    && w.m.arrived <= Chunks(sc) && w.m.live <= Chunks(sc) && w.m.got <= Chunks(sc)
    && w.m.ndeliv + |Undelivered(sc, w.m)| <= |Grid(sc)|
    && w.tmo <= sc.timeoutBudget && w.chn <= sc.churnBudget
  }

  predicate InTables(sc: Scenario, m: State) {
    && Within(m.want, Chunks(sc), Peers(sc))
    && Within(m.holders, Chunks(sc), Peers(sc))
    && Within(m.excluded, Chunks(sc), Peers(sc))
  }

  lemma InitBounded(sc: Scenario)
    ensures Bounded(sc, Init(sc))
  {
    var m := Init(sc).m;
    assert Undelivered(sc, m) == Grid(sc);
    forall c | c in m.holders ensures c in Chunks(sc) && m.holders[c] <= Peers(sc) {
      assert m.holders[c] == HoldersOf(sc, c);
    }
  }

  // --- every move stays within ------------------------------------------------------------------

  lemma FewerUndelivered(sc: Scenario, m: State, m': State)
    requires forall c, p :: (c, p) in Undelivered(sc, m') ==> (c, p) in Undelivered(sc, m)
    ensures |Undelivered(sc, m')| <= |Undelivered(sc, m)|
  {
    SubsetSize(Undelivered(sc, m'), Undelivered(sc, m));
  }

  lemma WantBounded(sc: Scenario, w: World, c: Triple, p: PeerId)
    requires Bounded(sc, w) && w.m.Claimable(c, p)
    ensures Bounded(sc, w.(m := w.m.Want(c, p)))
  {
    AtSetInsert(w.m.want, c, p);
    FewerUndelivered(sc, w.m, w.m.Want(c, p));
  }

  lemma DeliverBounded(sc: Scenario, w: World, c: Triple, p: PeerId)
    requires Bounded(sc, w) && p in At(w.m.want, c)
    ensures Bounded(sc, w.(m := w.m.Deliver(c, p)))
  {
    AtSetRemove(w.m.want, c, p);
    var m' := w.m.Deliver(c, p);
    var u, u' := Undelivered(sc, w.m), Undelivered(sc, m');
    assert (c, p) in u && (c, p) !in u';
    forall e | e in u' ensures e in u - {(c, p)} {
    }
    SubsetSize(u', u - {(c, p)});
  }

  lemma ReleaseBounded(sc: Scenario, w: World, m': State, c: Triple, p: PeerId)
    requires Bounded(sc, w)
    requires m' == w.m.(want := SetRemove(w.m.want, c, p), holders := m'.holders, excluded := m'.excluded)
    requires Within(m'.holders, Chunks(sc), Peers(sc)) && Within(m'.excluded, Chunks(sc), Peers(sc))
    ensures Bounded(sc, w.(m := m'))
  {
    AtSetRemove(w.m.want, c, p);
    FewerUndelivered(sc, w.m, m');
  }

  lemma ObservesBounded(sc: Scenario, w: World, m': State)
    requires Bounded(sc, w) && InTables(sc, m')
    requires m' == w.m.(holders := m'.holders, excluded := m'.excluded, arrived := m'.arrived, live := m'.live)
    requires m'.arrived <= Chunks(sc) && m'.live <= Chunks(sc)
    ensures Bounded(sc, w.(m := m'))
  {
    FewerUndelivered(sc, w.m, m');
  }

  lemma StepBounded(sc: Scenario, w: World, a: Move)
    requires Bounded(sc, w) && Enabled(sc, w, a)
    ensures Bounded(sc, Apply(sc, w, a))
  {
    match a {
      case Want(c, p) => WantBounded(sc, w, c, p);
      case Deliver(c, p) => DeliverBounded(sc, w, c, p);
      case Stall(c, p) => ReleaseBounded(sc, w, w.m.Stall(c, p), c, p);
      case Lose(c, p) => ReleaseBounded(sc, w, w.m.LoseHolder(c, p), c, p);
      case Gain(c, p) => ObservesBounded(sc, w, w.m.ObserveHolder(c, p));
      case New(c) => ObservesBounded(sc, w, w.m.ArriveLive(c));
      case Reset(c) => ObservesBounded(sc, w, w.m.ResetExcluded(c));
    }
  }

  // --- the space ---------------------------------------------------------------------------------

  function UpTo(n: nat): (s: set<nat>)
    ensures forall i: nat :: i in s <==> i <= n
  {
    if n == 0 then {0} else UpTo(n - 1) + {n}
  }

  ghost function States(sc: Scenario): set<State> {
    var tables := Tables(Chunks(sc), Peers(sc));
    set want, holders, excluded, arrived, live, got, conflict: bool, ndeliv: nat
      | want in tables && holders in tables && excluded in tables
        && arrived <= Chunks(sc) && live <= Chunks(sc) && got <= Chunks(sc) && ndeliv in UpTo(|Grid(sc)|)
      :: State(sc.cfg, want, holders, excluded, arrived, live, {}, got, sc.prio, sc.assign, conflict, ndeliv, 0)
  }

  /** Every bounded world. */
  ghost function Space(sc: Scenario): set<World> {
    set m, tmo, chn | m in States(sc) && tmo in UpTo(sc.timeoutBudget) && chn in UpTo(sc.churnBudget)
      && Bounded(sc, World(m, tmo, chn)) :: World(m, tmo, chn)
  }

  lemma SpaceIs(sc: Scenario, w: World)
    ensures w in Space(sc) <==> Bounded(sc, w)
  {
    if Bounded(sc, w) {
      TablesAre(Chunks(sc), Peers(sc), w.m.want);
      TablesAre(Chunks(sc), Peers(sc), w.m.holders);
      TablesAre(Chunks(sc), Peers(sc), w.m.excluded);
      assert w.m.ndeliv in UpTo(|Grid(sc)|);
      assert w.m == State(sc.cfg, w.m.want, w.m.holders, w.m.excluded, w.m.arrived, w.m.live, {}, w.m.got,
                          sc.prio, sc.assign, w.m.conflict, w.m.ndeliv, 0);
      assert w.m in States(sc);
      assert w == World(w.m, w.tmo, w.chn);
    }
  }
}
