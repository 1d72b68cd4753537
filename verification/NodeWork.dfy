/** What a round achieves (crates/node/src/lib.rs, `round`): it leases only what it reports,
    and it leaves nothing startable behind. */
module NodeWork {
  import opened Types
  import opened Machine
  import opened MachineSafety
  import opened Settlement
  import opened NodeModel

  // --- the batches are the new leases ----------------------------------------------------

  /** From `n` to `n'` only leases and assignment counts changed, and leases only grew. */
  ghost predicate OnlyLeased(n: Node, n': Node) {
    && n' == n.(m := n.m.(want := n'.m.want), assignments := n'.assignments)
    && forall c :: c in n.m.want ==> c in n'.m.want && n'.m.want[c] == n.m.want[c]
  }

  /** `c` was leased to `p` since `n`, and booked on the channel of its bin. */
  ghost predicate Booked(n: Node, n': Node, b: Batches, c: Triple, p: PeerId) {
    && c !in n.m.want
    && c in n'.m.want && n'.m.want[c] == {p}
    && (p, n.Depth(c)) in b && c in b[(p, n.Depth(c))]
  }

  ghost predicate BatchOk(n: Node, n': Node, b: Batches, k: Key)
    requires k in b
  {
    && 0 < |b[k]| <= n.policy.window
    && Distinct(b[k])
    && forall c :: c in b[k] ==> n.Depth(c) == k.1 && Booked(n, n', b, c, k.0)
  }

  ghost predicate NewLeasesBooked(n: Node, n': Node, b: Batches) {
    forall c :: c in n'.m.want && c !in n.m.want ==> exists p :: Booked(n, n', b, c, p)
  }

  ghost predicate Partition(n: Node, n': Node, b: Batches) {
    OnlyLeased(n, n') && NewLeasesBooked(n, n', b) && forall k :: k in b ==> BatchOk(n, n', b, k)
  }

  lemma CommitBooks(n: Node, n1: Node, b: Batches, e: (Triple, PeerId))
    requires n.m.cfg.dedup && Partition(n, n1, b) && e in Open(n1, b)
    ensures Partition(n, Commit(n1, e), AddToBatch(n1, b, e))
  {
    OpenIsClaimable(n1, b, e);
    var (c, p) := e;
    var n2, b2, k := Commit(n1, e), AddToBatch(n1, b, e), (p, n.Depth(c));
    assert n1.Depth(c) == n.Depth(c);
    assert c !in n1.m.want && At(n1.m.want, c) + {p} == {p};
    assert OnlyLeased(n, n2);
    forall d, q | Booked(n, n1, b, d, q) ensures Booked(n, n2, b2, d, q) && d != c {
    }
    assert Booked(n, n2, b2, c, p) by {
      assert b2[k][|b2[k]| - 1] == c;
    }
    forall d | d in n2.m.want && d !in n.m.want ensures exists q :: Booked(n, n2, b2, d, q) {
      if d != c {
        var q :| Booked(n, n1, b, d, q);
        assert Booked(n, n2, b2, d, q);
      }
    }
    forall l | l in b2 ensures BatchOk(n, n2, b2, l) {
      if l in b { assert BatchOk(n, n1, b, l); }
    }
  }

  /** The scheduling loop leases exactly what it puts in the batches: every new lease is in
      one batch, of its holder and its bin, once; and no batch exceeds the window. */
  lemma {:induction false} SchedulePartitions(n: Node, n1: Node, b: Batches)
    requires n.m.cfg.dedup && Partition(n, n1, b)
    ensures Partition(n, Schedule(n1, b).0, Schedule(n1, b).1)
    ensures Open(Schedule(n1, b).0, Schedule(n1, b).1) == {}
    decreases |Unclaimed(n1.m)|
  {
    if Open(n1, b) != {} {
      var e := Choice(n1, Open(n1, b));
      OpenIsClaimable(n1, b, e);
      CommitClaims(n1, e);
      CommitBooks(n, n1, b, e);
      SchedulePartitions(n, Commit(n1, e), AddToBatch(n1, b, e));
    }
  }

  // --- work conservation -------------------------------------------------------------------

  /** The configuration under which progress is promised. */
  predicate Productive(cfg: Config) {
    cfg.dedup && cfg.resetOnExhaust && cfg.enableLive && !cfg.singleSource
  }

  /** Arrived, unsettled, and held by someone. */
  predicate Wanted(m: State, c: Triple) {
    c in m.arrived && !m.Settled(c) && At(m.holders, c) != {}
  }

  /** Every wanted id is leased, or has a candidate that is not barred. */
  ghost predicate Ready(m: State) {
    forall c :: Wanted(m, c) ==> c in m.want || m.Eligible(c)
  }

  /** What prepares a scheduling loop: nothing wanted is lost, and every bar that covered all
      candidates is gone. */
  lemma PrepareReadies(n: Node)
    requires n.LogsValid() && Productive(n.m.cfg) && n.m.arrived <= n.binOf.Keys
    ensures Ready(Prepared(n).m)
    ensures forall c :: Wanted(n.m, c) <==> Wanted(Prepared(n).m, c)
    ensures Prepared(n).m.want == n.m.want && Prepared(n).m.cfg == n.m.cfg && Prepared(n).policy == n.policy
  {
    var n1 := Prune(SettlePass(n));
    forall c ensures Wanted(n.m, c) <==> Wanted(n1.m, c) {
    }
    var m := Prepared(n).m;
    forall c | Wanted(m, c) && c !in m.want ensures m.Eligible(c) {
      assert c in n1.binOf;
      ResetLeavesCandidate(n1.m, n1.binOf.Keys, c);
    }
  }

  lemma ResetLeavesCandidate(m: State, cs: set<Triple>, c: Triple)
    requires m.cfg.resetOnExhaust && c in cs && Wanted(m, c) && c !in m.want
    ensures ResetAll(m, cs).Eligible(c)
  {
    var m' := ResetAll(m, cs);
    if m.CanResetExcluded(c) {
      var p := Witness(At(m.holders, c));
      assert p in At(m'.holders, c) && p !in At(m'.excluded, c);
    } else if At(m.excluded, c) == {} {
      var p := Witness(At(m.holders, c));
      assert p in At(m'.holders, c) && p !in At(m'.excluded, c);
    } else {
      var p := NotSubset(At(m.holders, c), At(m.excluded, c));
      assert p in At(m'.holders, c) && p !in At(m'.excluded, c);
    }
  }

  /** The ids still to start. */
  function Startable(m: State): set<Triple> {
    set c | c in m.arrived && Wanted(m, c) && c !in m.want
  }

  /** The priority guard can never disable everything: the deepest startable id passes it. */
  lemma SomethingClaimable(m: State) returns (c: Triple, p: PeerId)
    requires Productive(m.cfg) && Ready(m) && m.arrived !! m.rejected && Startable(m) != {}
    ensures m.Claimable(c, p)
  {
    c := DeepestExists(m, Startable(m));
    assert c in Startable(m);
    var q :| q in At(m.holders, c) && q !in At(m.excluded, c);
    p := q;
    forall d | d in m.arrived && m.PrioOf(d) > m.PrioOf(c) ensures !m.Eligible(d) || m.Addressed(d) {
      assert d !in Startable(m);
    }
    assert m.PrioOk(c);
  }

  /** Leasing does not take candidates away from other ids. */
  lemma ReadyStays(m: State, m': State)
    requires Ready(m) && m' == m.(want := m'.want) && forall c :: c in m.want ==> c in m'.want
    ensures Ready(m')
  {
    forall c | Wanted(m', c) ensures c in m'.want || m'.Eligible(c) {
      assert Wanted(m, c);
    }
  }

  lemma OpenNonempty(n: Node, b: Batches, c: Triple, p: PeerId)
    requires n.m.Claimable(c, p) && BatchSize(b, (p, n.Depth(c))) < n.policy.window
    ensures Open(n, b) != {}
  {
    OpenIsClaimable(n, b, (c, p));
    assert (c, p) in Open(n, b);
  }

  lemma PartitionStarts(n: Node)
    ensures Partition(n, n, map[])
  {
  }

  /** The batches of a round. */
  ghost function RoundBatches(n: Node): Batches
    requires n.LogsValid()
  {
    Schedule(Prepared(n), map[]).1
  }

  /** A round's Fetch effects partition its new leases. */
  lemma RoundLeasesArePartitioned(n: Node)
    requires n.LogsValid() && n.m.cfg.dedup
    ensures Partition(Prepared(n), Round(n).0, RoundBatches(n))
  {
    PartitionStarts(Prepared(n));
    SchedulePartitions(Prepared(n), Prepared(n), map[]);
  }

  lemma BookedIsLeased(n: Node, n': Node, b: Batches)
    requires Partition(n, n', b)
    ensures forall k :: k in b ==> b[k] != [] && b[k][0] in n'.m.want
  {
    forall k | k in b ensures b[k] != [] && b[k][0] in n'.m.want {
      assert BatchOk(n, n', b, k);
      assert Booked(n, n', b, b[k][0], k.0);
    }
  }

  lemma StartableIsOpen(n: Node, b: Batches)
    requires Productive(n.m.cfg) && Ready(n.m) && n.m.arrived !! n.m.rejected && Startable(n.m) != {}
    requires forall k :: BatchSize(b, k) < n.policy.window
    ensures Open(n, b) != {}
  {
    var c, p := SomethingClaimable(n.m);
    OpenNonempty(n, b, c, p);
  }

  lemma DoneConserves(n: Node, n': Node, b: Batches)
    requires Productive(n.m.cfg) && Ready(n.m) && n.m.arrived !! n.m.rejected && n.policy.window >= 1
    requires Partition(n, n', b) && Open(n', b) == {}
    ensures n'.m.want == map[] ==> forall c :: !Wanted(n.m, c)
    ensures (forall k :: k in b ==> |b[k]| < n.policy.window) ==> forall c :: Wanted(n.m, c) ==> c in n'.m.want
  {
    ReadyStays(n.m, n'.m);
    BookedIsLeased(n, n', b);
    if (n'.m.want == map[] || forall k :: k in b ==> |b[k]| < n.policy.window) && Startable(n'.m) != {} {
      StartableIsOpen(n', b);
    }
    forall c | Wanted(n.m, c) && c !in n'.m.want ensures c in Startable(n'.m) {
    }
  }

  /** Work conservation. After a round, if any arrived, unsettled id has a holder then some
      lease is outstanding; and if no channel filled its window, every such id is leased. */
  lemma RoundConservesWork(n: Node)
    requires n.LogsValid() && Productive(n.m.cfg) && n.policy.window >= 1
    requires Safe(n.m) && n.m.arrived <= n.binOf.Keys
    ensures (exists c :: Wanted(n.m, c)) ==> Round(n).0.m.want != map[]
    ensures (forall k :: k in RoundBatches(n) ==> |RoundBatches(n)[k]| < n.policy.window)
      ==> forall c :: Wanted(n.m, c) ==> c in Round(n).0.m.want
  {
    PrepareReadies(n);
    PartitionStarts(Prepared(n));
    SchedulePartitions(Prepared(n), Prepared(n), map[]);
    DoneConserves(Prepared(n), Round(n).0, RoundBatches(n));
  }

  // --- order, and what is kept ---------------------------------------------------------------

  /** No deeper id that could be fetched was passed over for `c`. */
  ghost predicate NothingDeeper(m: State, c: Triple) {
    forall d :: d in m.arrived && m.PrioOf(d) > m.PrioOf(c) ==> !m.Eligible(d) || m.Addressed(d)
  }

  ghost predicate DeepFirst(n: Node, n': Node) {
    forall c :: c in n'.m.want && c !in n.m.want ==> NothingDeeper(n'.m, c)
  }

  lemma {:induction false} ScheduleDeepFirst(n: Node, n1: Node, b: Batches)
    requires n.m.cfg.dedup && n.m.cfg.priority && OnlyLeased(n, n1) && DeepFirst(n, n1)
    ensures DeepFirst(n, Schedule(n1, b).0)
    decreases |Unclaimed(n1.m)|
  {
    if Open(n1, b) != {} {
      var e := Choice(n1, Open(n1, b));
      OpenIsClaimable(n1, b, e);
      CommitClaims(n1, e);
      var n2 := Commit(n1, e);
      forall c | c in n2.m.want && c !in n.m.want ensures NothingDeeper(n2.m, c) {
        assert c == e.0 || NothingDeeper(n1.m, c);
        assert n1.m.PrioOk(e.0);
      }
      ScheduleDeepFirst(n, n2, AddToBatch(n1, b, e));
    }
  }

  /** Deepest bin first: after a round, whatever was newly leased, every deeper id with a
      candidate left is leased or stored too. */
  lemma RoundServesDeepestFirst(n: Node)
    requires n.LogsValid() && n.m.cfg.dedup && n.m.cfg.priority
    ensures DeepFirst(Prepared(n), Round(n).0)
  {
    ScheduleDeepFirst(Prepared(n), Prepared(n), map[]);
  }

  /** The working set tracks the open windows: after a round, an id is tracked only while it is
      unsettled or still named in some window; and no unsettled id was dropped. */
  lemma RoundTracksTheWindow(n: Node)
    requires n.LogsValid() && n.m.cfg.dedup
    ensures var n' := Round(n).0;
      && (forall c :: c in n'.binOf ==> !n'.m.Settled(c) || c in Windowed(n'))
      && (forall c :: c in n.binOf && !n.m.Settled(c) ==> c in n'.binOf && n'.binOf[c] == n.binOf[c])
  {
    RoundLeasesArePartitioned(n);
    var n', n1 := Round(n).0, SettlePass(n);
    assert n'.logs == n1.logs && n'.binOf == n1.binOf - Done(n1);
    assert Windowed(n') == Windowed(n1);
  }
}
