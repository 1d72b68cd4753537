/** What a round does to a node, field by field and effect by effect (crates/node/src/lib.rs,
    `round`), and what departure leaves behind. */
module NodeRound {
  import opened Types
  import opened Machine
  import opened MachineSafety
  import opened MachineActions
  import opened Settlement
  import opened NodeModel
  import opened NodeWork
  import opened NodeRuns
  import opened NodeTraces
  import opened NodeEvents
  import Sim = SimHandle

  // --- settle -----------------------------------------------------------------------------------

  lemma DrainedReoffers(n: Node, k: Key)
    requires n.LogsValid()
    ensures Reoffers(n, k) <==>
      k in n.logs && Advanced(n, k).interval == n.logs[k].topmost && k.0 in n.peers && k !in n.offerOpen
  {
    if k in n.logs {
      AdvanceTakesLargestPrefix(n.logs[k], SettledBy(n.m));
    }
  }

  /** On every channel that was idle, drained, and of a present peer. */
  ghost predicate Asked(n: Node, k: Key, after: Log) {
    k in n.logs && after.interval == n.logs[k].topmost && k.0 in n.peers && k !in n.offerOpen
  }

  /** One offer from just above the interval, and the channel opened, if `asked`; neither if not. */
  ghost predicate Reads(n: Node, k: Key, after: Log, starts: seq<BinId>, open: bool, asked: bool) {
    && starts == (if asked then [after.interval + 1] else [])
    && (open <==> k in n.offerOpen || asked)
  }

  lemma RoundReadsIf(n: Node, k: Key) returns (asked: bool)
    requires NodeInv(n)
    ensures asked == Reoffers(n, k)
    ensures Round(n).0.LogAt(k) == if k in n.logs then Advanced(n, k) else EMPTY
    ensures Reads(n, k, Round(n).0.LogAt(k), Starts(Round(n).1, k), k in Round(n).0.offerOpen, asked)
  {
    RoundReads(n, k);
    asked := Reoffers(n, k);
  }

  /** A round asks on exactly the channels of present peers that are drained and have no offer
      standing, from just above all they cover, and opens those. */
  lemma RoundReoffers(n: Node, k: Key)
    requires NodeInv(n)
    ensures var after := Round(n).0.LogAt(k);
      Reads(n, k, after, Starts(Round(n).1, k), k in Round(n).0.offerOpen, Asked(n, k, after))
  {
    var asked := RoundReadsIf(n, k);
    DrainedReoffers(n, k);
  }

  // --- prune and reset ------------------------------------------------------------------------------

  /** Some window still names `c`. */
  predicate InSomeWindow(n: Node, c: Triple) {
    exists k :: k in n.logs && exists b :: b in n.logs[k].entries && n.logs[k].entries[b] == c
  }

  /** Tracked, settled, and in no window any more once the logs have advanced. */
  ghost predicate Finished(n: Node, c: Triple)
    requires n.LogsValid()
  {
    c in n.binOf && (c in n.m.got || c in n.m.rejected) && !InSomeWindow(SettlePass(n), c)
  }

  /** An idle, unfetched id all of whose holders are barred. */
  predicate Stuck(m: State, c: Triple) {
    && m.cfg.resetOnExhaust && c in m.arrived && c !in m.got && c !in m.want
    && forall h :: h in At(m.holders, c) ==> h in At(m.excluded, c)
  }

  lemma DoneIsFinished(n: Node, c: Triple)
    requires n.LogsValid()
    ensures c in Done(SettlePass(n)) <==> Finished(n, c)
  {
  }

  lemma PruneIs(n: Node, c: Triple, q: PeerId)
    requires n.LogsValid()
    ensures var n1 := Prune(SettlePass(n));
      && (c in n1.binOf <==> c in n.binOf && !Finished(n, c)) && (c in n1.binOf ==> n1.binOf[c] == n.binOf[c])
      && (c in n1.m.arrived <==> c in n.m.arrived && !Finished(n, c))
      && (c in n1.m.live <==> c in n.m.live && !Finished(n, c))
      && (q in At(n1.m.holders, c) <==> q in At(n.m.holders, c) && !Finished(n, c))
      && (q in At(n1.m.excluded, c) <==> q in At(n.m.excluded, c) && !Finished(n, c))
      && n1.m.PrioOf(c) == (if Finished(n, c) then 0 else n.m.PrioOf(c))
      && n1.m == n.m.(arrived := n1.m.arrived, live := n1.m.live, holders := n1.m.holders,
                      excluded := n1.m.excluded, prio := n1.m.prio)
  {
    DoneIsFinished(n, c);
  }

  lemma ResetPassIs(n: Node, c: Triple, q: PeerId)
    ensures var n1 := ResetPass(n);
      && (q in At(n1.m.excluded, c) <==> q in At(n.m.excluded, c) && !(c in n.binOf && Stuck(n.m, c)))
      && n1 == n.(m := n.m.(excluded := n1.m.excluded))
  {
    if !(At(n.m.holders, c) <= At(n.m.excluded, c)) {
      var h := NotSubset(At(n.m.holders, c), At(n.m.excluded, c));
    }
  }

  /** A round drops exactly the finished ids, out of the bins and out of every scheduling map, and
      clears the bars of exactly the stuck ones. What is stored, rejected and counted stays, and
      so does every lease. */
  lemma RoundTidies(n: Node, c: Triple, q: PeerId)
    requires NodeInv(n)
    ensures var n' := Round(n).0;
      var gone := Finished(n, c);
      && (c in n'.binOf <==> c in n.binOf && !gone) && (c in n'.binOf ==> n'.binOf[c] == n.binOf[c])
      && (c in n'.m.arrived <==> c in n.m.arrived && !gone)
      && (c in n'.m.live <==> c in n.m.live && !gone)
      && (q in At(n'.m.holders, c) <==> q in At(n.m.holders, c) && !gone)
      && (q in At(n'.m.excluded, c) <==> q in At(n.m.excluded, c) && !gone && !(c in n.binOf && Stuck(n.m, c)))
      && n'.m.PrioOf(c) == (if gone then 0 else n.m.PrioOf(c))
      && n'.m.got == n.m.got && n'.m.rejected == n.m.rejected
      && n'.m.ndeliv == n.m.ndeliv && n'.m.npre == n.m.npre && n'.m.conflict == n.m.conflict
      && (c in n.m.want ==> c in n'.m.want && n'.m.want[c] == n.m.want[c])
      && n'.cursors == n.cursors && n'.peers == n.peers && n'.radius == n.radius && n'.policy == n.policy
  {
    var n1 := Prune(SettlePass(n));
    forall x ensures x in At(n1.m.holders, c) <==> x in At(n.m.holders, c) && !Finished(n, c) { PruneIs(n, c, x); }
    forall x ensures x in At(n1.m.excluded, c) <==> x in At(n.m.excluded, c) && !Finished(n, c) { PruneIs(n, c, x); }
    PruneIs(n, c, q);
    ResetPassIs(n1, c, q);
    RoundLeasesArePartitioned(n);
  }

  // --- schedule --------------------------------------------------------------------------------------

  /** What is picked of the open wants: one of the deepest bin, of those the lowest id, and of its
      peers one assigned least, of those one least loaded, of those the lowest. */
  lemma ChoiceIs(n: Node, es: set<(Triple, PeerId)>, f: (Triple, PeerId))
    requires f in es
    ensures var e, cum := Choice(n, es), n.policy.cumulativeRouting;
      var counted, counted' := (if cum then n.Assigned(e.1) else 0), (if cum then n.Assigned(f.1) else 0);
      && e in es
      && n.Depth(f.0) <= n.Depth(e.0) && (n.Depth(f.0) == n.Depth(e.0) ==> e.0 <= f.0)
      && (f.0 == e.0 ==> counted <= counted')
      && (f.0 == e.0 && counted == counted' ==> n.m.Load(e.1) <= n.m.Load(f.1))
      && (f.0 == e.0 && counted == counted' && n.m.Load(e.1) == n.m.Load(f.1) ==> e.1 <= f.1)
  {
    var e := Choice(n, es);
    assert Sooner(n, e.0, f.0);
  }

  /** A peer's load is how many ids it is leased. */
  lemma LoadIs(m: State, p: PeerId)
    ensures m.Load(p) == |set c | c in m.want && p in At(m.want, c)|
  {
    assert (set c | c in m.want && p in m.want[c]) == set c | c in m.want && p in At(m.want, c);
  }

  /** The ids leased to `p` since. */
  function NewLeases(n: Node, n': Node, p: PeerId): set<Triple> {
    set c | c in n'.m.want && c !in n.m.want && p in n'.m.want[c]
  }

  lemma CommitCounts(n: Node, n1: Node, b: Batches, e: (Triple, PeerId), p: PeerId)
    requires n.m.cfg.dedup && Partition(n, n1, b) && e in Open(n1, b)
    ensures Commit(n1, e).Assigned(p) == n1.Assigned(p) + if p == e.1 then 1 else 0
    ensures NewLeases(n, Commit(n1, e), p) == NewLeases(n, n1, p) + if p == e.1 then {e.0} else {}
    ensures e.0 !in NewLeases(n, n1, p)
  {
    OpenIsClaimable(n1, b, e);
    assert e.0 !in n1.m.want && e.0 !in n.m.want;
    OneMoreLease(n, n1, e, p);
  }

  lemma OneMoreLease(n: Node, n1: Node, e: (Triple, PeerId), p: PeerId)
    requires n1.m.Claimable(e.0, e.1) && e.0 !in n1.m.want && e.0 !in n.m.want
    ensures NewLeases(n, Commit(n1, e), p) == NewLeases(n, n1, p) + if p == e.1 then {e.0} else {}
  {
    var t := Commit(n1, e).m.want;
    assert At(n1.m.want, e.0) + {e.1} == {e.1};
    assert t == n1.m.want[e.0 := {e.1}];
  }

  lemma {:induction false} ScheduleCounts(n: Node, n1: Node, b: Batches, p: PeerId)
    requires n.m.cfg.dedup && Partition(n, n1, b)
    requires n1.Assigned(p) == n.Assigned(p) + |NewLeases(n, n1, p)|
    ensures var n' := Schedule(n1, b).0;
      n'.Assigned(p) == n.Assigned(p) + |NewLeases(n, n', p)|
    decreases |Unclaimed(n1.m)|
  {
    if Open(n1, b) != {} {
      var e := Choice(n1, Open(n1, b));
      OpenIsClaimable(n1, b, e);
      CommitClaims(n1, e);
      CommitBooks(n, n1, b, e);
      CommitCounts(n, n1, b, e, p);
      ScheduleCounts(n, Commit(n1, e), AddToBatch(n1, b, e), p);
    }
  }

  /** Each new lease is one more assignment of its peer, and nothing else is. */
  lemma RoundCountsAssignments(n: Node, p: PeerId)
    requires NodeInv(n)
    ensures var n' := Round(n).0; n'.Assigned(p) == n.Assigned(p) + |NewLeases(n, n', p)|
  {
    var n1 := Prepared(n);
    PartitionStarts(n1);
    PreparedLeases(n, p);
    ScheduleCounts(n1, n1, map[], p);
    SameLeases(n, n1, Round(n).0, p);
  }

  lemma PreparedLeases(n: Node, p: PeerId)
    requires n.LogsValid()
    ensures var n1 := Prepared(n);
      n1.m.want == n.m.want && n1.Assigned(p) == n.Assigned(p) && n1.m.cfg == n.m.cfg && NewLeases(n1, n1, p) == {}
  {
  }

  lemma SameLeases(n: Node, n1: Node, n': Node, p: PeerId)
    requires n1.m.want == n.m.want
    ensures NewLeases(n1, n', p) == NewLeases(n, n', p)
  {
  }

  // --- the order of effects ------------------------------------------------------------------------------

  predicate KeysAscend(keys: seq<Key>) {
    forall i, j :: 0 <= i < j < |keys| ==> KeyLess(keys[i], keys[j])
  }

  lemma {:induction false} SortedAscends(s: set<Key>)
    ensures KeysAscend(Sorted(s))
  {
    if s != {} {
      var f := FirstOf(s);
      SortedAscends(s - {f});
      SortedLists(s - {f});
      forall i, j | 0 <= i < j < |Sorted(s)| ensures KeyLess(Sorted(s)[i], Sorted(s)[j]) {
        assert Sorted(s)[j] == Sorted(s - {f})[j - 1] && Sorted(s - {f})[j - 1] in s - {f};
        if i > 0 { assert Sorted(s)[i] == Sorted(s - {f})[i - 1]; }
      }
    }
  }

  /** Announcements and offers before fetches; each by peer and bin; of one channel, what is
      settled before what is asked. */
  predicate Before(e: Effect, f: Effect) {
    if e.Fetch? != f.Fetch? then f.Fetch?
    else
      var k, l := EffectKey(e), EffectKey(f);
      KeyLess(k, l) || (k == l && e.Settled? && f.Offer?)
  }

  function EffectKey(e: Effect): Key {
    (e.peer, if e.GetCursors? then 0 else e.bin)
  }

  predicate InOrder(fx: seq<Effect>) {
    forall i, j :: 0 <= i < j < |fx| ==> Before(fx[i], fx[j])
  }

  lemma OrderConcat(a: seq<Effect>, b: seq<Effect>)
    requires InOrder(a) && InOrder(b) && forall e, f :: e in a && f in b ==> Before(e, f)
    ensures InOrder(a + b)
  {
    forall i, j | 0 <= i < j < |a + b| ensures Before((a + b)[i], (a + b)[j]) {
      if i < |a| <= j { assert a[i] in a && b[j - |a|] in b; }
    }
  }

  lemma KeyEffectsAre(n: Node, k: Key, e: Effect)
    requires n.LogsValid() && k in n.logs && e in KeyEffects(n, k)
    ensures (e.Settled? || e.Offer?) && EffectKey(e) == k
  {
    assert (k.0, k.1) == k;
  }

  lemma {:induction false} SettleInOrder(n: Node, keys: seq<Key>)
    requires n.LogsValid() && (forall k :: k in keys ==> k in n.logs) && KeysAscend(keys)
    ensures InOrder(SettleEffects(n, keys))
    decreases |keys|
  {
    if keys != [] {
      var front, k := keys[..|keys| - 1], keys[|keys| - 1];
      SettleInOrder(n, front);
      forall e, f | e in SettleEffects(n, front) && f in KeyEffects(n, k) ensures Before(e, f) {
        Sim.SettleEffectsFrom(n, front, e);
        var l :| l in front && e in KeyEffects(n, l);
        KeyEffectsAre(n, l, e);
        KeyEffectsAre(n, k, f);
      }
      OrderConcat(SettleEffects(n, front), KeyEffects(n, k));
    }
  }

  lemma {:induction false} FetchInOrder(b: Batches, keys: seq<Key>)
    requires (forall k :: k in keys ==> k in b) && KeysAscend(keys)
    ensures InOrder(FetchEffects(b, keys))
    decreases |keys|
  {
    if keys != [] {
      var front, k := keys[..|keys| - 1], keys[|keys| - 1];
      FetchInOrder(b, front);
      var last := [Fetch(k.0, k.1, b[k])];
      forall e, f | e in FetchEffects(b, front) && f in last ensures Before(e, f) {
        Sim.FetchEffectsFrom(b, front, e);
        var l :| l in front && e == Fetch(l.0, l.1, b[l]);
        assert (k.0, k.1) == k && (l.0, l.1) == l;
      }
      OrderConcat(FetchEffects(b, front), last);
    }
  }

  /** The effects of a round come in order, none twice. */
  lemma RoundEffectsInOrder(n: Node)
    requires NodeInv(n)
    ensures InOrder(Round(n).1)
  {
    var keys, bkeys, b := Sorted(n.logs.Keys), Sorted(RoundBatches(n).Keys), RoundBatches(n);
    SortedLists(n.logs.Keys);
    SortedLists(b.Keys);
    SortedAscends(n.logs.Keys);
    SortedAscends(b.Keys);
    SettleInOrder(n, keys);
    FetchInOrder(b, bkeys);
    forall e, f | e in SettleEffects(n, keys) && f in FetchEffects(b, bkeys) ensures Before(e, f) {
      Sim.SettleEffectsFrom(n, keys, e);
      var k :| k in keys && e in KeyEffects(n, k);
      KeyEffectsAre(n, k, e);
      Sim.FetchEffectsFrom(b, bkeys, f);
    }
    OrderConcat(SettleEffects(n, keys), FetchEffects(b, bkeys));
  }

  lemma {:induction false} FetchEffectsAre(b: Batches, keys: seq<Key>, k: Key)
    requires (forall l :: l in keys ==> l in b) && k in keys
    ensures Fetch(k.0, k.1, b[k]) in FetchEffects(b, keys)
    decreases |keys|
  {
    var front := keys[..|keys| - 1];
    if k in front {
      FetchEffectsAre(b, front, k);
    }
  }

  /** What a round fetches is its batches: each is asked for whole, and nothing else is. */
  lemma RoundFetchesBatches(n: Node, k: Key, want: seq<Triple>)
    requires NodeInv(n)
    ensures Fetch(k.0, k.1, want) in Round(n).1 <==> k in RoundBatches(n) && RoundBatches(n)[k] == want
  {
    var keys, bkeys, b, e := Sorted(n.logs.Keys), Sorted(RoundBatches(n).Keys), RoundBatches(n), Fetch(k.0, k.1, want);
    SortedLists(n.logs.Keys);
    SortedLists(b.Keys);
    assert (k.0, k.1) == k;
    if k in b { FetchEffectsAre(b, bkeys, k); }
    if e in SettleEffects(n, keys) {
      Sim.SettleEffectsFrom(n, keys, e);
      var l :| l in keys && e in KeyEffects(n, l);
      KeyEffectsAre(n, l, e);
    } else if e in FetchEffects(b, bkeys) {
      Sim.FetchEffectsFrom(b, bkeys, e);
      var l :| l in bkeys && e == Fetch(l.0, l.1, b[l]);
      assert (l.0, l.1) == l;
    }
  }

  // --- a peer departs -----------------------------------------------------------------------------------------

  /** Departure takes the peer's holdings, claims, logs, cursors and open offers, and nothing of
      anyone else's; nobody is barred. */
  lemma DepartIs(n: Node, p: PeerId, c: Triple, q: PeerId, k: Key)
    ensures var n' := Depart(n, p);
      && (q in At(n'.m.holders, c) <==> q in At(n.m.holders, c) && q != p)
      && (q in At(n'.m.want, c) <==> q in At(n.m.want, c) && q != p)
      && (q in n'.peers <==> q in n.peers && q != p)
      && (k in n'.logs <==> k in n.logs && k.0 != p) && (k in n'.logs ==> n'.logs[k] == n.logs[k])
      && (k in n'.cursors <==> k in n.cursors && k.0 != p) && (k in n'.cursors ==> n'.cursors[k] == n.cursors[k])
      && (k in n'.offerOpen <==> k in n.offerOpen && k.0 != p)
      && n' == n.(m := n.m.(holders := n'.m.holders, want := n'.m.want), peers := n'.peers, logs := n'.logs,
                  cursors := n'.cursors, offerOpen := n'.offerOpen)
  {
    var held := RowsOf(n.m.holders, p);
    var m1 := LoseAll(n.m, held, p);
    LoseRowsAt(n.m.holders, held, p, c);
    LoseRowsAt(n.m.want, held, p, c);
    LoseRowsAt(m1.holders, RowsOf(m1.want, p), p, c);
    LoseRowsAt(m1.want, RowsOf(m1.want, p), p, c);
  }

  /** Once a peer has gone, no channel of its is open or logged, and nothing is asked of it. */
  lemma GoneIsGone(n: Node, p: PeerId)
    requires NodeInv(n)
    ensures var (n', fx) := Handle(n, PeerGone(p));
      && p !in n'.peers
      && (forall k :: k in n'.logs || k in n'.offerOpen ==> k.0 != p)
      && (forall c :: p !in At(n'.m.holders, c) && p !in At(n'.m.want, c))
      && (forall e :: e in fx ==> e.peer != p)
  {
    var n1 := Depart(n, p);
    DepartKeeps(n, p);
    RoundFrame(n1);
    RoundKeeps(n1);
    var n' := Round(n1).0;
    forall k | k in n'.logs || k in n'.offerOpen ensures k.0 != p {
      DepartIs(n, p, 0, p, k);
      RoundReoffers(n1, k);
    }
    forall c ensures p !in At(n'.m.holders, c) && p !in At(n'.m.want, c) {
      DepartIs(n, p, c, p, (p, 0));
      RoundTidies(n1, c, p);
      if c in n'.m.want { assert LeaseOk(n'.m, c); }
    }
    forall e | e in Round(n1).1 ensures e.peer != p { RoundNames(n1, e); }
  }

  /** A round's effects name the peers of its channels and of its leases. */
  lemma RoundNames(n: Node, e: Effect)
    requires NodeInv(n) && e in Round(n).1
    ensures (exists k :: k in n.logs && k.0 == e.peer) || exists c :: e.peer in At(Round(n).0.m.want, c)
  {
    var keys, bkeys, b := Sorted(n.logs.Keys), Sorted(RoundBatches(n).Keys), RoundBatches(n);
    SortedLists(n.logs.Keys);
    SortedLists(b.Keys);
    if e in SettleEffects(n, keys) {
      Sim.SettleEffectsFrom(n, keys, e);
      var k :| k in keys && e in KeyEffects(n, k);
      KeyEffectsAre(n, k, e);
    } else {
      Sim.FetchEffectsFrom(b, bkeys, e);
      var k :| k in bkeys && e == Fetch(k.0, k.1, b[k]);
      BatchNames(n, k);
    }
  }

  lemma BatchNames(n: Node, k: Key)
    requires NodeInv(n) && k in RoundBatches(n)
    ensures exists c :: k.0 in At(Round(n).0.m.want, c)
  {
    var b, n' := RoundBatches(n), Round(n).0;
    RoundLeasesArePartitioned(n);
    assert BatchOk(Prepared(n), n', b, k);
    var c := b[k][0];
    assert Booked(Prepared(n), n', b, c, k.0);
    assert k.0 in At(n'.m.want, c);
  }
}
