/** One channel of the network, seen from the node that pulls over it (crates/sim/src/lib.rs,
    crates/node/src/lib.rs): how its log stands to the bin the peer serves. */
module SimChannel {
  import opened Types
  import opened Machine
  import opened MachineSafety
  import opened Settlement
  import opened NodeModel
  import opened NodeWork
  import opened NodeRuns
  import opened NodeTraces
  import opened NodeLedger
  import opened NodePacing
  import opened SimNet

  /** The log covers a prefix of the peer's bin `res`: everything up to the interval is
      settled, everything from there to the topmost is in the window under its own BinID. */
  ghost predicate LogCovers(m: State, log: Log, res: seq<Triple>) {
    && 0 <= log.interval <= log.topmost <= |res|
    && (forall b :: b in log.entries <==> log.interval < b <= log.topmost)
    && (forall b :: b in log.entries ==> log.entries[b] == res[b - 1])
    && forall i :: 0 <= i < log.interval ==> m.Settled(res[i])
  }

  /** A standing offer stands on a drained log. */
  ghost predicate OpenOk(n: Node, k: Key) {
    k in n.offerOpen ==> k in n.logs && n.LogAt(k).interval == n.LogAt(k).topmost
  }

  /** With no offer standing, the log waits for its first entry. */
  ghost predicate WaitsFor(n: Node, k: Key) {
    k in n.logs && k !in n.offerOpen ==>
      var log := n.LogAt(k);
      log.interval + 1 in log.entries && !n.m.Settled(log.entries[log.interval + 1])
  }

  ghost predicate ChanOk(n: Node, k: Key, res: seq<Triple>) {
    LogCovers(n.m, n.LogAt(k), res) && OpenOk(n, k) && WaitsFor(n, k)
  }

  /** Every entry of every window is settled, or arrived with its peer among the holders. */
  ghost predicate EntriesHeld(n: Node) {
    forall k, b :: k in n.logs && b in n.logs[k].entries ==> HeldFrom(n.m, k.0, n.logs[k].entries[b])
  }

  ghost predicate HeldFrom(m: State, p: PeerId, c: Triple) {
    m.Settled(c) || (c in m.arrived && p in At(m.holders, c))
  }

  ghost predicate ChannelsKnown(n: Node) {
    && (forall k :: k in n.logs ==> k.0 in n.peers && InBins(k.1))
    && n.offerOpen <= n.logs.Keys
  }

  ghost predicate HoldersSeen(n: Node) {
    forall c :: At(n.m.holders, c) <= n.peers
  }

  /** Something wanted implies something leased. */
  ghost predicate Working(m: State) {
    (exists c :: Wanted(m, c)) ==> m.want != map[]
  }

  /** A node of the network between events, before the promise of its last round. */
  ghost predicate Sound(n: Node) {
    && NodeInv(n)
    && n.m.cfg == PRODUCTION && n.policy.window >= 1 && n.radius == RADIUS
    && n.m.rejected == {}
    && ChannelsKnown(n)
    && EntriesHeld(n)
    && HoldersSeen(n)
  }

  lemma CoversMore(m: State, m': State, log: Log, res: seq<Triple>, res': seq<Triple>)
    requires LogCovers(m, log, res) && m.got <= m'.got && m.rejected <= m'.rejected && res <= res'
    ensures LogCovers(m', log, res')
  {
    assert forall i :: 0 <= i < log.topmost ==> res'[i] == res[i];
  }

  // --- the round ----------------------------------------------------------------------------

  lemma AdvanceCovers(m: State, log: Log, res: seq<Triple>)
    requires log.Valid() && LogCovers(m, log, res)
    ensures var log' := log.Advance(SettledBy(m));
      && LogCovers(m, log', res) && log'.topmost == log.topmost && log.interval <= log'.interval
      && (log'.interval < log'.topmost ==> log'.interval + 1 in log'.entries && !m.Settled(log'.entries[log'.interval + 1]))
  {
    AdvanceTakesLargestPrefix(log, SettledBy(m));
    var log' := log.Advance(SettledBy(m));
    assert !Blocked(log, SettledBy(m), log'.interval);
    forall i | 0 <= i < log'.interval ensures m.Settled(res[i]) {
      if i >= log.interval { assert i + 1 in log.entries; }
    }
    if log'.interval < log'.topmost {
      assert Blocked(log, SettledBy(m), log'.interval + 1);
    }
  }

  /** After a round each channel either has an offer standing or waits for its first entry. */
  lemma RoundChan(n: Node, k: Key, res: seq<Triple>)
    requires NodeInv(n) && (k in n.logs ==> k.0 in n.peers)
    requires LogCovers(n.m, n.LogAt(k), res) && OpenOk(n, k)
    ensures ChanOk(Round(n).0, k, res)
    ensures Round(n).0.LogAt(k).topmost == n.LogAt(k).topmost
  {
    RoundReads(n, k);
    RoundFrame(n);
    if k in n.logs {
      AdvanceCovers(n.m, n.logs[k], res);
    }
    CoversMore(n.m, Round(n).0.m, Round(n).0.LogAt(k), res, res);
  }

  lemma RoundWantedSame(n: Node, c: Triple)
    requires Sound(n)
    ensures Wanted(Round(n).0.m, c) <==> Wanted(n.m, c)
  {
    RoundLeasesArePartitioned(n);
    PrepareReadies(n);
  }

  lemma PrepareHolds(n: Node, k: Key, b: BinId)
    requires Sound(n) && k in n.logs && b in Advanced(n, k).entries
    ensures HeldFrom(Prepared(n).m, k.0, Advanced(n, k).entries[b])
  {
    AdvanceTakesLargestPrefix(n.logs[k], SettledBy(n.m));
    assert HeldFrom(n.m, k.0, n.logs[k].entries[b]);
  }

  lemma RoundHoldersSeen(n: Node)
    requires Sound(n)
    ensures HoldersSeen(Round(n).0)
  {
    RoundFrame(n);
    RoundLeasesArePartitioned(n);
    var n' := Round(n).0;
    assert n'.m.holders == n.m.holders - Done(SettlePass(n));
    forall c ensures At(n'.m.holders, c) <= n'.peers {
      assert At(n.m.holders, c) <= n.peers;
    }
  }

  lemma RoundSound(n: Node)
    requires Sound(n)
    ensures Sound(Round(n).0) && Working(Round(n).0.m)
  {
    RoundKeeps(n);
    RoundFrame(n);
    RoundHoldersSeen(n);
    RoundLeasesArePartitioned(n);
    var n' := Round(n).0;
    forall k, b | k in n'.logs && b in n'.logs[k].entries ensures HeldFrom(n'.m, k.0, n'.logs[k].entries[b]) {
      PrepareHolds(n, k, b);
    }
    forall c ensures Wanted(n'.m, c) <==> Wanted(n.m, c) {
      RoundWantedSame(n, c);
    }
    RoundConservesWork(n);
  }

  // --- the event arms ---------------------------------------------------------------------

  lemma SeenSound(n: Node, p: PeerId)
    requires Sound(n)
    ensures Sound(Handle(n, PeerSeen(p)).0)
    ensures forall k, res :: ChanOk(n, k, res) ==> ChanOk(Handle(n, PeerSeen(p)).0, k, res)
  {
    HandleKeeps(n, PeerSeen(p));
  }

  /** The cursors every node answers with. */
  ghost predicate BothBins(cs: seq<(Bin, BinId)>) {
    |cs| == 2 && cs[0].0 == RADIUS && cs[1].0 == RADIUS + 1
  }

  ghost predicate NotYetCursored(n: Node, p: PeerId) {
    forall k :: k in n.logs || k in n.offerOpen ==> k.0 != p
  }

  /** A cursors answer opens both bins of the peer, and asks for each from the start. */
  lemma CursorsEffect(n: Node, p: PeerId, cs: seq<(Bin, BinId)>)
    requires n.radius == RADIUS && BothBins(cs) && NotYetCursored(n, p)
    ensures TakeCursors(n, p, cs).1 == [Offer(p, RADIUS, 1), Offer(p, RADIUS + 1, 1)]
    ensures var n' := TakeCursors(n, p, cs).0;
      && n' == n.(logs := n'.logs, offerOpen := n'.offerOpen, cursors := n'.cursors)
      && n'.logs == n.logs[(p, RADIUS) := EMPTY][(p, RADIUS + 1) := EMPTY]
      && n'.offerOpen == n.offerOpen + {(p, RADIUS), (p, RADIUS + 1)}
  {
    assert cs[..1][..0] == [] && cs[..1] == [cs[0]];
    var (n1, fx1) := TakeCursors(n, p, cs[..1]);
    assert TakeCursors(n, p, []) == (n, []);
    assert (n1, fx1) == (TakeCursor(n, p, cs[0]).0, [] + TakeCursor(n, p, cs[0]).1);
    assert TakeCursors(n, p, cs).0 == TakeCursor(n1, p, cs[1]).0;
  }

  lemma CursorsSound(n: Node, p: PeerId, cs: seq<(Bin, BinId)>)
    requires Sound(n) && p in n.peers && BothBins(cs) && NotYetCursored(n, p)
    ensures Sound(Handle(n, CursorsResult(p, cs)).0)
  {
    HandleKeeps(n, CursorsResult(p, cs));
    CursorsEffect(n, p, cs);
  }

  lemma CursorsChan(n: Node, p: PeerId, cs: seq<(Bin, BinId)>, k: Key, res: seq<Triple>)
    requires Sound(n) && p in n.peers && BothBins(cs) && NotYetCursored(n, p) && ChanOk(n, k, res)
    ensures ChanOk(Handle(n, CursorsResult(p, cs)).0, k, res)
  {
    CursorsEffect(n, p, cs);
  }

  // --- fetch results ------------------------------------------------------------------------

  lemma {:induction false} OutcomesFrame(m: State, p: PeerId, os: seq<(Triple, Outcome)>)
    requires forall o :: o in os ==> o.1 != Rejected
    ensures var m' := TakeOutcomes(m, p, os);
      && m'.arrived == m.arrived && m'.holders == m.holders && m'.rejected == m.rejected && m'.cfg == m.cfg
      && m.got <= m'.got
    decreases |os|
  {
    if os != [] {
      OutcomesFrame(m, p, os[..|os| - 1]);
      assert os[|os| - 1] in os;
    }
  }

  lemma FetchedSound(n: Node, p: PeerId, bin: Bin, os: seq<(Triple, Outcome)>)
    requires Sound(n) && forall o :: o in os ==> o.1 != Rejected
    ensures var n' := Handle(n, FetchResult(p, bin, os)).0;
      Sound(n') && Working(n'.m) && n'.m.got == TakeOutcomes(n.m, p, os).got
  {
    var ev := FetchResult(p, bin, os);
    IngestKeeps(n, ev);
    OutcomesFrame(n.m, p, os);
    var n1 := Ingest(n, ev);
    forall k, b | k in n1.logs && b in n1.logs[k].entries ensures HeldFrom(n1.m, k.0, n1.logs[k].entries[b]) {
      assert HeldFrom(n.m, k.0, n.logs[k].entries[b]);
    }
    RoundSound(n1);
    RoundFrame(n1);
  }

  lemma FetchedChan(n: Node, p: PeerId, bin: Bin, os: seq<(Triple, Outcome)>, k: Key, res: seq<Triple>)
    requires Sound(n) && (forall o :: o in os ==> o.1 != Rejected) && ChanOk(n, k, res)
    ensures var n' := Handle(n, FetchResult(p, bin, os)).0;
      ChanOk(n', k, res) && n'.LogAt(k).topmost == n.LogAt(k).topmost
  {
    var ev := FetchResult(p, bin, os);
    IngestKeeps(n, ev);
    OutcomesFrame(n.m, p, os);
    CoversMore(n.m, Ingest(n, ev).m, n.LogAt(k), res, res);
    RoundChan(Ingest(n, ev), k, res);
  }

  // --- offers ---------------------------------------------------------------------------------

  /** `refs` is the stretch of `res` from BinID `start`. */
  ghost predicate Stretch(res: seq<Triple>, start: BinId, refs: seq<(BinId, Triple)>) {
    && 1 <= start && start + |refs| - 1 <= |res|
    && forall i :: 0 <= i < |refs| ==> refs[i] == (start + i, res[start + i - 1])
  }

  /** An answer to the standing offer of `k`: a stretch of the peer's bin from just above
      what the log covers. */
  ghost predicate AnswerOk(n: Node, k: Key, start: BinId, refs: seq<(BinId, Triple)>, topmost: BinId, res: seq<Triple>) {
    && k in n.offerOpen
    && start == n.LogAt(k).topmost + 1
    && refs != [] && Stretch(res, start, refs) && topmost == start + |refs| - 1
  }

  /** Nothing of the window is lost to such an answer. */
  lemma AnswerLosesNothing(n: Node, k: Key, start: BinId, refs: seq<(BinId, Triple)>, topmost: BinId, res: seq<Triple>)
    requires Sound(n) && OpenOk(n, k) && LogCovers(n.m, n.LogAt(k), res) && AnswerOk(n, k, start, refs, topmost, res)
    ensures var log := n.LogAt(k);
      TakeOffer(n, k, start, refs, topmost) ==
        n.(offerOpen := n.offerOpen - {k}, logs := n.logs[k := Log(log.interval, topmost, map[])])
  {
    var log := n.LogAt(k);
    var covered := log.Cover(Max(topmost, start));
    assert forall b :: b !in log.entries;
    assert log.entries == map[];
    assert Lost(covered, start, refs, topmost) == {};
    assert TriplesAt(covered, {}) == {};
    LoseNone(n.m, k.0);
    assert covered.entries - {} == map[];
  }

  /** Settled and leased alike, and at least as much arrived and held. */
  ghost predicate KnowsMore(m: State, m': State) {
    && m'.cfg == m.cfg && m'.got == m.got && m'.rejected == m.rejected && m'.want == m.want
    && m.arrived <= m'.arrived
    && forall c :: At(m.holders, c) <= At(m'.holders, c)
  }

  lemma ArriveKnowsMore(m: State, c: Triple)
    ensures KnowsMore(m, m.ArriveHist(c)) && KnowsMore(m, m.ArriveLive(c))
    ensures m.Settled(c) || (c in m.ArriveHist(c).arrived && c in m.ArriveLive(c).arrived)
  {
  }

  lemma RefKnowsMore(n: Node, k: Key, r: (BinId, Triple))
    requires k in n.logs
    ensures KnowsMore(n.m, TakeRef(n, k, r).m) && HeldFrom(TakeRef(n, k, r).m, k.0, r.1)
  {
    AtSetInsert(n.m.holders, r.1, k.0);
    var m1 := n.m.ObserveHolder(r.1, k.0).SetPrio(r.1, k.1);
    assert KnowsMore(n.m, m1) && k.0 in At(m1.holders, r.1);
    ArriveKnowsMore(m1, r.1);
    var m2 := TakeRef(n, k, r).m;
    assert m2 == m1.ArriveLive(r.1) || m2 == m1.ArriveHist(r.1);
    assert KnowsMore(m1, m2);
  }

  lemma RefHeld(n: Node, k: Key, r: (BinId, Triple))
    requires k in n.logs && EntriesHeld(n) && HoldersSeen(n) && k.0 in n.peers
    ensures EntriesHeld(TakeRef(n, k, r)) && HoldersSeen(TakeRef(n, k, r))
  {
    AtSetInsert(n.m.holders, r.1, k.0);
    var n' := TakeRef(n, k, r);
    RefKnowsMore(n, k, r);
    forall l, b | l in n'.logs && b in n'.logs[l].entries ensures HeldFrom(n'.m, l.0, n'.logs[l].entries[b]) {
      assert (l == k && b == r.0 && n'.logs[l].entries[b] == r.1) || HeldFrom(n.m, l.0, n.logs[l].entries[b]);
    }
  }

  ghost predicate SameChannels(n: Node, n': Node, k: Key) {
    && n'.peers == n.peers && n'.logs.Keys == n.logs.Keys && n'.offerOpen == n.offerOpen
    && n'.policy == n.policy && n'.radius == n.radius
    && forall l :: l != k ==> n'.LogAt(l) == n.LogAt(l)
  }

  lemma {:induction false} RefsHeld(n: Node, k: Key, refs: seq<(BinId, Triple)>)
    requires k in n.logs && EntriesHeld(n) && HoldersSeen(n) && k.0 in n.peers
    ensures var n' := TakeRefs(n, k, refs); EntriesHeld(n') && HoldersSeen(n') && KnowsMore(n.m, n'.m) && SameChannels(n, n', k)
    decreases |refs|
  {
    if refs != [] {
      var front, r := refs[..|refs| - 1], refs[|refs| - 1];
      RefsHeld(n, k, front);
      RefKnowsMore(TakeRefs(n, k, front), k, r);
      RefHeld(TakeRefs(n, k, front), k, r);
    }
  }

  lemma {:induction false} TakeRefsStretch(n: Node, k: Key, refs: seq<(BinId, Triple)>, start: BinId, topmost: BinId, res: seq<Triple>)
    requires k in n.logs && n.logs[k] == Log(start - 1, topmost, map[]) && topmost >= start + |refs| - 1
    requires Stretch(res, start, refs)
    ensures var log := TakeRefs(n, k, refs).LogAt(k);
      && log.interval == start - 1 && log.topmost == topmost
      && (forall b :: b in log.entries <==> start <= b < start + |refs|)
      && (forall b :: b in log.entries ==> log.entries[b] == res[b - 1])
    decreases |refs|
  {
    if refs != [] {
      TakeRefsStretch(n, k, refs[..|refs| - 1], start, topmost, res);
    }
  }

  lemma StaysSound(n: Node, n1: Node, k: Key)
    requires Sound(n) && k in n.logs
    requires NodeInv(n1) && EntriesHeld(n1) && HoldersSeen(n1) && KnowsMore(n.m, n1.m) && SameChannels(n.(offerOpen := n.offerOpen - {k}), n1, k)
    ensures Sound(n1)
  {
  }

  lemma TakenOffer(n: Node, n0: Node, k: Key, upto: BinId)
    requires Sound(n) && k in n.logs
    requires n0 == n.(offerOpen := n.offerOpen - {k}, logs := n.logs[k := Log(n.LogAt(k).interval, upto, map[])])
    ensures EntriesHeld(n0) && n0.logs.Keys == n.logs.Keys
  {
    assert n.logs.Keys == n0.logs.Keys;
    OfferedHeld(n, n0, k);
  }

  /** The answer's arm before its round: the log now covers the stretch, the offer is closed,
      and everything else is as it was. */
  lemma OfferedSound(n: Node, k: Key, start: BinId, refs: seq<(BinId, Triple)>, topmost: BinId, res: seq<Triple>)
    requires Sound(n) && ChanOk(n, k, res) && AnswerOk(n, k, start, refs, topmost, res)
    ensures var n1 := Ingest(n, OfferResult(k.0, k.1, start, refs, topmost));
      && Sound(n1) && KnowsMore(n.m, n1.m)
      && SameChannels(n.(offerOpen := n.offerOpen - {k}), n1, k)
      && LogCovers(n1.m, n1.LogAt(k), res) && n1.LogAt(k).topmost == topmost
  {
    var n0 := TakeOffer(n, k, start, refs, topmost);
    var n1 := Ingest(n, OfferResult(k.0, k.1, start, refs, topmost));
    assert (k.0, k.1) == k && n1 == TakeRefs(n0, k, refs);
    AnswerLosesNothing(n, k, start, refs, topmost, res);
    TakenOffer(n, n0, k, topmost);
    RefsHeld(n0, k, refs);
    assert SameChannels(n.(offerOpen := n.offerOpen - {k}), n1, k) by {
      assert forall l :: l != k ==> n0.LogAt(l) == n.LogAt(l);
    }
    IngestKeeps(n, OfferResult(k.0, k.1, start, refs, topmost));
    StaysSound(n, n1, k);
    OfferedCovers(n, n0, k, start, refs, topmost, res);
  }

  lemma OfferedCovers(n: Node, n0: Node, k: Key, start: BinId, refs: seq<(BinId, Triple)>, topmost: BinId, res: seq<Triple>)
    requires ChanOk(n, k, res) && AnswerOk(n, k, start, refs, topmost, res)
    requires k in n0.logs && n0.logs[k] == Log(n.LogAt(k).interval, topmost, map[])
    requires n0.m == n.m && KnowsMore(n.m, TakeRefs(n0, k, refs).m)
    ensures var n1 := TakeRefs(n0, k, refs); LogCovers(n1.m, n1.LogAt(k), res) && n1.LogAt(k).topmost == topmost
  {
    TakeRefsStretch(n0, k, refs, start, topmost, res);
  }

  lemma OfferedHeld(n: Node, n0: Node, k: Key)
    requires EntriesHeld(n) && n0.m == n.m && n0.logs.Keys == n.logs.Keys && k in n.logs
    requires n0.logs[k].entries == map[] && forall l :: l in n.logs && l != k ==> n0.logs[l] == n.logs[l]
    ensures EntriesHeld(n0)
  {
    forall l, b | l in n0.logs && b in n0.logs[l].entries ensures HeldFrom(n0.m, l.0, n0.logs[l].entries[b]) {
      assert HeldFrom(n.m, l.0, n.logs[l].entries[b]);
    }
  }

  lemma OfferedChan(n: Node, k: Key, start: BinId, refs: seq<(BinId, Triple)>, topmost: BinId, res: seq<Triple>, l: Key, resl: seq<Triple>)
    requires Sound(n) && ChanOk(n, k, res) && AnswerOk(n, k, start, refs, topmost, res)
    requires ChanOk(n, l, resl) && (l == k ==> resl == res)
    ensures var n' := Handle(n, OfferResult(k.0, k.1, start, refs, topmost)).0;
      ChanOk(n', l, resl) && (l != k ==> n'.LogAt(l).topmost == n.LogAt(l).topmost)
  {
    OfferedSound(n, k, start, refs, topmost, res);
    var n1 := Ingest(n, OfferResult(k.0, k.1, start, refs, topmost));
    if l != k {
      CoversMore(n.m, n1.m, n.LogAt(l), resl, resl);
    }
    RoundChan(n1, l, resl);
  }
}
