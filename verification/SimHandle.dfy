/** One event at one node of the network (crates/sim/src/lib.rs, crates/node/src/lib.rs): what
    it may say, and what handling it keeps. */
module SimHandle {
  import opened Types
  import opened Machine
  import opened MachineSafety
  import opened Settlement
  import opened NodeModel
  import opened NodeWork
  import opened NodeRuns
  import opened NodeTraces
  import opened NodePacing
  import opened SimNet
  import opened SimChannel
  import opened SimTokens

  /** The events the network produces. `res` is the peer's bin, for an answer to an offer. */
  ghost predicate EvOk(n: Node, ev: Event, res: seq<Triple>) {
    match ev
    case PeerSeen(p) => p !in n.peers
    case CursorsResult(p, cs) =>
      p in n.peers && BothBins(cs) && (p, RADIUS) !in n.logs && (p, RADIUS + 1) !in n.logs
    case OfferResult(p, bin, start, refs, topmost) =>
      ChanOk(n, (p, bin), res) && AnswerOk(n, (p, bin), start, refs, topmost, res)
    case FetchResult(p, _, os) =>
      p in n.peers && (forall o :: o in os ==> o.1 != Rejected) && AllLeased(n.m, p, Ids(os))
    case _ => false
  }

  lemma UncursoredPeer(n: Node, p: PeerId)
    requires ChannelsKnown(n)
    requires ((p, RADIUS) !in n.logs && (p, RADIUS + 1) !in n.logs) || p !in n.peers
    ensures NotYetCursored(n, p)
  {
    forall k | k in n.logs || k in n.offerOpen ensures k.0 != p {
      assert k in n.logs && InBins(k.1);
      assert k == (k.0, k.1);
    }
  }

  lemma EvSound(n: Node, ev: Event, res: seq<Triple>)
    requires Sound(n) && Working(n.m) && EvOk(n, ev, res)
    ensures Sound(Handle(n, ev).0) && Working(Handle(n, ev).0.m)
  {
    match ev {
      case PeerSeen(p) => SeenSound(n, p);
      case CursorsResult(p, cs) =>
        UncursoredPeer(n, p);
        CursorsSound(n, p, cs);
        CursorsEffect(n, p, cs);
      case OfferResult(p, bin, start, refs, topmost) =>
        OfferedSound(n, (p, bin), start, refs, topmost, res);
        RoundSound(Ingest(n, ev));
      case FetchResult(p, bin, os) => FetchedSound(n, p, bin, os);
    }
  }

  lemma EvChan(n: Node, ev: Event, res: seq<Triple>, l: Key, resl: seq<Triple>)
    requires Sound(n) && EvOk(n, ev, res) && ChanOk(n, l, resl) && (Answers(ev, l) ==> resl == res)
    ensures ChanOk(Handle(n, ev).0, l, resl)
    ensures !Answers(ev, l) ==> Handle(n, ev).0.LogAt(l).topmost == n.LogAt(l).topmost
  {
    match ev {
      case PeerSeen(p) => SeenSound(n, p);
      case CursorsResult(p, cs) =>
        UncursoredPeer(n, p);
        CursorsChan(n, p, cs, l, resl);
        CursorsEffect(n, p, cs);
      case OfferResult(p, bin, start, refs, topmost) =>
        OfferedChan(n, (p, bin), start, refs, topmost, res, l, resl);
      case FetchResult(p, bin, os) => FetchedChan(n, p, bin, os, l, resl);
    }
  }

  // --- tokens -----------------------------------------------------------------------------------

  lemma ReqSingle(i: int, e: Effect)
    ensures Toks(Reqs(i, [e])) == TokensOf(Req(i, e))
  {
    assert [e][..0] == [];
    assert Reqs(i, [e]) == [Req(i, e)];
    ToksSingle(Req(i, e));
  }

  lemma SeenOwes(n: Node, i: int, p: PeerId, t: Tok)
    requires Sound(n) && p !in n.peers
    ensures Owed(Handle(n, PeerSeen(p)).0, i, t) == Owed(n, i, t) + Toks(Reqs(i, Handle(n, PeerSeen(p)).1))[t]
  {
    UncursoredPeer(n, p);
    ReqSingle(i, GetCursors(p));
  }

  lemma CursorsOwed(n: Node, i: int, p: PeerId, cs: seq<(Bin, BinId)>, t: Tok)
    requires Sound(n) && EvOk(n, CursorsResult(p, cs), [])
    ensures Owed(Handle(n, CursorsResult(p, cs)).0, i, t) + multiset{Cur(i, p)}[t] ==
      Owed(n, i, t) + if t == Off(i, (p, RADIUS)) || t == Off(i, (p, RADIUS + 1)) then 1 else 0
  {
    UncursoredPeer(n, p);
    CursorsEffect(n, p, cs);
  }

  lemma CursorsOwes(n: Node, i: int, p: PeerId, cs: seq<(Bin, BinId)>, t: Tok)
    requires Sound(n) && EvOk(n, CursorsResult(p, cs), [])
    ensures var (n', fx) := Handle(n, CursorsResult(p, cs));
      Owed(n', i, t) + multiset{Cur(i, p)}[t] == Owed(n, i, t) + Toks(Reqs(i, fx))[t]
  {
    CursorsOwed(n, i, p, cs, t);
    UncursoredPeer(n, p);
    CursorsEffect(n, p, cs);
    TwoOffers(i, p, t);
  }

  lemma TwoOffers(i: int, p: PeerId, t: Tok)
    ensures Toks(Reqs(i, [Offer(p, RADIUS, 1), Offer(p, RADIUS + 1, 1)]))[t] ==
      if t == Off(i, (p, RADIUS)) || t == Off(i, (p, RADIUS + 1)) then 1 else 0
  {
    var o1, o2 := Offer(p, RADIUS, 1), Offer(p, RADIUS + 1, 1);
    assert [o1, o2] == [o1] + [o2];
    CountConcat(i, [o1], [o2], t);
    ReqSingle(i, o1);
    ReqSingle(i, o2);
  }

  lemma OfferedOwed(n: Node, n1: Node, i: int, k: Key, t: Tok)
    requires k in n.offerOpen && KnowsMore(n.m, n1.m) && SameChannels(n.(offerOpen := n.offerOpen - {k}), n1, k)
    ensures Owed(n1, i, t) + multiset{Off(i, k)}[t] == Owed(n, i, t)
  {
  }

  lemma OfferedOwes(n: Node, i: int, ev: Event, res: seq<Triple>, t: Tok)
    requires Sound(n) && ev.OfferResult? && EvOk(n, ev, res)
    ensures var (n', fx) := Handle(n, ev);
      Owed(n', i, t) + multiset{Off(i, (ev.peer, ev.bin))}[t] == Owed(n, i, t) + Toks(Reqs(i, fx))[t]
  {
    var k: Key := (ev.peer, ev.bin);
    OfferedSound(n, k, ev.start, ev.refs, ev.topmost, res);
    RoundOwes(Ingest(n, ev), i, t);
    OfferedOwed(n, Ingest(n, ev), i, k, t);
  }

  lemma FetchedIngested(n: Node, p: PeerId, bin: Bin, os: seq<(Triple, Outcome)>)
    requires Sound(n) && EvOk(n, FetchResult(p, bin, os), [])
    ensures var n1 := Ingest(n, FetchResult(p, bin, os));
      && Sound(n1)
      && n1 == n.(m := n1.m)
      && (forall q, c :: q in At(n1.m.want, c) <==> q in At(n.m.want, c) && !(q == p && c in Ids(os)))
  {
    var ev := FetchResult(p, bin, os);
    IngestKeeps(n, ev);
    OutcomesFrame(n.m, p, os);
    OutcomesRelease(n.m, p, os);
    var n1 := Ingest(n, ev);
    forall k, b | k in n1.logs && b in n1.logs[k].entries ensures HeldFrom(n1.m, k.0, n1.logs[k].entries[b]) {
      assert HeldFrom(n.m, k.0, n.logs[k].entries[b]);
    }
  }

  lemma FetchedOwes(n: Node, i: int, p: PeerId, bin: Bin, os: seq<(Triple, Outcome)>, t: Tok)
    requires Sound(n) && EvOk(n, FetchResult(p, bin, os), [])
    ensures var (n', fx) := Handle(n, FetchResult(p, bin, os));
      Owed(n', i, t) + LeaseToks(i, p, Ids(os))[t] == Owed(n, i, t) + Toks(Reqs(i, fx))[t]
  {
    var n1 := Ingest(n, FetchResult(p, bin, os));
    FetchedIngested(n, p, bin, os);
    RoundOwes(n1, i, t);
    LeaseCount(i, p, Ids(os), t);
    if t.Lease? { DistinctCount(Ids(os), t.c); }
    assert Owed(n1, i, t) + LeaseToks(i, p, Ids(os))[t] == Owed(n, i, t);
  }

  /** Handling an event settles what the event answers and asks for what it comes to be owed. */
  lemma EvOwes(n: Node, i: int, ev: Event, res: seq<Triple>, t: Tok)
    requires Sound(n) && EvOk(n, ev, res)
    ensures var (n', fx) := Handle(n, ev);
      Owed(n', i, t) + TokensOf(Resp(i, ev))[t] == Owed(n, i, t) + Toks(Reqs(i, fx))[t]
  {
    match ev {
      case PeerSeen(p) => SeenOwes(n, i, p, t);
      case CursorsResult(p, cs) => CursorsOwes(n, i, p, cs, t);
      case OfferResult(_, _, _, _, _) => OfferedOwes(n, i, ev, res, t);
      case FetchResult(p, bin, os) => FetchedOwes(n, i, p, bin, os, t);
    }
  }

  // --- the effects --------------------------------------------------------------------------------

  /** An effect names a peer the node sees, and an offer asks from just above the log. */
  ghost predicate EffOk(n: Node, e: Effect) {
    && e.peer in n.peers
    && (e.Offer? ==> InBins(e.bin) && e.start == n.LogAt((e.peer, e.bin)).topmost + 1)
  }

  lemma {:induction false} SettleEffectsFrom(n: Node, keys: seq<Key>, e: Effect)
    requires n.LogsValid() && (forall k :: k in keys ==> k in n.logs) && e in SettleEffects(n, keys)
    ensures exists k :: k in keys && e in KeyEffects(n, k)
    decreases |keys|
  {
    if keys != [] && e in SettleEffects(n, keys[..|keys| - 1]) {
      SettleEffectsFrom(n, keys[..|keys| - 1], e);
    }
  }

  lemma {:induction false} FetchEffectsFrom(b: Batches, keys: seq<Key>, e: Effect)
    requires (forall k :: k in keys ==> k in b) && e in FetchEffects(b, keys)
    ensures exists k :: k in keys && e == Fetch(k.0, k.1, b[k])
    decreases |keys|
  {
    if keys != [] && e in FetchEffects(b, keys[..|keys| - 1]) {
      FetchEffectsFrom(b, keys[..|keys| - 1], e);
    }
  }

  lemma KeyEffectsOk(n: Node, k: Key, e: Effect)
    requires Sound(n) && k in n.logs && e in KeyEffects(n, k)
    ensures EffOk(Round(n).0, e)
  {
    RoundFrame(n);
    RoundReads(n, k);
    AdvanceTakesLargestPrefix(n.logs[k], SettledBy(n.m));
    assert (k.0, k.1) == k;
  }

  lemma BatchEffectOk(n: Node, k: Key)
    requires Sound(n) && k in RoundBatches(n)
    ensures EffOk(Round(n).0, Fetch(k.0, k.1, RoundBatches(n)[k]))
  {
    var b, n' := RoundBatches(n), Round(n).0;
    RoundSound(n);
    RoundLeasesArePartitioned(n);
    assert BatchOk(Prepared(n), n', b, k);
    var c := b[k][0];
    assert Booked(Prepared(n), n', b, c, k.0);
    assert LeaseOk(n'.m, c);
    assert k.0 in At(n'.m.holders, c) && At(n'.m.holders, c) <= n'.peers;
  }

  lemma RoundEffectOk(n: Node, e: Effect)
    requires Sound(n) && e in Round(n).1
    ensures EffOk(Round(n).0, e)
  {
    SortedLists(n.logs.Keys);
    SortedLists(RoundBatches(n).Keys);
    var keys, bkeys := Sorted(n.logs.Keys), Sorted(RoundBatches(n).Keys);
    if e in SettleEffects(n, keys) {
      SettleEffectsFrom(n, keys, e);
      var k :| k in keys && e in KeyEffects(n, k);
      KeyEffectsOk(n, k, e);
    } else {
      FetchEffectsFrom(RoundBatches(n), bkeys, e);
      var k :| k in bkeys && e == Fetch(k.0, k.1, RoundBatches(n)[k]);
      BatchEffectOk(n, k);
    }
  }

  lemma EvEffectOk(n: Node, ev: Event, res: seq<Triple>, e: Effect)
    requires Sound(n) && EvOk(n, ev, res) && e in Handle(n, ev).1
    ensures EffOk(Handle(n, ev).0, e)
  {
    match ev {
      case PeerSeen(p) =>
      case CursorsResult(p, cs) =>
        UncursoredPeer(n, p);
        CursorsEffect(n, p, cs);
      case OfferResult(p, bin, start, refs, topmost) =>
        OfferedSound(n, (p, bin), start, refs, topmost, res);
        RoundEffectOk(Ingest(n, ev), e);
      case FetchResult(p, bin, os) =>
        FetchedIngested(n, p, bin, os);
        RoundEffectOk(Ingest(n, ev), e);
    }
  }

  // --- what is stored -----------------------------------------------------------------------------

  /** What an event delivers. */
  function Delivers(ev: Event): seq<Triple> {
    if ev.FetchResult? then DeliveredIn(ev.outcomes) else []
  }

  function SeenBy(ev: Event): set<PeerId> {
    if ev.PeerSeen? then {ev.peer} else {}
  }

  lemma EvGot(n: Node, ev: Event, res: seq<Triple>)
    requires Sound(n) && EvOk(n, ev, res)
    ensures var n' := Handle(n, ev).0;
      && n'.m.got == n.m.got + (set c | c in Delivers(ev))
      && n'.m.ndeliv == n.m.ndeliv + |Delivers(ev)| && n'.m.npre == n.m.npre
      && n'.peers == n.peers + SeenBy(ev)
  {
    match ev {
      case PeerSeen(p) =>
      case CursorsResult(p, cs) =>
        UncursoredPeer(n, p);
        CursorsEffect(n, p, cs);
      case OfferResult(p, bin, start, refs, topmost) =>
        OfferedSound(n, (p, bin), start, refs, topmost, res);
        OfferedCounts(n, (p, bin), start, refs, topmost);
        RoundCounts(Ingest(n, ev));
      case FetchResult(p, bin, os) =>
        FetchedIngested(n, p, bin, os);
        OutcomesRelease(n.m, p, os);
        OutcomesCounts(n.m, p, os);
        RoundCounts(Ingest(n, ev));
    }
  }

  lemma {:induction false} OutcomesCounts(m: State, p: PeerId, os: seq<(Triple, Outcome)>)
    ensures TakeOutcomes(m, p, os).npre == m.npre
  {
    if os != [] { OutcomesCounts(m, p, os[..|os| - 1]); }
  }

  lemma RoundCounts(n: Node)
    requires Sound(n)
    ensures Round(n).0.m.ndeliv == n.m.ndeliv && Round(n).0.m.npre == n.m.npre
    ensures Round(n).0.m.got == n.m.got && Round(n).0.peers == n.peers
  {
    RoundFrame(n);
    RoundLeasesArePartitioned(n);
  }

  lemma {:induction false} RefsCounts(n: Node, k: Key, refs: seq<(BinId, Triple)>)
    requires k in n.logs
    ensures TakeRefs(n, k, refs).m.ndeliv == n.m.ndeliv && TakeRefs(n, k, refs).m.npre == n.m.npre
  {
    if refs != [] { RefsCounts(n, k, refs[..|refs| - 1]); }
  }

  lemma OfferedCounts(n: Node, k: Key, start: BinId, refs: seq<(BinId, Triple)>, topmost: BinId)
    ensures Ingest(n, OfferResult(k.0, k.1, start, refs, topmost)).m.ndeliv == n.m.ndeliv
    ensures Ingest(n, OfferResult(k.0, k.1, start, refs, topmost)).m.npre == n.m.npre
  {
    RefsCounts(TakeOffer(n, k, start, refs, topmost), k, refs);
    assert (k.0, k.1) == k;
  }
}
