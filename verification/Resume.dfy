/** Conservative resume (crates/wire/src/adapter.rs, crates/node/src/lib.rs): the wire has no
    per-entry BinIDs, and the positions the adapter makes up can make a node ask again for
    what it has, but never pass over what it has not. */
module Resume {
  import opened Types
  import opened Machine
  import opened MachineSafety
  import opened Settlement
  import opened NodeModel
  import opened NodeRuns
  import opened NodeTraces
  import opened NodeLedger
  import opened NodePacing
  import Protobuf
  import Messages
  import Adapter

  /** BinIDs as a bin hands them out: at least `start`, and strictly increasing. */
  predicate TrueIds(start: BinId, entries: seq<(BinId, Triple)>) {
    entries == [] ||
      var last := |entries| - 1;
      && TrueIds(start, entries[..last])
      && (if last == 0 then start <= entries[0].0 else entries[last - 1].0 < entries[last].0)
  }

  /** A made-up position is never beyond the true one. */
  lemma {:induction false} PositionsAreLow(start: BinId, entries: seq<(BinId, Triple)>, i: nat)
    requires TrueIds(start, entries) && i < |entries|
    ensures start + i <= entries[i].0
    decreases |entries|
  {
    var last := |entries| - 1;
    if i < last {
      PositionsAreLow(start, entries[..last], i);
    } else if i > 0 {
      PositionsAreLow(start, entries[..last], i - 1);
    }
  }

  /** What the offer client reports are the decodable entries, each at its made-up position. */
  lemma {:induction false} PositionedAre(codec: Adapter.Codec, start: BinId, chunks: seq<Messages.Chunk>, b: BinId, t: Triple)
    ensures (b, t) in Adapter.Positioned(codec, start, chunks) <==>
      0 <= b - start < |chunks| && codec.Identify(chunks[b - start]) == Some(t)
    decreases |chunks|
  {
    if chunks != [] {
      var i := |chunks| - 1;
      PositionedAre(codec, start, chunks[..i], b, t);
    }
  }

  /** An entry still unsettled keeps the interval below its position. */
  lemma UnsettledHoldsBack(n: Node, k: Key, ledger: Ledger, b: BinId)
    requires NodeInv(n) && LedgerInv(n, k, ledger) && b in ledger && !n.m.Settled(ledger[b])
    ensures n.LogAt(k).interval < b
  {
    assert KeptAt(n.m, n.LogAt(k), ledger, b);
    assert n.LogAt(k).Valid();
  }

  lemma LedgerFromScratch(n: Node, k: Key, evs: seq<Event>)
    requires NodeInv(n) && k !in n.logs
    ensures LedgerInv(RunEvents(n, evs).0, k, RunLedger(n, k, map[], evs))
  {
    assert LedgerInv(n, k, map[]);
    RunKept(n, k, map[], evs);
  }

  lemma RunHoldsBack(n: Node, k: Key, evs: seq<Event>, b: BinId)
    requires NodeInv(n) && k !in n.logs && b in RunLedger(n, k, map[], evs)
    ensures !RunEvents(n, evs).0.m.Settled(RunLedger(n, k, map[], evs)[b]) ==> RunEvents(n, evs).0.LogAt(k).interval < b
  {
    LedgerFromScratch(n, k, evs);
    var n', ledger := RunEvents(n, evs).0, RunLedger(n, k, map[], evs);
    if !n'.m.Settled(ledger[b]) {
      UnsettledHoldsBack(n', k, ledger, b);
    }
  }

  /** Over every run of the node: as long as an offered entry, accepted at its made-up position
      and not since displaced or churned out, is unsettled, the node's next Get starts at or
      below that entry's true BinID. */
  lemma ResumeNeverSkips(n: Node, k: Key, evs: seq<Event>, start: BinId, entries: seq<(BinId, Triple)>, i: nat)
    requires NodeInv(n) && k !in n.logs && TrueIds(start, entries) && i < |entries|
    requires start + i in RunLedger(n, k, map[], evs) && RunLedger(n, k, map[], evs)[start + i] == entries[i].1
    requires !RunEvents(n, evs).0.m.Settled(entries[i].1)
    ensures RunEvents(n, evs).0.LogAt(k).Next() <= entries[i].0
  {
    RunHoldsBack(n, k, evs, start + i);
    PositionsAreLow(start, entries, i);
  }

  // --- without a tick nothing is displaced ----------------------------------------------------------

  /** Positions as the adapter makes them up: from the answer's own start on, each once. */
  ghost predicate MadeUp(start: BinId, refs: seq<(BinId, Triple)>) {
    && (forall r :: r in refs ==> start <= r.0)
    && forall i, j :: 0 <= i < j < |refs| ==> refs[i].0 != refs[j].0
  }

  /** One step of a run without ticks: the peer stays, its cursors come once, and its answers
      are proper. */
  ghost predicate Unticked(n: Node, k: Key, starts: seq<BinId>, ev: Event) {
    && ev != Tick && ev != PeerGone(k.0)
    && (ev.CursorsResult? && ev.peer == k.0 ==> k !in n.logs)
    && Proper(n, k, starts, ev)
  }

  ghost predicate UntickedRun(n: Node, k: Key, evs: seq<Event>)
    requires NodeInv(n)
    decreases |evs|
  {
    evs == [] ||
      var (n1, fx1) := RunEvents(n, evs[..|evs| - 1]);
      UntickedRun(n, k, evs[..|evs| - 1]) && Unticked(n1, k, Starts(fx1, k), evs[|evs| - 1])
  }

  /** And the positions in its answers are made up. */
  ghost predicate Untimed(n: Node, k: Key, starts: seq<BinId>, ev: Event) {
    Unticked(n, k, starts, ev) && (Answers(ev, k) ==> MadeUp(ev.start, ev.refs))
  }

  ghost predicate UntimedRun(n: Node, k: Key, evs: seq<Event>)
    requires NodeInv(n)
    decreases |evs|
  {
    evs == [] ||
      var (n1, fx1) := RunEvents(n, evs[..|evs| - 1]);
      UntimedRun(n, k, evs[..|evs| - 1]) && Untimed(n1, k, Starts(fx1, k), evs[|evs| - 1])
  }

  /** A standing offer asks from just above everything covered. */
  ghost predicate AsksAbove(n: Node, k: Key, starts: seq<BinId>) {
    k in n.offerOpen ==> Last(starts) == n.LogAt(k).topmost + 1
  }

  lemma RoundAsksAbove(n: Node, k: Key, starts: seq<BinId>)
    requires NodeInv(n) && AsksAbove(n, k, starts)
    ensures AsksAbove(Round(n).0, k, starts + Starts(Round(n).1, k))
  {
    RoundReads(n, k);
    if k in n.logs {
      AdvanceTakesLargestPrefix(n.logs[k], SettledBy(n.m));
    }
    if !Reoffers(n, k) {
      assert starts + Starts(Round(n).1, k) == starts;
    }
  }

  lemma IngestAsksAbove(n: Node, k: Key, starts: seq<BinId>, ev: Event)
    requires NodeInv(n) && AsksAbove(n, k, starts) && EndsInRound(ev) && Untimed(n, k, starts, ev)
    ensures AsksAbove(Ingest(n, ev), k, starts)
  {
    if ev.OfferResult? && !Answers(ev, k) {
      var l: Key := (ev.peer, ev.bin);
      var n1 := TakeOffer(n, l, ev.start, ev.refs, ev.topmost);
      TakeOfferKeeps(n, l, ev.start, ev.refs, ev.topmost);
      TakeRefsKept(n1, l, n1.logs[l].entries, ev.refs);
      TakeRefsPace(n1, l, ev.refs, k);
    } else if ev.OfferResult? {
      IngestPace(n, k, starts, ev);
    }
  }

  lemma HandleAsksAbove(n: Node, k: Key, starts: seq<BinId>, ev: Event)
    requires NodeInv(n) && AsksAbove(n, k, starts) && Untimed(n, k, starts, ev)
    ensures AsksAbove(Handle(n, ev).0, k, starts + Starts(Handle(n, ev).1, k))
  {
    if EndsInRound(ev) {
      IngestAsksAbove(n, k, starts, ev);
      IngestKeeps(n, ev);
      RoundAsksAbove(Ingest(n, ev), k, starts);
    } else {
      CreditReads(n, k, ev);
      var fx := Handle(n, ev).1;
      if Starts(fx, k) == [] {
        assert starts + Starts(fx, k) == starts;
      }
    }
  }

  lemma {:induction false} BookAdds(interval: BinId, ledger: Ledger, start: BinId, refs: seq<(BinId, Triple)>)
    requires interval < start && MadeUp(start, refs) && forall b :: b in ledger ==> b < start
    ensures var booked := BookRefs(interval, ledger, refs);
      && (forall b :: b in ledger ==> b in booked && booked[b] == ledger[b])
      && (forall r :: r in refs ==> r.0 in booked && booked[r.0] == r.1)
      && forall b :: b in booked ==> b in ledger || exists r :: r in refs && r.0 == b
    decreases |refs|
  {
    if refs != [] {
      var front, last := refs[..|refs| - 1], refs[|refs| - 1];
      assert last in refs && forall r :: r in front ==> r in refs;
      BookAdds(interval, ledger, start, front);
      assert forall r :: r in refs <==> r in front || r == last;
      forall r | r in front ensures r.0 != last.0 {
        var x :| 0 <= x < |front| && front[x] == r;
        assert refs[x] == r;
      }
    }
  }

  /** Nothing of the ledger is displaced, and everything answered enters it. */
  lemma BookGrows(n: Node, k: Key, starts: seq<BinId>, ledger: Ledger, ev: Event)
    requires NodeInv(n) && LedgerInv(n, k, ledger) && AsksAbove(n, k, starts) && Untimed(n, k, starts, ev)
    ensures var booked := Book(n, k, ledger, ev);
      && (forall b :: b in ledger ==> b in booked && booked[b] == ledger[b])
      && (Answers(ev, k) ==> forall r :: r in ev.refs ==> r.0 in booked && booked[r.0] == r.1)
  {
    if Answers(ev, k) {
      var log := n.LogAt(k).Cover(Max(ev.topmost, ev.start));
      assert n.LogAt(k).Valid();
      forall b | b in ledger ensures b <= n.LogAt(k).topmost {
        assert KeptAt(n.m, n.LogAt(k), ledger, b);
      }
      assert Lost(log, ev.start, ev.refs, ev.topmost) == {};
      assert ledger - {} == ledger;
      BookAdds(log.interval, ledger, ev.start, ev.refs);
    }
  }

  /** What run `evs` of the channel was ever offered. */
  function EverOffered(evs: seq<Event>, k: Key): set<(BinId, Triple)> {
    if evs == [] then {}
    else
      var ev := evs[|evs| - 1];
      EverOffered(evs[..|evs| - 1], k) + if Answers(ev, k) then set r | r in ev.refs else {}
  }

  ghost predicate HoldsAll(ledger: Ledger, refs: set<(BinId, Triple)>) {
    forall r :: r in refs ==> r.0 in ledger && ledger[r.0] == r.1
  }

  lemma {:induction false} UntimedAsksAbove(n: Node, k: Key, evs: seq<Event>)
    requires NodeInv(n) && k !in n.offerOpen && UntimedRun(n, k, evs)
    ensures AsksAbove(RunEvents(n, evs).0, k, Starts(RunEvents(n, evs).1, k))
    decreases |evs|
  {
    if evs != [] {
      var front, ev := evs[..|evs| - 1], evs[|evs| - 1];
      UntimedAsksAbove(n, k, front);
      var (n1, fx1) := RunEvents(n, front);
      HandleAsksAbove(n1, k, Starts(fx1, k), ev);
      ReadConcat(Asks, k, fx1, Handle(n1, ev).1);
    }
  }

  lemma BookHoldsAll(n: Node, k: Key, starts: seq<BinId>, ledger: Ledger, ev: Event, refs: set<(BinId, Triple)>)
    requires NodeInv(n) && LedgerInv(n, k, ledger) && AsksAbove(n, k, starts) && Untimed(n, k, starts, ev)
    requires HoldsAll(ledger, refs)
    ensures HoldsAll(Book(n, k, ledger, ev), refs + if Answers(ev, k) then set r | r in ev.refs else {})
  {
    BookGrows(n, k, starts, ledger, ev);
  }

  /** In a run without ticks, the ledger keeps everything ever offered at its made-up position. */
  lemma {:induction false} UntimedKeepsAll(n: Node, k: Key, evs: seq<Event>)
    requires NodeInv(n) && k !in n.logs && k !in n.offerOpen && UntimedRun(n, k, evs)
    ensures HoldsAll(RunLedger(n, k, map[], evs), EverOffered(evs, k))
    decreases |evs|
  {
    if evs != [] {
      var front := evs[..|evs| - 1];
      UntimedKeepsAll(n, k, front);
      UntimedAsksAbove(n, k, front);
      LedgerFromScratch(n, k, front);
      var (n1, fx1) := RunEvents(n, front);
      BookHoldsAll(n1, k, Starts(fx1, k), RunLedger(n, k, map[], front), evs[|evs| - 1], EverOffered(front, k));
    }
  }

  lemma UntimedHoldsBack(n: Node, k: Key, evs: seq<Event>, r: (BinId, Triple))
    requires NodeInv(n) && k !in n.logs && k !in n.offerOpen && UntimedRun(n, k, evs) && r in EverOffered(evs, k)
    ensures !RunEvents(n, evs).0.m.Settled(r.1) ==> RunEvents(n, evs).0.LogAt(k).interval < r.0
  {
    UntimedKeepsAll(n, k, evs);
    RunHoldsBack(n, k, evs, r.0);
  }

  // --- with the adapter's positions ------------------------------------------------------------------

  /** The adapter numbers the chunks of an answer from its start on, each once. */
  lemma {:induction false} PositionedIsMadeUp(codec: Adapter.Codec, start: BinId, chunks: seq<Messages.Chunk>)
    ensures MadeUp(start, Adapter.Positioned(codec, start, chunks))
    decreases |chunks|
  {
    if chunks != [] {
      var front := chunks[..|chunks| - 1];
      PositionedIsMadeUp(codec, start, front);
      forall r | r in Adapter.Positioned(codec, start, front) ensures r.0 < start + |front| {
        PositionedAre(codec, start, front, r.0, r.1);
      }
    }
  }

  /** Every answer on channel `k` is what the adapter makes of a page of chunks. */
  ghost predicate Adapted(codec: Adapter.Codec, k: Key, evs: seq<Event>, pages: seq<seq<Messages.Chunk>>)
    decreases |evs|
  {
    |pages| == |evs| && (evs == [] ||
      var x := |evs| - 1;
      && Adapted(codec, k, evs[..x], pages[..x])
      && (Answers(evs[x], k) ==> evs[x].refs == Adapter.Positioned(codec, evs[x].start, pages[x])))
  }

  lemma {:induction false} AdaptedAt(codec: Adapter.Codec, k: Key, evs: seq<Event>, pages: seq<seq<Messages.Chunk>>, x: nat)
    requires Adapted(codec, k, evs, pages) && x < |evs| && Answers(evs[x], k)
    ensures evs[x].refs == Adapter.Positioned(codec, evs[x].start, pages[x])
    decreases |evs|
  {
    if x < |evs| - 1 {
      AdaptedAt(codec, k, evs[..|evs| - 1], pages[..|evs| - 1], x);
    }
  }

  lemma {:induction false} AdaptedIsUntimed(codec: Adapter.Codec, n: Node, k: Key, evs: seq<Event>, pages: seq<seq<Messages.Chunk>>)
    requires NodeInv(n) && UntickedRun(n, k, evs) && Adapted(codec, k, evs, pages)
    ensures UntimedRun(n, k, evs)
    decreases |evs|
  {
    if evs != [] {
      var x := |evs| - 1;
      AdaptedIsUntimed(codec, n, k, evs[..x], pages[..x]);
      if Answers(evs[x], k) {
        PositionedIsMadeUp(codec, evs[x].start, pages[x]);
      }
    }
  }

  lemma {:induction false} OfferedStays(evs: seq<Event>, k: Key, x: nat, r: (BinId, Triple))
    requires x < |evs| && Answers(evs[x], k) && r in evs[x].refs
    ensures r in EverOffered(evs, k)
    decreases |evs|
  {
    if x < |evs| - 1 {
      OfferedStays(evs[..|evs| - 1], k, x, r);
    }
  }

  lemma AdaptedHoldsBack(codec: Adapter.Codec, n: Node, k: Key, evs: seq<Event>, pages: seq<seq<Messages.Chunk>>,
                         x: nat, r: (BinId, Triple))
    requires NodeInv(n) && k !in n.logs && k !in n.offerOpen
    requires UntickedRun(n, k, evs) && Adapted(codec, k, evs, pages)
    requires x < |evs| && Answers(evs[x], k) && r in evs[x].refs
    ensures RunEvents(n, evs).0.m.Settled(r.1) || RunEvents(n, evs).0.LogAt(k).interval < r.0
  {
    OfferedStays(evs, k, x, r);
    AdaptedIsUntimed(codec, n, k, evs, pages);
    UntimedHoldsBack(n, k, evs, r);
  }

  /** The reference an answer makes of a decodable chunk. */
  lemma AdaptedNames(codec: Adapter.Codec, k: Key, evs: seq<Event>, pages: seq<seq<Messages.Chunk>>, x: nat, i: nat, t: Triple)
    requires Adapted(codec, k, evs, pages) && x < |evs| && Answers(evs[x], k)
    requires i < |pages[x]| && codec.Identify(pages[x][i]) == Some(t)
    ensures (evs[x].start + i, t) in evs[x].refs
  {
    AdaptedAt(codec, k, evs, pages, x);
    PositionedAre(codec, evs[x].start, pages[x], evs[x].start + i, t);
  }

  lemma ChunkHoldsBack(codec: Adapter.Codec, n: Node, k: Key, evs: seq<Event>, pages: seq<seq<Messages.Chunk>>,
                       x: nat, i: nat, t: Triple)
    requires NodeInv(n) && k !in n.logs && k !in n.offerOpen
    requires UntickedRun(n, k, evs) && Adapted(codec, k, evs, pages)
    requires x < |evs| && Answers(evs[x], k) && i < |pages[x]| && codec.Identify(pages[x][i]) == Some(t)
    ensures RunEvents(n, evs).0.m.Settled(t) || RunEvents(n, evs).0.LogAt(k).interval < evs[x].start + i
  {
    AdaptedNames(codec, k, evs, pages, x, i, t);
    AdaptedHoldsBack(codec, n, k, evs, pages, x, (evs[x].start + i, t));
  }

  /** So in any run without ticks, behind the adapter: the interval stays below the true BinID of
      every decodable chunk, of every page ever answered, that is still unsettled. Nothing is
      ever passed over. */
  lemma UntimedNeverSkips(codec: Adapter.Codec, n: Node, k: Key, evs: seq<Event>, pages: seq<seq<Messages.Chunk>>,
                          x: nat, entries: seq<(BinId, Triple)>, i: nat)
    requires NodeInv(n) && k !in n.logs && k !in n.offerOpen
    requires UntickedRun(n, k, evs) && Adapted(codec, k, evs, pages)
    requires x < |evs| && Answers(evs[x], k)
    requires |entries| == |pages[x]| && TrueIds(evs[x].start, entries)
    requires i < |entries| && codec.Identify(pages[x][i]) == Some(entries[i].1)
    ensures var n' := RunEvents(n, evs).0;
      n'.m.Settled(entries[i].1) || n'.LogAt(k).interval < entries[i].0
  {
    assert evs[x].start + i <= entries[i].0 by { PositionsAreLow(evs[x].start, entries, i); }
    ChunkHoldsBack(codec, n, k, evs, pages, x, i, entries[i].1);
  }
}
