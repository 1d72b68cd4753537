/** Settle before you forget, over whole runs of the node (crates/node/src/lib.rs). The ledger
    of a channel remembers every entry its log ever accepted and the peer has not since
    churned out, long after the log itself has dropped it. */
module NodeLedger {
  import opened Types
  import opened Machine
  import opened MachineSafety
  import opened Settlement
  import opened NodeModel
  import opened NodeWork
  import opened NodeRuns
  import opened NodeTraces

  type Ledger = map<BinId, Triple>

  /** The refs above the interval are accepted; the last triple named at a position stands. */
  function BookRefs(interval: BinId, ledger: Ledger, refs: seq<(BinId, Triple)>): Ledger {
    if refs == [] then ledger
    else
      var before := BookRefs(interval, ledger, refs[..|refs| - 1]);
      var (b, c) := refs[|refs| - 1];
      if b > interval then before[b := c] else before
  }

  /** The ledger of channel `k` after the event. */
  function Book(n: Node, k: Key, ledger: Ledger, ev: Event): Ledger {
    match ev
    case PeerGone(p) => if p == k.0 then map[] else ledger
    case OfferResult(p, bin, start, refs, topmost) =>
      if (p, bin) != k then ledger
      else
        var log := n.LogAt(k).Cover(Max(topmost, start));
        BookRefs(log.interval, ledger - Lost(log, start, refs, topmost), refs)
    case _ => ledger
  }

  /** An entry of the ledger is still in the log's window, or it is done and covered. */
  ghost predicate KeptAt(m: State, log: Log, ledger: Ledger, b: BinId)
    requires b in ledger
  {
    (b in log.entries && log.entries[b] == ledger[b]) || (b <= log.interval && m.Settled(ledger[b]))
  }

  ghost predicate Kept(m: State, log: Log, ledger: Ledger) {
    && (forall b :: b in ledger ==> KeptAt(m, log, ledger, b))
    && forall b :: b in log.entries ==> b in ledger && ledger[b] == log.entries[b]
  }

  ghost predicate LedgerInv(n: Node, k: Key, ledger: Ledger) {
    Kept(n.m, n.LogAt(k), ledger) && (k !in n.logs ==> ledger == map[])
  }

  lemma KeptUnderMoreSettled(m: State, m': State, log: Log, ledger: Ledger)
    requires Kept(m, log, ledger) && m.got <= m'.got && m.rejected <= m'.rejected
    ensures Kept(m', log, ledger)
  {
    forall b | b in ledger ensures KeptAt(m', log, ledger, b) {
      assert KeptAt(m, log, ledger, b);
    }
  }

  lemma KeptByAdvance(m: State, log: Log, ledger: Ledger)
    requires log.Valid() && Kept(m, log, ledger)
    ensures Kept(m, log.Advance(SettledBy(m)), ledger)
  {
    AdvanceTakesLargestPrefix(log, SettledBy(m));
    var log' := log.Advance(SettledBy(m));
    assert !Blocked(log, SettledBy(m), log'.interval);
    forall b | b in ledger ensures KeptAt(m, log', ledger, b) {
      assert KeptAt(m, log, ledger, b);
    }
  }

  lemma {:induction false} TakeRefsKept(n: Node, k: Key, ledger: Ledger, refs: seq<(BinId, Triple)>)
    requires k in n.logs && n.LogsValid() && Kept(n.m, n.logs[k], ledger)
    ensures var n' := TakeRefs(n, k, refs);
      && Kept(n'.m, n'.logs[k], BookRefs(n.logs[k].interval, ledger, refs))
      && n'.logs[k].interval == n.logs[k].interval
      && n'.m.got == n.m.got && n'.m.rejected == n.m.rejected
      && forall l :: l != k ==> n'.LogAt(l) == n.LogAt(l) && (l in n'.logs <==> l in n.logs)
    decreases |refs|
  {
    if refs != [] {
      var front, last := refs[..|refs| - 1], refs[|refs| - 1];
      TakeRefsKept(n, k, ledger, front);
      var n1, ledger1 := TakeRefs(n, k, front), BookRefs(n.logs[k].interval, ledger, front);
      ObserveKept(n1.m, TakeRef(n1, k, last).m, n1.logs[k], ledger1, last);
    }
  }

  lemma ObserveKept(m: State, m': State, log: Log, ledger: Ledger, r: (BinId, Triple))
    requires Kept(m, log, ledger) && m'.got == m.got && m'.rejected == m.rejected
    ensures Kept(m', log.Observe(r.0, r.1), if r.0 > log.interval then ledger[r.0 := r.1] else ledger)
  {
    var ledger' := if r.0 > log.interval then ledger[r.0 := r.1] else ledger;
    forall b | b in ledger' ensures KeptAt(m', log.Observe(r.0, r.1), ledger', b) {
      if b in ledger { assert KeptAt(m, log, ledger, b); }
    }
  }

  lemma TakeOfferKept(n: Node, k: Key, ledger: Ledger, start: BinId, refs: seq<(BinId, Triple)>, topmost: BinId)
    requires Kept(n.m, n.LogAt(k), ledger)
    ensures var log := n.LogAt(k).Cover(Max(topmost, start));
      var n' := TakeOffer(n, k, start, refs, topmost);
      Kept(n'.m, n'.logs[k], ledger - Lost(log, start, refs, topmost))
  {
    var log := n.LogAt(k).Cover(Max(topmost, start));
    var lost := Lost(log, start, refs, topmost);
    var n' := TakeOffer(n, k, start, refs, topmost);
    forall b | b in ledger - lost ensures KeptAt(n'.m, n'.logs[k], ledger - lost, b) {
      assert KeptAt(n.m, n.LogAt(k), ledger, b);
    }
  }

  lemma {:induction false} OutcomesSettleMore(m: State, p: PeerId, os: seq<(Triple, Outcome)>)
    ensures m.got <= TakeOutcomes(m, p, os).got && m.rejected <= TakeOutcomes(m, p, os).rejected
  {
    if os != [] {
      OutcomesSettleMore(m, p, os[..|os| - 1]);
    }
  }

  lemma IngestKept(n: Node, k: Key, ledger: Ledger, ev: Event)
    requires NodeInv(n) && LedgerInv(n, k, ledger)
    ensures LedgerInv(Ingest(n, ev), k, Book(n, k, ledger, ev))
    ensures n.m.got <= Ingest(n, ev).m.got && n.m.rejected <= Ingest(n, ev).m.rejected
  {
    match ev {
      case CursorsResult(p, cs) => TakeCursorsFrame(n, p, cs, k);
      case OfferResult(p, bin, start, refs, topmost) => OfferKept(n, k, ledger, p, bin, start, refs, topmost);
      case FetchResult(p, _, os) =>
        OutcomesSettleMore(n.m, p, os);
        KeptUnderMoreSettled(n.m, TakeOutcomes(n.m, p, os), n.LogAt(k), ledger);
      case _ =>
    }
  }

  lemma OfferKept(n: Node, k: Key, ledger: Ledger, p: PeerId, bin: Bin, start: BinId, refs: seq<(BinId, Triple)>, topmost: BinId)
    requires NodeInv(n) && LedgerInv(n, k, ledger)
    ensures var ev := OfferResult(p, bin, start, refs, topmost);
      && LedgerInv(Ingest(n, ev), k, Book(n, k, ledger, ev))
      && n.m.got <= Ingest(n, ev).m.got && n.m.rejected <= Ingest(n, ev).m.rejected
  {
    var l: Key := (p, bin);
    var n1 := TakeOffer(n, l, start, refs, topmost);
    TakeOfferKeeps(n, l, start, refs, topmost);
    var log := n.LogAt(l).Cover(Max(topmost, start));
    if l == k {
      TakeOfferKept(n, k, ledger, start, refs, topmost);
      TakeRefsKept(n1, k, ledger - Lost(log, start, refs, topmost), refs);
    } else {
      var own := n1.logs[l].entries;
      TakeRefsKept(n1, l, own, refs);
    }
  }

  lemma RoundKept(n: Node, k: Key, ledger: Ledger)
    requires NodeInv(n) && LedgerInv(n, k, ledger)
    ensures LedgerInv(Round(n).0, k, ledger)
    ensures Round(n).0.m.got == n.m.got && Round(n).0.m.rejected == n.m.rejected
  {
    RoundFrame(n);
    RoundReads(n, k);
    if k in n.logs {
      KeptByAdvance(n.m, n.logs[k], ledger);
    }
    KeptUnderMoreSettled(n.m, Round(n).0.m, Round(n).0.LogAt(k), ledger);
  }

  /** Every event keeps the ledger honest, and never unsettles anything. */
  lemma HandleKept(n: Node, k: Key, ledger: Ledger, ev: Event)
    requires NodeInv(n) && LedgerInv(n, k, ledger)
    ensures var n' := Handle(n, ev).0;
      LedgerInv(n', k, Book(n, k, ledger, ev)) && n.m.got <= n'.m.got && n.m.rejected <= n'.m.rejected
  {
    IngestKept(n, k, ledger, ev);
    IngestKeeps(n, ev);
    if EndsInRound(ev) {
      RoundKept(Ingest(n, ev), k, Book(n, k, ledger, ev));
    }
  }

  /** The ledger a run leaves. */
  ghost function RunLedger(n: Node, k: Key, ledger: Ledger, evs: seq<Event>): Ledger
    requires NodeInv(n)
    decreases |evs|
  {
    if evs == [] then ledger
    else
      var front := evs[..|evs| - 1];
      Book(RunEvents(n, front).0, k, RunLedger(n, k, ledger, front), evs[|evs| - 1])
  }

  lemma {:induction false} RunKept(n: Node, k: Key, ledger: Ledger, evs: seq<Event>)
    requires NodeInv(n) && LedgerInv(n, k, ledger)
    ensures var n' := RunEvents(n, evs).0;
      LedgerInv(n', k, RunLedger(n, k, ledger, evs)) && n.m.got <= n'.m.got && n.m.rejected <= n'.m.rejected
    decreases |evs|
  {
    if evs != [] {
      var front := evs[..|evs| - 1];
      RunKept(n, k, ledger, front);
      HandleKept(RunEvents(n, front).0, k, RunLedger(n, k, ledger, front), evs[|evs| - 1]);
    }
  }

  /** What an event announces for a channel is the interval it moves to, and it announces
      every move. */
  lemma HandleUptos(n: Node, k: Key, ev: Event)
    requires NodeInv(n) && ev != PeerGone(k.0)
    ensures var (n', fx) := Handle(n, ev);
      && n.LogAt(k).interval <= n'.LogAt(k).interval
      && Uptos(fx, k) == if n'.LogAt(k).interval > n.LogAt(k).interval then [n'.LogAt(k).interval] else []
  {
    IngestKeeps(n, ev);
    IngestInterval(n, k, ev);
    var n1 := Ingest(n, ev);
    if EndsInRound(ev) {
      RoundReads(n1, k);
      if k in n1.logs {
        AdvanceTakesLargestPrefix(n1.logs[k], SettledBy(n1.m));
      }
    } else if ev.CursorsResult? {
      TakeCursorsRead(Settlings, n, ev.peer, ev.cursors, k);
    } else if ev.Tick? {
      SortedLists(n.logs.Keys);
      TickEffectsRead(Settlings, n, Sorted(n.logs.Keys), k);
    } else {
      ReadSingle(Settlings, k, GetCursors(ev.peer));
    }
  }

  lemma IngestInterval(n: Node, k: Key, ev: Event)
    requires NodeInv(n) && ev != PeerGone(k.0)
    ensures Ingest(n, ev).LogAt(k).interval == n.LogAt(k).interval
  {
    match ev {
      case CursorsResult(p, cs) => TakeCursorsFrame(n, p, cs, k);
      case OfferResult(p, bin, start, refs, topmost) =>
        var l: Key := (p, bin);
        TakeOfferKeeps(n, l, start, refs, topmost);
        var n1 := TakeOffer(n, l, start, refs, topmost);
        TakeRefsKept(n1, l, n1.logs[l].entries, refs);
      case _ =>
    }
  }

  ghost predicate Increasing(s: seq<BinId>) {
    forall i, j :: 0 <= i < j < |s| ==> s[i] < s[j]
  }

  /** The positions `us` climb from `lo` to `hi`, ending there. */
  ghost predicate Climbs(us: seq<BinId>, lo: BinId, hi: BinId) {
    && Increasing(us)
    && (forall u :: u in us ==> lo < u <= hi)
    && hi == if us == [] then lo else us[|us| - 1]
  }

  lemma ClimbsOn(us: seq<BinId>, vs: seq<BinId>, lo: BinId, mid: BinId, hi: BinId)
    requires Climbs(us, lo, mid) && mid <= hi && vs == if hi > mid then [hi] else []
    ensures Climbs(us + vs, lo, hi)
  {
    if hi == mid {
      assert us + vs == us;
    } else {
      forall i, j | 0 <= i < j < |us + vs| ensures (us + vs)[i] < (us + vs)[j] {
        assert us[i] in us;
      }
      if us != [] { assert us[0] in us; }
    }
  }

  /** Until the peer departs, the announced positions strictly increase, all of them beyond
      where the channel started, and the last one is where it stands. */
  lemma {:induction false} AnnouncementsClimb(n: Node, k: Key, evs: seq<Event>)
    requires NodeInv(n) && PeerGone(k.0) !in evs
    ensures var (n', fx) := RunEvents(n, evs);
      Climbs(Uptos(fx, k), n.LogAt(k).interval, n'.LogAt(k).interval)
    decreases |evs|
  {
    if evs != [] {
      var front, ev := evs[..|evs| - 1], evs[|evs| - 1];
      AnnouncementsClimb(n, k, front);
      var (n1, fx1) := RunEvents(n, front);
      var (n2, fx2) := Handle(n1, ev);
      HandleUptos(n1, k, ev);
      ReadConcat(Settlings, k, fx1, fx2);
      ClimbsOn(Uptos(fx1, k), Uptos(fx2, k), n.LogAt(k).interval, n1.LogAt(k).interval, n2.LogAt(k).interval);
    }
  }

  /** Settle before you forget. When channel `k` announces `upto`, every entry its log ever
      accepted at or below `upto`, and the peer has not since churned out, is stored or
      rejected then, and stays so through every later event. */
  lemma SettledMeansSettled(n: Node, k: Key, evs: seq<Event>, ev: Event, later: seq<Event>, upto: BinId, b: BinId)
    requires NodeInv(n) && k !in n.logs && ev != PeerGone(k.0)
    requires upto in Uptos(Handle(RunEvents(n, evs).0, ev).1, k)
    requires b <= upto && b in RunLedger(n, k, map[], evs + [ev])
    ensures var c := RunLedger(n, k, map[], evs + [ev])[b];
      && RunEvents(n, evs + [ev]).0.m.Settled(c)
      && RunEvents(RunEvents(n, evs + [ev]).0, later).0.m.Settled(c)
  {
    var n1 := RunEvents(n, evs).0;
    assert (evs + [ev])[..|evs|] == evs;
    var n2 := RunEvents(n, evs + [ev]).0;
    assert n2 == Handle(n1, ev).0;
    RunKept(n, k, map[], evs + [ev]);
    HandleUptos(n1, k, ev);
    var ledger := RunLedger(n, k, map[], evs + [ev]);
    assert KeptAt(n2.m, n2.LogAt(k), ledger, b);
    assert n2.LogAt(k).Valid() && b <= n2.LogAt(k).interval;
    RunKept(n2, k, ledger, later);
  }
}
