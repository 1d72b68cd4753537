/** Offer pacing (crates/node/src/lib.rs, crates/node/src/discovery.rs): one standing offer per
    channel, and no advertisement without either a credit from the shell or new ground. */
module NodePacing {
  import opened Types
  import opened Machine
  import opened MachineSafety
  import opened Settlement
  import opened NodeModel
  import opened NodeWork
  import opened NodeRuns
  import opened NodeTraces
  import opened NodeLedger

  function Last(starts: seq<BinId>): BinId {
    if starts == [] then 0 else starts[|starts| - 1]
  }

  predicate Answers(ev: Event, k: Key) {
    ev.OfferResult? && (ev.peer, ev.bin) == k
  }

  /** An answer belongs to the standing offer and carries that offer's own start. */
  predicate Proper(n: Node, k: Key, starts: seq<BinId>, ev: Event) {
    Answers(ev, k) ==> k in n.offerOpen && ev.start == Last(starts)
  }

  ghost predicate ProperRun(n: Node, k: Key, evs: seq<Event>)
    requires NodeInv(n)
    decreases |evs|
  {
    evs == [] ||
      var (n1, fx1) := RunEvents(n, evs[..|evs| - 1]);
      ProperRun(n, k, evs[..|evs| - 1]) && Proper(n1, k, Starts(fx1, k), evs[|evs| - 1])
  }

  function Answered(evs: seq<Event>, k: Key): nat {
    if evs == [] then 0 else Answered(evs[..|evs| - 1], k) + if Answers(evs[|evs| - 1], k) then 1 else 0
  }

  /** What the shell pays for an advertisement with: a tick, or the peer's cursors. */
  predicate IsCredit(ev: Event, k: Key) {
    ev == Tick || (ev.CursorsResult? && ev.peer == k.0)
  }

  function Credits(evs: seq<Event>, k: Key): nat {
    if evs == [] then 0 else Credits(evs[..|evs| - 1], k) + if IsCredit(evs[|evs| - 1], k) then 1 else 0
  }

  lemma {:induction false} TakeRefsPace(n: Node, l: Key, refs: seq<(BinId, Triple)>, k: Key)
    requires l in n.logs
    ensures var n' := TakeRefs(n, l, refs);
      && n'.offerOpen == n.offerOpen
      && n'.logs.Keys == n.logs.Keys
      && n'.LogAt(k).interval == n.LogAt(k).interval && n'.LogAt(k).topmost >= n.LogAt(k).topmost
    decreases |refs|
  {
    if refs != [] {
      TakeRefsPace(n, l, refs[..|refs| - 1], k);
    }
  }

  /** What the event arms do to channel `k`, before any round. */
  lemma IngestPace(n: Node, k: Key, starts: seq<BinId>, ev: Event)
    requires NodeInv(n) && EndsInRound(ev) && ev != PeerGone(k.0) && Proper(n, k, starts, ev)
    ensures var n1 := Ingest(n, ev);
      && n1.LogAt(k).interval == n.LogAt(k).interval
      && n1.LogAt(k).topmost >= n.LogAt(k).topmost
      && (k in n1.offerOpen <==> k in n.offerOpen && !Answers(ev, k))
      && (k in n1.logs ==> k in n.logs || k in n.offerOpen)
      && (Answers(ev, k) ==> n1.LogAt(k).topmost >= Last(starts))
  {
    if ev.OfferResult? {
      var l: Key := (ev.peer, ev.bin);
      var n0 := TakeOffer(n, l, ev.start, ev.refs, ev.topmost);
      TakeRefsPace(n0, l, ev.refs, k);
    }
  }

  /** The pacing invariant of channel `k`, given where it asked so far and the credits spent:
      without a credit, an offer costs an advance of the interval. */
  ghost predicate Paced(n: Node, k: Key, starts: seq<BinId>, credits: nat) {
    && (k in n.logs || k in n.offerOpen ==> starts != [])
    && (starts != [] ==> Last(starts) >= 1)
    && 0 <= n.LogAt(k).interval
    && Last(starts) <= n.LogAt(k).interval + 1
    && (k !in n.offerOpen ==> Last(starts) <= n.LogAt(k).topmost)
    && |starts| <= credits + Max(0, Last(starts) - 1)
  }

  /** A round asks again only from strictly beyond its last question. */
  lemma RoundPaced(n: Node, k: Key, starts: seq<BinId>, credits: nat)
    requires NodeInv(n) && Paced(n, k, starts, credits)
    ensures var (n', fx) := Round(n);
      && Paced(n', k, starts + Starts(fx, k), credits)
      && |Starts(fx, k)| == if k in n'.offerOpen && k !in n.offerOpen then 1 else 0
  {
    RoundReads(n, k);
    RoundFrame(n);
    var (n', fx) := Round(n);
    if k in n.logs {
      AdvanceTakesLargestPrefix(n.logs[k], SettledBy(n.m));
    }
    if !(k in n.logs && Reoffers(n, k)) {
      assert starts + Starts(fx, k) == starts;
    } else {
      assert Last(starts + Starts(fx, k)) == n'.LogAt(k).Next();
    }
  }

  lemma {:induction false} CursorsOpenLogs(n: Node, p: PeerId, cs: seq<(Bin, BinId)>, k: Key)
    ensures var n' := TakeCursors(n, p, cs).0;
      && (k in n'.logs ==> k in n.logs || k in n'.offerOpen)
      && (k in n'.offerOpen ==> k in n.offerOpen || k.0 == p)
    decreases |cs|
  {
    if cs != [] {
      CursorsOpenLogs(n, p, cs[..|cs| - 1], k);
    }
  }

  /** The events without a round leave the log alone, and open the channel only for a credit. */
  lemma CreditReads(n: Node, k: Key, ev: Event)
    requires NodeInv(n) && !EndsInRound(ev)
    ensures var (n', fx) := Handle(n, ev);
      && n'.LogAt(k) == n.LogAt(k)
      && (k in n'.logs ==> k in n.logs || k in n'.offerOpen)
      && (k in n.offerOpen ==> k in n'.offerOpen)
      && (k in n'.offerOpen ==> k in n.offerOpen || IsCredit(ev, k))
      && Starts(fx, k) == if k in n'.offerOpen && k !in n.offerOpen then [n.LogAt(k).Next()] else []
  {
    match ev {
      case PeerSeen(p) => ReadSingle(Asks, k, GetCursors(p));
      case CursorsResult(p, cs) =>
        TakeCursorsFrame(n, p, cs, k);
        TakeCursorsRead(Asks, n, p, cs, k);
        CursorsOpenLogs(n, p, cs, k);
      case Tick =>
        SortedLists(n.logs.Keys);
        TickEffectsRead(Asks, n, Sorted(n.logs.Keys), k);
    }
  }

  lemma CreditPaced(n: Node, k: Key, starts: seq<BinId>, credits: nat, ev: Event)
    requires NodeInv(n) && Paced(n, k, starts, credits) && !EndsInRound(ev)
    ensures var (n', fx) := Handle(n, ev);
      Paced(n', k, starts + Starts(fx, k), credits + if IsCredit(ev, k) then 1 else 0)
  {
    CreditReads(n, k, ev);
    var (n', fx) := Handle(n, ev);
    if Starts(fx, k) == [] {
      assert starts + Starts(fx, k) == starts;
    } else {
      assert Last(starts + Starts(fx, k)) == n.LogAt(k).Next();
    }
  }

  lemma HandlePaced(n: Node, k: Key, starts: seq<BinId>, credits: nat, ev: Event)
    requires NodeInv(n) && Paced(n, k, starts, credits) && ev != PeerGone(k.0) && Proper(n, k, starts, ev)
    ensures var (n', fx) := Handle(n, ev);
      && Paced(n', k, starts + Starts(fx, k), credits + if IsCredit(ev, k) then 1 else 0)
      && (if k in n.offerOpen then 1 else 0) + |Starts(fx, k)| ==
        (if Answers(ev, k) then 1 else 0) + (if k in n'.offerOpen then 1 else 0)
  {
    if EndsInRound(ev) {
      IngestPace(n, k, starts, ev);
      IngestKeeps(n, ev);
      RoundPaced(Ingest(n, ev), k, starts, credits);
      RoundReads(Ingest(n, ev), k);
    } else {
      CreditPaced(n, k, starts, credits, ev);
      CreditReads(n, k, ev);
    }
  }

  /** Offer pacing. From a fresh channel and until the peer departs, if each answer belongs to
      the standing offer: exactly the standing offer is unanswered, and the offers made are
      at most the credits given plus the interval reached. */
  lemma {:induction false} OffersArePaced(n: Node, k: Key, evs: seq<Event>)
    requires NodeInv(n) && k !in n.logs && k !in n.offerOpen
    requires PeerGone(k.0) !in evs && ProperRun(n, k, evs)
    ensures var (n', fx) := RunEvents(n, evs);
      && |Starts(fx, k)| == Answered(evs, k) + (if k in n'.offerOpen then 1 else 0)
      && |Starts(fx, k)| <= Credits(evs, k) + n'.LogAt(k).interval
      && Paced(n', k, Starts(fx, k), Credits(evs, k))
    decreases |evs|
  {
    if evs != [] {
      var front, ev := evs[..|evs| - 1], evs[|evs| - 1];
      OffersArePaced(n, k, front);
      var (n1, fx1) := RunEvents(n, front);
      HandlePaced(n1, k, Starts(fx1, k), Credits(front, k), ev);
      ReadConcat(Asks, k, fx1, Handle(n1, ev).1);
    }
  }
}
