/** What each event does to a node, field by field and effect by effect (crates/node/src/lib.rs,
    `handle`), before the round that may follow. */
module NodeEvents {
  import opened Types
  import opened Machine
  import opened MachineActions
  import opened Settlement
  import opened NodeModel
  import opened NodeTraces

  // --- a tick -----------------------------------------------------------------------------------

  lemma {:induction false} TickEffectsAreOffers(n: Node, keys: seq<Key>)
    requires forall k :: k in keys ==> k in n.logs
    ensures forall e :: e in TickEffects(n, keys) ==> e.Offer?
    decreases |keys|
  {
    if keys != [] {
      TickEffectsAreOffers(n, keys[..|keys| - 1]);
    }
  }

  lemma TickReads(n: Node, k: Key, keys: seq<Key>)
    requires (forall l :: l in keys <==> l in n.logs) && Distinct(keys)
    ensures Starts(TickEffects(n, keys), k) ==
      if k in n.logs && k.0 in n.peers && k !in n.offerOpen then [n.logs[k].interval + 1] else []
  {
    TickEffectsRead(Asks, n, keys, k);
    assert (k.0, k.1) == k;
  }

  lemma TickIs(n: Node)
    requires n.LogsValid()
    ensures (forall k :: k in Sorted(n.logs.Keys) <==> k in n.logs) && Distinct(Sorted(n.logs.Keys))
    ensures Handle(n, Tick).1 == TickEffects(n, Sorted(n.logs.Keys))
    ensures forall k :: k in Handle(n, Tick).0.offerOpen <==> k in n.offerOpen || (k in n.logs && k.0 in n.peers)
    ensures Handle(n, Tick).0 == n.(offerOpen := Handle(n, Tick).0.offerOpen)
  {
    SortedLists(n.logs.Keys);
  }

  /** A tick asks again, from just above the interval, on every channel of a present peer with no
      offer standing, and opens it; on every other channel it does nothing, and nothing else in
      the node changes. Covered but unsettled ground is so advertised again. */
  lemma TickReoffers(n: Node, k: Key)
    requires n.LogsValid()
    ensures var (n', fx) := Handle(n, Tick);
      && (if k in n.logs && k.0 in n.peers && k !in n.offerOpen
          then Starts(fx, k) == [n.logs[k].interval + 1] && k in n'.offerOpen
          else Starts(fx, k) == [] && (k in n'.offerOpen <==> k in n.offerOpen))
      && (forall e :: e in fx ==> e.Offer?)
      && n' == n.(offerOpen := n'.offerOpen)
  {
    TickIs(n);
    TickReads(n, k, Sorted(n.logs.Keys));
    TickEffectsAreOffers(n, Sorted(n.logs.Keys));
  }

  // --- a peer comes -------------------------------------------------------------------------------

  /** A peer seen for the first time is asked for its cursors; seen again it is not. */
  lemma SeenAsksOnce(n: Node, p: PeerId)
    requires n.LogsValid()
    ensures Handle(n, PeerSeen(p)).0 == n.(peers := n.peers + {p})
    ensures p !in n.peers ==> Handle(n, PeerSeen(p)).1 == [GetCursors(p)]
    ensures p in n.peers ==> Handle(n, PeerSeen(p)) == (n, [])
  {
    if p in n.peers { assert n.peers + {p} == n.peers; }
  }

  /** The last head a cursors answer names for a bin. */
  function HeadFor(cs: seq<(Bin, BinId)>, bin: Bin): Option<BinId> {
    if cs == [] then None
    else if cs[|cs| - 1].0 == bin then Some(cs[|cs| - 1].1)
    else HeadFor(cs[..|cs| - 1], bin)
  }

  /** An answer names a bin of the node's own. */
  predicate Named(n: Node, peer: PeerId, cs: seq<(Bin, BinId)>, k: Key) {
    k.0 == peer && k.1 >= n.radius && HeadFor(cs, k.1).Some?
  }

  /** Cursors open the channels of every bin they name from the radius on, each asked for once,
      from just above its interval, unless an offer stands; each takes the head named last. Bins
      below the radius, other peers and the rest of the node are left alone. */
  lemma {:induction false} CursorsOpen(n: Node, peer: PeerId, cs: seq<(Bin, BinId)>, k: Key)
    ensures var (n', fx) := TakeCursors(n, peer, cs);
      && Starts(fx, k) == (if Named(n, peer, cs, k) && k !in n.offerOpen then [n.LogAt(k).interval + 1] else [])
      && (k in n'.offerOpen <==> k in n.offerOpen || Named(n, peer, cs, k))
      && (k in n'.logs <==> k in n.logs || Named(n, peer, cs, k))
      && n'.LogAt(k) == n.LogAt(k)
      && n'.Cursor(k) == (if Named(n, peer, cs, k) then HeadFor(cs, k.1).value else n.Cursor(k))
      && n' == n.(cursors := n'.cursors, logs := n'.logs, offerOpen := n'.offerOpen)
    decreases |cs|
  {
    TakeCursorsRead(Asks, n, peer, cs, k);
    if cs != [] {
      CursorsOpen(n, peer, cs[..|cs| - 1], k);
    }
    assert (k.0, k.1) == k;
  }

  // --- an offer is answered --------------------------------------------------------------------------

  /** The last triple an answer names at a position. */
  function TripleAt(refs: seq<(BinId, Triple)>, b: BinId): Option<Triple> {
    if refs == [] then None
    else if refs[|refs| - 1].0 == b then Some(refs[|refs| - 1].1)
    else TripleAt(refs[..|refs| - 1], b)
  }

  /** The first position at which an answer names a triple. */
  function FirstAt(refs: seq<(BinId, Triple)>, c: Triple): Option<BinId> {
    if refs == [] then None
    else if FirstAt(refs[..|refs| - 1], c).Some? then FirstAt(refs[..|refs| - 1], c)
    else if refs[|refs| - 1].1 == c then Some(refs[|refs| - 1].0)
    else None
  }

  /** Of a window's entries an answer loses those between its start and its topmost that it does
      not name. */
  predicate Churned(log: Log, start: BinId, refs: seq<(BinId, Triple)>, topmost: BinId, b: BinId) {
    b in log.entries && start <= b && b <= topmost && TripleAt(refs, b).None?
  }

  /** A triple some entry loses. */
  predicate Dropped(log: Log, start: BinId, refs: seq<(BinId, Triple)>, topmost: BinId, c: Triple) {
    exists x :: x in log.entries && Churned(log, start, refs, topmost, x) && log.entries[x] == c
  }

  lemma {:induction false} TripleAtNames(refs: seq<(BinId, Triple)>, b: BinId)
    ensures TripleAt(refs, b).Some? <==> b in OfferedIds(refs)
    decreases |refs|
  {
    if refs != [] {
      TripleAtNames(refs[..|refs| - 1], b);
      assert refs == refs[..|refs| - 1] + [refs[|refs| - 1]];
    }
  }

  lemma LoseRowsAt(t: Table, cs: set<Triple>, p: PeerId, c: Triple)
    ensures At(LoseRows(t, cs, p), c) == if c in cs then At(t, c) - {p} else At(t, c)
  {
  }

  /** An answer closes the standing offer and covers at least what was asked, whatever topmost it
      claims. Entries it covers but no longer names leave the window, and the peer its holding of
      them and its claim on them; nobody is barred. The rest of the window, and of the node, stays. */
  lemma OfferCloses(n: Node, k: Key, start: BinId, refs: seq<(BinId, Triple)>, topmost: BinId, b: BinId, c: Triple, q: PeerId)
    ensures var n' := TakeOffer(n, k, start, refs, topmost);
      var log, log' := n.LogAt(k), n'.LogAt(k);
      && n'.offerOpen == n.offerOpen - {k}
      && log'.interval == log.interval && log'.topmost == Max(log.topmost, Max(topmost, start))
      && (b in log'.entries <==> b in log.entries && !Churned(log, start, refs, topmost, b))
      && (b in log'.entries ==> log'.entries[b] == log.entries[b])
      && (q in At(n'.m.holders, c) <==> q in At(n.m.holders, c) && !(q == k.0 && Dropped(log, start, refs, topmost, c)))
      && (q in At(n'.m.want, c) <==> q in At(n.m.want, c) && !(q == k.0 && Dropped(log, start, refs, topmost, c)))
      && n'.logs == n.logs[k := log']
      && n' == n.(offerOpen := n'.offerOpen, logs := n'.logs, m := n.m.(holders := n'.m.holders, want := n'.m.want))
  {
    var log := n.LogAt(k).Cover(Max(topmost, start));
    var lost := Lost(log, start, refs, topmost);
    forall x ensures x in lost <==> Churned(n.LogAt(k), start, refs, topmost, x) {
      TripleAtNames(refs, x);
    }
    LoseRowsAt(n.m.holders, TriplesAt(log, lost), k.0, c);
    LoseRowsAt(n.m.want, TriplesAt(log, lost), k.0, c);
  }

  /** Each entry named beyond the interval enters the window under its position; each triple named
      is held by the peer, in the channel's bin, and arrives unless settled. It is live exactly if
      it was first named beyond the peer's cursor. */
  lemma {:induction false} RefsEnter(n: Node, k: Key, refs: seq<(BinId, Triple)>, b: BinId, c: Triple, q: PeerId)
    requires k in n.logs
    ensures var n' := TakeRefs(n, k, refs);
      var log, log', first := n.logs[k], n'.logs[k], FirstAt(refs, c);
      && log'.interval == log.interval
      && (if b > log.interval && TripleAt(refs, b).Some? then b in log'.entries && log'.entries[b] == TripleAt(refs, b).value
          else b in log'.entries <==> b in log.entries)
      && (b in log'.entries && TripleAt(refs, b).None? ==> log'.entries[b] == log.entries[b])
      && (log'.topmost >= log.topmost && (TripleAt(refs, b).Some? ==> b <= log'.topmost))
      && (q in At(n'.m.holders, c) <==> q in At(n.m.holders, c) || (q == k.0 && first.Some?))
      && (c in n'.binOf <==> c in n.binOf || first.Some?) && n'.Depth(c) == (if first.Some? then k.1 else n.Depth(c))
      && n'.m.PrioOf(c) == (if first.Some? then k.1 else n.m.PrioOf(c))
      && (c in n'.m.arrived <==> c in n.m.arrived || (first.Some? && !n.m.Settled(c)))
      && (c in n'.m.live <==>
            c in n.m.live || (first.Some? && c !in n.m.arrived && !n.m.Settled(c) && first.value > n.Cursor(k)))
      && RefsFrame(n, n', k)
    decreases |refs|
  {
    if refs != [] {
      var front, r := refs[..|refs| - 1], refs[|refs| - 1];
      RefsEnter(n, k, front, b, c, q);
      RefEnters(TakeRefs(n, k, front), k, r, b, c, q);
      RefArrives(TakeRefs(n, k, front), k, r, c, q);
    }
  }

  predicate RefsFrame(n: Node, n': Node, k: Key)
    requires k in n.logs && k in n'.logs
  {
    && n'.logs == n.logs[k := n'.logs[k]] && n'.logs[k].interval == n.logs[k].interval
    && n' == n.(logs := n'.logs, binOf := n'.binOf, m := n.m.(holders := n'.m.holders, prio := n'.m.prio,
                                                              arrived := n'.m.arrived, live := n'.m.live))
  }

  lemma RefEnters(n: Node, k: Key, r: (BinId, Triple), b: BinId, c: Triple, q: PeerId)
    requires k in n.logs
    ensures var n' := TakeRef(n, k, r);
      var log, log', named := n.logs[k], n'.logs[k], r.1 == c;
      && (if b > log.interval && r.0 == b then b in log'.entries && log'.entries[b] == r.1
          else (b in log'.entries <==> b in log.entries) && (b in log.entries ==> log'.entries[b] == log.entries[b]))
      && log'.topmost == Max(log.topmost, r.0)
      && (c in n'.binOf <==> c in n.binOf || named) && n'.Depth(c) == (if named then k.1 else n.Depth(c))
      && RefsFrame(n, n', k)
  {
  }

  lemma RefArrives(n: Node, k: Key, r: (BinId, Triple), c: Triple, q: PeerId)
    requires k in n.logs
    ensures var m, m', named := n.m, TakeRef(n, k, r).m, r.1 == c;
      && (q in At(m'.holders, c) <==> q in At(m.holders, c) || (q == k.0 && named))
      && m'.PrioOf(c) == (if named then k.1 else m.PrioOf(c))
      && (c in m'.arrived <==> c in m.arrived || (named && !m.Settled(c)))
      && (c in m'.live <==> c in m.live || (named && c !in m.arrived && !m.Settled(c) && r.0 > n.Cursor(k)))
  {
    var m1 := n.m.ObserveHolder(r.1, k.0).SetPrio(r.1, k.1);
    ObserveIs(n.m, r.1, k.0, c, q);
    ArriveIs(m1, r.1, c);
  }

  // --- a fetch comes back -----------------------------------------------------------------------------

  /** What an answer says of `c`, if it names each triple once. */
  predicate Says(os: seq<(Triple, Outcome)>, c: Triple, o: Outcome) {
    (c, o) in os
  }

  predicate NamedOnce(os: seq<(Triple, Outcome)>) {
    forall i, j :: 0 <= i < j < |os| ==> os[i].0 != os[j].0
  }

  /** Delivered under a lease is stored and counted; rejected is settled unless stored, and leaves
      the working set; missed under a lease is released, and its peer barred for it. Nothing else
      is, and no other peer's lease goes except on a rejected id. */
  lemma {:induction false} OutcomesAre(m: State, p: PeerId, os: seq<(Triple, Outcome)>, c: Triple, q: PeerId)
    requires NamedOnce(os) && m.cfg.failover && m.cfg.exclude
    ensures var m' := TakeOutcomes(m, p, os);
      var stored := Says(os, c, Delivered) && p in At(m.want, c);
      var rejected := Says(os, c, Rejected) && !m.Settled(c);
      var released := q == p && (Says(os, c, Delivered) || Says(os, c, Missed));
      && (c in m'.got <==> c in m.got || stored)
      && (c in m'.rejected <==> c in m.rejected || rejected)
      && (q in At(m'.want, c) <==> q in At(m.want, c) && !rejected && !released)
      && (q in At(m'.excluded, c) <==> q in At(m.excluded, c) || (q == p && Says(os, c, Missed) && p in At(m.want, c)))
      && (c in m'.arrived <==> c in m.arrived && !rejected) && (c in m'.live <==> c in m.live && !rejected)
      && m' == m.(got := m'.got, rejected := m'.rejected, want := m'.want, excluded := m'.excluded,
                  arrived := m'.arrived, live := m'.live, ndeliv := m'.ndeliv, conflict := m'.conflict)
    decreases |os|
  {
    if os != [] {
      var front, o := os[..|os| - 1], os[|os| - 1];
      assert forall x :: x in os <==> x in front || x == o;
      OutcomesAre(m, p, front, c, q);
      OutcomeIs(TakeOutcomes(m, p, front), p, o, c, q);
      if o.0 == c {
        OutcomesAre(m, p, front, c, p);
        forall x | x in front ensures x.0 != c {
          var i :| 0 <= i < |front| && front[i] == x;
          assert os[i] == x;
        }
      }
    }
  }

  lemma OutcomeIs(m: State, p: PeerId, o: (Triple, Outcome), c: Triple, q: PeerId)
    requires m.cfg.failover && m.cfg.exclude
    ensures var m' := TakeOutcome(m, p, o);
      var held, rejected := p in At(m.want, c), o == (c, Rejected) && !m.Settled(c);
      var released := q == p && (o == (c, Delivered) || o == (c, Missed));
      && (c in m'.got <==> c in m.got || (o == (c, Delivered) && held))
      && (c in m'.rejected <==> c in m.rejected || rejected)
      && (q in At(m'.want, c) <==> q in At(m.want, c) && !rejected && !released)
      && (q in At(m'.excluded, c) <==> q in At(m.excluded, c) || (q == p && o == (c, Missed) && held))
      && (c in m'.arrived <==> c in m.arrived && !rejected) && (c in m'.live <==> c in m.live && !rejected)
      && m' == m.(got := m'.got, rejected := m'.rejected, want := m'.want, excluded := m'.excluded,
                  arrived := m'.arrived, live := m'.live, ndeliv := m'.ndeliv, conflict := m'.conflict)
  {
    match o.1 {
      case Delivered => DeliverIs(m, o.0, p, c, q);
      case Rejected => RejectIs(m, o.0, c, q);
      case Missed => StallIs(m, o.0, p, c, q);
    }
  }

  /** Whatever else an answer says, once it has rejected an id the id is settled. */
  lemma {:induction false} RejectedIsSettled(m: State, p: PeerId, os: seq<(Triple, Outcome)>, c: Triple)
    requires Says(os, c, Rejected)
    ensures TakeOutcomes(m, p, os).Settled(c)
    decreases |os|
  {
    var front := os[..|os| - 1];
    if os[|os| - 1] != (c, Rejected) {
      assert os == front + [os[|os| - 1]];
      RejectedIsSettled(m, p, front, c);
    }
  }
}
