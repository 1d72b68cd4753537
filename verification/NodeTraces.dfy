/** Reading one channel's story out of a node's effects (crates/node/src/lib.rs). */
module NodeTraces {
  import opened Types
  import opened Machine
  import opened MachineSafety
  import opened Settlement
  import opened NodeModel
  import opened NodeWork
  import opened NodeRuns

  /** What to read off a channel: where it announced itself settled, or where it asked to be
      offered from. */
  datatype Reading = Settlings | Asks

  function Read(w: Reading, k: Key, e: Effect): Option<BinId> {
    match e
    case Settled(p, bin, upto) => if w.Settlings? && (p, bin) == k then Some(upto) else None
    case Offer(p, bin, start) => if w.Asks? && (p, bin) == k then Some(start) else None
    case _ => None
  }

  function ReadOne(w: Reading, k: Key, e: Effect): seq<BinId> {
    if Read(w, k, e).Some? then [Read(w, k, e).value] else []
  }

  function ReadAll(w: Reading, k: Key, fx: seq<Effect>): seq<BinId> {
    if fx == [] then [] else ReadAll(w, k, fx[..|fx| - 1]) + ReadOne(w, k, fx[|fx| - 1])
  }

  function Uptos(fx: seq<Effect>, k: Key): seq<BinId> {
    ReadAll(Settlings, k, fx)
  }

  function Starts(fx: seq<Effect>, k: Key): seq<BinId> {
    ReadAll(Asks, k, fx)
  }

  lemma {:induction false} ReadConcat(w: Reading, k: Key, a: seq<Effect>, b: seq<Effect>)
    ensures ReadAll(w, k, a + b) == ReadAll(w, k, a) + ReadAll(w, k, b)
    decreases |b|
  {
    if b == [] {
      assert a + b == a;
    } else {
      assert (a + b)[..|a + b| - 1] == a + b[..|b| - 1];
      ReadConcat(w, k, a, b[..|b| - 1]);
    }
  }

  lemma ReadSingle(w: Reading, k: Key, e: Effect)
    ensures ReadAll(w, k, [e]) == ReadOne(w, k, e)
  {
    assert [e][..0] == [];
  }

  lemma ReadMaybe(w: Reading, k: Key, c: bool, d: Effect, c': bool, d': Effect)
    ensures ReadAll(w, k, (if c then [d] else []) + if c' then [d'] else []) ==
      (if c then ReadOne(w, k, d) else []) + if c' then ReadOne(w, k, d') else []
  {
    ReadSingle(w, k, d);
    ReadSingle(w, k, d');
    ReadConcat(w, k, if c then [d] else [], if c' then [d'] else []);
  }

  lemma KeyEffectsRead(w: Reading, n: Node, l: Key, k: Key)
    requires n.LogsValid() && l in n.logs
    ensures ReadAll(w, k, KeyEffects(n, l)) ==
      (if Advanced(n, l).interval > n.logs[l].interval then ReadOne(w, k, Settled(l.0, l.1, Advanced(n, l).interval)) else [])
      + if Reoffers(n, l) then ReadOne(w, k, Offer(l.0, l.1, Advanced(n, l).Next())) else []
  {
    var log := Advanced(n, l);
    ReadMaybe(w, k, log.interval > n.logs[l].interval, Settled(l.0, l.1, log.interval),
              Reoffers(n, l), Offer(l.0, l.1, log.Next()));
  }

  lemma OtherChannelsSilent(w: Reading, n: Node, l: Key, k: Key)
    requires n.LogsValid() && l in n.logs && l != k
    ensures ReadAll(w, k, KeyEffects(n, l)) == []
  {
    KeyEffectsRead(w, n, l, k);
    assert (l.0, l.1) != k;
  }

  lemma OwnChannelReads(n: Node, k: Key)
    requires n.LogsValid() && k in n.logs
    ensures Uptos(KeyEffects(n, k), k) ==
      if Advanced(n, k).interval > n.logs[k].interval then [Advanced(n, k).interval] else []
    ensures Starts(KeyEffects(n, k), k) == if Reoffers(n, k) then [Advanced(n, k).Next()] else []
  {
    KeyEffectsRead(Settlings, n, k, k);
    KeyEffectsRead(Asks, n, k, k);
    assert (k.0, k.1) == k;
  }

  lemma {:induction false} SettleEffectsRead(w: Reading, n: Node, keys: seq<Key>, k: Key)
    requires n.LogsValid() && (forall l :: l in keys ==> l in n.logs) && Distinct(keys)
    ensures ReadAll(w, k, SettleEffects(n, keys)) == if k in keys then ReadAll(w, k, KeyEffects(n, k)) else []
    decreases |keys|
  {
    if keys != [] {
      var front, l := keys[..|keys| - 1], keys[|keys| - 1];
      SettleEffectsRead(w, n, front, k);
      assert l !in front && (k in keys <==> k in front || k == l);
      ReadConcat(w, k, SettleEffects(n, front), KeyEffects(n, l));
      if l != k { OtherChannelsSilent(w, n, l, k); }
    }
  }

  lemma {:induction false} FetchEffectsRead(w: Reading, b: Batches, keys: seq<Key>, k: Key)
    requires forall l :: l in keys ==> l in b
    ensures ReadAll(w, k, FetchEffects(b, keys)) == []
    decreases |keys|
  {
    if keys != [] {
      var front, l := keys[..|keys| - 1], keys[|keys| - 1];
      FetchEffectsRead(w, b, front, k);
      ReadConcat(w, k, FetchEffects(b, front), [Fetch(l.0, l.1, b[l])]);
      ReadSingle(w, k, Fetch(l.0, l.1, b[l]));
    }
  }

  /** What a tick sends about one channel. */
  function TickOne(n: Node, l: Key): seq<Effect>
    requires l in n.logs
  {
    if TickOffers(n, l) then [Offer(l.0, l.1, n.logs[l].Next())] else []
  }

  lemma TickOneReads(w: Reading, n: Node, l: Key, k: Key)
    requires l in n.logs
    ensures ReadAll(w, k, TickOne(n, l)) ==
      if l == k && TickOffers(n, k) then ReadOne(w, k, Offer(k.0, k.1, n.logs[k].Next())) else []
  {
    if TickOffers(n, l) { ReadSingle(w, k, Offer(l.0, l.1, n.logs[l].Next())); }
  }

  lemma {:induction false} TickEffectsRead(w: Reading, n: Node, keys: seq<Key>, k: Key)
    requires (forall l :: l in keys ==> l in n.logs) && Distinct(keys)
    ensures ReadAll(w, k, TickEffects(n, keys)) ==
      if k in keys && TickOffers(n, k) then ReadOne(w, k, Offer(k.0, k.1, n.logs[k].Next())) else []
    decreases |keys|
  {
    if keys != [] {
      var front, l := keys[..|keys| - 1], keys[|keys| - 1];
      TickEffectsRead(w, n, front, k);
      assert l !in front && (k in keys <==> k in front || k == l);
      TickOneReads(w, n, l, k);
      ReadConcat(w, k, TickEffects(n, front), TickOne(n, l));
    }
  }

  /** How often a cursors answer names channel `k`. */
  function Cursorings(n: Node, k: Key, peer: PeerId, cs: seq<(Bin, BinId)>): nat {
    if cs == [] then 0
    else
      Cursorings(n, k, peer, cs[..|cs| - 1]) + if (peer, cs[|cs| - 1].0) == k && k.1 >= n.radius then 1 else 0
  }

  /** A cursors answer leaves the logs as they are, and opens the channels it names. */
  lemma {:induction false} TakeCursorsFrame(n: Node, peer: PeerId, cs: seq<(Bin, BinId)>, k: Key)
    ensures var n' := TakeCursors(n, peer, cs).0;
      && n'.LogAt(k) == n.LogAt(k) && (k in n.logs ==> k in n'.logs)
      && n'.m == n.m && n'.peers == n.peers && n'.radius == n.radius
      && (k in n'.offerOpen <==> k in n.offerOpen || Cursorings(n, k, peer, cs) > 0)
    decreases |cs|
  {
    if cs != [] {
      TakeCursorsFrame(n, peer, cs[..|cs| - 1], k);
    }
  }

  /** It asks for the channel only if that was closed, and then once. */
  lemma {:induction false} TakeCursorsRead(w: Reading, n: Node, peer: PeerId, cs: seq<(Bin, BinId)>, k: Key)
    ensures var (n', fx) := TakeCursors(n, peer, cs);
      ReadAll(w, k, fx) ==
        if k in n'.offerOpen && k !in n.offerOpen then ReadOne(w, k, Offer(k.0, k.1, n.LogAt(k).Next())) else []
    decreases |cs|
  {
    if cs != [] {
      var front, cur := cs[..|cs| - 1], cs[|cs| - 1];
      TakeCursorsRead(w, n, peer, front, k);
      TakeCursorsFrame(n, peer, front, k);
      var (n1, fx1) := TakeCursors(n, peer, front);
      var (n2, fx2) := TakeCursor(n1, peer, cur);
      ReadConcat(w, k, fx1, fx2);
      ReadSingle(w, k, Offer(peer, cur.0, n1.LogAt((peer, cur.0)).Next()));
    }
  }

  /** Scheduling touches only leases and assignment counts. */
  lemma RoundFrame(n: Node)
    requires NodeInv(n)
    ensures var n' := Round(n).0;
      && n'.logs == SettlePass(n).logs && n'.offerOpen == SettlePass(n).offerOpen
      && n'.peers == n.peers && n'.radius == n.radius
      && n'.m.got == n.m.got && n'.m.rejected == n.m.rejected
  {
    RoundLeasesArePartitioned(n);
  }

  /** A round's effects on channel `k` are those of settling it. */
  lemma RoundEffectsRead(w: Reading, n: Node, k: Key)
    requires NodeInv(n)
    ensures ReadAll(w, k, Round(n).1) == if k in n.logs then ReadAll(w, k, KeyEffects(n, k)) else []
  {
    var keys, b := Sorted(n.logs.Keys), RoundBatches(n);
    SortedLists(n.logs.Keys);
    SortedLists(b.Keys);
    SettleEffectsRead(w, n, keys, k);
    FetchEffectsRead(w, b, Sorted(b.Keys), k);
    ReadConcat(w, k, SettleEffects(n, keys), FetchEffects(b, Sorted(b.Keys)));
  }

  /** What a round says about channel `k`, and what it does to its log. */
  lemma RoundReads(n: Node, k: Key)
    requires NodeInv(n)
    ensures var (n', fx) := Round(n);
      && Uptos(fx, k) == (if n'.LogAt(k).interval > n.LogAt(k).interval then [n'.LogAt(k).interval] else [])
      && Starts(fx, k) == (if Reoffers(n, k) then [n'.LogAt(k).Next()] else [])
      && n'.LogAt(k) == (if k in n.logs then Advanced(n, k) else EMPTY)
      && (k in n'.offerOpen <==> k in n.offerOpen || Reoffers(n, k))
  {
    RoundFrame(n);
    RoundEffectsRead(Settlings, n, k);
    RoundEffectsRead(Asks, n, k);
    if k in n.logs {
      OwnChannelReads(n, k);
    }
  }
}
