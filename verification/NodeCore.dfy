/** The node object (crates/node/src/lib.rs, crates/node/src/discovery.rs): the event arms and
    the round, loop by loop, proved to compute the functions of NodeModel. */
module NodeCore {
  import opened Types
  import opened Machine
  import opened Settlement
  import opened NodeModel

  /** The open-offer discipline: at most one offer in flight per channel. */
  class Discovery {
    var offerOpen: set<Key>

    constructor ()
      ensures offerOpen == {}
    {
      offerOpen := {};
    }

    constructor FromSet(open: set<Key>)
      ensures offerOpen == open
    {
      offerOpen := open;
    }

    method TryOpen(k: Key) returns (isNew: bool)
      modifies this
      ensures offerOpen == old(offerOpen) + {k}
      ensures isNew <==> k !in old(offerOpen)
    {
      isNew := k !in offerOpen;
      offerOpen := offerOpen + {k};
    }

    method Close(k: Key)
      modifies this
      ensures offerOpen == old(offerOpen) - {k}
    {
      offerOpen := offerOpen - {k};
    }

    method ForgetPeer(p: PeerId)
      modifies this
      ensures offerOpen == set k | k in old(offerOpen) && k.0 != p
    {
      offerOpen := set k | k in offerOpen && k.0 != p;
    }
  }

  method FirstKey(s: set<Key>) returns (k: Key)
    requires s != {}
    ensures k == FirstOf(s)
  {
    k := Pick(s);
    var rest := s - {k};
    while rest != {}
      invariant rest <= s && k in s
      invariant forall x :: x in s ==> x in rest || x == k || KeyLess(k, x)
    {
      var x := Pick(rest);
      if KeyLess(x, k) { k := x; }
      rest := rest - {x};
    }
    assert IsFirst(s, k);
    assert IsFirst(s, FirstOf(s));
  }

  /** The keys in iteration order. */
  method SortKeys(s: set<Key>) returns (keys: seq<Key>)
    ensures keys == Sorted(s)
  {
    keys := [];
    var rest := s;
    while rest != {}
      invariant keys + Sorted(rest) == Sorted(s)
      decreases rest
    {
      var k := FirstKey(rest);
      assert keys + Sorted(rest) == (keys + [k]) + Sorted(rest - {k});
      keys := keys + [k];
      rest := rest - {k};
    }
    assert keys + Sorted({}) == keys;
  }

  class Node {
    const m: PullState
    const disc: Discovery
    const policy: Policy
    const radius: Bin
    var peers: set<PeerId>
    var cursors: map<Key, BinId>
    var logs: map<Key, Log>
    var binOf: map<Triple, Bin>
    var assignments: map<PeerId, nat>

    function View(): NodeModel.Node
      reads this, m, disc
    {
      NodeModel.Node(m.View(), policy, radius, peers, cursors, logs, binOf, assignments, disc.offerOpen)
    }

    constructor (cfg: Config, radius: Bin, policy: Policy)
      ensures View() == New(cfg, radius, policy)
      ensures fresh(m) && fresh(disc)
    {
      m := new PullState(cfg);
      disc := new Discovery();
      this.policy, this.radius := policy, radius;
      peers, cursors, logs, binOf, assignments := {}, map[], map[], map[], map[];
    }

    constructor FromView(n: NodeModel.Node)
      ensures View() == n
      ensures fresh(m) && fresh(disc)
    {
      m := new PullState.FromState(n.m);
      disc := new Discovery.FromSet(n.offerOpen);
      policy, radius := n.policy, n.radius;
      peers, cursors, logs, binOf, assignments := n.peers, n.cursors, n.logs, n.binOf, n.assignments;
    }

    method Preload(c: Triple) returns (ok: bool)
      modifies m
      ensures View() == old(View()).(m := old(m.View()).Preload(c))
    {
      ok := m.Preload(c);
    }

    // --- the round's passes -------------------------------------------------------------------

    /** Settle one channel, and keep one offer open on it if it is drained. */
    method SettleKey(k: Key) returns (fx: seq<Effect>)
      requires View().LogsValid() && k in logs
      modifies this`logs, disc
      ensures (View(), fx) == SettleOne(old(View()), k)
    {
      ghost var n0 := View();
      AdvanceTakesLargestPrefix(logs[k], SettledBy(m.View()));
      var log := new PeerBinLog.FromLog(logs[k]);
      var upto := log.Advance(SettledBy(m.View()));
      logs := logs[k := log.View()];
      fx := [];
      if upto.Some? {
        fx := [Settled(k.0, k.1, upto.value)];
      }
      if log.interval + 1 > log.topmost && k.0 in peers {
        var isNew := disc.TryOpen(k);
        if isNew {
          fx := fx + [Offer(k.0, k.1, log.interval + 1)];
        } else {
          assert disc.offerOpen == old(disc.offerOpen);
        }
      }
      assert fx == KeyEffects(n0, k);
      assert disc.offerOpen == SettleOne(n0, k).0.offerOpen;
      assert logs == SettleOne(n0, k).0.logs;
    }

    method SettleKeys(keys: seq<Key>) returns (fx: seq<Effect>)
      requires View().LogsValid() && forall k :: k in keys ==> k in logs
      modifies this`logs, disc
      ensures (View(), fx) == SettleSeq(old(View()), keys)
    {
      ghost var n0 := View();
      fx := [];
      for i := 0 to |keys|
        invariant (View(), fx) == SettleSeq(n0, keys[..i])
      {
        assert keys[..i + 1][..i] == keys[..i];
        var more := SettleKey(keys[i]);
        fx := fx + more;
      }
      assert keys[..|keys|] == keys;
    }

    /** 1. Settle before you forget, log by log. */
    method Settle() returns (fx: seq<Effect>)
      requires View().LogsValid()
      modifies this`logs, disc
      ensures View() == SettlePass(old(View()))
      ensures forall k :: k in Sorted(old(logs).Keys) ==> k in old(logs)
      ensures fx == SettleEffects(old(View()), Sorted(old(logs).Keys))
    {
      SettleSeqIsPass(View());
      var keys := SortKeys(logs.Keys);
      fx := SettleKeys(keys);
    }

    /** 2. Forget what is settled and has left every window. */
    method PruneDone()
      modifies this`binOf, m
      ensures View() == Prune(old(View()))
    {
      ghost var n0 := View();
      var windowed := set k, b | k in logs && b in logs[k].entries :: logs[k].entries[b];
      var done := set c | c in binOf && (c in m.got || c in m.rejected) && c !in windowed;
      ghost var all := done;
      assert all == Done(n0) by {
        assert windowed == Windowed(n0);
        assert forall c :: c in all <==> c in Done(n0);
      }
      while done != {}
        invariant done <= all
        invariant binOf == n0.binOf - (all - done)
        invariant m.View() == ForgetAll(n0.m, all - done)
      {
        var c := Pick(done);
        ForgetOneMore(n0.m, all - done, c);
        var ok := m.Forget(c);
        binOf := binOf - {c};
        assert all - (done - {c}) == (all - done) + {c};
        done := done - {c};
      }
      assert all - {} == all;
    }

    /** 3. Clear the bars that cover every holder. */
    method ResetBars()
      modifies m
      ensures View() == ResetPass(old(View()))
    {
      ghost var m0 := m.View();
      var candidates := binOf.Keys;
      ghost var all := candidates;
      ResetNone(m0);
      while candidates != {}
        invariant candidates <= all
        invariant m.View() == ResetAll(m0, all - candidates)
      {
        var c := Pick(candidates);
        ResetOneMore(m0, all - candidates, c);
        var ok := m.ResetExcluded(c);
        assert all - (candidates - {c}) == (all - candidates) + {c};
        candidates := candidates - {c};
      }
      assert all - {} == all;
    }

    method ChooseTriple(enabled: set<(Triple, PeerId)>) returns (c: Triple)
      requires enabled != {}
      ensures exists e :: e in enabled && e.0 == c
      ensures forall f :: f in enabled ==> Sooner(View(), c, f.0)
    {
      var n := View();
      var e := Pick(enabled);
      var rest := enabled - {e};
      while rest != {}
        invariant rest <= enabled && e in enabled
        invariant forall f :: f in enabled ==> f in rest || Sooner(n, e.0, f.0)
      {
        var f := Pick(rest);
        if !Sooner(n, e.0, f.0) { e := f; }
        rest := rest - {f};
      }
      c := e.0;
    }

    method ChoosePeer(enabled: set<(Triple, PeerId)>, c: Triple) returns (p: PeerId)
      requires exists e :: e in enabled && e.0 == c
      ensures (c, p) in enabled
      ensures forall f :: f in enabled && f.0 == c ==> Lighter(View(), p, f.1)
    {
      var n := View();
      var mine := set e | e in enabled && e.0 == c;
      assert mine != {} by {
        var w :| w in enabled && w.0 == c;
        assert w in mine;
      }
      var e := Pick(mine);
      var rest := mine - {e};
      while rest != {}
        invariant rest <= mine && e in mine
        invariant forall f :: f in mine ==> f in rest || Lighter(n, e.1, f.1)
      {
        var f := Pick(rest);
        if !Lighter(n, e.1, f.1) { e := f; }
        rest := rest - {f};
      }
      p := e.1;
    }

    /** The policy's next lease, or nothing when no want is open. */
    method Choose(batches: Batches, committed: map<Key, nat>) returns (e: Option<(Triple, PeerId)>)
      requires Mirrors(committed, batches)
      ensures e.None? <==> Open(View(), batches) == {}
      ensures e.Some? ==> e.value == Choice(View(), Open(View(), batches))
    {
      var wants := m.EnabledWants();
      var n := View();
      var enabled := set e | e in wants && Count(committed, (e.1, n.Depth(e.0))) < policy.window;
      assert enabled == Open(n, batches);
      if enabled == {} {
        return None;
      }
      var c := ChooseTriple(enabled);
      var p := ChoosePeer(enabled, c);
      ChoiceUnique(n, enabled, (c, p), Choice(n, enabled));
      e := Some((c, p));
    }

    /** 4. Resolve the machine's nondeterminism by policy, one lease at a time. */
    method ScheduleAll() returns (batches: Batches)
      modifies this`assignments, m
      ensures (View(), batches) == Schedule(old(View()), map[])
    {
      ghost var n0 := View();
      batches := map[];
      var committed: map<Key, nat> := map[];
      while true
        invariant Schedule(View(), batches) == Schedule(n0, map[])
        invariant Mirrors(committed, batches)
        decreases |Unclaimed(m.View())|
      {
        var e := Choose(batches, committed);
        if e.None? {
          break;
        }
        ScheduleUnfolds(View(), batches);
        batches, committed := Lease(e.value, batches, committed);
      }
    }

    /** Lease one chosen want and book it. */
    method Lease(e: (Triple, PeerId), batches0: Batches, committed0: map<Key, nat>)
        returns (batches: Batches, committed: map<Key, nat>)
      requires Mirrors(committed0, batches0) && m.View().Claimable(e.0, e.1)
      modifies this`assignments, m
      ensures View() == Commit(old(View()), e)
      ensures batches == AddToBatch(old(View()), batches0, e) && Mirrors(committed, batches)
    {
      var (c, p) := e;
      var k := (p, if c in binOf then binOf[c] else 0);
      MirrorsOneMore(committed0, batches0, k, c);
      var ok := m.Want(c, p);
      assignments := assignments[p := (if p in assignments then assignments[p] else 0) + 1];
      committed := committed0[k := Count(committed0, k) + 1];
      batches := batches0[k := (if k in batches0 then batches0[k] else []) + [c]];
    }

    method EmitBatches(batches: Batches) returns (fx: seq<Effect>)
      ensures forall k :: k in Sorted(batches.Keys) ==> k in batches
      ensures fx == FetchEffects(batches, Sorted(batches.Keys))
    {
      var keys := SortKeys(batches.Keys);
      SortedLists(batches.Keys);
      fx := [];
      for i := 0 to |keys|
        invariant fx == FetchEffects(batches, keys[..i])
      {
        var k := keys[i];
        assert keys[..i + 1][..i] == keys[..i];
        fx := fx + [Fetch(k.0, k.1, batches[k])];
      }
      assert keys[..|keys|] == keys;
    }

    /** One settle-prune-reset-schedule pass. */
    method RunRound() returns (fx: seq<Effect>)
      requires View().LogsValid()
      modifies this`logs, this`binOf, this`assignments, m, disc
      ensures (View(), fx) == Round(old(View()))
    {
      fx := Settle();
      PruneDone();
      ResetBars();
      var batches := ScheduleAll();
      var fetches := EmitBatches(batches);
      fx := fx + fetches;
    }

    // --- the event arms -----------------------------------------------------------------------

    method SeePeer(p: PeerId) returns (fx: seq<Effect>)
      modifies this`peers
      ensures View() == Ingest(old(View()), PeerSeen(p))
      ensures fx == if p in old(peers) then [] else [GetCursors(p)]
    {
      fx := if p in peers then [] else [GetCursors(p)];
      peers := peers + {p};
    }

    method LoseEach(cs: set<Triple>, p: PeerId)
      modifies m
      ensures m.View() == LoseAll(old(m.View()), cs, p)
    {
      ghost var m0 := m.View();
      var todo := cs;
      LoseNone(m0, p);
      while todo != {}
        invariant todo <= cs
        invariant m.View() == LoseAll(m0, cs - todo, p)
      {
        var c := Pick(todo);
        LoseOneMore(m0, cs - todo, c, p);
        var held := m.LoseHolder(c, p);
        assert cs - (todo - {c}) == (cs - todo) + {c};
        todo := todo - {c};
      }
      assert cs - {} == cs;
    }

    /** Churn-out, not misbehaviour: release claims and holdings, with no bars. */
    method PeerLeaves(p: PeerId)
      modifies this`peers, this`logs, this`cursors, m, disc
      ensures View() == Depart(old(View()), p)
    {
      peers := peers - {p};
      LoseEach(RowsOf(m.holders, p), p);
      LoseEach(RowsOf(m.want, p), p);
      logs := map k | k in logs && k.0 != p :: logs[k];
      cursors := map k | k in cursors && k.0 != p :: cursors[k];
      disc.ForgetPeer(p);
    }

    method TakeOneCursor(peer: PeerId, cur: (Bin, BinId)) returns (fx: seq<Effect>)
      modifies this`cursors, this`logs, disc
      ensures (View(), fx) == TakeCursor(old(View()), peer, cur)
    {
      var (bin, head) := cur;
      var k := (peer, bin);
      fx := [];
      if bin < radius {
        return;
      }
      cursors := cursors[k := head];
      if k !in logs {
        logs := logs[k := EMPTY];
      }
      assert logs == old(logs)[k := old(View()).LogAt(k)];
      var isNew := disc.TryOpen(k);
      if isNew {
        fx := [Offer(peer, bin, logs[k].Next())];
      }
    }

    method TakeAllCursors(peer: PeerId, cs: seq<(Bin, BinId)>) returns (fx: seq<Effect>)
      modifies this`cursors, this`logs, disc
      ensures (View(), fx) == TakeCursors(old(View()), peer, cs)
    {
      ghost var n0 := View();
      fx := [];
      for i := 0 to |cs|
        invariant (View(), fx) == TakeCursors(n0, peer, cs[..i])
      {
        assert cs[..i + 1][..i] == cs[..i];
        var more := TakeOneCursor(peer, cs[i]);
        fx := fx + more;
      }
      assert cs[..|cs|] == cs;
    }

    /** Churn-out: forget the entries `lost`, and drop the peer as a holder of each. */
    method DropEntries(log0: Log, lost: set<BinId>, p: PeerId) returns (kept: Log)
      requires log0.Valid() && lost <= log0.entries.Keys
      modifies m
      ensures m.View() == LoseAll(old(m.View()), TriplesAt(log0, lost), p)
      ensures kept == log0.(entries := log0.entries - lost)
    {
      var log := new PeerBinLog.FromLog(log0);
      ghost var m0 := m.View();
      var todo := lost;
      LoseNone(m0, p);
      assert TriplesAt(log0, {}) == {} && log0.entries - {} == log0.entries;
      while todo != {}
        invariant todo <= lost && log.View().Valid()
        invariant log.View() == log0.(entries := log0.entries - (lost - todo))
        invariant m.View() == LoseAll(m0, TriplesAt(log0, lost - todo), p)
      {
        var b := Pick(todo);
        ghost var gone := lost - todo;
        assert lost - (todo - {b}) == gone + {b};
        DropOneMore(log0, gone, b);
        LoseOneMore(m0, TriplesAt(log0, gone), log0.entries[b], p);
        var entry := log.ForgetEntry(b);
        var held := m.LoseHolder(entry.value, p);
        todo := todo - {b};
      }
      assert lost - {} == lost;
      kept := log.View();
    }

    /** Close the offer, extend the coverage, and drop the entries it no longer names. */
    method OpenAnswer(k: Key, start: BinId, refs: seq<(BinId, Triple)>, topmost: BinId)
      requires View().LogsValid()
      modifies this`logs, m, disc
      ensures View() == TakeOffer(old(View()), k, start, refs, topmost)
    {
      disc.Close(k);
      var log := new PeerBinLog.FromLog(if k in logs then logs[k] else EMPTY);
      log.Cover(Max(topmost, start));
      assert log.View() == old(View()).LogAt(k).Cover(Max(topmost, start));
      var kept := DropEntries(log.View(), Lost(log.View(), start, refs, topmost), k.0);
      logs := logs[k := kept];
    }

    method TakeOneRef(k: Key, r: (BinId, Triple))
      requires k in logs && logs[k].Valid()
      modifies this`logs, this`binOf, m
      ensures View() == TakeRef(old(View()), k, r)
    {
      var (b, c) := r;
      var log := new PeerBinLog.FromLog(logs[k]);
      log.Observe(b, c);
      logs := logs[k := log.View()];
      var added := m.ObserveHolder(c, k.0);
      binOf := binOf[c := k.1];
      m.SetPrio(c, k.1);
      var fresh' := false;
      if b > (if k in cursors then cursors[k] else 0) {
        fresh' := m.ArriveLive(c);
      } else {
        fresh' := m.ArriveHist(c);
      }
    }

    method TakeAllRefs(k: Key, refs: seq<(BinId, Triple)>)
      requires View().LogsValid() && k in logs
      modifies this`logs, this`binOf, m
      ensures View() == TakeRefs(old(View()), k, refs)
    {
      ghost var n0 := View();
      for i := 0 to |refs|
        invariant View() == TakeRefs(n0, k, refs[..i])
      {
        TakeRefsKeepsLogsValid(n0, k, refs[..i]);
        assert refs[..i + 1][..i] == refs[..i];
        TakeOneRef(k, refs[i]);
      }
      assert refs[..|refs|] == refs;
    }

    method TakeAllOutcomes(peer: PeerId, os: seq<(Triple, Outcome)>)
      modifies m
      ensures m.View() == TakeOutcomes(old(m.View()), peer, os)
    {
      ghost var m0 := m.View();
      for i := 0 to |os|
        invariant m.View() == TakeOutcomes(m0, peer, os[..i])
      {
        assert os[..i + 1][..i] == os[..i];
        var (c, outcome) := os[i];
        var ok: bool;
        match outcome {
          case Delivered => ok := m.Deliver(c, peer);
          case Rejected => ok := m.Reject(c);
          case Missed => ok := m.Stall(c, peer);
        }
      }
      assert os[..|os|] == os;
    }

    method TickKey(k: Key) returns (fx: seq<Effect>)
      requires k in logs
      modifies disc
      ensures (View(), fx) == TickOne(old(View()), k)
    {
      fx := [];
      if k.0 in peers {
        var isNew := disc.TryOpen(k);
        if isNew {
          fx := [Offer(k.0, k.1, logs[k].Next())];
        } else {
          assert disc.offerOpen == old(disc.offerOpen);
        }
      }
    }

    method TickEach(keys: seq<Key>) returns (fx: seq<Effect>)
      requires forall k :: k in keys ==> k in logs
      modifies disc
      ensures (View(), fx) == TickSeq(old(View()), keys)
    {
      ghost var n0 := View();
      fx := [];
      for i := 0 to |keys|
        invariant (View(), fx) == TickSeq(n0, keys[..i])
      {
        assert keys[..i + 1][..i] == keys[..i];
        var more := TickKey(keys[i]);
        fx := fx + more;
      }
      assert keys[..|keys|] == keys;
    }

    method TickAll() returns (fx: seq<Effect>)
      modifies disc
      ensures View() == Ingest(old(View()), Tick)
      ensures forall k :: k in Sorted(old(logs).Keys) ==> k in old(logs)
      ensures fx == TickEffects(old(View()), Sorted(old(logs).Keys))
    {
      TickIsIngest(View());
      var keys := SortKeys(logs.Keys);
      fx := TickEach(keys);
    }

    /** The events that end without a round. */
    method Respond(ev: Event) returns (fx: seq<Effect>)
      requires View().LogsValid() && !EndsInRound(ev)
      modifies this, disc
      ensures (View(), fx) == NodeModel.Handle(old(View()), ev)
    {
      match ev {
        case PeerSeen(p) => fx := SeePeer(p);
        case CursorsResult(p, cs) => fx := TakeAllCursors(p, cs);
        case Tick => fx := TickAll();
      }
    }

    method AnswerOffer(p: PeerId, bin: Bin, start: BinId, refs: seq<(BinId, Triple)>, topmost: BinId)
      requires View().LogsValid()
      modifies this`logs, this`binOf, m, disc
      ensures View() == Ingest(old(View()), OfferResult(p, bin, start, refs, topmost))
    {
      OpenAnswer((p, bin), start, refs, topmost);
      TakeAllRefs((p, bin), refs);
    }

    method IngestOne(ev: Event)
      requires View().LogsValid() && EndsInRound(ev)
      modifies this, m, disc
      ensures View() == Ingest(old(View()), ev)
    {
      match ev {
        case PeerGone(p) => PeerLeaves(p);
        case OfferResult(p, bin, start, refs, topmost) => AnswerOffer(p, bin, start, refs, topmost);
        case FetchResult(p, _, os) => TakeAllOutcomes(p, os);
      }
    }

    /** The single entry point: ingest one event, return the effects. */
    method Handle(ev: Event) returns (fx: seq<Effect>)
      requires View().LogsValid()
      modifies this, m, disc
      ensures (View(), fx) == NodeModel.Handle(old(View()), ev)
    {
      IngestKeepsLogsValid(View(), ev);
      if EndsInRound(ev) {
        IngestOne(ev);
        fx := RunRound();
      } else {
        fx := Respond(ev);
      }
    }
  }

  function Count(committed: map<Key, nat>, k: Key): nat {
    if k in committed then committed[k] else 0
  }

  /** The per-channel counters are the batch sizes. */
  ghost predicate Mirrors(committed: map<Key, nat>, batches: Batches) {
    forall k :: Count(committed, k) == BatchSize(batches, k)
  }

  lemma ScheduleUnfolds(n: NodeModel.Node, b: Batches)
    requires Open(n, b) != {}
    ensures var e := Choice(n, Open(n, b));
      && n.m.Claimable(e.0, e.1)
      && Schedule(n, b) == Schedule(Commit(n, e), AddToBatch(n, b, e))
      && |Unclaimed(Commit(n, e).m)| < |Unclaimed(n.m)|
  {
    var e := Choice(n, Open(n, b));
    OpenIsClaimable(n, b, e);
    CommitClaims(n, e);
  }

  // --- the loops' accounting -------------------------------------------------------------------

  /** A channel's settlement reads only its own rows. */
  lemma SameChannel(n: NodeModel.Node, n': NodeModel.Node, k: Key)
    requires n.LogsValid() && n'.LogsValid() && k in n.logs && k in n'.logs && n'.logs[k] == n.logs[k]
    requires n'.m == n.m && n'.peers == n.peers && (k in n'.offerOpen <==> k in n.offerOpen)
    ensures Advanced(n', k) == Advanced(n, k) && Reoffers(n', k) == Reoffers(n, k) && KeyEffects(n', k) == KeyEffects(n, k)
  {
  }

  /** `n'` is `n` with the channels in `done` settled. */
  ghost predicate PassedOver(n: NodeModel.Node, n': NodeModel.Node, done: set<Key>)
    requires n.LogsValid()
  {
    && n' == n.(logs := n'.logs, offerOpen := n'.offerOpen)
    && n'.logs.Keys == n.logs.Keys
    && forall k :: PassedAt(n, n', done, k)
  }

  ghost predicate PassedAt(n: NodeModel.Node, n': NodeModel.Node, done: set<Key>, k: Key)
    requires n.LogsValid() && n'.logs.Keys == n.logs.Keys
  {
    && (k in n.logs ==> n'.logs[k] == if k in done then Advanced(n, k) else n.logs[k])
    && (k in n'.offerOpen <==> k in n.offerOpen || (k in done && Reoffers(n, k)))
  }

  lemma PassOverOne(n: NodeModel.Node, n1: NodeModel.Node, done: set<Key>, k: Key)
    requires n.LogsValid() && n1.LogsValid() && PassedOver(n, n1, done) && k in n.logs && k !in done
    ensures PassedOver(n, SettleOne(n1, k).0, done + {k})
    ensures SettleOne(n1, k).1 == KeyEffects(n, k)
  {
    assert PassedAt(n, n1, done, k);
    SameChannel(n, n1, k);
    var n2 := SettleOne(n1, k).0;
    forall l ensures PassedAt(n, n2, done + {k}, l) {
      assert PassedAt(n, n1, done, l);
    }
  }

  lemma PassedOverAll(n: NodeModel.Node, n': NodeModel.Node)
    requires n.LogsValid() && PassedOver(n, n', n.logs.Keys)
    ensures n' == SettlePass(n)
  {
    var goal := SettlePass(n);
    forall k ensures (k in n.logs ==> n'.logs[k] == goal.logs[k]) && (k in n'.offerOpen <==> k in goal.offerOpen) {
      assert PassedAt(n, n', n.logs.Keys, k);
    }
    assert n'.logs == goal.logs;
    assert n'.offerOpen == goal.offerOpen;
  }

  lemma {:induction false} SettleSeqPasses(n: NodeModel.Node, keys: seq<Key>)
    requires n.LogsValid() && (forall k :: k in keys ==> k in n.logs)
    requires forall i, j :: 0 <= i < j < |keys| ==> keys[i] != keys[j]
    ensures PassedOver(n, SettleSeq(n, keys).0, set k | k in keys)
    ensures SettleSeq(n, keys).1 == SettleEffects(n, keys)
    decreases |keys|
  {
    if keys != [] {
      var front, k := keys[..|keys| - 1], keys[|keys| - 1];
      SettleSeqPasses(n, front);
      var done := set l | l in front;
      assert k !in front && forall l :: l in keys <==> l in front || l == k;
      assert (set l | l in keys) == done + {k};
      PassOverOne(n, SettleSeq(n, front).0, done, k);
    }
  }

  /** Settling the channels one after the other is settling them all at once. */
  lemma SettleSeqIsPass(n: NodeModel.Node)
    requires n.LogsValid()
    ensures forall k :: k in Sorted(n.logs.Keys) ==> k in n.logs
    ensures SettleSeq(n, Sorted(n.logs.Keys)) == (SettlePass(n), SettleEffects(n, Sorted(n.logs.Keys)))
  {
    var keys := Sorted(n.logs.Keys);
    SortedLists(n.logs.Keys);
    SettleSeqPasses(n, keys);
    assert (set k | k in keys) == n.logs.Keys;
    PassedOverAll(n, SettleSeq(n, keys).0);
  }

  function TickOne(n: NodeModel.Node, k: Key): (NodeModel.Node, seq<Effect>)
    requires k in n.logs
  {
    if TickOffers(n, k) then (n.(offerOpen := n.offerOpen + {k}), [Offer(k.0, k.1, n.logs[k].Next())]) else (n, [])
  }

  function TickSeq(n: NodeModel.Node, keys: seq<Key>): (r: (NodeModel.Node, seq<Effect>))
    requires forall k :: k in keys ==> k in n.logs
    ensures r.0 == n.(offerOpen := r.0.offerOpen)
  {
    if keys == [] then (n, [])
    else
      var (n1, fx1) := TickSeq(n, keys[..|keys| - 1]);
      var (n2, fx2) := TickOne(n1, keys[|keys| - 1]);
      (n2, fx1 + fx2)
  }

  lemma {:induction false} TickSeqIsPass(n: NodeModel.Node, keys: seq<Key>)
    requires forall k :: k in keys ==> k in n.logs
    requires forall i, j :: 0 <= i < j < |keys| ==> keys[i] != keys[j]
    ensures forall l :: l in TickSeq(n, keys).0.offerOpen <==> l in n.offerOpen || (l in keys && TickOffers(n, l))
    ensures TickSeq(n, keys).1 == TickEffects(n, keys)
    decreases |keys|
  {
    if keys != [] {
      var front, k := keys[..|keys| - 1], keys[|keys| - 1];
      TickSeqIsPass(n, front);
      assert k !in front && forall l :: l in keys <==> l in front || l == k;
      assert TickOffers(TickSeq(n, front).0, k) == TickOffers(n, k);
    }
  }

  lemma TickIsIngest(n: NodeModel.Node)
    ensures forall k :: k in Sorted(n.logs.Keys) ==> k in n.logs
    ensures TickSeq(n, Sorted(n.logs.Keys)) == (Ingest(n, Tick), TickEffects(n, Sorted(n.logs.Keys)))
  {
    var keys := Sorted(n.logs.Keys);
    SortedLists(n.logs.Keys);
    TickSeqIsPass(n, keys);
    assert TickSeq(n, keys).0.offerOpen == Ingest(n, Tick).offerOpen;
  }

  lemma DropOneMore(log: Log, gone: set<BinId>, b: BinId)
    requires b in log.entries
    ensures TriplesAt(log, gone + {b}) == TriplesAt(log, gone) + {log.entries[b]}
    ensures log.entries - gone - {b} == log.entries - (gone + {b})
  {
  }

  lemma MirrorsOneMore(committed: map<Key, nat>, b: Batches, k: Key, c: Triple)
    requires Mirrors(committed, b)
    ensures Mirrors(committed[k := Count(committed, k) + 1], b[k := (if k in b then b[k] else []) + [c]])
  {
    var committed' := committed[k := Count(committed, k) + 1];
    var b' := b[k := (if k in b then b[k] else []) + [c]];
    assert Count(committed, k) == BatchSize(b, k);
    forall l ensures Count(committed', l) == BatchSize(b', l) {
      assert Count(committed, l) == BatchSize(b, l);
    }
  }

  lemma ForgetOneMore(m: State, cs: set<Triple>, c: Triple)
    requires m.Settled(c)
    ensures ForgetAll(m, cs).Forget(c) == ForgetAll(m, cs + {c})
  {
    assert m.arrived - cs - {c} == m.arrived - (cs + {c});
    assert m.live - cs - {c} == m.live - (cs + {c});
    assert m.holders - cs - {c} == m.holders - (cs + {c});
    assert m.excluded - cs - {c} == m.excluded - (cs + {c});
    assert m.prio - cs - {c} == m.prio - (cs + {c});
  }

  lemma LoseRowsOneMore(t: Table, cs: set<Triple>, c: Triple, p: PeerId)
    ensures SetRemove(LoseRows(t, cs, p), c, p) == LoseRows(t, cs + {c}, p)
  {
    var a, b := SetRemove(LoseRows(t, cs, p), c, p), LoseRows(t, cs + {c}, p);
    forall d ensures (d in a <==> d in b) && (d in a ==> a[d] == b[d]) {
      if d in t {
        assert t[d] - {p} - {p} == t[d] - {p};
      }
    }
    assert a == b;
  }

  lemma LoseOneMore(m: State, cs: set<Triple>, c: Triple, p: PeerId)
    ensures LoseAll(m, cs, p).LoseHolder(c, p) == LoseAll(m, cs + {c}, p)
  {
    LoseRowsOneMore(m.holders, cs, c, p);
    LoseRowsOneMore(m.want, cs, c, p);
  }

  lemma ResetNone(m: State)
    ensures ResetAll(m, {}) == m
  {
    assert m.excluded - {} == m.excluded;
  }

  lemma ResetOneMore(m: State, cs: set<Triple>, c: Triple)
    requires c !in cs
    ensures ResetAll(m, cs).ResetExcluded(c) == ResetAll(m, cs + {c})
  {
    var clear := set d | d in cs && m.CanResetExcluded(d);
    var clear' := set d | d in cs + {c} && m.CanResetExcluded(d);
    assert clear' == clear + if m.CanResetExcluded(c) then {c} else {};
    assert ResetAll(m, cs).CanResetExcluded(c) == m.CanResetExcluded(c);
    assert m.excluded - clear - {c} == m.excluded - (clear + {c});
  }
}
