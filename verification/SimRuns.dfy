/** Whole runs of the network (crates/sim/src/lib.rs): any number of nodes, any holdings, any
    set of omitting nodes, any delivery order. Quiescence means replication. */
module SimRuns {
  import opened Types
  import opened Machine
  import opened MachineSafety
  import opened Settlement
  import opened NodeModel
  import opened NodeWork
  import opened NodeRuns
  import opened SimNet
  import opened SimChannel
  import opened SimTokens
  import opened SimHandle
  import opened SimInv
  import opened SimStore

  // --- the serving side answers -----------------------------------------------------------------

  lemma {:induction false} ServeAllOk(s: Net, j: int, want: seq<Triple>, budget: nat, luck: set<nat>)
    requires 0 <= j < |s.hosts|
    ensures var os := ServeAll(s.hosts[j], want, budget, luck).0;
      Ids(os) == want && forall o :: o in os ==> ServedOk(s, j, o)
    decreases |want|
  {
    if want != [] {
      ServeAllOk(s, j, want[..|want| - 1], budget, luck);
    }
  }

  ghost function Park(s: Net, j: int, h: Held): Net
    requires 0 <= j < |s.hosts|
  {
    s.(hosts := s.hosts[j := s.hosts[j].(parked := s.hosts[j].parked + [h])])
  }

  lemma ParkGrown(s: Net, j: int, h: Held)
    requires 0 <= j < |s.hosts|
    ensures Grown(s, Park(s, j, h))
  {
    forall l | 0 <= l < |s.hosts| ensures GrownAt(s, Park(s, j, h), l) {
    }
  }

  lemma ParkParks(s: Net, j: int, h: Held)
    requires 0 <= j < |s.hosts| && ParksOk(s) && ParkOk(s, j, h)
    ensures ParksOk(Park(s, j, h))
  {
    var s' := Park(s, j, h);
    ParkGrown(s, j, h);
    forall l, g: Held | 0 <= l < |s'.hosts| && g in s'.hosts[l].parked ensures ParkOk(s', l, g) {
      assert (l == j && g == h) || g in s.hosts[l].parked;
      assert ParkOk(s, l, g);
      assert GrownAt(s, s', g.0);
      assert s'.hosts[l].BinAt(g.1) == s.hosts[l].BinAt(g.1);
    }
  }

  lemma ParkToken(s: Net, j: int, h: Held, t: Tok)
    requires 0 <= j < |s.hosts| && TokenOk(s, multiset{Off(h.0, (j, h.1))}, t)
    ensures TokenOk(Park(s, j, h), multiset{}, t)
  {
    ParkGrown(s, j, h);
    HeldSnoc(j, s.hosts[j].parked, h);
    assert 0 <= t.node < |s.hosts| ==> GrownAt(s, Park(s, j, h), t.node);
  }

  lemma ParkInv(s: Net, j: int, h: Held)
    requires 0 <= j < |s.hosts| && NetInvWith(s, multiset{Off(h.0, (j, h.1))}) && ParkOk(s, j, h)
    ensures NetInv(Park(s, j, h))
  {
    var s' := Park(s, j, h);
    ParkGrown(s, j, h);
    GrownChans(s, s');
    forall msg | msg in s'.queue ensures MsgOk(s', msg) {
      GrownMsg(s, s', msg);
    }
    ParkHosts(s, s', j);
    ParkParks(s, j, h);
    forall t ensures TokenOk(s', multiset{}, t) {
      assert TokenOk(s, multiset{Off(h.0, (j, h.1))}, t);
      ParkToken(s, j, h, t);
    }
  }

  lemma ParkHosts(s: Net, s': Net, j: int)
    requires HostsOk(s) && Grown(s, s')
    requires forall l :: 0 <= l < |s.hosts| ==> s'.hosts[l].reserve == s.hosts[l].reserve && s'.hosts[l].index == s.hosts[l].index
    ensures HostsOk(s')
  {
    forall l | 0 <= l < |s'.hosts| ensures PullerOk(s'.hosts[l].puller, |s'.hosts|) && ReserveOk(s'.hosts[l], s'.place) {
      assert GrownAt(s, s', l);
      assert PullerOk(s.hosts[l].puller, |s.hosts|) && ReserveOk(s.hosts[l], s.place);
      assert forall bin :: s'.hosts[l].BinAt(bin) == s.hosts[l].BinAt(bin);
    }
  }

  lemma AnswerFetchInv(s: Net, i: int, e: Effect, luck: set<nat>)
    requires e.Fetch? && NetInvWith(s, TokensOf(Req(i, e))) && MsgOk(s, Req(i, e))
    requires 0 <= e.peer < |s.hosts| == |s.served|
    ensures NetInv(Answer(s, i, e, luck))
  {
    var s', os := Answer(s, i, e, luck), ServeAll(s.hosts[e.peer], e.want, s.spurious, luck).0;
    ServeAllOk(s, e.peer, e.want, s.spurious, luck);
    var msg := Resp(i, FetchResult(e.peer, e.bin, os));
    assert MsgOk(s', msg) by {
      assert forall o :: ServedOk(s, e.peer, o) ==> ServedOk(s', e.peer, o);
    }
    PushInv(s, s', TokensOf(Req(i, e)), msg);
  }

  lemma AnswerOfferInv(s: Net, i: int, e: Effect, luck: set<nat>)
    requires e.Offer? && NetInvWith(s, TokensOf(Req(i, e))) && MsgOk(s, Req(i, e))
    requires 0 <= e.peer < |s.hosts| == |s.served|
    ensures NetInv(Answer(s, i, e, luck))
  {
    var j, h := e.peer, s.hosts[e.peer];
    assert ChanOk(s.hosts[i].puller, (j, e.bin), Res(s, (j, e.bin)));
    if h.Head(e.bin) >= e.start {
      ResponseIsStretch(h, j, e.bin, e.start);
      PushInv(s, Answer(s, i, e, luck), TokensOf(Req(i, e)), Resp(i, OfferResponse(h, j, e.bin, e.start)));
    } else {
      ParkInv(s, j, (i, e.bin, e.start));
    }
  }

  /** Serving a request keeps the invariant. */
  lemma AnswerInv(s: Net, i: int, e: Effect, luck: set<nat>)
    requires NetInvWith(s, TokensOf(Req(i, e))) && MsgOk(s, Req(i, e))
    requires 0 <= e.peer < |s.hosts| == |s.served|
    ensures NetInv(Answer(s, i, e, luck))
  {
    match e {
      case GetCursors(p) =>
        PushInv(s, Answer(s, i, e, luck), TokensOf(Req(i, e)), Resp(i, CursorsResult(p, Cursors(s.hosts[p]))));
      case Offer(_, _, _) => AnswerOfferInv(s, i, e, luck);
      case Fetch(_, _, _) => AnswerFetchInv(s, i, e, luck);
      case Settled(_, _, _) =>
    }
  }

  // --- the pulling side -----------------------------------------------------------------------------

  /** What a node's puller counts as stored is what the node serves. */
  ghost predicate Stocked(s: Net) {
    forall i :: 0 <= i < |s.hosts| ==> s.hosts[i].puller.m.got == s.hosts[i].index
  }

  lemma StockedBy(s: Net, s1: Net, s2: Net, i: int, cs: set<Triple>)
    requires 0 <= i < |s.hosts| == |s1.hosts| && Stocked(s) && StoredAt(s1, s2, i, cs)
    requires s1.hosts[i].puller.m.got == s.hosts[i].puller.m.got + cs && s1.hosts[i].index == s.hosts[i].index
    requires forall l :: 0 <= l < |s.hosts| && l != i ==> s1.hosts[l] == s.hosts[l]
    ensures Stocked(s2)
  {
    forall l | 0 <= l < |s2.hosts| ensures s2.hosts[l].puller.m.got == s2.hosts[l].index {
      assert GrownAt(s1, s2, l);
    }
  }

  lemma ReceiveInv(s: Net, i: int, ev: Event)
    requires NetInvWith(s, TokensOf(Resp(i, ev))) && MsgOk(s, Resp(i, ev)) && Stocked(s)
    ensures NetInv(Receive(s, i, ev)) && Stocked(Receive(s, i, ev))
  {
    var n := s.hosts[i].puller;
    HandEvOk(s, i, ev);
    FeedInv(s, i, ev);
    EvGot(n, ev, EvRes(s, ev));
    var s1 := Feed(s, i, ev);
    StoreAllInv(s1, i, Delivers(ev));
    StockedBy(s, s1, Receive(s, i, ev), i, set c | c in Delivers(ev));
  }

  // --- holdings from outside ----------------------------------------------------------------------------

  lemma PreloadSound(n: Node, k: nat, c: Triple)
    requires PullerOk(n, k) && c !in n.m.arrived
    ensures PullerOk(n.(m := n.m.Preload(c)), k)
  {
    var n' := n.(m := n.m.Preload(c));
    assert forall d :: d in n.m.want ==> LeaseOk(n.m, d);
    SafePreload(n.m, c);
    forall l, b | l in n'.logs && b in n'.logs[l].entries ensures HeldFrom(n'.m, l.0, n'.logs[l].entries[b]) {
      assert HeldFrom(n.m, l.0, n.logs[l].entries[b]);
    }
    assert forall d :: Wanted(n'.m, d) ==> Wanted(n.m, d);
  }

  lemma PreloadChan(n: Node, c: Triple, l: Key, res: seq<Triple>)
    requires Sound(n) && c !in n.m.arrived && ChanOk(n, l, res)
    ensures ChanOk(n.(m := n.m.Preload(c)), l, res)
  {
    var n' := n.(m := n.m.Preload(c));
    CoversMore(n.m, n'.m, n.LogAt(l), res, res);
    var b := n.LogAt(l).interval + 1;
    if l in n.logs && b in n.logs[l].entries {
      assert HeldFrom(n.m, l.0, n.logs[l].entries[b]);
    }
  }

  /** A node may come to hold what it holds already, or what it never heard of. */
  predicate MayHold(s: Net, i: int, c: Triple) {
    0 <= i < |s.hosts| && (c in s.hosts[i].index || c !in s.hosts[i].puller.m.arrived)
  }

  lemma HoldNew(s: Net, i: int, c: Triple)
    requires NetInv(s) && 0 <= i < |s.hosts| && c !in s.hosts[i].puller.m.arrived
    ensures NetInv(Fed(s, i, s.hosts[i].puller.(m := s.hosts[i].puller.m.Preload(c))))
  {
    var n := s.hosts[i].puller;
    var n' := n.(m := n.m.Preload(c));
    var s1 := Fed(s, i, n');
    assert PullerOk(n, |s.hosts|);
    PreloadSound(n, |s.hosts|, c);
    FedHosts(s, i, n');
    forall l: Key ensures ChanOk(n', l, Res(s, l)) {
      assert ChanOk(n, l, Res(s, l));
      PreloadChan(n, c, l, Res(s, l));
    }
    FedChans(s, i, n');
    HandQuiet(s, i, PeerSeen(0));
    FeedMsgs(s, i, (-1, 0), n');
    forall t ensures TokenOk(s1, multiset{}, t) {
      assert TokenOk(s, multiset{}, t);
      FedToken(s, i, n', [], multiset{}, t);
      assert s.queue + Reqs(i, []) == s.queue;
    }
  }

  lemma HoldInv(s: Net, i: int, c: Triple)
    requires NetInv(s) && Stocked(s) && MayHold(s, i, c)
    ensures NetInv(Hold(s, i, c)) && Stocked(Hold(s, i, c))
  {
    var n := s.hosts[i].puller;
    var s1 := Fed(s, i, n.(m := n.m.Preload(c)));
    if c in s.hosts[i].index {
      assert s1.hosts == s.hosts;
    } else {
      HoldNew(s, i, c);
    }
    StoreInv(s1, i, c);
    StoreGrows(s1, i, c);
    var s2 := Hold(s, i, c);
    forall l | 0 <= l < |s2.hosts| ensures s2.hosts[l].puller.m.got == s2.hosts[l].index {
      assert GrownAt(s1, s2, l);
    }
  }
}
