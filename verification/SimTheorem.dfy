/** Quiescence means replication (crates/sim/src/lib.rs), over every run of every network. */
module SimTheorem {
  import opened Types
  import opened Machine
  import opened MachineSafety
  import opened Settlement
  import opened NodeModel
  import opened NodeWork
  import opened NodeRuns
  import opened SimNet
  import opened SimChannel
  import opened SimTokens
  import opened SimHandle
  import opened SimInv
  import opened SimStore
  import opened SimRuns
  import opened SimCounts

  /** What may happen to a network: a node comes to see a peer, a node comes to hold a chunk
      from outside, or one message in flight is delivered under some draws. */
  datatype Move =
    | See(i: int, peer: int)
    | Gain(i: int, c: Triple)
    | Deliver(idx: nat, luck: set<nat>)

  ghost predicate Good(s: Net) {
    NetInv(s) && Stocked(s) && Counted(s, 0) && Known(s)
  }

  ghost predicate CanMove(s: Net, mv: Move) {
    match mv
    case See(i, p) => 0 <= i < |s.hosts| && 0 <= p < |s.hosts|
    case Gain(i, c) => MayHold(s, i, c)
    case Deliver(idx, _) => MayTake(s, idx)
  }

  /** Every message and every parked offer names a node of the network, so no delivery is ever
      undefined. */
  lemma InvValid(s: Net)
    requires NetInv(s)
    ensures s.Valid()
  {
    forall msg | msg in s.queue ensures s.Addressed(msg) {
      assert MsgOk(s, msg);
      assert PullerOk(s.hosts[msg.node].puller, |s.hosts|);
    }
    forall i | 0 <= i < |s.hosts| ensures forall h :: h in s.hosts[i].parked ==> 0 <= h.0 < |s.hosts| {
      forall h | h in s.hosts[i].parked ensures 0 <= h.0 < |s.hosts| {
        assert ParkOk(s, i, h);
      }
    }
    assert forall i :: 0 <= i < |s.hosts| ==> PullerOk(s.hosts[i].puller, |s.hosts|);
  }

  // --- every move keeps the network good ------------------------------------------------------

  /** Same chunks held, and every node's arrivals as before or, at `i`, within them. */
  ghost predicate SameStock(s: Net, s': Net, i: int) {
    && 0 <= i < |s.hosts| == |s'.hosts|
    && forall l :: 0 <= l < |s.hosts| ==> SameStockAt(s, s', i, l)
  }

  ghost predicate SameStockAt(s: Net, s': Net, i: int, l: int)
    requires 0 <= l < |s.hosts| == |s'.hosts|
  {
    && s'.hosts[l].index == s.hosts[l].index
    && (l != i ==> s'.hosts[l].puller.m.arrived == s.hosts[l].puller.m.arrived)
  }

  lemma SameUniverse(s: Net, s': Net, i: int)
    requires SameStock(s, s', i)
    ensures Universe(s') == Universe(s)
  {
    forall c ensures c in Universe(s') <==> c in Universe(s) {
      if c in Universe(s) {
        var l :| 0 <= l < |s.hosts| && c in s.hosts[l].index;
        assert SameStockAt(s, s', i, l);
      }
      if c in Universe(s') {
        var l :| 0 <= l < |s'.hosts| && c in s'.hosts[l].index;
        assert SameStockAt(s, s', i, l);
      }
    }
  }

  lemma StaysKnown(s: Net, s': Net, i: int)
    requires SameStock(s, s', i) && Known(s) && s'.hosts[i].puller.m.arrived <= Universe(s)
    ensures Known(s')
  {
    SameUniverse(s, s', i);
    forall l | 0 <= l < |s'.hosts| ensures s'.hosts[l].puller.m.arrived <= Universe(s') {
      assert SameStockAt(s, s', i, l);
      assert s.hosts[l].puller.m.arrived <= Universe(s);
    }
  }

  lemma StoredKnown(s: Net, s': Net, i: int, cs: set<Triple>)
    requires 0 <= i < |s.hosts| && StoredAt(s, s', i, cs) && Known(s)
    ensures Known(s') && Universe(s') == Universe(s) + cs
  {
    StoredUniverse(s, s', i, cs);
    forall l | 0 <= l < |s'.hosts| ensures s'.hosts[l].puller.m.arrived <= Universe(s') {
      assert GrownAt(s, s', l);
      assert s.hosts[l].puller.m.arrived <= Universe(s);
    }
  }

  lemma FedKnown(s: Net, i: int, n': Node, fx: seq<Effect>)
    requires 0 <= i < |s.hosts| && Known(s) && n'.m.arrived <= Universe(s)
    ensures var s' := Fed(s, i, n').(queue := s.queue + Reqs(i, fx)); Known(s') && Universe(s') == Universe(s)
  {
    var s' := Fed(s, i, n').(queue := s.queue + Reqs(i, fx));
    forall l | 0 <= l < |s.hosts| ensures SameStockAt(s, s', i, l) {
    }
    SameUniverse(s, s', i);
    StaysKnown(s, s', i);
  }

  lemma SeenAgain(s: Net, i: int, p: int)
    requires 0 <= i < |s.hosts| && NodeInv(s.hosts[i].puller) && p in s.hosts[i].puller.peers
    ensures Feed(s, i, PeerSeen(p)) == s
  {
    var n := s.hosts[i].puller;
    assert n.peers + {p} == n.peers;
    assert Handle(n, PeerSeen(p)) == (n, []);
    assert s.hosts[i := s.hosts[i].(puller := n)] == s.hosts;
  }

  lemma SeeGood(s: Net, i: int, p: int)
    requires Good(s) && 0 <= i < |s.hosts| && 0 <= p < |s.hosts| && NodeInv(s.hosts[i].puller)
    ensures Good(Feed(s, i, PeerSeen(p))) && Universe(Feed(s, i, PeerSeen(p))) == Universe(s)
  {
    var n := s.hosts[i].puller;
    if p in n.peers {
      SeenAgain(s, i, p);
    } else {
      var (n', fx) := Handle(n, PeerSeen(p));
      FeedInv(s, i, PeerSeen(p));
      FedCounted(s, i, n', fx, 0);
      assert n.m.arrived <= Universe(s);
      FedKnown(s, i, n', fx);
    }
  }

  lemma GainGood(s: Net, i: int, c: Triple)
    requires Good(s) && MayHold(s, i, c)
    ensures Good(Hold(s, i, c)) && Universe(Hold(s, i, c)) == Universe(s) + {c}
  {
    var n' := s.hosts[i].puller.(m := s.hosts[i].puller.m.Preload(c));
    var s1 := Fed(s, i, n');
    HoldInv(s, i, c);
    FedCounted(s, i, n', [], 0);
    assert s.hosts[i].puller.m.arrived <= Universe(s);
    FedKnown(s, i, n', []);
    assert s1.(queue := s.queue + Reqs(i, [])) == s1;
    StoreCounted(s1, i, c);
    StoreGrows(s1, i, c);
    StoredKnown(s1, Hold(s, i, c), i, {c});
  }

  lemma AnswerSameStock(s: Net, i: int, e: Effect, luck: set<nat>)
    requires 0 <= i < |s.hosts| == |s.served| && 0 <= e.peer < |s.hosts|
    ensures SameStock(s, Answer(s, i, e, luck), i)
    ensures Answer(s, i, e, luck).hosts[i].puller == s.hosts[i].puller
    ensures Stocked(s) ==> Stocked(Answer(s, i, e, luck))
  {
    var s' := Answer(s, i, e, luck);
    forall l | 0 <= l < |s.hosts| ensures SameStockAt(s, s', i, l) && s'.hosts[l].puller == s.hosts[l].puller {
    }
  }

  lemma RequestGood(s: Net, i: int, e: Effect, luck: set<nat>)
    requires NetInvWith(s, TokensOf(Req(i, e))) && MsgOk(s, Req(i, e)) && 0 <= e.peer < |s.hosts| == |s.served|
    requires Stocked(s) && Known(s) && Counted(s, 0)
    ensures Good(Answer(s, i, e, luck)) && Universe(Answer(s, i, e, luck)) == Universe(s)
  {
    AnswerInv(s, i, e, luck);
    AnswerCounted(s, i, e, luck);
    AnswerSameStock(s, i, e, luck);
    SameUniverse(s, Answer(s, i, e, luck), i);
    StaysKnown(s, Answer(s, i, e, luck), i);
  }

  lemma FeedKnown(s: Net, i: int, ev: Event)
    requires NetInvWith(s, TokensOf(Resp(i, ev))) && MsgOk(s, Resp(i, ev)) && Known(s)
    ensures Known(Feed(s, i, ev)) && Universe(Feed(s, i, ev)) == Universe(s)
    ensures forall c :: c in Delivers(ev) ==> c in Universe(s)
  {
    var n := s.hosts[i].puller;
    HandEvOk(s, i, ev);
    MsgNamesOnly(s, i, ev);
    assert n.m.arrived <= Universe(s);
    EvArrived(n, ev, EvRes(s, ev), Universe(s));
    FedKnown(s, i, Handle(n, ev).0, Handle(n, ev).1);
  }

  lemma StoreAllKnown(s: Net, i: int, cs: seq<Triple>)
    requires 0 <= i < |s.hosts| && NetInv(s) && Known(s) && forall c :: c in cs ==> c in Universe(s)
    ensures Known(StoreAll(s, i, cs)) && Universe(StoreAll(s, i, cs)) == Universe(s)
  {
    StoreAllInv(s, i, cs);
    StoredKnown(s, StoreAll(s, i, cs), i, set c | c in cs);
    NothingNew(Universe(s), cs);
  }

  lemma NothingNew(u: set<Triple>, cs: seq<Triple>)
    requires forall c :: c in cs ==> c in u
    ensures u + (set c | c in cs) == u
  {
    assert forall c :: c in u + (set d | d in cs) <==> c in u;
  }

  lemma ReceiveKnown(s: Net, i: int, ev: Event)
    requires NetInvWith(s, TokensOf(Resp(i, ev))) && MsgOk(s, Resp(i, ev)) && Known(s)
    ensures Known(Receive(s, i, ev)) && Universe(Receive(s, i, ev)) == Universe(s)
  {
    FeedKnown(s, i, ev);
    HandEvOk(s, i, ev);
    FeedInv(s, i, ev);
    StoreAllKnown(Feed(s, i, ev), i, Delivers(ev));
  }

  lemma ReceiveCounted(s: Net, i: int, ev: Event)
    requires NetInvWith(s, TokensOf(Resp(i, ev))) && MsgOk(s, Resp(i, ev)) && Counted(s, |Delivers(ev)|)
    ensures Counted(Receive(s, i, ev), 0)
  {
    var n := s.hosts[i].puller;
    HandEvOk(s, i, ev);
    EvGot(n, ev, EvRes(s, ev));
    FedCounted(s, i, Handle(n, ev).0, Handle(n, ev).1, |Delivers(ev)|);
    StoreAllCounted(Feed(s, i, ev), i, Delivers(ev));
  }

  /** Delivering a message keeps the network good, and makes no chunk appear or vanish. */
  lemma StepGood(s: Net, idx: nat, luck: set<nat>)
    requires Good(s) && MayTake(s, idx) && s.Valid()
    ensures Good(Step(s, idx, luck)) && Universe(Step(s, idx, luck)) == Universe(s)
  {
    var s0, msg := s.(queue := SwapRemove(s.queue, idx)), s.queue[idx];
    TakeInv(s, idx);
    FlyingTake(s.queue, idx);
    assert s.Addressed(msg);
    assert Universe(s0) == Universe(s);
    match msg {
      case Req(i, e) => RequestGood(s0, i, e, luck);
      case Resp(i, ev) =>
        ReceiveInv(s0, i, ev);
        ReceiveKnown(s0, i, ev);
        ReceiveCounted(s0, i, ev);
    }
  }

  /** One move leads from `s` to `s'`. */
  ghost predicate Moves(s: Net, mv: Move, s': Net) {
    s.Valid() && CanMove(s, mv) && match mv
      case See(i, p) => s' == Feed(s, i, PeerSeen(p))
      case Gain(i, c) => s' == Hold(s, i, c)
      case Deliver(idx, luck) => s' == Step(s, idx, luck)
  }

  function GainedBy(mv: Move): set<Triple> {
    if mv.Gain? then {mv.c} else {}
  }

  lemma MoveGood(s: Net, mv: Move, s': Net)
    requires Good(s) && Moves(s, mv, s')
    ensures Good(s') && Universe(s') == Universe(s) + GainedBy(mv)
  {
    match mv {
      case See(i, p) => SeeGood(s, i, p);
      case Gain(i, c) => GainGood(s, i, c);
      case Deliver(idx, luck) => StepGood(s, idx, luck);
    }
  }

  /** A run: each move possible when it comes, each state the one the move leads to. */
  ghost predicate IsRun(states: seq<Net>, mvs: seq<Move>) {
    |states| == |mvs| + 1 && forall x :: 0 <= x < |mvs| ==> MovesAt(states, mvs, x)
  }

  ghost predicate MovesAt(states: seq<Net>, mvs: seq<Move>, x: int)
    requires 0 <= x < |mvs| < |states|
  {
    Moves(states[x], mvs[x], states[x + 1])
  }

  lemma MoveGoodAt(states: seq<Net>, mvs: seq<Move>, x: nat)
    requires x < |mvs| < |states| && MovesAt(states, mvs, x) && Good(states[x])
    ensures Good(states[x + 1]) && Universe(states[x + 1]) == Universe(states[x]) + GainedBy(mvs[x])
  {
    MoveGood(states[x], mvs[x], states[x + 1]);
  }

  /** The chunks a run brings in from outside. */
  function Gained(mvs: seq<Move>): set<Triple> {
    if mvs == [] then {} else Gained(mvs[..|mvs| - 1]) + GainedBy(mvs[|mvs| - 1])
  }

  lemma GainedMore(mvs: seq<Move>, x: nat)
    requires x < |mvs|
    ensures Gained(mvs[..x + 1]) == Gained(mvs[..x]) + GainedBy(mvs[x])
  {
    assert mvs[..x + 1][..x] == mvs[..x];
  }

  /** Every state of the run up to `x` is good. */
  ghost predicate GoodUpTo(states: seq<Net>, x: nat)
    requires x < |states|
    decreases x
  {
    Good(states[x]) && (x > 0 ==> GoodUpTo(states, x - 1))
  }

  lemma {:induction false} RunGood(states: seq<Net>, mvs: seq<Move>, x: nat)
    requires IsRun(states, mvs) && Good(states[0]) && x <= |mvs|
    ensures GoodUpTo(states, x)
    decreases x
  {
    if x > 0 {
      RunGood(states, mvs, x - 1);
      MoveGoodAt(states, mvs, x - 1);
    }
  }

  lemma {:induction false} GainsAdd(us: seq<set<Triple>>, mvs: seq<Move>, x: nat)
    requires |us| == |mvs| + 1 && x <= |mvs|
    requires forall y :: 0 <= y < |mvs| ==> us[y + 1] == us[y] + GainedBy(mvs[y])
    ensures us[x] == us[0] + Gained(mvs[..x])
    decreases x
  {
    if x > 0 {
      GainsAdd(us, mvs, x - 1);
      GainedMore(mvs, x - 1);
      assert us[x - 1 + 1] == us[x - 1] + GainedBy(mvs[x - 1]);
    }
  }

  lemma RunStep(states: seq<Net>, mvs: seq<Move>, x: nat)
    requires IsRun(states, mvs) && Good(states[0]) && x < |mvs|
    ensures Universe(states[x + 1]) == Universe(states[x]) + GainedBy(mvs[x])
  {
    RunGood(states, mvs, x);
    MoveGoodAt(states, mvs, x);
  }

  lemma StatesAdd(states: seq<Net>, mvs: seq<Move>)
    requires |states| == |mvs| + 1
    requires forall y :: 0 <= y < |mvs| ==> Universe(states[y + 1]) == Universe(states[y]) + GainedBy(mvs[y])
    ensures Universe(states[|mvs|]) == Universe(states[0]) + Gained(mvs)
  {
    var us := seq(|states|, y requires 0 <= y < |states| => Universe(states[y]));
    GainsAdd(us, mvs, |mvs|);
    assert mvs[..|mvs|] == mvs;
  }

  /** Nothing appears but what is brought in, and nothing vanishes. */
  lemma RunConserves(states: seq<Net>, mvs: seq<Move>)
    requires IsRun(states, mvs) && Good(states[0])
    ensures Universe(states[|mvs|]) == Universe(states[0]) + Gained(mvs)
  {
    forall y | 0 <= y < |mvs| ensures Universe(states[y + 1]) == Universe(states[y]) + GainedBy(mvs[y]) {
      RunStep(states, mvs, y);
    }
    StatesAdd(states, mvs);
  }

  // --- the start ------------------------------------------------------------------------------------

  lemma FreshChannel(n: Node, k: Key)
    requires n.logs == map[] && n.offerOpen == {}
    ensures ChanOk(n, k, [])
  {
  }

  lemma FreshPuller(policy: Policy, k: nat)
    requires policy.window >= 1
    ensures PullerOk(New(PRODUCTION, RADIUS, policy), k)
  {
    var n := New(PRODUCTION, RADIUS, policy);
    BootedInv(PRODUCTION, RADIUS, policy, {});
    assert Booted(PRODUCTION, RADIUS, policy, {}) == n;
  }

  lemma {:induction false} FreshTotals(k: nat, byzantine: set<int>, policy: Policy)
    ensures Total(seq(k, i => 0)) == 0
    ensures Total(Counters(seq(k, i => Fresh(RADIUS, policy, i in byzantine)))) == 0
    decreases k
  {
    if k > 0 {
      FreshTotals(k - 1, byzantine, policy);
      var zeros: seq<nat> := seq(k, i => 0);
      var hosts := seq(k, i => Fresh(RADIUS, policy, i in byzantine));
      assert zeros[..k - 1] == seq(k - 1, i => 0);
      assert Counters(hosts)[..k - 1] == Counters(seq(k - 1, i => Fresh(RADIUS, policy, i in byzantine)));
    }
  }

  ghost predicate FreshHost(h: Host, policy: Policy) {
    h.puller == New(PRODUCTION, RADIUS, policy) && h.reserve == map[] && h.index == {} && h.parked == []
  }

  lemma FreshHosts(s: Net, policy: Policy)
    requires policy.window >= 1 && |s.served| == |s.hosts| && forall c :: InBins(s.place(c))
    requires forall i :: 0 <= i < |s.hosts| ==> FreshHost(s.hosts[i], policy)
    ensures HostsOk(s) && ChansOk(s)
  {
    FreshPuller(policy, |s.hosts|);
    forall i | 0 <= i < |s.hosts| ensures PullerOk(s.hosts[i].puller, |s.hosts|) && ReserveOk(s.hosts[i], s.place) {
      assert FreshHost(s.hosts[i], policy);
    }
    forall i, l: Key | 0 <= i < |s.hosts| ensures ChanOk(s.hosts[i].puller, l, Res(s, l)) {
      assert FreshHost(s.hosts[i], policy);
      assert 0 <= l.0 < |s.hosts| ==> FreshHost(s.hosts[l.0], policy);
      FreshChannel(s.hosts[i].puller, l);
    }
  }

  lemma FreshInv(s: Net, policy: Policy)
    requires policy.window >= 1 && |s.served| == |s.hosts| && s.queue == [] && forall c :: InBins(s.place(c))
    requires forall i :: 0 <= i < |s.hosts| ==> FreshHost(s.hosts[i], policy)
    ensures NetInv(s)
  {
    FreshHosts(s, policy);
    forall t ensures TokenOk(s, multiset{}, t) {
      FreshTokens(s, policy, t);
    }
    assert forall j :: 0 <= j < |s.hosts| ==> FreshHost(s.hosts[j], policy);
  }

  lemma FreshTokens(s: Net, policy: Policy, t: Tok)
    requires s.queue == [] && forall i :: 0 <= i < |s.hosts| ==> FreshHost(s.hosts[i], policy)
    ensures TokenOk(s, multiset{}, t)
  {
    assert 0 <= t.node < |s.hosts| ==> FreshHost(s.hosts[t.node], policy);
    assert t.Off? && 0 <= t.k.0 < |s.hosts| ==> FreshHost(s.hosts[t.k.0], policy);
  }

  lemma FreshStock(s: Net, policy: Policy)
    requires forall i :: 0 <= i < |s.hosts| ==> FreshHost(s.hosts[i], policy)
    ensures Stocked(s) && Known(s) && Universe(s) == {}
  {
    forall i | 0 <= i < |s.hosts|
      ensures s.hosts[i].index == {} && s.hosts[i].puller.m.got == {} && s.hosts[i].puller.m.arrived == {} {
      assert FreshHost(s.hosts[i], policy);
    }
  }

  lemma FreshGood(s: Net, policy: Policy)
    requires policy.window >= 1 && |s.served| == |s.hosts| && s.queue == [] && forall c :: InBins(s.place(c))
    requires forall i :: 0 <= i < |s.hosts| ==> FreshHost(s.hosts[i], policy)
    requires Total(s.served) == 0 && Total(Counters(s.hosts)) == 0
    ensures Good(s) && Universe(s) == {}
  {
    FreshInv(s, policy);
    FreshStock(s, policy);
  }

  /** Empty nodes in any number, any of them omitting, are a good network. */
  lemma NewGood(s: Net, k: nat, byzantine: set<int>, policy: Policy, spurious: nat, concurrent: bool, place: Triple -> Bin)
    requires policy.window >= 1 && forall c :: InBins(place(c))
    requires s == NewNet(k, byzantine, policy, spurious, concurrent, place)
    ensures Good(s) && Universe(s) == {}
  {
    FreshTotals(k, byzantine, policy);
    FreshGood(s, policy);
  }

  // --- quiescence -----------------------------------------------------------------------------------

  lemma RowHasPeer(want: Table, d: Triple)
    requires Normal(want) && d in want
    ensures exists p :: p in At(want, d)
  {
    var p := Witness(want[d]);
    assert p in At(want, d);
  }

  lemma NoClaimsNoLeases(want: Table)
    requires Normal(want) && forall d, p :: p !in At(want, d)
    ensures want == map[]
  {
    forall d ensures d !in want {
      if d in want { RowHasPeer(want, d); }
    }
    assert want == map[];
  }

  /** With no message in flight no lease is outstanding, so nothing is wanted. */
  lemma QuietWantsNothing(s: Net, i: int, c: Triple)
    requires NetInv(s) && Quiescent(s) && 0 <= i < |s.hosts|
    ensures !Wanted(s.hosts[i].puller.m, c)
  {
    var m := s.hosts[i].puller.m;
    assert PullerOk(s.hosts[i].puller, |s.hosts|);
    forall d, p ensures p !in At(m.want, d) {
      assert TokenOk(s, multiset{}, Lease(i, p, d));
    }
    NoClaimsNoLeases(m.want);
  }

  lemma {:induction false} HeldSome(j: int, parked: seq<Held>, i: int, bin: Bin)
    requires HeldToks(j, parked)[Off(i, (j, bin))] > 0
    ensures exists h :: h in parked && h.0 == i && h.1 == bin
    decreases |parked|
  {
    var front, last := parked[..|parked| - 1], parked[|parked| - 1];
    if HeldToks(j, front)[Off(i, (j, bin))] > 0 {
      HeldSome(j, front, i, bin);
    } else {
      assert last in parked;
    }
  }

  /** With no message in flight, every channel of every peer is a parked offer that asks for
      more than the peer has. */
  lemma QuietParks(s: Net, i: int, p: int, bin: Bin)
    requires NetInv(s) && Quiescent(s) && 0 <= i < |s.hosts| && p in s.hosts[i].puller.peers && InBins(bin)
    ensures 0 <= p < |s.hosts|
    ensures exists h :: h in s.hosts[p].parked && h.0 == i && h.1 == bin && h.2 > s.hosts[p].Head(bin)
  {
    var n, k := s.hosts[i].puller, (p, bin);
    assert PullerOk(n, |s.hosts|);
    assert TokenOk(s, multiset{}, Cur(i, p));
    assert bin == RADIUS || bin == RADIUS + 1;
    assert k in n.logs;
    assert ChanOk(n, k, Res(s, k));
    if k !in n.offerOpen {
      var c := n.logs[k].entries[n.logs[k].interval + 1];
      assert HeldFrom(n.m, p, c);
      QuietWantsNothing(s, i, c);
    }
    assert TokenOk(s, multiset{}, Off(i, k));
    HeldSome(p, s.hosts[p].parked, i, bin);
    var h :| h in s.hosts[p].parked && h.0 == i && h.1 == bin;
    assert ParkOk(s, p, h);
  }

  /** So each channel's log has settled the whole of its bin. */
  lemma QuietCovers(s: Net, i: int, p: int, bin: Bin)
    requires NetInv(s) && Quiescent(s) && 0 <= i < |s.hosts| && p in s.hosts[i].puller.peers && InBins(bin)
    ensures forall b :: 0 <= b < |Res(s, (p, bin))| ==> s.hosts[i].puller.m.Settled(Res(s, (p, bin))[b])
  {
    var n, k := s.hosts[i].puller, (p, bin);
    QuietParks(s, i, p, bin);
    var h :| h in s.hosts[p].parked && h.0 == i && h.1 == bin && h.2 > s.hosts[p].Head(bin);
    assert ParkOk(s, p, h);
    HeldIn(p, s.hosts[p].parked, h);
    assert TokenOk(s, multiset{}, Off(i, k));
    assert ChanOk(n, k, Res(s, k));
  }

  /** So a node holds everything each of its peers holds. */
  lemma QuietHolds(s: Net, i: int, p: int)
    requires Good(s) && Quiescent(s) && 0 <= i < |s.hosts| && p in s.hosts[i].puller.peers
    ensures 0 <= p < |s.hosts| && s.hosts[p].index <= s.hosts[i].index
  {
    var m := s.hosts[i].puller.m;
    assert PullerOk(s.hosts[i].puller, |s.hosts|);
    assert ReserveOk(s.hosts[p], s.place);
    forall c | c in s.hosts[p].index ensures c in s.hosts[i].index {
      var bin := s.place(c);
      QuietCovers(s, i, p, bin);
      assert c in Res(s, (p, bin));
      assert m.Settled(c) && m.rejected == {} && m.got == s.hosts[i].index;
    }
  }

  /** Everyone sees everyone. */
  ghost predicate Meshed(s: Net) {
    forall i, j :: 0 <= i < |s.hosts| && 0 <= j < |s.hosts| && i != j ==> j in s.hosts[i].puller.peers
  }

  /** A chain of peers from `i`, each seen by the one before. */
  ghost predicate Chain(s: Net, path: seq<int>) {
    && path != []
    && (forall x :: 0 <= x < |path| ==> 0 <= path[x] < |s.hosts|)
    && forall x :: 0 <= x < |path| - 1 ==> path[x + 1] in s.hosts[path[x]].puller.peers
  }

  /** On any topology, what a node can reach through peers it holds. */
  lemma {:induction false} QuietHoldsAlong(s: Net, path: seq<int>)
    requires Good(s) && Quiescent(s) && Chain(s, path)
    ensures s.hosts[path[|path| - 1]].index <= s.hosts[path[0]].index
    decreases |path|
  {
    if |path| > 1 {
      QuietHoldsAlong(s, path[1..]);
      QuietHolds(s, path[0], path[1]);
    }
  }

  lemma QuietMesh(s: Net, i: int)
    requires Good(s) && Quiescent(s) && Meshed(s) && 0 <= i < |s.hosts|
    ensures s.hosts[i].index == Universe(s)
  {
    forall c | c in s.hosts[i].index ensures c in Universe(s) {
    }
    forall c | c in Universe(s) ensures c in s.hosts[i].index {
      var j :| 0 <= j < |s.hosts| && c in s.hosts[j].index;
      if j != i { QuietHolds(s, i, j); }
    }
  }

  /** Channel `bin` of `p`, as node `i` reads it, is parked beyond the head of `p`'s bin. */
  ghost predicate ParkedBeyond(s: Net, i: int, p: int, bin: Bin) {
    0 <= p < |s.hosts| && exists h :: h in s.hosts[p].parked && h.0 == i && h.1 == bin && h.2 > s.hosts[p].Head(bin)
  }

  /** What a quiet network looks like when everyone sees everyone. */
  ghost predicate Replicated(s: Net, all: set<Triple>) {
    && (forall i :: 0 <= i < |s.hosts| ==> s.hosts[i].index == all)
    && (forall i, p, bin :: 0 <= i < |s.hosts| && p in s.hosts[i].puller.peers && InBins(bin) ==> ParkedBeyond(s, i, p, bin))
    && |s.served| == |s.hosts|
    && Total(s.served) == Total(Counters(s.hosts))
    && forall i :: 0 <= i < |s.hosts| ==> Counters(s.hosts)[i] == |all| - s.hosts[i].puller.m.npre
  }

  lemma QuietReplicated(s: Net)
    requires Good(s) && Quiescent(s) && Meshed(s)
    ensures Replicated(s, Universe(s))
  {
    forall i | 0 <= i < |s.hosts|
      ensures s.hosts[i].index == Universe(s) && Counters(s.hosts)[i] == |Universe(s)| - s.hosts[i].puller.m.npre {
      QuietMesh(s, i);
      assert PullerOk(s.hosts[i].puller, |s.hosts|);
      assert s.hosts[i].puller.m.got == s.hosts[i].index;
    }
    forall i, p, bin | 0 <= i < |s.hosts| && p in s.hosts[i].puller.peers && InBins(bin) ensures ParkedBeyond(s, i, p, bin) {
      QuietParks(s, i, p, bin);
    }
  }

  /** Quiescence means replication. From any number of empty nodes, any of them omitting, by
      any run of sightings, arrivals and deliveries in any order: once everyone sees everyone
      and nothing is in flight, every node holds exactly the chunks the run brought in; each
      channel is a parked offer beyond its peer's head; and the deliveries served are the
      deliveries counted, node by node everything less what came to it from outside. */
  lemma QuiescenceMeansReplication(k: nat, byzantine: set<int>, policy: Policy, spurious: nat, concurrent: bool,
                                   place: Triple -> Bin, states: seq<Net>, mvs: seq<Move>)
    requires policy.window >= 1 && forall c :: InBins(place(c))
    requires IsRun(states, mvs) && states[0] == NewNet(k, byzantine, policy, spurious, concurrent, place)
    requires Quiescent(states[|mvs|]) && Meshed(states[|mvs|])
    ensures Replicated(states[|mvs|], Gained(mvs))
  {
    NewGood(states[0], k, byzantine, policy, spurious, concurrent, place);
    RunGood(states, mvs, |mvs|);
    RunConserves(states, mvs);
    QuietReplicated(states[|mvs|]);
  }

  /** What every network conserves at every moment of every run: a node's lease is exactly one
      fetch or one fetch result in flight, and the deliveries served are those counted plus
      those in flight. */
  lemma RunsConserveDeliveries(k: nat, byzantine: set<int>, policy: Policy, spurious: nat, concurrent: bool,
                               place: Triple -> Bin, states: seq<Net>, mvs: seq<Move>)
    requires policy.window >= 1 && forall c :: InBins(place(c))
    requires IsRun(states, mvs) && states[0] == NewNet(k, byzantine, policy, spurious, concurrent, place)
    ensures var s := states[|mvs|];
      && (forall i, p, c :: 0 <= i < |s.hosts| ==>
            Toks(s.queue)[Lease(i, p, c)] == if p in At(s.hosts[i].puller.m.want, c) then 1 else 0)
      && Total(s.served) == Total(Counters(s.hosts)) + Flying(s.queue)
  {
    NewGood(states[0], k, byzantine, policy, spurious, concurrent, place);
    RunGood(states, mvs, |mvs|);
    var s := states[|mvs|];
    forall i, p, c | 0 <= i < |s.hosts|
      ensures Toks(s.queue)[Lease(i, p, c)] == if p in At(s.hosts[i].puller.m.want, c) then 1 else 0 {
      assert TokenOk(s, multiset{}, Lease(i, p, c));
    }
  }

  /** A chunk nobody holds may always arrive: no node has heard of it. */
  lemma NewChunksMayArrive(s: Net, i: int, c: Triple)
    requires Good(s) && 0 <= i < |s.hosts| && c !in Universe(s)
    ensures MayHold(s, i, c)
  {
    assert s.hosts[i].puller.m.arrived <= Universe(s);
  }
}
