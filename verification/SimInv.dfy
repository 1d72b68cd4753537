/** The network's invariant (crates/sim/src/lib.rs): every channel's log covers a prefix of the
    bin its peer serves, and every claim of every node is exactly one message in flight or
    one offer parked. */
module SimInv {
  import opened Types
  import opened Machine
  import opened MachineSafety
  import opened Settlement
  import opened NodeModel
  import opened NodeWork
  import opened NodeRuns
  import opened NodeTraces
  import opened NodePacing
  import opened SimNet
  import opened SimChannel
  import opened SimTokens
  import opened SimHandle

  /** The bin that channel `k` reads. */
  function Res(s: Net, k: Key): seq<Triple> {
    if 0 <= k.0 < |s.hosts| then s.hosts[k.0].BinAt(k.1) else []
  }

  /** The tokens of the offers parked at node `j`. */
  function HeldToks(j: int, parked: seq<Held>): multiset<Tok> {
    if parked == [] then multiset{}
    else
      var h := parked[|parked| - 1];
      HeldToks(j, parked[..|parked| - 1]) + multiset{Off(h.0, (j, h.1))}
  }

  function ParkCount(s: Net, t: Tok): nat {
    if t.Off? && 0 <= t.k.0 < |s.hosts| then HeldToks(t.k.0, s.hosts[t.k.0].parked)[t] else 0
  }

  function OwedIn(s: Net, t: Tok): nat {
    if 0 <= t.node < |s.hosts| then Owed(s.hosts[t.node].puller, t.node, t) else 0
  }

  /** What is owed is in flight, parked, or in hand. */
  ghost predicate TokenOk(s: Net, hand: multiset<Tok>, t: Tok) {
    Toks(s.queue)[t] + ParkCount(s, t) + hand[t] == OwedIn(s, t)
  }

  ghost predicate ReserveOk(h: Host, place: Triple -> Bin) {
    && (forall bin, c :: c in h.BinAt(bin) ==> c in h.index && place(c) == bin)
    && forall c :: c in h.index ==> c in h.BinAt(place(c))
  }

  ghost predicate PullerOk(n: Node, k: nat) {
    && Sound(n) && Working(n.m)
    && (forall p :: p in n.peers ==> 0 <= p < k)
    && Paired(n)
  }

  /** A peer's cursors open both of its bins. */
  ghost predicate Paired(n: Node) {
    forall p :: p in n.peers ==> ((p, RADIUS) in n.logs <==> (p, RADIUS + 1) in n.logs)
  }

  ghost predicate MsgOk(s: Net, msg: Msg) {
    && 0 <= msg.node < |s.hosts|
    && var n := s.hosts[msg.node].puller;
      match msg
      case Req(_, e) => EffOk(n, e)
      case Resp(_, CursorsResult(p, cs)) => p in n.peers && BothBins(cs)
      case Resp(_, OfferResult(p, bin, start, refs, topmost)) =>
        && p in n.peers && InBins(bin)
        && start == n.LogAt((p, bin)).topmost + 1
        && refs != [] && Stretch(Res(s, (p, bin)), start, refs) && topmost == start + |refs| - 1
      case Resp(_, FetchResult(p, _, os)) => p in n.peers && forall o :: o in os ==> ServedOk(s, p, o)
      case _ => false
  }

  /** What is delivered is held by who delivers it; nothing is rejected. */
  ghost predicate ServedOk(s: Net, p: PeerId, o: (Triple, Outcome)) {
    o.1 != Rejected && (o.1 == Delivered ==> 0 <= p < |s.hosts| && o.0 in s.hosts[p].index)
  }

  /** A parked offer asks for what its node does not have yet. */
  ghost predicate ParkOk(s: Net, j: int, h: Held) {
    && 0 <= h.0 < |s.hosts| && 0 <= j < |s.hosts|
    && j in s.hosts[h.0].puller.peers && InBins(h.1)
    && h.2 == s.hosts[h.0].puller.LogAt((j, h.1)).topmost + 1
    && h.2 > s.hosts[j].Head(h.1)
  }

  ghost predicate HostsOk(s: Net) {
    && |s.served| == |s.hosts|
    && (forall c :: InBins(s.place(c)))
    && forall i :: 0 <= i < |s.hosts| ==> PullerOk(s.hosts[i].puller, |s.hosts|) && ReserveOk(s.hosts[i], s.place)
  }

  ghost predicate ChansOk(s: Net) {
    forall i, k: Key :: 0 <= i < |s.hosts| ==> ChanOk(s.hosts[i].puller, k, Res(s, k))
  }

  ghost predicate MsgsOk(s: Net) {
    forall msg :: msg in s.queue ==> MsgOk(s, msg)
  }

  ghost predicate ParksOk(s: Net) {
    forall j, h :: 0 <= j < |s.hosts| && h in s.hosts[j].parked ==> ParkOk(s, j, h)
  }

  /** The invariant, with the tokens `hand` taken off the network. */
  ghost predicate NetInvWith(s: Net, hand: multiset<Tok>) {
    HostsOk(s) && ChansOk(s) && MsgsOk(s) && ParksOk(s) && forall t :: TokenOk(s, hand, t)
  }

  ghost predicate NetInv(s: Net) {
    NetInvWith(s, multiset{})
  }

  // --- counting ------------------------------------------------------------------------------

  lemma {:induction false} TokIn(q: seq<Msg>, msg: Msg, t: Tok)
    requires msg in q
    ensures Toks(q)[t] >= TokensOf(msg)[t]
    decreases |q|
  {
    if q[|q| - 1] != msg {
      TokIn(q[..|q| - 1], msg, t);
    }
  }

  lemma {:induction false} HeldIn(j: int, parked: seq<Held>, h: Held)
    requires h in parked
    ensures HeldToks(j, parked)[Off(h.0, (j, h.1))] >= 1
    decreases |parked|
  {
    if parked[|parked| - 1] != h {
      HeldIn(j, parked[..|parked| - 1], h);
    }
  }

  // --- taking, pushing, parking -----------------------------------------------------------------

  /** The network as seen by everything but the queue. */
  ghost predicate SameNodes(s: Net, s': Net) {
    s'.hosts == s.hosts && s'.place == s.place && |s'.served| == |s.served|
  }

  lemma SameNodesKeep(s: Net, s': Net)
    requires SameNodes(s, s') && HostsOk(s) && ChansOk(s) && ParksOk(s)
    ensures HostsOk(s') && ChansOk(s') && ParksOk(s')
    ensures forall t :: ParkCount(s', t) == ParkCount(s, t) && OwedIn(s', t) == OwedIn(s, t)
  {
    forall i, k: Key | 0 <= i < |s'.hosts| ensures ChanOk(s'.hosts[i].puller, k, Res(s', k)) {
      assert ChanOk(s.hosts[i].puller, k, Res(s, k));
    }
    forall j, h | 0 <= j < |s'.hosts| && h in s'.hosts[j].parked ensures ParkOk(s', j, h) {
      assert ParkOk(s, j, h);
    }
  }

  lemma SameNodesMsg(s: Net, s': Net, msg: Msg)
    requires SameNodes(s, s') && MsgOk(s, msg)
    ensures MsgOk(s', msg)
  {
    if msg.Resp? && msg.ev.FetchResult? {
      assert forall o :: ServedOk(s, msg.ev.peer, o) ==> ServedOk(s', msg.ev.peer, o);
    }
  }

  lemma TakeInv(s: Net, idx: nat)
    requires NetInv(s) && idx < |s.queue|
    ensures var s0 := s.(queue := SwapRemove(s.queue, idx));
      NetInvWith(s0, TokensOf(s.queue[idx])) && MsgOk(s0, s.queue[idx])
  {
    var s0 := s.(queue := SwapRemove(s.queue, idx));
    ToksTake(s.queue, idx);
    SameNodesKeep(s, s0);
    forall msg | msg in s.queue ensures MsgOk(s0, msg) {
      SameNodesMsg(s, s0, msg);
    }
    forall t ensures TokenOk(s0, TokensOf(s.queue[idx]), t) {
      assert TokenOk(s, multiset{}, t);
    }
  }

  lemma PushInv(s: Net, s': Net, hand: multiset<Tok>, msg: Msg)
    requires NetInvWith(s, hand) && SameNodes(s, s') && s'.queue == s.queue + [msg]
    requires MsgOk(s', msg) && TokensOf(msg) == hand
    ensures NetInv(s')
  {
    ToksConcat(s.queue, [msg]);
    ToksSingle(msg);
    SameNodesKeep(s, s');
    forall m | m in s.queue ensures MsgOk(s', m) {
      SameNodesMsg(s, s', m);
    }
    forall t ensures TokenOk(s', multiset{}, t) {
      assert TokenOk(s, hand, t);
    }
  }

  // --- feeding an event ---------------------------------------------------------------------------

  /** A message in hand is acceptable to the node it reaches. */
  lemma HandEvOk(s: Net, i: int, ev: Event)
    requires NetInvWith(s, TokensOf(Resp(i, ev))) && MsgOk(s, Resp(i, ev))
    ensures EvOk(s.hosts[i].puller, ev, EvRes(s, ev))
  {
    var n := s.hosts[i].puller;
    match ev {
      case CursorsResult(p, cs) =>
        assert TokenOk(s, TokensOf(Resp(i, ev)), Cur(i, p));
      case OfferResult(p, bin, start, refs, topmost) =>
        assert TokenOk(s, TokensOf(Resp(i, ev)), Off(i, (p, bin)));
        assert ChanOk(n, (p, bin), Res(s, (p, bin)));
      case FetchResult(p, bin, os) =>
        HandLeased(s, i, p, bin, os);
        forall o | o in os ensures o.1 != Rejected {
          assert ServedOk(s, p, o);
        }
    }
  }

  /** The bin an answer to an offer reads. */
  ghost function EvRes(s: Net, ev: Event): seq<Triple> {
    if ev.OfferResult? then Res(s, (ev.peer, ev.bin)) else []
  }

  lemma HandLeased(s: Net, i: int, p: PeerId, bin: Bin, os: seq<(Triple, Outcome)>)
    requires 0 <= i < |s.hosts| && forall t :: TokenOk(s, LeaseToks(i, p, Ids(os)), t)
    ensures AllLeased(s.hosts[i].puller.m, p, Ids(os))
  {
    var cs := Ids(os);
    forall c ensures multiset(cs)[c] <= if p in At(s.hosts[i].puller.m.want, c) then 1 else 0 {
      assert TokenOk(s, LeaseToks(i, p, cs), Lease(i, p, c));
      LeaseCount(i, p, cs, Lease(i, p, c));
    }
    forall a, b | 0 <= a < b < |cs| ensures cs[a] != cs[b] {
      TwiceCounts(cs, a, b);
    }
    forall c | c in cs ensures p in At(s.hosts[i].puller.m.want, c) {
      assert c in multiset(cs);
    }
  }

  lemma TwiceCounts(cs: seq<Triple>, a: nat, b: nat)
    requires a < b < |cs|
    ensures cs[a] == cs[b] ==> multiset(cs)[cs[a]] >= 2
  {
    assert cs == cs[..b] + cs[b..];
    assert cs[..b][a] == cs[a] && cs[b..][0] == cs[b];
    assert multiset(cs) == multiset(cs[..b]) + multiset(cs[b..]);
    assert cs[a] in multiset(cs[..b]) && cs[b] in multiset(cs[b..]);
  }

  ghost function Fed(s: Net, i: int, n: Node): Net
    requires 0 <= i < |s.hosts|
  {
    s.(hosts := s.hosts[i := s.hosts[i].(puller := n)])
  }

  lemma RoundKeys(n: Node)
    requires Sound(n)
    ensures Round(n).0.logs.Keys == n.logs.Keys
  {
    RoundFrame(n);
  }

  lemma TwoMoreKeys(logs: map<Key, Log>, a: Key, b: Key)
    ensures logs[a := EMPTY][b := EMPTY].Keys == logs.Keys + {a, b}
  {
  }

  lemma EvLogs(n: Node, ev: Event, res: seq<Triple>)
    requires Sound(n) && EvOk(n, ev, res)
    ensures Handle(n, ev).0.logs.Keys ==
      n.logs.Keys + if ev.CursorsResult? then {(ev.peer, RADIUS), (ev.peer, RADIUS + 1)} else {}
  {
    match ev {
      case PeerSeen(p) =>
      case CursorsResult(p, cs) =>
        UncursoredPeer(n, p);
        CursorsEffect(n, p, cs);
        TwoMoreKeys(n.logs, (p, RADIUS), (p, RADIUS + 1));
      case OfferResult(p, bin, start, refs, topmost) =>
        OfferedSound(n, (p, bin), start, refs, topmost, res);
        RoundKeys(Ingest(n, ev));
      case FetchResult(p, bin, os) =>
        FetchedIngested(n, p, bin, os);
        RoundKeys(Ingest(n, ev));
    }
  }

  lemma StaysPaired(n: Node, n': Node, ev: Event)
    requires Paired(n) && (ev.PeerSeen? ==> NotYetCursored(n, ev.peer))
    requires !ev.Tick? && n'.peers == n.peers + SeenBy(ev)
    requires n'.logs.Keys == n.logs.Keys + if ev.CursorsResult? then {(ev.peer, RADIUS), (ev.peer, RADIUS + 1)} else {}
    ensures Paired(n')
  {
    forall p | p in n'.peers ensures (p, RADIUS) in n'.logs <==> (p, RADIUS + 1) in n'.logs {
      assert (p, RADIUS) in n'.logs.Keys <==> (p, RADIUS + 1) in n'.logs.Keys;
    }
  }

  lemma EvPullerOk(n: Node, k: nat, ev: Event, res: seq<Triple>)
    requires PullerOk(n, k) && EvOk(n, ev, res) && (ev.PeerSeen? ==> 0 <= ev.peer < k)
    ensures PullerOk(Handle(n, ev).0, k)
  {
    EvSound(n, ev, res);
    EvGot(n, ev, res);
    EvLogs(n, ev, res);
    if ev.PeerSeen? {
      UncursoredPeer(n, ev.peer);
    }
    StaysPaired(n, Handle(n, ev).0, ev);
  }

  lemma EvChans(s: Net, i: int, ev: Event)
    requires 0 <= i < |s.hosts| && HostsOk(s) && ChansOk(s) && EvOk(s.hosts[i].puller, ev, EvRes(s, ev))
    ensures forall k: Key :: ChanOk(Handle(s.hosts[i].puller, ev).0, k, Res(s, k))
  {
    var n := s.hosts[i].puller;
    forall k: Key ensures ChanOk(Handle(n, ev).0, k, Res(s, k)) {
      assert ChanOk(n, k, Res(s, k));
      assert Answers(ev, k) ==> k == (ev.peer, ev.bin);
      EvChan(n, ev, EvRes(s, ev), k, Res(s, k));
    }
  }

  lemma FedChans(s: Net, i: int, n': Node)
    requires 0 <= i < |s.hosts| && ChansOk(s) && forall k: Key :: ChanOk(n', k, Res(s, k))
    ensures ChansOk(Fed(s, i, n'))
  {
    var s' := Fed(s, i, n');
    forall l, k: Key | 0 <= l < |s'.hosts| ensures ChanOk(s'.hosts[l].puller, k, Res(s', k)) {
      assert Res(s', k) == Res(s, k);
      assert l != i ==> ChanOk(s.hosts[l].puller, k, Res(s, k));
    }
  }

  /** The channel a message's offer is about. */
  ghost predicate About(msg: Msg, i: int, k: Key) {
    msg.node == i && match msg
      case Req(_, Offer(p, bin, _)) => (p, bin) == k
      case Resp(_, OfferResult(p, bin, _, _, _)) => (p, bin) == k
      case _ => false
  }

  /** Only the answer in hand is about its channel. */
  lemma HandIsAlone(s: Net, i: int, ev: Event, msg: Msg)
    requires NetInvWith(s, TokensOf(Resp(i, ev))) && ev.OfferResult? && msg in s.queue
    ensures !About(msg, i, (ev.peer, ev.bin))
  {
    var t := Off(i, (ev.peer, ev.bin));
    assert TokenOk(s, TokensOf(Resp(i, ev)), t);
    TokIn(s.queue, msg, t);
  }

  lemma HandIsUnparked(s: Net, i: int, ev: Event, j: int, h: Held)
    requires NetInvWith(s, TokensOf(Resp(i, ev))) && ev.OfferResult?
    requires 0 <= j < |s.hosts| && h in s.hosts[j].parked
    ensures !(h.0 == i && (j, h.1) == (ev.peer, ev.bin))
  {
    var t := Off(i, (ev.peer, ev.bin));
    assert TokenOk(s, TokensOf(Resp(i, ev)), t);
    HeldIn(j, s.hosts[j].parked, h);
  }

  /** Node `i` has moved on, but no channel of a message or a parked offer did. */
  ghost predicate MovedOn(s: Net, i: int, n': Node, k: Key) {
    && 0 <= i < |s.hosts|
    && s.hosts[i].puller.peers <= n'.peers
    && forall l: Key :: l != k ==> n'.LogAt(l).topmost == s.hosts[i].puller.LogAt(l).topmost
  }

  lemma FedMsg(s: Net, i: int, n': Node, k: Key, msg: Msg)
    requires MovedOn(s, i, n', k) && MsgOk(s, msg) && !About(msg, i, k)
    ensures MsgOk(Fed(s, i, n'), msg)
  {
    var s' := Fed(s, i, n');
    assert forall l: Key :: Res(s', l) == Res(s, l);
    if msg.Resp? && msg.ev.FetchResult? {
      forall o | o in msg.ev.outcomes ensures ServedOk(s', msg.ev.peer, o) {
        assert ServedOk(s, msg.ev.peer, o);
      }
    }
  }

  lemma FedPark(s: Net, i: int, n': Node, k: Key, j: int, h: Held)
    requires MovedOn(s, i, n', k) && ParkOk(s, j, h) && !(h.0 == i && (j, h.1) == k)
    ensures ParkOk(Fed(s, i, n'), j, h)
  {
  }

  function EvKey(ev: Event): Key {
    if ev.OfferResult? then (ev.peer, ev.bin) else (-1, 0)
  }

  lemma FeedMoved(s: Net, i: int, ev: Event)
    requires 0 <= i < |s.hosts| && HostsOk(s) && ChansOk(s) && EvOk(s.hosts[i].puller, ev, EvRes(s, ev))
    ensures MovedOn(s, i, Handle(s.hosts[i].puller, ev).0, EvKey(ev))
  {
    var n := s.hosts[i].puller;
    EvGot(n, ev, EvRes(s, ev));
    forall l: Key | l != EvKey(ev) ensures Handle(n, ev).0.LogAt(l).topmost == n.LogAt(l).topmost {
      assert ChanOk(n, l, Res(s, l));
      assert !Answers(ev, l);
      EvChan(n, ev, EvRes(s, ev), l, Res(s, l));
    }
  }

  lemma FedToken(s: Net, i: int, n': Node, fx: seq<Effect>, hand: multiset<Tok>, t: Tok)
    requires 0 <= i < |s.hosts| && TokenOk(s, hand, t)
    requires Owed(n', i, t) + hand[t] == Owed(s.hosts[i].puller, i, t) + Toks(Reqs(i, fx))[t]
    ensures TokenOk(Fed(s, i, n').(queue := s.queue + Reqs(i, fx)), multiset{}, t)
  {
    var s' := Fed(s, i, n').(queue := s.queue + Reqs(i, fx));
    ToksConcat(s.queue, Reqs(i, fx));
    assert ParkCount(s', t) == ParkCount(s, t);
    if t.node != i {
      CountElsewhere(i, fx, t);
    }
  }

  lemma {:induction false} ReqsFrom(i: int, fx: seq<Effect>, msg: Msg)
    requires msg in Reqs(i, fx)
    ensures msg.Req? && msg.node == i && msg.eff in fx
    decreases |fx|
  {
    if msg in Reqs(i, fx[..|fx| - 1]) {
      ReqsFrom(i, fx[..|fx| - 1], msg);
    }
  }

  lemma OffTheMap(s: Net, i: int, msg: Msg)
    requires MsgOk(s, msg) && HostsOk(s)
    ensures !About(msg, i, (-1, 0))
  {
  }

  /** Nothing in flight or parked is about channel `k` of node `i`. */
  ghost predicate Quiet(s: Net, i: int, k: Key) {
    && (forall msg :: msg in s.queue ==> !About(msg, i, k))
    && forall j, h: Held :: 0 <= j < |s.hosts| && h in s.hosts[j].parked ==> !(h.0 == i && (j, h.1) == k)
  }

  lemma HandQuiet(s: Net, i: int, ev: Event)
    requires 0 <= i < |s.hosts| && NetInvWith(s, TokensOf(Resp(i, ev)))
    ensures Quiet(s, i, EvKey(ev))
  {
    forall msg | msg in s.queue ensures !About(msg, i, EvKey(ev)) {
      assert MsgOk(s, msg);
      if ev.OfferResult? { HandIsAlone(s, i, ev, msg); } else { OffTheMap(s, i, msg); }
    }
    forall j, h: Held | 0 <= j < |s.hosts| && h in s.hosts[j].parked ensures !(h.0 == i && (j, h.1) == EvKey(ev)) {
      if ev.OfferResult? { HandIsUnparked(s, i, ev, j, h); }
    }
  }

  lemma FeedMsgs(s: Net, i: int, k: Key, n': Node)
    requires 0 <= i < |s.hosts| && MsgsOk(s) && ParksOk(s) && Quiet(s, i, k) && MovedOn(s, i, n', k)
    ensures MsgsOk(Fed(s, i, n')) && ParksOk(Fed(s, i, n'))
  {
    var s1 := Fed(s, i, n');
    forall msg | msg in s.queue ensures MsgOk(s1, msg) {
      assert MsgOk(s, msg);
      FedMsg(s, i, n', k, msg);
    }
    forall j, h: Held | 0 <= j < |s1.hosts| && h in s1.hosts[j].parked ensures ParkOk(s1, j, h) {
      assert h in s.hosts[j].parked && ParkOk(s, j, h);
      FedPark(s, i, n', k, j, h);
    }
  }

  lemma FedHosts(s: Net, i: int, n': Node)
    requires 0 <= i < |s.hosts| && HostsOk(s) && PullerOk(n', |s.hosts|)
    ensures HostsOk(Fed(s, i, n'))
  {
    var s1 := Fed(s, i, n');
    forall l | 0 <= l < |s1.hosts| ensures PullerOk(s1.hosts[l].puller, |s1.hosts|) && ReserveOk(s1.hosts[l], s1.place) {
      assert PullerOk(s.hosts[l].puller, |s.hosts|) && ReserveOk(s.hosts[l], s.place);
      assert forall bin :: s1.hosts[l].BinAt(bin) == s.hosts[l].BinAt(bin);
    }
  }

  /** New requests join the queue. */
  lemma ReqsKeep(s: Net, s': Net, i: int, fx: seq<Effect>)
    requires HostsOk(s) && ChansOk(s) && MsgsOk(s) && ParksOk(s) && 0 <= i < |s.hosts|
    requires s' == s.(queue := s.queue + Reqs(i, fx)) && forall e :: e in fx ==> EffOk(s.hosts[i].puller, e)
    ensures HostsOk(s') && ChansOk(s') && MsgsOk(s') && ParksOk(s')
  {
    SameNodesKeep(s, s');
    forall msg | msg in s'.queue ensures MsgOk(s', msg) {
      if msg in s.queue {
        SameNodesMsg(s, s', msg);
      } else {
        ReqsFrom(i, fx, msg);
      }
    }
  }

  /** Handling an event that is in hand keeps the invariant. */
  lemma FeedInv(s: Net, i: int, ev: Event)
    requires 0 <= i < |s.hosts| && NetInvWith(s, TokensOf(Resp(i, ev)))
    requires EvOk(s.hosts[i].puller, ev, EvRes(s, ev)) && (ev.PeerSeen? ==> 0 <= ev.peer < |s.hosts|)
    ensures NetInv(Feed(s, i, ev))
  {
    var n := s.hosts[i].puller;
    var (n', fx) := Handle(n, ev);
    var s1 := Fed(s, i, n');
    FeedMoved(s, i, ev);
    HandQuiet(s, i, ev);
    FeedMsgs(s, i, EvKey(ev), n');
    EvPullerOk(n, |s.hosts|, ev, EvRes(s, ev));
    FedHosts(s, i, n');
    EvChans(s, i, ev);
    FedChans(s, i, n');
    forall e | e in fx ensures EffOk(n', e) {
      EvEffectOk(n, ev, EvRes(s, ev), e);
    }
    ReqsKeep(s1, Feed(s, i, ev), i, fx);
    forall t ensures TokenOk(Feed(s, i, ev), multiset{}, t) {
      assert TokenOk(s, TokensOf(Resp(i, ev)), t);
      EvOwes(n, i, ev, EvRes(s, ev), t);
      FedToken(s, i, n', fx, TokensOf(Resp(i, ev)), t);
    }
  }
}
