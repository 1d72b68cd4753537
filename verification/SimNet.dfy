/** The k-node network (crates/sim/src/lib.rs): every node pulls and serves, over one pool of
    messages in flight. `Net` is the value of the simulation; each operation of the source is
    a function on it, with the random draws as arguments. */
module SimNet {
  import opened Types
  import opened Machine
  import opened MachineSafety
  import opened Settlement
  import opened NodeModel
  import opened NodeRuns

  const NBINS: int := 2
  const RADIUS: Bin := 1
  const PAGE: int := 4

  predicate InBins(bin: Bin) {
    RADIUS <= bin < RADIUS + NBINS
  }

  /** A message in flight: a request on its way out of `node`, or an answer on its way back. */
  datatype Msg =
    | Req(node: int, eff: Effect)
    | Resp(node: int, ev: Event)

  /** The cursor and offer handshake, as opposed to delivery. */
  predicate IsDiscovery(msg: Msg) {
    match msg
    case Req(_, eff) => eff.GetCursors? || eff.Offer?
    case Resp(_, ev) => ev.CursorsResult? || ev.OfferResult?
  }

  /** An offer held on an empty range. */
  type Held = (int, Bin, BinId)

  /** One node. The source keeps each bin's reserve as a map from BinID to triple whose ids
      are handed out as head + 1; here the bin is the sequence, and BinID b is position b - 1. */
  datatype Host = Host(
    puller: Node,
    byzantine: bool,
    reserve: map<Bin, seq<Triple>>,
    index: set<Triple>,
    parked: seq<Held>)
  {
    function BinAt(bin: Bin): seq<Triple> {
      if bin in reserve then reserve[bin] else []
    }

    function Head(bin: Bin): BinId {
      |BinAt(bin)|
    }
  }

  datatype Net = Net(
    hosts: seq<Host>,
    queue: seq<Msg>,
    served: seq<nat>,
    spurious: nat,
    concurrent: bool,
    place: Triple -> Bin)
  {
    ghost predicate Valid() {
      && |served| == |hosts|
      && (forall i :: 0 <= i < |hosts| ==> NodeInv(hosts[i].puller))
      && (forall msg :: msg in queue ==> Addressed(msg))
      && (forall i :: 0 <= i < |hosts| ==> forall h :: h in hosts[i].parked ==> 0 <= h.0 < |hosts|)
      && forall c :: InBins(place(c))
    }

    /** Every message names nodes of this network. */
    predicate Addressed(msg: Msg) {
      && 0 <= msg.node < |hosts|
      && match msg
         case Req(_, eff) => 0 <= eff.peer < |hosts|
         case Resp(_, ev) => !ev.Tick? && 0 <= ev.peer < |hosts|
    }
  }

  function Fresh(radius: Bin, policy: Policy, byzantine: bool): Host {
    Host(New(PRODUCTION, radius, policy), byzantine, map[], {}, [])
  }

  /** `k` empty nodes. */
  function NewNet(k: nat, byzantine: set<int>, policy: Policy, spurious: nat, concurrent: bool, place: Triple -> Bin): Net {
    Net(seq(k, i => Fresh(RADIUS, policy, i in byzantine)), [], seq(k, i => 0), spurious, concurrent, place)
  }

  function Reqs(i: int, fx: seq<Effect>): seq<Msg> {
    if fx == [] then [] else Reqs(i, fx[..|fx| - 1]) + [Req(i, fx[|fx| - 1])]
  }

  /** Node `i` handles an event; its effects go in flight. */
  ghost function Feed(s: Net, i: int, ev: Event): Net
    requires 0 <= i < |s.hosts| && NodeInv(s.hosts[i].puller)
  {
    var (n, fx) := Handle(s.hosts[i].puller, ev);
    s.(hosts := s.hosts[i := s.hosts[i].(puller := n)], queue := s.queue + Reqs(i, fx))
  }

  /** The entries of the page from `start`, at most PAGE of them. */
  function Page(bin: seq<Triple>, start: BinId): seq<(BinId, Triple)> {
    var first := Max(start, 1);
    var size := Max(0, Min(PAGE, |bin| - first + 1));
    seq(size, i requires 0 <= i < size => (first + i, bin[first + i - 1]))
  }

  /** Complete over its range: everything held from `start` to the page's last position. */
  function OfferResponse(h: Host, j: int, bin: Bin, start: BinId): Event {
    var refs := Page(h.BinAt(bin), start);
    var last := if refs == [] then start - 1 else refs[|refs| - 1].0;
    OfferResult(j, bin, start, refs, Max(last, start))
  }

  function Answerable(parked: seq<Held>, bin: Bin, head: BinId): seq<Held> {
    if parked == [] then []
    else
      var h := parked[|parked| - 1];
      Answerable(parked[..|parked| - 1], bin, head) + if h.1 == bin && head >= h.2 then [h] else []
  }

  function StillParked(parked: seq<Held>, bin: Bin, head: BinId): seq<Held> {
    if parked == [] then []
    else
      var h := parked[|parked| - 1];
      StillParked(parked[..|parked| - 1], bin, head) + if h.1 == bin && head >= h.2 then [] else [h]
  }

  function Responses(h: Host, j: int, ready: seq<Held>): seq<Msg> {
    if ready == [] then []
    else
      var r := ready[|ready| - 1];
      Responses(h, j, ready[..|ready| - 1]) + [Resp(r.0, OfferResponse(h, j, r.1, r.2))]
  }

  /** Node `i`'s reserve gains `c`: the bin grows, and the offers parked on it are answered. */
  function Store(s: Net, i: int, c: Triple): Net
    requires 0 <= i < |s.hosts|
  {
    var h := s.hosts[i];
    if c in h.index then s
    else
      var bin := s.place(c);
      var h1 := h.(index := h.index + {c}, reserve := h.reserve[bin := h.BinAt(bin) + [c]]);
      var h2 := h1.(parked := StillParked(h.parked, bin, h1.Head(bin)));
      s.(hosts := s.hosts[i := h2], queue := s.queue + Responses(h2, i, Answerable(h.parked, bin, h1.Head(bin))))
  }

  function StoreAll(s: Net, i: int, cs: seq<Triple>): (s': Net)
    requires 0 <= i < |s.hosts|
    ensures |s'.hosts| == |s.hosts|
  {
    if cs == [] then s else Store(StoreAll(s, i, cs[..|cs| - 1]), i, cs[|cs| - 1])
  }

  /** Node `i` comes to hold `c` from outside: an initial holding, or an upload landing. */
  function Hold(s: Net, i: int, c: Triple): Net
    requires 0 <= i < |s.hosts|
  {
    var h := s.hosts[i];
    var n := h.puller.(m := h.puller.m.Preload(c));
    Store(s.(hosts := s.hosts[i := h.(puller := n)]), i, c)
  }

  // --- delivering one message ------------------------------------------------------------

  /** The source's removal: the last message takes the place of the one taken. */
  function SwapRemove(q: seq<Msg>, idx: nat): seq<Msg>
    requires idx < |q|
  {
    if idx == |q| - 1 then q[..idx] else q[..|q| - 1][idx := q[|q| - 1]]
  }

  /** Concurrent discovery answers the handshake first. */
  predicate MayTake(s: Net, idx: nat) {
    && idx < |s.queue|
    && (s.concurrent ==> IsDiscovery(s.queue[idx]) || forall m :: m in s.queue ==> !IsDiscovery(m))
  }

  function Cursors(h: Host): seq<(Bin, BinId)> {
    seq(NBINS, i requires 0 <= i < NBINS => (RADIUS + i, h.Head(RADIUS + i)))
  }

  /** One want at the serving side: an omission, a spurious miss if the draw says so and the
      budget allows, a miss if the node does not hold it, or a delivery. */
  function Serve(h: Host, c: Triple, budget: nat, draw: bool): (Outcome, nat) {
    if h.byzantine then (Missed, budget)
    else if budget > 0 && draw then (Missed, budget - 1)
    else if c !in h.index then (Missed, budget)
    else (Delivered, budget)
  }

  function ServeAll(h: Host, want: seq<Triple>, budget: nat, luck: set<nat>): (r: (seq<(Triple, Outcome)>, nat))
    ensures |r.0| == |want|
  {
    if want == [] then ([], budget)
    else
      var (os, b) := ServeAll(h, want[..|want| - 1], budget, luck);
      var c := want[|want| - 1];
      var (o, b') := Serve(h, c, b, |want| - 1 in luck);
      (os + [(c, o)], b')
  }

  function DeliveredIn(os: seq<(Triple, Outcome)>): seq<Triple> {
    if os == [] then []
    else DeliveredIn(os[..|os| - 1]) + if os[|os| - 1].1 == Delivered then [os[|os| - 1].0] else []
  }

  /** A request reaches the peer it names. */
  function Answer(s: Net, i: int, eff: Effect, luck: set<nat>): Net
    requires 0 <= eff.peer < |s.hosts| == |s.served|
  {
    var j := eff.peer;
    var h := s.hosts[j];
    match eff
    case GetCursors(_) => s.(queue := s.queue + [Resp(i, CursorsResult(j, Cursors(h)))])
    case Offer(_, bin, start) =>
      if h.Head(bin) >= start then s.(queue := s.queue + [Resp(i, OfferResponse(h, j, bin, start))])
      else s.(hosts := s.hosts[j := h.(parked := h.parked + [(i, bin, start)])])
    case Fetch(_, bin, want) =>
      var (os, budget) := ServeAll(h, want, s.spurious, luck);
      s.(queue := s.queue + [Resp(i, FetchResult(j, bin, os))],
         spurious := budget,
         served := s.served[j := s.served[j] + |DeliveredIn(os)|])
    case Settled(_, _, _) => s
  }

  /** An answer reaches the node that asked; what it delivered, the node now serves. */
  ghost function Receive(s: Net, i: int, ev: Event): Net
    requires 0 <= i < |s.hosts| && NodeInv(s.hosts[i].puller)
  {
    StoreAll(Feed(s, i, ev), i, if ev.FetchResult? then DeliveredIn(ev.outcomes) else [])
  }

  /** Deliver the message at `idx`. */
  ghost function Step(s: Net, idx: nat, luck: set<nat>): Net
    requires s.Valid() && MayTake(s, idx)
  {
    var msg := s.queue[idx];
    assert s.Addressed(msg);
    var s0 := s.(queue := SwapRemove(s.queue, idx));
    match msg
    case Req(i, eff) => Answer(s0, i, eff, luck)
    case Resp(i, ev) => Receive(s0, i, ev)
  }

  predicate Quiescent(s: Net) {
    s.queue == []
  }
}
