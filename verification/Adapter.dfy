/** The bee-wire adapter (crates/wire/src/adapter.rs) on values: the fetch client, the offer
    client and the serving stream, over a codec whose projections are abstract. */
module Adapter {
  import opened Types
  import opened Settlement
  import opened Protobuf
  import opened Messages
  import Bitvector

  /** Identity to wire and back, and delivery validation: what a codec supplies. */
  datatype Codec = Codec(
    address: Triple -> Bytes,
    batchId: Triple -> Bytes,
    stampHash: Triple -> Bytes,
    stamp: Triple -> Bytes,
    data: Triple -> Bytes,
    tripleOf: (Bytes, Bytes, Bytes) -> Option<Triple>,
    tripleOfDelivery: Delivery -> Option<Triple>,
    validate: (Triple, Delivery) -> Outcome)
  {
    function ChunkOf(t: Triple): Chunk {
      Chunk(address(t), batchId(t), stampHash(t))
    }

    function DeliveryOf(t: Triple): Delivery {
      Delivery(address(t), data(t), stamp(t))
    }

    function Identify(c: Chunk): Option<Triple> {
      tripleOf(c.address, c.batchId, c.stampHash)
    }

    /** The codec is lawful on the triples in play. */
    ghost predicate LawfulOn(ts: seq<Triple>) {
      forall t :: t in ts ==> LawfulAt(t)
    }

    ghost predicate LawfulFor(entries: seq<(BinId, Triple)>) {
      forall e :: e in entries ==> LawfulAt(e.1)
    }

    /** The inverse laws, a non-zero address, and messages that fit a frame. */
    ghost predicate LawfulAt(t: Triple) {
      && Identify(ChunkOf(t)) == Some(t)
      && tripleOfDelivery(DeliveryOf(t)) == Some(t)
      && !AllZero(address(t))
      && ChunkFits(ChunkOf(t))
      && |address(t)| < U64 && |data(t)| < U64 && |stamp(t)| < U64
      && |EncodeDelivery(DeliveryOf(t))| <= MAX_FRAME
    }
  }

  /** Empty counts as zero. */
  predicate AllZero(b: Bytes) {
    forall i :: 0 <= i < |b| ==> b[i] == 0
  }

  datatype FetchState =
    | SendGet
    | AwaitOffer
    | AwaitDeliveries(pending: set<Triple>, remaining: nat)

  datatype Client = Client(
    bin: nat,
    start: nat,
    want: seq<Triple>,
    buf: Bytes,
    state: FetchState,
    outcomes: seq<(Triple, Outcome)>)

  /** What a client wants the shell to do next; Panic where the source panics. */
  datatype ClientOut =
    | Send(frames: Bytes)
    | Need
    | OfferDone(refs: seq<(BinId, Triple)>, topmost: nat)
    | FetchDone(outcomes: seq<(Triple, Outcome)>)
    | Panic

  function NewClient(bin: nat, start: nat, want: seq<Triple>): Client {
    Client(bin, start, want, [], SendGet, [])
  }

  // --- matching wants against the fresh offer --------------------------------------------------

  /** Does chunk `i` get picked: it names a wanted triple not picked before? */
  predicate Picks(codec: Codec, chunks: seq<Chunk>, want: seq<Triple>, i: nat)
    requires i < |chunks|
  {
    var t := codec.Identify(chunks[i]);
    t.Some? && t.value in want && t.value !in Picked(codec, chunks, want, i)
  }

  /** The triples picked from the first `i` chunks, in order. */
  function Picked(codec: Codec, chunks: seq<Chunk>, want: seq<Triple>, i: nat): seq<Triple>
    requires i <= |chunks|
  {
    if i == 0 then []
    else
      var before := Picked(codec, chunks, want, i - 1);
      var t := codec.Identify(chunks[i - 1]);
      if t.Some? && t.value in want && t.value !in before then before + [t.value] else before
  }

  function PickBits(codec: Codec, chunks: seq<Chunk>, want: seq<Triple>, i: nat): (bv: Bytes)
    requires i <= |chunks|
    ensures |bv| == Max(|chunks|, 1) / 8 + 1
  {
    if i == 0 then Bitvector.Empty(Max(|chunks|, 1))
    else
      var before := PickBits(codec, chunks, want, i - 1);
      if Picks(codec, chunks, want, i - 1) then Bitvector.Set(before, i - 1) else before
  }

  /** The wanted triples that were not picked, once for each time they are wanted. */
  function MissedOf(want: seq<Triple>, picked: seq<Triple>): seq<(Triple, Outcome)> {
    if want == [] then []
    else
      var t := want[|want| - 1];
      MissedOf(want[..|want| - 1], picked) + if t in picked then [] else [(t, Missed)]
  }

  function Members(s: seq<Triple>): set<Triple> {
    set t | t in s
  }

  // --- the client ----------------------------------------------------------------------------------

  ghost function Ascending(s: set<Triple>): seq<Triple> {
    if s == {} then [] else [MinOf(s)] + Ascending(s - {MinOf(s)})
  }

  function AllMissed(ts: seq<Triple>): seq<(Triple, Outcome)> {
    seq(|ts|, i requires 0 <= i < |ts| => (ts[i], Missed))
  }

  /** The stream ended: what is still pending is missed. */
  ghost function Close(c: Client): (Client, ClientOut) {
    match c.state
    case AwaitDeliveries(pending, _) =>
      (c.(state := AwaitDeliveries({}, 0), outcomes := []), FetchDone(c.outcomes + AllMissed(Ascending(pending))))
    case _ => (c.(outcomes := []), FetchDone(c.outcomes))
  }

  ghost function TakeOfferMessage(codec: Codec, c: Client, offer: Offer): (Client, ClientOut) {
    var chunks := offer.chunks;
    var picked := Picked(codec, chunks, c.want, |chunks|);
    var outcomes := c.outcomes + MissedOf(c.want, picked);
    if chunks == [] then Close(c.(outcomes := outcomes))
    else
      (c.(outcomes := outcomes, state := AwaitDeliveries(Members(picked), |Members(picked)|)),
       Send(Frame(EncodeWant(Want(PickBits(codec, chunks, c.want, |chunks|))))))
  }

  ghost function PollOffer(codec: Codec, c: Client): (Client, ClientOut) {
    match Deframe(c.buf)
    case NeedMore => (c, Need)
    case OverCap => (c, Panic)
    case Message(msg, n) =>
      var c' := c.(buf := c.buf[n..]);
      match DecodeOffer(msg)
      case None => (c', Panic)
      case Some(offer) => TakeOfferMessage(codec, c', offer)
  }

  /** One delivery: a zero address says the server no longer has it; an unsolicited one is
      ignored. */
  function TakeDelivery(codec: Codec, c: Client, d: Delivery): (c': Client)
    requires c.state.AwaitDeliveries? && c.state.remaining > 0
    ensures c'.state.AwaitDeliveries? && c'.state.remaining == c.state.remaining - 1 && c'.buf == c.buf
  {
    var pending, remaining := c.state.pending, c.state.remaining - 1;
    var t := codec.tripleOfDelivery(d);
    if AllZero(d.address) || t.None? || t.value !in pending then c.(state := AwaitDeliveries(pending, remaining))
    else
      c.(state := AwaitDeliveries(pending - {t.value}, remaining),
         outcomes := c.outcomes + [(t.value, codec.validate(t.value, d))])
  }

  ghost function PollDeliveries(codec: Codec, c: Client): (Client, ClientOut)
    requires c.state.AwaitDeliveries?
    decreases |c.buf|
  {
    if c.state.remaining == 0 then Close(c)
    else
      match Deframe(c.buf)
      case NeedMore => (c, Need)
      case OverCap => (c, Panic)
      case Message(msg, n) =>
        var c' := c.(buf := c.buf[n..]);
        match DecodeDelivery(msg)
        case None => (c', Panic)
        case Some(d) => PollDeliveries(codec, TakeDelivery(codec, c', d))
  }

  ghost function Poll(codec: Codec, c: Client, input: Bytes): (Client, ClientOut) {
    var c' := c.(buf := c.buf + input);
    match c.state
    case SendGet => (c'.(state := AwaitOffer), Send(Frame(EncodeGet(Get(c.bin, c.start)))))
    case AwaitOffer => PollOffer(codec, c')
    case AwaitDeliveries(_, _) => PollDeliveries(codec, c')
  }

  // --- the advertisement leg -----------------------------------------------------------------------

  /** Entry `i` of an offer from `start` is given position `start + i`. */
  function Positioned(codec: Codec, start: BinId, chunks: seq<Chunk>): seq<(BinId, Triple)> {
    if chunks == [] then []
    else
      var i := |chunks| - 1;
      Positioned(codec, start, chunks[..i]) +
        match codec.Identify(chunks[i]) case None => [] case Some(t) => [(start + i, t)]
  }

  // --- the serving side -------------------------------------------------------------------------------

  const MAX_PAGE: nat := 250

  datatype Reserve = Reserve(collect: (nat, nat, nat) -> (seq<(BinId, Triple)>, nat), has: Triple -> bool)

  datatype ServeState = AwaitGet | AwaitWant(offered: seq<(BinId, Triple)>)

  datatype Server = Server(buf: Bytes, state: ServeState)

  datatype ServerOut = Reply(frames: Bytes) | NeedInput | Done | Blocked(bin: nat, start: nat) | Crash

  function ChunksOf(codec: Codec, entries: seq<(BinId, Triple)>): seq<Chunk> {
    seq(|entries|, i requires 0 <= i < |entries| => codec.ChunkOf(entries[i].1))
  }

  const ZERO_ADDRESS: Bytes := seq(32, i => 0)

  /** What is no longer held is answered by a zero address. */
  function DeliveryFor(codec: Codec, has: Triple -> bool, t: Triple): Delivery {
    if has(t) then codec.DeliveryOf(t) else Delivery(ZERO_ADDRESS, [], [])
  }

  /** The deliveries for the entries whose bit is set, among the first `i`. */
  function Served(codec: Codec, has: Triple -> bool, entries: seq<(BinId, Triple)>, bv: Bytes, i: nat): seq<Delivery>
    requires i <= |entries|
  {
    if i == 0 then []
    else
      Served(codec, has, entries, bv, i - 1) +
        if Bitvector.Bit(bv, i - 1) then [DeliveryFor(codec, has, entries[i - 1].1)] else []
  }

  function EncodeAll(ds: seq<Delivery>): (msgs: seq<Bytes>)
    ensures |msgs| == |ds|
  {
    if ds == [] then [] else [EncodeDelivery(ds[0])] + EncodeAll(ds[1..])
  }

  function TakeGet(codec: Codec, reserve: Reserve, s: Server, get: Get): (Server, ServerOut) {
    var bin := get.bin % 256;
    var (entries, topmost) := reserve.collect(bin, get.start, MAX_PAGE);
    if entries == [] && topmost < get.start then (s, Blocked(bin, get.start))
    else
      var frame := Frame(EncodeOffer(Offer(topmost, ChunksOf(codec, entries))));
      (if entries == [] then s else s.(state := AwaitWant(entries)), Reply(frame))
  }

  function TakeWant(codec: Codec, reserve: Reserve, s: Server, offered: seq<(BinId, Triple)>, want: Want): (Server, ServerOut) {
    var frames := Frames(EncodeAll(Served(codec, reserve.has, offered, want.bitvector, |offered|)));
    (s, if frames == [] then Done else Reply(frames))
  }

  function Serve(codec: Codec, reserve: Reserve, s0: Server, input: Bytes): (Server, ServerOut) {
    var s := s0.(buf := s0.buf + input);
    match Deframe(s.buf)
    case NeedMore => (s, NeedInput)
    case OverCap => (s, Crash)
    case Message(msg, n) =>
      var s' := s.(buf := s.buf[n..]);
      match s.state
      case AwaitGet =>
        (match DecodeGet(msg) case None => (s', Crash) case Some(get) => TakeGet(codec, reserve, s', get))
      case AwaitWant(offered) =>
        (match DecodeWant(msg) case None => (s', Crash) case Some(want) => TakeWant(codec, reserve, s', offered, want))
  }
}
