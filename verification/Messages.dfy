/** The pull-sync messages and the want bitvector (crates/wire/src/pb.rs; Protocol Buffers
    Encoding, "Packed Repeated Fields"). */
module Messages {
  import opened Types
  import opened Protobuf

  datatype Get = Get(bin: nat, start: nat)
  datatype Chunk = Chunk(address: Bytes, batchId: Bytes, stampHash: Bytes)
  datatype Offer = Offer(topmost: nat, chunks: seq<Chunk>)
  datatype Want = Want(bitvector: Bytes)
  datatype Delivery = Delivery(address: Bytes, data: Bytes, stamp: Bytes)
  datatype Ack = Ack(cursors: seq<nat>, epoch: nat)

  /** A message read field by field. */
  function Fold<M>(step: (M, Field) -> M, m: M, fs: seq<Field>): M
    decreases |fs|
  {
    if fs == [] then m else Fold(step, step(m, fs[0]), fs[1..])
  }

  lemma {:induction false} FoldConcat<M>(step: (M, Field) -> M, m: M, a: seq<Field>, b: seq<Field>)
    ensures Fold(step, m, a + b) == Fold(step, Fold(step, m, a), b)
    decreases |a|
  {
    if a == [] {
      assert a + b == b;
    } else {
      assert (a + b)[1..] == a[1..] + b;
      FoldConcat(step, step(m, a[0]), a[1..], b);
    }
  }

  function EncodeGet(m: Get): Bytes {
    VarintField(1, m.bin) + VarintField(2, m.start)
  }

  function GetField(m: Get, f: Field): Get {
    match f.number
    case 1 => m.(bin := VarintOf(f.payload) % U32)
    case 2 => m.(start := VarintOf(f.payload))
    case _ => m
  }

  function DecodeGet(b: Bytes): Option<Get> {
    match Fields(b) case None => None case Some(fs) => Some(Fold(GetField, Get(0, 0), fs))
  }

  /** Three length-delimited fields: the shape chunks and deliveries share. */
  datatype Triplet = Triplet(one: Bytes, two: Bytes, three: Bytes)

  function EncodeTriplet(m: Triplet): Bytes {
    BytesField(1, m.one) + (BytesField(2, m.two) + BytesField(3, m.three))
  }

  function TripletField(m: Triplet, f: Field): Triplet {
    match f.number
    case 1 => m.(one := f.payload)
    case 2 => m.(two := f.payload)
    case 3 => m.(three := f.payload)
    case _ => m
  }

  function DecodeTriplet(b: Bytes): Option<Triplet> {
    match Fields(b) case None => None case Some(fs) => Some(Fold(TripletField, Triplet([], [], []), fs))
  }

  function EncodeChunk(m: Chunk): Bytes {
    EncodeTriplet(Triplet(m.address, m.batchId, m.stampHash))
  }

  function DecodeChunk(b: Bytes): Option<Chunk> {
    match DecodeTriplet(b) case None => None case Some(t) => Some(Chunk(t.one, t.two, t.three))
  }

  function EncodeDelivery(m: Delivery): Bytes {
    EncodeTriplet(Triplet(m.address, m.data, m.stamp))
  }

  function DecodeDelivery(b: Bytes): Option<Delivery> {
    match DecodeTriplet(b) case None => None case Some(t) => Some(Delivery(t.one, t.two, t.three))
  }

  function EncodeChunks(cs: seq<Chunk>): Bytes {
    if cs == [] then [] else BytesField(2, EncodeChunk(cs[0])) + EncodeChunks(cs[1..])
  }

  function EncodeOffer(m: Offer): Bytes {
    VarintField(1, m.topmost) + EncodeChunks(m.chunks)
  }

  /** A chunk that does not decode spoils the offer. */
  function OfferField(m: Option<Offer>, f: Field): Option<Offer> {
    match m
    case None => None
    case Some(offer) =>
      match f.number
      case 1 => Some(offer.(topmost := VarintOf(f.payload)))
      case 2 =>
        (match DecodeChunk(f.payload)
         case None => None
         case Some(c) => Some(offer.(chunks := offer.chunks + [c])))
      case _ => m
  }

  function DecodeOffer(b: Bytes): Option<Offer> {
    match Fields(b) case None => None case Some(fs) => Fold(OfferField, Some(Offer(0, [])), fs)
  }

  function EncodeWant(m: Want): Bytes {
    BytesField(1, m.bitvector)
  }

  function WantField(m: Want, f: Field): Want {
    if f.number == 1 then Want(f.payload) else m
  }

  function DecodeWant(b: Bytes): Option<Want> {
    match Fields(b) case None => None case Some(fs) => Some(Fold(WantField, Want([]), fs))
  }

  function Packed(vs: seq<nat>): Bytes {
    if vs == [] then [] else Varint(vs[0]) + Packed(vs[1..])
  }

  function Unpacked(b: Bytes): seq<nat>
    decreases |b|
  {
    match GetUvarint(b)
    case None => []
    case Some((v, n)) => [v] + if b[n..] == [] then [] else Unpacked(b[n..])
  }

  function EncodeAck(m: Ack): Bytes {
    BytesField(1, Packed(m.cursors)) + VarintField(2, m.epoch)
  }

  /** Cursors may come packed or one by one. */
  function AckField(m: Ack, f: Field): Ack {
    if f.number == 1 && f.wire == 2 then m.(cursors := m.cursors + Unpacked(f.payload))
    else if f.number == 1 && f.wire == 0 then m.(cursors := m.cursors + [VarintOf(f.payload)])
    else if f.number == 2 then m.(epoch := VarintOf(f.payload))
    else m
  }

  function DecodeAck(b: Bytes): Option<Ack> {
    match Fields(b) case None => None case Some(fs) => Some(Fold(AckField, Ack([], 0), fs))
  }

  // --- round trips -----------------------------------------------------------------------------

  /** What an encoded varint field decodes to: itself, or nothing if it was zero. */
  function VarintFields(number: nat, v: nat): seq<Field> {
    if v == 0 then [] else [Field(number, 0, Varint(v))]
  }

  function BytesFields(number: nat, b: Bytes): seq<Field> {
    if b == [] then [] else [Field(number, 2, b)]
  }

  lemma VarintFieldThen(number: nat, v: nat, rest: Bytes)
    requires v < U64 && 8 * number < U32
    ensures Fields(VarintField(number, v) + rest) == Then(VarintFields(number, v), Fields(rest))
  {
    if v == 0 {
      assert VarintField(number, v) + rest == rest;
      assert Fields(rest).Some? ==> [] + Fields(rest).value == Fields(rest).value;
    } else {
      ReadVarintField(number, v, rest);
    }
  }

  lemma BytesFieldThen(number: nat, b: Bytes, rest: Bytes)
    requires |b| < U64 && 8 * number + 2 < U32
    ensures Fields(BytesField(number, b) + rest) == Then(BytesFields(number, b), Fields(rest))
  {
    if b == [] {
      assert BytesField(number, b) + rest == rest;
      assert Fields(rest).Some? ==> [] + Fields(rest).value == Fields(rest).value;
    } else {
      ReadBytesField(number, b, rest);
    }
  }

  lemma EndsHere(b: Bytes)
    ensures b + [] == b && Fields([]) == Some([])
  {
  }

  lemma GetRoundTrip(m: Get)
    requires m.bin < U32 && m.start < U64
    ensures DecodeGet(EncodeGet(m)) == Some(m)
  {
    VarintFieldThen(1, m.bin, VarintField(2, m.start));
    VarintFieldThen(2, m.start, []);
    EndsHere(VarintField(2, m.start));
    var one, two := VarintFields(1, m.bin), VarintFields(2, m.start);
    assert two + [] == two;
    FoldConcat(GetField, Get(0, 0), one, two);
    BinFolds(m.bin);
    StartFolds(m.bin, m.start);
  }

  lemma BinFolds(bin: nat)
    requires bin < U32
    ensures Fold(GetField, Get(0, 0), VarintFields(1, bin)) == Get(bin, 0)
  {
    VarintOfVarint(bin);
  }

  lemma StartFolds(bin: nat, start: nat)
    requires start < U64
    ensures Fold(GetField, Get(bin, 0), VarintFields(2, start)) == Get(bin, start)
  {
    VarintOfVarint(start);
  }

  lemma TripletRoundTrip(m: Triplet)
    requires |m.one| < U64 && |m.two| < U64 && |m.three| < U64
    ensures DecodeTriplet(EncodeTriplet(m)) == Some(m)
  {
    BytesFieldThen(1, m.one, BytesField(2, m.two) + BytesField(3, m.three));
    BytesFieldThen(2, m.two, BytesField(3, m.three));
    BytesFieldThen(3, m.three, []);
    EndsHere(BytesField(3, m.three));
    var one, two, three := BytesFields(1, m.one), BytesFields(2, m.two), BytesFields(3, m.three);
    assert three + [] == three;
    FoldConcat(TripletField, Triplet([], [], []), one, two + three);
    FoldConcat(TripletField, Triplet(m.one, [], []), two, three);
  }

  lemma ChunkRoundTrip(m: Chunk)
    requires |m.address| < U64 && |m.batchId| < U64 && |m.stampHash| < U64
    ensures DecodeChunk(EncodeChunk(m)) == Some(m)
  {
    TripletRoundTrip(Triplet(m.address, m.batchId, m.stampHash));
  }

  lemma DeliveryRoundTrip(m: Delivery)
    requires |m.address| < U64 && |m.data| < U64 && |m.stamp| < U64
    ensures DecodeDelivery(EncodeDelivery(m)) == Some(m)
  {
    TripletRoundTrip(Triplet(m.address, m.data, m.stamp));
  }

  lemma WantRoundTrip(m: Want)
    requires |m.bitvector| < U64
    ensures DecodeWant(EncodeWant(m)) == Some(m)
  {
    BytesFieldThen(1, m.bitvector, []);
    EndsHere(EncodeWant(m));
    var fs := BytesFields(1, m.bitvector);
    assert fs + [] == fs;
    assert Fields(EncodeWant(m)) == Some(fs);
    assert Fold(WantField, Want([]), fs) == m;
  }

  /** A chunk all of whose fields are empty encodes to nothing, and is not on the wire. */
  predicate Named(c: Chunk) {
    c.address != [] || c.batchId != [] || c.stampHash != []
  }

  function NamedOnly(cs: seq<Chunk>): seq<Chunk> {
    if cs == [] then [] else (if Named(cs[0]) then [cs[0]] else []) + NamedOnly(cs[1..])
  }

  ghost predicate ChunkFits(c: Chunk) {
    |c.address| < U64 && |c.batchId| < U64 && |c.stampHash| < U64 && |EncodeChunk(c)| < U64
  }

  function ChunkFields(cs: seq<Chunk>): seq<Field> {
    if cs == [] then [] else BytesFields(2, EncodeChunk(cs[0])) + ChunkFields(cs[1..])
  }

  lemma {:induction false} ChunksThen(cs: seq<Chunk>)
    requires forall c :: c in cs ==> ChunkFits(c)
    ensures Fields(EncodeChunks(cs)) == Some(ChunkFields(cs))
    decreases |cs|
  {
    if cs != [] {
      assert cs[0] in cs;
      ChunksThen(cs[1..]);
      BytesFieldThen(2, EncodeChunk(cs[0]), EncodeChunks(cs[1..]));
    }
  }

  lemma EmptyEncoding(c: Chunk)
    ensures EncodeChunk(c) == [] <==> !Named(c)
  {
    var a, b, s := BytesField(1, c.address), BytesField(2, c.batchId), BytesField(3, c.stampHash);
    assert (a == [] <==> c.address == []) && (b == [] <==> c.batchId == []) && (s == [] <==> c.stampHash == []);
    assert |a + (b + s)| == |a| + |b| + |s|;
  }

  lemma ChunkFolds(offer: Offer, c: Chunk)
    requires ChunkFits(c)
    ensures Fold(OfferField, Some(offer), BytesFields(2, EncodeChunk(c))) ==
      Some(offer.(chunks := offer.chunks + if Named(c) then [c] else []))
  {
    EmptyEncoding(c);
    ChunkRoundTrip(c);
    assert offer.chunks + [] == offer.chunks;
  }

  lemma {:induction false} ChunksFold(topmost: nat, front: seq<Chunk>, cs: seq<Chunk>)
    requires forall c :: c in cs ==> ChunkFits(c)
    ensures Fold(OfferField, Some(Offer(topmost, front)), ChunkFields(cs)) == Some(Offer(topmost, front + NamedOnly(cs)))
    decreases |cs|
  {
    if cs == [] {
      assert front + NamedOnly(cs) == front;
    } else {
      var c, rest := cs[0], cs[1..];
      assert c in cs;
      var one, mine := BytesFields(2, EncodeChunk(c)), if Named(c) then [c] else [];
      FoldConcat(OfferField, Some(Offer(topmost, front)), one, ChunkFields(rest));
      ChunkFolds(Offer(topmost, front), c);
      ChunksFold(topmost, front + mine, rest);
      assert (front + mine) + NamedOnly(rest) == front + (mine + NamedOnly(rest));
    }
  }

  /** What an offer decodes to: itself without the chunks that name nothing. */
  lemma OfferReads(m: Offer)
    requires m.topmost < U64 && forall c :: c in m.chunks ==> ChunkFits(c)
    ensures DecodeOffer(EncodeOffer(m)) == Some(m.(chunks := NamedOnly(m.chunks)))
  {
    ChunksThen(m.chunks);
    VarintFieldThen(1, m.topmost, EncodeChunks(m.chunks));
    FoldConcat(OfferField, Some(Offer(0, [])), VarintFields(1, m.topmost), ChunkFields(m.chunks));
    VarintOfVarint(m.topmost);
    ChunksFold(m.topmost, [], m.chunks);
    assert [] + NamedOnly(m.chunks) == NamedOnly(m.chunks);
  }

  lemma {:induction false} NamedOnlyIsAll(cs: seq<Chunk>)
    ensures |NamedOnly(cs)| <= |cs|
    ensures NamedOnly(cs) == cs <==> forall c :: c in cs ==> Named(c)
    decreases |cs|
  {
    if cs != [] {
      NamedOnlyIsAll(cs[1..]);
      assert cs == [cs[0]] + cs[1..];
      if Named(cs[0]) && NamedOnly(cs) == cs {
        assert NamedOnly(cs)[1..] == NamedOnly(cs[1..]);
      }
    }
  }

  /** An offer survives the wire exactly if each of its chunks has a non-empty field. */
  lemma OfferRoundTrip(m: Offer)
    requires m.topmost < U64 && forall c :: c in m.chunks ==> ChunkFits(c)
    ensures DecodeOffer(EncodeOffer(m)) == Some(m) <==> forall c :: c in m.chunks ==> Named(c)
  {
    OfferReads(m);
    NamedOnlyIsAll(m.chunks);
  }

  /** The smallest offer that does not survive: one chunk that names nothing. */
  lemma EmptyChunkVanishes()
    ensures DecodeOffer(EncodeOffer(Offer(1, [Chunk([], [], [])]))) == Some(Offer(1, []))
  {
    var c := Chunk([], [], []);
    EmptyEncoding(c);
    OfferReads(Offer(1, [c]));
    assert [c][1..] == [];
  }

  lemma {:induction false} PackedRoundTrip(vs: seq<nat>)
    requires forall v :: v in vs ==> v < U64
    ensures Unpacked(Packed(vs)) == vs
    decreases |vs|
  {
    if vs != [] {
      assert vs[0] in vs && forall v :: v in vs[1..] ==> v in vs;
      VarintRoundTrip(vs[0], Packed(vs[1..]));
      assert Packed(vs)[|Varint(vs[0])|..] == Packed(vs[1..]);
      PackedRoundTrip(vs[1..]);
      if Packed(vs[1..]) == [] { assert vs[1..] == []; }
      assert vs == [vs[0]] + vs[1..];
    }
  }

  lemma AckRoundTrip(m: Ack)
    requires m.epoch < U64 && |Packed(m.cursors)| < U64 && forall v :: v in m.cursors ==> v < U64
    ensures DecodeAck(EncodeAck(m)) == Some(m)
  {
    BytesFieldThen(1, Packed(m.cursors), VarintField(2, m.epoch));
    VarintFieldThen(2, m.epoch, []);
    EndsHere(VarintField(2, m.epoch));
    var one, two := BytesFields(1, Packed(m.cursors)), VarintFields(2, m.epoch);
    assert two + [] == two;
    FoldConcat(AckField, Ack([], 0), one, two);
    PackedRoundTrip(m.cursors);
    VarintOfVarint(m.epoch);
    assert [] + m.cursors == m.cursors;
    assert Packed(m.cursors) == [] ==> m.cursors == [];
  }
}
