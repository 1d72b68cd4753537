/** The wire format itself (crates/protobuf/src/lib.rs, crates/wire/src/pb.rs; Protocol Buffers
    Encoding, "Base 128 Varints", "Length-Delimited Records", "Packed Repeated Fields"): which
    bytes stand for what, stated apart from the functions that write and read them. */
module WireFormat {
  import opened Types
  import opened Protobuf
  import opened Messages
  import opened Bitvector

  // --- varints ------------------------------------------------------------------------------------

  /** Base 128, least significant digit first, continuation bits ignored. */
  function Value(b: Bytes): nat {
    if b == [] then 0 else b[0] % 128 + 128 * Value(b[1..])
  }

  /** All bytes but the last say that more follow, and the last is not a superfluous zero. */
  predicate Canonical(b: Bytes) {
    && b != [] && b[|b| - 1] < 128 && (|b| > 1 ==> b[|b| - 1] != 0)
    && forall i :: 0 <= i < |b| - 1 ==> b[i] >= 128
  }

  /** A varint is the one canonical spelling of its value. */
  lemma {:induction false} VarintSpells(v: nat)
    ensures Canonical(Varint(v)) && Value(Varint(v)) == v
    ensures v > 0 ==> Varint(v)[|Varint(v)| - 1] != 0
    decreases v
  {
    if v >= 128 {
      VarintSpells(v / 128);
      var rest := Varint(v / 128);
      assert Varint(v)[1..] == rest;
      assert Varint(v)[|Varint(v)| - 1] == rest[|rest| - 1];
    }
  }

  lemma {:induction false} ReadsTo(b: Bytes, n: nat, limit: nat)
    requires n < |b| && n < limit && b[n] < 128 && forall i :: 0 <= i < n ==> b[i] >= 128
    ensures Unvarint(b, limit) == Some((Value(b[..n + 1]), n + 1))
    decreases n
  {
    if n == 0 {
      assert b[..1][1..] == [];
    } else {
      ReadsTo(b[1..], n - 1, limit - 1);
      assert b[..n + 1][1..] == b[1..][..n];
    }
  }

  lemma {:induction false} ReadsNothing(b: Bytes, limit: nat)
    requires forall i :: 0 <= i < |b| && i < limit ==> b[i] >= 128
    ensures Unvarint(b, limit) == None
    decreases limit
  {
    if limit > 0 && b != [] {
      ReadsNothing(b[1..], limit - 1);
    }
  }

  /** What is read of a buffer: up to the first byte that says no more follow, if it is among the
      first ten; its value modulo 2^64. Nothing otherwise. */
  lemma UvarintReads(b: Bytes, n: nat)
    requires n < |b| && b[n] < 128 && forall i :: 0 <= i < n ==> b[i] >= 128
    ensures GetUvarint(b) == if n < 10 then Some((Value(b[..n + 1]) % 0x1_0000_0000_0000_0000, n + 1)) else None
  {
    if n < 10 {
      ReadsTo(b, n, 10);
    } else {
      ReadsNothing(b, 10);
    }
  }

  lemma UvarintWaits(b: Bytes)
    requires forall i :: 0 <= i < |b| ==> b[i] >= 128
    ensures GetUvarint(b) == None
  {
    ReadsNothing(b, 10);
  }

  // --- frames and fields -----------------------------------------------------------------------------

  /** A frame is the length of its message and the message; one over 128 KiB is refused on sight. */
  lemma FrameIs(msg: Bytes, tail: Bytes)
    requires |msg| < U64
    ensures exists n :: 0 < n <= |Frame(msg)| && GetUvarint(Frame(msg) + tail) == Some((|msg|, n)) && Frame(msg)[n..] == msg
    ensures Deframe(Frame(msg) + tail) == OverCap <==> |msg| > 131072
  {
    var n := |Varint(|msg|)|;
    VarintRoundTrip(|msg|, msg + tail);
    assert Frame(msg) + tail == Varint(|msg|) + (msg + tail);
    assert Frame(msg)[n..] == msg;
  }

  /** The tag of a field: eight times its number, plus 0 for a varint and 2 for bytes. */
  lemma TagsAre(number: nat, v: nat, b: Bytes)
    requires 8 * number + 2 < U32 && v != 0 && b != []
    ensures GetUvarint(VarintField(number, v)).Some? && GetUvarint(VarintField(number, v)).value.0 == 8 * number
    ensures GetUvarint(BytesField(number, b)).Some? && GetUvarint(BytesField(number, b)).value.0 == 8 * number + 2
  {
    VarintRoundTrip(8 * number, Varint(v));
    VarintRoundTrip(8 * number + 2, Varint(|b|) + b);
    assert BytesField(number, b) == Varint(8 * number + 2) + (Varint(|b|) + b);
  }

  /** Fixed-width fields are four bytes for wire type 5 and eight for 1; the group types and the
      unassigned ones are refused, as is a payload cut short. */
  lemma FixedPayloads(number: nat, wire: nat, b: Bytes)
    requires wire != 0 && wire != 2
    ensures var size := if wire == 5 then 4 else 8;
      FieldsAfter(number, wire, b) ==
        if (wire == 5 || wire == 1) && |b| >= size then Cons(Field(number, wire, b[..size]), Fields(b[size..])) else None
  {
  }

  // --- what each message puts on the wire ----------------------------------------------------------------

  function Number(number: nat, v: nat): seq<Field> {
    if v == 0 then [] else [Field(number, 0, Varint(v))]
  }

  function Blob(number: nat, b: Bytes): seq<Field> {
    if b == [] then [] else [Field(number, 2, b)]
  }

  lemma GetIs(m: Get)
    requires m.bin < U32 && m.start < U64
    ensures Fields(EncodeGet(m)) == Some(Number(1, m.bin) + Number(2, m.start))
  {
    VarintFieldThen(1, m.bin, VarintField(2, m.start));
    EndsHere(VarintField(2, m.start));
    VarintFieldThen(2, m.start, []);
    assert VarintFields(2, m.start) + [] == VarintFields(2, m.start);
  }

  lemma TripletIs(one: Bytes, two: Bytes, three: Bytes)
    requires |one| < U64 && |two| < U64 && |three| < U64
    ensures Fields(EncodeTriplet(Triplet(one, two, three))) == Some(Blob(1, one) + (Blob(2, two) + Blob(3, three)))
  {
    BytesFieldThen(1, one, BytesField(2, two) + BytesField(3, three));
    BytesFieldThen(2, two, BytesField(3, three));
    EndsHere(BytesField(3, three));
    BytesFieldThen(3, three, []);
    assert BytesFields(3, three) + [] == BytesFields(3, three);
  }

  /** A chunk: address, batch id, stamp hash. */
  lemma ChunkIs(m: Chunk)
    requires |m.address| < U64 && |m.batchId| < U64 && |m.stampHash| < U64
    ensures Fields(EncodeChunk(m)) == Some(Blob(1, m.address) + (Blob(2, m.batchId) + Blob(3, m.stampHash)))
  {
    TripletIs(m.address, m.batchId, m.stampHash);
  }

  /** A delivery: address, data, stamp. */
  lemma DeliveryIs(m: Delivery)
    requires |m.address| < U64 && |m.data| < U64 && |m.stamp| < U64
    ensures Fields(EncodeDelivery(m)) == Some(Blob(1, m.address) + (Blob(2, m.data) + Blob(3, m.stamp)))
  {
    TripletIs(m.address, m.data, m.stamp);
  }

  lemma WantIs(m: Want)
    requires |m.bitvector| < U64
    ensures Fields(EncodeWant(m)) == Some(Blob(1, m.bitvector))
  {
    EndsHere(EncodeWant(m));
    BytesFieldThen(1, m.bitvector, []);
    assert BytesFields(1, m.bitvector) + [] == BytesFields(1, m.bitvector);
  }

  /** The chunks of an offer, each a field of its own. */
  function Blobs(cs: seq<Chunk>): seq<Field> {
    if cs == [] then [] else Blob(2, EncodeChunk(cs[0])) + Blobs(cs[1..])
  }

  lemma {:induction false} BlobsAre(cs: seq<Chunk>)
    ensures ChunkFields(cs) == Blobs(cs)
    decreases |cs|
  {
    if cs != [] { BlobsAre(cs[1..]); }
  }

  lemma OfferIs(m: Offer)
    requires m.topmost < U64 && forall c :: c in m.chunks ==> ChunkFits(c)
    ensures Fields(EncodeOffer(m)) == Some(Number(1, m.topmost) + Blobs(m.chunks))
  {
    ChunksThen(m.chunks);
    BlobsAre(m.chunks);
    VarintFieldThen(1, m.topmost, EncodeChunks(m.chunks));
  }

  lemma AckIs(m: Ack)
    requires m.epoch < U64 && |Packed(m.cursors)| < U64
    ensures Fields(EncodeAck(m)) == Some(Blob(1, Packed(m.cursors)) + Number(2, m.epoch))
  {
    BytesFieldThen(1, Packed(m.cursors), VarintField(2, m.epoch));
    EndsHere(VarintField(2, m.epoch));
    VarintFieldThen(2, m.epoch, []);
    assert VarintFields(2, m.epoch) + [] == VarintFields(2, m.epoch);
  }

  // --- what each message is read as -------------------------------------------------------------------------

  /** The payload of the last field of a number. */
  function Last(fs: seq<Field>, number: nat): Option<Bytes> {
    if fs == [] then None
    else if fs[|fs| - 1].number == number then Some(fs[|fs| - 1].payload)
    else Last(fs[..|fs| - 1], number)
  }

  function LastNumber(fs: seq<Field>, number: nat): nat {
    match Last(fs, number) case None => 0 case Some(p) => VarintOf(p)
  }

  function LastBlob(fs: seq<Field>, number: nat): Bytes {
    match Last(fs, number) case None => [] case Some(p) => p
  }

  lemma FoldSnoc<M>(step: (M, Field) -> M, m: M, fs: seq<Field>)
    requires fs != []
    ensures Fold(step, m, fs) == step(Fold(step, m, fs[..|fs| - 1]), fs[|fs| - 1])
  {
    var front, last := fs[..|fs| - 1], fs[|fs| - 1];
    assert fs == front + [last];
    FoldConcat(step, m, front, [last]);
    assert [last][1..] == [];
  }

  lemma {:induction false} GetFolds(fs: seq<Field>)
    ensures Fold(GetField, Get(0, 0), fs) == Get(LastNumber(fs, 1) % U32, LastNumber(fs, 2))
    decreases |fs|
  {
    if fs != [] {
      FoldSnoc(GetField, Get(0, 0), fs);
      GetFolds(fs[..|fs| - 1]);
    }
  }

  /** Unknown fields are skipped, the last of a number counts, and what does not split into fields
      is refused. */
  lemma GetReads(b: Bytes)
    ensures DecodeGet(b) == match Fields(b) case None => None
      case Some(fs) => Some(Get(LastNumber(fs, 1) % 0x1_0000_0000, LastNumber(fs, 2)))
  {
    if Fields(b).Some? { GetFolds(Fields(b).value); }
  }

  lemma {:induction false} TripletFolds(fs: seq<Field>)
    ensures Fold(TripletField, Triplet([], [], []), fs) == Triplet(LastBlob(fs, 1), LastBlob(fs, 2), LastBlob(fs, 3))
    decreases |fs|
  {
    if fs != [] {
      FoldSnoc(TripletField, Triplet([], [], []), fs);
      TripletFolds(fs[..|fs| - 1]);
    }
  }

  lemma ChunkReads(b: Bytes)
    ensures DecodeChunk(b) == match Fields(b) case None => None
      case Some(fs) => Some(Chunk(LastBlob(fs, 1), LastBlob(fs, 2), LastBlob(fs, 3)))
  {
    if Fields(b).Some? { TripletFolds(Fields(b).value); }
  }

  lemma DeliveryReads(b: Bytes)
    ensures DecodeDelivery(b) == match Fields(b) case None => None
      case Some(fs) => Some(Delivery(LastBlob(fs, 1), LastBlob(fs, 2), LastBlob(fs, 3)))
  {
    if Fields(b).Some? { TripletFolds(Fields(b).value); }
  }

  lemma {:induction false} WantFolds(fs: seq<Field>)
    ensures Fold(WantField, Want([]), fs) == Want(LastBlob(fs, 1))
    decreases |fs|
  {
    if fs != [] {
      FoldSnoc(WantField, Want([]), fs);
      WantFolds(fs[..|fs| - 1]);
    }
  }

  lemma WantReads(b: Bytes)
    ensures DecodeWant(b) == match Fields(b) case None => None case Some(fs) => Some(Want(LastBlob(fs, 1)))
  {
    if Fields(b).Some? { WantFolds(Fields(b).value); }
  }

  /** The chunks among some fields, in order; none if one does not decode. */
  function ChunksIn(fs: seq<Field>): Option<seq<Chunk>> {
    if fs == [] then Some([])
    else
      var f := fs[|fs| - 1];
      match ChunksIn(fs[..|fs| - 1])
      case None => None
      case Some(cs) =>
        if f.number != 2 then Some(cs)
        else match DecodeChunk(f.payload) case None => None case Some(c) => Some(cs + [c])
  }

  lemma {:induction false} OfferFolds(fs: seq<Field>)
    ensures Fold(OfferField, Some(Offer(0, [])), fs) ==
      match ChunksIn(fs) case None => None case Some(cs) => Some(Offer(LastNumber(fs, 1), cs))
    decreases |fs|
  {
    if fs != [] {
      FoldSnoc(OfferField, Some(Offer(0, [])), fs);
      OfferFolds(fs[..|fs| - 1]);
    }
  }

  lemma OfferReadsAll(b: Bytes)
    ensures DecodeOffer(b) == match Fields(b) case None => None
      case Some(fs) => match ChunksIn(fs) case None => None case Some(cs) => Some(Offer(LastNumber(fs, 1), cs))
  {
    if Fields(b).Some? { OfferFolds(Fields(b).value); }
  }

  /** The cursors among some fields, in order: packed ones and single ones. */
  function CursorsIn(fs: seq<Field>): seq<nat> {
    if fs == [] then []
    else
      var f := fs[|fs| - 1];
      CursorsIn(fs[..|fs| - 1]) +
        if f.number != 1 then [] else if f.wire == 2 then Unpacked(f.payload) else if f.wire == 0 then [VarintOf(f.payload)] else []
  }

  lemma {:induction false} AckFolds(fs: seq<Field>)
    ensures Fold(AckField, Ack([], 0), fs) == Ack(CursorsIn(fs), LastNumber(fs, 2))
    decreases |fs|
  {
    if fs != [] {
      FoldSnoc(AckField, Ack([], 0), fs);
      AckFolds(fs[..|fs| - 1]);
      assert CursorsIn(fs[..|fs| - 1]) + [] == CursorsIn(fs[..|fs| - 1]);
    }
  }

  lemma AckReads(b: Bytes)
    ensures DecodeAck(b) == match Fields(b) case None => None
      case Some(fs) => Some(Ack(CursorsIn(fs), LastNumber(fs, 2)))
  {
    if Fields(b).Some? { AckFolds(Fields(b).value); }
  }

  // --- bits ---------------------------------------------------------------------------------------------------

  /** The weight of a bit in its byte: least significant first. */
  function Weight(k: nat): nat
    requires k < 8
  {
    [1, 2, 4, 8, 16, 32, 64, 128][k]
  }

  lemma BitWeighs(x: Byte, k: nat)
    requires k < 8
    ensures BitOf(x, k) <==> x / Weight(k) % 2 == 1
    ensures WithBit(x, k) == if BitOf(x, k) then x else x + Weight(k)
  {
  }

  /** Setting bit `i` adds its weight to byte i / 8, if it was not set, and leaves all else. */
  lemma SetAdds(bv: Bytes, i: nat)
    requires i / 8 < |bv|
    ensures Bit(bv, i) <==> bv[i / 8] / Weight(i % 8) % 2 == 1
    ensures Set(bv, i) == bv[i / 8 := if Bit(bv, i) then bv[i / 8] else bv[i / 8] + Weight(i % 8)]
  {
    BitWeighs(bv[i / 8], i % 8);
  }
}
