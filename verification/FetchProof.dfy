/** The fetch over bytes, end to end (crates/wire/src/adapter.rs): client against server, under
    any fragmentation, gives every wanted triple its one outcome. */
module FetchProof {
  import opened Types
  import opened Settlement
  import opened Protobuf
  import opened Messages
  import Bitvector
  import opened Adapter

  // --- what is picked, and the bits that say so ----------------------------------------------------

  /** One of the first `i` chunks names `t`. */
  ghost predicate Names(codec: Codec, chunks: seq<Chunk>, i: nat, t: Triple)
    requires i <= |chunks|
  {
    exists j :: 0 <= j < i && NamesAt(codec, chunks, j, t)
  }

  predicate NamesAt(codec: Codec, chunks: seq<Chunk>, j: nat, t: Triple)
    requires j < |chunks|
  {
    codec.Identify(chunks[j]) == Some(t)
  }

  lemma NamesMore(codec: Codec, chunks: seq<Chunk>, i: nat, t: Triple)
    requires i < |chunks|
    ensures Names(codec, chunks, i + 1, t) <==> Names(codec, chunks, i, t) || NamesAt(codec, chunks, i, t)
  {
    if Names(codec, chunks, i + 1, t) {
      var j :| 0 <= j < i + 1 && NamesAt(codec, chunks, j, t);
      assert j < i ==> Names(codec, chunks, i, t);
    }
    assert NamesAt(codec, chunks, i, t) ==> Names(codec, chunks, i + 1, t);
    if Names(codec, chunks, i, t) {
      var j :| 0 <= j < i && NamesAt(codec, chunks, j, t);
    }
  }

  lemma {:induction false} PickedDistinct(codec: Codec, chunks: seq<Chunk>, want: seq<Triple>, i: nat)
    requires i <= |chunks|
    ensures Distinct(Picked(codec, chunks, want, i))
    decreases i
  {
    if i > 0 {
      PickedDistinct(codec, chunks, want, i - 1);
    }
  }

  /** Picked are the wanted triples the offer names. */
  lemma {:induction false} PickedAre(codec: Codec, chunks: seq<Chunk>, want: seq<Triple>, i: nat, t: Triple)
    requires i <= |chunks|
    ensures t in Picked(codec, chunks, want, i) <==> t in want && Names(codec, chunks, i, t)
    decreases i
  {
    if i > 0 {
      PickedAre(codec, chunks, want, i - 1, t);
      NamesMore(codec, chunks, i - 1, t);
    }
  }

  /** The bits set are the chunks picked. */
  lemma {:induction false} BitsArePicks(codec: Codec, chunks: seq<Chunk>, want: seq<Triple>, i: nat, j: nat)
    requires i <= |chunks|
    ensures Bitvector.Bit(PickBits(codec, chunks, want, i), j) <==> j < i && Picks(codec, chunks, want, j)
    decreases i
  {
    if i == 0 {
      Bitvector.EmptyHasNone(Max(|chunks|, 1), j);
    } else {
      BitsArePicks(codec, chunks, want, i - 1, j);
      if Picks(codec, chunks, want, i - 1) {
        Bitvector.SetsOne(PickBits(codec, chunks, want, i - 1), i - 1, j);
      }
    }
  }

  // --- what the server sends for them ------------------------------------------------------------

  function DeliveriesFor(codec: Codec, has: Triple -> bool, ts: seq<Triple>): seq<Delivery> {
    seq(|ts|, i requires 0 <= i < |ts| => DeliveryFor(codec, has, ts[i]))
  }

  function Msg(codec: Codec, has: Triple -> bool, t: Triple): Bytes {
    EncodeDelivery(DeliveryFor(codec, has, t))
  }

  function Msgs(codec: Codec, has: Triple -> bool, ts: seq<Triple>): (msgs: seq<Bytes>)
    ensures |msgs| == |ts|
  {
    EncodeAll(DeliveriesFor(codec, has, ts))
  }

  lemma {:induction false} FramesConcat(a: seq<Bytes>, b: seq<Bytes>)
    ensures Frames(a + b) == Frames(a) + Frames(b)
    decreases |a|
  {
    if a == [] {
      assert a + b == b;
    } else {
      assert (a + b)[1..] == a[1..] + b;
      FramesConcat(a[1..], b);
      Associates(Frame(a[0]), Frames(a[1..]), Frames(b));
    }
  }

  lemma OneFrame(m: Bytes)
    ensures Frames([m]) == Frame(m)
  {
    assert [m][1..] == [] && Frames([]) == [];
  }

  /** Bit `i` says whether entry `i` is picked. */
  ghost predicate Says(codec: Codec, entries: seq<(BinId, Triple)>, want: seq<Triple>, bv: Bytes, i: nat)
    requires i < |entries|
  {
    var before := Picked(codec, ChunksOf(codec, entries), want, i);
    Picked(codec, ChunksOf(codec, entries), want, i + 1) ==
      if Bitvector.Bit(bv, i) then before + [entries[i].1] else before
  }

  lemma BitSays(codec: Codec, entries: seq<(BinId, Triple)>, want: seq<Triple>, i: nat)
    requires i < |entries| && codec.LawfulAt(entries[i].1)
    ensures Says(codec, entries, want, PickBits(codec, ChunksOf(codec, entries), want, |entries|), i)
  {
    BitsArePicks(codec, ChunksOf(codec, entries), want, |entries|, i);
  }

  lemma DeliveriesSnoc(codec: Codec, has: Triple -> bool, ts: seq<Triple>, t: Triple)
    ensures DeliveriesFor(codec, has, ts + [t]) == DeliveriesFor(codec, has, ts) + [DeliveryFor(codec, has, t)]
  {
  }

  lemma ServedOne(codec: Codec, has: Triple -> bool, entries: seq<(BinId, Triple)>, bv: Bytes, i: nat, before: seq<Triple>)
    requires i < |entries| && Served(codec, has, entries, bv, i) == DeliveriesFor(codec, has, before)
    ensures Served(codec, has, entries, bv, i + 1) ==
      DeliveriesFor(codec, has, if Bitvector.Bit(bv, i) then before + [entries[i].1] else before)
  {
    DeliveriesSnoc(codec, has, before, entries[i].1);
    assert DeliveriesFor(codec, has, before) + [] == DeliveriesFor(codec, has, before);
  }

  lemma {:induction false} ServedSays(codec: Codec, has: Triple -> bool, entries: seq<(BinId, Triple)>, want: seq<Triple>, bv: Bytes, i: nat)
    requires i <= |entries| && forall j: nat :: j < |entries| ==> Says(codec, entries, want, bv, j)
    ensures Served(codec, has, entries, bv, i) ==
      DeliveriesFor(codec, has, Picked(codec, ChunksOf(codec, entries), want, i))
    decreases i
  {
    if i == 0 {
      assert DeliveriesFor(codec, has, []) == [];
    } else {
      ServedSays(codec, has, entries, want, bv, i - 1);
      ServedOne(codec, has, entries, bv, i - 1, Picked(codec, ChunksOf(codec, entries), want, i - 1));
      assert Says(codec, entries, want, bv, i - 1);
    }
  }

  /** One delivery for each pick, in order: bits, deliveries and picks agree. */
  lemma ServedArePicked(codec: Codec, has: Triple -> bool, entries: seq<(BinId, Triple)>, want: seq<Triple>)
    requires codec.LawfulFor(entries)
    ensures var chunks := ChunksOf(codec, entries);
      Served(codec, has, entries, PickBits(codec, chunks, want, |chunks|), |entries|) ==
        DeliveriesFor(codec, has, Picked(codec, chunks, want, |chunks|))
  {
    var bv := PickBits(codec, ChunksOf(codec, entries), want, |entries|);
    forall j: nat | j < |entries| ensures Says(codec, entries, want, bv, j) {
      assert entries[j] in entries;
      BitSays(codec, entries, want, j);
    }
    ServedSays(codec, has, entries, want, bv, |entries|);
  }

  // --- what the client makes of them ------------------------------------------------------------

  /** The client after deliveries for `ts`, in order. */
  function TakeMsgs(codec: Codec, has: Triple -> bool, c: Client, ts: seq<Triple>): (c': Client)
    requires c.state.AwaitDeliveries? && c.state.remaining >= |ts|
    ensures c'.state.AwaitDeliveries? && c'.state.remaining == c.state.remaining - |ts| && c'.buf == c.buf
    decreases |ts|
  {
    if ts == [] then c else TakeMsgs(codec, has, TakeDelivery(codec, c, DeliveryFor(codec, has, ts[0])), ts[1..])
  }

  /** The outcomes of those still held, in order. */
  function Outs(codec: Codec, has: Triple -> bool, ts: seq<Triple>): seq<(Triple, Outcome)> {
    if ts == [] then [] else OneOut(codec, has, ts[0]) + Outs(codec, has, ts[1..])
  }

  function OneOut(codec: Codec, has: Triple -> bool, t: Triple): seq<(Triple, Outcome)> {
    if has(t) then [(t, codec.validate(t, codec.DeliveryOf(t)))] else []
  }

  function HeldOf(has: Triple -> bool, ts: seq<Triple>): set<Triple> {
    set t | t in ts && has(t)
  }

  lemma TakesOne(codec: Codec, has: Triple -> bool, c: Client, t: Triple)
    requires codec.LawfulAt(t) && c.state.AwaitDeliveries? && c.state.remaining > 0 && t in c.state.pending
    ensures TakeDelivery(codec, c, DeliveryFor(codec, has, t)) ==
      c.(state := AwaitDeliveries(c.state.pending - (if has(t) then {t} else {}), c.state.remaining - 1),
         outcomes := c.outcomes + OneOut(codec, has, t))
  {
    assert c.outcomes + [] == c.outcomes && c.state.pending - {} == c.state.pending;
    assert AllZero(ZERO_ADDRESS);
  }

  lemma {:induction false} TakesMsgs(codec: Codec, has: Triple -> bool, c: Client, ts: seq<Triple>)
    requires codec.LawfulOn(ts) && Distinct(ts)
    requires c.state.AwaitDeliveries? && c.state.remaining >= |ts| && Members(ts) <= c.state.pending
    ensures TakeMsgs(codec, has, c, ts) ==
      c.(state := AwaitDeliveries(c.state.pending - HeldOf(has, ts), c.state.remaining - |ts|),
         outcomes := c.outcomes + Outs(codec, has, ts))
    decreases |ts|
  {
    if ts == [] {
      assert c.outcomes + [] == c.outcomes && c.state.pending - HeldOf(has, ts) == c.state.pending;
    } else {
      var t, rest := ts[0], ts[1..];
      assert t in Members(ts);
      TakesOne(codec, has, c, t);
      var c1 := TakeDelivery(codec, c, DeliveryFor(codec, has, t));
      RestPending(has, c.state.pending, ts);
      TakesMsgs(codec, has, c1, rest);
      assert (c.outcomes + OneOut(codec, has, t)) + Outs(codec, has, rest) == c.outcomes + Outs(codec, has, ts);
    }
  }

  lemma RestPending(has: Triple -> bool, pending: set<Triple>, ts: seq<Triple>)
    requires ts != [] && Distinct(ts) && Members(ts) <= pending
    ensures var less := pending - if has(ts[0]) then {ts[0]} else {};
      Distinct(ts[1..]) && Members(ts[1..]) <= less && less - HeldOf(has, ts[1..]) == pending - HeldOf(has, ts)
  {
    var less := pending - if has(ts[0]) then {ts[0]} else {};
    assert forall x :: x in ts <==> x == ts[0] || x in ts[1..];
    forall x | x in ts[1..] ensures x in less {
      assert x in Members(ts);
    }
    assert HeldOf(has, ts) == HeldOf(has, ts[1..]) + if has(ts[0]) then {ts[0]} else {};
  }

  // --- bytes in, outcomes out ----------------------------------------------------------------------

  lemma MsgReads(codec: Codec, has: Triple -> bool, t: Triple)
    requires codec.LawfulAt(t)
    ensures |Msg(codec, has, t)| <= MAX_FRAME
    ensures DecodeDelivery(Msg(codec, has, t)) == Some(DeliveryFor(codec, has, t))
  {
    ZeroFits();
    DeliveryRoundTrip(DeliveryFor(codec, has, t));
  }

  lemma SmallField(number: nat, b: Bytes)
    requires 8 * number + 2 < U32 && |b| < U64
    ensures |BytesField(number, b)| <= |b| + 2 * MAX_VARINT
  {
    VarintRoundTrip(8 * number + 2, []);
    VarintRoundTrip(|b|, []);
  }

  lemma ZeroFits()
    ensures |EncodeDelivery(Delivery(ZERO_ADDRESS, [], []))| <= MAX_FRAME
  {
    SmallField(1, ZERO_ADDRESS);
    SmallField(2, []);
    SmallField(3, []);
  }

  lemma MsgsFront(codec: Codec, has: Triple -> bool, ts: seq<Triple>)
    requires ts != []
    ensures Msgs(codec, has, ts) == [Msg(codec, has, ts[0])] + Msgs(codec, has, ts[1..])
  {
    assert DeliveriesFor(codec, has, ts)[1..] == DeliveriesFor(codec, has, ts[1..]);
  }

  /** With exactly the frames awaited in its buffer, the client takes them all and finishes. */
  lemma {:induction false} TakesAll(codec: Codec, has: Triple -> bool, c: Client, ts: seq<Triple>, tail: Bytes)
    requires codec.LawfulOn(ts) && c.state.AwaitDeliveries? && c.state.remaining == |ts|
    requires c.buf == Frames(Msgs(codec, has, ts)) + tail
    ensures PollDeliveries(codec, c) == Close(TakeMsgs(codec, has, c.(buf := tail), ts))
    decreases |ts|
  {
    if ts == [] {
      assert c.buf == tail;
    } else {
      var m, rest := Msg(codec, has, ts[0]), Frames(Msgs(codec, has, ts[1..])) + tail;
      MsgsFront(codec, has, ts);
      FramesConcat([m], Msgs(codec, has, ts[1..]));
      OneFrame(m);
      Associates(Frame(m), Frames(Msgs(codec, has, ts[1..])), tail);
      MsgReads(codec, has, ts[0]);
      FrameRoundTrip(m, rest);
      assert (Frame(m) + rest)[|Frame(m)|..] == rest;
      var c1 := TakeDelivery(codec, c.(buf := rest), DeliveryFor(codec, has, ts[0]));
      TakesAll(codec, has, c1, ts[1..], tail);
      assert c1.(buf := tail) == TakeDelivery(codec, c.(buf := tail), DeliveryFor(codec, has, ts[0]));
    }
  }
}
