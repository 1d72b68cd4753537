/** The advertisement leg over bytes, end to end (crates/wire/src/adapter.rs): offer client
    against server. */
module Advertisement {
  import opened Types
  import opened Settlement
  import opened Protobuf
  import opened Messages
  import opened Adapter
  import opened AdapterCore
  import opened FetchProof
  import opened FetchTheorem

  /** What the offer client does with one more fragment, once its Get is out. */
  function PollOffer(codec: Codec, start: nat, buf: Bytes, input: Bytes): (Bytes, ClientOut) {
    OfferAnswer(codec, start, buf + input)
  }

  /** Poll with each fragment until there is an answer; the fragments not yet given are left. */
  function PollOffers(codec: Codec, start: nat, buf: Bytes, inputs: seq<Bytes>): (Bytes, ClientOut, seq<Bytes>)
    decreases |inputs|
  {
    if inputs == [] then (buf, Need, [])
    else
      var (buf', out) := PollOffer(codec, start, buf, inputs[0]);
      if out == Need then PollOffers(codec, start, buf', inputs[1..]) else (buf', out, inputs[1..])
  }

  /** Of a frame not yet whole the client keeps every byte and asks for more. */
  lemma PartNeeds(codec: Codec, start: nat, msg: Bytes, n: nat)
    requires |msg| <= MAX_FRAME && n < |Frame(msg)|
    ensures OfferAnswer(codec, start, Frame(msg)[..n]) == (Frame(msg)[..n], Need)
  {
    FramePrefix(msg, n);
  }

  /** A whole frame is consumed, and it alone. */
  lemma WholeAnswers(codec: Codec, start: nat, offer: Offer, tail: Bytes)
    requires |EncodeOffer(offer)| <= MAX_FRAME && DecodeOffer(EncodeOffer(offer)) == Some(offer)
    ensures OfferAnswer(codec, start, Frame(EncodeOffer(offer)) + tail) ==
      (tail, OfferDone(Positioned(codec, start, offer.chunks), offer.topmost))
  {
    var frame := Frame(EncodeOffer(offer));
    FrameRoundTrip(EncodeOffer(offer), tail);
    assert (frame + tail)[|frame|..] == tail;
  }

  lemma Behind(frame: Bytes, now: Bytes, more: Bytes, later: Bytes, tail: Bytes)
    requires now + later == frame + tail && |now| >= |frame| && more == now[|frame|..]
    ensures now == frame + more && more + later == tail
  {
    assert now == (frame + tail)[..|now|];
    assert now[..|frame|] == frame;
    assert more + later == (now + later)[|frame|..];
  }

  /** However the bytes come, the answer is given with the fragment that completes the frame, and
      what stands behind it stays: in the buffer, or not yet given. */
  lemma {:induction false} AnyPieces(codec: Codec, start: nat, offer: Offer, buf: Bytes, inputs: seq<Bytes>, tail: Bytes)
    requires |EncodeOffer(offer)| <= MAX_FRAME && DecodeOffer(EncodeOffer(offer)) == Some(offer)
    requires |buf| < |Frame(EncodeOffer(offer))| && buf + Concat(inputs) == Frame(EncodeOffer(offer)) + tail
    ensures var (buf', out, rest) := PollOffers(codec, start, buf, inputs);
      out == OfferDone(Positioned(codec, start, offer.chunks), offer.topmost) && buf' + Concat(rest) == tail
    decreases |inputs|
  {
    var frame := Frame(EncodeOffer(offer));
    assert |buf + Concat(inputs)| == |buf| + |Concat(inputs)| == |frame| + |tail|;
    var x, rest := inputs[0], inputs[1..];
    var now := buf + x;
    assert now + Concat(rest) == frame + tail;
    if |now| < |frame| {
      assert now == (now + Concat(rest))[..|now|] == (frame + tail)[..|now|] == frame[..|now|];
      PartNeeds(codec, start, EncodeOffer(offer), |now|);
      AnyPieces(codec, start, offer, now, rest, tail);
    } else {
      var more := now[|frame|..];
      Behind(frame, now, more, Concat(rest), tail);
      WholeAnswers(codec, start, offer, more);
    }
  }

  /** Exactly the entries the client can identify, each at start plus its place on the page. */
  ghost predicate Reports(codec: Codec, start: nat, entries: seq<(BinId, Triple)>, refs: seq<(BinId, Triple)>) {
    && |refs| == |entries|
    && forall i :: 0 <= i < |entries| ==> refs[i] == (start + i, entries[i].1)
  }

  ghost predicate Identifies(codec: Codec, chunks: seq<Chunk>, entries: seq<(BinId, Triple)>) {
    |chunks| == |entries| && forall i :: 0 <= i < |entries| ==> codec.Identify(chunks[i]) == Some(entries[i].1)
  }

  lemma {:induction false} IdentifiedAreReported(codec: Codec, start: nat, chunks: seq<Chunk>, entries: seq<(BinId, Triple)>)
    requires Identifies(codec, chunks, entries)
    ensures Reports(codec, start, entries, Positioned(codec, start, chunks))
    decreases |chunks|
  {
    if chunks != [] {
      IdentifiedAreReported(codec, start, chunks[..|chunks| - 1], entries[..|chunks| - 1]);
    }
  }

  lemma PageIsReported(codec: Codec, start: nat, entries: seq<(BinId, Triple)>)
    requires codec.LawfulFor(entries)
    ensures Reports(codec, start, entries, Positioned(codec, start, ChunksOf(codec, entries)))
  {
    var chunks := ChunksOf(codec, entries);
    forall i | 0 <= i < |entries| ensures codec.Identify(chunks[i]) == Some(entries[i].1) {
      assert entries[i] in entries && codec.LawfulAt(entries[i].1);
    }
    IdentifiedAreReported(codec, start, chunks, entries);
  }

  /** The advertisement end to end. The client's Get and the server's offer, in any fragments and
      with anything behind it: the client reports the page the reserve collected, every entry at
      start plus its place, and the topmost the reserve answered; what stands behind the offer is
      kept. A server with nothing to cover blocks. */
  lemma AdvertisedEndToEnd(codec: Codec, reserve: Reserve, bin: nat, start: nat, entries: seq<(BinId, Triple)>, topmost: nat,
                           inputs: seq<Bytes>, tail: Bytes)
    requires bin < 256 && start < U64 && reserve.collect(bin, start, MAX_PAGE) == (entries, topmost)
    requires Servable(codec, entries, topmost)
    ensures var (_, offer) := Serve(codec, reserve, Server([], AwaitGet), Frame(EncodeGet(Get(bin, start))));
      if entries == [] && topmost < start then offer == Blocked(bin, start)
      else
        offer.Reply? && (Concat(inputs) == offer.frames + tail ==>
          var (buf, out, rest) := PollOffers(codec, start, [], inputs);
          out.OfferDone? && out.topmost == topmost && Reports(codec, start, entries, out.refs) && buf + Concat(rest) == tail)
  {
    GetLeg(codec, reserve, bin, start, entries, topmost);
    var offer := Offer(topmost, ChunksOf(codec, entries));
    OfferDecodes(codec, entries, topmost);
    PageIsReported(codec, start, entries);
    if Concat(inputs) == Frame(EncodeOffer(offer)) + tail {
      FrameHasBytes(EncodeOffer(offer));
      assert [] + Concat(inputs) == Concat(inputs);
      AnyPieces(codec, start, offer, [], inputs, tail);
    }
  }

  lemma FrameHasBytes(msg: Bytes)
    ensures |Frame(msg)| > 0
  {
  }

  /** Until the frame is whole the client answers Need, in whatever fragments it comes. */
  lemma {:induction false} PartAdvertised(codec: Codec, start: nat, msg: Bytes, buf: Bytes, inputs: seq<Bytes>, n: nat)
    requires |msg| <= MAX_FRAME && n < |Frame(msg)| && buf + Concat(inputs) == Frame(msg)[..n]
    ensures PollOffers(codec, start, buf, inputs) == (Frame(msg)[..n], Need, [])
    decreases |inputs|
  {
    if inputs != [] {
      var now := buf + inputs[0];
      assert now + Concat(inputs[1..]) == Frame(msg)[..n];
      assert now == (now + Concat(inputs[1..]))[..|now|] == Frame(msg)[..|now|];
      PartNeeds(codec, start, msg, |now|);
      PartAdvertised(codec, start, msg, now, inputs[1..], n);
    } else {
      assert buf + [] == buf;
    }
  }

  // --- what is on the wire ------------------------------------------------------------------------------

  /** Each chunk of an offer carries its triple's address, batch id and stamp hash, in the page's
      order. */
  lemma OfferCarries(codec: Codec, entries: seq<(BinId, Triple)>, topmost: nat, i: nat)
    requires Servable(codec, entries, topmost) && i < |entries|
    ensures var sent := DecodeOffer(EncodeOffer(Offer(topmost, ChunksOf(codec, entries))));
      var t := entries[i].1;
      && sent.Some? && sent.value.topmost == topmost && |sent.value.chunks| == |entries|
      && sent.value.chunks[i].address == codec.address(t)
      && sent.value.chunks[i].batchId == codec.batchId(t)
      && sent.value.chunks[i].stampHash == codec.stampHash(t)
  {
    OfferDecodes(codec, entries, topmost);
  }

  /** A delivery carries its triple's address, data and stamp if it is still held, else a zero
      address and nothing else. */
  lemma DeliveryCarries(codec: Codec, has: Triple -> bool, t: Triple)
    requires codec.LawfulAt(t)
    ensures var sent := DecodeDelivery(Msg(codec, has, t));
      && sent.Some?
      && (if has(t)
          then sent.value.address == codec.address(t) && sent.value.data == codec.data(t) && sent.value.stamp == codec.stamp(t)
          else |sent.value.address| == 32 && AllZero(sent.value.address) && sent.value.data == [] && sent.value.stamp == [])
  {
    MsgReads(codec, has, t);
  }

  // --- what is not as it should be ------------------------------------------------------------------------

  /** An announced length over the cap, or a whole frame that is no message, ends in a panic of
      whoever reads it, on either side. */
  lemma MalformedPanics(codec: Codec, reserve: Reserve, c: Client, s: Server, start: nat, buf: Bytes)
    ensures Deframe(buf) == OverCap ==>
      OfferAnswer(codec, start, buf).1 == Panic && Serve(codec, reserve, s.(buf := []), buf).1 == Crash
    ensures Deframe(buf) == OverCap && (c.state == AwaitOffer || (c.state.AwaitDeliveries? && c.state.remaining > 0)) ==>
      Respond(codec, c.(buf := buf)).1 == Panic
    ensures Deframe(buf).Message? && DecodeOffer(Deframe(buf).msg) == None ==>
      OfferAnswer(codec, start, buf).1 == Panic && (c.state == AwaitOffer ==> Respond(codec, c.(buf := buf)).1 == Panic)
    ensures Deframe(buf).Message? && DecodeDelivery(Deframe(buf).msg) == None && c.state.AwaitDeliveries? && c.state.remaining > 0 ==>
      Respond(codec, c.(buf := buf)).1 == Panic
    ensures Deframe(buf).Message? && DecodeGet(Deframe(buf).msg) == None && s.state == AwaitGet ==>
      Serve(codec, reserve, s.(buf := []), buf).1 == Crash
    ensures Deframe(buf).Message? && DecodeWant(Deframe(buf).msg) == None && s.state.AwaitWant? ==>
      Serve(codec, reserve, s.(buf := []), buf).1 == Crash
  {
    assert [] + buf == buf;
  }

  /** Any delivery uses up one of those awaited. One with a zero address, of no known triple, or of
      one not pending changes nothing else; another settles its triple with its verdict. */
  lemma DeliveryTaken(codec: Codec, c: Client, d: Delivery)
    requires c.state.AwaitDeliveries? && c.state.remaining > 0
    ensures var c', t := TakeDelivery(codec, c, d), codec.tripleOfDelivery(d);
      var solicited := (exists i :: 0 <= i < |d.address| && d.address[i] != 0) && t.Some? && t.value in c.state.pending;
      && c'.state.remaining == c.state.remaining - 1
      && (solicited ==> c'.state.pending == c.state.pending - {t.value}
                        && c'.outcomes == c.outcomes + [(t.value, codec.validate(t.value, d))])
      && (!solicited ==> c'.state.pending == c.state.pending && c'.outcomes == c.outcomes)
      && c' == c.(state := c'.state, outcomes := c'.outcomes)
  {
  }
}
