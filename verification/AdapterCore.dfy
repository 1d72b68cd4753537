/** The adapter's objects (crates/wire/src/adapter.rs): their buffers, states and loops, proved to
    compute the functions of Adapter. */
module AdapterCore {
  import opened Types
  import opened Settlement
  import opened Protobuf
  import opened Messages
  import Bitvector
  import opened Adapter
  import opened FetchProof

  class FetchClient {
    const bin: nat
    const start: nat
    const want: seq<Triple>
    var buf: Bytes
    var state: FetchState
    var outcomes: seq<(Triple, Outcome)>

    function View(): Client
      reads this
    {
      Client(bin, start, want, buf, state, outcomes)
    }

    constructor (bin: nat, start: nat, want: seq<Triple>)
      ensures View() == NewClient(bin, start, want)
    {
      this.bin, this.start, this.want := bin, start, want;
      buf, state, outcomes := [], SendGet, [];
    }

    /** Match the wants against the fresh offer, setting bits in place. */
    method PickWants(codec: Codec, chunks: seq<Chunk>) returns (bv: Bytes, pending: set<Triple>)
      ensures bv == PickBits(codec, chunks, want, |chunks|)
      ensures pending == Members(Picked(codec, chunks, want, |chunks|))
    {
      var bits := new Byte[Max(|chunks|, 1) / 8 + 1](i => 0);
      pending := {};
      assert bits[..] == PickBits(codec, chunks, want, 0);
      for i := 0 to |chunks|
        invariant bits[..] == PickBits(codec, chunks, want, i)
        invariant pending == Members(Picked(codec, chunks, want, i))
      {
        ghost var before := Picked(codec, chunks, want, i);
        var t := codec.Identify(chunks[i]);
        if t.Some? {
          assert t.value in pending <==> t.value in before;
          if t.value in want && t.value !in pending {
            Bitvector.SetInPlace(bits, i);
            pending := pending + {t.value};
            assert Members(before + [t.value]) == Members(before) + {t.value};
          }
        }
      }
      bv := bits[..];
    }

    method BookMisses(pending: set<Triple>, ghost picked: seq<Triple>)
      requires pending == Members(picked)
      modifies this`outcomes
      ensures outcomes == old(outcomes) + MissedOf(want, picked)
    {
      ghost var before := outcomes;
      for i := 0 to |want|
        invariant outcomes == before + MissedOf(want[..i], picked)
      {
        assert want[..i + 1][..i] == want[..i];
        assert want[i] in pending <==> want[i] in picked;
        if want[i] !in pending {
          outcomes := outcomes + [(want[i], Missed)];
        }
      }
      assert want[..|want|] == want;
    }

    /** The stream ended: what is pending is missed. */
    method Close() returns (out: ClientOut)
      modifies this
      ensures (View(), out) == Adapter.Close(old(View()))
    {
      if state.AwaitDeliveries? {
        var left := state.pending;
        ghost var before, all := outcomes, Ascending(left);
        ghost var done: seq<Triple> := [];
        while left != {}
          invariant all == done + Ascending(left)
          invariant outcomes == before + AllMissed(done)
          invariant state == old(state) && buf == old(buf)
          decreases left
        {
          var t := First(left);
          assert t == MinOf(left);
          assert all == (done + [t]) + Ascending(left - {t});
          assert AllMissed(done + [t]) == AllMissed(done) + [(t, Missed)];
          outcomes := outcomes + [(t, Missed)];
          done := done + [t];
          left := left - {t};
        }
        assert done == all;
        state := AwaitDeliveries({}, 0);
      }
      out := FetchDone(outcomes);
      outcomes := [];
    }

    method TakeOffer(codec: Codec, offer: Offer) returns (out: ClientOut)
      requires state == AwaitOffer
      modifies this
      ensures (View(), out) == TakeOfferMessage(codec, old(View()), offer)
    {
      var bv, pending := PickWants(codec, offer.chunks);
      BookMisses(pending, Picked(codec, offer.chunks, want, |offer.chunks|));
      if offer.chunks == [] {
        out := Close();
        return;
      }
      state := AwaitDeliveries(pending, |pending|);
      out := Send(Frame(EncodeWant(Want(bv))));
    }

    method AwaitsOffer(codec: Codec) returns (out: ClientOut)
      requires state == AwaitOffer
      modifies this
      ensures (View(), out) == PollOffer(codec, old(View()))
    {
      match Deframe(buf) {
        case NeedMore => out := Need;
        case OverCap => out := Panic;
        case Message(msg, n) =>
          buf := buf[n..];
          match DecodeOffer(msg) {
            case None => out := Panic;
            case Some(offer) => out := TakeOffer(codec, offer);
          }
      }
    }

    method Take(codec: Codec, d: Delivery)
      requires state.AwaitDeliveries? && state.remaining > 0
      modifies this`state, this`outcomes
      ensures View() == TakeDelivery(codec, old(View()), d)
    {
      var pending := state.pending;
      if !AllZero(d.address) {
        var t := codec.tripleOfDelivery(d);
        if t.Some? && t.value in pending {
          pending := pending - {t.value};
          outcomes := outcomes + [(t.value, codec.validate(t.value, d))];
        }
      }
      state := AwaitDeliveries(pending, state.remaining - 1);
    }

    /** Take every complete delivery in the buffer. */
    method AwaitsDeliveries(codec: Codec) returns (out: ClientOut)
      requires state.AwaitDeliveries?
      modifies this
      ensures (View(), out) == PollDeliveries(codec, old(View()))
    {
      ghost var c0 := View();
      while state.remaining > 0
        invariant state.AwaitDeliveries?
        invariant PollDeliveries(codec, View()) == PollDeliveries(codec, c0)
        decreases |buf|
      {
        var front := Deframe(buf);
        if front == NeedMore {
          return Need;
        }
        if front == OverCap {
          return Panic;
        }
        buf := buf[front.used..];
        var d := DecodeDelivery(front.msg);
        if d.None? {
          return Panic;
        }
        Take(codec, d.value);
      }
      out := Close();
    }

    method Poll(codec: Codec, input: Bytes) returns (out: ClientOut)
      modifies this
      ensures (View(), out) == Adapter.Poll(codec, old(View()), input)
    {
      buf := buf + input;
      match state {
        case SendGet =>
          state := AwaitOffer;
          out := Send(Frame(EncodeGet(Get(bin, start))));
        case AwaitOffer => out := AwaitsOffer(codec);
        case AwaitDeliveries(_, _) => out := AwaitsDeliveries(codec);
      }
    }
  }

  /** The advertisement leg: one Get out, one offer back. */
  class OfferClient {
    const bin: nat
    const start: nat
    var buf: Bytes
    var asked: bool

    constructor (bin: nat, start: nat)
      ensures this.bin == bin && this.start == start && buf == [] && !asked
    {
      this.bin, this.start := bin, start;
      buf, asked := [], false;
    }

    method Poll(codec: Codec, input: Bytes) returns (out: ClientOut)
      modifies this
      ensures asked
      ensures !old(asked) ==> buf == old(buf) && out == Send(Frame(EncodeGet(Get(bin, start))))
      ensures old(asked) ==> (buf, out) == OfferAnswer(codec, start, old(buf) + input)
    {
      if !asked {
        asked := true;
        return Send(Frame(EncodeGet(Get(bin, start))));
      }
      buf := buf + input;
      match Deframe(buf) {
        case NeedMore => out := Need;
        case OverCap => out := Panic;
        case Message(msg, n) =>
          buf := buf[n..];
          var offer := DecodeOffer(msg);
          if offer.None? {
            return Panic;
          }
          var refs := Position(codec, start, offer.value.chunks);
          out := OfferDone(refs, offer.value.topmost);
      }
    }
  }

  function OfferAnswer(codec: Codec, start: nat, buf: Bytes): (Bytes, ClientOut) {
    match Deframe(buf)
    case NeedMore => (buf, Need)
    case OverCap => (buf, Panic)
    case Message(msg, n) =>
      match DecodeOffer(msg)
      case None => (buf[n..], Panic)
      case Some(offer) => (buf[n..], OfferDone(Positioned(codec, start, offer.chunks), offer.topmost))
  }

  method Position(codec: Codec, start: nat, chunks: seq<Chunk>) returns (refs: seq<(BinId, Triple)>)
    ensures refs == Positioned(codec, start, chunks)
  {
    refs := [];
    for i := 0 to |chunks|
      invariant refs == Positioned(codec, start, chunks[..i])
    {
      assert chunks[..i + 1][..i] == chunks[..i];
      var t := codec.Identify(chunks[i]);
      if t.Some? {
        refs := refs + [(start + i, t.value)];
      }
    }
    assert chunks[..|chunks|] == chunks;
  }

  class ServerStream {
    var buf: Bytes
    var state: ServeState

    function View(): Server
      reads this
    {
      Server(buf, state)
    }

    constructor ()
      ensures View() == Server([], AwaitGet)
    {
      buf, state := [], AwaitGet;
    }

    /** The frames for the entries wanted. */
    method Deliver(codec: Codec, has: Triple -> bool, offered: seq<(BinId, Triple)>, bv: Bytes) returns (frames: Bytes)
      ensures frames == Frames(EncodeAll(Served(codec, has, offered, bv, |offered|)))
    {
      frames := [];
      for i := 0 to |offered|
        invariant frames == Frames(EncodeAll(Served(codec, has, offered, bv, i)))
      {
        assert Served(codec, has, offered, bv, i) + [] == Served(codec, has, offered, bv, i);
        if Bitvector.Bit(bv, i) {
          var d := DeliveryFor(codec, has, offered[i].1);
          EncodesSnoc(Served(codec, has, offered, bv, i), d);
          frames := frames + Frame(EncodeDelivery(d));
        }
      }
    }

    method Poll(codec: Codec, reserve: Reserve, input: Bytes) returns (out: ServerOut)
      modifies this
      ensures (View(), out) == Serve(codec, reserve, old(View()), input)
    {
      buf := buf + input;
      var front := Deframe(buf);
      if front == NeedMore {
        return NeedInput;
      }
      if front == OverCap {
        return Crash;
      }
      buf := buf[front.used..];
      match state {
        case AwaitGet =>
          var get := DecodeGet(front.msg);
          if get.None? {
            return Crash;
          }
          out := Answer(codec, reserve, get.value);
        case AwaitWant(offered) =>
          var want := DecodeWant(front.msg);
          if want.None? {
            return Crash;
          }
          var frames := Deliver(codec, reserve.has, offered, want.value.bitvector);
          out := if frames == [] then Done else Reply(frames);
      }
    }

    method Answer(codec: Codec, reserve: Reserve, get: Get) returns (out: ServerOut)
      modifies this`state
      ensures (View(), out) == TakeGet(codec, reserve, old(View()), get)
    {
      var (entries, topmost) := reserve.collect(get.bin % 256, get.start, MAX_PAGE);
      if entries == [] && topmost < get.start {
        return Blocked(get.bin % 256, get.start);
      }
      if entries != [] {
        state := AwaitWant(entries);
      }
      out := Reply(Frame(EncodeOffer(Offer(topmost, ChunksOf(codec, entries)))));
    }
  }

  lemma {:induction false} EncodeAllConcat(a: seq<Delivery>, b: seq<Delivery>)
    ensures EncodeAll(a + b) == EncodeAll(a) + EncodeAll(b)
    decreases |a|
  {
    if a == [] {
      assert a + b == b;
    } else {
      assert (a + b)[1..] == a[1..] + b;
      EncodeAllConcat(a[1..], b);
    }
  }

  lemma EncodesSnoc(ds: seq<Delivery>, d: Delivery)
    ensures Frames(EncodeAll(ds + [d])) == Frames(EncodeAll(ds)) + Frame(EncodeDelivery(d))
  {
    EncodeAllConcat(ds, [d]);
    assert EncodeAll([d]) == [EncodeDelivery(d)];
    FramesConcat(EncodeAll(ds), [EncodeDelivery(d)]);
    OneFrame(EncodeDelivery(d));
  }
}
