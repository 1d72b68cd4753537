/** A fetch cut short (crates/wire/src/adapter.rs, `close`): wherever the stream of bytes breaks
    off, every pick has one outcome. */
module FetchClose {
  import opened Types
  import opened Protobuf
  import opened Messages
  import opened Adapter
  import opened FetchProof
  import opened FetchTheorem

  /** Fragments that hold no answer leave the client where their bytes at once would. */
  lemma {:induction false} NeedFragments(codec: Codec, c: Client, inputs: seq<Bytes>)
    requires c.state != SendGet && inputs != []
    requires Respond(codec, c.(buf := c.buf + Concat(inputs))).1 == Need
    ensures PollUntil(codec, c, inputs) == (Respond(codec, c.(buf := c.buf + Concat(inputs))).0, Need, [])
    decreases |inputs|
  {
    var x, rest := inputs[0], inputs[1..];
    var now := c.(buf := c.buf + x);
    var (c1, out) := Respond(codec, now);
    assert Poll(codec, c, x) == (c1, out);
    assert c.buf + Concat(inputs) == now.buf + Concat(rest);
    if c.state.AwaitDeliveries? {
      DeliveriesStable(codec, now, Concat(rest));
    } else {
      OfferStable(codec, now, Concat(rest));
    }
    if rest == [] {
      assert now.buf + Concat(rest) == now.buf;
    } else {
      NeedFragments(codec, c1, rest);
    }
  }

  /** How many frames are complete in the first `n` bytes. */
  function Arrived(msgs: seq<Bytes>, n: nat): (k: nat)
    ensures k <= |msgs|
    decreases |msgs|
  {
    if msgs == [] || n < |Frame(msgs[0])| then 0 else 1 + Arrived(msgs[1..], n - |Frame(msgs[0])|)
  }

  lemma PrefixFront(msgs: seq<Bytes>, k: nat)
    requires 0 < k <= |msgs|
    ensures |Frames(msgs[..k])| == |Frame(msgs[0])| + |Frames(msgs[1..][..k - 1])|
  {
    assert msgs[..k][0] == msgs[0] && msgs[..k][1..] == msgs[1..][..k - 1];
  }

  /** The count is of whole frames: byte `n` lies within the next one. */
  lemma {:induction false} ArrivedCounts(msgs: seq<Bytes>, n: nat)
    requires n < |Frames(msgs)|
    ensures var k := Arrived(msgs, n);
      k < |msgs| && |Frames(msgs[..k])| <= n < |Frames(msgs[..k + 1])|
    decreases |msgs|
  {
    var size := |Frame(msgs[0])|;
    if n < size {
      PrefixFront(msgs, 1);
    } else {
      ArrivedCounts(msgs[1..], n - size);
      var k := Arrived(msgs[1..], n - size);
      PrefixFront(msgs, k + 2);
      PrefixFront(msgs, k + 1);
    }
  }

  lemma TakesFirst(codec: Codec, has: Triple -> bool, c: Client, t: Triple, m: Bytes, more: Bytes)
    requires codec.LawfulAt(t) && c.state.AwaitDeliveries? && c.state.remaining > 0
    requires m == Msg(codec, has, t) && c.buf == Frame(m) + more
    ensures PollDeliveries(codec, c) ==
      PollDeliveries(codec, TakeDelivery(codec, c.(buf := more), DeliveryFor(codec, has, t)))
  {
    MsgReads(codec, has, t);
    FrameRoundTrip(m, more);
    assert c.buf[|Frame(m)|..] == more;
  }

  lemma TakesNone(codec: Codec, has: Triple -> bool, c: Client, t: Triple, m: Bytes, n: nat)
    requires codec.LawfulAt(t) && c.state.AwaitDeliveries? && c.state.remaining > 0
    requires m == Msg(codec, has, t) && n < |Frame(m)| && c.buf == Frame(m)[..n]
    ensures PollDeliveries(codec, c) == (c, Need)
  {
    MsgReads(codec, has, t);
    FramePrefix(m, n);
  }

  /** Of a broken stream the client takes the whole deliveries, and waits for the rest. */
  lemma {:induction false} TakesSome(codec: Codec, has: Triple -> bool, c: Client, ts: seq<Triple>, ms: seq<Bytes>, n: nat)
      returns (rest: Bytes)
    requires codec.LawfulOn(ts) && c.state.AwaitDeliveries? && c.state.remaining == |ts| == |ms|
    requires ms == Msgs(codec, has, ts) && n < |Frames(ms)| && c.buf == Frames(ms)[..n]
    ensures PollDeliveries(codec, c) == (TakeMsgs(codec, has, c.(buf := rest), ts[..Arrived(ms, n)]), Need)
    decreases |ts|
  {
    var m, more := Frame(ms[0]), Frames(ms[1..]);
    MsgsFront(codec, has, ts);
    if n < |m| {
      rest := c.buf;
      assert c.buf == m[..n];
      TakesNone(codec, has, c, ts[0], ms[0], n);
    } else {
      var left, d := n - |m|, DeliveryFor(codec, has, ts[0]);
      assert c.buf == m + more[..left];
      TakesFirst(codec, has, c, ts[0], ms[0], more[..left]);
      rest := TakesSome(codec, has, TakeDelivery(codec, c.(buf := more[..left]), d), ts[1..], ms[1..], left);
      TakeKeepsBuf(codec, c, d, more[..left], rest);
      TakeMsgsFront(codec, has, c.(buf := rest), ts, Arrived(ms, n));
    }
  }

  lemma TakeMsgsFront(codec: Codec, has: Triple -> bool, c: Client, ts: seq<Triple>, k: nat)
    requires c.state.AwaitDeliveries? && c.state.remaining >= |ts| && 0 < k <= |ts|
    ensures TakeMsgs(codec, has, c, ts[..k]) ==
      TakeMsgs(codec, has, TakeDelivery(codec, c, DeliveryFor(codec, has, ts[0])), ts[1..][..k - 1])
  {
    assert ts[..k][0] == ts[0] && ts[..k][1..] == ts[1..][..k - 1];
  }

  lemma TakeKeepsBuf(codec: Codec, c: Client, d: Delivery, b: Bytes, b': Bytes)
    requires c.state.AwaitDeliveries? && c.state.remaining > 0
    ensures TakeDelivery(codec, c.(buf := b), d).(buf := b') == TakeDelivery(codec, c.(buf := b'), d)
  {
  }

  /** Closing before the offer is whole: no outcome at all, however much of it came, in whatever
      fragments. */
  lemma CloseBeforeOffer(codec: Codec, bin: nat, start: nat, want: seq<Triple>, msg: Bytes, n: nat, inputs: seq<Bytes>)
    requires |msg| <= MAX_FRAME && n < |Frame(msg)| && Concat(inputs) == Frame(msg)[..n]
    ensures Close(NewClient(bin, start, want)).1 == FetchDone([])
    ensures var (c0, _) := Poll(codec, NewClient(bin, start, want), []);
      var (c1, out, _) := PollUntil(codec, c0, inputs);
      out == Need && Close(c1).1 == FetchDone([])
  {
    var c0 := Poll(codec, NewClient(bin, start, want), []).0;
    assert c0 == NewClient(bin, start, want).(state := AwaitOffer);
    FramePrefix(msg, n);
    assert [] + Concat(inputs) == Concat(inputs);
    if inputs != [] {
      NeedFragments(codec, c0, inputs);
    }
  }

  lemma ClosedOwes(codec: Codec, has: Triple -> bool, c: Client, picked: seq<Triple>, k: nat)
    requires codec.LawfulOn(picked) && Distinct(picked) && k <= |picked|
    requires c.state == AwaitDeliveries(Members(picked), |picked|) && c.outcomes == MissedOf(c.want, picked)
    ensures var closed := Close(TakeMsgs(codec, has, c, picked[..k])).1;
      closed.FetchDone? && forall t :: Entries(closed.outcomes, t) == Owed(codec, has, c.want, picked, picked[..k], t)
  {
    var taken := picked[..k];
    assert Members(taken) <= Members(picked);
    TakesMsgs(codec, has, c, taken);
    forall t ensures Entries(ResultsAfter(codec, has, c.want, picked, taken), t) == Owed(codec, has, c.want, picked, taken, t) {
      ResultsEntries(codec, has, c.want, picked, taken, t);
    }
  }

  /** Closing where the server's stream breaks off, at any byte, in any fragments: each pick whose
      delivery came whole has its verdict, each other pick a miss, and each want that was not
      picked its misses. */
  lemma CloseAccounts(codec: Codec, has: Triple -> bool, c: Client, picked: seq<Triple>, n: nat, inputs: seq<Bytes>)
    requires codec.LawfulOn(picked) && Distinct(picked)
    requires c.state == AwaitDeliveries(Members(picked), |picked|) && c.buf == [] && c.outcomes == MissedOf(c.want, picked)
    requires n < |Frames(Msgs(codec, has, picked))| && Concat(inputs) == Frames(Msgs(codec, has, picked))[..n]
    ensures var (c', out, _) := PollUntil(codec, c, inputs);
      var closed := Close(c').1;
      && out == Need && closed.FetchDone?
      && forall t :: Entries(closed.outcomes, t) ==
           Owed(codec, has, c.want, picked, picked[..Arrived(Msgs(codec, has, picked), n)], t)
  {
    var rest := BrokenStream(codec, has, c, picked, Msgs(codec, has, picked), n, inputs);
    ClosedOwes(codec, has, c.(buf := rest), picked, Arrived(Msgs(codec, has, picked), n));
  }

  lemma BrokenStream(codec: Codec, has: Triple -> bool, c: Client, ts: seq<Triple>, ms: seq<Bytes>, n: nat, inputs: seq<Bytes>)
      returns (rest: Bytes)
    requires codec.LawfulOn(ts) && c.state.AwaitDeliveries? && c.state.remaining == |ts| == |ms| && c.buf == []
    requires ms == Msgs(codec, has, ts) && n < |Frames(ms)| && Concat(inputs) == Frames(ms)[..n]
    ensures PollUntil(codec, c, inputs) == (TakeMsgs(codec, has, c.(buf := rest), ts[..Arrived(ms, n)]), Need, [])
  {
    if inputs == [] {
      rest := [];
      assert c.(buf := []) == c && n == 0;
    } else {
      var now := c.(buf := c.buf + Concat(inputs));
      rest := TakesSome(codec, has, now, ts, ms, n);
      NeedFragments(codec, c, inputs);
    }
  }
}
