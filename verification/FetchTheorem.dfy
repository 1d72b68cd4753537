/** The fetch over bytes, end to end (crates/wire/src/adapter.rs): whatever fragments the stream
    arrives in, each wanted triple gets its verdict. */
module FetchTheorem {
  import opened Types
  import opened Settlement
  import opened Protobuf
  import opened Messages
  import Bitvector
  import opened Adapter
  import opened FetchProof

  // --- the outcomes, triple by triple -----------------------------------------------------------

  /** The outcomes listed for `t`, in order. */
  function Entries(outs: seq<(Triple, Outcome)>, t: Triple): seq<Outcome> {
    if outs == [] then []
    else
      Entries(outs[..|outs| - 1], t) + if outs[|outs| - 1].0 == t then [outs[|outs| - 1].1] else []
  }

  lemma {:induction false} EntriesConcat(a: seq<(Triple, Outcome)>, b: seq<(Triple, Outcome)>, t: Triple)
    ensures Entries(a + b, t) == Entries(a, t) + Entries(b, t)
    decreases |b|
  {
    if b == [] {
      assert a + b == a;
    } else {
      assert (a + b)[..|a + b| - 1] == a + b[..|b| - 1];
      EntriesConcat(a, b[..|b| - 1], t);
    }
  }

  /** How often `t` is wanted. */
  function Times(want: seq<Triple>, t: Triple): nat {
    if want == [] then 0 else Times(want[..|want| - 1], t) + if want[|want| - 1] == t then 1 else 0
  }

  lemma {:induction false} TimesPositive(want: seq<Triple>, t: Triple)
    ensures Times(want, t) > 0 <==> t in want
  {
    if want != [] {
      TimesPositive(want[..|want| - 1], t);
      assert want == want[..|want| - 1] + [want[|want| - 1]];
    }
  }

  function Misses(n: nat): (r: seq<Outcome>)
    ensures |r| == n && forall i :: 0 <= i < n ==> r[i] == Missed
  {
    if n == 0 then [] else Misses(n - 1) + [Missed]
  }

  lemma {:induction false} MissedEntries(want: seq<Triple>, picked: seq<Triple>, t: Triple)
    ensures Entries(MissedOf(want, picked), t) == if t in picked then [] else Misses(Times(want, t))
    decreases |want|
  {
    if want != [] {
      var front, last := want[..|want| - 1], want[|want| - 1];
      MissedEntries(front, picked, t);
      var one := if last in picked then [] else [(last, Missed)];
      EntriesConcat(MissedOf(front, picked), one, t);
      assert one != [] ==> one[..0] == [];
    }
  }

  lemma {:induction false} OutsEntries(codec: Codec, has: Triple -> bool, ts: seq<Triple>, t: Triple)
    requires Distinct(ts)
    ensures Entries(Outs(codec, has, ts), t) == if t in ts && has(t) then [codec.validate(t, codec.DeliveryOf(t))] else []
    decreases |ts|
  {
    if ts != [] {
      OutsEntries(codec, has, ts[1..], t);
      EntriesConcat(OneOut(codec, has, ts[0]), Outs(codec, has, ts[1..]), t);
      var one := OneOut(codec, has, ts[0]);
      assert one != [] ==> one[..0] == [];
      assert t in ts <==> t == ts[0] || t in ts[1..];
    }
  }

  lemma {:induction false} AscendingLists(s: set<Triple>)
    ensures Distinct(Ascending(s)) && forall t :: t in Ascending(s) <==> t in s
    decreases s
  {
    if s != {} {
      var m := MinOf(s);
      AscendingLists(s - {m});
      assert forall t :: t in Ascending(s) <==> t == m || t in Ascending(s - {m});
    }
  }

  lemma {:induction false} AllMissedEntries(ts: seq<Triple>, t: Triple)
    requires Distinct(ts)
    ensures Entries(AllMissed(ts), t) == if t in ts then [Missed] else []
    decreases |ts|
  {
    if ts != [] {
      var front := ts[..|ts| - 1];
      AllMissedEntries(front, t);
      assert AllMissed(ts)[..|ts| - 1] == AllMissed(front);
      assert t in ts <==> t in front || t == ts[|ts| - 1];
    }
  }

  /** The outcomes of a fetch that ends after deliveries for `taken`. */
  ghost function ResultsAfter(codec: Codec, has: Triple -> bool, want: seq<Triple>, picked: seq<Triple>, taken: seq<Triple>): seq<(Triple, Outcome)> {
    MissedOf(want, picked) + Outs(codec, has, taken) + AllMissed(Ascending(Members(picked) - HeldOf(has, taken)))
  }

  /** The outcomes of a whole fetch. */
  ghost function Results(codec: Codec, has: Triple -> bool, want: seq<Triple>, picked: seq<Triple>): seq<(Triple, Outcome)> {
    ResultsAfter(codec, has, want, picked, picked)
  }

  function Verdict(codec: Codec, has: Triple -> bool, t: Triple): Outcome {
    if has(t) then codec.validate(t, codec.DeliveryOf(t)) else Missed
  }

  /** What `t` is owed once deliveries for `taken` have come: its one outcome if it was picked,
      a miss for each time it was wanted if not. */
  function Owed(codec: Codec, has: Triple -> bool, want: seq<Triple>, picked: seq<Triple>, taken: seq<Triple>, t: Triple): seq<Outcome> {
    if t in picked then [if t in taken then Verdict(codec, has, t) else Missed] else Misses(Times(want, t))
  }

  lemma ResultsEntries(codec: Codec, has: Triple -> bool, want: seq<Triple>, picked: seq<Triple>, taken: seq<Triple>, t: Triple)
    requires Distinct(picked) && Distinct(taken) && Members(taken) <= Members(picked)
    ensures Entries(ResultsAfter(codec, has, want, picked, taken), t) == Owed(codec, has, want, picked, taken, t)
  {
    var late := Members(picked) - HeldOf(has, taken);
    MissedEntries(want, picked, t);
    OutsEntries(codec, has, taken, t);
    AscendingLists(late);
    AllMissedEntries(Ascending(late), t);
    assert t in late <==> t in picked && !(t in taken && has(t));
    assert t in taken ==> t in Members(taken);
    EntriesConcat(MissedOf(want, picked), Outs(codec, has, taken), t);
    EntriesConcat(MissedOf(want, picked) + Outs(codec, has, taken), AllMissed(Ascending(late)), t);
  }

  // --- fragments --------------------------------------------------------------------------------------

  function Concat(inputs: seq<Bytes>): Bytes {
    if inputs == [] then [] else inputs[0] + Concat(inputs[1..])
  }

  /** What the client makes of its buffer, once its request is out. */
  ghost function Respond(codec: Codec, c: Client): (Client, ClientOut) {
    match c.state
    case AwaitDeliveries(_, _) => PollDeliveries(codec, c)
    case _ => PollOffer(codec, c)
  }

  /** Poll with each fragment until there is an answer. */
  ghost function PollUntil(codec: Codec, c: Client, inputs: seq<Bytes>): (Client, ClientOut, seq<Bytes>)
    decreases |inputs|
  {
    if inputs == [] then (c, Need, [])
    else
      var (c1, out) := Poll(codec, c, inputs[0]);
      if out == Need then PollUntil(codec, c1, inputs[1..]) else (c1, out, inputs[1..])
  }

  lemma OverCapStable(buf: Bytes, suffix: Bytes)
    requires Deframe(buf) == OverCap
    ensures Deframe(buf + suffix) == OverCap
  {
    UnvarintStable(buf, suffix, MAX_VARINT);
  }

  lemma BehindStays(buf: Bytes, n: nat, x: Bytes)
    requires n <= |buf|
    ensures (buf + x)[n..] == buf[n..] + x
  {
  }

  /** Bytes behind an answer change nothing about it; a client that needs more can as well be
      asked again once more is there. */
  lemma {:induction false} DeliveriesStable(codec: Codec, c: Client, x: Bytes)
    requires c.state.AwaitDeliveries?
    ensures var (c1, out) := PollDeliveries(codec, c);
      && (out == Need ==> c1.state.AwaitDeliveries?)
      && (out == Need ==>
            PollDeliveries(codec, c.(buf := c.buf + x)) == PollDeliveries(codec, c1.(buf := c1.buf + x)))
      && (out != Need ==> PollDeliveries(codec, c.(buf := c.buf + x)) == (c1.(buf := c1.buf + x), out))
    decreases |c.buf|
  {
    if c.state.remaining > 0 {
      match Deframe(c.buf) {
        case NeedMore =>
        case OverCap => OverCapStable(c.buf, x);
        case Message(msg, n) =>
          DeframeStable(c.buf, x);
          BehindStays(c.buf, n, x);
          match DecodeDelivery(msg) {
            case None =>
            case Some(d) =>
              var c' := TakeDelivery(codec, c.(buf := c.buf[n..]), d);
              DeliveriesStable(codec, c', x);
              assert TakeDelivery(codec, c.(buf := c.buf[n..] + x), d) == c'.(buf := c'.buf + x);
          }
      }
    }
  }

  lemma OfferStable(codec: Codec, c: Client, x: Bytes)
    requires c.state == AwaitOffer
    ensures var (c1, out) := PollOffer(codec, c);
      && (out == Need ==> c1 == c)
      && (out != Need ==> PollOffer(codec, c.(buf := c.buf + x)) == (c1.(buf := c1.buf + x), out))
  {
    match Deframe(c.buf) {
      case NeedMore =>
      case OverCap => OverCapStable(c.buf, x);
      case Message(msg, n) =>
        DeframeStable(c.buf, x);
        BehindStays(c.buf, n, x);
    }
  }

  /** Any fragmentation of the same bytes leads to the same answer. */
  lemma {:induction false} AnyFragments(codec: Codec, c: Client, inputs: seq<Bytes>)
    requires c.state != SendGet && inputs != []
    requires Respond(codec, c.(buf := c.buf + Concat(inputs))).1 != Need
    ensures var (whole, answer) := Respond(codec, c.(buf := c.buf + Concat(inputs)));
      var (c', out, rest) := PollUntil(codec, c, inputs);
      out == answer && c'.(buf := c'.buf + Concat(rest)) == whole
    decreases |inputs|
  {
    var x, rest := inputs[0], inputs[1..];
    var now := c.(buf := c.buf + x);
    var (c1, out) := Respond(codec, now);
    assert Poll(codec, c, x) == (c1, out);
    assert c.buf + Concat(inputs) == now.buf + Concat(rest);
    if c.state.AwaitDeliveries? {
      DeliveriesStable(codec, now, Concat(rest));
    } else {
      OfferStable(codec, now, Concat(rest));
    }
    assert rest == [] ==> now.buf + Concat(rest) == now.buf;
    if out == Need {
      AnyFragments(codec, c1, rest);
    }
  }

  // --- the four legs ----------------------------------------------------------------------------------

  /** What the serving side needs to hold for its answer to travel. */
  ghost predicate Servable(codec: Codec, entries: seq<(BinId, Triple)>, topmost: nat) {
    && codec.LawfulFor(entries)
    && |entries| <= MAX_PAGE && topmost < U64
    && |EncodeOffer(Offer(topmost, ChunksOf(codec, entries)))| <= MAX_FRAME
  }

  lemma GetFits(m: Get)
    requires m.bin < U32 && m.start < U64
    ensures |EncodeGet(m)| <= MAX_FRAME
  {
    VarintRoundTrip(8, []);
    VarintRoundTrip(16, []);
    VarintRoundTrip(m.bin, []);
    VarintRoundTrip(m.start, []);
  }

  lemma WholeFrame(msg: Bytes)
    requires |msg| <= MAX_FRAME
    ensures Deframe(Frame(msg)) == Message(msg, |Frame(msg)|)
    ensures Frame(msg)[|Frame(msg)|..] == []
  {
    FrameRoundTrip(msg, []);
    assert Frame(msg) + [] == Frame(msg);
  }

  lemma GetArrives(codec: Codec, reserve: Reserve, get: Get)
    requires get.bin < U32 && get.start < U64
    ensures Serve(codec, reserve, Server([], AwaitGet), Frame(EncodeGet(get))) ==
      TakeGet(codec, reserve, Server([], AwaitGet), get)
  {
    GetFits(get);
    WholeFrame(EncodeGet(get));
    GetRoundTrip(get);
    assert [] + Frame(EncodeGet(get)) == Frame(EncodeGet(get));
  }

  /** Get to offer: the server answers a Get with everything it collected, named; it blocks if
      that is nothing and nothing is covered. */
  lemma GetLeg(codec: Codec, reserve: Reserve, bin: nat, start: nat, entries: seq<(BinId, Triple)>, topmost: nat)
    requires bin < 256 && start < U64 && reserve.collect(bin, start, MAX_PAGE) == (entries, topmost)
    ensures Serve(codec, reserve, Server([], AwaitGet), Frame(EncodeGet(Get(bin, start)))) ==
      if entries == [] && topmost < start then (Server([], AwaitGet), Blocked(bin, start))
      else (Server([], if entries == [] then AwaitGet else AwaitWant(entries)),
            Reply(Frame(EncodeOffer(Offer(topmost, ChunksOf(codec, entries))))))
  {
    var get := Get(bin, start);
    GetArrives(codec, reserve, get);
    TakesGet(codec, reserve, get, entries, topmost);
  }

  lemma TakesGet(codec: Codec, reserve: Reserve, get: Get, entries: seq<(BinId, Triple)>, topmost: nat)
    requires get.bin < 256 && reserve.collect(get.bin, get.start, MAX_PAGE) == (entries, topmost)
    ensures TakeGet(codec, reserve, Server([], AwaitGet), get) ==
      if entries == [] && topmost < get.start then (Server([], AwaitGet), Blocked(get.bin, get.start))
      else (Server([], if entries == [] then AwaitGet else AwaitWant(entries)),
            Reply(Frame(EncodeOffer(Offer(topmost, ChunksOf(codec, entries))))))
  {
  }

  lemma OfferDecodes(codec: Codec, entries: seq<(BinId, Triple)>, topmost: nat)
    requires Servable(codec, entries, topmost)
    ensures DecodeOffer(EncodeOffer(Offer(topmost, ChunksOf(codec, entries)))) == Some(Offer(topmost, ChunksOf(codec, entries)))
  {
    var offer := Offer(topmost, ChunksOf(codec, entries));
    forall c | c in offer.chunks ensures ChunkFits(c) && Named(c) {
      var i :| 0 <= i < |entries| && c == codec.ChunkOf(entries[i].1);
      assert entries[i] in entries && codec.LawfulAt(entries[i].1);
    }
    OfferRoundTrip(offer);
  }

  ghost function WantFrame(codec: Codec, chunks: seq<Chunk>, want: seq<Triple>): Bytes {
    Frame(EncodeWant(Want(PickBits(codec, chunks, want, |chunks|))))
  }

  /** Offer to want: in any fragments, the client picks what it wants of the offer and books
      the rest as missed. */
  lemma OfferLeg(codec: Codec, c: Client, entries: seq<(BinId, Triple)>, topmost: nat, inputs: seq<Bytes>)
    requires Servable(codec, entries, topmost) && entries != []
    requires c.state == AwaitOffer && c.buf == [] && c.outcomes == []
    requires inputs != [] && Concat(inputs) == Frame(EncodeOffer(Offer(topmost, ChunksOf(codec, entries))))
    ensures var chunks := ChunksOf(codec, entries);
      var picked := Picked(codec, chunks, c.want, |chunks|);
      var (c', out, rest) := PollUntil(codec, c, inputs);
      && out == Send(WantFrame(codec, chunks, c.want))
      && c'.buf == [] && Concat(rest) == []
      && c' == c.(state := AwaitDeliveries(Members(picked), |picked|), outcomes := MissedOf(c.want, picked))
  {
    var chunks := ChunksOf(codec, entries);
    var msg := EncodeOffer(Offer(topmost, chunks));
    WholeFrame(msg);
    OfferDecodes(codec, entries, topmost);
    assert [] + Concat(inputs) == Frame(msg);
    AnyFragments(codec, c, inputs);
    PickedDistinct(codec, chunks, c.want, |chunks|);
    MembersCount(Picked(codec, chunks, c.want, |chunks|));
    assert [] + MissedOf(c.want, Picked(codec, chunks, c.want, |chunks|)) == MissedOf(c.want, Picked(codec, chunks, c.want, |chunks|));
    var (c', out, rest) := PollUntil(codec, c, inputs);
    assert |c'.buf + Concat(rest)| == |c'.buf| + |Concat(rest)|;
  }

  /** An empty offer ends the fetch at once, with every want missed. */
  lemma EmptyLeg(codec: Codec, c: Client, topmost: nat, inputs: seq<Bytes>)
    requires Servable(codec, [], topmost)
    requires c.state == AwaitOffer && c.buf == [] && c.outcomes == []
    requires inputs != [] && Concat(inputs) == Frame(EncodeOffer(Offer(topmost, [])))
    ensures PollUntil(codec, c, inputs).1 == FetchDone(MissedOf(c.want, []))
  {
    assert ChunksOf(codec, []) == [];
    WholeFrame(EncodeOffer(Offer(topmost, [])));
    OfferDecodes(codec, [], topmost);
    assert [] + Concat(inputs) == Concat(inputs);
    assert [] + MissedOf(c.want, []) == MissedOf(c.want, []);
    AnyFragments(codec, c, inputs);
  }

  lemma {:induction false} MembersCount(ts: seq<Triple>)
    requires Distinct(ts)
    ensures |Members(ts)| == |ts|
    decreases |ts|
  {
    if ts != [] {
      var front, t := ts[..|ts| - 1], ts[|ts| - 1];
      MembersCount(front);
      assert t !in front && forall x :: x in ts <==> x in front || x == t;
      assert Members(ts) == Members(front) + {t};
    }
  }

  /** Want to deliveries: the server sends one frame per bit, and none exactly if none is set. */
  lemma WantLeg(codec: Codec, reserve: Reserve, entries: seq<(BinId, Triple)>, topmost: nat, want: seq<Triple>)
    requires Servable(codec, entries, topmost)
    ensures var chunks := ChunksOf(codec, entries);
      var picked := Picked(codec, chunks, want, |chunks|);
      Serve(codec, reserve, Server([], AwaitWant(entries)), WantFrame(codec, chunks, want)) ==
        (Server([], AwaitWant(entries)),
         if picked == [] then Done else Reply(Frames(Msgs(codec, reserve.has, picked))))
  {
    var chunks := ChunksOf(codec, entries);
    var w := Want(PickBits(codec, chunks, want, |chunks|));
    SmallField(1, w.bitvector);
    WholeFrame(EncodeWant(w));
    WantRoundTrip(w);
    assert [] + Frame(EncodeWant(w)) == Frame(EncodeWant(w));
    ServedArePicked(codec, reserve.has, entries, want);
    FramesEmpty(codec, reserve.has, Picked(codec, chunks, want, |chunks|));
  }

  lemma FramesEmpty(codec: Codec, has: Triple -> bool, ts: seq<Triple>)
    ensures Frames(Msgs(codec, has, ts)) == [] <==> ts == []
  {
    if ts != [] {
      MsgsFront(codec, has, ts);
    }
  }

  lemma WholeDelivery(codec: Codec, has: Triple -> bool, c: Client, picked: seq<Triple>)
    requires codec.LawfulOn(picked) && Distinct(picked)
    requires c.state == AwaitDeliveries(Members(picked), |picked|)
    requires c.buf == Frames(Msgs(codec, has, picked)) && c.outcomes == MissedOf(c.want, picked)
    ensures PollDeliveries(codec, c).1 == FetchDone(Results(codec, has, c.want, picked))
  {
    assert c.buf == Frames(Msgs(codec, has, picked)) + [];
    TakesAll(codec, has, c, picked, []);
    TakesMsgs(codec, has, c.(buf := []), picked);
  }

  /** Deliveries to outcomes, in any fragments. */
  lemma DeliveryLeg(codec: Codec, has: Triple -> bool, c: Client, picked: seq<Triple>, inputs: seq<Bytes>)
    requires codec.LawfulOn(picked) && Distinct(picked) && inputs != []
    requires c.state == AwaitDeliveries(Members(picked), |picked|) && c.buf == []
    requires Concat(inputs) == Frames(Msgs(codec, has, picked)) && c.outcomes == MissedOf(c.want, picked)
    ensures PollUntil(codec, c, inputs).1 == FetchDone(Results(codec, has, c.want, picked))
  {
    assert [] + Concat(inputs) == Concat(inputs);
    WholeDelivery(codec, has, c.(buf := c.buf + Concat(inputs)), picked);
    AnyFragments(codec, c, inputs);
  }

  // --- end to end ----------------------------------------------------------------------------------------

  /** The offer names `t`. */
  ghost predicate Offered(entries: seq<(BinId, Triple)>, t: Triple) {
    exists e :: e in entries && e.1 == t
  }

  lemma OfferedIsNamed(codec: Codec, entries: seq<(BinId, Triple)>, t: Triple)
    requires codec.LawfulFor(entries)
    ensures Names(codec, ChunksOf(codec, entries), |entries|, t) <==> Offered(entries, t)
  {
    var chunks := ChunksOf(codec, entries);
    forall j | 0 <= j < |entries| ensures NamesAt(codec, chunks, j, t) <==> entries[j].1 == t {
      assert entries[j] in entries && codec.LawfulAt(entries[j].1);
    }
    if Offered(entries, t) {
      var e :| e in entries && e.1 == t;
      var j :| 0 <= j < |entries| && entries[j] == e;
      assert NamesAt(codec, chunks, j, t);
    }
    if Names(codec, chunks, |entries|, t) {
      var j :| 0 <= j < |entries| && NamesAt(codec, chunks, j, t);
      assert entries[j] in entries;
    }
  }

  /** The outcomes a fetch owes: for a wanted triple the server offered, its verdict, once; for
      any other, a miss for each time it was wanted. */
  ghost predicate Owes(codec: Codec, has: Triple -> bool, entries: seq<(BinId, Triple)>, want: seq<Triple>, outs: seq<(Triple, Outcome)>) {
    forall t :: Entries(outs, t) ==
      if t in want && Offered(entries, t) then [Verdict(codec, has, t)] else Misses(Times(want, t))
  }

  /** End to end. The client's Get, the server's offer in any fragments, the client's want, and
      the server's deliveries in any fragments: the fetch ends with exactly the outcomes owed.
      An empty page ends it at once; a server asked for nothing sends nothing, and the client's
      next poll finishes; a server with nothing to cover blocks. */
  lemma FetchEndToEnd(codec: Codec, reserve: Reserve, bin: nat, start: nat, want: seq<Triple>,
                      entries: seq<(BinId, Triple)>, topmost: nat, offers: seq<Bytes>, deliveries: seq<Bytes>)
    requires bin < 256 && start < U64 && reserve.collect(bin, start, MAX_PAGE) == (entries, topmost)
    requires Servable(codec, entries, topmost) && offers != [] && deliveries != []
    ensures var (c0, get) := Poll(codec, NewClient(bin, start, want), []);
      get.Send? &&
      var (s1, offer) := Serve(codec, reserve, Server([], AwaitGet), get.frames);
      if entries == [] && topmost < start then offer == Blocked(bin, start)
      else
        offer.Reply? && (Concat(offers) == offer.frames ==>
          var (c1, answer, _) := PollUntil(codec, c0, offers);
          if entries == [] then answer.FetchDone? && Owes(codec, reserve.has, entries, want, answer.outcomes)
          else
            answer.Send? &&
            var (_, sent) := Serve(codec, reserve, s1, answer.frames);
            (Concat(deliveries) == (if sent.Reply? then sent.frames else []) ==>
              var done := PollUntil(codec, c1, deliveries).1;
              done.FetchDone? && Owes(codec, reserve.has, entries, want, done.outcomes)))
  {
    var c0 := NewClient(bin, start, want).(state := AwaitOffer);
    assert NewClient(bin, start, want).buf + [] == [];
    GetLeg(codec, reserve, bin, start, entries, topmost);
    var chunks := ChunksOf(codec, entries);
    var picked := Picked(codec, chunks, want, |chunks|);
    if Concat(offers) == Frame(EncodeOffer(Offer(topmost, chunks))) && entries == [] {
      assert chunks == [];
      EmptyLeg(codec, c0, topmost, offers);
      NothingOffered(codec, reserve.has, want);
    } else if Concat(offers) == Frame(EncodeOffer(Offer(topmost, chunks))) {
      OfferLeg(codec, c0, entries, topmost, offers);
      WantLeg(codec, reserve, entries, topmost, want);
      FramesEmpty(codec, reserve.has, picked);
      if Concat(deliveries) == Frames(Msgs(codec, reserve.has, picked)) {
        PickedDistinct(codec, chunks, want, |chunks|);
        PickedLawful(codec, entries, want);
        DeliveryLeg(codec, reserve.has, PollUntil(codec, c0, offers).0, picked, deliveries);
        ResultsOwed(codec, reserve.has, entries, want);
      }
    }
  }

  lemma PickedLawful(codec: Codec, entries: seq<(BinId, Triple)>, want: seq<Triple>)
    requires codec.LawfulFor(entries)
    ensures codec.LawfulOn(Picked(codec, ChunksOf(codec, entries), want, |entries|))
  {
    var chunks := ChunksOf(codec, entries);
    forall t | t in Picked(codec, chunks, want, |entries|) ensures codec.LawfulAt(t) {
      PickedAre(codec, chunks, want, |entries|, t);
      OfferedIsNamed(codec, entries, t);
      var e :| e in entries && e.1 == t;
    }
  }

  lemma NothingOffered(codec: Codec, has: Triple -> bool, want: seq<Triple>)
    ensures Owes(codec, has, [], want, MissedOf(want, []))
  {
    forall t ensures Entries(MissedOf(want, []), t) == Misses(Times(want, t)) {
      MissedEntries(want, [], t);
    }
  }

  lemma ResultsOwed(codec: Codec, has: Triple -> bool, entries: seq<(BinId, Triple)>, want: seq<Triple>)
    requires codec.LawfulFor(entries)
    ensures var chunks := ChunksOf(codec, entries);
      Owes(codec, has, entries, want, Results(codec, has, want, Picked(codec, chunks, want, |chunks|)))
  {
    var chunks := ChunksOf(codec, entries);
    var picked := Picked(codec, chunks, want, |chunks|);
    PickedDistinct(codec, chunks, want, |chunks|);
    forall t ensures Entries(Results(codec, has, want, picked), t) ==
      if t in want && Offered(entries, t) then [Verdict(codec, has, t)] else Misses(Times(want, t)) {
      PickedAre(codec, chunks, want, |chunks|, t);
      OfferedIsNamed(codec, entries, t);
      ResultsEntries(codec, has, want, picked, picked, t);
    }
  }

  /** So each wanted triple gets exactly one outcome if and only if none that is wanted twice
      is missing from the offer. */
  lemma OneOutcomeEach(codec: Codec, has: Triple -> bool, entries: seq<(BinId, Triple)>, want: seq<Triple>, outs: seq<(Triple, Outcome)>)
    requires Owes(codec, has, entries, want, outs)
    ensures (forall t :: t in want ==> |Entries(outs, t)| == 1) <==>
      forall t :: t in want && Times(want, t) > 1 ==> Offered(entries, t)
  {
    forall t | t in want ensures |Entries(outs, t)| == 1 <==> (Times(want, t) > 1 ==> Offered(entries, t)) {
      TimesPositive(want, t);
      assert Entries(outs, t) == if Offered(entries, t) then [Verdict(codec, has, t)] else Misses(Times(want, t));
    }
  }
}
