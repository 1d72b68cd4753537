/** A codec that meets the laws, and the fetch at concrete inputs (crates/wire/src/adapter.rs). */
module FetchWitness {
  import opened Types
  import opened Protobuf
  import opened Messages
  import opened Adapter
  import opened FetchProof
  import opened FetchTheorem

  /** Triples as words: the address is a one, then the varint of the triple. */
  function WordAddress(t: Triple): Bytes {
    [1] + if 0 <= t < U64 then Varint(t) else []
  }

  function WordOf(address: Bytes): Option<Triple> {
    if address == [] then None
    else match GetUvarint(address[1..]) case None => None case Some(r) => Some(r.0)
  }

  function WordCodec(): Codec {
    Codec(t => WordAddress(t), t => [], t => [], t => [], t => [],
          (a, b, s) => WordOf(a), (d: Delivery) => WordOf(d.address), (t, d) => Delivered)
  }

  lemma WordReads(t: nat)
    requires t < U64
    ensures WordOf(WordAddress(t)) == Some(t) && |WordAddress(t)| <= 1 + MAX_VARINT
  {
    VarintRoundTrip(t, []);
    assert Varint(t) + [] == Varint(t) && WordAddress(t)[1..] == Varint(t);
  }

  lemma WordsAreLawful(t: nat)
    requires t < U64
    ensures WordCodec().LawfulAt(t) && |EncodeChunk(WordCodec().ChunkOf(t))| <= 40
  {
    WordReads(t);
    assert WordAddress(t)[0] == 1;
    SmallField(1, WordAddress(t));
  }

  lemma {:induction false} ChunksFit(cs: seq<Chunk>)
    requires forall c :: c in cs ==> |EncodeChunk(c)| <= 40
    ensures |EncodeChunks(cs)| <= 60 * |cs|
    decreases |cs|
  {
    if cs != [] {
      assert cs[0] in cs;
      ChunksFit(cs[1..]);
      SmallField(2, EncodeChunk(cs[0]));
    }
  }

  /** The laws the fetch theorems ask for can be met: this codec serves any page of words. */
  lemma WordsAreServable(entries: seq<(BinId, Triple)>, topmost: nat)
    requires |entries| <= MAX_PAGE && topmost < U64 && forall e :: e in entries ==> 0 <= e.1 < U64
    ensures Servable(WordCodec(), entries, topmost)
  {
    var codec := WordCodec();
    var chunks := ChunksOf(codec, entries);
    forall c | c in chunks ensures |EncodeChunk(c)| <= 40 {
      var i :| 0 <= i < |entries| && c == codec.ChunkOf(entries[i].1);
      assert entries[i] in entries;
      WordsAreLawful(entries[i].1);
    }
    ChunksFit(chunks);
    forall e | e in entries ensures codec.LawfulAt(e.1) { WordsAreLawful(e.1); }
    VarintRoundTrip(8, []);
    VarintRoundTrip(topmost, []);
  }

  /** A whole fetch, each message in one piece. */
  ghost function WholeFetch(codec: Codec, reserve: Reserve, bin: nat, start: nat, want: seq<Triple>): ClientOut {
    var (c0, get) := Poll(codec, NewClient(bin, start, want), []);
    var (s1, offer) := Serve(codec, reserve, Server([], AwaitGet), if get.Send? then get.frames else []);
    var (c1, answer, _) := PollUntil(codec, c0, [if offer.Reply? then offer.frames else []]);
    if !answer.Send? then answer
    else
      var (_, sent) := Serve(codec, reserve, s1, answer.frames);
      PollUntil(codec, c1, [if sent.Reply? then sent.frames else []]).1
  }

  lemma WholeFetchOwes(codec: Codec, reserve: Reserve, bin: nat, start: nat, want: seq<Triple>,
                       entries: seq<(BinId, Triple)>, topmost: nat)
    requires bin < 256 && start < U64 && reserve.collect(bin, start, MAX_PAGE) == (entries, topmost)
    requires Servable(codec, entries, topmost) && entries != []
    ensures var done := WholeFetch(codec, reserve, bin, start, want);
      done.FetchDone? && Owes(codec, reserve.has, entries, want, done.outcomes)
  {
    var (c0, get) := Poll(codec, NewClient(bin, start, want), []);
    var (s1, offer) := Serve(codec, reserve, Server([], AwaitGet), if get.Send? then get.frames else []);
    var offers := [if offer.Reply? then offer.frames else []];
    assert Concat(offers) == offers[0] + [] == offers[0];
    var (c1, answer, _) := PollUntil(codec, c0, offers);
    var sent := Serve(codec, reserve, s1, if answer.Send? then answer.frames else []).1;
    var deliveries := [if sent.Reply? then sent.frames else []];
    assert Concat(deliveries) == deliveries[0] + [] == deliveries[0];
    FetchEndToEnd(codec, reserve, bin, start, want, entries, topmost, offers, deliveries);
  }

  lemma TwiceIsTwo(codec: Codec, has: Triple -> bool, outs: seq<(Triple, Outcome)>)
    requires Owes(codec, has, [(1, 8)], [7, 7], outs)
    ensures Entries(outs, 7) == [Missed, Missed]
  {
    var want: seq<Triple> := [7, 7];
    assert want[..1] == [7] && want[..1][..0] == [];
    assert Times(want[..1], 7) == 1 && Times(want, 7) == 2;
    assert Misses(2) == Misses(1) + [Missed] && Misses(1) == [Missed];
    assert !Offered([(1, 8)], 7);
  }

  /** A client that wants 7 twice, of a server that offers 8, has it missed twice. */
  lemma WantedTwiceMissedTwice()
    ensures var done := WholeFetch(WordCodec(), Reserve((b, s, l) => ([(1, 8)], 1), t => true), 0, 1, [7, 7]);
      done.FetchDone? && Entries(done.outcomes, 7) == [Missed, Missed]
  {
    var codec, reserve := WordCodec(), Reserve((b, s, l) => ([(1, 8)], 1), t => true);
    WordsAreServable([(1, 8)], 1);
    WholeFetchOwes(codec, reserve, 0, 1, [7, 7], [(1, 8)], 1);
    TwiceIsTwo(codec, reserve.has, WholeFetch(codec, reserve, 0, 1, [7, 7]).outcomes);
  }
}
