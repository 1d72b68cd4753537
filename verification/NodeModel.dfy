/** The node core (crates/node/src/lib.rs, crates/node/src/discovery.rs) as a function of
    events to effects. Passes that the source runs as loops over independent rows are stated
    row by row; module NodeCore proves the loops compute them. */
module NodeModel {
  import opened Types
  import opened Machine
  import opened Settlement

  /** A (peer, bin) channel, in the order the source's maps iterate. */
  type Key = (PeerId, Bin)

  datatype Event =
    | PeerSeen(peer: PeerId)
    | PeerGone(peer: PeerId)
    | CursorsResult(peer: PeerId, cursors: seq<(Bin, BinId)>)
    | OfferResult(peer: PeerId, bin: Bin, start: BinId, refs: seq<(BinId, Triple)>, topmost: BinId)
    | FetchResult(peer: PeerId, bin: Bin, outcomes: seq<(Triple, Outcome)>)
    | Tick

  datatype Effect =
    | GetCursors(peer: PeerId)
    | Offer(peer: PeerId, bin: Bin, start: BinId)
    | Fetch(peer: PeerId, bin: Bin, want: seq<Triple>)
    | Settled(peer: PeerId, bin: Bin, upto: BinId)

  datatype Policy = Policy(cumulativeRouting: bool, window: nat)

  const SHIPPED := Policy(true, 256)

  datatype Node = Node(
    m: State,
    policy: Policy,
    radius: Bin,
    peers: set<PeerId>,
    cursors: map<Key, BinId>,
    logs: map<Key, Log>,
    binOf: map<Triple, Bin>,
    assignments: map<PeerId, nat>,
    offerOpen: set<Key>)
  {
    function Depth(c: Triple): Bin {
      if c in binOf then binOf[c] else 0
    }

    function Cursor(k: Key): BinId {
      if k in cursors then cursors[k] else 0
    }

    function LogAt(k: Key): Log {
      if k in logs then logs[k] else EMPTY
    }

    function Assigned(p: PeerId): nat {
      if p in assignments then assignments[p] else 0
    }

    /** What the routing policy minimises first. */
    function Realised(p: PeerId): nat {
      if policy.cumulativeRouting then Assigned(p) else 0
    }

    ghost predicate LogsValid() {
      forall k :: k in logs ==> logs[k].Valid()
    }
  }

  function New(cfg: Config, radius: Bin, policy: Policy): Node {
    Node(Initial(cfg), policy, radius, {}, map[], map[], map[], map[], {})
  }

  // --- key order ----------------------------------------------------------------------

  predicate KeyLess(a: Key, b: Key) {
    a.0 < b.0 || (a.0 == b.0 && a.1 < b.1)
  }

  ghost predicate IsFirst(s: set<Key>, k: Key) {
    k in s && forall x :: x in s ==> x == k || KeyLess(k, x)
  }

  lemma FirstExists(s: set<Key>) returns (k: Key)
    requires s != {}
    ensures IsFirst(s, k)
  {
    k := Witness(s);
    if s != {k} {
      var l := FirstExists(s - {k});
      assert forall x :: x in s ==> x == k || x in s - {k};
      if KeyLess(l, k) { k := l; }
    }
  }

  lemma SomeFirst(s: set<Key>)
    requires s != {}
    ensures exists k :: IsFirst(s, k)
  {
    var k := FirstExists(s);
  }

  ghost function FirstOf(s: set<Key>): (k: Key)
    requires s != {}
    ensures IsFirst(s, k)
  {
    SomeFirst(s);
    var k :| IsFirst(s, k);
    k
  }

  ghost function Sorted(s: set<Key>): seq<Key> {
    if s == {} then [] else [FirstOf(s)] + Sorted(s - {FirstOf(s)})
  }

  lemma {:induction false} SortedLists(s: set<Key>)
    ensures forall k :: k in Sorted(s) <==> k in s
    ensures |Sorted(s)| == |s|
    ensures forall i, j :: 0 <= i < j < |Sorted(s)| ==> Sorted(s)[i] != Sorted(s)[j]
  {
    if s != {} {
      var f := FirstOf(s);
      var rest := Sorted(s - {f});
      SortedLists(s - {f});
      assert Sorted(s) == [f] + rest;
      assert forall k :: k in Sorted(s) <==> k == f || k in rest;
      forall i, j | 0 <= i < j < |Sorted(s)| ensures Sorted(s)[i] != Sorted(s)[j] {
        assert Sorted(s)[j] == rest[j - 1] && rest[j - 1] in rest;
        if i > 0 { assert Sorted(s)[i] == rest[i - 1]; }
      }
    }
  }

  // --- 1. settle ------------------------------------------------------------------------

  /** Stored or terminally rejected. */
  function SettledBy(m: State): Triple -> bool {
    c => c in m.got || c in m.rejected
  }

  ghost function Advanced(n: Node, k: Key): Log
    requires n.LogsValid() && k in n.logs
  {
    n.logs[k].Advance(SettledBy(n.m))
  }

  /** The channel is drained and the peer is here, with no offer standing: extend coverage. */
  ghost predicate Reoffers(n: Node, k: Key)
    requires n.LogsValid()
  {
    k in n.logs && Advanced(n, k).Next() > n.logs[k].topmost && k.0 in n.peers && k !in n.offerOpen
  }

  ghost function KeyEffects(n: Node, k: Key): seq<Effect>
    requires n.LogsValid() && k in n.logs
  {
    var log := Advanced(n, k);
    (if log.interval > n.logs[k].interval then [Settled(k.0, k.1, log.interval)] else [])
    + (if Reoffers(n, k) then [Offer(k.0, k.1, log.Next())] else [])
  }

  ghost function SettleEffects(n: Node, keys: seq<Key>): seq<Effect>
    requires n.LogsValid() && forall k :: k in keys ==> k in n.logs
  {
    if keys == [] then [] else SettleEffects(n, keys[..|keys| - 1]) + KeyEffects(n, keys[|keys| - 1])
  }

  /** Settle one channel. */
  ghost function SettleOne(n: Node, k: Key): (r: (Node, seq<Effect>))
    requires n.LogsValid() && k in n.logs
    ensures r.0.LogsValid() && r.0.logs.Keys == n.logs.Keys
  {
    AdvanceTakesLargestPrefix(n.logs[k], SettledBy(n.m));
    (n.(logs := n.logs[k := Advanced(n, k)], offerOpen := if Reoffers(n, k) then n.offerOpen + {k} else n.offerOpen),
     KeyEffects(n, k))
  }

  ghost function SettleSeq(n: Node, keys: seq<Key>): (r: (Node, seq<Effect>))
    requires n.LogsValid() && forall k :: k in keys ==> k in n.logs
    ensures r.0.LogsValid() && r.0.logs.Keys == n.logs.Keys
  {
    if keys == [] then (n, [])
    else
      var (n1, fx1) := SettleSeq(n, keys[..|keys| - 1]);
      var (n2, fx2) := SettleOne(n1, keys[|keys| - 1]);
      (n2, fx1 + fx2)
  }

  /** All channels at once: each reads only its own rows. */
  ghost function SettlePass(n: Node): Node
    requires n.LogsValid()
  {
    n.(logs := map k | k in n.logs :: Advanced(n, k),
       offerOpen := n.offerOpen + set k | k in n.logs && Reoffers(n, k))
  }

  // --- 2. prune ---------------------------------------------------------------------------

  function Windowed(n: Node): set<Triple> {
    set k, b | k in n.logs && b in n.logs[k].entries :: n.logs[k].entries[b]
  }

  function Done(n: Node): set<Triple> {
    set c | c in n.binOf && n.m.Settled(c) && c !in Windowed(n)
  }

  function ForgetAll(m: State, cs: set<Triple>): State {
    m.(arrived := m.arrived - cs, live := m.live - cs, holders := m.holders - cs,
       excluded := m.excluded - cs, prio := m.prio - cs)
  }

  function Prune(n: Node): Node {
    n.(m := ForgetAll(n.m, Done(n)), binOf := n.binOf - Done(n))
  }

  // --- 3. reset ---------------------------------------------------------------------------

  function ResetAll(m: State, cs: set<Triple>): State {
    m.(excluded := m.excluded - set c | c in cs && m.CanResetExcluded(c))
  }

  function ResetPass(n: Node): Node {
    n.(m := ResetAll(n.m, n.binOf.Keys))
  }

  // --- 4. schedule --------------------------------------------------------------------------

  type Batches = map<Key, seq<Triple>>

  function BatchSize(b: Batches, k: Key): nat {
    if k in b then |b[k]| else 0
  }

  /** The enabled wants whose (peer, bin) still has window budget this round. */
  function Open(n: Node, b: Batches): set<(Triple, PeerId)> {
    set e | e in n.m.EnabledWants() && BatchSize(b, (e.1, n.Depth(e.0))) < n.policy.window
  }

  /** Deepest bin first, then the lowest triple. */
  predicate Sooner(n: Node, c: Triple, d: Triple) {
    n.Depth(c) > n.Depth(d) || (n.Depth(c) == n.Depth(d) && c <= d)
  }

  /** Least realised assignments, then least outstanding load, then lowest id. */
  predicate Lighter(n: Node, p: PeerId, q: PeerId) {
    || n.Realised(p) < n.Realised(q)
    || (n.Realised(p) == n.Realised(q) && n.m.Load(p) < n.m.Load(q))
    || (n.Realised(p) == n.Realised(q) && n.m.Load(p) == n.m.Load(q) && p <= q)
  }

  ghost predicate IsChoice(n: Node, es: set<(Triple, PeerId)>, e: (Triple, PeerId)) {
    && e in es
    && (forall f :: f in es ==> Sooner(n, e.0, f.0))
    && (forall f :: f in es && f.0 == e.0 ==> Lighter(n, e.1, f.1))
  }

  lemma {:induction false} SoonestExists(n: Node, es: set<(Triple, PeerId)>) returns (e: (Triple, PeerId))
    requires es != {}
    ensures e in es && forall f :: f in es ==> Sooner(n, e.0, f.0)
    decreases es
  {
    e := Witness(es);
    if es != {e} {
      var f := SoonestExists(n, es - {e});
      assert forall g :: g in es ==> g == e || g in es - {e};
      if !Sooner(n, e.0, f.0) { e := f; }
    }
  }

  lemma {:induction false} LightestExists(n: Node, es: set<(Triple, PeerId)>) returns (e: (Triple, PeerId))
    requires es != {}
    ensures e in es && forall f :: f in es ==> Lighter(n, e.1, f.1)
    decreases es
  {
    e := Witness(es);
    if es != {e} {
      var f := LightestExists(n, es - {e});
      assert forall g :: g in es ==> g == e || g in es - {e};
      if !Lighter(n, e.1, f.1) { e := f; }
    }
  }

  lemma ChoiceExists(n: Node, es: set<(Triple, PeerId)>)
    requires es != {}
    ensures exists e :: IsChoice(n, es, e)
  {
    var e := SoonestExists(n, es);
    var same := set f | f in es && f.0 == e.0;
    assert e in same;
    var g := LightestExists(n, same);
    assert IsChoice(n, es, g);
  }

  lemma ChoiceUnique(n: Node, es: set<(Triple, PeerId)>, e: (Triple, PeerId), f: (Triple, PeerId))
    requires IsChoice(n, es, e) && IsChoice(n, es, f)
    ensures e == f
  {
    assert Sooner(n, e.0, f.0) && Sooner(n, f.0, e.0);
    assert Lighter(n, e.1, f.1) && Lighter(n, f.1, e.1);
  }

  ghost function Choice(n: Node, es: set<(Triple, PeerId)>): (e: (Triple, PeerId))
    requires es != {}
    ensures IsChoice(n, es, e)
  {
    ChoiceExists(n, es);
    var e :| IsChoice(n, es, e);
    e
  }

  /** Lease `e`, and count it for its peer. */
  function Commit(n: Node, e: (Triple, PeerId)): Node {
    n.(m := n.m.Want(e.0, e.1), assignments := n.assignments[e.1 := n.Assigned(e.1) + 1])
  }

  function AddToBatch(n: Node, b: Batches, e: (Triple, PeerId)): Batches {
    var k := (e.1, n.Depth(e.0));
    b[k := (if k in b then b[k] else []) + [e.0]]
  }

  /** Claims not yet taken: what bounds the scheduling loop. */
  function Unclaimed(m: State): set<(Triple, PeerId)> {
    set c, p | c in m.arrived && p in At(m.holders, c) && p !in At(m.want, c) :: (c, p)
  }

  lemma CommitClaims(n: Node, e: (Triple, PeerId))
    requires n.m.Claimable(e.0, e.1)
    ensures Unclaimed(Commit(n, e).m) == Unclaimed(n.m) - {e}
    ensures e in Unclaimed(n.m)
  {
    AtSetInsert(n.m.want, e.0, e.1);
    assert (e.0, e.1) == e;
  }

  lemma OpenIsClaimable(n: Node, b: Batches, e: (Triple, PeerId))
    ensures e in Open(n, b) <==> n.m.Claimable(e.0, e.1) && BatchSize(b, (e.1, n.Depth(e.0))) < n.policy.window
  {
    n.m.EnabledWantsAre(e.0, e.1);
  }

  /** The greedy loop: choose, lease, repeat until no want is open. */
  ghost function Schedule(n: Node, b: Batches): (Node, Batches)
    decreases |Unclaimed(n.m)|
  {
    if Open(n, b) == {} then (n, b)
    else
      var e := Choice(n, Open(n, b));
      OpenIsClaimable(n, b, e);
      CommitClaims(n, e);
      Schedule(Commit(n, e), AddToBatch(n, b, e))
  }

  ghost function FetchEffects(b: Batches, keys: seq<Key>): seq<Effect>
    requires forall k :: k in keys ==> k in b
  {
    if keys == [] then []
    else
      var k := keys[|keys| - 1];
      FetchEffects(b, keys[..|keys| - 1]) + [Fetch(k.0, k.1, b[k])]
  }

  // --- the round ------------------------------------------------------------------------------

  /** Everything before the scheduling loop. */
  ghost function Prepared(n: Node): Node
    requires n.LogsValid()
  {
    ResetPass(Prune(SettlePass(n)))
  }

  ghost function Round(n: Node): (Node, seq<Effect>)
    requires n.LogsValid()
  {
    var (n', b) := Schedule(Prepared(n), map[]);
    SortedLists(n.logs.Keys);
    SortedLists(b.Keys);
    (n', SettleEffects(n, Sorted(n.logs.Keys)) + FetchEffects(b, Sorted(b.Keys)))
  }

  // --- the event arms ---------------------------------------------------------------------------

  /** Peer `p` loses the rows `cs`; an emptied row goes. */
  function LoseRows(t: Table, cs: set<Triple>, p: PeerId): Table {
    map c | c in t && !(c in cs && t[c] - {p} == {}) :: if c in cs then t[c] - {p} else t[c]
  }

  function LoseAll(m: State, cs: set<Triple>, p: PeerId): State {
    m.(holders := LoseRows(m.holders, cs, p), want := LoseRows(m.want, cs, p))
  }

  lemma LoseNone(m: State, p: PeerId)
    ensures LoseAll(m, {}, p) == m
  {
    assert LoseRows(m.holders, {}, p) == m.holders;
    assert LoseRows(m.want, {}, p) == m.want;
  }

  /** The ids `p` has rows for in a table: its holdings, or its claims. */
  function RowsOf(t: Table, p: PeerId): set<Triple> {
    set c | c in t && p in t[c]
  }

  /** Drop the peer's holdings, then whatever claims are left. */
  function LosePeer(m: State, p: PeerId): State {
    var m1 := LoseAll(m, RowsOf(m.holders, p), p);
    LoseAll(m1, RowsOf(m1.want, p), p)
  }

  function Depart(n: Node, p: PeerId): Node {
    n.(m := LosePeer(n.m, p),
       peers := n.peers - {p},
       logs := map k | k in n.logs && k.0 != p :: n.logs[k],
       cursors := map k | k in n.cursors && k.0 != p :: n.cursors[k],
       offerOpen := set k | k in n.offerOpen && k.0 != p)
  }

  /** One (bin, head) pair of a cursors answer. */
  function TakeCursor(n: Node, peer: PeerId, cur: (Bin, BinId)): (Node, seq<Effect>) {
    var (bin, head) := cur;
    var k := (peer, bin);
    if bin < n.radius then (n, [])
    else
      (n.(cursors := n.cursors[k := head], logs := n.logs[k := n.LogAt(k)], offerOpen := n.offerOpen + {k}),
       if k in n.offerOpen then [] else [Offer(peer, bin, n.LogAt(k).Next())])
  }

  function TakeCursors(n: Node, peer: PeerId, cs: seq<(Bin, BinId)>): (Node, seq<Effect>) {
    if cs == [] then (n, [])
    else
      var (n1, fx1) := TakeCursors(n, peer, cs[..|cs| - 1]);
      var (n2, fx2) := TakeCursor(n1, peer, cs[|cs| - 1]);
      (n2, fx1 + fx2)
  }

  function OfferedIds(refs: seq<(BinId, Triple)>): set<BinId> {
    set r | r in refs :: r.0
  }

  /** The entries of the window the fresh offer covers but no longer names. */
  function Lost(log: Log, start: BinId, refs: seq<(BinId, Triple)>, topmost: BinId): set<BinId> {
    set b | b in log.entries && start <= b <= topmost && b !in OfferedIds(refs)
  }

  function TriplesAt(log: Log, bs: set<BinId>): set<Triple> {
    set b | b in bs && b in log.entries :: log.entries[b]
  }

  /** Close the offer, extend the coverage, and drop what churned out. */
  function TakeOffer(n: Node, k: Key, start: BinId, refs: seq<(BinId, Triple)>, topmost: BinId): Node {
    var log := n.LogAt(k).Cover(Max(topmost, start));
    var lost := Lost(log, start, refs, topmost);
    n.(offerOpen := n.offerOpen - {k},
       logs := n.logs[k := log.(entries := log.entries - lost)],
       m := LoseAll(n.m, TriplesAt(log, lost), k.0))
  }

  /** One (position, triple) of an offer. */
  function TakeRef(n: Node, k: Key, r: (BinId, Triple)): Node
    requires k in n.logs
  {
    var (b, c) := r;
    var m := n.m.ObserveHolder(c, k.0).SetPrio(c, k.1);
    n.(logs := n.logs[k := n.logs[k].Observe(b, c)],
       binOf := n.binOf[c := k.1],
       m := if b > n.Cursor(k) then m.ArriveLive(c) else m.ArriveHist(c))
  }

  function TakeRefs(n: Node, k: Key, refs: seq<(BinId, Triple)>): (n': Node)
    requires k in n.logs
    ensures k in n'.logs
  {
    if refs == [] then n else TakeRef(TakeRefs(n, k, refs[..|refs| - 1]), k, refs[|refs| - 1])
  }

  function TakeOutcome(m: State, peer: PeerId, o: (Triple, Outcome)): State {
    match o.1
    case Delivered => m.Deliver(o.0, peer)
    case Rejected => m.Reject(o.0)
    case Missed => m.Stall(o.0, peer)
  }

  function TakeOutcomes(m: State, peer: PeerId, os: seq<(Triple, Outcome)>): State {
    if os == [] then m else TakeOutcome(TakeOutcomes(m, peer, os[..|os| - 1]), peer, os[|os| - 1])
  }

  /** A tick re-offers every channel of a present peer that has no offer standing. */
  function TickOffers(n: Node, k: Key): bool
  {
    k in n.logs && k.0 in n.peers && k !in n.offerOpen
  }

  ghost function TickEffects(n: Node, keys: seq<Key>): seq<Effect>
    requires forall k :: k in keys ==> k in n.logs
  {
    if keys == [] then []
    else
      var k := keys[|keys| - 1];
      TickEffects(n, keys[..|keys| - 1]) + if TickOffers(n, k) then [Offer(k.0, k.1, n.logs[k].Next())] else []
  }

  /** The state an event leaves for the round to work on. */
  ghost function Ingest(n: Node, ev: Event): Node {
    match ev
    case PeerSeen(p) => n.(peers := n.peers + {p})
    case PeerGone(p) => Depart(n, p)
    case CursorsResult(p, cs) => TakeCursors(n, p, cs).0
    case OfferResult(p, bin, start, refs, topmost) =>
      TakeRefs(TakeOffer(n, (p, bin), start, refs, topmost), (p, bin), refs)
    case FetchResult(p, _, os) => n.(m := TakeOutcomes(n.m, p, os))
    case Tick => n.(offerOpen := n.offerOpen + set k | k in n.logs && TickOffers(n, k))
  }

  predicate EndsInRound(ev: Event) {
    ev.PeerGone? || ev.OfferResult? || ev.FetchResult?
  }

  lemma {:induction false} TakeRefsKeepsLogsValid(n: Node, k: Key, refs: seq<(BinId, Triple)>)
    requires n.LogsValid() && k in n.logs
    ensures TakeRefs(n, k, refs).LogsValid()
  {
    if refs != [] {
      TakeRefsKeepsLogsValid(n, k, refs[..|refs| - 1]);
    }
  }

  lemma {:induction false} TakeCursorsKeepsLogsValid(n: Node, p: PeerId, cs: seq<(Bin, BinId)>)
    requires n.LogsValid()
    ensures TakeCursors(n, p, cs).0.LogsValid()
  {
    if cs != [] {
      TakeCursorsKeepsLogsValid(n, p, cs[..|cs| - 1]);
    }
  }

  lemma IngestKeepsLogsValid(n: Node, ev: Event)
    requires n.LogsValid()
    ensures Ingest(n, ev).LogsValid()
  {
    match ev {
      case OfferResult(p, bin, start, refs, topmost) =>
        TakeRefsKeepsLogsValid(TakeOffer(n, (p, bin), start, refs, topmost), (p, bin), refs);
      case CursorsResult(p, cs) => TakeCursorsKeepsLogsValid(n, p, cs);
      case _ =>
    }
  }

  /** The single entry point: one event in, the new state and the effects out. */
  ghost function Handle(n: Node, ev: Event): (Node, seq<Effect>)
    requires n.LogsValid()
  {
    IngestKeepsLogsValid(n, ev);
    SortedLists(n.logs.Keys);
    match ev
    case PeerSeen(p) => (Ingest(n, ev), if p in n.peers then [] else [GetCursors(p)])
    case CursorsResult(p, cs) => (Ingest(n, ev), TakeCursors(n, p, cs).1)
    case Tick => (Ingest(n, ev), TickEffects(n, Sorted(n.logs.Keys)))
    case _ => Round(Ingest(n, ev))
  }
}
