/** Interval settlement (crates/settlement/src/lib.rs): the one durable claim. Covering a
    position says "never offer me this range again", so the interval may pass only entries
    that are settled. */
module Settlement {
  import opened Types

  ghost predicate IsMin(s: set<BinId>, m: BinId) {
    m in s && forall x :: x in s ==> m <= x
  }

  lemma MinExists(s: set<BinId>) returns (m: BinId)
    requires s != {}
    ensures IsMin(s, m)
  {
    m := Witness(s);
    if s != {m} {
      var n := MinExists(s - {m});
      assert forall x :: x in s ==> x == m || x in s - {m};
      if n < m { m := n; }
    }
  }

  lemma SomeMin(s: set<BinId>)
    requires s != {}
    ensures exists m :: IsMin(s, m)
  {
    var m := MinExists(s);
  }

  ghost function MinOf(s: set<BinId>): (m: BinId)
    requires s != {}
    ensures IsMin(s, m)
  {
    SomeMin(s);
    var m :| IsMin(s, m);
    m
  }

  method First(s: set<BinId>) returns (m: BinId)
    requires s != {}
    ensures IsMin(s, m)
  {
    m := Pick(s);
    var rest := s - {m};
    while rest != {}
      invariant rest <= s && m in s
      invariant forall x :: x in s ==> x in rest || m <= x
    {
      var x := Pick(rest);
      if x < m { m := x; }
      rest := rest - {x};
    }
  }

  /** The resume state of one (peer, bin). */
  datatype Log = Log(interval: BinId, topmost: BinId, entries: map<BinId, Triple>) {

    ghost predicate Valid() {
      interval <= topmost && forall b :: b in entries ==> interval < b <= topmost
    }

    function Next(): BinId {
      interval + 1
    }

    function Observe(b: BinId, c: Triple): Log {
      Log(interval, Max(topmost, b), if b > interval then entries[b := c] else entries)
    }

    function Cover(upto: BinId): Log {
      this.(topmost := Max(topmost, upto))
    }

    function ForgetEntry(b: BinId): Log {
      this.(entries := entries - {b})
    }

    ghost function Unsettled(settled: Triple -> bool): set<BinId> {
      set b | b in entries && !settled(entries[b])
    }

    /** Just below the first unsettled entry; everything covered if there is none. */
    ghost function Cap(settled: Triple -> bool): BinId
      requires Valid()
    {
      if Unsettled(settled) == {} then topmost else MinOf(Unsettled(settled)) - 1
    }

    ghost function Advance(settled: Triple -> bool): Log
      requires Valid()
    {
      var x := Cap(settled);
      Log(x, topmost, map b | b in entries && b > x :: entries[b])
    }
  }

  const EMPTY := Log(0, 0, map[])

  class PeerBinLog {
    var interval: BinId
    var topmost: BinId
    var entries: map<BinId, Triple>

    function View(): Log
      reads this
    {
      Log(interval, topmost, entries)
    }

    constructor ()
      ensures View() == EMPTY && View().Valid()
    {
      interval, topmost, entries := 0, 0, map[];
    }

    constructor Resume(from: BinId)
      ensures View() == Log(from, from, map[]) && View().Valid()
    {
      interval, topmost, entries := from, from, map[];
    }

    constructor FromLog(log: Log)
      ensures View() == log
    {
      interval, topmost, entries := log.interval, log.topmost, log.entries;
    }

    method Observe(b: BinId, c: Triple)
      requires View().Valid()
      modifies this
      ensures View() == old(View()).Observe(b, c) && View().Valid()
    {
      if b > interval {
        entries := entries[b := c];
      }
      if b > topmost {
        topmost := b;
      }
    }

    method Cover(upto: BinId)
      requires View().Valid()
      modifies this
      ensures View() == old(View()).Cover(upto) && View().Valid()
    {
      if upto > topmost {
        topmost := upto;
      }
    }

    method ForgetEntry(b: BinId) returns (gone: Option<Triple>)
      requires View().Valid()
      modifies this
      ensures View() == old(View()).ForgetEntry(b) && View().Valid()
      ensures gone == if b in old(entries) then Some(old(entries)[b]) else None
    {
      gone := if b in entries then Some(entries[b]) else None;
      entries := entries - {b};
    }

    /** Settle before you forget: drop the settled prefix, entry by entry. */
    method Advance(settled: Triple -> bool) returns (moved: Option<BinId>)
      requires View().Valid()
      modifies this
      ensures View() == old(View()).Advance(settled) && View().Valid()
      ensures moved == if interval > old(interval) then Some(interval) else None
    {
      ghost var before := View();
      var high := interval;
      while entries != map[]
        invariant interval == before.interval && topmost == before.topmost
        invariant Trimmed(before, entries, settled, high)
        decreases |entries|
      {
        var b := First(entries.Keys);
        if !settled(entries[b]) {
          CappedBelow(before, entries, settled, high, b);
          high := Min(Max(high, b - 1), topmost);
          break;
        }
        TrimOne(before, entries, settled, high, b);
        entries := entries - {b};
        high := b;
      }
      if entries == map[] {
        DrainedToTop(before, entries, settled, high);
        high := topmost;
      }
      TrimmedIsAdvance(before, entries, settled, high);
      if high > interval {
        interval := high;
        moved := Some(high);
      } else {
        moved := None;
      }
    }
  }

  /** Some unsettled entry sits at or below `y`. */
  ghost predicate Blocked(log: Log, settled: Triple -> bool, y: BinId) {
    exists b :: b in log.entries && b <= y && !settled(log.entries[b])
  }

  /** The rule's one position: at most the top, nothing unsettled at or below it, and every
      larger position blocked. */
  ghost predicate IsSettledPrefix(log: Log, settled: Triple -> bool, x: BinId) {
    x <= log.topmost && !Blocked(log, settled, x) && forall y :: x < y <= log.topmost ==> Blocked(log, settled, y)
  }

  /** `rest` is the window above `high`, and what was dropped was settled. */
  ghost predicate Trimmed(log: Log, rest: map<BinId, Triple>, settled: Triple -> bool, high: BinId) {
    && log.interval <= high <= log.topmost
    && (forall b :: b in rest <==> b in log.entries && b > high)
    && (forall b :: b in rest ==> rest[b] == log.entries[b])
    && (forall b :: b in log.entries && b <= high ==> settled(log.entries[b]))
  }

  lemma TrimOne(log: Log, rest: map<BinId, Triple>, settled: Triple -> bool, high: BinId, b: BinId)
    requires log.Valid() && Trimmed(log, rest, settled, high) && IsMin(rest.Keys, b) && settled(rest[b])
    ensures Trimmed(log, rest - {b}, settled, b)
  {
  }

  lemma CappedBelow(log: Log, rest: map<BinId, Triple>, settled: Triple -> bool, high: BinId, b: BinId)
    requires log.Valid() && Trimmed(log, rest, settled, high) && IsMin(rest.Keys, b) && !settled(rest[b])
    ensures var x := Min(Max(high, b - 1), log.topmost);
      IsSettledPrefix(log, settled, x) && Trimmed(log, rest, settled, x)
  {
    var x := Min(Max(high, b - 1), log.topmost);
    assert x == b - 1;
    forall y | x < y <= log.topmost ensures Blocked(log, settled, y) {
      assert b in log.entries;
    }
  }

  lemma DrainedToTop(log: Log, rest: map<BinId, Triple>, settled: Triple -> bool, high: BinId)
    requires log.Valid() && Trimmed(log, rest, settled, high) && rest == map[]
    ensures IsSettledPrefix(log, settled, log.topmost) && Trimmed(log, rest, settled, log.topmost)
  {
  }

  lemma TrimmedIsAdvance(log: Log, rest: map<BinId, Triple>, settled: Triple -> bool, x: BinId)
    requires log.Valid() && Trimmed(log, rest, settled, x) && IsSettledPrefix(log, settled, x)
    ensures log.Advance(settled) == Log(x, log.topmost, rest)
    ensures Log(x, log.topmost, rest).Valid()
  {
    CapIs(log, settled, x);
    AdvanceTakesLargestPrefix(log, settled);
    var window := log.Advance(settled).entries;
    assert forall b :: b in window <==> b in rest;
    assert window == rest;
  }

  lemma CapIs(log: Log, settled: Triple -> bool, x: BinId)
    requires log.Valid() && IsSettledPrefix(log, settled, x)
    ensures x == log.Cap(settled)
  {
    AdvanceTakesLargestPrefix(log, settled);
    var y := log.Cap(settled);
    assert x < y ==> Blocked(log, settled, y);
    assert y < x ==> Blocked(log, settled, x);
  }

  /** Advancing moves the interval to the largest settled prefix, never back, and removes
      exactly that prefix from the window. */
  lemma AdvanceTakesLargestPrefix(log: Log, settled: Triple -> bool)
    requires log.Valid()
    ensures var after := log.Advance(settled);
      && IsSettledPrefix(log, settled, after.interval)
      && log.interval <= after.interval
      && after.topmost == log.topmost
      && (forall b :: b in after.entries <==> b in log.entries && b > after.interval)
      && (forall b :: b in after.entries ==> after.entries[b] == log.entries[b])
      && after.Valid()
  {
    var u := log.Unsettled(settled);
    if u != {} {
      var m := MinOf(u);
      assert m in u;
      forall y | m - 1 < y <= log.topmost ensures Blocked(log, settled, y) {
        assert m in log.entries && m <= y && !settled(log.entries[m]);
      }
    }
    forall b | b in log.entries && !settled(log.entries[b]) ensures log.Cap(settled) < b {
      assert b in u;
    }
  }

  /** Advancing under less and then under more is advancing under more. */
  lemma AdvanceComposes(log: Log, s: Triple -> bool, t: Triple -> bool)
    requires log.Valid() && forall c :: s(c) ==> t(c)
    ensures log.Advance(s).Valid() && log.Advance(s).Advance(t) == log.Advance(t)
  {
    AdvanceTakesLargestPrefix(log, s);
    AdvanceTakesLargestPrefix(log, t);
    var mid := log.Advance(s);
    var x := log.Advance(t).interval;
    assert !Blocked(log, t, mid.interval);
    forall y | x < y <= mid.topmost ensures Blocked(mid, t, y) {
      assert Blocked(log, t, y);
      var b :| b in log.entries && b <= y && !t(log.entries[b]);
      assert b in mid.entries;
    }
    assert !Blocked(mid, t, x);
    CapIs(mid, t, x);
    AdvanceTakesLargestPrefix(mid, t);
    assert mid.Advance(t).entries == log.Advance(t).entries;
  }

  function InSet(done: set<Triple>): Triple -> bool {
    c => c in done
  }

  /** Settle the given triples one at a time, advancing after each. */
  ghost function SettleEach(log: Log, done: set<Triple>, cs: seq<Triple>): Log
    requires log.Valid()
    decreases |cs|
  {
    AdvanceTakesLargestPrefix(log, InSet(done));
    if cs == [] then log.Advance(InSet(done))
    else SettleEach(log.Advance(InSet(done)), done + {cs[0]}, cs[1..])
  }

  lemma {:induction false} SettleEachIsOneAdvance(log: Log, done: set<Triple>, cs: seq<Triple>)
    requires log.Valid()
    ensures SettleEach(log, done, cs) == log.Advance(InSet(done + set c | c in cs))
    decreases |cs|
  {
    AdvanceTakesLargestPrefix(log, InSet(done));
    if cs == [] {
      assert done + (set c | c in cs) == done;
    } else {
      var all := done + set c | c in cs;
      assert all == (done + {cs[0]}) + set c | c in cs[1..];
      SettleEachIsOneAdvance(log.Advance(InSet(done)), done + {cs[0]}, cs[1..]);
      AdvanceComposes(log, InSet(done), InSet(all));
    }
  }

  /** The order in which triples settle never matters to a log. */
  lemma SettlementOrderIrrelevant(log: Log, done: set<Triple>, cs: seq<Triple>, ds: seq<Triple>)
    requires log.Valid() && (set c | c in cs) == (set d | d in ds)
    ensures SettleEach(log, done, cs) == SettleEach(log, done, ds)
  {
    SettleEachIsOneAdvance(log, done, cs);
    SettleEachIsOneAdvance(log, done, ds);
  }
}
