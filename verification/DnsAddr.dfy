/** Bootstrap resolution (crates/net/src/dnsaddr.rs): the breadth-first walk of dnsaddr names,
    loop-guarded, depth-capped and deduplicated, over an injected lookup. */
module DnsAddr {
  import opened Types
  import opened Levels

  const MAX_DEPTH: nat := 16
  const SCHEME := "/dnsaddr/"
  const RECORD := "dnsaddr="
  const ZONE := "_dnsaddr."

  datatype Error = NotDnsAddr | Lookup(reason: string) | NoAddresses

  datatype Result<+T> = Ok(value: T) | Err(error: Error)

  /** The injected lookup: the TXT records of a name. */
  type Txt = string -> Result<seq<string>>

  predicate IsDnsAddr(addr: string) {
    SCHEME <= addr
  }

  function StripPrefix(s: string, prefix: string): Option<string> {
    if prefix <= s then Some(s[|prefix|..]) else None
  }

  /** What comes before the first slash. */
  function FirstSegment(s: string): string {
    if s == "" || s[0] == '/' then "" else [s[0]] + FirstSegment(s[1..])
  }

  function DomainOf(addr: string): Option<string> {
    match StripPrefix(addr, SCHEME)
    case None => None
    case Some(rest) => if FirstSegment(rest) == "" then None else Some(FirstSegment(rest))
  }

  // --- the walk's reference: levels of names ------------------------------------------------

  /** What a name resolves to: its records, none if it has no domain. */
  function Answer(txt: Txt, name: string): Result<seq<string>> {
    match DomainOf(name)
    case None => Ok([])
    case Some(domain) => txt(ZONE + domain)
  }

  function Records(txt: Txt, name: string): seq<string> {
    match Answer(txt, name)
    case Ok(records) => records
    case Err(_) => []
  }

  /** The dnsaddr names among some records. */
  function Names(records: seq<string>): set<string> {
    set r | r in records && StripPrefix(r, RECORD).Some? && IsDnsAddr(StripPrefix(r, RECORD).value) ::
      StripPrefix(r, RECORD).value
  }

  /** The concrete addresses among some records. */
  function Concrete(records: seq<string>): set<string> {
    set r | r in records && StripPrefix(r, RECORD).Some? && !IsDnsAddr(StripPrefix(r, RECORD).value) ::
      StripPrefix(r, RECORD).value
  }

  /** The names a name points at. */
  function Next(txt: Txt): string -> set<string> {
    n => Names(Records(txt, n))
  }

  lemma NextIs(txt: Txt, n: string)
    ensures Next(txt)(n) == Names(Records(txt, n))
  {
  }

  /** Everything a depth cap lets the walk reach: names through at most `cap` names. */
  function Reachable(txt: Txt, start: string, cap: nat): set<string>
    requires cap > 0
  {
    Within(Next(txt), start, cap - 1)
  }

  function ConcreteOf(txt: Txt, names: set<string>): set<string> {
    set n, a | n in names && a in Concrete(Records(txt, n)) :: a
  }

  // --- the walk -------------------------------------------------------------------------------

  /** `out` lists the set `seen`, once each. */
  ghost predicate Lists(out: seq<string>, seen: set<string>) {
    Distinct(out) && forall a :: a in out <==> a in seen
  }

  /** One name's records: links join the queue, new concrete addresses join the answer. */
  method Expand(records: seq<string>, d: nat, seen: set<string>, out: seq<string>)
      returns (more: Queue<string>, seen': set<string>, out': seq<string>)
    requires Lists(out, seen)
    ensures LinksOf(more, Names(records), d)
    ensures seen' == seen + Concrete(records) && Lists(out', seen')
  {
    more, seen', out' := [], seen, out;
    for i := 0 to |records|
      invariant LinksOf(more, Names(records[..i]), d)
      invariant seen' == seen + Concrete(records[..i]) && Lists(out', seen')
    {
      var record := records[i];
      OneMoreRecord(records, i);
      var multiaddr := StripPrefix(record, RECORD);
      if multiaddr.Some? {
        if IsDnsAddr(multiaddr.value) {
          OneMoreLink(more, Names(records[..i]), d, multiaddr.value);
          more := more + [(multiaddr.value, d)];
        } else if multiaddr.value !in seen' {
          seen' := seen' + {multiaddr.value};
          out' := out' + [multiaddr.value];
        }
      }
    }
    assert records[..|records|] == records;
  }

  lemma OneMoreLink(more: Queue<string>, names: set<string>, d: nat, n: string)
    requires LinksOf(more, names, d)
    ensures LinksOf(more + [(n, d)], names + {n}, d)
  {
    LinksAre(more, names, d);
    forall e ensures e in Queued(more + [(n, d)]) <==> e in Links(names + {n}, d) {
    }
  }

  lemma OneMoreRecord(records: seq<string>, i: nat)
    requires i < |records|
    ensures var a := StripPrefix(records[i], RECORD);
      && Names(records[..i + 1]) == Names(records[..i]) + (if a.Some? && IsDnsAddr(a.value) then {a.value} else {})
      && Concrete(records[..i + 1]) == Concrete(records[..i]) + (if a.Some? && !IsDnsAddr(a.value) then {a.value} else {})
  {
    assert records[..i + 1] == records[..i] + [records[i]];
    assert forall r :: r in records[..i + 1] <==> r in records[..i] || r == records[i];
  }

  lemma OneMoreConcrete(txt: Txt, names: set<string>, n: string)
    ensures ConcreteOf(txt, names + {n}) == ConcreteOf(txt, names) + Concrete(Records(txt, n))
  {
  }

  ghost predicate Fails(txt: Txt, start: string, cap: nat)
    requires cap > 0
  {
    exists n :: n in Reachable(txt, start, cap) && Answer(txt, n).Err?
  }

  /** What the walk has gathered: the concrete addresses of the names visited, whose lookups
      all succeeded. */
  ghost predicate Gathered(txt: Txt, visited: set<string>, concrete: set<string>, out: seq<string>) {
    && Lists(out, concrete) && concrete == ConcreteOf(txt, visited)
    && forall v :: v in visited ==> Answer(txt, v).Ok?
  }

  lemma GatherMore(txt: Txt, visited: set<string>, concrete: set<string>, cur: string, concrete': set<string>, out: seq<string>, out': seq<string>)
    requires Gathered(txt, visited, concrete, out) && Answer(txt, cur).Ok?
    requires concrete' == concrete + Concrete(Records(txt, cur)) && Lists(out', concrete')
    ensures Gathered(txt, visited + {cur}, concrete', out')
  {
    OneMoreConcrete(txt, visited, cur);
  }

  /** A name met for the first time within the cap: look it up and take its records. */
  method Visit(txt: Txt, cur: string, d: nat, concrete: set<string>, out: seq<string>)
      returns (answer: Result<seq<string>>, more: Queue<string>, concrete': set<string>, out': seq<string>)
    requires Lists(out, concrete)
    ensures answer == Answer(txt, cur)
    ensures answer.Ok? ==> LinksOf(more, Names(Records(txt, cur)), d + 1)
    ensures answer.Ok? ==> concrete' == concrete + Concrete(Records(txt, cur)) && Lists(out', concrete')
  {
    more, concrete', out' := [], concrete, out;
    answer := Answer(txt, cur);
    if answer.Ok? {
      more, concrete', out' := Expand(answer.value, d + 1, concrete, out);
    }
  }

  /** The breadth-first walk: the concrete addresses found, in order, or the first failure. */
  method WalkFrom(addr: string, txt: Txt, cap: nat) returns (failure: Option<Error>, out: seq<string>)
    requires cap > 0
    ensures failure.Some? ==>
      exists n :: n in Reachable(txt, addr, cap) && Answer(txt, n) == Err(failure.value)
    ensures failure.None? ==> !Fails(txt, addr, cap) && Lists(out, ConcreteOf(txt, Reachable(txt, addr, cap)))
  {
    failure, out := None, [];
    var concrete: set<string>, visited: set<string> := {}, {};
    var queue: Queue<string> := [(addr, 0)];
    ghost var depth: map<string, nat>, now: nat, next := map[], 0, Next(txt);
    WalkStarts(txt, addr, cap);
    while queue != []
      invariant Walk(next, addr, cap, queue, visited, depth, now)
      invariant Gathered(txt, visited, concrete, out)
      decreases |Within(next, addr, cap - 1) - visited|, |queue|
    {
      var (cur, d) := queue[0];
      if d >= cap || cur in visited {
        WalkSkips(next, addr, cap, queue, visited, depth, now);
        queue, now := queue[1..], d;
        continue;
      }
      FewerLeft(next, addr, cap, queue, visited, depth, now, cur, d);
      var answer, more, concrete', out' := Visit(txt, cur, d, concrete, out);
      if answer.Err? {
        failure := Some(answer.error);
        return;
      }
      GatherMore(txt, visited, concrete, cur, concrete', out, out');
      concrete, out := concrete', out';
      NextIs(txt, cur);
      WalkExpands(next, addr, cap, queue, visited, depth, now, cur, d, more, Names(Records(txt, cur)));
      queue, visited, depth, now := queue[1..] + more, visited + {cur}, depth[cur := d], d;
    }
    DrainedIsReachable(next, addr, cap, visited, depth, now);
  }

  lemma WalkStarts(txt: Txt, addr: string, cap: nat)
    requires cap > 0
    ensures Walk(Next(txt), addr, cap, [(addr, 0)], {}, map[], 0)
    ensures ConcreteOf(txt, {}) == {}
  {
    assert (addr, 0) in [(addr, 0)];
  }

  /** What resolving a dnsaddr promises, on any zone, cyclic or infinite. If every lookup within
      the cap succeeds, the answer lists exactly the concrete addresses of the names within the
      cap, once each; it is NoAddresses if there are none. If some lookup within the cap fails,
      so does the walk, with the error of such a lookup. */
  ghost predicate Resolved(addr: string, txt: Txt, cap: nat, r: Result<seq<string>>)
    requires cap > 0
  {
    var names := Reachable(txt, addr, cap);
    if Fails(txt, addr, cap) then exists n :: n in names && Answer(txt, n).Err? && r == Answer(txt, n)
    else if ConcreteOf(txt, names) == {} then r == Err(NoAddresses)
    else r.Ok? && Lists(r.value, ConcreteOf(txt, names))
  }

  method ResolveWith(addr: string, txt: Txt) returns (r: Result<seq<string>>)
    ensures if IsDnsAddr(addr) then Resolved(addr, txt, MAX_DEPTH, r) else r == Err(NotDnsAddr)
  {
    if !IsDnsAddr(addr) {
      return Err(NotDnsAddr);
    }
    var failure, out := WalkFrom(addr, txt, MAX_DEPTH);
    if failure.Some? {
      return Err(failure.value);
    }
    if out == [] {
      NothingListed(out, ConcreteOf(txt, Reachable(txt, addr, MAX_DEPTH)));
      return Err(NoAddresses);
    }
    assert out[0] in ConcreteOf(txt, Reachable(txt, addr, MAX_DEPTH));
    r := Ok(out);
  }

  lemma NothingListed(out: seq<string>, seen: set<string>)
    requires Lists(out, seen) && out == []
    ensures seen == {}
  {
  }

  /** A concrete address passes through; a dnsaddr one resolves, failures included. */
  method ResolveMultiaddr(addr: string, txt: Txt) returns (r: Result<seq<string>>)
    ensures if IsDnsAddr(addr) then Resolved(addr, txt, MAX_DEPTH, r) else r == Ok([addr])
  {
    if IsDnsAddr(addr) {
      r := ResolveWith(addr, txt);
    } else {
      r := Ok([addr]);
    }
  }
}
