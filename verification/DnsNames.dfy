/** Which name a dnsaddr looks up, and which addresses a zone lists (crates/net/src/dnsaddr.rs),
    in the strings themselves. */
module DnsNames {
  import opened Types
  import opened Levels
  import opened DnsAddr

  /** What may follow the domain: nothing, or a slash and anything. */
  predicate Suffix(rest: string) {
    rest == "" || rest[0] == '/'
  }

  predicate Domain(d: string) {
    d != "" && '/' !in d
  }

  lemma {:induction false} FirstSegmentIs(d: string, rest: string)
    requires '/' !in d && Suffix(rest)
    ensures FirstSegment(d + rest) == d
    decreases |d|
  {
    if d == "" {
      assert d + rest == rest;
    } else {
      assert d[0] in d && (d + rest)[0] == d[0] && (d + rest)[1..] == d[1..] + rest;
      FirstSegmentIs(d[1..], rest);
    }
  }

  /** A dnsaddr looks up its domain under `_dnsaddr.`, whatever path follows the domain. */
  lemma LooksUpDomain(txt: Txt, d: string, rest: string)
    requires Domain(d) && Suffix(rest)
    ensures IsDnsAddr("/dnsaddr/" + d + rest) && Answer(txt, "/dnsaddr/" + d + rest) == txt("_dnsaddr." + d)
  {
    var addr := "/dnsaddr/" + d + rest;
    assert addr[|SCHEME|..] == d + rest;
    FirstSegmentIs(d, rest);
  }

  /** Without a domain nothing is looked up, and there are no records. */
  lemma NoDomainNoLookup(txt: Txt, rest: string)
    requires Suffix(rest)
    ensures Answer(txt, "/dnsaddr/" + rest) == Ok([])
  {
    var addr := "/dnsaddr/" + rest;
    assert addr[|SCHEME|..] == rest;
    FirstSegmentIs("", rest);
    assert "" + rest == rest;
  }

  lemma {:induction false} SplitSegment(s: string) returns (d: string, rest: string)
    ensures s == d + rest && '/' !in d && Suffix(rest)
    decreases |s|
  {
    if s == "" || s[0] == '/' {
      d, rest := "", s;
    } else {
      d, rest := SplitSegment(s[1..]);
      d := [s[0]] + d;
    }
  }

  /** Every dnsaddr is one of the two. */
  lemma EveryDnsAddrSplits(addr: string) returns (d: string, rest: string)
    requires IsDnsAddr(addr)
    ensures addr == "/dnsaddr/" + d + rest && (d == "" || Domain(d)) && Suffix(rest)
  {
    d, rest := SplitSegment(addr[|SCHEME|..]);
    assert addr == SCHEME + (d + rest);
  }

  /** Of a name's records those that start with `dnsaddr=` count, for what follows it: another
      name if that is a dnsaddr, else an address. Every other record is ignored. */
  lemma RecordsList(records: seq<string>, a: string)
    ensures a in Names(records) <==> "dnsaddr=" + a in records && "/dnsaddr/" <= a
    ensures a in Concrete(records) <==> "dnsaddr=" + a in records && !("/dnsaddr/" <= a)
  {
    var r := "dnsaddr=" + a;
    assert StripPrefix(r, RECORD) == Some(a) by { assert r[|RECORD|..] == a; }
    forall s | StripPrefix(s, RECORD) == Some(a) ensures s == r {
      assert s == s[..|RECORD|] + s[|RECORD|..];
    }
  }

  /** One name links to another if its records say so. */
  lemma LinksAreRecords(txt: Txt, m: string, n: string)
    ensures n in Next(txt)(m) <==> "dnsaddr=" + n in Records(txt, m) && "/dnsaddr/" <= n
  {
    NextIs(txt, m);
    RecordsList(Records(txt, m), n);
  }

  /** What some names list: the addresses among their records. */
  lemma ListedIsRecorded(txt: Txt, names: set<string>, a: string)
    ensures a in ConcreteOf(txt, names) <==>
      exists n :: n in names && "dnsaddr=" + a in Records(txt, n) && !("/dnsaddr/" <= a)
  {
    forall n ensures a in Concrete(Records(txt, n)) <==> "dnsaddr=" + a in Records(txt, n) && !("/dnsaddr/" <= a) {
      RecordsList(Records(txt, n), a);
    }
  }
}
