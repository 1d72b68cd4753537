/** Every claim of a node on the network is one message in flight (crates/sim/src/lib.rs,
    crates/node/src/lib.rs): cursors asked for, offers standing, leases taken. */
module SimTokens {
  import opened Types
  import opened Machine
  import opened MachineSafety
  import opened Settlement
  import opened NodeModel
  import opened NodeWork
  import opened NodeRuns
  import opened NodeTraces
  import opened SimNet
  import opened SimChannel

  /** What node `node` is waiting for. */
  datatype Tok =
    | Cur(node: int, peer: PeerId)
    | Off(node: int, k: Key)
    | Lease(node: int, peer: PeerId, c: Triple)

  function LeaseToks(i: int, j: PeerId, cs: seq<Triple>): multiset<Tok> {
    if cs == [] then multiset{} else LeaseToks(i, j, cs[..|cs| - 1]) + multiset{Lease(i, j, cs[|cs| - 1])}
  }

  function Ids(os: seq<(Triple, Outcome)>): seq<Triple> {
    seq(|os|, i requires 0 <= i < |os| => os[i].0)
  }

  function TokensOf(msg: Msg): multiset<Tok> {
    match msg
    case Req(i, GetCursors(p)) => multiset{Cur(i, p)}
    case Req(i, Offer(p, bin, _)) => multiset{Off(i, (p, bin))}
    case Req(i, Fetch(p, _, want)) => LeaseToks(i, p, want)
    case Req(_, Settled(_, _, _)) => multiset{}
    case Resp(i, CursorsResult(p, _)) => multiset{Cur(i, p)}
    case Resp(i, OfferResult(p, bin, _, _, _)) => multiset{Off(i, (p, bin))}
    case Resp(i, FetchResult(p, _, os)) => LeaseToks(i, p, Ids(os))
    case Resp(_, _) => multiset{}
  }

  function Toks(q: seq<Msg>): multiset<Tok> {
    if q == [] then multiset{} else Toks(q[..|q| - 1]) + TokensOf(q[|q| - 1])
  }

  lemma {:induction false} ToksConcat(a: seq<Msg>, b: seq<Msg>)
    ensures Toks(a + b) == Toks(a) + Toks(b)
    decreases |b|
  {
    if b == [] {
      assert a + b == a;
    } else {
      assert (a + b)[..|a + b| - 1] == a + b[..|b| - 1];
      ToksConcat(a, b[..|b| - 1]);
    }
  }

  lemma ToksSingle(msg: Msg)
    ensures Toks([msg]) == TokensOf(msg)
  {
    assert [msg][..0] == [];
  }

  lemma ToksAround(a: seq<Msg>, x: Msg, b: seq<Msg>)
    ensures Toks(a + [x] + b) == Toks(a) + TokensOf(x) + Toks(b)
  {
    ToksSingle(x);
    ToksConcat(a, [x]);
    ToksConcat(a + [x], b);
  }

  lemma SwapSummands(a: multiset<Tok>, x: multiset<Tok>, b: multiset<Tok>, y: multiset<Tok>)
    ensures a + x + b + y == a + y + b + x
  {
  }

  lemma ToksMiddle(a: seq<Msg>, x: Msg, b: seq<Msg>, y: Msg)
    ensures Toks(a + [x] + b + [y]) == Toks(a + [y] + b) + TokensOf(x)
  {
    ToksAround(a, x, b);
    ToksAround(a, y, b);
    ToksConcat(a + [x] + b, [y]);
    ToksSingle(y);
    SwapSummands(Toks(a), TokensOf(x), Toks(b), TokensOf(y));
  }

  lemma SwapRemoveMiddle(q: seq<Msg>, idx: nat)
    requires idx < |q| - 1
    ensures var a, b := q[..idx], q[idx + 1..|q| - 1];
      q == a + [q[idx]] + b + [q[|q| - 1]] && SwapRemove(q, idx) == a + [q[|q| - 1]] + b
  {
  }

  /** Taking a message out takes exactly its tokens out. */
  lemma ToksTake(q: seq<Msg>, idx: nat)
    requires idx < |q|
    ensures Toks(q) == Toks(SwapRemove(q, idx)) + TokensOf(q[idx])
  {
    if idx < |q| - 1 {
      SwapRemoveMiddle(q, idx);
      ToksMiddle(q[..idx], q[idx], q[idx + 1..|q| - 1], q[|q| - 1]);
    }
  }

  lemma {:induction false} LeaseCount(i: int, j: PeerId, cs: seq<Triple>, t: Tok)
    ensures LeaseToks(i, j, cs)[t] == if t.Lease? && t.node == i && t.peer == j then multiset(cs)[t.c] else 0
    decreases |cs|
  {
    if cs != [] {
      LeaseCount(i, j, cs[..|cs| - 1], t);
      assert cs == cs[..|cs| - 1] + [cs[|cs| - 1]];
    }
  }

  lemma DistinctCount(cs: seq<Triple>, c: Triple)
    requires Distinct(cs)
    ensures multiset(cs)[c] == if c in cs then 1 else 0
    decreases |cs|
  {
    if cs != [] {
      var front := cs[..|cs| - 1];
      DistinctCount(front, c);
      assert cs == front + [cs[|cs| - 1]];
    }
  }

  /** What node `i` in state `n` is owed under token `t`. */
  function Owed(n: Node, i: int, t: Tok): nat {
    if t.node != i then 0
    else match t
      case Cur(_, p) => if p in n.peers && (p, RADIUS) !in n.logs then 1 else 0
      case Off(_, k) => if k in n.offerOpen then 1 else 0
      case Lease(_, p, c) => if p in At(n.m.want, c) then 1 else 0
  }

  // --- the tokens of a list of effects --------------------------------------------------------

  lemma {:induction false} ReqsConcat(i: int, a: seq<Effect>, b: seq<Effect>)
    ensures Reqs(i, a + b) == Reqs(i, a) + Reqs(i, b)
    decreases |b|
  {
    if b == [] {
      assert a + b == a;
    } else {
      assert (a + b)[..|a + b| - 1] == a + b[..|b| - 1];
      ReqsConcat(i, a, b[..|b| - 1]);
    }
  }

  lemma {:induction false} CountElsewhere(i: int, fx: seq<Effect>, t: Tok)
    requires t.node != i
    ensures Toks(Reqs(i, fx))[t] == 0
    decreases |fx|
  {
    if fx != [] {
      CountElsewhere(i, fx[..|fx| - 1], t);
      if fx[|fx| - 1].Fetch? { LeaseCount(i, fx[|fx| - 1].peer, fx[|fx| - 1].want, t); }
    }
  }

  lemma {:induction false} CountOffers(i: int, fx: seq<Effect>, k: Key)
    ensures Toks(Reqs(i, fx))[Off(i, k)] == |Starts(fx, k)|
    decreases |fx|
  {
    if fx != [] {
      CountOffers(i, fx[..|fx| - 1], k);
      if fx[|fx| - 1].Fetch? { LeaseCount(i, fx[|fx| - 1].peer, fx[|fx| - 1].want, Off(i, k)); }
    }
  }

  lemma {:induction false} CountNoCursors(i: int, fx: seq<Effect>, p: PeerId)
    requires forall e :: e in fx ==> !e.GetCursors?
    ensures Toks(Reqs(i, fx))[Cur(i, p)] == 0
    decreases |fx|
  {
    if fx != [] {
      CountNoCursors(i, fx[..|fx| - 1], p);
      assert fx[|fx| - 1] in fx;
      if fx[|fx| - 1].Fetch? { LeaseCount(i, fx[|fx| - 1].peer, fx[|fx| - 1].want, Cur(i, p)); }
    }
  }

  lemma {:induction false} CountNoLeases(i: int, fx: seq<Effect>, p: PeerId, c: Triple)
    requires forall e :: e in fx ==> !e.Fetch?
    ensures Toks(Reqs(i, fx))[Lease(i, p, c)] == 0
    decreases |fx|
  {
    if fx != [] {
      CountNoLeases(i, fx[..|fx| - 1], p, c);
      assert fx[|fx| - 1] in fx;
    }
  }

  lemma {:induction false} SettleEffectsKinds(n: Node, keys: seq<Key>)
    requires n.LogsValid() && forall k :: k in keys ==> k in n.logs
    ensures forall e :: e in SettleEffects(n, keys) ==> e.Settled? || e.Offer?
    decreases |keys|
  {
    if keys != [] {
      SettleEffectsKinds(n, keys[..|keys| - 1]);
    }
  }

  lemma {:induction false} FetchEffectsKinds(b: Batches, keys: seq<Key>)
    requires forall k :: k in keys ==> k in b
    ensures forall e :: e in FetchEffects(b, keys) ==> e.Fetch?
    decreases |keys|
  {
    if keys != [] {
      FetchEffectsKinds(b, keys[..|keys| - 1]);
    }
  }

  lemma CountBatch(i: int, n: Node, n': Node, b: Batches, k: Key, p: PeerId, c: Triple)
    requires Partition(n, n', b) && k in b
    ensures TokensOf(Req(i, Fetch(k.0, k.1, b[k])))[Lease(i, p, c)] == if k == (p, n.Depth(c)) && c in b[k] then 1 else 0
  {
    LeaseCount(i, k.0, b[k], Lease(i, p, c));
    assert BatchOk(n, n', b, k);
    DistinctCount(b[k], c);
  }

  lemma OneMoreReq(i: int, fx: seq<Effect>, e: Effect)
    ensures Toks(Reqs(i, fx + [e])) == Toks(Reqs(i, fx)) + TokensOf(Req(i, e))
  {
    assert (fx + [e])[..|fx|] == fx;
    assert Reqs(i, fx + [e]) == Reqs(i, fx) + [Req(i, e)];
    ToksConcat(Reqs(i, fx), [Req(i, e)]);
    ToksSingle(Req(i, e));
  }

  /** A leased id travels in the one batch of its holder and its bin. */
  lemma {:induction false} CountBatched(i: int, n: Node, n': Node, b: Batches, keys: seq<Key>, p: PeerId, c: Triple)
    requires Partition(n, n', b) && (forall k :: k in keys ==> k in b) && Distinct(keys)
    ensures Toks(Reqs(i, FetchEffects(b, keys)))[Lease(i, p, c)] ==
      if (p, n.Depth(c)) in keys && c in b[(p, n.Depth(c))] then 1 else 0
    decreases |keys|
  {
    if keys != [] {
      var front, k := keys[..|keys| - 1], keys[|keys| - 1];
      CountBatched(i, n, n', b, front, p, c);
      CountBatch(i, n, n', b, k, p, c);
      assert k !in front && forall l :: l in keys <==> l in front || l == k;
      var fx, fetch := FetchEffects(b, front), Fetch(k.0, k.1, b[k]);
      OneMoreReq(i, fx, fetch);
    }
  }

  lemma CountPartition(i: int, n: Node, n': Node, b: Batches, p: PeerId, c: Triple)
    requires Partition(n, n', b)
    ensures (p in At(n'.m.want, c) && p !in At(n.m.want, c)) <==> (p, n.Depth(c)) in b && c in b[(p, n.Depth(c))]
    ensures p in At(n.m.want, c) ==> p in At(n'.m.want, c)
  {
    var k := (p, n.Depth(c));
    if k in b && c in b[k] {
      assert BatchOk(n, n', b, k);
      assert Booked(n, n', b, c, p);
    }
    if c in n'.m.want && c !in n.m.want {
      var q :| Booked(n, n', b, c, q);
    }
  }

  /** A round asks for exactly what it comes to be owed. */
  lemma RoundOwes(n: Node, i: int, t: Tok)
    requires Sound(n)
    ensures Owed(Round(n).0, i, t) == Owed(n, i, t) + Toks(Reqs(i, Round(n).1))[t]
  {
    RoundFrame(n);
    if t.node != i {
      CountElsewhere(i, Round(n).1, t);
    } else {
      match t {
        case Cur(_, p) => RoundOwesNoCursors(n, i, p);
        case Off(_, k) =>
          CountOffers(i, Round(n).1, k);
          RoundReads(n, k);
        case Lease(_, p, c) => RoundOwesLeases(n, i, p, c);
      }
    }
  }

  lemma NoCursorsAmong(i: int, settles: seq<Effect>, fetches: seq<Effect>, p: PeerId)
    requires (forall e :: e in settles ==> e.Settled? || e.Offer?) && (forall e :: e in fetches ==> e.Fetch?)
    ensures Toks(Reqs(i, settles + fetches))[Cur(i, p)] == 0
  {
    forall e | e in settles + fetches ensures !e.GetCursors? {
      assert e in settles || e in fetches;
    }
    CountNoCursors(i, settles + fetches, p);
  }

  lemma RoundOwesNoCursors(n: Node, i: int, p: PeerId)
    requires n.LogsValid()
    ensures Toks(Reqs(i, Round(n).1))[Cur(i, p)] == 0
  {
    var keys, bkeys, b := Sorted(n.logs.Keys), Sorted(RoundBatches(n).Keys), RoundBatches(n);
    SortedLists(n.logs.Keys);
    SortedLists(b.Keys);
    SettleEffectsKinds(n, keys);
    FetchEffectsKinds(b, bkeys);
    NoCursorsAmong(i, SettleEffects(n, keys), FetchEffects(b, bkeys), p);
  }

  lemma RoundFetchCount(n: Node, i: int, p: PeerId, c: Triple)
    requires n.LogsValid()
    ensures forall k :: k in Sorted(RoundBatches(n).Keys) <==> k in RoundBatches(n)
    ensures Toks(Reqs(i, Round(n).1))[Lease(i, p, c)] ==
      Toks(Reqs(i, FetchEffects(RoundBatches(n), Sorted(RoundBatches(n).Keys))))[Lease(i, p, c)]
  {
    SortedLists(n.logs.Keys);
    SortedLists(RoundBatches(n).Keys);
    var settles := SettleEffects(n, Sorted(n.logs.Keys));
    var fetches := FetchEffects(RoundBatches(n), Sorted(RoundBatches(n).Keys));
    SettleEffectsKinds(n, Sorted(n.logs.Keys));
    CountNoLeases(i, settles, p, c);
    CountConcat(i, settles, fetches, Lease(i, p, c));
  }

  lemma CountConcat(i: int, a: seq<Effect>, b: seq<Effect>, t: Tok)
    ensures Toks(Reqs(i, a + b))[t] == Toks(Reqs(i, a))[t] + Toks(Reqs(i, b))[t]
  {
    ReqsConcat(i, a, b);
    ToksConcat(Reqs(i, a), Reqs(i, b));
  }

  lemma RoundOwesLeases(n: Node, i: int, p: PeerId, c: Triple)
    requires Sound(n)
    ensures Owed(Round(n).0, i, Lease(i, p, c)) == Owed(n, i, Lease(i, p, c)) + Toks(Reqs(i, Round(n).1))[Lease(i, p, c)]
  {
    var b := RoundBatches(n);
    RoundFetchCount(n, i, p, c);
    RoundLeasesArePartitioned(n);
    SortedLists(b.Keys);
    CountBatched(i, Prepared(n), Round(n).0, b, Sorted(b.Keys), p, c);
    CountPartition(i, Prepared(n), Round(n).0, b, p, c);
  }

  // --- what each answer settles ---------------------------------------------------------------

  /** Every id answered for is leased to the answering peer, once. */
  ghost predicate AllLeased(m: State, p: PeerId, cs: seq<Triple>) {
    Distinct(cs) && forall c :: c in cs ==> p in At(m.want, c)
  }

  /** The outcomes release exactly the leases they answer; what was delivered is stored, and
      each delivery counted. */
  lemma {:induction false} OutcomesRelease(m: State, p: PeerId, os: seq<(Triple, Outcome)>)
    requires m.cfg == PRODUCTION && (forall o :: o in os ==> o.1 != Rejected) && AllLeased(m, p, Ids(os))
    ensures var m' := TakeOutcomes(m, p, os);
      && (forall q, c :: q in At(m'.want, c) <==> q in At(m.want, c) && !(q == p && c in Ids(os)))
      && m'.got == m.got + (set c | c in DeliveredIn(os))
      && m'.ndeliv == m.ndeliv + |DeliveredIn(os)|
      && m'.cfg == m.cfg
    decreases |os|
  {
    if os != [] {
      var front := os[..|os| - 1];
      var (c, o) := os[|os| - 1];
      assert Ids(front) == Ids(os)[..|os| - 1] && Ids(os)[|os| - 1] == c;
      assert forall d :: d in Ids(os) <==> d in Ids(front) || d == c;
      assert AllLeased(m, p, Ids(front));
      OutcomesRelease(m, p, front);
      var m1 := TakeOutcomes(m, p, front);
      assert c !in Ids(front) && p in At(m1.want, c);
      assert o == os[|os| - 1].1 && os[|os| - 1] in os;
      AtSetRemove(m1.want, c, p);
    }
  }
}
