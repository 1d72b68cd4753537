/** What the network conserves (crates/sim/src/lib.rs): deliveries, and the chunks themselves. */
module SimCounts {
  import opened Types
  import opened Machine
  import opened MachineSafety
  import opened Settlement
  import opened NodeModel
  import opened NodeWork
  import opened NodeRuns
  import opened SimNet
  import opened SimChannel
  import opened SimTokens
  import opened SimHandle
  import opened SimInv
  import opened SimStore
  import opened SimRuns

  // --- served, counted, in flight -----------------------------------------------------------------

  function Total(xs: seq<nat>): nat {
    if xs == [] then 0 else Total(xs[..|xs| - 1]) + xs[|xs| - 1]
  }

  lemma {:induction false} TotalUpdate(xs: seq<nat>, i: nat, x: nat)
    requires i < |xs|
    ensures Total(xs[i := x]) + xs[i] == Total(xs) + x
    decreases |xs|
  {
    var front, ys := xs[..|xs| - 1], xs[i := x];
    if i == |xs| - 1 {
      assert ys[..|xs| - 1] == front;
    } else {
      assert ys[..|xs| - 1] == front[i := x];
      TotalUpdate(front, i, x);
    }
  }

  /** The nodes' delivery counters. */
  function Counters(hosts: seq<Host>): seq<nat> {
    seq(|hosts|, i requires 0 <= i < |hosts| => hosts[i].puller.m.ndeliv)
  }

  function Carries(msg: Msg): nat {
    if msg.Resp? && msg.ev.FetchResult? then |DeliveredIn(msg.ev.outcomes)| else 0
  }

  /** Delivered outcomes not yet counted by the node that asked. */
  function Flying(q: seq<Msg>): nat {
    if q == [] then 0 else Flying(q[..|q| - 1]) + Carries(q[|q| - 1])
  }

  lemma {:induction false} FlyingConcat(a: seq<Msg>, b: seq<Msg>)
    ensures Flying(a + b) == Flying(a) + Flying(b)
    decreases |b|
  {
    if b == [] {
      assert a + b == a;
    } else {
      assert (a + b)[..|a + b| - 1] == a + b[..|b| - 1];
      FlyingConcat(a, b[..|b| - 1]);
    }
  }

  lemma FlyingAround(a: seq<Msg>, x: Msg, b: seq<Msg>)
    ensures Flying(a + [x] + b) == Flying(a) + Carries(x) + Flying(b)
  {
    FlyingConcat(a, [x]);
    FlyingConcat(a + [x], b);
    assert [x][..0] == [];
  }

  lemma FlyingTake(q: seq<Msg>, idx: nat)
    requires idx < |q|
    ensures Flying(q) == Flying(SwapRemove(q, idx)) + Carries(q[idx])
  {
    if idx < |q| - 1 {
      var a, b, last := q[..idx], q[idx + 1..|q| - 1], q[|q| - 1];
      SwapRemoveMiddle(q, idx);
      FlyingAround(a, q[idx], b);
      FlyingAround(a, last, b);
      FlyingConcat(a + [q[idx]] + b, [last]);
      assert [last][..0] == [];
    }
  }

  lemma {:induction false} ReqsCarryNothing(i: int, fx: seq<Effect>)
    ensures Flying(Reqs(i, fx)) == 0
  {
    if fx != [] { ReqsCarryNothing(i, fx[..|fx| - 1]); }
  }

  lemma {:induction false} ResponsesCarryNothing(h: Host, j: int, ready: seq<Held>)
    ensures Flying(Responses(h, j, ready)) == 0
  {
    if ready != [] { ResponsesCarryNothing(h, j, ready[..|ready| - 1]); }
  }

  /** Deliveries served are deliveries counted plus deliveries in flight (or in `hand`). */
  ghost predicate Counted(s: Net, hand: nat) {
    |s.served| == |s.hosts| && Total(s.served) == Total(Counters(s.hosts)) + Flying(s.queue) + hand
  }

  lemma StoreCounted(s: Net, i: int, c: Triple)
    requires 0 <= i < |s.hosts| && Counted(s, 0)
    ensures Counted(Store(s, i, c), 0)
  {
    var s' := Store(s, i, c);
    StoreGrows(s, i, c);
    assert Counters(s'.hosts) == Counters(s.hosts) by {
      assert forall l :: 0 <= l < |s.hosts| ==> GrownAt(s, s', l);
    }
    if c !in s.hosts[i].index {
      var bin, h2 := s.place(c), s'.hosts[i];
      var answers := Responses(h2, i, Answerable(s.hosts[i].parked, bin, h2.Head(bin)));
      FlyingConcat(s.queue, answers);
      ResponsesCarryNothing(h2, i, Answerable(s.hosts[i].parked, bin, h2.Head(bin)));
    }
  }

  lemma {:induction false} StoreAllCounted(s: Net, i: int, cs: seq<Triple>)
    requires 0 <= i < |s.hosts| && Counted(s, 0)
    ensures Counted(StoreAll(s, i, cs), 0)
    decreases |cs|
  {
    if cs != [] {
      StoreAllCounted(s, i, cs[..|cs| - 1]);
      StoreCounted(StoreAll(s, i, cs[..|cs| - 1]), i, cs[|cs| - 1]);
    }
  }

  lemma FedCounted(s: Net, i: int, n': Node, fx: seq<Effect>, hand: nat)
    requires 0 <= i < |s.hosts| && Counted(s, hand) && n'.m.ndeliv == s.hosts[i].puller.m.ndeliv + hand
    ensures Counted(Fed(s, i, n').(queue := s.queue + Reqs(i, fx)), 0)
  {
    var s' := Fed(s, i, n');
    assert Counters(s'.hosts) == Counters(s.hosts)[i := n'.m.ndeliv];
    TotalUpdate(Counters(s.hosts), i, n'.m.ndeliv);
    FlyingConcat(s.queue, Reqs(i, fx));
    ReqsCarryNothing(i, fx);
  }

  lemma AnswerCounted(s: Net, i: int, e: Effect, luck: set<nat>)
    requires 0 <= e.peer < |s.hosts| && Counted(s, 0)
    ensures Counted(Answer(s, i, e, luck), 0)
  {
    var s' := Answer(s, i, e, luck);
    assert Counters(s'.hosts) == Counters(s.hosts);
    if |s'.queue| > |s.queue| {
      var msg := s'.queue[|s.queue|];
      assert s'.queue == s.queue + [msg];
      FlyingConcat(s.queue, [msg]);
      assert [msg][..0] == [];
    }
    if e.Fetch? {
      TotalUpdate(s.served, e.peer, s'.served[e.peer]);
    }
  }

  // --- chunks ---------------------------------------------------------------------------------------

  /** Everything held by anyone. */
  function Universe(s: Net): set<Triple> {
    set i, c | 0 <= i < |s.hosts| && c in s.hosts[i].index :: c
  }

  /** Whatever a node has heard of, someone holds. */
  ghost predicate Known(s: Net) {
    forall i :: 0 <= i < |s.hosts| ==> s.hosts[i].puller.m.arrived <= Universe(s)
  }

  lemma RefArrived(n: Node, k: Key, r: (BinId, Triple))
    requires k in n.logs
    ensures TakeRef(n, k, r).m.arrived <= n.m.arrived + {r.1}
  {
  }

  lemma {:induction false} RefsArrived(n: Node, k: Key, refs: seq<(BinId, Triple)>, u: set<Triple>)
    requires k in n.logs && n.m.arrived <= u && forall r :: r in refs ==> r.1 in u
    ensures TakeRefs(n, k, refs).m.arrived <= u
    decreases |refs|
  {
    if refs != [] {
      RefsArrived(n, k, refs[..|refs| - 1], u);
      RefArrived(TakeRefs(n, k, refs[..|refs| - 1]), k, refs[|refs| - 1]);
      assert refs[|refs| - 1] in refs;
    }
  }

  lemma RoundArrived(n: Node)
    requires Sound(n)
    ensures Round(n).0.m.arrived <= n.m.arrived
  {
    RoundLeasesArePartitioned(n);
  }

  /** What an offer may name. */
  ghost predicate NamesOnly(ev: Event, u: set<Triple>) {
    ev.OfferResult? ==> forall r :: r in ev.refs ==> r.1 in u
  }

  lemma EvArrived(n: Node, ev: Event, res: seq<Triple>, u: set<Triple>)
    requires Sound(n) && EvOk(n, ev, res) && n.m.arrived <= u && NamesOnly(ev, u)
    ensures Handle(n, ev).0.m.arrived <= u
  {
    match ev {
      case PeerSeen(p) =>
      case CursorsResult(p, cs) =>
        UncursoredPeer(n, p);
        CursorsEffect(n, p, cs);
      case OfferResult(p, bin, start, refs, topmost) =>
        OfferedSound(n, (p, bin), start, refs, topmost, res);
        RefsArrived(TakeOffer(n, (p, bin), start, refs, topmost), (p, bin), refs, u);
        RoundArrived(Ingest(n, ev));
      case FetchResult(p, bin, os) =>
        FetchedIngested(n, p, bin, os);
        OutcomesFrame(n.m, p, os);
        RoundArrived(Ingest(n, ev));
    }
  }

  /** The bins hold only what the nodes hold. */
  lemma ResInUniverse(s: Net, k: Key)
    requires HostsOk(s)
    ensures forall c :: c in Res(s, k) ==> c in Universe(s)
  {
    if 0 <= k.0 < |s.hosts| {
      assert ReserveOk(s.hosts[k.0], s.place);
      assert forall c :: c in Res(s, k) ==> c in s.hosts[k.0].index;
    }
  }

  lemma MsgNamesOnly(s: Net, i: int, ev: Event)
    requires HostsOk(s) && MsgOk(s, Resp(i, ev))
    ensures NamesOnly(ev, Universe(s))
    ensures forall c :: c in Delivers(ev) ==> c in Universe(s)
  {
    match ev {
      case OfferResult(p, bin, start, refs, _) =>
        ResInUniverse(s, (p, bin));
        forall r | r in refs ensures r.1 in Universe(s) {
          var x :| 0 <= x < |refs| && refs[x] == r;
          assert r.1 == Res(s, (p, bin))[start + x - 1];
        }
      case FetchResult(p, _, os) => DeliversHeld(s, p, os);
      case _ =>
    }
  }

  lemma {:induction false} DeliversHeld(s: Net, p: PeerId, os: seq<(Triple, Outcome)>)
    requires forall o :: o in os ==> ServedOk(s, p, o)
    ensures forall c :: c in DeliveredIn(os) ==> c in Universe(s)
    decreases |os|
  {
    if os != [] {
      DeliversHeld(s, p, os[..|os| - 1]);
      assert ServedOk(s, p, os[|os| - 1]);
    }
  }

  lemma StoredUniverse(s: Net, s': Net, i: int, cs: set<Triple>)
    requires 0 <= i < |s.hosts| && StoredAt(s, s', i, cs)
    ensures Universe(s') == Universe(s) + cs
  {
    forall c ensures c in Universe(s') <==> c in Universe(s) + cs {
      if c in Universe(s) {
        var l :| 0 <= l < |s.hosts| && c in s.hosts[l].index;
        assert GrownAt(s, s', l);
      }
      if c in cs {
        assert c in s'.hosts[i].index;
      }
    }
  }
}
