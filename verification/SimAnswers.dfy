/** What a request is answered with, message by message (crates/sim/src/lib.rs, `step`), read off
    the queue, the counters and the parked offers. */
module SimAnswers {
  import opened Types
  import opened Machine
  import opened NodeModel
  import opened SimNet

  // --- the start, and requests -------------------------------------------------------------------

  /** A new network: `k` nodes that hold nothing and pull under the production configuration, those
      of the given set omitting; nothing in flight, nothing served, the whole spurious budget. */
  lemma NewNetIs(k: nat, byzantine: set<int>, policy: Policy, spurious: nat, concurrent: bool, place: Triple -> Bin, i: nat)
    requires i < k
    ensures var s := NewNet(k, byzantine, policy, spurious, concurrent, place);
      var h := s.hosts[i];
      && |s.hosts| == |s.served| == k && s.queue == [] && s.served[i] == 0
      && s.spurious == spurious && s.concurrent == concurrent && s.place == place
      && (h.byzantine <==> i in byzantine) && h.index == {} && h.reserve == map[] && h.parked == []
      && h.puller.m == Initial(Config(true, true, true, true, false, true, true))
      && h.puller.policy == policy && h.puller.radius == RADIUS && h.puller.peers == {} && h.puller.logs == map[]
  {
  }

  /** A node's effects go out as requests, each in its turn. */
  lemma {:induction false} ReqsAre(i: int, fx: seq<Effect>)
    ensures |Reqs(i, fx)| == |fx| && forall x :: 0 <= x < |fx| ==> Reqs(i, fx)[x] == Req(i, fx[x])
    decreases |fx|
  {
    if fx != [] { ReqsAre(i, fx[..|fx| - 1]); }
  }

  // --- fetches --------------------------------------------------------------------------------

  /** The draws of `luck` before position `x`. */
  function DrawsBefore(luck: set<nat>, x: nat): set<nat> {
    set y | y in luck && y < x
  }

  /** Want `x` is missed spuriously: its draw says so, and the budget outlasts the draws before. */
  predicate MissDrawn(budget: nat, luck: set<nat>, x: nat) {
    x in luck && |DrawsBefore(luck, x)| < budget
  }

  lemma DrawOne(luck: set<nat>, x: nat)
    ensures |DrawsBefore(luck, x + 1)| == |DrawsBefore(luck, x)| + if x in luck then 1 else 0
  {
    if x in luck {
      assert DrawsBefore(luck, x + 1) == DrawsBefore(luck, x) + {x};
    } else {
      assert DrawsBefore(luck, x + 1) == DrawsBefore(luck, x);
    }
  }

  /** What of the budget the first `x` wants leave. */
  function BudgetLeft(byzantine: bool, budget: nat, luck: set<nat>, x: nat): nat {
    if byzantine then budget else budget - Min(budget, |DrawsBefore(luck, x)|)
  }

  lemma {:induction false} ServeAllIs(h: Host, want: seq<Triple>, budget: nat, luck: set<nat>)
    ensures var (os, left) := ServeAll(h, want, budget, luck);
      && left == BudgetLeft(h.byzantine, budget, luck, |want|)
      && |os| == |want|
      && forall x :: 0 <= x < |want| ==> os[x] == (want[x],
           if !h.byzantine && want[x] in h.index && !MissDrawn(budget, luck, x) then Delivered else Missed)
    decreases |want|
  {
    if want == [] {
      assert DrawsBefore(luck, 0) == {};
    } else {
      var x := |want| - 1;
      ServeAllIs(h, want[..x], budget, luck);
      DrawOne(luck, x);
    }
  }

  function DeliveredAt(os: seq<(Triple, Outcome)>): set<nat> {
    set x | 0 <= x < |os| && os[x].1 == Delivered
  }

  lemma {:induction false} DeliveredCount(os: seq<(Triple, Outcome)>)
    ensures |DeliveredIn(os)| == |DeliveredAt(os)|
    decreases |os|
  {
    if os != [] {
      var x := |os| - 1;
      DeliveredCount(os[..x]);
      if os[x].1 == Delivered {
        assert DeliveredAt(os) == DeliveredAt(os[..x]) + {x};
      } else {
        assert DeliveredAt(os) == DeliveredAt(os[..x]);
      }
    }
  }

  /** The message put last in the queue, all others being those already there. */
  ghost predicate Queued(s: Net, s': Net, msg: Msg) {
    s'.queue == s.queue + [msg]
  }

  /** A fetch is answered want by want. A want is delivered if and only if the peer is honest,
      holds it, and no spurious miss was drawn for it; else it is missed. Each delivery is counted
      as served by that peer, each spurious miss is taken off the budget; an omitting peer serves
      nothing and spends nothing. */
  lemma FetchAnswered(s: Net, i: int, j: int, bin: Bin, want: seq<Triple>, luck: set<nat>) returns (os: seq<(Triple, Outcome)>)
    requires 0 <= j < |s.hosts| == |s.served|
    ensures var s', h := Answer(s, i, Fetch(j, bin, want), luck), s.hosts[j];
      && Queued(s, s', Resp(i, FetchResult(j, bin, os))) && |os| == |want|
      && (forall x :: 0 <= x < |want| ==> os[x].0 == want[x] && os[x].1 != Rejected)
      && (forall x :: 0 <= x < |want| ==>
            (os[x].1 == Delivered <==> !h.byzantine && want[x] in h.index && !MissDrawn(s.spurious, luck, x)))
      && s' == s.(queue := s'.queue, served := s.served[j := s.served[j] + |DeliveredAt(os)|], spurious := s'.spurious)
      && (h.byzantine ==> s'.served == s.served && s'.spurious == s.spurious)
      && (!h.byzantine ==> s.spurious - s'.spurious == Min(s.spurious, |DrawsBefore(luck, |want|)|))
  {
    os := ServeAll(s.hosts[j], want, s.spurious, luck).0;
    ServeAllIs(s.hosts[j], want, s.spurious, luck);
    DeliveredCount(os);
    if s.hosts[j].byzantine {
      assert DeliveredAt(os) == {};
    }
  }

  // --- the handshake ------------------------------------------------------------------------------

  /** Cursors name every bin of the universe, empty ones included, with the peer's head. */
  lemma CursorsAnswered(s: Net, i: int, j: int, luck: set<nat>) returns (cs: seq<(Bin, BinId)>)
    requires 0 <= j < |s.hosts| == |s.served|
    ensures var s' := Answer(s, i, GetCursors(j), luck);
      && Queued(s, s', Resp(i, CursorsResult(j, cs))) && s' == s.(queue := s'.queue)
      && (forall bin :: (exists x :: 0 <= x < |cs| && cs[x].0 == bin) <==> InBins(bin))
      && (forall x, y :: 0 <= x < y < |cs| ==> cs[x].0 != cs[y].0)
      && forall x :: 0 <= x < |cs| ==> cs[x].1 == |s.hosts[j].BinAt(cs[x].0)|
  {
    cs := Cursors(s.hosts[j]);
    forall x | 0 <= x < |cs| ensures cs[x] == (RADIUS + x, s.hosts[j].Head(RADIUS + x)) {
    }
    forall bin | InBins(bin) ensures exists x :: 0 <= x < |cs| && cs[x].0 == bin {
      assert cs[bin - RADIUS].0 == bin;
    }
  }

  /** An offer the peer's bin reaches is answered with the page from its start: as much as the
      page holds, every entry under its own BinID, and topmost the last of them. One beyond the
      bin is parked and answered by nothing. */
  lemma OfferAnswered(s: Net, i: int, j: int, bin: Bin, start: BinId, luck: set<nat>) returns (refs: seq<(BinId, Triple)>)
    requires 0 <= j < |s.hosts| == |s.served| && start >= 1
    ensures var s', h := Answer(s, i, Offer(j, bin, start), luck), s.hosts[j];
      var held := |h.BinAt(bin)|;
      if start <= held then
        && Queued(s, s', Resp(i, OfferResult(j, bin, start, refs, start + |refs| - 1))) && s' == s.(queue := s'.queue)
        && |refs| == Min(PAGE, held - start + 1)
        && forall x :: 0 <= x < |refs| ==> refs[x] == (start + x, h.BinAt(bin)[start + x - 1])
      else s' == s.(hosts := s.hosts[j := h.(parked := h.parked + [(i, bin, start)])])
  {
    refs := Page(s.hosts[j].BinAt(bin), start);
  }

  // --- storing -----------------------------------------------------------------------------------------

  lemma {:induction false} ParkedSplit(parked: seq<Held>, bin: Bin, head: BinId, h: Held)
    ensures h in Answerable(parked, bin, head) <==> h in parked && h.1 == bin && h.2 <= head
    ensures h in StillParked(parked, bin, head) <==> h in parked && !(h.1 == bin && h.2 <= head)
    decreases |parked|
  {
    if parked != [] {
      var x := |parked| - 1;
      ParkedSplit(parked[..x], bin, head, h);
      assert parked == parked[..x] + [parked[x]];
    }
  }

  lemma {:induction false} ParkedAdd(parked: seq<Held>, bin: Bin, head: BinId)
    ensures multiset(Answerable(parked, bin, head)) + multiset(StillParked(parked, bin, head)) == multiset(parked)
    decreases |parked|
  {
    if parked != [] {
      var x := |parked| - 1;
      ParkedAdd(parked[..x], bin, head);
      assert parked == parked[..x] + [parked[x]];
    }
  }

  /** One message each, in order: the page each parked offer asked for. */
  ghost predicate Answers(h: Host, j: int, ready: seq<Held>, msgs: seq<Msg>) {
    && |msgs| == |ready|
    && forall x :: 0 <= x < |ready| ==> msgs[x] == Resp(ready[x].0, OfferResponse(h, j, ready[x].1, ready[x].2))
  }

  lemma {:induction false} ResponsesAre(h: Host, j: int, ready: seq<Held>)
    ensures Answers(h, j, ready, Responses(h, j, ready))
    decreases |ready|
  {
    if ready != [] {
      ResponsesAre(h, j, ready[..|ready| - 1]);
    }
  }

  /** A chunk not held before goes to the end of its bin and into the index; one already held
      changes nothing. */
  lemma StoreAppends(s: Net, i: int, c: Triple)
    requires 0 <= i < |s.hosts|
    ensures var s', h := Store(s, i, c), s.hosts[i];
      var h' := s'.hosts[i];
      if c in h.index then s' == s
      else
        && s' == s.(hosts := s.hosts[i := h'], queue := s'.queue)
        && h' == h.(index := h.index + {c}, reserve := h'.reserve, parked := h'.parked)
        && forall b :: h'.BinAt(b) == if b == s.place(c) then h.BinAt(b) + [c] else h.BinAt(b)
  {
  }

  /** Of the offers parked, exactly those of the chunk's bin that the new head reaches are
      answered, one message each, from the grown bin; all others stay. */
  lemma StoreAnswers(s: Net, i: int, c: Triple) returns (ready: seq<Held>)
    requires 0 <= i < |s.hosts| && c !in s.hosts[i].index
    ensures var s', h, bin := Store(s, i, c), s.hosts[i], s.place(c);
      var h' := s'.hosts[i];
      && multiset(ready) + multiset(h'.parked) == multiset(h.parked)
      && (forall r :: r in ready ==> r.1 == bin && r.2 <= |h.BinAt(bin)| + 1)
      && (forall r :: r in h'.parked ==> r.1 != bin || r.2 > |h.BinAt(bin)| + 1)
      && Answers(h', i, ready, s'.queue[|s.queue|..]) && s'.queue[..|s.queue|] == s.queue
  {
    var h, bin := s.hosts[i], s.place(c);
    var head := h.Head(bin) + 1;
    ready := Answerable(h.parked, bin, head);
    var h1 := h.(index := h.index + {c}, reserve := h.reserve[bin := h.BinAt(bin) + [c]]);
    var h2 := h1.(parked := StillParked(h.parked, bin, head));
    assert h1.Head(bin) == head;
    forall r ensures (r in ready <==> r in h.parked && r.1 == bin && r.2 <= head)
      && (r in h2.parked <==> r in h.parked && !(r.1 == bin && r.2 <= head)) {
      ParkedSplit(h.parked, bin, head, r);
    }
    ParkedAdd(h.parked, bin, head);
    ResponsesAre(h2, i, ready);
    assert Store(s, i, c) == s.(hosts := s.hosts[i := h2], queue := s.queue + Responses(h2, i, ready));
  }

  // --- the pool -----------------------------------------------------------------------------------------

  /** What the handshake consists of: everything but fetches, their results and announcements. */
  predicate Handshake(msg: Msg) {
    match msg
    case Req(_, GetCursors(_)) => true
    case Req(_, Offer(_, _, _)) => true
    case Resp(_, CursorsResult(_, _)) => true
    case Resp(_, OfferResult(_, _, _, _, _)) => true
    case _ => false
  }

  /** A message is passed over exactly when it is no handshake, some handshake is in flight, and
      discovery is concurrent. */
  lemma HandshakeFirst(s: Net, idx: nat)
    requires idx < |s.queue|
    ensures !MayTake(s, idx) <==> s.concurrent && !Handshake(s.queue[idx]) && exists m :: m in s.queue && Handshake(m)
  {
    assert forall m :: m in s.queue ==> (IsDiscovery(m) <==> Handshake(m));
  }

  /** Taking a message takes that one and no other, and moves only the last. */
  lemma TakenIsGone(q: seq<Msg>, idx: nat)
    requires idx < |q|
    ensures multiset(SwapRemove(q, idx)) + multiset{q[idx]} == multiset(q)
    ensures forall x :: 0 <= x < |q| - 1 && x != idx ==> SwapRemove(q, idx)[x] == q[x]
  {
    var last := |q| - 1;
    assert q == q[..last] + [q[last]];
    if idx < last {
      assert q[..last] == q[..idx] + [q[idx]] + q[idx + 1..last];
      assert SwapRemove(q, idx) == q[..idx] + [q[last]] + q[idx + 1..last];
    }
  }
}
