/** The serving side keeps the network's invariant (crates/sim/src/lib.rs): growing a bin,
    answering and parking offers, serving fetches. */
module SimStore {
  import opened Types
  import opened Machine
  import opened MachineSafety
  import opened Settlement
  import opened NodeModel
  import opened NodeWork
  import opened NodeRuns
  import opened SimNet
  import opened SimChannel
  import opened SimTokens
  import opened SimHandle
  import opened SimInv

  /** An answered offer is a complete stretch of the bin, from where it was asked. */
  lemma ResponseIsStretch(h: Host, j: int, bin: Bin, start: BinId)
    requires 1 <= start <= h.Head(bin)
    ensures var ev := OfferResponse(h, j, bin, start);
      && ev.refs != [] && Stretch(h.BinAt(bin), start, ev.refs) && ev.topmost == start + |ev.refs| - 1
  {
  }

  lemma {:induction false} ReadyFrom(parked: seq<Held>, bin: Bin, head: BinId, h: Held)
    ensures h in Answerable(parked, bin, head) ==> h in parked && h.1 == bin && head >= h.2
    ensures h in StillParked(parked, bin, head) ==> h in parked && !(h.1 == bin && head >= h.2)
    decreases |parked|
  {
    if parked != [] {
      ReadyFrom(parked[..|parked| - 1], bin, head, h);
    }
  }

  lemma {:induction false} ResponsesFrom(h: Host, j: int, ready: seq<Held>, msg: Msg)
    requires msg in Responses(h, j, ready)
    ensures exists r :: r in ready && msg == Resp(r.0, OfferResponse(h, j, r.1, r.2))
    decreases |ready|
  {
    var front, last := ready[..|ready| - 1], ready[|ready| - 1];
    if msg in Responses(h, j, front) {
      ResponsesFrom(h, j, front, msg);
      var r :| r in front && msg == Resp(r.0, OfferResponse(h, j, r.1, r.2));
      assert r in ready;
    } else {
      assert last in ready && msg == Resp(last.0, OfferResponse(h, j, last.1, last.2));
    }
  }

  lemma ResponsesSnoc(h: Host, j: int, ready: seq<Held>, r: Held)
    ensures Toks(Responses(h, j, ready + [r])) == Toks(Responses(h, j, ready)) + multiset{Off(r.0, (j, r.1))}
  {
    assert (ready + [r])[..|ready|] == ready;
    var msg := Resp(r.0, OfferResponse(h, j, r.1, r.2));
    assert Responses(h, j, ready + [r]) == Responses(h, j, ready) + [msg];
    ToksConcat(Responses(h, j, ready), [msg]);
    ToksSingle(msg);
  }

  lemma HeldSnoc(j: int, parked: seq<Held>, r: Held)
    ensures HeldToks(j, parked + [r]) == HeldToks(j, parked) + multiset{Off(r.0, (j, r.1))}
  {
    assert (parked + [r])[..|parked|] == parked;
  }

  /** An offer leaves the parking lot as one answer. */
  lemma {:induction false} ReadyTokens(h: Host, j: int, parked: seq<Held>, bin: Bin, head: BinId, t: Tok)
    ensures HeldToks(j, parked)[t] ==
      HeldToks(j, StillParked(parked, bin, head))[t] + Toks(Responses(h, j, Answerable(parked, bin, head)))[t]
    decreases |parked|
  {
    if parked != [] {
      var front, last := parked[..|parked| - 1], parked[|parked| - 1];
      ReadyTokens(h, j, front, bin, head, t);
      if last.1 == bin && head >= last.2 {
        ResponsesSnoc(h, j, Answerable(front, bin, head), last);
        assert StillParked(parked, bin, head) == StillParked(front, bin, head);
      } else {
        HeldSnoc(j, StillParked(front, bin, head), last);
        assert Answerable(parked, bin, head) == Answerable(front, bin, head);
      }
    }
  }

  /** Only bins and indexes grew; every puller is where it was. */
  ghost predicate Grown(s: Net, s': Net) {
    && |s'.hosts| == |s.hosts| && s'.place == s.place && s'.served == s.served
    && forall i :: 0 <= i < |s.hosts| ==> GrownAt(s, s', i)
  }

  ghost predicate GrownAt(s: Net, s': Net, i: int)
    requires 0 <= i < |s.hosts| == |s'.hosts|
  {
    && s'.hosts[i].puller == s.hosts[i].puller
    && s.hosts[i].index <= s'.hosts[i].index
    && forall bin :: s.hosts[i].BinAt(bin) <= s'.hosts[i].BinAt(bin)
  }

  lemma GrownChans(s: Net, s': Net)
    requires Grown(s, s') && ChansOk(s)
    ensures ChansOk(s')
  {
    forall i, k: Key | 0 <= i < |s'.hosts| ensures ChanOk(s'.hosts[i].puller, k, Res(s', k)) {
      assert GrownAt(s, s', i);
      assert ChanOk(s.hosts[i].puller, k, Res(s, k));
      GrownRes(s, s', k);
      var n := s.hosts[i].puller;
      CoversMore(n.m, n.m, n.LogAt(k), Res(s, k), Res(s', k));
    }
  }

  lemma GrownRes(s: Net, s': Net, k: Key)
    requires Grown(s, s')
    ensures Res(s, k) <= Res(s', k)
  {
    if 0 <= k.0 < |s.hosts| {
      assert GrownAt(s, s', k.0);
    }
  }

  lemma StretchGrows(res: seq<Triple>, res': seq<Triple>, start: BinId, refs: seq<(BinId, Triple)>)
    requires Stretch(res, start, refs) && res <= res'
    ensures Stretch(res', start, refs)
  {
    assert forall i :: 0 <= i < |res| ==> res'[i] == res[i];
  }

  lemma GrownMsg(s: Net, s': Net, msg: Msg)
    requires Grown(s, s') && MsgOk(s, msg)
    ensures MsgOk(s', msg)
  {
    assert GrownAt(s, s', msg.node);
    match msg {
      case Resp(_, OfferResult(p, bin, start, refs, _)) =>
        GrownRes(s, s', (p, bin));
        StretchGrows(Res(s, (p, bin)), Res(s', (p, bin)), start, refs);
      case Resp(_, FetchResult(p, _, os)) =>
        forall o | o in os ensures ServedOk(s', p, o) {
          assert ServedOk(s, p, o);
          assert 0 <= p < |s.hosts| ==> GrownAt(s, s', p);
        }
      case _ =>
    }
  }

  // --- growing a bin ------------------------------------------------------------------------

  lemma StoreGrows(s: Net, i: int, c: Triple)
    requires 0 <= i < |s.hosts|
    ensures Grown(s, Store(s, i, c))
    ensures Store(s, i, c).hosts[i].index == s.hosts[i].index + {c}
    ensures forall j :: 0 <= j < |s.hosts| && j != i ==> Store(s, i, c).hosts[j] == s.hosts[j]
  {
    var s' := Store(s, i, c);
    forall j | 0 <= j < |s.hosts| ensures GrownAt(s, s', j) {
    }
  }

  lemma StoreHosts(s: Net, i: int, c: Triple)
    requires 0 <= i < |s.hosts| && HostsOk(s)
    ensures HostsOk(Store(s, i, c))
  {
    var s' := Store(s, i, c);
    StoreGrows(s, i, c);
    if c !in s.hosts[i].index {
      ReserveGains(s.hosts[i], s'.hosts[i], s.place, c);
    }
    forall j | 0 <= j < |s'.hosts| ensures PullerOk(s'.hosts[j].puller, |s'.hosts|) && ReserveOk(s'.hosts[j], s'.place) {
      assert GrownAt(s, s', j);
      assert PullerOk(s.hosts[j].puller, |s.hosts|) && ReserveOk(s.hosts[j], s.place);
    }
  }

  lemma ReserveGains(h: Host, h': Host, place: Triple -> Bin, c: Triple)
    requires ReserveOk(h, place) && h'.index == h.index + {c}
    requires h'.reserve == h.reserve[place(c) := h.BinAt(place(c)) + [c]]
    ensures ReserveOk(h', place)
  {
    assert forall bin :: h'.BinAt(bin) == h.BinAt(bin) + if bin == place(c) then [c] else [];
    forall d | d in h'.index ensures d in h'.BinAt(place(d)) {
      if d == c {
        assert h'.BinAt(place(c))[|h.BinAt(place(c))|] == c;
      } else {
        assert d in h.BinAt(place(d));
      }
    }
  }

  lemma StoreParks(s: Net, i: int, c: Triple)
    requires 0 <= i < |s.hosts| && ParksOk(s)
    ensures ParksOk(Store(s, i, c))
  {
    var s' := Store(s, i, c);
    StoreGrows(s, i, c);
    var bin := s.place(c);
    forall j, h | 0 <= j < |s'.hosts| && h in s'.hosts[j].parked ensures ParkOk(s', j, h) {
      if j == i && c !in s.hosts[i].index {
        ReadyFrom(s.hosts[i].parked, bin, s'.hosts[i].Head(bin), h);
        assert ParkOk(s, j, h);
        assert GrownAt(s, s', h.0);
        assert h.1 != bin ==> s'.hosts[i].BinAt(h.1) == s.hosts[i].BinAt(h.1);
      } else {
        assert ParkOk(s, j, h);
        assert GrownAt(s, s', h.0);
      }
    }
  }

  lemma StoreMsgs(s: Net, i: int, c: Triple)
    requires 0 <= i < |s.hosts| && HostsOk(s) && ChansOk(s) && ParksOk(s) && MsgsOk(s)
    ensures MsgsOk(Store(s, i, c))
  {
    var s' := Store(s, i, c);
    StoreGrows(s, i, c);
    forall msg | msg in s'.queue ensures MsgOk(s', msg) {
      if msg in s.queue {
        GrownMsg(s, s', msg);
      } else {
        StoreAnswers(s, i, c, msg);
      }
    }
  }

  /** A parked offer that the growth answers gets the new entry. */
  lemma AnsweredOk(s: Net, s': Net, i: int, r: Held)
    requires Grown(s, s') && HostsOk(s) && ChansOk(s) && ParkOk(s, i, r) && r.2 <= s'.hosts[i].Head(r.1)
    ensures MsgOk(s', Resp(r.0, OfferResponse(s'.hosts[i], i, r.1, r.2)))
  {
    assert GrownAt(s, s', r.0);
    assert PullerOk(s.hosts[r.0].puller, |s.hosts|);
    assert ChanOk(s.hosts[r.0].puller, (i, r.1), Res(s, (i, r.1)));
    ResponseIsStretch(s'.hosts[i], i, r.1, r.2);
  }

  lemma StoreAnswers(s: Net, i: int, c: Triple, msg: Msg)
    requires 0 <= i < |s.hosts| && HostsOk(s) && ChansOk(s) && ParksOk(s) && c !in s.hosts[i].index
    requires msg in Store(s, i, c).queue && msg !in s.queue
    ensures MsgOk(Store(s, i, c), msg)
  {
    var s' := Store(s, i, c);
    var bin, h2, parked := s.place(c), s'.hosts[i], s.hosts[i].parked;
    StoreGrows(s, i, c);
    ResponsesFrom(h2, i, Answerable(parked, bin, h2.Head(bin)), msg);
    var r :| r in Answerable(parked, bin, h2.Head(bin)) && msg == Resp(r.0, OfferResponse(h2, i, r.1, r.2));
    ReadyFrom(parked, bin, h2.Head(bin), r);
    AnsweredOk(s, s', i, r);
  }

  lemma StoreToken(s: Net, i: int, c: Triple, t: Tok)
    requires 0 <= i < |s.hosts| && TokenOk(s, multiset{}, t)
    ensures TokenOk(Store(s, i, c), multiset{}, t)
  {
    var s' := Store(s, i, c);
    if c !in s.hosts[i].index {
      StoreGrows(s, i, c);
      var bin, h2 := s.place(c), s'.hosts[i];
      var parked := s.hosts[i].parked;
      var answers := Responses(h2, i, Answerable(parked, bin, h2.Head(bin)));
      ToksConcat(s.queue, answers);
      ReadyTokens(h2, i, parked, bin, h2.Head(bin), t);
      AnswersToken(h2, i, Answerable(parked, bin, h2.Head(bin)), t);
      assert 0 <= t.node < |s.hosts| ==> GrownAt(s, s', t.node);
    }
  }

  /** Answers of node `j` are about channels that read node `j`. */
  lemma {:induction false} AnswersToken(h: Host, j: int, ready: seq<Held>, t: Tok)
    ensures !(t.Off? && t.k.0 == j) ==> Toks(Responses(h, j, ready))[t] == 0
    decreases |ready|
  {
    if ready != [] {
      AnswersToken(h, j, ready[..|ready| - 1], t);
    }
  }

  /** Storing keeps the invariant. */
  lemma StoreInv(s: Net, i: int, c: Triple)
    requires 0 <= i < |s.hosts| && NetInv(s)
    ensures NetInv(Store(s, i, c))
  {
    StoreGrows(s, i, c);
    StoreHosts(s, i, c);
    GrownChans(s, Store(s, i, c));
    StoreParks(s, i, c);
    StoreMsgs(s, i, c);
    forall t ensures TokenOk(Store(s, i, c), multiset{}, t) {
      StoreToken(s, i, c, t);
    }
  }

  /** Everything but node `i` is untouched, and node `i` came to hold `cs`. */
  ghost predicate StoredAt(s: Net, s': Net, i: int, cs: set<Triple>)
    requires 0 <= i < |s.hosts|
  {
    && Grown(s, s')
    && s'.hosts[i].index == s.hosts[i].index + cs
    && forall j :: 0 <= j < |s.hosts| && j != i ==> s'.hosts[j] == s.hosts[j]
  }

  lemma StoredMore(s: Net, s1: Net, i: int, cs: set<Triple>, c: Triple)
    requires 0 <= i < |s.hosts| && StoredAt(s, s1, i, cs)
    ensures StoredAt(s, Store(s1, i, c), i, cs + {c})
  {
    StoreGrows(s1, i, c);
    GrownTwice(s, s1, Store(s1, i, c));
  }

  lemma {:induction false} StoreAllInv(s: Net, i: int, cs: seq<Triple>)
    requires 0 <= i < |s.hosts| && NetInv(s)
    ensures NetInv(StoreAll(s, i, cs)) && StoredAt(s, StoreAll(s, i, cs), i, set c | c in cs)
    decreases |cs|
  {
    if cs == [] {
      forall j | 0 <= j < |s.hosts| ensures GrownAt(s, s, j) {
      }
      assert (set c | c in cs) == {};
    } else {
      var front, c := cs[..|cs| - 1], cs[|cs| - 1];
      StoreAllInv(s, i, front);
      StoreInv(StoreAll(s, i, front), i, c);
      StoredMore(s, StoreAll(s, i, front), i, (set d | d in front), c);
      assert (set d | d in cs) == (set d | d in front) + {c} by {
        assert cs == front + [c];
      }
    }
  }

  lemma GrownTwice(s: Net, s1: Net, s2: Net)
    requires Grown(s, s1) && Grown(s1, s2)
    ensures Grown(s, s2)
  {
    forall j | 0 <= j < |s.hosts| ensures GrownAt(s, s2, j) {
      assert GrownAt(s, s1, j) && GrownAt(s1, s2, j);
      forall bin ensures s.hosts[j].BinAt(bin) <= s2.hosts[j].BinAt(bin) {
        assert s.hosts[j].BinAt(bin) <= s1.hosts[j].BinAt(bin) <= s2.hosts[j].BinAt(bin);
      }
    }
  }
}
