/** An omitting node advertises and never serves (crates/sim/src/lib.rs, `step`), over every run. */
module SimOmission {
  import opened Types
  import opened Machine
  import opened NodeModel
  import opened NodeRuns
  import opened SimNet
  import opened SimInv
  import opened SimRuns
  import opened SimAnswers
  import opened SimTheorem

  /** Of `k` nodes node `j` omits, and has served nothing. */
  predicate Omits(s: Net, k: nat, j: int) {
    0 <= j < |s.hosts| == |s.served| == k && s.hosts[j].byzantine && s.served[j] == 0
  }

  predicate SameServing(s: Net, s': Net) {
    && |s'.hosts| == |s.hosts| && s'.served == s.served
    && forall j :: 0 <= j < |s.hosts| ==> s'.hosts[j].byzantine == s.hosts[j].byzantine
  }

  lemma {:induction false} StoreAllServes(s: Net, i: int, cs: seq<Triple>)
    requires 0 <= i < |s.hosts|
    ensures SameServing(s, StoreAll(s, i, cs))
    decreases |cs|
  {
    if cs != [] {
      StoreAllServes(s, i, cs[..|cs| - 1]);
      StoreAppends(StoreAll(s, i, cs[..|cs| - 1]), i, cs[|cs| - 1]);
    }
  }

  lemma AnswerOmits(s: Net, i: int, eff: Effect, luck: set<nat>, k: nat, j: int)
    requires Omits(s, k, j) && 0 <= eff.peer < |s.hosts|
    ensures Omits(Answer(s, i, eff, luck), k, j)
  {
    if eff.Fetch? {
      var os := FetchAnswered(s, i, eff.peer, eff.bin, eff.want, luck);
    }
  }

  lemma MoveOmits(s: Net, mv: Move, s': Net, k: nat, j: int)
    requires Moves(s, mv, s') && Omits(s, k, j)
    ensures Omits(s', k, j)
  {
    match mv {
      case See(i, p) =>
      case Gain(i, c) =>
        var n := s.hosts[i].puller;
        StoreAppends(s.(hosts := s.hosts[i := s.hosts[i].(puller := n.(m := n.m.Preload(c)))]), i, c);
      case Deliver(idx, luck) =>
        var s0 := s.(queue := SwapRemove(s.queue, idx));
        assert s.Addressed(s.queue[idx]);
        match s.queue[idx] {
          case Req(i, eff) => AnswerOmits(s0, i, eff, luck, k, j);
          case Resp(i, ev) => StoreAllServes(Feed(s0, i, ev), i, if ev.FetchResult? then DeliveredIn(ev.outcomes) else []);
        }
    }
  }

  lemma {:induction false} RunOmits(states: seq<Net>, mvs: seq<Move>, x: nat, k: nat, j: int)
    requires IsRun(states, mvs) && x <= |mvs| && Omits(states[0], k, j)
    ensures Omits(states[x], k, j)
    decreases x
  {
    if x > 0 {
      RunOmits(states, mvs, x - 1, k, j);
      assert MovesAt(states, mvs, x - 1);
      MoveOmits(states[x - 1], mvs[x - 1], states[x], k, j);
    }
  }

  /** From a fresh network, at every moment of every run, an omitting node has served nothing. */
  lemma OmittersServeNothing(k: nat, byzantine: set<int>, policy: Policy, spurious: nat, concurrent: bool, place: Triple -> Bin,
                             states: seq<Net>, mvs: seq<Move>, x: nat, j: int)
    requires IsRun(states, mvs) && states[0] == NewNet(k, byzantine, policy, spurious, concurrent, place)
    requires x <= |mvs| && 0 <= j < k && j in byzantine
    ensures |states[x].served| == k && states[x].served[j] == 0
  {
    RunOmits(states, mvs, x, k, j);
  }
}
