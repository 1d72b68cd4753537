/** Every run of the node (crates/node/src/lib.rs, `handle`): the machine stays safe, the logs
    stay valid, and the scheduling maps stay in step. */
module NodeRuns {
  import opened Types
  import opened Machine
  import opened MachineSafety
  import opened Settlement
  import opened NodeModel
  import opened NodeWork

  /** Every arrived id has a bin, and its bin is its priority. */
  ghost predicate Catalogued(n: Node) {
    n.m.arrived <= n.binOf.Keys && n.m.prio == n.binOf
  }

  ghost predicate NodeInv(n: Node) {
    Safe(n.m) && n.LogsValid() && Catalogued(n)
  }

  lemma SafeLoseAll(m: State, cs: set<Triple>, p: PeerId)
    requires Safe(m)
    ensures Safe(LoseAll(m, cs, p))
  {
    var m' := LoseAll(m, cs, p);
    forall c | c in m'.want ensures LeaseOk(m', c) {
      assert LeaseOk(m, c);
      var q :| m.want[c] == {q};
      if c in cs {
        assert q != p;
        assert m'.want[c] == {q};
      }
    }
  }

  lemma SafeForgetAll(m: State, cs: set<Triple>)
    requires Safe(m) && forall c :: c in cs ==> m.Settled(c)
    ensures Safe(ForgetAll(m, cs))
  {
    assert forall c :: c in m.want ==> LeaseOk(m, c) && LeaseOk(ForgetAll(m, cs), c);
  }

  lemma SafeResetAll(m: State, cs: set<Triple>)
    requires Safe(m)
    ensures Safe(ResetAll(m, cs))
  {
    assert forall c :: c in m.want ==> LeaseOk(m, c) && LeaseOk(ResetAll(m, cs), c);
  }

  lemma PrepareKeeps(n: Node)
    requires NodeInv(n)
    ensures NodeInv(Prepared(n))
  {
    var n1 := SettlePass(n);
    assert n1.LogsValid() by {
      forall k | k in n.logs ensures Advanced(n, k).Valid() {
        AdvanceTakesLargestPrefix(n.logs[k], SettledBy(n.m));
      }
    }
    SafeForgetAll(n1.m, Done(n1));
    SafeResetAll(Prune(n1).m, Prune(n1).binOf.Keys);
  }

  lemma {:induction false} ScheduleKeeps(n: Node, b: Batches)
    requires NodeInv(n)
    ensures NodeInv(Schedule(n, b).0)
    decreases |Unclaimed(n.m)|
  {
    if Open(n, b) != {} {
      var e := Choice(n, Open(n, b));
      OpenIsClaimable(n, b, e);
      CommitClaims(n, e);
      SafeWant(n.m, e.0, e.1);
      ScheduleKeeps(Commit(n, e), AddToBatch(n, b, e));
    }
  }

  lemma RoundKeeps(n: Node)
    requires NodeInv(n)
    ensures NodeInv(Round(n).0)
  {
    PrepareKeeps(n);
    ScheduleKeeps(Prepared(n), map[]);
  }

  lemma DepartKeeps(n: Node, p: PeerId)
    requires NodeInv(n)
    ensures NodeInv(Depart(n, p))
  {
    SafeLoseAll(n.m, RowsOf(n.m.holders, p), p);
    var m1 := LoseAll(n.m, RowsOf(n.m.holders, p), p);
    SafeLoseAll(m1, RowsOf(m1.want, p), p);
  }

  lemma {:induction false} TakeCursorsKeeps(n: Node, p: PeerId, cs: seq<(Bin, BinId)>)
    requires NodeInv(n)
    ensures NodeInv(TakeCursors(n, p, cs).0)
  {
    if cs != [] {
      TakeCursorsKeeps(n, p, cs[..|cs| - 1]);
    }
  }

  lemma TakeRefKeeps(n: Node, k: Key, r: (BinId, Triple))
    requires NodeInv(n) && k in n.logs
    ensures NodeInv(TakeRef(n, k, r))
  {
    var (b, c) := r;
    SafeObserve(n.m, c, k.0);
    SafeLabels(n.m.ObserveHolder(c, k.0), c, 0, k.1);
    SafeArrive(n.m.ObserveHolder(c, k.0).SetPrio(c, k.1), c);
  }

  lemma {:induction false} TakeRefsKeeps(n: Node, k: Key, refs: seq<(BinId, Triple)>)
    requires NodeInv(n) && k in n.logs
    ensures NodeInv(TakeRefs(n, k, refs))
  {
    if refs != [] {
      TakeRefsKeeps(n, k, refs[..|refs| - 1]);
      TakeRefKeeps(TakeRefs(n, k, refs[..|refs| - 1]), k, refs[|refs| - 1]);
    }
  }

  lemma TakeOfferKeeps(n: Node, k: Key, start: BinId, refs: seq<(BinId, Triple)>, topmost: BinId)
    requires NodeInv(n)
    ensures NodeInv(TakeOffer(n, k, start, refs, topmost))
  {
    var log := n.LogAt(k).Cover(Max(topmost, start));
    SafeLoseAll(n.m, TriplesAt(log, Lost(log, start, refs, topmost)), k.0);
  }

  lemma {:induction false} TakeOutcomesKeeps(m: State, p: PeerId, os: seq<(Triple, Outcome)>)
    requires Safe(m)
    ensures var m' := TakeOutcomes(m, p, os); Safe(m') && m'.arrived <= m.arrived && m'.prio == m.prio
  {
    if os != [] {
      TakeOutcomesKeeps(m, p, os[..|os| - 1]);
      var m1 := TakeOutcomes(m, p, os[..|os| - 1]);
      var (c, outcome) := os[|os| - 1];
      match outcome {
        case Delivered => SafeDeliver(m1, c, p);
        case Rejected => SafeReject(m1, c);
        case Missed => SafeStall(m1, c, p);
      }
    }
  }

  lemma IngestKeeps(n: Node, ev: Event)
    requires NodeInv(n)
    ensures NodeInv(Ingest(n, ev))
  {
    match ev {
      case PeerGone(p) => DepartKeeps(n, p);
      case CursorsResult(p, cs) => TakeCursorsKeeps(n, p, cs);
      case OfferResult(p, bin, start, refs, topmost) =>
        TakeOfferKeeps(n, (p, bin), start, refs, topmost);
        TakeRefsKeeps(TakeOffer(n, (p, bin), start, refs, topmost), (p, bin), refs);
      case FetchResult(p, _, os) => TakeOutcomesKeeps(n.m, p, os);
      case _ =>
    }
  }

  /** Every event keeps the invariant, whatever the peers answer. */
  lemma HandleKeeps(n: Node, ev: Event)
    requires NodeInv(n)
    ensures NodeInv(Handle(n, ev).0)
  {
    IngestKeeps(n, ev);
    if EndsInRound(ev) {
      RoundKeeps(Ingest(n, ev));
    }
  }

  /** The state and the effects of a run of events. */
  ghost function RunEvents(n: Node, evs: seq<Event>): (r: (Node, seq<Effect>))
    requires NodeInv(n)
    ensures NodeInv(r.0)
    decreases |evs|
  {
    if evs == [] then (n, [])
    else
      var (n1, fx1) := RunEvents(n, evs[..|evs| - 1]);
      HandleKeeps(n1, evs[|evs| - 1]);
      var (n2, fx2) := Handle(n1, evs[|evs| - 1]);
      (n2, fx1 + fx2)
  }

  /** A node as the shell starts it: fresh, with the reserve preloaded. */
  function Booted(cfg: Config, radius: Bin, policy: Policy, reserve: set<Triple>): Node {
    New(cfg, radius, policy).(m := Initial(cfg).(got := reserve, npre := |reserve|))
  }

  lemma BootedInv(cfg: Config, radius: Bin, policy: Policy, reserve: set<Triple>)
    requires cfg.dedup
    ensures NodeInv(Booted(cfg, radius, policy, reserve))
  {
  }

  /** No sequence of events, however hostile, trips a safety check of a node. */
  lemma NoEventsTripChecks(cfg: Config, radius: Bin, policy: Policy, reserve: set<Triple>, evs: seq<Event>)
    requires cfg.dedup
    ensures NodeInv(Booted(cfg, radius, policy, reserve))
    ensures var m := RunEvents(Booted(cfg, radius, policy, reserve), evs).0.m; m.CheckInvariants() == None && Clean(m)
  {
    BootedInv(cfg, radius, policy, reserve);
    SafePassesChecks(RunEvents(Booted(cfg, radius, policy, reserve), evs).0.m);
  }

  /** Work conservation at every round of every run: whichever event ends in a round, the
      node is never left idle with something wanted. */
  lemma RunsConserveWork(n: Node, evs: seq<Event>, ev: Event)
    requires NodeInv(n) && EndsInRound(ev)
    requires Productive(n.m.cfg) && n.policy.window >= 1
    ensures var before := RunEvents(n, evs).0;
      var after := Handle(before, ev).0;
      (exists c :: Wanted(Ingest(before, ev).m, c)) ==> after.m.want != map[]
  {
    var before := RunEvents(n, evs).0;
    RunKeepsKnobs(n, evs);
    IngestKeeps(before, ev);
    IngestKeepsKnobs(before, ev);
    RoundConservesWork(Ingest(before, ev));
  }

  ghost predicate SameKnobs(n: Node, n': Node) {
    n'.m.cfg == n.m.cfg && n'.policy == n.policy && n'.radius == n.radius
  }

  lemma {:induction false} TakeRefsKeepsKnobs(n: Node, k: Key, refs: seq<(BinId, Triple)>)
    requires k in n.logs
    ensures SameKnobs(n, TakeRefs(n, k, refs))
  {
    if refs != [] { TakeRefsKeepsKnobs(n, k, refs[..|refs| - 1]); }
  }

  lemma {:induction false} TakeCursorsKeepsKnobs(n: Node, p: PeerId, cs: seq<(Bin, BinId)>)
    ensures SameKnobs(n, TakeCursors(n, p, cs).0)
  {
    if cs != [] { TakeCursorsKeepsKnobs(n, p, cs[..|cs| - 1]); }
  }

  lemma {:induction false} TakeOutcomesKeepsKnobs(m: State, p: PeerId, os: seq<(Triple, Outcome)>)
    ensures TakeOutcomes(m, p, os).cfg == m.cfg
  {
    if os != [] { TakeOutcomesKeepsKnobs(m, p, os[..|os| - 1]); }
  }

  lemma IngestKeepsKnobs(n: Node, ev: Event)
    ensures SameKnobs(n, Ingest(n, ev))
  {
    match ev {
      case CursorsResult(p, cs) => TakeCursorsKeepsKnobs(n, p, cs);
      case OfferResult(p, bin, start, refs, topmost) =>
        TakeRefsKeepsKnobs(TakeOffer(n, (p, bin), start, refs, topmost), (p, bin), refs);
      case FetchResult(p, _, os) => TakeOutcomesKeepsKnobs(n.m, p, os);
      case _ =>
    }
  }

  lemma {:induction false} ScheduleKeepsKnobs(n: Node, b: Batches)
    ensures SameKnobs(n, Schedule(n, b).0)
    decreases |Unclaimed(n.m)|
  {
    if Open(n, b) != {} {
      var e := Choice(n, Open(n, b));
      OpenIsClaimable(n, b, e);
      CommitClaims(n, e);
      ScheduleKeepsKnobs(Commit(n, e), AddToBatch(n, b, e));
    }
  }

  lemma HandleKeepsKnobs(n: Node, ev: Event)
    requires NodeInv(n)
    ensures SameKnobs(n, Handle(n, ev).0)
  {
    IngestKeepsKnobs(n, ev);
    IngestKeeps(n, ev);
    if EndsInRound(ev) {
      ScheduleKeepsKnobs(Prepared(Ingest(n, ev)), map[]);
    }
  }

  lemma {:induction false} RunKeepsKnobs(n: Node, evs: seq<Event>)
    requires NodeInv(n)
    ensures SameKnobs(n, RunEvents(n, evs).0)
    decreases |evs|
  {
    if evs != [] {
      RunKeepsKnobs(n, evs[..|evs| - 1]);
      var n1, ev := RunEvents(n, evs[..|evs| - 1]).0, evs[|evs| - 1];
      HandleKeepsKnobs(n1, ev);
    }
  }
}
