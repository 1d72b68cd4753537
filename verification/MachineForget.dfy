/** Garbage collection is invisible: dropping a settled id from the scheduling maps changes
    no guard and no later action, at any point of any run. */
module MachineForget {
  import opened Types
  import opened Machine
  import opened MachineSafety

  /** Equal counters, and equal row by row: the terminal record and the leases everywhere, the
      scheduling maps on every unsettled id. */
  ghost predicate Related(s: State, t: State) {
    && SameCounters(s, t)
    && forall c :: SameAt(s, t, c)
  }

  ghost predicate SameCounters(s: State, t: State) {
    s.cfg == t.cfg && s.conflict == t.conflict && s.ndeliv == t.ndeliv && s.npre == t.npre
  }

  ghost predicate SameAt(s: State, t: State, c: Triple) {
    && (c in s.got <==> c in t.got)
    && (c in s.rejected <==> c in t.rejected)
    && (c in s.want <==> c in t.want)
    && At(s.want, c) == At(t.want, c)
    && (c in s.assign <==> c in t.assign)
    && (c in s.assign ==> s.assign[c] == t.assign[c])
    && (!s.Settled(c) ==> SameWindow(s, t, c))
  }

  ghost predicate SameWindow(s: State, t: State, c: Triple) {
    && (c in s.arrived <==> c in t.arrived)
    && (c in s.live <==> c in t.live)
    && At(s.holders, c) == At(t.holders, c)
    && At(s.excluded, c) == At(t.excluded, c)
    && s.PrioOf(c) == t.PrioOf(c)
  }

  /** Nothing rejected is still arrived. */
  predicate Apart(s: State) {
    s.arrived !! s.rejected
  }

  /** Every action keeps that, in every configuration. */
  lemma StepApart(s: State, a: Act)
    requires Apart(s)
    ensures Apart(Do(s, a))
  {
  }

  /** What the machine answers to an action. */
  predicate Answer(s: State, a: Act) {
    match a
    case Preload(c) => c !in s.got
    case SetPrio(_, _) => true
    case SetAssign(_, _) => true
    case Observe(c, p) => p !in At(s.holders, c)
    case Lose(c, p) => p in At(s.holders, c)
    case ArriveHist(c) => !s.Settled(c) && c !in s.arrived
    case ArriveLive(c) => !s.Settled(c) && c !in s.arrived
    case Want(c, p) => s.Claimable(c, p)
    case Deliver(c, p) => p in At(s.want, c)
    case Stall(c, p) => s.cfg.failover && p in At(s.want, c)
    case Reject(c) => !s.Settled(c)
    case Reset(c) => s.CanResetExcluded(c)
    case Forget(c) => s.Settled(c)
  }

  lemma PrioOkAgrees(s: State, t: State, c: Triple)
    requires Related(s, t) && Apart(s) && Apart(t) && !s.Settled(c) && s.PrioOk(c)
    ensures t.PrioOk(c)
  {
    if s.cfg.priority {
      forall d | d in t.arrived ensures t.PrioOf(d) <= t.PrioOf(c) || !t.Eligible(d) || t.Addressed(d) {
        assert SameAt(s, t, c) && SameAt(s, t, d);
        if !s.Settled(d) {
          assert s.Eligible(d) <==> t.Eligible(d);
        }
      }
    }
  }

  lemma ClaimableAgrees(s: State, t: State, c: Triple, p: PeerId)
    requires Related(s, t) && Apart(s) && Apart(t)
    ensures s.Claimable(c, p) <==> t.Claimable(c, p)
  {
    assert SameAt(s, t, c);
    if !s.Settled(c) {
      if s.PrioOk(c) { PrioOkAgrees(s, t, c); }
      if t.PrioOk(c) {
        RelatedSymmetric(s, t);
        PrioOkAgrees(t, s, c);
      }
    }
  }

  /** Related states offer the same claims and resets and owe the same deficit. */
  lemma QueriesAgree(s: State, t: State)
    requires Related(s, t) && Apart(s) && Apart(t)
    ensures s.EnabledWants() == t.EnabledWants()
    ensures s.Deficit() == t.Deficit()
    ensures forall c :: s.CanResetExcluded(c) <==> t.CanResetExcluded(c)
  {
    forall e ensures e in s.EnabledWants() <==> e in t.EnabledWants() {
      ClaimableAgrees(s, t, e.0, e.1);
      s.EnabledWantsAre(e.0, e.1);
      t.EnabledWantsAre(e.0, e.1);
    }
    forall c ensures s.CanResetExcluded(c) <==> t.CanResetExcluded(c) {
      assert SameAt(s, t, c);
    }
    forall c ensures c in s.arrived && c !in s.got <==> c in t.arrived && c !in t.got {
      assert SameAt(s, t, c);
    }
    assert (set c | c in s.arrived && c !in s.got) == (set c | c in t.arrived && c !in t.got);
  }

  lemma RelatedSymmetric(s: State, t: State)
    requires Related(s, t)
    ensures Related(t, s)
  {
    forall c ensures SameAt(t, s, c) { assert SameAt(s, t, c); }
  }

  lemma PreloadRelated(s: State, t: State, c: Triple)
    requires Related(s, t)
    ensures Related(s.Preload(c), t.Preload(c))
  {
    forall d ensures SameAt(s.Preload(c), t.Preload(c), d) { assert SameAt(s, t, c) && SameAt(s, t, d); }
  }

  lemma SetPrioRelated(s: State, t: State, c: Triple, depth: int)
    requires Related(s, t)
    ensures Related(s.SetPrio(c, depth), t.SetPrio(c, depth))
  {
    forall d ensures SameAt(s.SetPrio(c, depth), t.SetPrio(c, depth), d) { assert SameAt(s, t, c) && SameAt(s, t, d); }
  }

  lemma SetAssignRelated(s: State, t: State, c: Triple, p: PeerId)
    requires Related(s, t)
    ensures Related(s.SetAssign(c, p), t.SetAssign(c, p))
  {
    forall d ensures SameAt(s.SetAssign(c, p), t.SetAssign(c, p), d) { assert SameAt(s, t, c) && SameAt(s, t, d); }
  }

  lemma ObserveHolderRelated(s: State, t: State, c: Triple, p: PeerId)
    requires Related(s, t)
    ensures Related(s.ObserveHolder(c, p), t.ObserveHolder(c, p))
  {
    forall d ensures SameAt(s.ObserveHolder(c, p), t.ObserveHolder(c, p), d) { assert SameAt(s, t, c) && SameAt(s, t, d); }
  }

  lemma LoseHolderRelated(s: State, t: State, c: Triple, p: PeerId)
    requires Related(s, t)
    ensures Related(s.LoseHolder(c, p), t.LoseHolder(c, p))
  {
    forall d ensures SameAt(s.LoseHolder(c, p), t.LoseHolder(c, p), d) { assert SameAt(s, t, c) && SameAt(s, t, d); }
  }

  lemma ArriveHistRelated(s: State, t: State, c: Triple)
    requires Related(s, t)
    ensures Related(s.ArriveHist(c), t.ArriveHist(c))
  {
    forall d ensures SameAt(s.ArriveHist(c), t.ArriveHist(c), d) { assert SameAt(s, t, c) && SameAt(s, t, d); }
  }

  lemma ArriveLiveRelated(s: State, t: State, c: Triple)
    requires Related(s, t)
    ensures Related(s.ArriveLive(c), t.ArriveLive(c))
  {
    forall d ensures SameAt(s.ArriveLive(c), t.ArriveLive(c), d) { assert SameAt(s, t, c) && SameAt(s, t, d); }
  }

  lemma WantRelated(s: State, t: State, c: Triple, p: PeerId)
    requires Related(s, t) && (s.Claimable(c, p) <==> t.Claimable(c, p))
    ensures Related(s.Want(c, p), t.Want(c, p))
  {
    forall d ensures SameAt(s.Want(c, p), t.Want(c, p), d) { assert SameAt(s, t, c) && SameAt(s, t, d); }
  }

  lemma DeliverRelated(s: State, t: State, c: Triple, p: PeerId)
    requires Related(s, t)
    ensures Related(s.Deliver(c, p), t.Deliver(c, p))
  {
    forall d ensures SameAt(s.Deliver(c, p), t.Deliver(c, p), d) { assert SameAt(s, t, c) && SameAt(s, t, d); }
  }

  lemma StallRelated(s: State, t: State, c: Triple, p: PeerId)
    requires Related(s, t)
    ensures Related(s.Stall(c, p), t.Stall(c, p))
  {
    assert p in At(s.want, c) <==> p in At(t.want, c) by { assert SameAt(s, t, c); }
    if s.cfg.failover && p in At(s.want, c) {
      var s', t' := s.Stall(c, p), t.Stall(c, p);
      forall d ensures SameAt(s', t', d) {
        assert SameAt(s, t, d);
        if d == c {
          assert At(s'.want, d) == At(s.want, d) - {p} && At(t'.want, d) == At(t.want, d) - {p};
        }
      }
    }
  }

  lemma RejectRelated(s: State, t: State, c: Triple)
    requires Related(s, t)
    ensures Related(s.Reject(c), t.Reject(c))
  {
    forall d ensures SameAt(s.Reject(c), t.Reject(c), d) { assert SameAt(s, t, c) && SameAt(s, t, d); }
  }

  lemma ResetExcludedRelated(s: State, t: State, c: Triple)
    requires Related(s, t) && (s.CanResetExcluded(c) <==> t.CanResetExcluded(c))
    ensures Related(s.ResetExcluded(c), t.ResetExcluded(c))
  {
    forall d ensures SameAt(s.ResetExcluded(c), t.ResetExcluded(c), d) { assert SameAt(s, t, d); }
  }

  lemma ForgetKeepsRelated(s: State, t: State, c: Triple)
    requires Related(s, t)
    ensures Related(s.Forget(c), t.Forget(c))
  {
    ForgetRelated(s, c);
    ForgetRelated(t, c);
    RelatedTransitive(s.Forget(c), s, t);
    RelatedTransitive(s.Forget(c), t, t.Forget(c));
  }

  lemma AnswersAgree(s: State, t: State, a: Act)
    requires SameAt(s, t, a.c) && s.cfg == t.cfg && Apart(s) && Apart(t)
    requires a.Want? ==> (s.Claimable(a.c, a.p) <==> t.Claimable(a.c, a.p))
    ensures Answer(s, a) == Answer(t, a) || ((a.Observe? || a.Lose?) && s.Settled(a.c))
  {
  }

  /** Every action keeps related states related and is answered alike; only the answer of an
      observation about an already settled id may differ. */
  lemma StepRelated(s: State, t: State, a: Act)
    requires Related(s, t) && Apart(s) && Apart(t)
    ensures Related(Do(s, a), Do(t, a))
    ensures Answer(s, a) == Answer(t, a) || ((a.Observe? || a.Lose?) && s.Settled(a.c))
  {
    if a.Want? { ClaimableAgrees(s, t, a.c, a.p); }
    if a.Reset? { QueriesAgree(s, t); }
    assert SameAt(s, t, a.c);
    AnswersAgree(s, t, a);
    match a {
      case Preload(c) => PreloadRelated(s, t, c);
      case SetPrio(c, d) => SetPrioRelated(s, t, c, d);
      case SetAssign(c, p) => SetAssignRelated(s, t, c, p);
      case Observe(c, p) => ObserveHolderRelated(s, t, c, p);
      case Lose(c, p) => LoseHolderRelated(s, t, c, p);
      case ArriveHist(c) => ArriveHistRelated(s, t, c);
      case ArriveLive(c) => ArriveLiveRelated(s, t, c);
      case Want(c, p) => WantRelated(s, t, c, p);
      case Deliver(c, p) => DeliverRelated(s, t, c, p);
      case Stall(c, p) => StallRelated(s, t, c, p);
      case Reject(c) => RejectRelated(s, t, c);
      case Reset(c) => ResetExcludedRelated(s, t, c);
      case Forget(c) => ForgetKeepsRelated(s, t, c);
    }
  }

  /** Forgetting a settled id relates the machine to itself. */
  lemma ForgetRelated(s: State, c: Triple)
    ensures Related(s, s.Forget(c)) && Related(s.Forget(c), s)
  {
    forall d ensures SameAt(s, s.Forget(c), d) {
    }
    RelatedSymmetric(s, s.Forget(c));
  }

  lemma RelatedTransitive(s: State, t: State, u: State)
    requires Related(s, t) && Related(t, u)
    ensures Related(s, u)
  {
    forall c ensures SameAt(s, u, c) {
      assert SameAt(s, t, c) && SameAt(t, u, c);
    }
  }

  lemma RelatedRecord(s: State, t: State)
    requires Related(s, t) && Apart(s) && Apart(t)
    ensures s.got == t.got && s.rejected == t.rejected && s.want == t.want
  {
    forall c ensures (c in s.got <==> c in t.got) && (c in s.rejected <==> c in t.rejected) && (c in s.want <==> c in t.want) {
      assert SameAt(s, t, c);
    }
    forall c | c in s.want ensures s.want[c] == t.want[c] {
      assert SameAt(s, t, c);
    }
  }

  function DropForgets(acts: seq<Act>): seq<Act> {
    if acts == [] then []
    else (if acts[0].Forget? then [] else [acts[0]]) + DropForgets(acts[1..])
  }

  lemma {:induction false} RunsRelated(s: State, t: State, acts: seq<Act>)
    requires Related(s, t) && Apart(s) && Apart(t)
    ensures Related(Run(s, acts), Run(t, DropForgets(acts)))
    ensures Apart(Run(s, acts)) && Apart(Run(t, DropForgets(acts)))
    decreases acts
  {
    if acts != [] {
      var a, rest := acts[0], DropForgets(acts[1..]);
      StepApart(s, a);
      if a.Forget? {
        ForgetRelated(s, a.c);
        RelatedTransitive(Do(s, a), s, t);
        RunsRelated(Do(s, a), t, acts[1..]);
        assert DropForgets(acts) == rest;
      } else {
        StepApart(t, a);
        StepRelated(s, t, a);
        RunsRelated(Do(s, a), Do(t, a), acts[1..]);
        assert DropForgets(acts)[0] == a && DropForgets(acts)[1..] == rest;
      }
    }
  }

  /** A run with collections anywhere in it, in any configuration, stores, rejects, leases and
      counts exactly what the same run without them does, and ends up offering the same claims
      and resets. */
  lemma ForgetInvisible(s: State, acts: seq<Act>)
    requires Apart(s)
    ensures var u, v := Run(s, acts), Run(s, DropForgets(acts));
      && u.got == v.got && u.rejected == v.rejected && u.want == v.want
      && u.ndeliv == v.ndeliv && u.npre == v.npre && u.conflict == v.conflict
      && u.EnabledWants() == v.EnabledWants() && u.Deficit() == v.Deficit()
      && forall c :: u.CanResetExcluded(c) <==> v.CanResetExcluded(c)
  {
    RunsRelated(s, s, acts);
    RelatedRecord(Run(s, acts), Run(s, DropForgets(acts)));
    QueriesAgree(Run(s, acts), Run(s, DropForgets(acts)));
  }
}
