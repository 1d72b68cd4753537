/** The fairness of the scheduling policy (crates/node/src/lib.rs, step 4 of `round`): routing
    on cumulative assignments keeps the peers' totals within one of each other. */
module NodeBalance {
  import opened Types
  import opened Machine
  import opened MachineSafety
  import opened Settlement
  import opened NodeModel
  import opened NodeWork
  import opened NodeRuns

  /** The peers of `hs` differ by at most `d` in assignments. */
  ghost predicate Spread(n: Node, hs: set<PeerId>, d: nat) {
    forall p, q :: p in hs && q in hs ==> n.Assigned(p) <= n.Assigned(q) + d
  }

  /** Every id that can still be started can be fetched from exactly the peers `hs`. */
  ghost predicate OneChoiceSet(m: State, hs: set<PeerId>) {
    forall c :: c in Startable(m) && m.Eligible(c) ==> At(m.holders, c) - At(m.excluded, c) == hs
  }

  /** Whenever the loop picks a want, no window withholds one from it. */
  ghost predicate NeverWithheld(n: Node, b: Batches)
    decreases |Unclaimed(n.m)|, 1
  {
    Open(n, b) == {} ||
      (n.m.EnabledWants() <= Open(n, b) && NeverWithheldNext(n, b))
  }

  ghost predicate NeverWithheldNext(n: Node, b: Batches)
    requires Open(n, b) != {}
    decreases |Unclaimed(n.m)|, 0
  {
    var e := Choice(n, Open(n, b));
    OpenIsClaimable(n, b, e);
    CommitClaims(n, e);
    NeverWithheld(Commit(n, e), AddToBatch(n, b, e))
  }

  /** No channel can fill its window before the work runs out. */
  ghost predicate Roomy(n: Node, b: Batches) {
    forall k :: BatchSize(b, k) + |Startable(n.m)| <= n.policy.window
  }

  lemma ClaimableIsStartable(m: State, c: Triple, p: PeerId)
    requires m.cfg.dedup && m.arrived !! m.rejected && m.Claimable(c, p)
    ensures c in Startable(m) && m.Eligible(c)
  {
  }

  /** With one choice set and nothing withheld, the chosen peer is a lightest of `hs`. */
  lemma ChoiceIsLightest(n: Node, b: Batches, hs: set<PeerId>)
    requires NodeInv(n) && Productive(n.m.cfg) && OneChoiceSet(n.m, hs)
    requires n.m.EnabledWants() <= Open(n, b) && Open(n, b) != {}
    ensures var e := Choice(n, Open(n, b));
      && e.1 in hs && e.0 in Startable(n.m) && n.m.Claimable(e.0, e.1)
      && forall q :: q in hs ==> Lighter(n, e.1, q)
  {
    var e := Choice(n, Open(n, b));
    OpenIsClaimable(n, b, e);
    ClaimableIsStartable(n.m, e.0, e.1);
    var c := e.0;
    forall q | q in hs ensures Lighter(n, e.1, q) {
      assert q in At(n.m.holders, c) - At(n.m.excluded, c);
      assert n.m.Claimable(c, q);
      n.m.EnabledWantsAre(c, q);
      assert (c, q) in Open(n, b);
    }
  }

  lemma CommitStarts(n: Node, e: (Triple, PeerId))
    requires NodeInv(n) && n.m.Claimable(e.0, e.1) && e.0 in Startable(n.m)
    ensures NodeInv(Commit(n, e))
    ensures Startable(Commit(n, e).m) == Startable(n.m) - {e.0}
  {
    SafeWant(n.m, e.0, e.1);
    var m' := Commit(n, e).m;
    forall c ensures c in Startable(m') <==> c in Startable(n.m) && c != e.0 {
    }
  }

  lemma CommitRoomy(n: Node, b: Batches, e: (Triple, PeerId))
    requires NodeInv(n) && n.m.Claimable(e.0, e.1) && e.0 in Startable(n.m) && Roomy(n, b)
    ensures Roomy(Commit(n, e), AddToBatch(n, b, e))
  {
    CommitStarts(n, e);
    var b' := AddToBatch(n, b, e);
    forall k ensures BatchSize(b', k) <= BatchSize(b, k) + 1 {
    }
    forall k ensures BatchSize(b', k) + |Startable(Commit(n, e).m)| <= n.policy.window {
      assert BatchSize(b, k) + |Startable(n.m)| <= n.policy.window;
    }
  }

  lemma CommitOneChoiceSet(n: Node, e: (Triple, PeerId), hs: set<PeerId>)
    requires NodeInv(n) && n.m.Claimable(e.0, e.1) && e.0 in Startable(n.m) && OneChoiceSet(n.m, hs)
    ensures OneChoiceSet(Commit(n, e).m, hs)
  {
    CommitStarts(n, e);
    var m' := Commit(n, e).m;
    forall c | c in Startable(m') && m'.Eligible(c) ensures At(m'.holders, c) - At(m'.excluded, c) == hs {
      assert c in Startable(n.m) && n.m.Eligible(c);
    }
  }

  /** One more for a lightest peer never widens the spread beyond one. */
  lemma CommitSpread(n: Node, e: (Triple, PeerId), hs: set<PeerId>, d: nat)
    requires n.policy.cumulativeRouting && Spread(n, hs, d) && e.1 in hs && forall q :: q in hs ==> Lighter(n, e.1, q)
    ensures Spread(Commit(n, e), hs, Max(1, d))
  {
    forall p, q | p in hs && q in hs ensures Commit(n, e).Assigned(p) <= Commit(n, e).Assigned(q) + Max(1, d) {
      assert n.Assigned(p) <= n.Assigned(q) + d && Lighter(n, e.1, q);
    }
  }

  lemma {:induction false} ScheduleBalances(n: Node, b: Batches, hs: set<PeerId>, d: nat)
    requires NodeInv(n) && Productive(n.m.cfg) && n.policy.cumulativeRouting
    requires OneChoiceSet(n.m, hs) && NeverWithheld(n, b) && Spread(n, hs, d)
    ensures Spread(Schedule(n, b).0, hs, Max(1, d))
    decreases |Unclaimed(n.m)|
  {
    if Open(n, b) != {} {
      var e := Choice(n, Open(n, b));
      ChoiceIsLightest(n, b, hs);
      CommitClaims(n, e);
      CommitStarts(n, e);
      assert NeverWithheldNext(n, b);
      CommitOneChoiceSet(n, e, hs);
      CommitSpread(n, e, hs, d);
      ScheduleBalances(Commit(n, e), AddToBatch(n, b, e), hs, Max(1, d));
    }
  }

  /** Enough room beforehand, and nothing is withheld. */
  lemma {:induction false} RoomyWithholdsNothing(n: Node, b: Batches)
    requires NodeInv(n) && n.m.cfg.dedup && Roomy(n, b)
    ensures NeverWithheld(n, b)
    decreases |Unclaimed(n.m)|
  {
    if Open(n, b) != {} {
      forall e | e in n.m.EnabledWants() ensures e in Open(n, b) {
        n.m.EnabledWantsAre(e.0, e.1);
        ClaimableIsStartable(n.m, e.0, e.1);
        SubsetSize({e.0}, Startable(n.m));
      }
      var e := Choice(n, Open(n, b));
      OpenIsClaimable(n, b, e);
      ClaimableIsStartable(n.m, e.0, e.1);
      CommitClaims(n, e);
      CommitStarts(n, e);
      CommitRoomy(n, b, e);
      RoomyWithholdsNothing(Commit(n, e), AddToBatch(n, b, e));
    }
  }

  ghost predicate Unfilled(b: Batches, window: nat) {
    forall k :: BatchSize(b, k) < window
  }

  /** Batches only grow. */
  lemma {:induction false} BatchesGrow(n: Node, b: Batches, k: Key)
    ensures BatchSize(b, k) <= BatchSize(Schedule(n, b).1, k)
    decreases |Unclaimed(n.m)|
  {
    if Open(n, b) != {} {
      var e := Choice(n, Open(n, b));
      OpenIsClaimable(n, b, e);
      CommitClaims(n, e);
      BatchesGrow(Commit(n, e), AddToBatch(n, b, e), k);
    }
  }

  /** No window filled at the end, and nothing was withheld on the way. */
  lemma {:induction false} UnfilledWithholdsNothing(n: Node, b: Batches, full: Batches)
    requires full == Schedule(n, b).1 && Unfilled(full, n.policy.window)
    ensures NeverWithheld(n, b)
    decreases |Unclaimed(n.m)|
  {
    if Open(n, b) != {} {
      forall e | e in n.m.EnabledWants() ensures e in Open(n, b) {
        var k := (e.1, n.Depth(e.0));
        BatchesGrow(n, b, k);
        assert BatchSize(full, k) < n.policy.window;
      }
      var e := Choice(n, Open(n, b));
      OpenIsClaimable(n, b, e);
      CommitClaims(n, e);
      UnfilledWithholdsNothing(Commit(n, e), AddToBatch(n, b, e), full);
    }
  }

  /** A round withholds nothing if no channel filled its window, or if from the start there was
      no more to do than a window holds. */
  lemma RoundWithholdsNothing(n: Node)
    requires NodeInv(n) && n.m.cfg.dedup
    requires Unfilled(RoundBatches(n), n.policy.window)
      || |Startable(Prepared(n).m)| <= n.policy.window
    ensures NeverWithheld(Prepared(n), map[])
  {
    PrepareKeeps(n);
    assert Prepared(n).policy == n.policy;
    if |Startable(Prepared(n).m)| <= n.policy.window {
      RoomyWithholdsNothing(Prepared(n), map[]);
    } else {
      UnfilledWithholdsNothing(Prepared(n), map[], RoundBatches(n));
    }
  }

  /** What a round needs to be fair over `hs`. */
  ghost predicate FairRound(n: Node, hs: set<PeerId>)
    requires n.LogsValid()
  {
    OneChoiceSet(Prepared(n).m, hs) && NeverWithheld(Prepared(n), map[])
  }

  /** The balance bound, for any number of ids and peers. */
  lemma RoundBalances(n: Node, hs: set<PeerId>, d: nat)
    requires NodeInv(n) && Productive(n.m.cfg) && n.policy.cumulativeRouting
    requires FairRound(n, hs) && Spread(n, hs, d)
    ensures Spread(Round(n).0, hs, Max(1, d))
  {
    PrepareKeeps(n);
    assert forall p :: Prepared(n).Assigned(p) == n.Assigned(p);
    ScheduleBalances(Prepared(n), map[], hs, d);
  }

  lemma {:induction false} TakeRefsKeepsAssignments(n: Node, k: Key, refs: seq<(BinId, Triple)>)
    requires k in n.logs
    ensures TakeRefs(n, k, refs).assignments == n.assignments
  {
    if refs != [] { TakeRefsKeepsAssignments(n, k, refs[..|refs| - 1]); }
  }

  lemma {:induction false} TakeCursorsKeepsAssignments(n: Node, p: PeerId, cs: seq<(Bin, BinId)>)
    ensures TakeCursors(n, p, cs).0.assignments == n.assignments
  {
    if cs != [] { TakeCursorsKeepsAssignments(n, p, cs[..|cs| - 1]); }
  }

  lemma IngestKeepsAssignments(n: Node, ev: Event)
    ensures Ingest(n, ev).assignments == n.assignments
  {
    match ev {
      case CursorsResult(p, cs) => TakeCursorsKeepsAssignments(n, p, cs);
      case OfferResult(p, bin, start, refs, topmost) =>
        TakeRefsKeepsAssignments(TakeOffer(n, (p, bin), start, refs, topmost), (p, bin), refs);
      case _ =>
    }
  }

  /** If the event ends in a round, that round is fair over `hs`. */
  ghost predicate FairStep(n: Node, hs: set<PeerId>, ev: Event)
    requires NodeInv(n)
  {
    IngestKeeps(n, ev);
    EndsInRound(ev) ==> FairRound(Ingest(n, ev), hs)
  }

  /** Every round of the run is fair over `hs`. */
  ghost predicate FairRun(n: Node, hs: set<PeerId>, evs: seq<Event>)
    requires NodeInv(n)
    decreases |evs|
  {
    evs == [] ||
      var front := evs[..|evs| - 1];
      FairRun(n, hs, front) && FairStep(RunEvents(n, front).0, hs, evs[|evs| - 1])
  }

  /** Over a whole run: the spread never widens, beyond the one assignment that is inevitable. */
  lemma {:induction false} RunsBalance(n: Node, hs: set<PeerId>, evs: seq<Event>, d: nat)
    requires NodeInv(n) && Productive(n.m.cfg) && n.policy.cumulativeRouting
    requires FairRun(n, hs, evs) && Spread(n, hs, d)
    ensures Spread(RunEvents(n, evs).0, hs, Max(1, d))
    decreases |evs|
  {
    if evs != [] {
      var front, ev := evs[..|evs| - 1], evs[|evs| - 1];
      RunsBalance(n, hs, front, d);
      RunKeepsKnobs(n, front);
      BalanceStep(RunEvents(n, front).0, hs, ev, Max(1, d));
    }
  }

  lemma BalanceStep(n: Node, hs: set<PeerId>, ev: Event, d: nat)
    requires NodeInv(n) && Productive(n.m.cfg) && n.policy.cumulativeRouting && Spread(n, hs, d)
    requires FairStep(n, hs, ev)
    ensures Spread(Handle(n, ev).0, hs, Max(1, d))
  {
    var n1 := Ingest(n, ev);
    IngestKeeps(n, ev);
    IngestKeepsKnobs(n, ev);
    IngestKeepsAssignments(n, ev);
    assert forall p :: n1.Assigned(p) == n.Assigned(p);
    if EndsInRound(ev) {
      RoundBalances(n1, hs, d);
    }
  }
}
