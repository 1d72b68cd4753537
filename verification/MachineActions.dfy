/** Each action of the machine, row by row (crates/machine/src/lib.rs): what becomes of id `d` and
    peer `q` when the action is about `c` and `p`; and what each knob of the configuration means
    over whole runs. */
module MachineActions {
  import opened Types
  import opened Machine
  import opened MachineSafety

  // --- the actions, row by row ----------------------------------------------------------------------

  /** Holding `c` beforehand settles it, counted apart from deliveries. */
  lemma PreloadIs(m: State, c: Triple)
    ensures c in m.got ==> m.Preload(c) == m
    ensures c !in m.got ==> m.Preload(c) == m.(got := m.got + {c}, npre := m.npre + 1)
  {
  }

  lemma ObserveIs(m: State, c: Triple, p: PeerId, d: Triple, q: PeerId)
    ensures var m' := m.ObserveHolder(c, p);
      && (q in At(m'.holders, d) <==> q in At(m.holders, d) || (d == c && q == p))
      && m' == m.(holders := m'.holders)
  {
    AtSetInsert(m.holders, c, p);
  }

  /** Losing a holder takes its claim along, and bars nobody. */
  lemma LoseIs(m: State, c: Triple, p: PeerId, d: Triple, q: PeerId)
    ensures var m' := m.LoseHolder(c, p);
      && (q in At(m'.holders, d) <==> q in At(m.holders, d) && !(d == c && q == p))
      && (q in At(m'.want, d) <==> q in At(m.want, d) && !(d == c && q == p))
      && m' == m.(holders := m'.holders, want := m'.want)
  {
    AtSetRemove(m.holders, c, p);
    AtSetRemove(m.want, c, p);
  }

  /** An id arrives once, unless settled; it is live if its arrival was. */
  lemma ArriveIs(m: State, c: Triple, d: Triple)
    ensures var h, l := m.ArriveHist(c), m.ArriveLive(c);
      && (d in h.arrived <==> d in m.arrived || (d == c && c !in m.got && c !in m.rejected))
      && (d in l.arrived <==> d in m.arrived || (d == c && c !in m.got && c !in m.rejected))
      && (d in l.live <==> d in m.live || (d == c && c !in m.got && c !in m.rejected && c !in m.arrived))
      && h == m.(arrived := h.arrived) && l == m.(arrived := l.arrived, live := l.live)
  {
    if m.Settled(c) || c in m.arrived {
      assert m.ArriveLive(c) == m;
    }
  }

  /** An id that could be started: neither stored nor leased, with a holder that is not barred. */
  predicate Waits(m: State, x: Triple) {
    x !in m.got && x !in m.want && exists h :: h in At(m.holders, x) && h !in At(m.excluded, x)
  }

  /** Some deeper arrived id could still be started. */
  predicate Passed(m: State, c: Triple) {
    exists x :: x in m.arrived && Waits(m, x) && m.PrioOf(x) > m.PrioOf(c)
  }

  lemma GuardIs(m: State, c: Triple)
    ensures m.PrioOk(c) <==> (m.cfg.priority ==> !Passed(m, c))
  {
    assert forall x :: Waits(m, x) <==> m.Eligible(x) && !m.Addressed(x);
  }

  /** A claim is given to exactly the unbarred holder of an arrived, unfetched id that asks, if
      the knobs allow it and no deeper fetchable id is still to be started. */
  lemma WantIs(m: State, c: Triple, p: PeerId, d: Triple, q: PeerId)
    ensures var m' := m.Want(c, p);
      var given := && c in m.arrived && c !in m.got && p in At(m.holders, c) && p !in At(m.excluded, c)
        && p !in At(m.want, c) && (m.cfg.dedup ==> c !in m.want)
        && (m.cfg.singleSource ==> c in m.assign && m.assign[c] == p)
        && (c in m.live ==> m.cfg.enableLive)
        && (m.cfg.priority ==> !Passed(m, c));
      && (m.Claimable(c, p) <==> given)
      && (q in At(m'.want, d) <==> q in At(m.want, d) || (d == c && q == p && given))
      && m' == m.(want := m'.want)
  {
    GuardIs(m, c);
    AtSetInsert(m.want, c, p);
  }

  /** A delivery needs the lease; it uses it up, stores the id and counts, and a second one of the
      same id is a conflict for good. */
  lemma DeliverIs(m: State, c: Triple, p: PeerId, d: Triple, q: PeerId)
    ensures var m' := m.Deliver(c, p);
      var held := p in At(m.want, c);
      && (d in m'.got <==> d in m.got || (d == c && held))
      && m'.ndeliv == m.ndeliv + (if held then 1 else 0)
      && (m'.conflict <==> m.conflict || (held && c in m.got))
      && (q in At(m'.want, d) <==> q in At(m.want, d) && !(d == c && q == p))
      && m' == m.(got := m'.got, ndeliv := m'.ndeliv, conflict := m'.conflict, want := m'.want)
  {
    AtSetRemove(m.want, c, p);
  }

  /** A stall releases a lease, under failover, and bars its peer for that id, under exclusion. */
  lemma StallIs(m: State, c: Triple, p: PeerId, d: Triple, q: PeerId)
    ensures var m' := m.Stall(c, p);
      var held := p in At(m.want, c) && m.cfg.failover;
      && (q in At(m'.want, d) <==> q in At(m.want, d) && !(d == c && q == p && held))
      && (q in At(m'.excluded, d) <==> q in At(m.excluded, d) || (d == c && q == p && held && m.cfg.exclude))
      && m' == m.(want := m'.want, excluded := m'.excluded)
  {
    AtSetRemove(m.want, c, p);
    AtSetInsert(m.excluded, c, p);
  }

  /** A rejected id is settled unless it was, and leaves arrivals and leases, all of them. */
  lemma RejectIs(m: State, c: Triple, d: Triple, q: PeerId)
    ensures var m' := m.Reject(c);
      var unsettled := c !in m.got && c !in m.rejected;
      && (d in m'.rejected <==> d in m.rejected || (d == c && unsettled))
      && (d in m'.arrived <==> d in m.arrived && !(d == c && unsettled))
      && (d in m'.live <==> d in m.live && !(d == c && unsettled))
      && (q in At(m'.want, d) <==> q in At(m.want, d) && !(d == c && unsettled))
      && m' == m.(rejected := m'.rejected, arrived := m'.arrived, live := m'.live, want := m'.want)
  {
    AtDrop(m.want, c);
  }

  /** Bars are cleared only of an arrived, idle, unfetched id all of whose holders are barred. */
  lemma ResetIs(m: State, c: Triple, d: Triple, q: PeerId)
    ensures var m' := m.ResetExcluded(c);
      var stuck := && m.cfg.resetOnExhaust && c in m.arrived && c !in m.got && c !in m.want
        && forall h :: h in At(m.holders, c) ==> h in At(m.excluded, c);
      && (q in At(m'.excluded, d) <==> q in At(m.excluded, d) && !(d == c && stuck))
      && m' == m.(excluded := m'.excluded)
  {
    if !(At(m.holders, c) <= At(m.excluded, c)) {
      var h := NotSubset(At(m.holders, c), At(m.excluded, c));
    }
    AtDrop(m.excluded, c);
  }

  /** Forgetting clears a settled id out of every scheduling map, and touches nothing else. */
  lemma ForgetIs(m: State, c: Triple, d: Triple, q: PeerId)
    ensures var m' := m.Forget(c);
      var gone := d == c && (c in m.got || c in m.rejected);
      && (d in m'.arrived <==> d in m.arrived && !gone) && (d in m'.live <==> d in m.live && !gone)
      && (q in At(m'.holders, d) <==> q in At(m.holders, d) && !gone)
      && (q in At(m'.excluded, d) <==> q in At(m.excluded, d) && !gone)
      && m'.PrioOf(d) == (if gone then 0 else m.PrioOf(d))
      && m' == m.(arrived := m'.arrived, live := m'.live, holders := m'.holders, excluded := m'.excluded, prio := m'.prio)
  {
    AtDrop(m.holders, c);
    AtDrop(m.excluded, c);
  }

  // --- the queries -----------------------------------------------------------------------------------------

  /** The deficit and the load are counts: what is arrived and stored, and the claims of a peer. */
  lemma DeficitIs(m: State)
    ensures m.Deficit() + |m.arrived * m.got| == |m.arrived|
  {
    var missing := set c | c in m.arrived && c !in m.got;
    assert m.arrived == missing + m.arrived * m.got && missing !! m.arrived * m.got;
  }

  // --- the checks, exactly ----------------------------------------------------------------------------------

  predicate DeliveriesAddUp(m: State) {
    m.ndeliv + m.npre == |m.got|
  }

  ghost predicate ClaimedOnce(m: State) {
    m.cfg.dedup ==> forall c, p, q :: p in At(m.want, c) && q in At(m.want, c) ==> p == q
  }

  ghost predicate ClaimsHeld(m: State) {
    forall c, p :: p in At(m.want, c) ==> p in At(m.holders, c) && p !in At(m.excluded, c)
  }

  lemma SomeTwo(s: set<PeerId>)
    ensures |s| > 1 <==> exists p, q :: p in s && q in s && p != q
  {
    if |s| > 1 {
      var p := Witness(s);
      assert |s - {p}| == |s| - 1;
      var q := Witness(s - {p});
    }
    if p, q :| p in s && q in s && p != q {
      SubsetSize({p, q}, s);
    }
  }

  lemma DedupTest(m: State)
    ensures ClaimedOnce(m) <==> !(m.cfg.dedup && exists c :: c in m.want && |m.want[c]| > 1)
  {
    if m.cfg.dedup {
      if c :| c in m.want && |m.want[c]| > 1 {
        SomeTwo(m.want[c]);
        var p, q :| p in m.want[c] && q in m.want[c] && p != q;
        assert p in At(m.want, c) && q in At(m.want, c);
      }
      if c, p, q :| p in At(m.want, c) && q in At(m.want, c) && p != q {
        SomeTwo(m.want[c]);
      }
    }
  }

  lemma ClaimsTest(m: State)
    ensures ClaimsHeld(m) <==>
      !exists c :: c in m.want && exists p :: p in m.want[c] && (p !in At(m.holders, c) || p in At(m.excluded, c))
  {
    if c :| c in m.want && exists p :: p in m.want[c] && (p !in At(m.holders, c) || p in At(m.excluded, c)) {
      var p :| p in m.want[c] && (p !in At(m.holders, c) || p in At(m.excluded, c));
      assert p in At(m.want, c);
    }
    if c, p :| p in At(m.want, c) && (p !in At(m.holders, c) || p in At(m.excluded, c)) {
      assert c in m.want && p in m.want[c];
    }
  }

  /** The checks look, and name what they find: each name is answered exactly when its own
      condition fails and all before it hold, and nothing is when all four hold. */
  lemma ChecksAreExact(m: State)
    ensures m.CheckInvariants() == None <==> !m.conflict && DeliveriesAddUp(m) && ClaimedOnce(m) && ClaimsHeld(m)
    ensures m.CheckInvariants() == Some("ConflictFree") <==> m.conflict
    ensures m.CheckInvariants() == Some("DeliveryFloor") <==> !m.conflict && !DeliveriesAddUp(m)
    ensures m.CheckInvariants() == Some("DedupInv") <==> !m.conflict && DeliveriesAddUp(m) && !ClaimedOnce(m)
    ensures m.CheckInvariants() == Some("ClaimsLive") <==>
      !m.conflict && DeliveriesAddUp(m) && ClaimedOnce(m) && !ClaimsHeld(m)
  {
    DedupTest(m);
    ClaimsTest(m);
  }
}
