/** Safety of the scheduling machine over every sequence of actions with dedup on. */
module MachineSafety {
  import opened Types
  import opened Machine

  /** The machine's whole action alphabet. */
  datatype Act =
    | Preload(c: Triple)
    | SetPrio(c: Triple, depth: int)
    | SetAssign(c: Triple, p: PeerId)
    | Observe(c: Triple, p: PeerId)
    | Lose(c: Triple, p: PeerId)
    | ArriveHist(c: Triple)
    | ArriveLive(c: Triple)
    | Want(c: Triple, p: PeerId)
    | Deliver(c: Triple, p: PeerId)
    | Stall(c: Triple, p: PeerId)
    | Reject(c: Triple)
    | Reset(c: Triple)
    | Forget(c: Triple)

  function Do(s: State, a: Act): State {
    match a
    case Preload(c) => s.Preload(c)
    case SetPrio(c, d) => s.SetPrio(c, d)
    case SetAssign(c, p) => s.SetAssign(c, p)
    case Observe(c, p) => s.ObserveHolder(c, p)
    case Lose(c, p) => s.LoseHolder(c, p)
    case ArriveHist(c) => s.ArriveHist(c)
    case ArriveLive(c) => s.ArriveLive(c)
    case Want(c, p) => s.Want(c, p)
    case Deliver(c, p) => s.Deliver(c, p)
    case Stall(c, p) => s.Stall(c, p)
    case Reject(c) => s.Reject(c)
    case Reset(c) => s.ResetExcluded(c)
    case Forget(c) => s.Forget(c)
  }

  function Run(s: State, acts: seq<Act>): State
    decreases acts
  {
    if acts == [] then s else Run(Do(s, acts[0]), acts[1..])
  }

  /** Preloading is the one action with a caller's duty: the id is already held, or it is
      neither leased nor rejected. */
  predicate Allowed(s: State, a: Act) {
    a.Preload? ==> a.c in s.got || (a.c !in s.want && a.c !in s.rejected)
  }

  predicate AllowedRun(s: State, acts: seq<Act>)
    decreases acts
  {
    acts == [] || (Allowed(s, acts[0]) && AllowedRun(Do(s, acts[0]), acts[1..]))
  }

  /** The inductive invariant. */
  ghost predicate Safe(s: State) {
    && s.cfg.dedup
    && !s.conflict
    && s.ndeliv + s.npre == |s.got|
    && s.got !! s.rejected
    && s.arrived !! s.rejected
    && s.live <= s.arrived
    && Normal(s.want) && Normal(s.holders) && Normal(s.excluded)
    && forall c :: c in s.want ==> LeaseOk(s, c)
  }

  /** A leased id is arrived and unsettled, and its one claim is on a holder that is not barred. */
  ghost predicate LeaseOk(s: State, c: Triple)
    requires c in s.want
  {
    && c in s.arrived
    && !s.Settled(c)
    && (exists p :: s.want[c] == {p})
    && s.want[c] <= At(s.holders, c)
    && s.want[c] !! At(s.excluded, c)
  }

  lemma SafeInitially(cfg: Config)
    requires cfg.dedup
    ensures Safe(Initial(cfg))
  {
  }

  lemma SafeDeliver(s: State, c: Triple, p: PeerId)
    requires Safe(s)
    ensures Safe(s.Deliver(c, p))
    ensures p in At(s.want, c) ==> c !in s.got && c !in s.Deliver(c, p).want
  {
    if p in At(s.want, c) {
      assert LeaseOk(s, c);
      assert s.want[c] - {p} == {};
      var t := s.Deliver(c, p);
      assert forall d :: d in t.want ==> LeaseOk(s, d) && LeaseOk(t, d);
    }
  }

  lemma SafeStall(s: State, c: Triple, p: PeerId)
    requires Safe(s)
    ensures Safe(s.Stall(c, p))
  {
    if s.cfg.failover && p in At(s.want, c) {
      assert LeaseOk(s, c);
      assert s.want[c] - {p} == {};
      var t := s.Stall(c, p);
      assert forall d :: d in t.want ==> LeaseOk(s, d) && LeaseOk(t, d);
    }
  }

  lemma SafeWant(s: State, c: Triple, p: PeerId)
    requires Safe(s)
    ensures Safe(s.Want(c, p))
  {
    if s.Claimable(c, p) {
      var t := s.Want(c, p);
      assert t.want[c] == {p};
      forall d | d in t.want ensures LeaseOk(t, d) {
        if d != c { assert LeaseOk(s, d); }
      }
    }
  }

  lemma SafeLose(s: State, c: Triple, p: PeerId)
    requires Safe(s)
    ensures Safe(s.LoseHolder(c, p))
  {
    var t := s.LoseHolder(c, p);
    forall d | d in t.want ensures LeaseOk(t, d) {
      assert d in s.want && LeaseOk(s, d);
      if d == c {
        var q :| s.want[c] == {q};
        assert q != p;
        assert t.want[c] == {q};
      }
    }
  }

  lemma SafePreload(s: State, c: Triple)
    requires Safe(s) && Allowed(s, Preload(c))
    ensures Safe(s.Preload(c))
  {
    assert forall d :: d in s.want ==> LeaseOk(s, d) && LeaseOk(s.Preload(c), d);
  }

  lemma SafeObserve(s: State, c: Triple, p: PeerId)
    requires Safe(s)
    ensures Safe(s.ObserveHolder(c, p))
  {
    AtSetInsert(s.holders, c, p);
    forall d | d in s.want ensures LeaseOk(s.ObserveHolder(c, p), d) {
      assert LeaseOk(s, d);
      assert At(s.holders, d) <= At(s.ObserveHolder(c, p).holders, d);
    }
  }

  lemma SafeArrive(s: State, c: Triple)
    requires Safe(s)
    ensures Safe(s.ArriveHist(c)) && Safe(s.ArriveLive(c))
  {
    assert forall d :: d in s.want ==> LeaseOk(s, d) && LeaseOk(s.ArriveHist(c), d) && LeaseOk(s.ArriveLive(c), d);
  }

  lemma SafeReject(s: State, c: Triple)
    requires Safe(s)
    ensures Safe(s.Reject(c))
  {
    assert forall d :: d in s.Reject(c).want ==> LeaseOk(s, d) && LeaseOk(s.Reject(c), d);
  }

  lemma SafeReset(s: State, c: Triple)
    requires Safe(s)
    ensures Safe(s.ResetExcluded(c))
  {
    assert forall d :: d in s.want ==> LeaseOk(s, d) && LeaseOk(s.ResetExcluded(c), d);
  }

  lemma SafeForget(s: State, c: Triple)
    requires Safe(s)
    ensures Safe(s.Forget(c))
  {
    assert forall d :: d in s.want ==> LeaseOk(s, d) && LeaseOk(s.Forget(c), d);
  }

  lemma SafeLabels(s: State, c: Triple, p: PeerId, d: int)
    requires Safe(s)
    ensures Safe(s.SetPrio(c, d)) && Safe(s.SetAssign(c, p))
  {
    assert forall d' :: d' in s.want ==> LeaseOk(s, d') && LeaseOk(s.SetPrio(c, d), d') && LeaseOk(s.SetAssign(c, p), d');
  }

  /** Every action keeps the invariant. */
  lemma StepSafe(s: State, a: Act)
    requires Safe(s) && Allowed(s, a)
    ensures Safe(Do(s, a))
  {
    match a {
      case Preload(c) => SafePreload(s, c);
      case SetPrio(c, d) => SafeLabels(s, c, 0, d);
      case SetAssign(c, p) => SafeLabels(s, c, p, 0);
      case Observe(c, p) => SafeObserve(s, c, p);
      case Lose(c, p) => SafeLose(s, c, p);
      case ArriveHist(c) => SafeArrive(s, c);
      case ArriveLive(c) => SafeArrive(s, c);
      case Want(c, p) => SafeWant(s, c, p);
      case Deliver(c, p) => SafeDeliver(s, c, p);
      case Stall(c, p) => SafeStall(s, c, p);
      case Reject(c) => SafeReject(s, c);
      case Reset(c) => SafeReset(s, c);
      case Forget(c) => SafeForget(s, c);
    }
  }

  /** Nothing delivered twice, every store accounted for, and each lease one claim on a current
      holder that is not barred. */
  ghost predicate Clean(s: State) {
    && !s.conflict
    && s.ndeliv + s.npre == |s.got|
    && s.got !! s.rejected
    && (forall c :: c in s.want ==> !s.Settled(c) && exists p :: s.want[c] == {p})
    && forall c, p :: p in At(s.want, c) ==> p in At(s.holders, c) && p !in At(s.excluded, c)
  }

  lemma SafePassesChecks(s: State)
    requires Safe(s)
    ensures s.CheckInvariants() == None && Clean(s)
  {
    forall c | c in s.want ensures |s.want[c]| == 1 {
      assert LeaseOk(s, c);
      var p :| s.want[c] == {p};
    }
    assert forall c :: c in s.want ==> LeaseOk(s, c);
  }

  lemma {:induction false} RunSafe(s: State, acts: seq<Act>)
    requires Safe(s) && AllowedRun(s, acts)
    ensures Safe(Run(s, acts))
    decreases acts
  {
    if acts != [] {
      StepSafe(s, acts[0]);
      RunSafe(Do(s, acts[0]), acts[1..]);
    }
  }

  /** From a fresh machine, no sequence of actions ever trips a check: no double delivery,
      deliveries plus preloads equal what is stored, one claim per id, every claim on a
      current holder that is not barred. */
  lemma SafetyOverRuns(cfg: Config, acts: seq<Act>)
    requires cfg.dedup && AllowedRun(Initial(cfg), acts)
    ensures Run(Initial(cfg), acts).CheckInvariants() == None
    ensures Clean(Run(Initial(cfg), acts))
  {
    SafeInitially(cfg);
    RunSafe(Initial(cfg), acts);
    SafePassesChecks(Run(Initial(cfg), acts));
  }

  /** The ids an action stores: a fresh preload, or a delivery against a lease. */
  function StoredBy(s: State, a: Act): set<Triple> {
    if a.Preload? && a.c !in s.got then {a.c}
    else if a.Deliver? && a.p in At(s.want, a.c) then {a.c}
    else {}
  }

  /** How often a run stores `c`. */
  function Stores(s: State, acts: seq<Act>, c: Triple): nat
    decreases acts
  {
    if acts == [] then 0
    else (if c in StoredBy(s, acts[0]) then 1 else 0) + Stores(Do(s, acts[0]), acts[1..], c)
  }

  lemma GotGrowsByStores(s: State, a: Act, c: Triple)
    requires Safe(s)
    ensures c in Do(s, a).got <==> c in s.got || c in StoredBy(s, a)
    ensures c in StoredBy(s, a) ==> c !in s.got
  {
    if a.Deliver? {
      SafeDeliver(s, a.c, a.p);
    }
  }

  lemma SettledStays(s: State, a: Act)
    ensures s.got <= Do(s, a).got
    ensures s.rejected <= Do(s, a).rejected
  {
  }

  /** Exactly once: a run stores an id once if it ends up held and was not held before, and
      otherwise never; and nothing settled is ever unsettled again. */
  lemma {:induction false} StoredExactlyOnce(s: State, acts: seq<Act>, c: Triple)
    requires Safe(s) && AllowedRun(s, acts)
    ensures Stores(s, acts, c) == if c in Run(s, acts).got && c !in s.got then 1 else 0
    ensures s.got <= Run(s, acts).got && s.rejected <= Run(s, acts).rejected
    decreases acts
  {
    if acts != [] {
      StepSafe(s, acts[0]);
      GotGrowsByStores(s, acts[0], c);
      SettledStays(s, acts[0]);
      StoredExactlyOnce(Do(s, acts[0]), acts[1..], c);
    }
  }

  /** The duty on preloading is exact. Preloading a fresh id lets a later delivery double up
      if and only if the id is leased at that moment. */
  lemma PreloadConflictsIffLeased(s: State, c: Triple)
    requires Safe(s) && c !in s.got
    ensures c in s.want <==> exists p :: s.Preload(c).Deliver(c, p).conflict
  {
    if c in s.want {
      assert LeaseOk(s, c);
      var p :| s.want[c] == {p};
      assert s.Preload(c).Deliver(c, p).conflict;
    }
  }

  /** And it leaves the settled sets disjoint if and only if the id is not rejected. */
  lemma PreloadOverlapsIffRejected(s: State, c: Triple)
    requires Safe(s) && c !in s.got
    ensures s.Preload(c).got !! s.Preload(c).rejected <==> c !in s.rejected
  {
    assert c in s.Preload(c).got;
  }
}
