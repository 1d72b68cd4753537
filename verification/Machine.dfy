/** The pull-sync scheduling machine (crates/machine/src/lib.rs). `State` is the value of
    the machine with its actions as functions; `PullState` is the mutable object, each of
    whose methods is proved to compute the matching function. */
module Machine {
  import opened Types

  /** The design knobs. */
  datatype Config = Config(
    dedup: bool,
    failover: bool,
    exclude: bool,
    resetOnExhaust: bool,
    singleSource: bool,
    priority: bool,
    enableLive: bool)

  const PRODUCTION := Config(true, true, true, true, false, true, true)

  datatype State = State(
    cfg: Config,
    want: Table,
    holders: Table,
    excluded: Table,
    arrived: set<Triple>,
    live: set<Triple>,
    rejected: set<Triple>,
    got: set<Triple>,
    prio: map<Triple, int>,
    assign: map<Triple, PeerId>,
    conflict: bool,
    ndeliv: nat,
    npre: nat)
  {
    // --- guards and queries -----------------------------------------------------

    predicate Settled(c: Triple) {
      c in got || c in rejected
    }

    /** Started (leased) or finished. */
    predicate Addressed(c: Triple) {
      c in got || c in want
    }

    function PrioOf(c: Triple): int {
      if c in prio then prio[c] else 0
    }

    /** At least one candidate is left: a holder that is not barred. */
    predicate Eligible(c: Triple) {
      && c !in got
      && exists p :: p in At(holders, c) && p !in At(excluded, c)
    }

    /** No deeper, eligible chunk is still waiting to be started. */
    predicate PrioOk(c: Triple) {
      cfg.priority ==> forall d :: d in arrived ==> PrioOf(d) <= PrioOf(c) || !Eligible(d) || Addressed(d)
    }

    predicate Claimable(c: Triple, p: PeerId) {
      && c in arrived
      && p in At(holders, c)
      && c !in got
      && p !in At(want, c)
      && p !in At(excluded, c)
      && (cfg.dedup ==> c !in want)
      && (cfg.singleSource ==> c in assign && assign[c] == p)
      && (c in live ==> cfg.enableLive)
      && PrioOk(c)
    }

    predicate CanResetExcluded(c: Triple) {
      && cfg.resetOnExhaust
      && c in arrived
      && c !in got
      && c !in want
      && At(excluded, c) != {}
      && At(holders, c) <= At(excluded, c)
    }

    function EnabledWants(): set<(Triple, PeerId)> {
      set c, p | c in arrived && p in At(holders, c) && Claimable(c, p) :: (c, p)
    }

    lemma EnabledWantsAre(c: Triple, p: PeerId)
      ensures (c, p) in EnabledWants() <==> Claimable(c, p)
    {
    }

    function Deficit(): nat {
      |set c | c in arrived && c !in got|
    }

    function Load(p: PeerId): nat {
      |set c | c in want && p in want[c]|
    }

    // --- observations -----------------------------------------------------------

    function Preload(c: Triple): State {
      if c in got then this else this.(got := got + {c}, npre := npre + 1)
    }

    function SetPrio(c: Triple, depth: int): State {
      this.(prio := prio[c := depth])
    }

    function SetAssign(c: Triple, p: PeerId): State {
      this.(assign := assign[c := p])
    }

    function ObserveHolder(c: Triple, p: PeerId): State {
      this.(holders := SetInsert(holders, c, p))
    }

    function LoseHolder(c: Triple, p: PeerId): State {
      this.(holders := SetRemove(holders, c, p), want := SetRemove(want, c, p))
    }

    function ArriveHist(c: Triple): State {
      if Settled(c) then this else this.(arrived := arrived + {c})
    }

    function ArriveLive(c: Triple): State {
      if Settled(c) || c in arrived then this
      else this.(arrived := arrived + {c}, live := live + {c})
    }

    // --- the actions ------------------------------------------------------------

    function Want(c: Triple, p: PeerId): State {
      if Claimable(c, p) then this.(want := SetInsert(want, c, p)) else this
    }

    function Deliver(c: Triple, p: PeerId): State {
      if p !in At(want, c) then this
      else this.(conflict := conflict || c in got,
                 got := got + {c},
                 ndeliv := ndeliv + 1,
                 want := SetRemove(want, c, p))
    }

    function Stall(c: Triple, p: PeerId): State {
      if !cfg.failover || p !in At(want, c) then this
      else this.(want := SetRemove(want, c, p),
                 excluded := if cfg.exclude then SetInsert(excluded, c, p) else excluded)
    }

    function Reject(c: Triple): State {
      if Settled(c) then this
      else this.(rejected := rejected + {c},
                 arrived := arrived - {c},
                 live := live - {c},
                 want := want - {c})
    }

    function ResetExcluded(c: Triple): State {
      if CanResetExcluded(c) then this.(excluded := excluded - {c}) else this
    }

    /** Garbage-collect a settled id out of the scheduling maps. */
    function Forget(c: Triple): State {
      if !Settled(c) then this
      else this.(arrived := arrived - {c},
                 live := live - {c},
                 holders := holders - {c},
                 excluded := excluded - {c},
                 prio := prio - {c})
    }

    /** The machine-local safety checks, in the order the source names them. */
    function CheckInvariants(): Option<string> {
      if conflict then Some("ConflictFree")
      else if ndeliv + npre != |got| then Some("DeliveryFloor")
      else if cfg.dedup && exists c :: c in want && |want[c]| > 1 then Some("DedupInv")
      else if exists c :: c in want && exists p :: p in want[c] && (p !in At(holders, c) || p in At(excluded, c))
        then Some("ClaimsLive")
      else None
    }
  }

  function Initial(cfg: Config): State {
    State(cfg, map[], map[], map[], {}, {}, {}, {}, map[], map[], false, 0, 0)
  }

  /** Among any ids some are deepest. */
  lemma {:induction false} DeepestExists(m: State, cs: set<Triple>) returns (c: Triple)
    requires cs != {}
    ensures c in cs && forall d :: d in cs ==> m.PrioOf(d) <= m.PrioOf(c)
    decreases cs
  {
    c := Witness(cs);
    if cs != {c} {
      var d := DeepestExists(m, cs - {c});
      assert forall x :: x in cs ==> x == c || x in cs - {c};
      if m.PrioOf(d) > m.PrioOf(c) { c := d; }
    }
  }

  class PullState {
    const cfg: Config
    var want: Table
    var holders: Table
    var excluded: Table
    var arrived: set<Triple>
    var live: set<Triple>
    var rejected: set<Triple>
    var got: set<Triple>
    var prio: map<Triple, int>
    var assign: map<Triple, PeerId>
    var conflict: bool
    var ndeliv: nat
    var npre: nat

    function View(): State
      reads this
    {
      State(cfg, want, holders, excluded, arrived, live, rejected, got, prio, assign, conflict, ndeliv, npre)
    }

    constructor (cfg: Config)
      ensures View() == Initial(cfg)
    {
      this.cfg := cfg;
      want, holders, excluded := map[], map[], map[];
      arrived, live, rejected, got := {}, {}, {}, {};
      prio, assign := map[], map[];
      conflict, ndeliv, npre := false, 0, 0;
    }

    /** Resume an object from a value of the machine. */
    constructor FromState(s: State)
      ensures View() == s
    {
      cfg := s.cfg;
      want, holders, excluded := s.want, s.holders, s.excluded;
      arrived, live, rejected, got := s.arrived, s.live, s.rejected, s.got;
      prio, assign := s.prio, s.assign;
      conflict, ndeliv, npre := s.conflict, s.ndeliv, s.npre;
    }

    method Preload(c: Triple) returns (ok: bool)
      modifies this
      ensures View() == old(View()).Preload(c)
      ensures ok == (c !in old(got))
    {
      ok := c !in got;
      if ok {
        got := got + {c};
        npre := npre + 1;
      }
    }

    method SetPrio(c: Triple, depth: int)
      modifies this
      ensures View() == old(View()).SetPrio(c, depth)
    {
      prio := prio[c := depth];
    }

    method SetAssign(c: Triple, p: PeerId)
      modifies this
      ensures View() == old(View()).SetAssign(c, p)
    {
      assign := assign[c := p];
    }

    method ObserveHolder(c: Triple, p: PeerId) returns (added: bool)
      modifies this
      ensures View() == old(View()).ObserveHolder(c, p)
      ensures added == (p !in At(old(holders), c))
    {
      added := p !in At(holders, c);
      holders := SetInsert(holders, c, p);
    }

    method LoseHolder(c: Triple, p: PeerId) returns (held: bool)
      modifies this
      ensures View() == old(View()).LoseHolder(c, p)
      ensures held == (p in At(old(holders), c))
    {
      held := p in At(holders, c);
      holders := SetRemove(holders, c, p);
      want := SetRemove(want, c, p);
    }

    method ArriveHist(c: Triple) returns (ok: bool)
      modifies this
      ensures View() == old(View()).ArriveHist(c)
      ensures ok == (!old(View()).Settled(c) && c !in old(arrived))
    {
      if c in got || c in rejected {
        return false;
      }
      ok := c !in arrived;
      arrived := arrived + {c};
    }

    method ArriveLive(c: Triple) returns (ok: bool)
      modifies this
      ensures View() == old(View()).ArriveLive(c)
      ensures ok == (!old(View()).Settled(c) && c !in old(arrived))
    {
      if c in got || c in rejected || c in arrived {
        return false;
      }
      arrived := arrived + {c};
      live := live + {c};
      ok := true;
    }

    method Want(c: Triple, p: PeerId) returns (ok: bool)
      modifies this
      ensures View() == old(View()).Want(c, p)
      ensures ok == old(View()).Claimable(c, p)
    {
      ok := View().Claimable(c, p);
      if ok {
        want := SetInsert(want, c, p);
      }
    }

    method Deliver(c: Triple, p: PeerId) returns (ok: bool)
      modifies this
      ensures View() == old(View()).Deliver(c, p)
      ensures ok == (p in At(old(want), c))
    {
      ok := p in At(want, c);
      if ok {
        if c in got {
          conflict := true;
        }
        got := got + {c};
        ndeliv := ndeliv + 1;
        want := SetRemove(want, c, p);
      }
    }

    method Stall(c: Triple, p: PeerId) returns (ok: bool)
      modifies this
      ensures View() == old(View()).Stall(c, p)
      ensures ok == (cfg.failover && p in At(old(want), c))
    {
      ok := cfg.failover && p in At(want, c);
      if ok {
        want := SetRemove(want, c, p);
        if cfg.exclude {
          excluded := SetInsert(excluded, c, p);
        }
      }
    }

    method Reject(c: Triple) returns (ok: bool)
      modifies this
      ensures View() == old(View()).Reject(c)
      ensures ok == !old(View()).Settled(c)
    {
      if c in got || c in rejected {
        return false;
      }
      rejected := rejected + {c};
      arrived := arrived - {c};
      live := live - {c};
      want := want - {c};
      ok := true;
    }

    method ResetExcluded(c: Triple) returns (ok: bool)
      modifies this
      ensures View() == old(View()).ResetExcluded(c)
      ensures ok == old(View()).CanResetExcluded(c)
    {
      ok := View().CanResetExcluded(c);
      if ok {
        excluded := excluded - {c};
      }
    }

    method Forget(c: Triple) returns (ok: bool)
      modifies this
      ensures View() == old(View()).Forget(c)
      ensures ok == old(View()).Settled(c)
    {
      if c !in got && c !in rejected {
        return false;
      }
      arrived := arrived - {c};
      live := live - {c};
      holders := holders - {c};
      excluded := excluded - {c};
      prio := prio - {c};
      ok := true;
    }

    /** Every enabled claim. The source lists them in key order; no caller depends on it. */
    method EnabledWants() returns (out: set<(Triple, PeerId)>)
      ensures out == View().EnabledWants()
    {
      var s := View();
      out := {};
      var todo := arrived;
      while todo != {}
        invariant todo <= s.arrived
        invariant forall c, p :: (c, p) in out <==> c !in todo && s.Claimable(c, p)
      {
        var c := Pick(todo);
        if c !in got && c in holders {
          var hs := holders[c];
          ghost var before := out;
          while hs != {}
            invariant hs <= At(s.holders, c)
            invariant before <= out
            invariant forall d, p :: (d, p) in out <==> (d, p) in before || (d == c && p !in hs && s.Claimable(c, p))
          {
            var p := Pick(hs);
            if s.Claimable(c, p) {
              out := out + {(c, p)};
            }
            hs := hs - {p};
          }
        }
        todo := todo - {c};
      }
      forall e ensures e in out <==> e in s.EnabledWants() {
        s.EnabledWantsAre(e.0, e.1);
      }
    }
  }
}
