/** Starting a network (crates/sim/src/lib.rs, `start`): everyone comes to see everyone. */
module SimStart {
  import opened Types
  import opened Machine
  import opened NodeModel
  import opened NodeRuns
  import opened SimNet
  import opened SimChannel
  import opened SimInv
  import opened SimRuns
  import opened SimCounts
  import opened SimTheorem

  ghost predicate AllInv(hosts: seq<Host>) {
    forall i :: 0 <= i < |hosts| ==> NodeInv(hosts[i].puller)
  }

  /** Node `i` sees `p`, unless that is itself. */
  ghost function SeesOne(s: Net, i: int, p: int): (s': Net)
    requires AllInv(s.hosts) && 0 <= i < |s.hosts|
    ensures AllInv(s'.hosts) && |s'.hosts| == |s.hosts|
  {
    HandleKeeps(s.hosts[i].puller, PeerSeen(p));
    if i == p then s else Feed(s, i, PeerSeen(p))
  }

  lemma SeesOnePeers(s: Net, i: int, p: int)
    requires AllInv(s.hosts) && 0 <= i < |s.hosts|
    ensures var s' := SeesOne(s, i, p);
      && s'.hosts[i].puller.peers == s.hosts[i].puller.peers + (if p == i then {} else {p})
      && forall l :: 0 <= l < |s.hosts| && l != i ==> s'.hosts[l].puller.peers == s.hosts[l].puller.peers
  {
  }

  lemma SeesOneGood(s: Net, i: int, p: int)
    requires Good(s) && AllInv(s.hosts) && 0 <= i < |s.hosts| && 0 <= p < |s.hosts|
    ensures Good(SeesOne(s, i, p))
  {
    if p != i { SeeGood(s, i, p); }
  }

  /** Node `i` has seen everyone before `j` but itself. */
  ghost function SeesBefore(s: Net, i: int, j: nat): (s': Net)
    requires AllInv(s.hosts) && 0 <= i < |s.hosts| && j <= |s.hosts|
    ensures AllInv(s'.hosts) && |s'.hosts| == |s.hosts|
  {
    if j == 0 then s
    else
      SeesOne(SeesBefore(s, i, j - 1), i, j - 1)
  }

  /** Every node before `i` has seen everyone. */
  ghost function Started(s: Net, i: nat): (s': Net)
    requires AllInv(s.hosts) && i <= |s.hosts|
    ensures AllInv(s'.hosts) && |s'.hosts| == |s.hosts|
  {
    if i == 0 then s else SeesBefore(Started(s, i - 1), i - 1, |s.hosts|)
  }

  function Others(i: int, j: nat): set<int> {
    if j == 0 then {} else Others(i, j - 1) + if j - 1 == i then {} else {j - 1}
  }

  lemma {:induction false} OthersAre(i: int, j: nat, p: int)
    requires 0 <= p < j && p != i
    ensures p in Others(i, j)
  {
    if p < j - 1 { OthersAre(i, j - 1, p); }
  }

  lemma {:induction false} SeesBeforePeers(s: Net, i: int, j: nat)
    requires AllInv(s.hosts) && 0 <= i < |s.hosts| && j <= |s.hosts|
    ensures var s' := SeesBefore(s, i, j);
      && Others(i, j) <= s'.hosts[i].puller.peers
      && forall l :: 0 <= l < |s.hosts| && l != i ==> s'.hosts[l].puller.peers == s.hosts[l].puller.peers
    decreases j
  {
    if j > 0 {
      SeesBeforePeers(s, i, j - 1);
      SeesOnePeers(SeesBefore(s, i, j - 1), i, j - 1);
    }
  }

  lemma {:induction false} StartedPeers(s: Net, i: nat)
    requires AllInv(s.hosts) && i <= |s.hosts|
    ensures forall l :: 0 <= l < i ==> Others(l, |s.hosts|) <= Started(s, i).hosts[l].puller.peers
    decreases i
  {
    if i > 0 {
      StartedPeers(s, i - 1);
      SeesBeforePeers(Started(s, i - 1), i - 1, |s.hosts|);
    }
  }

  /** The network is good at every stage of node `i`'s sightings. */
  ghost predicate GoodThrough(s: Net, i: int, j: nat)
    requires AllInv(s.hosts) && 0 <= i < |s.hosts| && j <= |s.hosts|
    decreases j
  {
    Good(SeesBefore(s, i, j)) && (j > 0 ==> GoodThrough(s, i, j - 1))
  }

  lemma SeesMoreGood(s: Net, i: int, j: nat)
    requires AllInv(s.hosts) && 0 <= i < |s.hosts| && 0 < j <= |s.hosts| && GoodThrough(s, i, j - 1)
    ensures GoodThrough(s, i, j)
  {
    SeesOneGood(SeesBefore(s, i, j - 1), i, j - 1);
  }

  lemma {:induction false} SeesBeforeGood(s: Net, i: int, j: nat)
    requires Good(s) && AllInv(s.hosts) && 0 <= i < |s.hosts| && j <= |s.hosts|
    ensures GoodThrough(s, i, j)
    decreases j
  {
    if j == 0 {
      assert SeesBefore(s, i, j) == s;
    } else {
      SeesBeforeGood(s, i, j - 1);
      SeesMoreGood(s, i, j);
    }
  }

  /** The network is good at every stage of its start. */
  ghost predicate GoodStart(s: Net, i: nat)
    requires AllInv(s.hosts) && i <= |s.hosts|
    decreases i
  {
    Good(Started(s, i)) && (i > 0 ==> GoodStart(s, i - 1))
  }

  lemma {:induction false} StartedGood(s: Net, i: nat)
    requires Good(s) && AllInv(s.hosts) && i <= |s.hosts|
    ensures GoodStart(s, i)
    decreases i
  {
    if i > 0 {
      StartedGood(s, i - 1);
      SeesBeforeGood(Started(s, i - 1), i - 1, |s.hosts|);
    }
  }

  lemma StartedMeshes(s: Net)
    requires AllInv(s.hosts)
    ensures Meshed(Started(s, |s.hosts|))
  {
    StartedPeers(s, |s.hosts|);
    forall i, j | 0 <= i < |s.hosts| && 0 <= j < |s.hosts| && i != j
      ensures j in Started(s, |s.hosts|).hosts[i].puller.peers {
      OthersAre(i, |s.hosts|, j);
    }
  }
}
