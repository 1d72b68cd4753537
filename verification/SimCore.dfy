/** The simulation object (crates/sim/src/lib.rs): its loops, proved to compute the functions
    of SimNet. A node's puller is kept as a value and stepped as an object. */
module SimCore {
  import opened Types
  import opened Machine
  import opened NodeModel
  import NodeCore
  import opened NodeRuns
  import opened SimNet
  import opened SimInv
  import opened SimStart

  class Sim {
    const concurrent: bool
    const place: Triple -> Bin
    var hosts: seq<Host>
    var queue: seq<Msg>
    var served: seq<nat>
    var spurious: nat

    function View(): Net
      reads this
    {
      Net(hosts, queue, served, spurious, concurrent, place)
    }

    constructor (k: nat, byzantine: set<int>, policy: Policy, spurious: nat, concurrent: bool, place: Triple -> Bin)
      ensures View() == NewNet(k, byzantine, policy, spurious, concurrent, place)
    {
      hosts := seq(k, i => Fresh(RADIUS, policy, i in byzantine));
      queue, served := [], seq(k, i => 0);
      this.spurious, this.concurrent, this.place := spurious, concurrent, place;
    }

    method Send(i: int, fx: seq<Effect>)
      modifies this`queue
      ensures queue == old(queue) + Reqs(i, fx)
    {
      ghost var q := queue;
      for x := 0 to |fx|
        invariant queue == q + Reqs(i, fx[..x])
      {
        assert fx[..x + 1][..x] == fx[..x];
        queue := queue + [Req(i, fx[x])];
      }
      assert fx[..|fx|] == fx;
    }

    static method StepNode(n: Node, ev: Event) returns (n': Node, fx: seq<Effect>)
      requires n.LogsValid()
      ensures (n', fx) == Handle(n, ev)
    {
      var node := new NodeCore.Node.FromView(n);
      fx := node.Handle(ev);
      n' := node.View();
    }

    /** Node `i` handles the event; its effects go in flight. */
    method Feed(i: int, ev: Event)
      requires 0 <= i < |hosts| && NodeInv(hosts[i].puller)
      modifies this`hosts, this`queue
      ensures View() == SimNet.Feed(old(View()), i, ev)
    {
      var n, fx := StepNode(hosts[i].puller, ev);
      hosts := hosts[i := hosts[i].(puller := n)];
      Send(i, fx);
    }

    /** The offers parked at a host that a bin grown to `head` answers, and the others. */
    static method Split(parked: seq<Held>, bin: Bin, head: BinId) returns (ready: seq<Held>, still: seq<Held>)
      ensures ready == Answerable(parked, bin, head) && still == StillParked(parked, bin, head)
    {
      ready, still := [], [];
      for x := 0 to |parked|
        invariant ready == Answerable(parked[..x], bin, head) && still == StillParked(parked[..x], bin, head)
      {
        assert parked[..x + 1][..x] == parked[..x];
        var h := parked[x];
        if h.1 == bin && head >= h.2 {
          ready := ready + [h];
        } else {
          still := still + [h];
        }
      }
      assert parked[..|parked|] == parked;
    }

    /** Push the answers to the offers in `ready`. */
    method Respond(i: int, ready: seq<Held>)
      requires 0 <= i < |hosts|
      modifies this`queue
      ensures queue == old(queue) + Responses(hosts[i], i, ready)
    {
      ghost var q := queue;
      for x := 0 to |ready|
        invariant queue == q + Responses(hosts[i], i, ready[..x])
      {
        assert ready[..x + 1][..x] == ready[..x];
        queue := queue + [Resp(ready[x].0, OfferResponse(hosts[i], i, ready[x].1, ready[x].2))];
      }
      assert ready[..|ready|] == ready;
    }

    /** The reserve gains `c`, and the offers parked on its bin are answered. */
    method Store(i: int, c: Triple)
      requires 0 <= i < |hosts|
      modifies this`hosts, this`queue
      ensures View() == SimNet.Store(old(View()), i, c)
    {
      var h := hosts[i];
      if c in h.index {
        return;
      }
      var bin := place(c);
      h := h.(index := h.index + {c}, reserve := h.reserve[bin := h.BinAt(bin) + [c]]);
      var ready, still := Split(h.parked, bin, h.Head(bin));
      hosts := hosts[i := h.(parked := still)];
      Respond(i, ready);
    }

    /** An initial holding, or an upload landing. */
    method Hold(i: int, c: Triple)
      requires 0 <= i < |hosts|
      modifies this`hosts, this`queue
      ensures View() == SimNet.Hold(old(View()), i, c)
    {
      var node := new NodeCore.Node.FromView(hosts[i].puller);
      var ok := node.Preload(c);
      hosts := hosts[i := hosts[i].(puller := node.View())];
      Store(i, c);
    }

    method StoreEach(i: int, cs: seq<Triple>)
      requires 0 <= i < |hosts|
      modifies this`hosts, this`queue
      ensures View() == StoreAll(old(View()), i, cs)
    {
      ghost var s := View();
      for x := 0 to |cs|
        invariant View() == StoreAll(s, i, cs[..x])
      {
        assert cs[..x + 1][..x] == cs[..x];
        Store(i, cs[x]);
      }
      assert cs[..|cs|] == cs;
    }

    /** Serve each want in order: omit, miss by the draw, miss what is not held, or deliver. */
    method ServeEach(h: Host, want: seq<Triple>, luck: set<nat>) returns (os: seq<(Triple, Outcome)>, delivered: nat)
      modifies this`spurious
      ensures (os, spurious) == ServeAll(h, want, old(spurious), luck)
      ensures delivered == |DeliveredIn(os)|
    {
      ghost var budget := spurious;
      os, delivered := [], 0;
      for x := 0 to |want|
        invariant (os, spurious) == ServeAll(h, want[..x], budget, luck)
        invariant delivered == |DeliveredIn(os)|
      {
        assert want[..x + 1][..x] == want[..x];
        var c, outcome := want[x], Missed;
        if h.byzantine {
          outcome := Missed;
        } else if spurious > 0 && x in luck {
          spurious := spurious - 1;
        } else if c in h.index {
          outcome := Delivered;
          delivered := delivered + 1;
        }
        assert (os + [(c, outcome)])[..|os|] == os;
        os := os + [(c, outcome)];
      }
      assert want[..|want|] == want;
    }

    /** A request reaches the peer it names. */
    method Answer(i: int, eff: Effect, luck: set<nat>)
      requires 0 <= eff.peer < |hosts| == |served|
      modifies this
      ensures View() == SimNet.Answer(old(View()), i, eff, luck)
    {
      var j := eff.peer;
      match eff {
        case GetCursors(_) =>
          queue := queue + [Resp(i, CursorsResult(j, Cursors(hosts[j])))];
        case Offer(_, bin, start) =>
          if hosts[j].Head(bin) >= start {
            queue := queue + [Resp(i, OfferResponse(hosts[j], j, bin, start))];
          } else {
            hosts := hosts[j := hosts[j].(parked := hosts[j].parked + [(i, bin, start)])];
          }
        case Fetch(_, bin, want) =>
          var os, delivered := ServeEach(hosts[j], want, luck);
          served := served[j := served[j] + delivered];
          queue := queue + [Resp(i, FetchResult(j, bin, os))];
        case Settled(_, _, _) =>
      }
    }

    /** An answer reaches the node that asked; what it delivered, the node now serves. */
    method Receive(i: int, ev: Event)
      requires 0 <= i < |hosts| && NodeInv(hosts[i].puller)
      modifies this`hosts, this`queue
      ensures View() == SimNet.Receive(old(View()), i, ev)
    {
      var delivered := [];
      if ev.FetchResult? {
        delivered := DeliveredAmong(ev.outcomes);
      }
      Feed(i, ev);
      StoreEach(i, delivered);
    }

    static method DeliveredAmong(os: seq<(Triple, Outcome)>) returns (cs: seq<Triple>)
      ensures cs == DeliveredIn(os)
    {
      cs := [];
      for x := 0 to |os|
        invariant cs == DeliveredIn(os[..x])
      {
        assert os[..x + 1][..x] == os[..x];
        if os[x].1 == Delivered {
          cs := cs + [os[x].0];
        }
      }
      assert os[..|os|] == os;
    }

    /** The messages that may be taken next: the handshake first, under concurrent discovery. */
    method Pool() returns (pool: seq<nat>)
      requires queue != []
      ensures pool != [] && forall x: nat :: x in pool <==> MayTake(View(), x)
    {
      var disc: seq<nat> := [];
      for x := 0 to |queue|
        invariant forall y: nat :: y in disc <==> y < x && IsDiscovery(queue[y])
      {
        if IsDiscovery(queue[x]) {
          disc := disc + [x];
        }
      }
      if concurrent && disc != [] {
        assert disc[0] in disc && queue[disc[0]] in queue;
        return disc;
      }
      if concurrent {
        forall m | m in queue ensures !IsDiscovery(m) {
          var y: nat :| y < |queue| && queue[y] == m;
          assert y !in disc;
        }
      }
      pool := seq(|queue|, x => x);
      forall x: nat ensures x in pool <==> x < |queue| {
        assert x < |queue| ==> pool[x] == x;
      }
    }

    /** Deliver one message in flight, chosen by `pick`. False when quiescent. */
    method Step(pick: nat, luck: set<nat>) returns (busy: bool, idx: nat)
      requires View().Valid()
      modifies this
      ensures busy <==> !Quiescent(old(View()))
      ensures !busy ==> View() == old(View())
      ensures busy ==> MayTake(old(View()), idx) && View() == SimNet.Step(old(View()), idx, luck)
    {
      if queue == [] {
        return false, 0;
      }
      var pool := Pool();
      idx := pool[pick % |pool|];
      assert idx in pool;
      var msg := queue[idx];
      assert View().Addressed(msg);
      queue := SwapRemove(queue, idx);
      match msg {
        case Req(i, eff) => Answer(i, eff, luck);
        case Resp(i, ev) => Receive(i, ev);
      }
      busy := true;
    }

    /** Node `i` sees everyone else. */
    method SeeOthers(i: int)
      requires AllInv(hosts) && 0 <= i < |hosts|
      modifies this`hosts, this`queue
      ensures View() == SeesBefore(old(View()), i, |old(hosts)|)
      ensures AllInv(hosts) && |hosts| == |old(hosts)|
    {
      ghost var s := View();
      for j := 0 to |hosts|
        invariant |hosts| == |s.hosts| && View() == SeesBefore(s, i, j) && AllInv(hosts)
      {
        ghost var before := View();
        if i != j {
          Feed(i, PeerSeen(j));
        }
        assert View() == SeesOne(before, i, j);
      }
    }

    /** Everyone sees everyone. */
    method Start()
      requires AllInv(hosts)
      modifies this`hosts, this`queue
      ensures View() == Started(old(View()), |old(hosts)|)
    {
      ghost var s := View();
      for i := 0 to |hosts|
        invariant |hosts| == |s.hosts| && View() == Started(s, i) && AllInv(hosts)
      {
        SeeOthers(i);
      }
    }
  }
}
