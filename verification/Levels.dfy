/** Levels of a graph given by its successor function, and the breadth-first walk over them
    that the resolver of crates/net/src/dnsaddr.rs performs. */
module Levels {
  /** One step beyond `xs`. */
  function Beyond<T>(next: T -> set<T>, xs: set<T>): set<T> {
    set x, y | x in xs && y in next(x) :: y
  }

  function Within<T>(next: T -> set<T>, start: T, d: nat): set<T> {
    if d == 0 then {start} else Within(next, start, d - 1) + Beyond(next, Within(next, start, d - 1))
  }

  lemma {:induction false} WithinGrows<T>(next: T -> set<T>, start: T, d: nat, e: nat)
    requires d <= e
    ensures Within(next, start, d) <= Within(next, start, e)
    decreases e - d
  {
    if d < e { WithinGrows(next, start, d + 1, e); }
  }

  /** A chain from `start`, each element a successor of the one before. */
  predicate Chain<T(==)>(next: T -> set<T>, start: T, xs: seq<T>) {
    if |xs| <= 1 then xs == [start]
    else
      var front := xs[..|xs| - 1];
      Chain(next, start, front) && xs[|xs| - 1] in next(front[|front| - 1])
  }

  lemma {:induction false} ChainTo<T>(next: T -> set<T>, start: T, x: T, d: nat) returns (xs: seq<T>)
    requires x in Within(next, start, d)
    ensures Chain(next, start, xs) && |xs| <= d + 1 && xs[|xs| - 1] == x
    decreases d
  {
    if d == 0 {
      xs := [start];
    } else if x in Within(next, start, d - 1) {
      xs := ChainTo(next, start, x, d - 1);
    } else {
      var v :| v in Within(next, start, d - 1) && x in next(v);
      var front := ChainTo(next, start, v, d - 1);
      xs := front + [x];
      assert xs[..|front|] == front;
    }
  }

  lemma {:induction false} ChainStaysWithin<T>(next: T -> set<T>, start: T, xs: seq<T>)
    requires Chain(next, start, xs)
    ensures xs[|xs| - 1] in Within(next, start, |xs| - 1)
    decreases |xs|
  {
    if |xs| > 1 {
      ChainStaysWithin(next, start, xs[..|xs| - 1]);
    }
  }

  /** The levels are the chains: within `d` steps lies what a chain of at most d + 1 ends in. */
  lemma WithinIsChains<T(!new)>(next: T -> set<T>, start: T, x: T, d: nat)
    ensures x in Within(next, start, d) <==>
      exists xs :: Chain(next, start, xs) && |xs| <= d + 1 && xs[|xs| - 1] == x
  {
    if x in Within(next, start, d) {
      var xs := ChainTo(next, start, x, d);
    }
    if xs :| Chain(next, start, xs) && |xs| <= d + 1 && xs[|xs| - 1] == x {
      ChainStaysWithin(next, start, xs);
      WithinGrows(next, start, |xs| - 1, d);
    }
  }

  // --- a breadth-first walk, loop-guarded and depth-capped ----------------------------------------

  type Queue<T> = seq<(T, nat)>

  /** Depths never fall along the queue, and span at most two levels from `from`. */
  ghost predicate Levelled<T(!new)>(queue: Queue<T>, from: nat) {
    && (forall i :: 0 <= i < |queue| ==> from <= queue[i].1 <= from + 1)
    && forall i, j :: 0 <= i < j < |queue| ==> queue[i].1 <= queue[j].1
  }

  ghost predicate QueuedBy<T(!new)>(queue: Queue<T>, n: T, d: nat) {
    exists e :: e in queue && e.0 == n && e.1 <= d
  }

  /** The walk so far. `depth` records how deep each visited element was first met. */
  ghost predicate Walk<T(!new)>(next: T -> set<T>, start: T, cap: nat, queue: Queue<T>, visited: set<T>, depth: map<T, nat>, now: nat) {
    && cap > 0 && visited == depth.Keys
    && Levelled(queue, now)
    && (forall e :: e in queue ==> e.0 in Within(next, start, e.1))
    && (forall v :: v in visited ==> depth[v] <= now && depth[v] < cap && v in Within(next, start, depth[v]))
    && Met(queue, depth, start, 0)
    && forall v :: v in visited ==> Followed(next, cap, queue, depth, v)
  }

  /** The successors of a visited element are queued, or were met no deeper. */
  ghost predicate Followed<T(!new)>(next: T -> set<T>, cap: nat, queue: Queue<T>, depth: map<T, nat>, v: T)
    requires v in depth
  {
    depth[v] + 1 < cap ==> forall n :: n in next(v) ==> Met(queue, depth, n, depth[v] + 1)
  }

  ghost predicate Met<T(!new)>(queue: Queue<T>, depth: map<T, nat>, n: T, d: nat) {
    (n in depth && depth[n] <= d) || QueuedBy(queue, n, d)
  }

  lemma {:induction false} DrainedMeetsAll<T(!new)>(next: T -> set<T>, start: T, cap: nat, visited: set<T>, depth: map<T, nat>, now: nat, d: nat)
    requires Walk(next, start, cap, [], visited, depth, now) && d < cap
    ensures forall n :: n in Within(next, start, d) ==> n in visited && depth[n] <= d
    decreases d
  {
    if d > 0 {
      DrainedMeetsAll(next, start, cap, visited, depth, now, d - 1);
      forall n | n in Within(next, start, d) ensures n in visited && depth[n] <= d {
        if n !in Within(next, start, d - 1) {
          var v :| v in Within(next, start, d - 1) && n in next(v);
          assert Followed(next, cap, [], depth, v);
          assert Met([], depth, n, depth[v] + 1);
        }
      }
    }
  }

  /** A drained walk has visited exactly what the cap allows. */
  lemma DrainedIsReachable<T(!new)>(next: T -> set<T>, start: T, cap: nat, visited: set<T>, depth: map<T, nat>, now: nat)
    requires Walk(next, start, cap, [], visited, depth, now)
    ensures visited == Within(next, start, cap - 1)
  {
    DrainedMeetsAll(next, start, cap, visited, depth, now, cap - 1);
    forall v | v in visited ensures v in Within(next, start, cap - 1) {
      VisitedWithin(next, start, cap, [], visited, depth, now, v);
    }
    SameSet(visited, Within(next, start, cap - 1));
  }

  lemma VisitedWithin<T(!new)>(next: T -> set<T>, start: T, cap: nat, queue: Queue<T>, visited: set<T>, depth: map<T, nat>, now: nat, v: T)
    requires Walk(next, start, cap, queue, visited, depth, now) && v in visited
    ensures v in Within(next, start, cap - 1)
  {
    WithinGrows(next, start, depth[v], cap - 1);
  }

  lemma SameSet<T(!new)>(a: set<T>, b: set<T>)
    requires forall x :: x in a <==> x in b
    ensures a == b
  {
  }

  lemma WalkSkips<T(!new)>(next: T -> set<T>, start: T, cap: nat, queue: Queue<T>, visited: set<T>, depth: map<T, nat>, now: nat)
    requires Walk(next, start, cap, queue, visited, depth, now) && queue != []
    requires queue[0].1 >= cap || queue[0].0 in visited
    ensures Walk(next, start, cap, queue[1..], visited, depth, queue[0].1)
  {
    forall n, d: nat | Met(queue, depth, n, d) && d < cap ensures Met(queue[1..], depth, n, d) {
      if !(n in depth && depth[n] <= d) {
        StaysQueued(queue, n, d);
      }
    }
    forall v | v in visited ensures Followed(next, cap, queue[1..], depth, v) {
      assert Followed(next, cap, queue, depth, v);
    }
  }

  lemma StaysQueued<T(!new)>(queue: Queue<T>, n: T, d: nat)
    requires QueuedBy(queue, n, d) && !(queue[0].0 == n && queue[0].1 <= d)
    ensures QueuedBy(queue[1..], n, d)
  {
    var e :| e in queue && e.0 == n && e.1 <= d;
    var i :| 0 <= i < |queue| && queue[i] == e;
    assert queue[1..][i - 1] == e;
  }

  lemma QueuedStill<T(!new)>(queue: Queue<T>, more: Queue<T>, n: T, d: nat)
    requires QueuedBy(queue, n, d)
    ensures QueuedBy(queue + more, n, d)
  {
    var e :| e in queue && e.0 == n && e.1 <= d;
    assert e in queue + more;
  }

  ghost function Queued<T(!new)>(queue: Queue<T>): set<(T, nat)> {
    set e | e in queue
  }

  /** The links an expansion queues: every successor, one level down. */
  ghost function Links<T(!new)>(ys: set<T>, d: nat): set<(T, nat)> {
    set y | y in ys :: (y, d)
  }

  ghost predicate LinksOf<T(!new)>(more: Queue<T>, ys: set<T>, d: nat) {
    Queued(more) == Links(ys, d)
  }

  lemma LinksAre<T(!new)>(more: Queue<T>, ys: set<T>, d: nat)
    requires LinksOf(more, ys, d)
    ensures forall e :: e in more ==> e.0 in ys && e.1 == d
    ensures forall y :: y in ys ==> (y, d) in more
  {
    forall e | e in more ensures e.0 in ys && e.1 == d {
      assert e in Queued(more);
    }
    forall y | y in ys ensures (y, d) in more {
      assert (y, d) in Links(ys, d);
    }
  }

  lemma StaysMet<T(!new)>(queue: Queue<T>, depth: map<T, nat>, more: Queue<T>, n: T, d: nat)
    requires queue != [] && queue[0].0 !in depth && Met(queue, depth, n, d)
    ensures Met(queue[1..] + more, depth[queue[0].0 := queue[0].1], n, d)
  {
    var depth' := depth[queue[0].0 := queue[0].1];
    if !(n in depth' && depth'[n] <= d) {
      StaysQueued(queue, n, d);
      QueuedStill(queue[1..], more, n, d);
    }
  }

  lemma ExpandLevelled<T(!new)>(queue: Queue<T>, more: Queue<T>, ys: set<T>, now: nat)
    requires Levelled(queue, now) && queue != [] && LinksOf(more, ys, queue[0].1 + 1)
    ensures Levelled(queue[1..] + more, queue[0].1)
  {
    var queue' := queue[1..] + more;
    LinksAre(more, ys, queue[0].1 + 1);
    forall i | 0 <= i < |queue'| ensures queue'[i] == if i < |queue| - 1 then queue[i + 1] else more[i - (|queue| - 1)] {
    }
    assert forall i :: 0 <= i < |more| ==> more[i] in more;
  }

  lemma ExpandWithin<T(!new)>(next: T -> set<T>, start: T, queue: Queue<T>, more: Queue<T>)
    requires queue != [] && LinksOf(more, next(queue[0].0), queue[0].1 + 1)
    requires forall e :: e in queue ==> e.0 in Within(next, start, e.1)
    ensures forall e :: e in queue[1..] + more ==> e.0 in Within(next, start, e.1)
  {
    var (cur, d) := queue[0];
    assert queue[0] in queue;
    LinksAre(more, next(cur), d + 1);
    forall e | e in more ensures e.0 in Within(next, start, e.1) {
      assert e.0 in Beyond(next, Within(next, start, d));
    }
  }

  lemma ExpandFollows<T(!new)>(next: T -> set<T>, cap: nat, queue: Queue<T>, depth: map<T, nat>, more: Queue<T>, v: T)
    requires queue != [] && queue[0].0 !in depth && LinksOf(more, next(queue[0].0), queue[0].1 + 1)
    requires v == queue[0].0 || (v in depth && Followed(next, cap, queue, depth, v))
    ensures Followed(next, cap, queue[1..] + more, depth[queue[0].0 := queue[0].1], v)
  {
    var (cur, dpt) := queue[0];
    var queue', depth' := queue[1..] + more, depth[cur := dpt];
    LinksAre(more, next(cur), dpt + 1);
    forall n | depth'[v] + 1 < cap && n in next(v) ensures Met(queue', depth', n, depth'[v] + 1) {
      if v == cur {
        assert (n, dpt + 1) in queue';
      } else {
        StaysMet(queue, depth, more, n, depth[v] + 1);
      }
    }
  }

  lemma WalkExpands<T(!new)>(next: T -> set<T>, start: T, cap: nat, queue: Queue<T>, visited: set<T>, depth: map<T, nat>, now: nat,
                             cur: T, d: nat, more: Queue<T>, ys: set<T>)
    requires Walk(next, start, cap, queue, visited, depth, now) && queue != [] && queue[0] == (cur, d)
    requires d < cap && cur !in visited
    requires ys == next(cur) && LinksOf(more, ys, d + 1)
    ensures Walk(next, start, cap, queue[1..] + more, visited + {cur}, depth[cur := d], d)
  {
    assert queue[0] in queue;
    StaysMet(queue, depth, more, start, 0);
    ExpandLevelled(queue, more, ys, now);
    ExpandWithin(next, start, queue, more);
    forall v | v in visited + {cur} ensures Followed(next, cap, queue[1..] + more, depth[cur := d], v) {
      ExpandFollows(next, cap, queue, depth, more, v);
    }
  }

  /** A first visit is to something within the cap, so only so many are left. */
  lemma FewerLeft<T(!new)>(next: T -> set<T>, start: T, cap: nat, queue: Queue<T>, visited: set<T>, depth: map<T, nat>, now: nat,
                           cur: T, d: nat)
    requires Walk(next, start, cap, queue, visited, depth, now) && queue != [] && queue[0] == (cur, d)
    requires d < cap && cur !in visited
    ensures cur in Within(next, start, cap - 1)
    ensures |Within(next, start, cap - 1) - (visited + {cur})| < |Within(next, start, cap - 1) - visited|
  {
    assert queue[0] in queue;
    WithinGrows(next, start, d, cap - 1);
    OneFewer(Within(next, start, cap - 1), visited, cur);
  }

  lemma OneFewer<T>(all: set<T>, visited: set<T>, x: T)
    requires x in all && x !in visited
    ensures |all - (visited + {x})| < |all - visited|
  {
    assert all - (visited + {x}) == (all - visited) - {x};
  }
}
