/** The identity seam (crates/types): the tokens every layer compares, stores and
    deduplicates, and the small containers the layers share. */
module Types {

  /** A reserve entry: a token that is only ever compared. The source's triple is 96 bytes
      under the lexicographic order, which is the order of the integers those bytes spell
      big-endian; nothing here uses more than a total order. */
  type Triple = int

  /** A neighbourhood peer, only ever compared. */
  type PeerId = int

  type Bin = int

  /** A peer-local position in one bin's append log. */
  type BinId = int

  datatype Option<+T> = None | Some(value: T)

  /** What the shell reports per wanted triple. */
  datatype Outcome = Delivered | Rejected | Missed

  method Pick<T>(s: set<T>) returns (x: T)
    requires s != {}
    ensures x in s
  {
    x :| x in s;
  }

  lemma Witness<T>(s: set<T>) returns (x: T)
    requires s != {}
    ensures x in s
  {
    x :| x in s;
  }

  lemma NotSubset<T>(a: set<T>, b: set<T>) returns (x: T)
    requires !(a <= b)
    ensures x in a && x !in b
  {
    x :| x in a && x !in b;
  }

  lemma SubsetSize<T>(a: set<T>, b: set<T>)
    requires a <= b
    ensures |a| <= |b|
  {
    assert b == a + (b - a);
  }

  ghost predicate Distinct<T(!new)>(s: seq<T>) {
    forall i, j :: 0 <= i < j < |s| ==> s[i] != s[j]
  }

  function Max(a: int, b: int): int {
    if a < b then b else a
  }

  function Min(a: int, b: int): int {
    if a < b then a else b
  }

  /** A table of peer sets keyed by triple. An absent row stands for the empty set. */
  type Table = map<Triple, set<PeerId>>

  function At(t: Table, c: Triple): set<PeerId> {
    if c in t then t[c] else {}
  }

  function SetInsert(t: Table, c: Triple, p: PeerId): Table {
    t[c := At(t, c) + {p}]
  }

  /** Removing the last peer of a row removes the row. */
  function SetRemove(t: Table, c: Triple, p: PeerId): Table {
    if c !in t then t
    else if t[c] - {p} == {} then t - {c}
    else t[c := t[c] - {p}]
  }

  lemma AtSetInsert(t: Table, c: Triple, p: PeerId)
    ensures forall d :: At(SetInsert(t, c, p), d) == if d == c then At(t, d) + {p} else At(t, d)
  {
  }

  lemma AtSetRemove(t: Table, c: Triple, p: PeerId)
    ensures forall d :: At(SetRemove(t, c, p), d) == if d == c then At(t, d) - {p} else At(t, d)
  {
  }

  lemma AtDrop(t: Table, c: Triple)
    ensures forall d :: At(t - {c}, d) == if d == c then {} else At(t, d)
  {
  }

  /** No row is present but empty, so `c in t` says the same as `At(t, c) != {}`. */
  ghost predicate Normal(t: Table) {
    forall c :: c in t ==> t[c] != {}
  }

  /** The (triple, peer) pairs of a table. */
  function Pairs(t: Table): set<(Triple, PeerId)> {
    set c, p | c in t && p in t[c] :: (c, p)
  }
}
