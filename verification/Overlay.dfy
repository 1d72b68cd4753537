/** Proximity order (crates/overlay/src/lib.rs; Swarm Formal Specification, section 1.1.4,
    Definition 6): the number of leading bits two addresses share, saturated at 255. */
module Overlay {
  import opened Types

  type Address = a: seq<bv8> | |a| == 32 witness seq(32, i => 0)

  /** Bit `k` of a byte, most significant first. */
  predicate TopBit(x: bv8, k: nat)
    requires k < 8
  {
    match k
    case 0 => x & 0x80 != 0
    case 1 => x & 0x40 != 0
    case 2 => x & 0x20 != 0
    case 3 => x & 0x10 != 0
    case 4 => x & 0x08 != 0
    case 5 => x & 0x04 != 0
    case 6 => x & 0x02 != 0
    case _ => x & 0x01 != 0
  }

  /** Most significant first: bit `k` is what a shift by 7 - k leaves at the bottom. */
  lemma TopBitShifts(x: bv8, k: nat)
    requires k < 8
    ensures TopBit(x, k) <==> (x >> (7 - k)) & 1 == 1
  {
    match k {
      case 0 =>
      case 1 =>
      case 2 =>
      case 3 =>
      case 4 =>
      case 5 =>
      case 6 =>
      case _ =>
    }
  }

  function LeadingZeros(x: bv8): nat {
    if x & 0x80 != 0 then 0
    else if x & 0x40 != 0 then 1
    else if x & 0x20 != 0 then 2
    else if x & 0x10 != 0 then 3
    else if x & 0x08 != 0 then 4
    else if x & 0x04 != 0 then 5
    else if x & 0x02 != 0 then 6
    else if x & 0x01 != 0 then 7
    else 8
  }

  /** Bit `k` of an address, most significant first. */
  predicate LeadBit(a: seq<bv8>, k: nat)
    requires k < 8 * |a|
  {
    TopBit(a[k / 8], k % 8)
  }

  /** The first `d` bits are the same. */
  ghost predicate Agree(a: seq<bv8>, b: seq<bv8>, d: nat)
    requires d <= 8 * |a| && d <= 8 * |b|
  {
    forall k: nat :: k < d ==> LeadBit(a, k) == LeadBit(b, k)
  }

  lemma XorBits(x: bv8, y: bv8, k: nat)
    requires k < 8
    ensures TopBit(x ^ y, k) == (TopBit(x, k) != TopBit(y, k))
  {
    match k {
      case 0 => assert ((x ^ y) & 0x80 != 0) == ((x & 0x80 != 0) != (y & 0x80 != 0));
      case 1 => assert ((x ^ y) & 0x40 != 0) == ((x & 0x40 != 0) != (y & 0x40 != 0));
      case 2 => assert ((x ^ y) & 0x20 != 0) == ((x & 0x20 != 0) != (y & 0x20 != 0));
      case 3 => assert ((x ^ y) & 0x10 != 0) == ((x & 0x10 != 0) != (y & 0x10 != 0));
      case 4 => assert ((x ^ y) & 0x08 != 0) == ((x & 0x08 != 0) != (y & 0x08 != 0));
      case 5 => assert ((x ^ y) & 0x04 != 0) == ((x & 0x04 != 0) != (y & 0x04 != 0));
      case 6 => assert ((x ^ y) & 0x02 != 0) == ((x & 0x02 != 0) != (y & 0x02 != 0));
      case _ => assert ((x ^ y) & 0x01 != 0) == ((x & 0x01 != 0) != (y & 0x01 != 0));
    }
  }

  lemma LeadingZerosIs(x: bv8)
    ensures LeadingZeros(x) <= 8
    ensures LeadingZeros(x) == 8 <==> x == 0
    ensures forall k: nat :: k < LeadingZeros(x) ==> !TopBit(x, k)
    ensures x != 0 ==> TopBit(x, LeadingZeros(x))
  {
  }

  /** The first differing bit of two different bytes. */
  lemma FirstDifference(x: bv8, y: bv8)
    requires x != y
    ensures var z := LeadingZeros(x ^ y);
      z < 8 && TopBit(x, z) != TopBit(y, z) && forall k: nat :: k < z ==> TopBit(x, k) == TopBit(y, k)
  {
    var d := x ^ y;
    assert d != 0;
    LeadingZerosIs(d);
    forall k: nat | k < 8 ensures TopBit(d, k) == (TopBit(x, k) != TopBit(y, k)) {
      XorBits(x, y, k);
    }
  }

  /** `po` is how many leading bits the first `n` bytes share, or 255 if they are the same. */
  ghost predicate IsProximity(a: seq<bv8>, b: seq<bv8>, n: nat, po: int)
    requires n <= |a| && n <= |b|
  {
    if a[..n] == b[..n] then po == 255
    else 0 <= po < 8 * n && Agree(a, b, po) && LeadBit(a, po) != LeadBit(b, po)
  }

  lemma SameBytesAgree(a: seq<bv8>, b: seq<bv8>, i: nat)
    requires i <= |a| && i <= |b| && a[..i] == b[..i]
    ensures Agree(a, b, 8 * i)
  {
    forall k: nat | k < 8 * i ensures LeadBit(a, k) == LeadBit(b, k) {
      assert a[..i][k / 8] == b[..i][k / 8];
    }
  }

  lemma LeadBitIs(a: seq<bv8>, i: nat, z: nat)
    requires i < |a| && z < 8
    ensures LeadBit(a, i * 8 + z) == TopBit(a[i], z)
  {
    assert (i * 8 + z) / 8 == i && (i * 8 + z) % 8 == z;
  }

  /** Agreeing on the first `i` bytes and on `z` bits of the next. */
  lemma AgreeThrough(a: seq<bv8>, b: seq<bv8>, i: nat, z: nat)
    requires i < |a| && i < |b| && a[..i] == b[..i] && z < 8
    requires forall k: nat :: k < z ==> TopBit(a[i], k) == TopBit(b[i], k)
    ensures Agree(a, b, i * 8 + z)
  {
    SameBytesAgree(a, b, i);
    forall k: nat | k < i * 8 + z ensures LeadBit(a, k) == LeadBit(b, k) {
      if k >= i * 8 {
        LeadBitIs(a, i, k - i * 8);
        LeadBitIs(b, i, k - i * 8);
      }
    }
  }

  /** Bit `z` of byte `i` is the first difference. */
  lemma DifferAt(a: seq<bv8>, b: seq<bv8>, i: nat, z: nat)
    requires i < |a| && i < |b| && a[..i] == b[..i] && z < 8
    requires TopBit(a[i], z) != TopBit(b[i], z) && forall k: nat :: k < z ==> TopBit(a[i], k) == TopBit(b[i], k)
    ensures Agree(a, b, i * 8 + z) && LeadBit(a, i * 8 + z) != LeadBit(b, i * 8 + z)
  {
    AgreeThrough(a, b, i, z);
    LeadBitIs(a, i, z);
    LeadBitIs(b, i, z);
  }

  /** The byte-wise scan computes the bit-wise definition, whatever the lengths. */
  method ProximityOf(a: seq<bv8>, b: seq<bv8>) returns (po: int)
    ensures IsProximity(a, b, Min(Min(|a|, |b|), 32), po)
    ensures 0 <= po <= 255
    ensures |a| == 32 && |b| == 32 ==> po == Proximity(a, b)
  {
    var n := Min(Min(|a|, |b|), 32);
    for i := 0 to n
      invariant a[..i] == b[..i]
    {
      if a[i] != b[i] {
        FirstDifference(a[i], b[i]);
        DifferAt(a, b, i, LeadingZeros(a[i] ^ b[i]));
        assert a[..n][i] != b[..n][i];
        po := i * 8 + LeadingZeros(a[i] ^ b[i]);
        if |a| == 32 && |b| == 32 { ProximityUnique(a, b, po); }
        return;
      }
    }
    po := 255;
    if |a| == 32 && |b| == 32 { ProximityUnique(a, b, po); }
  }

  // --- the order on 256-bit addresses -----------------------------------------------------

  lemma SomeProximity(a: Address, b: Address)
    ensures exists po: int :: IsProximity(a, b, 32, po) && 0 <= po <= 255
  {
    assert a[..32] == a && b[..32] == b;
    if a != b {
      var i := FirstDifferentByte(a, b);
      FirstDifference(a[i], b[i]);
      DifferAt(a, b, i, LeadingZeros(a[i] ^ b[i]));
      assert IsProximity(a, b, 32, i * 8 + LeadingZeros(a[i] ^ b[i]));
    } else {
      assert IsProximity(a, b, 32, 255);
    }
  }

  lemma FirstDifferentByte(a: Address, b: Address) returns (i: nat)
    requires a != b
    ensures i < 32 && a[..i] == b[..i] && a[i] != b[i]
  {
    i := 0;
    while a[i] == b[i]
      invariant i < 32 && a[..i] == b[..i]
      decreases 32 - i
    {
      assert i == 31 ==> a == b;
      i := i + 1;
    }
  }

  ghost function Proximity(a: Address, b: Address): (po: nat)
    ensures IsProximity(a, b, 32, po) && po <= 255
  {
    SomeProximity(a, b);
    var po: int :| IsProximity(a, b, 32, po) && 0 <= po <= 255;
    po
  }

  /** At least `d` is agreeing on the first `d` bits: what every other property rests on. */
  lemma AtLeastIsAgreeing(a: Address, b: Address, d: nat)
    requires d <= 255
    ensures Proximity(a, b) >= d <==> Agree(a, b, d)
  {
    assert a[..32] == a && b[..32] == b;
    if a == b {
      assert Agree(a, b, d);
    }
  }

  lemma ProximityUnique(a: Address, b: Address, po: int)
    requires IsProximity(a, b, 32, po) && 0 <= po <= 255
    ensures po == Proximity(a, b)
  {
    assert a[..32] == a && b[..32] == b;
  }

  lemma ProximitySymmetric(a: Address, b: Address)
    ensures Proximity(a, b) == Proximity(b, a)
  {
    AtLeastIsAgreeing(a, b, Proximity(b, a));
    AtLeastIsAgreeing(b, a, Proximity(b, a));
    AtLeastIsAgreeing(a, b, Proximity(a, b));
    AtLeastIsAgreeing(b, a, Proximity(a, b));
  }

  /** The ultrametric inequality. */
  lemma ProximityUltrametric(a: Address, b: Address, c: Address)
    ensures Proximity(a, c) >= Min(Proximity(a, b), Proximity(b, c))
  {
    var d := Min(Proximity(a, b), Proximity(b, c));
    AtLeastIsAgreeing(a, b, d);
    AtLeastIsAgreeing(b, c, d);
    AtLeastIsAgreeing(a, c, d);
    forall k: nat | k < d ensures LeadBit(a, k) == LeadBit(c, k) {
      assert LeadBit(a, k) == LeadBit(b, k) && LeadBit(b, k) == LeadBit(c, k);
    }
  }

  // --- the neighbourhood ------------------------------------------------------------------------

  datatype Neighbourhood = Neighbourhood(overlay: Address, radius: nat) {

    ghost predicate InReserve(chunk: Address) {
      Proximity(chunk, overlay) >= radius
    }

    ghost predicate IsNeighbour(peer: Address) {
      Proximity(peer, overlay) >= radius
    }
  }

  /** Locality. Two nodes of the same radius keep the same reserve exactly if each is a
      neighbour of the other. */
  lemma NeighboursShareReserve(n: Neighbourhood, peer: Address)
    requires n.radius <= 255
    ensures n.IsNeighbour(peer) <==> forall chunk: Address :: n.InReserve(chunk) <==> Neighbourhood(peer, n.radius).InReserve(chunk)
  {
    ProximitySymmetric(peer, n.overlay);
    if n.IsNeighbour(peer) {
      forall chunk: Address ensures n.InReserve(chunk) <==> Neighbourhood(peer, n.radius).InReserve(chunk) {
        ProximityUltrametric(chunk, n.overlay, peer);
        ProximityUltrametric(chunk, peer, n.overlay);
      }
    } else {
      assert Proximity(peer, peer) == 255;
      assert !n.InReserve(peer) && Neighbourhood(peer, n.radius).InReserve(peer);
    }
  }

  const BEE_MAX_BIN: nat := 31

  function BeeWireBin(po: nat): nat {
    Min(po, BEE_MAX_BIN)
  }

  /** The wire bin tells proximities apart exactly below the cap. */
  lemma WireBinFaithful(p: nat, q: nat)
    ensures (BeeWireBin(p) == BeeWireBin(q)) <==> (p == q || (p >= BEE_MAX_BIN && q >= BEE_MAX_BIN))
  {
  }
}
