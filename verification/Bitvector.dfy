/** The want bitvector (crates/wire/src/pb.rs): least significant bit first, len / 8 + 1 bytes. */
module Bitvector {
  import opened Types
  import opened Protobuf

  predicate BitOf(x: nat, k: nat) {
    if k == 0 then x % 2 == 1 else BitOf(x / 2, k - 1)
  }

  function Empty(len: nat): (bv: Bytes)
    ensures |bv| == len / 8 + 1
  {
    seq(len / 8 + 1, i => 0)
  }

  /** `x` with bit `k` set: what or-ing with 1 << k gives. */
  function SetBit(x: nat, k: nat): nat {
    if k == 0 then x + 1 - x % 2 else 2 * SetBit(x / 2, k - 1) + x % 2
  }

  lemma {:induction false} SetBitSets(x: nat, k: nat, j: nat)
    ensures BitOf(SetBit(x, k), j) <==> j == k || BitOf(x, j)
    decreases k
  {
    if k > 0 && j > 0 {
      SetBitSets(x / 2, k - 1, j - 1);
    } else if j > 0 {
      assert SetBit(x, k) / 2 == x / 2;
    }
  }

  function Pow2(n: nat): nat {
    if n == 0 then 1 else 2 * Pow2(n - 1)
  }

  lemma {:induction false} SetBitFits(x: nat, k: nat, n: nat)
    requires x < Pow2(n) && k < n
    ensures SetBit(x, k) < Pow2(n)
    decreases k
  {
    var half := Pow2(n - 1);
    assert Pow2(n) == 2 * half;
    if k == 0 {
      assert x % 2 == 0 ==> x + 1 < 2 * half;
    } else {
      assert x / 2 < half;
      SetBitFits(x / 2, k - 1, n - 1);
      assert SetBit(x / 2, k - 1) < half;
    }
  }

  function WithBit(x: Byte, k: nat): (y: Byte)
    requires k < 8
  {
    assert Pow2(4) == 16 && Pow2(8) == 256;
    SetBitFits(x, k, 8);
    SetBit(x, k)
  }

  predicate Bit(bv: Bytes, i: nat) {
    i / 8 < |bv| && BitOf(bv[i / 8], i % 8)
  }

  function Set(bv: Bytes, i: nat): (bv': Bytes)
    requires i / 8 < |bv|
    ensures |bv'| == |bv|
  {
    bv[i / 8 := WithBit(bv[i / 8], i % 8)]
  }

  /** Setting a bit sets that bit and no other. */
  lemma SetsOne(bv: Bytes, i: nat, j: nat)
    requires i / 8 < |bv|
    ensures Bit(Set(bv, i), j) <==> j == i || Bit(bv, j)
  {
    if i / 8 == j / 8 {
      SetBitSets(bv[i / 8], i % 8, j % 8);
      assert i % 8 == j % 8 ==> i == j;
    }
  }

  lemma EmptyHasNone(len: nat, j: nat)
    ensures !Bit(Empty(len), j)
  {
    ZeroHasNone(j % 8);
  }

  lemma {:induction false} ZeroHasNone(k: nat)
    ensures !BitOf(0, k)
  {
    if k > 0 { ZeroHasNone(k - 1); }
  }

  /** In place, as the source does it. */
  method SetInPlace(bv: array<Byte>, i: nat)
    requires i / 8 < bv.Length
    modifies bv
    ensures bv[..] == Set(old(bv[..]), i)
  {
    bv[i / 8] := WithBit(bv[i / 8], i % 8);
  }
}
