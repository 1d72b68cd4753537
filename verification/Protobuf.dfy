/** The proto3 plumbing (crates/protobuf/src/lib.rs; Protocol Buffers Encoding, "Base 128
    Varints" and "Length-Delimited Records"): varints, frames and fields over bytes. */
module Protobuf {
  import opened Types

  type Byte = x: int | 0 <= x < 256
  type Bytes = seq<Byte>

  const U32: nat := 0x1_0000_0000
  const U64: nat := 0x1_0000_0000_0000_0000
  const MAX_VARINT: nat := 10
  const MAX_FRAME: nat := 128 * 1024

  // --- varints --------------------------------------------------------------------------

  function Varint(v: nat): (b: Bytes)
    ensures b != []
  {
    if v < 128 then [v] else [v % 128 + 128] + Varint(v / 128)
  }

  /** The value of the varint at the front, of at most `limit` bytes, and its length. */
  function Unvarint(b: Bytes, limit: nat): (r: Option<(nat, nat)>)
    ensures r.Some? ==> 0 < r.value.1 <= |b| && r.value.1 <= limit
  {
    if limit == 0 || b == [] then None
    else if b[0] < 128 then Some((b[0], 1))
    else
      match Unvarint(b[1..], limit - 1)
      case None => None
      case Some((v, n)) => Some((b[0] - 128 + 128 * v, n + 1))
  }

  /** The source accumulates in 64 bits: what overflows is lost. */
  function GetUvarint(b: Bytes): (r: Option<(nat, nat)>)
    ensures r.Some? ==> 0 < r.value.1 <= |b|
  {
    match Unvarint(b, MAX_VARINT)
    case None => None
    case Some((v, n)) => Some((v % U64, n))
  }

  method PutUvarint(v: nat) returns (b: Bytes)
    ensures b == Varint(v)
  {
    var rest := v;
    b := [];
    while rest >= 128
      invariant b + Varint(rest) == Varint(v)
    {
      assert b + Varint(rest) == (b + [rest % 128 + 128]) + Varint(rest / 128);
      b := b + [rest % 128 + 128];
      rest := rest / 128;
    }
    b := b + [rest];
  }

  function Pow128(i: nat): (p: nat)
    ensures p > 0
  {
    if i == 0 then 1 else 128 * Pow128(i - 1)
  }

  lemma Pow128Values()
    ensures Pow128(9) == 0x8000_0000_0000_0000
    ensures Pow128(10) == 0x40_0000_0000_0000_0000
  {
    assert Pow128(2) == 0x4000;
    assert Pow128(4) == 0x1000_0000;
    assert Pow128(6) == 0x400_0000_0000;
    assert Pow128(8) == 0x100_0000_0000_0000;
  }

  lemma {:induction false} Pow128Grows(i: nat, j: nat)
    requires i <= j
    ensures Pow128(i) <= Pow128(j)
    decreases j - i
  {
    if i < j {
      Pow128Grows(i + 1, j);
    }
  }

  /** What `acc`, of scale `scale` = 128^i, makes of the rest of the bytes. */
  function Resumed(b: Bytes, i: nat, scale: nat, acc: nat): Option<(nat, nat)>
    requires i <= |b| && i <= MAX_VARINT
  {
    match Unvarint(b[i..], MAX_VARINT - i)
    case None => None
    case Some((v, n)) => Some((acc + scale * v, i + n))
  }

  lemma ResumesOne(b: Bytes, i: nat, scale: nat, acc: nat)
    requires i < |b| && i < MAX_VARINT
    ensures b[i] >= 128 ==> Resumed(b, i, scale, acc) == Resumed(b, i + 1, 128 * scale, acc + (b[i] - 128) * scale)
    ensures b[i] < 128 ==> Resumed(b, i, scale, acc) == Some((acc + scale * b[i], i + 1))
  {
    assert b[i..][1..] == b[i + 1..];
    if b[i] >= 128 {
      match Unvarint(b[i + 1..], MAX_VARINT - i - 1) {
        case None =>
        case Some((v, n)) => Distributes(scale, b[i] - 128, v);
      }
    }
  }

  lemma Distributes(scale: nat, low: nat, v: nat)
    ensures scale * (low + 128 * v) == low * scale + (128 * scale) * v
  {
  }

  /** Adding the shifted digit in 64 bits is adding it and dropping the overflow. */
  lemma ShiftedDigit(i: nat, acc: nat, low: nat)
    requires i < MAX_VARINT && acc < Pow128(i) && low < 128
    ensures acc + (low * Pow128(i)) % U64 == (acc + low * Pow128(i)) % U64
    ensures i < 9 ==> (low * Pow128(i)) % U64 == low * Pow128(i)
    ensures acc + low * Pow128(i) < Pow128(i + 1)
  {
    Pow128Values();
    var scale := Pow128(i);
    DigitFits(acc, low, scale);
    if i < 9 {
      Pow128Grows(i + 1, 9);
    } else {
      assert scale == 0x8000_0000_0000_0000 && U64 == 2 * scale;
      HalfWords(low, acc);
    }
  }

  lemma DigitFits(acc: nat, low: nat, scale: nat)
    requires acc < scale && low < 128
    ensures acc + low * scale < 128 * scale
  {
    assert low * scale <= 127 * scale;
  }

  lemma HalfWords(low: nat, acc: nat)
    requires low < 128 && acc < 0x8000_0000_0000_0000
    ensures (low * 0x8000_0000_0000_0000) % U64 == (low % 2) * 0x8000_0000_0000_0000
    ensures (acc + low * 0x8000_0000_0000_0000) % U64 == acc + (low % 2) * 0x8000_0000_0000_0000
  {
    var half := 0x8000_0000_0000_0000;
    assert low * half == (low / 2) * U64 + (low % 2) * half;
  }

  /** The last digit of a varint ends it, in 64 bits. */
  lemma ReadsLast(b: Bytes, i: nat, scale: nat, v: nat)
    requires i < |b| && i < MAX_VARINT && scale == Pow128(i) && v < scale && b[i] < 128
    requires Unvarint(b, MAX_VARINT) == Resumed(b, i, scale, v)
    ensures GetUvarint(b) == Some((v + (b[i] * scale) % U64, i + 1))
  {
    ResumesOne(b, i, scale, v);
    ShiftedDigit(i, v, b[i]);
    Commutes(b[i], scale);
  }

  /** Any other digit adds up, and below the tenth nothing overflows. */
  lemma ReadsMore(b: Bytes, i: nat, scale: nat, v: nat)
    requires i < |b| && i < MAX_VARINT && scale == Pow128(i) && v < scale && b[i] >= 128
    requires Unvarint(b, MAX_VARINT) == Resumed(b, i, scale, v)
    ensures i == 9 ==> GetUvarint(b) == None
    ensures i < 9 ==> v + ((b[i] - 128) * scale) % U64 < 128 * scale && Pow128(i + 1) == 128 * scale
    ensures i < 9 ==> Unvarint(b, MAX_VARINT) == Resumed(b, i + 1, 128 * scale, v + ((b[i] - 128) * scale) % U64)
  {
    ResumesOne(b, i, scale, v);
    ShiftedDigit(i, v, b[i] - 128);
  }

  lemma Commutes(x: nat, y: nat)
    ensures x * y == y * x
  {
  }

  /** The source's loop reads what GetUvarint says, overflow included. */
  method ReadUvarint(b: Bytes) returns (r: Option<(nat, nat)>)
    ensures r == GetUvarint(b)
  {
    var v: nat, scale: nat, i: nat := 0, 1, 0;
    while i < |b| && i < MAX_VARINT
      invariant i <= |b| && i <= MAX_VARINT
      invariant scale == Pow128(i) && v < scale
      invariant Unvarint(b, MAX_VARINT) == Resumed(b, i, scale, v)
    {
      if b[i] < 128 {
        ReadsLast(b, i, scale, v);
        return Some((v + (b[i] * scale) % U64, i + 1));
      }
      ReadsMore(b, i, scale, v);
      if i == 9 {
        return None;
      }
      v, scale, i := v + ((b[i] - 128) * scale) % U64, 128 * scale, i + 1;
    }
    r := None;
  }

  // --- round trips --------------------------------------------------------------------------

  lemma {:induction false} VarintLength(v: nat, k: nat)
    requires v < Pow128(k) && k > 0
    ensures |Varint(v)| <= k
    decreases k
  {
    if v >= 128 {
      VarintLength(v / 128, k - 1);
    }
  }

  lemma {:induction false} UnvarintVarint(v: nat, suffix: Bytes, limit: nat)
    requires |Varint(v)| <= limit
    ensures Unvarint(Varint(v) + suffix, limit) == Some((v, |Varint(v)|))
    decreases v
  {
    if v >= 128 {
      UnvarintVarint(v / 128, suffix, limit - 1);
      assert (Varint(v) + suffix)[1..] == Varint(v / 128) + suffix;
    }
  }

  /** Reading a written varint gives it back, whatever follows. */
  lemma VarintRoundTrip(v: nat, suffix: Bytes)
    requires v < U64
    ensures GetUvarint(Varint(v) + suffix) == Some((v, |Varint(v)|)) && |Varint(v)| <= MAX_VARINT
  {
    Pow128Values();
    VarintLength(v, MAX_VARINT);
    UnvarintVarint(v, suffix, MAX_VARINT);
  }

  lemma {:induction false} VarintPrefix(v: nat, n: nat, limit: nat)
    requires n < |Varint(v)|
    ensures Unvarint(Varint(v)[..n], limit) == None
    decreases v
  {
    if n > 0 && limit > 0 {
      assert Varint(v)[..n][1..] == Varint(v / 128)[..n - 1];
      VarintPrefix(v / 128, n - 1, limit - 1);
    }
  }

  /** More bytes never change what was read. */
  lemma {:induction false} UnvarintStable(b: Bytes, suffix: Bytes, limit: nat)
    requires Unvarint(b, limit).Some?
    ensures Unvarint(b + suffix, limit) == Unvarint(b, limit)
    decreases |b|
  {
    if b[0] >= 128 {
      UnvarintStable(b[1..], suffix, limit - 1);
      assert (b + suffix)[1..] == b[1..] + suffix;
    }
  }

  // --- frames ---------------------------------------------------------------------------------

  function Frame(msg: Bytes): (f: Bytes)
    ensures f != []
  {
    Varint(|msg|) + msg
  }

  /** What the front of a buffer holds. The source panics on a length over the cap. */
  datatype Framed = NeedMore | OverCap | Message(msg: Bytes, used: nat)

  function Deframe(buf: Bytes): (r: Framed)
    ensures r.Message? ==> 0 < r.used <= |buf|
  {
    match GetUvarint(buf)
    case None => NeedMore
    case Some((len, n)) =>
      if len > MAX_FRAME then OverCap
      else if |buf| < n + len then NeedMore
      else Message(buf[n..n + len], n + len)
  }

  /** A frame at the front is read back whole, whatever follows; over the cap, never. */
  lemma FrameRoundTrip(msg: Bytes, suffix: Bytes)
    requires |msg| < U64
    ensures Deframe(Frame(msg) + suffix) == if |msg| <= MAX_FRAME then Message(msg, |Frame(msg)|) else OverCap
  {
    VarintRoundTrip(|msg|, msg + suffix);
    assert Frame(msg) + suffix == Varint(|msg|) + (msg + suffix);
    var n := |Varint(|msg|)|;
    assert (Frame(msg) + suffix)[n..n + |msg|] == msg;
  }

  /** Every strict prefix of a frame within the cap asks for more. */
  lemma FramePrefix(msg: Bytes, n: nat)
    requires |msg| <= MAX_FRAME && n < |Frame(msg)|
    ensures Deframe(Frame(msg)[..n]) == NeedMore
  {
    var head := Varint(|msg|);
    if n < |head| {
      assert Frame(msg)[..n] == head[..n];
      VarintPrefix(|msg|, n, MAX_VARINT);
    } else {
      assert Frame(msg)[..n] == head + msg[..n - |head|];
      VarintRoundTrip(|msg|, msg[..n - |head|]);
    }
  }

  /** A frame once complete stays what it is as bytes arrive behind it. */
  lemma DeframeStable(buf: Bytes, suffix: Bytes)
    requires Deframe(buf).Message?
    ensures Deframe(buf + suffix) == Deframe(buf)
  {
    UnvarintStable(buf, suffix, MAX_VARINT);
    var (len, n) := GetUvarint(buf).value;
    assert (buf + suffix)[n..n + len] == buf[n..n + len];
  }

  function Frames(msgs: seq<Bytes>): Bytes {
    if msgs == [] then [] else Frame(msgs[0]) + Frames(msgs[1..])
  }

  /** Everything complete at the front of a buffer, and what is left. */
  function Drain(buf: Bytes): (seq<Bytes>, Bytes)
    decreases |buf|
  {
    match Deframe(buf)
    case Message(msg, used) =>
      var (msgs, left) := Drain(buf[used..]);
      ([msg] + msgs, left)
    case _ => ([], buf)
  }

  lemma Associates(a: Bytes, b: Bytes, c: Bytes)
    ensures (a + b) + c == a + (b + c)
  {
  }

  lemma DrainOne(msg: Bytes, rest: Bytes)
    requires |msg| <= MAX_FRAME
    ensures Drain(Frame(msg) + rest) == ([msg] + Drain(rest).0, Drain(rest).1)
  {
    FrameRoundTrip(msg, rest);
    assert (Frame(msg) + rest)[|Frame(msg)|..] == rest;
  }

  lemma DrainNone(next: Bytes, n: nat)
    requires |next| <= MAX_FRAME && n < |Frame(next)|
    ensures Drain(Frame(next)[..n]) == ([], Frame(next)[..n])
  {
    FramePrefix(next, n);
  }

  lemma FramesStep(m: Bytes, rest: seq<Bytes>, tail: Bytes)
    requires |m| <= MAX_FRAME && Drain(Frames(rest) + tail) == (rest, tail)
    ensures Drain(Frames([m] + rest) + tail) == ([m] + rest, tail)
  {
    assert ([m] + rest)[1..] == rest;
    Associates(Frame(m), Frames(rest), tail);
    DrainOne(m, Frames(rest) + tail);
  }

  /** Concatenated frames come apart in order, and an incomplete rest is left over. */
  lemma {:induction false} FramesRoundTrip(msgs: seq<Bytes>, tail: Bytes)
    requires (forall m :: m in msgs ==> |m| <= MAX_FRAME) && Drain(tail) == ([], tail)
    ensures Drain(Frames(msgs) + tail) == (msgs, tail)
    decreases |msgs|
  {
    if msgs == [] {
      assert Frames(msgs) + tail == tail;
    } else {
      var m, rest := msgs[0], msgs[1..];
      FramesRoundTrip(rest, tail);
      FramesStep(m, rest, tail);
      assert [m] + rest == msgs;
    }
  }

  // --- fields -----------------------------------------------------------------------------------

  /** One field: its number, its wire type, its payload. */
  datatype Field = Field(number: nat, wire: nat, payload: Bytes)

  function Fields(b: Bytes): Option<seq<Field>>
    decreases |b|
  {
    if b == [] then Some([])
    else
      match GetUvarint(b)
      case None => None
      case Some((tag, n)) => FieldsAfter((tag / 8) % U32, tag % 8, b[n..])
  }

  function FieldsAfter(number: nat, wire: nat, b: Bytes): Option<seq<Field>>
    decreases |b|, 1
  {
    match PayloadEnd(wire, b)
    case None => None
    case Some((from, to)) =>
      match Fields(b[to..])
      case None => None
      case Some(fs) => Some([Field(number, wire, b[from..to])] + fs)
  }

  /** Where the payload of a field lies in the bytes after its tag. */
  function PayloadEnd(wire: nat, b: Bytes): (r: Option<(nat, nat)>)
    ensures r.Some? ==> r.value.0 <= r.value.1 <= |b|
  {
    match wire
    case 0 => (match GetUvarint(b) case None => None case Some((_, n)) => Some((0, n)))
    case 2 =>
      (match GetUvarint(b)
       case None => None
       case Some((len, n)) => if |b| < n + len then None else Some((n, n + len)))
    case 5 => if |b| < 4 then None else Some((0, 4))
    case 1 => if |b| < 8 then None else Some((0, 8))
    case _ => None
  }

  function VarintOf(payload: Bytes): nat {
    match GetUvarint(payload) case None => 0 case Some((v, _)) => v
  }

  /** Zero is omitted. */
  function VarintField(number: nat, v: nat): Bytes {
    if v == 0 then [] else Varint(8 * number) + Varint(v)
  }

  /** Empty is omitted. */
  function BytesField(number: nat, b: Bytes): Bytes {
    if b == [] then [] else Varint(8 * number + 2) + Varint(|b|) + b
  }

  function Cons(f: Field, fs: Option<seq<Field>>): Option<seq<Field>> {
    match fs case None => None case Some(s) => Some([f] + s)
  }

  lemma ReadTag(tag: nat, tail: Bytes)
    requires tag < U32
    ensures Fields(Varint(tag) + tail) == FieldsAfter(tag / 8, tag % 8, tail)
  {
    VarintRoundTrip(tag, tail);
    assert (Varint(tag) + tail)[|Varint(tag)|..] == tail;
  }

  lemma ReadVarintPayload(number: nat, v: nat, rest: Bytes)
    requires v < U64
    ensures FieldsAfter(number, 0, Varint(v) + rest) == Cons(Field(number, 0, Varint(v)), Fields(rest))
  {
    VarintRoundTrip(v, rest);
    var tail, n := Varint(v) + rest, |Varint(v)|;
    assert tail[0..n] == Varint(v) && tail[n..] == rest;
  }

  lemma BytesPayloadEnd(b: Bytes, rest: Bytes)
    requires |b| < U64
    ensures PayloadEnd(2, Varint(|b|) + (b + rest)) == Some((|Varint(|b|)|, |Varint(|b|)| + |b|))
  {
    VarintRoundTrip(|b|, b + rest);
  }

  lemma Slices(a: Bytes, b: Bytes, c: Bytes)
    ensures (a + (b + c))[|a|..|a| + |b|] == b && (a + (b + c))[|a| + |b|..] == c
  {
  }

  lemma AfterPayload(number: nat, wire: nat, b: Bytes, from: nat, to: nat)
    requires PayloadEnd(wire, b) == Some((from, to)) && from <= to <= |b|
    ensures FieldsAfter(number, wire, b) == Cons(Field(number, wire, b[from..to]), Fields(b[to..]))
  {
  }

  lemma SplitsInto(number: nat, wire: nat, tail: Bytes, from: nat, to: nat, payload: Bytes, rest: Bytes)
    requires PayloadEnd(wire, tail) == Some((from, to)) && from <= to <= |tail|
    requires tail[from..to] == payload && tail[to..] == rest
    ensures FieldsAfter(number, wire, tail) == Cons(Field(number, wire, payload), Fields(rest))
  {
    AfterPayload(number, wire, tail, from, to);
  }

  lemma ReadBytesPayload(number: nat, b: Bytes, rest: Bytes)
    requires |b| < U64
    ensures FieldsAfter(number, 2, Varint(|b|) + (b + rest)) == Cons(Field(number, 2, b), Fields(rest))
  {
    var tail, n := Varint(|b|) + (b + rest), |Varint(|b|)|;
    BytesPayloadEnd(b, rest);
    Slices(Varint(|b|), b, rest);
    SplitsInto(number, 2, tail, n, n + |b|, b, rest);
  }

  lemma ReadVarintField(number: nat, v: nat, rest: Bytes)
    requires 0 < v < U64 && 8 * number < U32
    ensures Fields(VarintField(number, v) + rest) == Cons(Field(number, 0, Varint(v)), Fields(rest))
  {
    Associates(Varint(8 * number), Varint(v), rest);
    ReadTag(8 * number, Varint(v) + rest);
    assert (8 * number) / 8 == number && (8 * number) % 8 == 0;
    ReadVarintPayload(number, v, rest);
  }

  lemma ReadBytesField(number: nat, b: Bytes, rest: Bytes)
    requires b != [] && |b| < U64 && 8 * number + 2 < U32
    ensures Fields(BytesField(number, b) + rest) == Cons(Field(number, 2, b), Fields(rest))
  {
    Associates(Varint(8 * number + 2), Varint(|b|) + b, rest);
    Associates(Varint(|b|), b, rest);
    Associates(Varint(8 * number + 2), Varint(|b|), b);
    ReadTag(8 * number + 2, Varint(|b|) + (b + rest));
    assert (8 * number + 2) / 8 == number && (8 * number + 2) % 8 == 2;
    ReadBytesPayload(number, b, rest);
  }

  lemma VarintOfVarint(v: nat)
    requires v < U64
    ensures VarintOf(Varint(v)) == v
  {
    VarintRoundTrip(v, []);
    assert Varint(v) + [] == Varint(v);
  }

  /** `done` and then the fields of what is left. */
  function Continued(done: seq<Field>, rest: Bytes): Option<seq<Field>> {
    Then(done, Fields(rest))
  }

  lemma ContinuesEmpty(b: Bytes, done: seq<Field>)
    ensures Continued([], b) == Fields(b)
    ensures Continued(done, []) == Some(done)
  {
    match Fields(b) {
      case None =>
      case Some(fs) => assert [] + fs == fs;
    }
    assert done + [] == done;
  }

  lemma ContinuesOne(done: seq<Field>, f: Field, b: Bytes, from: nat, to: nat)
    requires PayloadEnd(f.wire, b) == Some((from, to)) && from <= to <= |b| && f.payload == b[from..to]
    ensures Then(done, FieldsAfter(f.number, f.wire, b)) == Continued(done + [f], b[to..])
  {
    AfterPayload(f.number, f.wire, b, from, to);
    match Fields(b[to..]) {
      case None =>
      case Some(fs) => assert done + ([f] + fs) == (done + [f]) + fs;
    }
  }

  function Then(a: seq<Field>, b: Option<seq<Field>>): Option<seq<Field>> {
    match b case None => None case Some(fs) => Some(a + fs)
  }

  /** The source's loop over a message, field by field. */
  method ReadFields(b: Bytes) returns (r: Option<seq<Field>>)
    ensures r == Fields(b)
  {
    var rest, done := b, [];
    ContinuesEmpty(b, []);
    while rest != []
      invariant Continued(done, rest) == Fields(b)
      decreases |rest|
    {
      var tag := ReadUvarint(rest);
      if tag.None? {
        return None;
      }
      var (t, n) := tag.value;
      var number, wire, tail := (t / 8) % U32, t % 8, rest[n..];
      var end := PayloadEnd(wire, tail);
      if end.None? {
        assert FieldsAfter(number, wire, tail) == None;
        return None;
      }
      var (from, to) := end.value;
      ContinuesOne(done, Field(number, wire, tail[from..to]), tail, from, to);
      done := done + [Field(number, wire, tail[from..to])];
      rest := tail[to..];
    }
    ContinuesEmpty(b, done);
    r := Some(done);
  }
}
