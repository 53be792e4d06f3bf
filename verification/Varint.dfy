/** Base 128 varints of the Protocol Buffers encoding: the encoder that fills a buffer from the
    back, the size it reserves, and the decoder shared by all generated parsers. */
module Varint {
  import opened Wrappers

  type Byte = b: int | 0 <= b < 256
  type Bytes = seq<Byte>

  const TWO32: nat := 0x1_0000_0000
  const TWO63: nat := 0x8000_0000_0000_0000
  const TWO64: nat := 0x1_0000_0000_0000_0000

  type Uint64 = x: int | 0 <= x < TWO64

  datatype Error =
    | IntOverflow
    | UnexpectedEOF
    | InvalidLength
    | EndGroup
    | IllegalTag
    | WrongWireType
    | UnexpectedEndOfGroup
    | IllegalWireType

  // ------------------------------------------------------------------ specification

  /** The canonical varint: seven bits a byte, least significant first. */
  function Encode(v: nat): (b: Bytes)
    ensures |b| >= 1
  {
    if v < 128 then [v] else [v % 128 + 128] + Encode(v / 128)
  }

  /** The varint at the start of `b`, where `k` bytes were read before: its unreduced value and
      its length.  A value may span ten bytes. */
  function Scan(b: Bytes, k: nat): (r: Result<(nat, nat), Error>)
    ensures r.Ok? ==> 1 <= r.value.1 <= |b|
    decreases |b|
  {
    if k >= 10 then Err(IntOverflow)
    else if b == [] then Err(UnexpectedEOF)
    else if b[0] < 128 then Ok((b[0], 1))
    else
      var rest := Scan(b[1..], k + 1);
      if rest.Err? then rest else Ok((b[0] - 128 + 128 * rest.value.0, rest.value.1 + 1))
  }

  /** What a parser reads into a 64-bit variable. */
  function Decode(b: Bytes): (r: Result<(Uint64, nat), Error>)
    ensures r.Ok? ==> 1 <= r.value.1 <= |b|
  {
    var r := Scan(b, 0);
    if r.Err? then Err(r.error) else Ok((r.value.0 % TWO64, r.value.1))
  }

  /** The number of bits of `x`. */
  function Len64(x: nat): nat { if x == 0 then 0 else 1 + Len64(x / 2) }

  /** The bytes reserved for a varint; `x + 1 - x % 2` is `x | 1`. */
  function Sov(x: nat): nat { (Len64(x + 1 - x % 2) + 6) / 7 }

  // ------------------------------------------------------------------ size

  lemma {:induction false} Len64Or1(x: nat)
    requires x >= 1
    ensures Len64(x + 1 - x % 2) == Len64(x)
  {
    assert (x + 1 - x % 2) / 2 == x / 2;
  }

  lemma {:induction false} Len64Small(x: nat)
    requires x < 128
    ensures Len64(x) <= 7
  {
    var a := x / 2;
    var b := a / 2;
    var c := b / 2;
    var d := c / 2;
    var e := d / 2;
    var f := e / 2;
    assert x == 0 || Len64(x) == 1 + Len64(a);
    assert a == 0 || Len64(a) == 1 + Len64(b);
    assert b == 0 || Len64(b) == 1 + Len64(c);
    assert c == 0 || Len64(c) == 1 + Len64(d);
    assert d == 0 || Len64(d) == 1 + Len64(e);
    assert e == 0 || Len64(e) == 1 + Len64(f);
    assert f / 2 == 0;
  }

  lemma {:induction false} Len64Shift(x: nat)
    requires x >= 128
    ensures Len64(x) == 7 + Len64(x / 128)
  {
    var a := x / 2;
    var b := a / 2;
    var c := b / 2;
    var d := c / 2;
    var e := d / 2;
    var f := e / 2;
    assert f / 2 == x / 128;
    assert Len64(x) == 1 + Len64(a);
    assert Len64(a) == 1 + Len64(b);
    assert Len64(b) == 1 + Len64(c);
    assert Len64(c) == 1 + Len64(d);
    assert Len64(d) == 1 + Len64(e);
    assert Len64(e) == 1 + Len64(f);
    assert Len64(f) == 1 + Len64(f / 2);
  }

  /** A varint takes exactly the bytes that are reserved for it. */
  lemma {:induction false} SovIsLength(v: nat)
    ensures |Encode(v)| == Sov(v)
  {
    if v < 128 {
      Len64Small(v + 1 - v % 2);
      assert Len64(v + 1 - v % 2) >= 1;
    } else {
      SovShift(v);
      SovIsLength(v / 128);
    }
  }

  lemma SovShift(v: nat)
    requires v >= 128
    ensures Sov(v) == 1 + Sov(v / 128)
  {
    Len64Or1(v);
    Len64Shift(v);
    Len64Or1(v / 128);
  }

  // ------------------------------------------------------------------ round trip

  function Pow128(n: nat): (p: nat)
    ensures p >= 1
  {
    if n == 0 then 1 else 128 * Pow128(n - 1)
  }

  lemma {:induction false} EncodeBound(v: nat, n: nat)
    requires n >= 1 && v < Pow128(n)
    ensures 1 <= |Encode(v)| <= n
  {
    if v < 128 {
    } else {
      assert Pow128(1) == 128 * Pow128(0);
      EncodeBound(v / 128, n - 1);
    }
  }

  lemma {:induction false} ScanEncode(v: nat, rest: Bytes, k: nat)
    requires k + |Encode(v)| <= 10
    ensures Scan(Encode(v) + rest, k) == Ok((v, |Encode(v)|))
  {
    if v >= 128 {
      assert (Encode(v) + rest)[1..] == Encode(v / 128) + rest;
      ScanEncode(v / 128, rest, k + 1);
    } else {
      assert (Encode(v) + rest)[0] == v;
    }
  }

  lemma TenBytes()
    ensures TWO64 < Pow128(10)
  {
    assert Pow128(1) == 0x80 && Pow128(2) == 0x4000 && Pow128(3) == 0x20_0000 && Pow128(4) == 0x1000_0000;
    assert Pow128(5) == 0x8_0000_0000 && Pow128(6) == 0x400_0000_0000 && Pow128(7) == 0x2_0000_0000_0000;
    assert Pow128(8) == 0x100_0000_0000_0000 && Pow128(9) == 0x8000_0000_0000_0000;
    assert Pow128(10) == 128 * Pow128(9);
  }

  lemma ModSmall(v: Uint64)
    ensures v % TWO64 == v
  {
  }

  /** Decoding what was encoded gives the value back and consumes exactly its bytes, whatever
      follows. */
  lemma DecodeEncode(v: Uint64, rest: Bytes)
    ensures Decode(Encode(v) + rest) == Ok((v, |Encode(v)|)) && 1 <= |Encode(v)| == Sov(v) <= 10
  {
    TenBytes();
    EncodeBound(v, 10);
    ScanEncode(v, rest, 0);
    ModSmall(v);
    SovIsLength(v);
  }

  /** Any varint of at most ten bytes, canonical or not. */
  predicate IsVarint(b: Bytes) {
    && 1 <= |b| <= 10 && b[|b| - 1] < 128
    && forall i :: 0 <= i < |b| - 1 ==> b[i] >= 128
  }

  lemma {:induction false} ScanIsVarint(b: Bytes, rest: Bytes, k: nat)
    requires 1 <= |b| && k + |b| <= 10 && b[|b| - 1] < 128 && forall i :: 0 <= i < |b| - 1 ==> b[i] >= 128
    ensures Scan(b + rest, k).Ok? && Scan(b + rest, k).value.1 == |b|
  {
    if |b| <= 1 {
    } else {
      assert (b + rest)[1..] == b[1..] + rest;
      ScanIsVarint(b[1..], rest, k + 1);
    }
  }

  /** Byte `i` of a varint holds bits 7i to 7i + 6, and the high bit says whether more follow; there
      is no superfluous last byte. */
  lemma {:induction false} EncodeDigits(v: nat, i: nat)
    requires i < |Encode(v)|
    ensures Encode(v)[i] == v / Pow128(i) % 128 + if i + 1 < |Encode(v)| then 128 else 0
    ensures |Encode(v)| > 1 ==> Encode(v)[|Encode(v)| - 1] != 0
  {
    if v < 128 {
      assert Pow128(0) == 1;
    } else {
      var rest := Encode(v / 128);
      assert Encode(v) == [v % 128 + 128] + rest;
      EncodeDigits(v / 128, if i == 0 then 0 else i - 1);
      if i == 0 {
        assert v / Pow128(0) == v;
      } else {
        DivDiv(v, Pow128(i - 1));
      }
    }
  }

  lemma DivDiv(v: nat, p: nat)
    requires p > 0
    ensures v / 128 / p == v / (128 * p)
  {
    var q := v / 128 / p;
    var r := v / 128 % p;
    var low := 128 * r + v % 128;
    assert v / 128 == p * q + r;
    Distribute(p, q, r);
    assert v == 128 * p * q + low && low < 128 * p;
    DivUnique(v, 128 * p, q, low);
  }

  lemma Distribute(p: nat, q: nat, r: nat)
    ensures 128 * (p * q + r) == 128 * p * q + 128 * r
  {
  }

  lemma DivUnique(v: nat, d: nat, q: nat, r: nat)
    requires v == d * q + r && r < d
    ensures v / d == q
  {
    var q' := v / d;
    SameQuotient(d, q', v % d, q, r);
  }

  lemma SameQuotient(d: nat, q: nat, r: nat, q': nat, r': nat)
    requires d * q + r == d * q' + r' && r < d && r' < d
    ensures q == q'
  {
    if q < q' {
      AtLeastOnce(d, q, q');
    } else if q' < q {
      AtLeastOnce(d, q', q);
    }
  }

  lemma {:induction false} AtLeastOnce(d: nat, q: nat, q': nat)
    requires q < q'
    ensures d * q + d <= d * q'
    decreases q'
  {
    if q + 1 < q' {
      AtLeastOnce(d, q, q' - 1);
    }
    assert d * q' == d * (q' - 1) + d;
  }

  /** The two errors of the decoder: ten bytes that all ask for more, or an end before that. */
  lemma {:induction false} ScanExactly(b: Bytes, k: nat)
    requires k <= 10
    ensures Scan(b, k) == Err(IntOverflow) <==> k + |b| >= 10 && forall i :: 0 <= i < 10 - k ==> b[i] >= 128
    ensures Scan(b, k) == Err(UnexpectedEOF) <==> k + |b| < 10 && forall i :: 0 <= i < |b| ==> b[i] >= 128
    ensures Scan(b, k).Ok? ==> var n := Scan(b, k).value.1;
              && k + n <= 10 && b[n - 1] < 128 && forall i :: 0 <= i < n - 1 ==> b[i] >= 128
    ensures Scan(b, k).Ok? || Scan(b, k) == Err(IntOverflow) || Scan(b, k) == Err(UnexpectedEOF)
  {
    if k < 10 && b != [] && b[0] >= 128 {
      var t := b[1..];
      ScanExactly(t, k + 1);
      assert forall i :: 0 <= i < |t| ==> t[i] == b[i + 1];
      assert forall i :: 1 <= i < |b| ==> b[i] == t[i - 1];
    }
  }

  /** What follows a complete varint does not matter. */
  lemma {:induction false} ScanAppend(b: Bytes, rest: Bytes, k: nat)
    requires Scan(b, k).Ok?
    ensures Scan(b + rest, k) == Scan(b, k)
    decreases |b|
  {
    if b[0] >= 128 {
      assert (b + rest)[1..] == b[1..] + rest;
      ScanAppend(b[1..], rest, k + 1);
    }
  }

  // ------------------------------------------------------------------ the code

  /** Write `v` so that it ends at `offset`; returns where it starts. */
  method EncodeVarint(dAtA: array<Byte>, offset: nat, v: Uint64) returns (base: nat)
    requires Sov(v) <= offset <= dAtA.Length
    modifies dAtA
    ensures base == offset - Sov(v)
    ensures dAtA[..] == old(dAtA[..base]) + Encode(v) + old(dAtA[offset..])
  {
    SovIsLength(v);
    base := offset - Sov(v);
    var i, x: nat := base, v;
    ghost var was, done: Bytes := dAtA[..], [];
    assert was == was[..base] + [] + was[base..];
    while x >= 128
      invariant i == base + |done| && i + |Encode(x)| == offset
      invariant done + Encode(x) == Encode(v)
      invariant dAtA[..] == was[..base] + done + was[i..]
    {
      EncodeStep(done, x);
      ghost var b := x % 128 + 128;
      PutByte(dAtA, i, x % 128 + 128, was, base, done);
      done := done + [b];
      x := x / 128;
      i := i + 1;
    }
    PutByte(dAtA, i, x, was, base, done);
    assert Encode(x) == [x];
  }

  lemma EncodeStep(done: Bytes, x: nat)
    requires x >= 128
    ensures done + Encode(x) == (done + [x % 128 + 128]) + Encode(x / 128)
    ensures |Encode(x)| == 1 + |Encode(x / 128)|
  {
  }

  method PutByte(dAtA: array<Byte>, i: nat, b: Byte, ghost was: Bytes, ghost base: nat, ghost done: Bytes)
    requires i == base + |done| && i < dAtA.Length == |was|
    requires dAtA[..] == was[..base] + done + was[i..]
    modifies dAtA
    ensures dAtA[..] == was[..base] + (done + [b]) + was[i + 1..]
  {
    Overwritten(was, base, done, b);
    dAtA[i] := b;
  }

  lemma Overwritten(was: Bytes, base: nat, done: Bytes, x: Byte)
    requires base + |done| < |was|
    ensures (was[..base] + done + was[base + |done|..])[base + |done| := x]
              == was[..base] + (done + [x]) + was[base + |done| + 1..]
  {
  }

  /** The parsers' loop: `unit` is two to the power of the shift. */
  function ScanFrom(b: Bytes, k: nat, sum: nat, unit: nat): Result<(nat, nat), Error>
    decreases |b|
  {
    if k >= 10 then Err(IntOverflow)
    else if b == [] then Err(UnexpectedEOF)
    else
      var next := sum + b[0] % 128 * unit;
      if b[0] < 128 then Ok((next, k + 1)) else ScanFrom(b[1..], k + 1, next, 128 * unit)
  }

  lemma Regroup(sum: nat, unit: nat, low: nat, x: nat)
    ensures sum + low * unit + 128 * unit * x == sum + unit * (low + 128 * x)
  {
    assert unit * (low + 128 * x) == unit * low + unit * (128 * x);
    assert unit * (128 * x) == 128 * unit * x;
  }

  lemma {:induction false} ScanFromIsScan(b: Bytes, k: nat, sum: nat, unit: nat)
    ensures ScanFrom(b, k, sum, unit) == match Scan(b, k)
                                         case Err(e) => Err(e)
                                         case Ok((x, n)) => Ok((sum + unit * x, k + n))
    decreases |b|
  {
    if k < 10 && b != [] && b[0] >= 128 {
      var low := b[0] - 128;
      assert b[0] % 128 == low;
      ScanFromIsScan(b[1..], k + 1, sum + low * unit, 128 * unit);
      var rest := Scan(b[1..], k + 1);
      if rest.Ok? { Regroup(sum, unit, low, rest.value.0); }
    }
  }

  lemma DecodeIsScanFrom(b: Bytes)
    ensures Decode(b) == match ScanFrom(b, 0, 0, 1)
                         case Err(e) => Err(e)
                         case Ok((x, n)) => Ok((x % TWO64, n))
  {
    ScanFromIsScan(b, 0, 0, 1);
  }

  lemma ModAdd(a: nat, b: nat)
    ensures (a % TWO64 + b) % TWO64 == (a + b) % TWO64
  {
    var q := a / TWO64;
    assert a == q * TWO64 + a % TWO64;
    ModPeriod(a % TWO64 + b, q);
  }

  lemma {:induction false} ModPeriod(x: nat, q: nat)
    ensures (x + q * TWO64) % TWO64 == x % TWO64
  {
    if q == 0 {
    } else {
      ModPeriod(x, q - 1);
      assert x + q * TWO64 == (x + (q - 1) * TWO64) + TWO64;
    }
  }

  /** Read a varint at `start`; returns its value and the index after it.  The bits are
      disjoint, so the source's `|=` is an addition; a 64-bit shift drops the excess. */
  method DecodeVarint(dAtA: Bytes, start: nat) returns (r: Result<(Uint64, nat), Error>)
    requires start <= |dAtA|
    ensures r == match Decode(dAtA[start..])
                 case Err(e) => Err(e)
                 case Ok((v, n)) => Ok((v, start + n))
  {
    var iNdEx, shift := start, 0;
    var v, unit: nat := 0, 1;
    ghost var sum: nat, k: nat := 0, 0;
    ghost var all := ScanFrom(dAtA[start..], 0, 0, 1);
    DecodeIsScanFrom(dAtA[start..]);
    while true
      invariant iNdEx == start + k <= |dAtA| && shift == 7 * k && k <= 10
      invariant v == sum % TWO64 && all == ScanFrom(dAtA[iNdEx..], k, sum, unit)
      decreases |dAtA| - iNdEx
    {
      if shift >= 64 { return Err(IntOverflow); }
      if iNdEx >= |dAtA| { return Err(UnexpectedEOF); }
      var b := dAtA[iNdEx];
      assert dAtA[iNdEx..][0] == b && dAtA[iNdEx..][1..] == dAtA[iNdEx + 1..];
      iNdEx := iNdEx + 1;
      ghost var low := b % 128 * unit;
      ModAdd(sum, low);
      v := (v + b % 128 * unit) % TWO64;
      sum := sum + low;
      k := k + 1;
      if b < 128 {
        return Ok((v, iNdEx));
      }
      unit := 128 * unit;
      shift := shift + 7;
    }
  }
}
