/** Writing fields into a buffer from the back, as every generated MarshalToSizedBuffer does. */
module WireWriter {
  import opened Wrappers
  import opened Varint
  import opened Wire

  // ------------------------------------------------------------------ optional and repeated fields

  /** Zero and empty values are left out. */
  function NumField(num: nat, x: Uint64): (fs: seq<Field>)
    requires 1 <= num <= 15
    ensures AllValid(fs)
  {
    if x == 0 then [] else [Field(num, Num(x))]
  }

  function BlobField(num: nat, b: Small): (fs: seq<Field>)
    requires 1 <= num <= 15
    ensures AllValid(fs)
  {
    if b == [] then [] else [Field(num, Blob(b))]
  }

  /** Every element is written, empty ones too. */
  function Repeated(num: nat, bs: seq<Small>): (fs: seq<Field>)
    requires 1 <= num <= 15
    ensures AllValid(fs) && |fs| == |bs| && forall i :: 0 <= i < |fs| ==> fs[i] == Field(num, Blob(bs[i]))
  {
    seq(|bs|, i requires 0 <= i < |bs| => Field(num, Blob(bs[i])))
  }

  // ------------------------------------------------------------------ sizes

  function NumSize(x: Uint64): nat { if x == 0 then 0 else 1 + Sov(x) }

  function SizedSize(l: nat): nat { 1 + l + Sov(l) }

  function BlobSize(b: Small): nat { if |b| > 0 then SizedSize(|b|) else 0 }

  function RepeatedSize(bs: seq<Small>): nat {
    if bs == [] then 0 else SizedSize(|bs[0]|) + RepeatedSize(bs[1..])
  }

  lemma FieldSize(f: Field)
    requires ValidField(f)
    ensures |FieldsWire([f])| == |FieldWire(f)|
    ensures |FieldWire(f)| == match f.value case Num(x) => 1 + Sov(x) case Blob(b) => SizedSize(|b|)
  {
    SovIsLength(match f.value case Num(x) => x case Blob(b) => |b|);
    assert [f][1..] == [];
  }

  lemma NumFieldSize(num: nat, x: Uint64)
    requires 1 <= num <= 15
    ensures |FieldsWire(NumField(num, x))| == NumSize(x)
  {
    FieldSize(Field(num, Num(x)));
  }

  lemma BlobFieldSize(num: nat, b: Small)
    requires 1 <= num <= 15
    ensures |FieldsWire(BlobField(num, b))| == BlobSize(b)
  {
    FieldSize(Field(num, Blob(b)));
  }

  lemma {:induction false} RepeatedFieldSize(num: nat, bs: seq<Small>)
    requires 1 <= num <= 15
    ensures |FieldsWire(Repeated(num, bs))| == RepeatedSize(bs)
  {
    if bs == [] {
    } else {
      var fs := Repeated(num, bs);
      FieldSize(Field(num, Blob(bs[0])));
      RepeatedFieldSize(num, bs[1..]);
      assert fs[1..] == Repeated(num, bs[1..]);
    }
  }

  /** Fields that follow are not longer than the whole. */
  lemma Shorter(x: seq<Field>, rest: seq<Field>)
    requires AllValid(x) && AllValid(rest)
    ensures AllValid(x + rest) && |FieldsWire(x + rest)| == |FieldsWire(x)| + |FieldsWire(rest)|
  {
    FieldsWireAppend(x, rest);
  }

  // ------------------------------------------------------------------ writing

  /** The buffer holds `body` between `i` and `end` and is otherwise as it was. */
  predicate Holds(now: Bytes, was: Bytes, i: nat, end: nat, body: Bytes) {
    i + |body| == end <= |was| && now == was[..i] + body + was[end..]
  }

  predicate Written(now: Bytes, was: Bytes, i: nat, end: nat, fs: seq<Field>) {
    AllValid(fs) && Holds(now, was, i, end, FieldsWire(fs))
  }

  lemma NothingWritten(was: Bytes, end: nat)
    requires end <= |was|
    ensures Written(was, was, end, end, [])
  {
  }

  lemma FieldFirst(f: Field, fs: seq<Field>)
    requires ValidField(f) && AllValid(fs)
    ensures AllValid([f] + fs) && FieldsWire([f] + fs) == FieldWire(f) + FieldsWire(fs)
  {
    assert ([f] + fs)[1..] == fs;
  }

  lemma HoldsBefore(now: Bytes, was: Bytes, mid: Bytes, at: nat, end: nat, body: Bytes, x: Bytes)
    requires |x| <= at && Holds(mid, was, at, end, body) && now == mid[..at - |x|] + x + mid[at..]
    ensures Holds(now, was, at - |x|, end, x + body)
  {
    assert mid[..at - |x|] == was[..at - |x|];
    assert mid[at..] == body + was[end..];
  }

  method PutVarint(dAtA: array<Byte>, at: nat, end: nat, v: Uint64, ghost was: Bytes,
                   ghost body: Bytes) returns (i: nat)
    requires Holds(dAtA[..], was, at, end, body) && Sov(v) <= at
    modifies dAtA
    ensures i == at - Sov(v) && Holds(dAtA[..], was, i, end, Encode(v) + body)
  {
    ghost var mid := dAtA[..];
    SovIsLength(v);
    i := EncodeVarint(dAtA, at, v);
    assert mid[..i] == old(dAtA[..i]) && mid[at..] == old(dAtA[at..]);
    HoldsBefore(dAtA[..], was, mid, at, end, body, Encode(v));
  }

  method PutTag(dAtA: array<Byte>, at: nat, end: nat, tag: Byte, ghost was: Bytes, ghost body: Bytes) returns (i: nat)
    requires Holds(dAtA[..], was, at, end, body) && 1 <= at
    modifies dAtA
    ensures i == at - 1 && Holds(dAtA[..], was, i, end, [tag] + body)
  {
    ghost var mid := dAtA[..];
    i := at - 1;
    dAtA[i] := tag;
    assert dAtA[..] == mid[..i] + [tag] + mid[at..];
    HoldsBefore(dAtA[..], was, mid, at, end, body, [tag]);
  }

  /** A varint field; left out when it is zero. */
  method WriteNum(dAtA: array<Byte>, at: nat, end: nat, num: nat, x: Uint64, ghost was: Bytes, ghost fs: seq<Field>)
    returns (i: nat)
    requires 1 <= num <= 15 && Written(dAtA[..], was, at, end, fs)
    requires NumSize(x) <= at
    modifies dAtA
    ensures Written(dAtA[..], was, i, end, NumField(num, x) + fs)
  {
    i := at;
    if x != 0 {
      ghost var f := Field(num, Num(x));
      FieldFirst(f, fs);
      i := PutVarint(dAtA, i, end, x, was, FieldsWire(fs));
      i := PutTag(dAtA, i, end, 8 * num, was, Encode(x) + FieldsWire(fs));
      assert [FieldTag(f)] + (Encode(x) + FieldsWire(fs)) == FieldWire(f) + FieldsWire(fs);
    } else {
      assert NumField(num, x) + fs == fs;
    }
  }

  lemma Regroup(a: Bytes, b: Bytes, c: Bytes, d: Bytes)
    ensures a + (b + (c + d)) == (a + (b + c)) + d
  {
  }

  /** Length and tag in front of a payload that is in place. */
  method CloseSized(dAtA: array<Byte>, at: nat, end: nat, num: nat, ghost b: Small, size: nat,
                    ghost was: Bytes, ghost fs: seq<Field>) returns (i: nat)
    requires 1 <= num <= 15 && AllValid(fs) && size == |b|
    requires Holds(dAtA[..], was, at, end, b + FieldsWire(fs))
    requires 1 + Sov(size) <= at
    modifies dAtA
    ensures Written(dAtA[..], was, i, end, [Field(num, Blob(b))] + fs)
  {
    ghost var f := Field(num, Blob(b));
    ghost var body := b + FieldsWire(fs);
    FieldFirst(f, fs);
    i := PutVarint(dAtA, at, end, size, was, body);
    i := PutTag(dAtA, i, end, 8 * num + 2, was, Encode(size) + body);
    Regroup([FieldTag(f)], Encode(size), b, FieldsWire(fs));
  }

  method Copy(dAtA: array<Byte>, i: nat, b: Bytes)
    requires i + |b| <= dAtA.Length
    modifies dAtA
    ensures dAtA[..] == old(dAtA[..i]) + b + old(dAtA[i + |b|..])
  {
    for k := 0 to |b|
      invariant dAtA[..i] == old(dAtA[..i]) && dAtA[i + |b|..] == old(dAtA[i + |b|..])
      invariant dAtA[i..i + k] == b[..k]
    {
      dAtA[i + k] := b[k];
      assert dAtA[i..i + k + 1] == dAtA[i..i + k] + [b[k]];
    }
    assert dAtA[..] == dAtA[..i] + dAtA[i..i + |b|] + dAtA[i + |b|..];
  }

  /** A length-delimited field, also when it is empty. */
  method WriteSized(dAtA: array<Byte>, at: nat, end: nat, num: nat, b: Small, ghost was: Bytes, ghost fs: seq<Field>)
    returns (i: nat)
    requires 1 <= num <= 15 && Written(dAtA[..], was, at, end, fs)
    requires SizedSize(|b|) <= at
    modifies dAtA
    ensures Written(dAtA[..], was, i, end, [Field(num, Blob(b))] + fs)
  {
    ghost var mid := dAtA[..];
    i := at - |b|;
    Copy(dAtA, i, b);
    assert dAtA[..] == mid[..i] + b + mid[at..];
    HoldsBefore(dAtA[..], was, mid, at, end, FieldsWire(fs), b);
    i := CloseSized(dAtA, i, end, num, b, |b|, was, fs);
  }

  method WriteBlob(dAtA: array<Byte>, at: nat, end: nat, num: nat, b: Small, ghost was: Bytes, ghost fs: seq<Field>)
    returns (i: nat)
    requires 1 <= num <= 15 && Written(dAtA[..], was, at, end, fs)
    requires BlobSize(b) <= at
    modifies dAtA
    ensures Written(dAtA[..], was, i, end, BlobField(num, b) + fs)
  {
    i := at;
    if |b| > 0 {
      i := WriteSized(dAtA, i, end, num, b, was, fs);
    } else {
      assert BlobField(num, b) + fs == fs;
    }
  }

  method WriteRepeated(dAtA: array<Byte>, at: nat, end: nat, num: nat, bs: seq<Small>, ghost was: Bytes,
                       ghost fs: seq<Field>)
    returns (i: nat)
    requires 1 <= num <= 15 && Written(dAtA[..], was, at, end, fs)
    requires RepeatedSize(bs) <= at
    modifies dAtA
    ensures Written(dAtA[..], was, i, end, Repeated(num, bs) + fs)
  {
    i := at;
    assert Repeated(num, bs[|bs|..]) + fs == fs;
    for iNdEx := |bs| downto 0
      invariant Written(dAtA[..], was, i, end, Repeated(num, bs[iNdEx..]) + fs)
      invariant i == at - RepeatedSize(bs[iNdEx..])
    {
      ghost var rest := Repeated(num, bs[iNdEx + 1..]) + fs;
      RepeatedSizeSuffix(bs, iNdEx);
      i := WriteSized(dAtA, i, end, num, bs[iNdEx], was, rest);
      assert [Field(num, Blob(bs[iNdEx]))] + rest == Repeated(num, bs[iNdEx..]) + fs;
      FieldFirst(Field(num, Blob(bs[iNdEx])), rest);
      FieldSize(Field(num, Blob(bs[iNdEx])));
    }
    assert bs[0..] == bs;
  }

  lemma {:induction false} RepeatedSizeSuffix(bs: seq<Small>, k: nat)
    requires k < |bs|
    ensures RepeatedSize(bs[k..]) == SizedSize(|bs[k]|) + RepeatedSize(bs[k + 1..]) <= RepeatedSize(bs)
  {
    assert bs[k..][0] == bs[k] && bs[k..][1..] == bs[k + 1..];
    if k > 0 {
      RepeatedSizeSuffix(bs, k - 1);
    } else {
      assert bs[0..] == bs;
    }
  }
}
