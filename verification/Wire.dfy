/** The message structure of the Protocol Buffers encoding: tagged fields, unknown fields and
    the parser loop that every generated Unmarshal consists of. */
module Wire {
  import opened Wrappers
  import opened Varint

  /** A byte slice or string of the source; its length is a signed 64-bit integer. */
  type Small = b: Bytes | |b| < TWO63

  datatype Value = Num(raw: Uint64) | Blob(bytes: Small)

  datatype Field = Field(num: nat, value: Value)

  /** What this package's messages use: tags of one byte. */
  predicate ValidField(f: Field) { 1 <= f.num <= 15 }

  function FieldTag(f: Field): Byte
    requires ValidField(f)
  {
    8 * f.num + if f.value.Num? then 0 else 2
  }

  function FieldWire(f: Field): Bytes
    requires ValidField(f)
  {
    [FieldTag(f)] + match f.value
                    case Num(x) => Encode(x)
                    case Blob(b) => Encode(|b|) + b
  }

  predicate AllValid(fs: seq<Field>) { forall i :: 0 <= i < |fs| ==> ValidField(fs[i]) }

  function FieldsWire(fs: seq<Field>): Bytes
    requires AllValid(fs)
  {
    if fs == [] then [] else FieldWire(fs[0]) + FieldsWire(fs[1..])
  }

  lemma {:induction false} FieldsWireAppend(x: seq<Field>, y: seq<Field>)
    requires AllValid(x) && AllValid(y)
    ensures AllValid(x + y) && FieldsWire(x + y) == FieldsWire(x) + FieldsWire(y)
    decreases |x|
  {
    if x == [] {
      assert x + y == y;
    } else {
      assert (x + y)[1..] == x[1..] + y && (x + y)[0] == x[0];
      FieldsWireAppend(x[1..], y);
      assert FieldsWire(x + y) == FieldWire(x[0]) + (FieldsWire(x[1..]) + FieldsWire(y));
    }
  }

  // ------------------------------------------------------------------ skipping a field

  function ToInt32(x: nat): int { if x % TWO32 >= TWO32 / 2 then x % TWO32 - TWO32 else x % TWO32 }

  /** One wire element inside `depth` open groups: its length, which may point past the end of
      `b`, and the depth after it.  `n` bytes of tag were read. */
  function Element(b: Bytes, n: nat, wireType: nat, depth: nat): (r: Result<(nat, nat), Error>)
    requires 1 <= n <= |b|
    ensures r.Ok? ==> r.value.0 >= n
  {
    match wireType
    case 0 => var v := Decode(b[n..]); if v.Err? then Err(v.error) else Ok((n + v.value.1, depth))
    case 1 => Ok((n + 8, depth))
    case 2 =>
      var v := Decode(b[n..]);
      if v.Err? then Err(v.error)
      else if v.value.0 >= TWO63 then Err(InvalidLength)
      else Ok((n + v.value.1 + v.value.0, depth))
    case 3 => Ok((n, depth + 1))
    case 4 => if depth == 0 then Err(UnexpectedEndOfGroup) else Ok((n, depth - 1))
    case 5 => Ok((n + 4, depth))
    case _ => Err(IllegalWireType)
  }

  /** An element with its tag. */
  function Tagged(b: Bytes, depth: nat): (r: Result<(nat, nat), Error>)
    ensures r.Ok? ==> r.value.0 >= 1
  {
    var t := Decode(b);
    if t.Err? then Err(t.error) else Element(b, t.value.1, t.value.0 % 8, depth)
  }

  function After(n: nat, r: Result<nat, Error>): Result<nat, Error> {
    if r.Err? then r else Ok(n + r.value)
  }

  /** The length of the field at the start of `b`, groups included. */
  function Skip(b: Bytes, depth: nat): (r: Result<nat, Error>)
    ensures r.Ok? ==> r.value >= 1
    decreases |b|
  {
    if b == [] then Err(UnexpectedEOF) else
    var e := Tagged(b, depth);
    if e.Err? then Err(e.error)
    else if e.value.1 == 0 then Ok(e.value.0)
    else if e.value.0 >= |b| then Err(UnexpectedEOF)
    else After(e.value.0, Skip(b[e.value.0..], e.value.1))
  }

  /** A result counted from the start of a suffix, counted from the start of the whole. */
  function Shifted<T>(at: nat, r: Result<(nat, T), Error>): Result<(nat, T), Error> {
    if r.Err? then r else Ok((at + r.value.0, r.value.1))
  }

  method SkipElement(dAtA: Bytes, at: nat, wireType: nat, depth: nat, ghost from: nat)
    returns (r: Result<(nat, nat), Error>)
    requires from < at <= |dAtA|
    ensures r == Shifted(from, Element(dAtA[from..], at - from, wireType, depth))
  {
    ghost var here := dAtA[from..];
    assert here[at - from..] == dAtA[at..];
    match wireType {
      case 0 =>
        var v := DecodeVarint(dAtA, at);
        if v.Err? { return Err(v.error); }
        return Ok((v.value.1, depth));
      case 1 => return Ok((at + 8, depth));
      case 2 =>
        var v := DecodeVarint(dAtA, at);
        if v.Err? { return Err(v.error); }
        if v.value.0 >= TWO63 { return Err(InvalidLength); }
        return Ok((v.value.1 + v.value.0, depth));
      case 3 => return Ok((at, depth + 1));
      case 4 =>
        if depth == 0 { return Err(UnexpectedEndOfGroup); }
        return Ok((at, depth - 1));
      case 5 => return Ok((at + 4, depth));
      case _ => return Err(IllegalWireType);
    }
  }

  /** Skipping from index `i` on. */
  function SkipAt(dAtA: Bytes, i: nat, depth: nat): Result<nat, Error> {
    if i < |dAtA| then After(i, Skip(dAtA[i..], depth)) else Err(UnexpectedEOF)
  }

  lemma SkipAtStep(dAtA: Bytes, i: nat, depth: nat)
    requires i < |dAtA|
    ensures var e := Shifted(i, Tagged(dAtA[i..], depth));
            SkipAt(dAtA, i, depth) == if e.Err? then Err(e.error) else if e.value.1 == 0 then Ok(e.value.0)
                                      else SkipAt(dAtA, e.value.0, e.value.1)
  {
    var e := Tagged(dAtA[i..], depth);
    if e.Ok? && i + e.value.0 < |dAtA| {
      assert dAtA[i..][e.value.0..] == dAtA[i + e.value.0..];
    }
  }

  /** skipFabricmsp. */
  method SkipField(dAtA: Bytes) returns (r: Result<nat, Error>)
    ensures r == Skip(dAtA, 0)
  {
    var iNdEx: nat, depth: nat := 0, 0;
    assert dAtA[0..] == dAtA;
    while iNdEx < |dAtA|
      invariant Skip(dAtA, 0) == SkipAt(dAtA, iNdEx, depth)
      decreases |dAtA| - iNdEx
    {
      SkipAtStep(dAtA, iNdEx, depth);
      var t := DecodeVarint(dAtA, iNdEx);
      if t.Err? { return Err(t.error); }
      var e := SkipElement(dAtA, t.value.1, t.value.0 % 8, depth, iNdEx);
      if e.Err? { return Err(e.error); }
      iNdEx, depth := e.value.0, e.value.1;
      if depth == 0 { return Ok(iNdEx); }
    }
    return Err(UnexpectedEOF);
  }

  // ------------------------------------------------------------------ the parser loop

  datatype Kind = Unknown | VarintField | SizedField

  /** A message type as its generated parser sees it: the kind of each field number, and the
      case that stores a field's value into the message. */
  datatype Codec<!M> = Codec(kind: int -> Kind, put: (M, int, Value) -> Result<M, Error>)

  /** A field's value and total length, after its tag. */
  function Payload(b: Bytes, n: nat, kind: Kind, wireType: nat): (r: Result<(Value, nat), Error>)
    requires 1 <= n <= |b| && kind != Unknown
    ensures r.Ok? ==> n <= r.value.1 <= |b|
  {
    if wireType != (if kind == VarintField then 0 else 2) then Err(WrongWireType) else
    var v := Decode(b[n..]);
    if v.Err? then Err(v.error) else
    var start := n + v.value.1;
    if kind == VarintField then Ok((Num(v.value.0), start))
    else if v.value.0 >= TWO63 then Err(InvalidLength)
    else if start + v.value.0 > |b| then Err(UnexpectedEOF)
    else Ok((Blob(b[start..start + v.value.0]), start + v.value.0))
  }

  /** One round of the loop: the message after the field at the start of `b`, and the field's
      length. */
  function ParseField<M>(c: Codec<M>, m: M, b: Bytes): (r: Result<(M, nat), Error>)
    requires b != []
    ensures r.Ok? ==> 1 <= r.value.1 <= |b|
  {
    var t := Decode(b);
    if t.Err? then Err(t.error) else
    var fieldNum, wireType := ToInt32(t.value.0 / 8), t.value.0 % 8;
    if wireType == 4 then Err(EndGroup)
    else if fieldNum <= 0 then Err(IllegalTag)
    else if c.kind(fieldNum) == Unknown then
      var s := Skip(b, 0);
      if s.Err? then Err(s.error) else if s.value > |b| then Err(UnexpectedEOF) else Ok((m, s.value))
    else
      var p := Payload(b, t.value.1, c.kind(fieldNum), wireType);
      if p.Err? then Err(p.error) else
      var next := c.put(m, fieldNum, p.value.0);
      if next.Err? then Err(next.error) else Ok((next.value, p.value.1))
  }

  /** Unmarshal of `b` into `m`. */
  function Parse<M>(c: Codec<M>, m: M, b: Bytes): Result<M, Error>
    decreases |b|
  {
    if b == [] then Ok(m) else
    var f := ParseField(c, m, b);
    if f.Err? then Err(f.error) else Parse(c, f.value.0, b[f.value.1..])
  }

  /** The case of a known field, after its tag. */
  method UnmarshalPayload(dAtA: Bytes, at: nat, kind: Kind, wireType: nat, ghost from: nat)
    returns (r: Result<(nat, Value), Error>)
    requires from < at <= |dAtA| && kind != Unknown
    ensures var p := Payload(dAtA[from..], at - from, kind, wireType);
            r == if p.Err? then Err(p.error) else Ok((from + p.value.1, p.value.0))
  {
    ghost var here := dAtA[from..];
    assert here[at - from..] == dAtA[at..];
    if wireType != (if kind == VarintField then 0 else 2) { return Err(WrongWireType); }
    var v := DecodeVarint(dAtA, at);
    if v.Err? { return Err(v.error); }
    if kind == VarintField { return Ok((v.value.1, Num(v.value.0))); }
    if v.value.0 >= TWO63 { return Err(InvalidLength); }
    var postIndex := v.value.1 + v.value.0;
    if postIndex > |dAtA| { return Err(UnexpectedEOF); }
    assert dAtA[v.value.1..postIndex] == here[v.value.1 - from..postIndex - from];
    return Ok((postIndex, Blob(dAtA[v.value.1..postIndex])));
  }

  method UnmarshalField<M>(c: Codec<M>, m: M, dAtA: Bytes, preIndex: nat) returns (r: Result<(nat, M), Error>)
    requires preIndex < |dAtA|
    ensures var f := ParseField(c, m, dAtA[preIndex..]);
            r == if f.Err? then Err(f.error) else Ok((preIndex + f.value.1, f.value.0))
  {
    var t := DecodeVarint(dAtA, preIndex);
    if t.Err? { return Err(t.error); }
    var fieldNum, wireType := ToInt32(t.value.0 / 8), t.value.0 % 8;
    if wireType == 4 { return Err(EndGroup); }
    if fieldNum <= 0 { return Err(IllegalTag); }
    var kind := c.kind(fieldNum);
    if kind == Unknown {
      var skippy := SkipField(dAtA[preIndex..]);
      if skippy.Err? { return Err(skippy.error); }
      if preIndex + skippy.value > |dAtA| { return Err(UnexpectedEOF); }
      return Ok((preIndex + skippy.value, m));
    }
    var p := UnmarshalPayload(dAtA, t.value.1, kind, wireType, preIndex);
    if p.Err? { return Err(p.error); }
    var next := c.put(m, fieldNum, p.value.1);
    if next.Err? { return Err(next.error); }
    return Ok((p.value.0, next.value));
  }

  method Unmarshal<M>(c: Codec<M>, init: M, dAtA: Bytes) returns (r: Result<M, Error>)
    ensures r == Parse(c, init, dAtA)
  {
    var m, iNdEx := init, 0;
    while iNdEx < |dAtA|
      invariant iNdEx <= |dAtA| && Parse(c, init, dAtA) == Parse(c, m, dAtA[iNdEx..])
      decreases |dAtA| - iNdEx
    {
      ghost var here := dAtA[iNdEx..];
      ghost var preIndex := iNdEx;
      var f := UnmarshalField(c, m, dAtA, iNdEx);
      if f.Err? { return Err(f.error); }
      iNdEx, m := f.value.0, f.value.1;
      assert dAtA[iNdEx..] == here[iNdEx - preIndex..];
    }
    assert dAtA[iNdEx..] == [];
    return Ok(m);
  }

  // ------------------------------------------------------------------ known fields

  predicate Knows<M>(c: Codec<M>, f: Field) {
    c.kind(f.num) == if f.value.Num? then VarintField else SizedField
  }

  function PutAll<M>(c: Codec<M>, m: M, fs: seq<Field>): Result<M, Error> {
    if fs == [] then Ok(m) else
    var next := c.put(m, fs[0].num, fs[0].value);
    if next.Err? then next else PutAll(c, next.value, fs[1..])
  }

  lemma {:induction false} PutAllAppend<M>(c: Codec<M>, m: M, x: seq<Field>, y: seq<Field>)
    ensures PutAll(c, m, x + y) ==
              var r := PutAll(c, m, x); if r.Err? then r else PutAll(c, r.value, y)
    decreases |x|
  {
    if x == [] {
      assert x + y == y;
    } else {
      assert (x + y)[1..] == x[1..] + y;
      var next := c.put(m, x[0].num, x[0].value);
      if next.Ok? { PutAllAppend(c, next.value, x[1..], y); }
    }
  }

  lemma TagDecodes(f: Field, rest: Bytes)
    requires ValidField(f)
    ensures var t := Decode([FieldTag(f)] + rest);
            && t == Ok((FieldTag(f), 1)) && ToInt32(FieldTag(f) / 8) == f.num
            && FieldTag(f) % 8 == (if f.value.Num? then 0 else 2)
  {
    assert Encode(FieldTag(f)) == [FieldTag(f)];
    DecodeEncode(FieldTag(f), rest);
  }

  lemma PayloadReads(f: Field, rest: Bytes)
    requires ValidField(f)
    ensures Payload(FieldWire(f) + rest, 1, if f.value.Num? then VarintField else SizedField, FieldTag(f) % 8)
              == Ok((f.value, |FieldWire(f)|))
  {
    match f.value
    case Num(x) => NumReads(FieldTag(f), x, rest);
    case Blob(p) => BlobReads(FieldTag(f), p, rest);
  }

  lemma NumReads(tag: Byte, x: Uint64, rest: Bytes)
    ensures Payload(([tag] + Encode(x)) + rest, 1, VarintField, 0) == Ok((Num(x), 1 + |Encode(x)|))
  {
    assert (([tag] + Encode(x)) + rest)[1..] == Encode(x) + rest;
    DecodeEncode(x, rest);
  }

  lemma BlobReads(tag: Byte, p: Small, rest: Bytes)
    ensures Payload(([tag] + (Encode(|p|) + p)) + rest, 1, SizedField, 2) == Ok((Blob(p), 1 + |Encode(|p|)| + |p|))
  {
    BlobSlices(tag, Encode(|p|), p, rest);
    DecodeEncode(|p|, p + rest);
  }

  lemma BlobSlices(tag: Byte, size: Bytes, p: Bytes, rest: Bytes)
    ensures var b := ([tag] + (size + p)) + rest;
            && |b| == 1 + |size| + |p| + |rest| && b[1..] == size + (p + rest)
            && b[1 + |size|..1 + |size| + |p|] == p
  {
  }

  lemma ParseFieldKnown<M>(c: Codec<M>, m: M, f: Field, rest: Bytes)
    requires ValidField(f) && Knows(c, f)
    ensures ParseField(c, m, FieldWire(f) + rest) ==
              var next := c.put(m, f.num, f.value); if next.Err? then Err(next.error) else Ok((next.value,
                                                                                               |FieldWire(f)|))
  {
    TagDecodes(f, FieldWire(f)[1..] + rest);
    assert FieldWire(f) + rest == [FieldTag(f)] + (FieldWire(f)[1..] + rest);
    PayloadReads(f, rest);
  }

  lemma ParseKnown<M>(c: Codec<M>, m: M, f: Field, rest: Bytes)
    requires ValidField(f) && Knows(c, f)
    ensures Parse(c, m, FieldWire(f) + rest) ==
              var next := c.put(m, f.num, f.value); if next.Err? then next else Parse(c, next.value, rest)
  {
    ParseFieldKnown(c, m, f, rest);
    assert (FieldWire(f) + rest)[|FieldWire(f)|..] == rest;
  }

  lemma {:induction false} ParseFields<M>(c: Codec<M>, m: M, fs: seq<Field>)
    requires AllValid(fs) && forall i :: 0 <= i < |fs| ==> Knows(c, fs[i])
    ensures Parse(c, m, FieldsWire(fs)) == PutAll(c, m, fs)
    decreases |fs|
  {
    if fs == [] {
    } else {
      ParseKnown(c, m, fs[0], FieldsWire(fs[1..]));
      var next := c.put(m, fs[0].num, fs[0].value);
      if next.Ok? { ParseFields(c, next.value, fs[1..]); }
    }
  }
}
