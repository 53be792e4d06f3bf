/** Parsing a concatenation: what is parsed first is the start for the rest. */
module WireConcat {
  import opened Wrappers
  import opened Varint
  import opened Wire

  lemma DecodeAppend(b: Bytes, rest: Bytes)
    requires Decode(b).Ok?
    ensures Decode(b + rest) == Decode(b)
  {
    ScanAppend(b, rest, 0);
  }

  lemma ElementAppend(b: Bytes, rest: Bytes, n: nat, wireType: nat, depth: nat)
    requires 1 <= n <= |b| && Element(b, n, wireType, depth).Ok?
    ensures Element(b + rest, n, wireType, depth) == Element(b, n, wireType, depth)
  {
    assert (b + rest)[n..] == b[n..] + rest;
    if wireType == 0 || wireType == 2 { DecodeAppend(b[n..], rest); }
  }

  lemma TaggedAppend(b: Bytes, rest: Bytes, depth: nat)
    requires Tagged(b, depth).Ok?
    ensures Tagged(b + rest, depth) == Tagged(b, depth)
  {
    DecodeAppend(b, rest);
    ElementAppend(b, rest, Decode(b).value.1, Decode(b).value.0 % 8, depth);
  }

  lemma {:induction false} SkipAppend(b: Bytes, rest: Bytes, depth: nat)
    requires Skip(b, depth).Ok?
    ensures Skip(b + rest, depth) == Skip(b, depth)
    decreases |b|
  {
    TaggedAppend(b, rest, depth);
    var e := Tagged(b, depth).value;
    if e.1 != 0 {
      assert (b + rest)[e.0..] == b[e.0..] + rest;
      SkipAppend(b[e.0..], rest, e.1);
    }
  }

  lemma PayloadAppend(b: Bytes, rest: Bytes, n: nat, kind: Kind, wireType: nat)
    requires 1 <= n <= |b| && kind != Unknown && Payload(b, n, kind, wireType).Ok?
    ensures Payload(b + rest, n, kind, wireType) == Payload(b, n, kind, wireType)
  {
    assert (b + rest)[n..] == b[n..] + rest;
    DecodeAppend(b[n..], rest);
    var end := Payload(b, n, kind, wireType).value.1;
    assert forall start :: 0 <= start <= end ==> (b + rest)[start..end] == b[start..end];
  }

  lemma ParseFieldAppend<M>(c: Codec<M>, m: M, b: Bytes, rest: Bytes)
    requires b != [] && ParseField(c, m, b).Ok?
    ensures ParseField(c, m, b + rest) == ParseField(c, m, b)
  {
    DecodeAppend(b, rest);
    var t := Decode(b).value;
    var kind := c.kind(ToInt32(t.0 / 8));
    if kind == Unknown {
      SkipAppend(b, rest, 0);
    } else {
      PayloadAppend(b, rest, t.1, kind, t.0 % 8);
    }
  }

  /** For any bytes, encoded by whomever: if the first part parses, parsing both parts is parsing
      the second into the result of the first. */
  lemma {:induction false} ParseConcat<M>(c: Codec<M>, m: M, x: Bytes, y: Bytes)
    requires Parse(c, m, x).Ok?
    ensures Parse(c, m, x + y) == Parse(c, Parse(c, m, x).value, y)
    decreases |x|
  {
    if x == [] {
      assert x + y == y;
    } else {
      ParseFieldAppend(c, m, x, y);
      var f := ParseField(c, m, x).value;
      assert (x + y)[f.1..] == x[f.1..] + y;
      ParseConcat(c, f.0, x[f.1..], y);
    }
  }
}
