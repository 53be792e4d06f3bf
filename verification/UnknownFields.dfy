/** Unknown fields, groups included, are transparent to every parser. */
module UnknownFields {
  import opened Wrappers
  import opened Varint
  import opened Wire

  /** A field as another version of the message may contain it. */
  datatype Raw =
    | RawVarint(num: nat, payload: Bytes)
    | RawFixed64(num: nat, payload: Bytes)
    | RawSized(num: nat, payload: Bytes)
    | RawGroup(num: nat, fields: seq<Raw>)
    | RawFixed32(num: nat, payload: Bytes)

  function WireType(u: Raw): nat {
    match u
    case RawVarint(_, _) => 0
    case RawFixed64(_, _) => 1
    case RawSized(_, _) => 2
    case RawGroup(_, _) => 3
    case RawFixed32(_, _) => 5
  }

  /** Well-formed: field numbers of 29 bits, payloads of the wire type's length, groups closed. */
  predicate WellFormed(u: Raw)
    decreases u
  {
    && 1 <= u.num < 0x2000_0000
    && match u
       case RawVarint(_, p) => IsVarint(p)
       case RawFixed64(_, p) => |p| == 8
       case RawSized(_, p) => |p| < TWO63
       case RawGroup(_, fields) => forall i :: 0 <= i < |fields| ==> WellFormed(fields[i])
       case RawFixed32(_, p) => |p| == 4
  }

  function Tag(num: nat, wireType: nat): Bytes { Encode(8 * num + wireType) }

  function RawWire(u: Raw): Bytes
    decreases u
  {
    Tag(u.num, WireType(u)) + match u
                              case RawSized(_, p) => Encode(|p|) + p
                              case RawGroup(num, fields) => RawsWire(fields) + Tag(num, 4)
                              case _ => u.payload
  }

  function RawsWire(us: seq<Raw>): Bytes
    decreases us
  {
    if us == [] then [] else RawWire(us[0]) + RawsWire(us[1..])
  }

  // ------------------------------------------------------------------ skipping

  lemma TagDecodes(num: nat, wireType: nat, rest: Bytes)
    requires 1 <= num < 0x2000_0000 && wireType < 8
    ensures var t := Decode(Tag(num, wireType) + rest);
            && t == Ok((8 * num + wireType, |Tag(num, wireType)|))
            && (8 * num + wireType) % 8 == wireType && ToInt32((8 * num + wireType) / 8) == num
  {
    TagParts(num, wireType);
    DecodeEncode(8 * num + wireType, rest);
  }

  lemma TagParts(num: nat, wireType: nat)
    requires 1 <= num < 0x2000_0000 && wireType < 8
    ensures (8 * num + wireType) % 8 == wireType && (8 * num + wireType) / 8 == num
    ensures ToInt32(num) == num && 8 * num + wireType < TWO64
  {
  }

  /** What skipping does once `n` bytes have left `depth` groups open. */
  function Then(n: nat, rest: Bytes, depth: nat): Result<nat, Error> {
    if depth == 0 then Ok(n) else After(n, Skip(rest, depth))
  }

  /** Skipping that starts inside `depth` groups goes over exactly `x`, whatever follows, and
      is then inside `depth'` groups. */
  ghost predicate Consumes(x: Bytes, depth: nat, depth': nat) {
    forall rest: Bytes :: Skip(x + rest, depth) == Then(|x|, rest, depth')
  }

  lemma ConsumesElement(x: Bytes, rest: Bytes, depth: nat, depth': nat)
    requires x != [] && Tagged(x + rest, depth) == Ok((|x|, depth'))
    ensures Skip(x + rest, depth) == Then(|x|, rest, depth')
  {
    assert (x + rest)[|x|..] == rest;
  }

  lemma ConsumesBoth(x: Bytes, y: Bytes, depth: nat, between: nat, depth': nat)
    requires Consumes(x, depth, between) && between > 0 && Consumes(y, between, depth')
    ensures Consumes(x + y, depth, depth')
  {
    forall rest: Bytes ensures Skip(x + y + rest, depth) == Then(|x + y|, rest, depth') {
      ConsumesInTurn(x, y, rest, depth, between, depth');
      assert x + y + rest == x + (y + rest);
    }
  }

  lemma ConsumesInTurn(x: Bytes, y: Bytes, rest: Bytes, depth: nat, between: nat, depth': nat)
    requires Consumes(x, depth, between) && between > 0 && Consumes(y, between, depth')
    ensures Skip(x + (y + rest), depth) == Then(|x| + |y|, rest, depth')
  {
    assert Skip(x + (y + rest), depth) == Then(|x|, y + rest, between);
    assert Skip(y + rest, between) == Then(|y|, rest, depth');
    AfterThen(|x|, |y|, rest, depth');
  }

  lemma AfterThen(x: nat, y: nat, rest: Bytes, depth: nat)
    ensures After(x, Then(y, rest, depth)) == Then(x + y, rest, depth)
  {
  }

  lemma BodyDecodes(u: Raw, rest: Bytes, depth: nat)
    requires WellFormed(u) && !u.RawGroup?
    ensures var n := |Tag(u.num, WireType(u))|;
            Element(RawWire(u) + rest, n, WireType(u), depth) == Ok((|RawWire(u)|, depth))
  {
    var tag := Tag(u.num, WireType(u));
    var b := RawWire(u) + rest;
    match u {
      case RawVarint(_, p) =>
        assert b[|tag|..] == p + rest;
        ScanIsVarint(p, rest, 0);
      case RawSized(_, p) =>
        assert b[|tag|..] == Encode(|p|) + (p + rest);
        DecodeEncode(|p|, p + rest);
      case _ =>
    }
  }

  lemma TagFirst(u: Raw, rest: Bytes)
    requires WellFormed(u)
    ensures Decode(RawWire(u) + rest) == Ok((8 * u.num + WireType(u), |Tag(u.num, WireType(u))|))
    ensures 1 <= |Tag(u.num, WireType(u))| <= |RawWire(u)|
  {
    var tag := Tag(u.num, WireType(u));
    var body := RawWire(u)[|tag|..];
    assert RawWire(u) + rest == tag + (body + rest);
    TagDecodes(u.num, WireType(u), body + rest);
  }

  lemma TaggedSimple(u: Raw, rest: Bytes, depth: nat)
    requires WellFormed(u) && !u.RawGroup?
    ensures Tagged(RawWire(u) + rest, depth) == Ok((|RawWire(u)|, depth))
  {
    TagFirst(u, rest);
    assert (8 * u.num + WireType(u)) % 8 == WireType(u);
    BodyDecodes(u, rest, depth);
  }

  lemma NotEmpty(u: Raw)
    requires WellFormed(u)
    ensures RawWire(u) != []
  {
    TagFirst(u, []);
  }

  lemma SkipSimple(u: Raw, depth: nat)
    requires WellFormed(u) && !u.RawGroup?
    ensures Consumes(RawWire(u), depth, depth)
  {
    var x := RawWire(u);
    NotEmpty(u);
    forall rest: Bytes ensures Skip(x + rest, depth) == Then(|x|, rest, depth) {
      TaggedSimple(u, rest, depth);
      ConsumesElement(x, rest, depth, depth);
    }
  }

  lemma SkipGroupTag(num: nat, open: bool, depth: nat)
    requires 1 <= num < 0x2000_0000 && (open || depth > 0)
    ensures Consumes(Tag(num, if open then 3 else 4), depth, if open then depth + 1 else depth - 1)
  {
    var tag := Tag(num, if open then 3 else 4);
    forall rest: Bytes ensures Skip(tag + rest, depth) == Then(|tag|, rest, if open then depth + 1 else depth - 1) {
      TagDecodes(num, if open then 3 else 4, rest);
      ConsumesElement(tag, rest, depth, if open then depth + 1 else depth - 1);
    }
  }

  /** Skipping stops after exactly one field, however deeply its groups are nested. */
  lemma {:induction false} SkipRaw(u: Raw, depth: nat)
    requires WellFormed(u)
    ensures Consumes(RawWire(u), depth, depth)
    decreases u
  {
    if u.RawGroup? {
      var begin, end, inner := Tag(u.num, 3), Tag(u.num, 4), RawsWire(u.fields);
      assert RawWire(u) == begin + (inner + end);
      SkipGroupTag(u.num, true, depth);
      SkipRaws(u.fields, depth + 1);
      SkipGroupTag(u.num, false, depth + 1);
      ConsumesBoth(inner, end, depth + 1, depth + 1, depth);
      ConsumesBoth(begin, inner + end, depth, depth + 1, depth);
    } else {
      SkipSimple(u, depth);
    }
  }

  lemma ConsumesNothing(depth: nat)
    requires depth > 0
    ensures Consumes([], depth, depth)
  {
    forall rest: Bytes ensures Skip([] + rest, depth) == Then(0, rest, depth) {
      assert [] + rest == rest;
    }
  }

  lemma {:induction false} SkipRaws(us: seq<Raw>, depth: nat)
    requires depth > 0 && forall i :: 0 <= i < |us| ==> WellFormed(us[i])
    ensures Consumes(RawsWire(us), depth, depth)
    decreases us
  {
    if us == [] {
      ConsumesNothing(depth);
    } else {
      SkipRaw(us[0], depth);
      SkipRaws(us[1..], depth);
      ConsumesBoth(RawWire(us[0]), RawsWire(us[1..]), depth, depth, depth);
    }
  }

  /** skipFabricmsp returns the length of exactly one field. */
  lemma SkipIsOneField(u: Raw, rest: Bytes)
    requires WellFormed(u)
    ensures Skip(RawWire(u) + rest, 0) == Ok(|RawWire(u)|)
  {
    SkipRaw(u, 0);
  }

  // ------------------------------------------------------------------ transparency

  lemma ParseUnknown<M>(c: Codec<M>, m: M, u: Raw, rest: Bytes)
    requires WellFormed(u) && c.kind(u.num) == Unknown
    ensures Parse(c, m, RawWire(u) + rest) == Parse(c, m, rest)
  {
    TagFirst(u, rest);
    TagDecodes(u.num, WireType(u), []);
    SkipIsOneField(u, rest);
    assert (RawWire(u) + rest)[|RawWire(u)|..] == rest;
  }

  /** An encoding with unknown fields between the known ones. */
  datatype Item = Known(field: Field) | Extra(raw: Raw)

  predicate ValidItem<M>(c: Codec<M>, i: Item) {
    match i
    case Known(f) => ValidField(f) && Knows(c, f)
    case Extra(u) => WellFormed(u) && c.kind(u.num) == Unknown
  }

  function ItemWire<M>(c: Codec<M>, i: Item): Bytes
    requires ValidItem(c, i)
  {
    match i
    case Known(f) => FieldWire(f)
    case Extra(u) => RawWire(u)
  }

  function ItemsWire<M>(c: Codec<M>, items: seq<Item>): Bytes
    requires forall i :: 0 <= i < |items| ==> ValidItem(c, items[i])
  {
    if items == [] then []
    else ItemWire(c, items[0]) + ItemsWire(c, items[1..])
  }

  function KnownOf(items: seq<Item>): seq<Field> {
    if items == [] then []
    else (if items[0].Known? then [items[0].field] else []) + KnownOf(items[1..])
  }

  /** Wherever unknown fields stand, and however many, the message is the one that the known
      fields alone give. */
  lemma {:induction false} UnknownFieldsTransparent<M>(c: Codec<M>, m: M, items: seq<Item>)
    requires forall i :: 0 <= i < |items| ==> ValidItem(c, items[i])
    ensures Parse(c, m, ItemsWire(c, items)) == PutAll(c, m, KnownOf(items))
    decreases |items|
  {
    if items == [] {
    } else {
      assert ValidItem(c, items[0]);
      var rest := ItemsWire(c, items[1..]);
      match items[0]
      case Known(f) =>
        ParseKnown(c, m, f, rest);
        var next := c.put(m, f.num, f.value);
        assert KnownOf(items)[1..] == KnownOf(items[1..]);
        if next.Ok? { UnknownFieldsTransparent(c, next.value, items[1..]); }
      case Extra(u) =>
        ParseUnknown(c, m, u, rest);
        assert KnownOf(items) == KnownOf(items[1..]);
        UnknownFieldsTransparent(c, m, items[1..]);
    }
  }

  lemma {:induction false} KnownOfValid<M>(c: Codec<M>, items: seq<Item>)
    requires forall i :: 0 <= i < |items| ==> ValidItem(c, items[i])
    ensures AllValid(KnownOf(items)) && forall i :: 0 <= i < |KnownOf(items)| ==> Knows(c, KnownOf(items)[i])
  {
    if items == [] {
    } else {
      assert ValidItem(c, items[0]);
      KnownOfValid(c, items[1..]);
    }
  }

  /** Inserting unknown fields into an encoding does not change what is parsed. */
  lemma InsertionIgnored<M>(c: Codec<M>, m: M, items: seq<Item>)
    requires forall i :: 0 <= i < |items| ==> ValidItem(c, items[i])
    ensures AllValid(KnownOf(items))
    ensures Parse(c, m, ItemsWire(c, items)) == Parse(c, m, FieldsWire(KnownOf(items)))
  {
    KnownOfValid(c, items);
    UnknownFieldsTransparent(c, m, items);
    ParseFields(c, m, KnownOf(items));
  }
}
