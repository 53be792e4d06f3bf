/** The light client's messages by their bytes: which tag precedes which field, and what a parser
    makes of bytes that no encoder of this package writes. */
module FabricSchema {
  import opened Wrappers
  import opened Varint
  import opened Wire
  import opened WireWriter
  import opened WireConcat
  import opened FabricMsgs
  import opened FabricHeaders

  // ------------------------------------------------------------------ fields as bytes

  function Number(tag: Byte, x: Uint64): Bytes { [tag] + Encode(x) }

  function Sized(tag: Byte, b: Bytes): Bytes { [tag] + (Encode(|b|) + b) }

  /** A number that is left out when it is zero. */
  function OptNumber(tag: Byte, x: Uint64): Bytes { if x == 0 then [] else Number(tag, x) }

  /** Bytes that are left out when there are none. */
  function OptSized(tag: Byte, b: Bytes): Bytes { if b == [] then [] else Sized(tag, b) }

  function Each(tag: Byte, bs: seq<Bytes>): Bytes {
    if bs == [] then [] else Sized(tag, bs[0]) + Each(tag, bs[1..])
  }

  lemma OneField(f: Field)
    requires ValidField(f)
    ensures FieldsWire([f]) == FieldWire(f)
  {
    assert [f][1..] == [];
    assert FieldsWire([f]) == FieldWire(f) + FieldsWire([f][1..]);
  }

  lemma NumFieldBytes(num: nat, x: Uint64)
    requires 1 <= num <= 15
    ensures FieldsWire(NumField(num, x)) == OptNumber(8 * num, x)
  {
    OneField(Field(num, Num(x)));
  }

  lemma NestedBytes(num: nat, b: Small)
    requires 1 <= num <= 15
    ensures FieldsWire(Nested(num, b)) == Sized(8 * num + 2, b)
  {
    OneField(Field(num, Blob(b)));
  }

  lemma BlobFieldBytes(num: nat, b: Small)
    requires 1 <= num <= 15
    ensures FieldsWire(BlobField(num, b)) == OptSized(8 * num + 2, b)
  {
    NestedBytes(num, b);
  }

  lemma {:induction false} RepeatedBytes(num: nat, bs: seq<Small>)
    requires 1 <= num <= 15
    ensures FieldsWire(Repeated(num, bs)) == Each(8 * num + 2, bs)
  {
    if bs == [] {
    } else {
      var fs := Repeated(num, bs);
      RepeatedBytes(num, bs[1..]);
      assert fs[1..] == Repeated(num, bs[1..]);
      assert FieldsWire(fs) == FieldWire(fs[0]) + FieldsWire(fs[1..]);
      assert FieldWire(fs[0]) == Sized(8 * num + 2, bs[0]);
    }
  }

  lemma Wire2(a: seq<Field>, b: seq<Field>, x: Bytes, y: Bytes)
    requires AllValid(a) && AllValid(b) && FieldsWire(a) == x && FieldsWire(b) == y
    ensures AllValid(a + b) && FieldsWire(a + b) == x + y
  {
    FieldsWireAppend(a, b);
  }

  lemma Wire3(a: seq<Field>, b: seq<Field>, c: seq<Field>, x: Bytes, y: Bytes, z: Bytes)
    requires AllValid(a) && AllValid(b) && AllValid(c)
    requires FieldsWire(a) == x && FieldsWire(b) == y && FieldsWire(c) == z
    ensures AllValid(a + (b + c)) && FieldsWire(a + (b + c)) == x + (y + z)
  {
    Wire2(b, c, y, z);
    Wire2(a, b + c, x, y + z);
  }

  lemma Wire4(a: seq<Field>, b: seq<Field>, c: seq<Field>, d: seq<Field>, w: Bytes, x: Bytes, y: Bytes, z: Bytes)
    requires AllValid(a) && AllValid(b) && AllValid(c) && AllValid(d)
    requires FieldsWire(a) == w && FieldsWire(b) == x && FieldsWire(c) == y && FieldsWire(d) == z
    ensures AllValid(a + (b + (c + d))) && FieldsWire(a + (b + (c + d))) == w + (x + (y + z))
  {
    Wire3(b, c, d, x, y, z);
    Wire2(a, b + (c + d), w, x + (y + z));
  }

  lemma Wire5(a: seq<Field>, b: seq<Field>, c: seq<Field>, d: seq<Field>, e: seq<Field>,
              v: Bytes, w: Bytes, x: Bytes, y: Bytes, z: Bytes)
    requires AllValid(a) && AllValid(b) && AllValid(c) && AllValid(d) && AllValid(e)
    requires FieldsWire(a) == v && FieldsWire(b) == w && FieldsWire(c) == x && FieldsWire(d) == y && FieldsWire(e) == z
    ensures AllValid(a + (b + (c + (d + e)))) && FieldsWire(a + (b + (c + (d + e)))) == v + (w + (x + (y + z)))
  {
    Wire4(b, c, d, e, w, x, y, z);
    Wire2(a, b + (c + (d + e)), v, w + (x + (y + z)));
  }

  // ------------------------------------------------------------------ the messages

  lemma SequenceBytes(m: Sequence)
    ensures SequenceWire(m) ==
              (if m.value == 0 then [] else [0x08] + Encode(m.value)) +
              (if m.timestamp == 0 then []
               else [0x10] + Encode(if m.timestamp < 0 then m.timestamp + 0x1_0000_0000_0000_0000 else m.timestamp))
  {
    NumFieldBytes(1, m.value);
    NumFieldBytes(2, ToUint64(m.timestamp));
    Wire2(NumField(1, m.value), NumField(2, ToUint64(m.timestamp)), OptNumber(0x08, m.value),
          OptNumber(0x10, ToUint64(m.timestamp)));
  }

  lemma ChaincodeIDBytes(m: ChaincodeID)
    ensures ChaincodeIDWire(m) ==
              (if m.path == [] then [] else [0x0a] + (Encode(|m.path|) + m.path)) +
              ((if m.name == [] then [] else [0x12] + (Encode(|m.name|) + m.name)) +
              (if m.version == [] then [] else [0x1a] + (Encode(|m.version|) + m.version)))
  {
    BlobFieldBytes(1, m.path);
    BlobFieldBytes(2, m.name);
    BlobFieldBytes(3, m.version);
    Wire3(BlobField(1, m.path), BlobField(2, m.name), BlobField(3, m.version),
          OptSized(0x0a, m.path), OptSized(0x12, m.name), OptSized(0x1a, m.version));
  }

  lemma CommitmentProofBytes(m: CommitmentProof)
    ensures CommitmentProofWire(m) ==
              OptSized(0x0a, m.proposal) + (OptNumber(0x10, m.nsIndex) + (OptNumber(0x18, m.writeSetIndex)
              + (Each(0x22, m.identities) + Each(0x2a, m.signatures))))
  {
    BlobFieldBytes(1, m.proposal);
    NumFieldBytes(2, m.nsIndex);
    NumFieldBytes(3, m.writeSetIndex);
    RepeatedBytes(4, m.identities);
    RepeatedBytes(5, m.signatures);
    Wire5(BlobField(1, m.proposal), NumField(2, m.nsIndex), NumField(3, m.writeSetIndex),
          Repeated(4, m.identities), Repeated(5, m.signatures),
          OptSized(0x0a, m.proposal), OptNumber(0x10, m.nsIndex), OptNumber(0x18, m.writeSetIndex),
          Each(0x22, m.identities), Each(0x2a, m.signatures));
  }

  lemma MessageProofBytes(m: MessageProof)
    ensures MessageProofWire(m) == Each(0x0a, m.identities) + Each(0x12, m.signatures)
  {
    RepeatedBytes(1, m.identities);
    RepeatedBytes(2, m.signatures);
    Wire2(Repeated(1, m.identities), Repeated(2, m.signatures), Each(0x0a, m.identities), Each(0x12, m.signatures));
  }

  lemma FlagBytes(freezed: bool)
    ensures FieldsWire(NumField(4, Bit(freezed))) == if freezed then [0x20, 1] else []
  {
    NumFieldBytes(4, Bit(freezed));
    assert Encode(1) == [1] && [0x20] + [1] == [0x20, 1];
  }

  lemma MSPInfoBytes(m: MSPInfo)
    ensures MSPInfoWire(m) ==
              OptSized(0x0a, m.mspId) + (OptSized(0x12, m.config) + (OptSized(0x1a, m.policy)
              + (if m.freezed then [0x20, 1] else [])))
  {
    BlobFieldBytes(1, m.mspId);
    BlobFieldBytes(2, m.config);
    BlobFieldBytes(3, m.policy);
    FlagBytes(m.freezed);
    Wire4(BlobField(1, m.mspId), BlobField(2, m.config), BlobField(3, m.policy), NumField(4, Bit(m.freezed)),
          OptSized(0x0a, m.mspId), OptSized(0x12, m.config), OptSized(0x1a, m.policy),
          if m.freezed then [0x20, 1] else []);
  }

  /** Both nested messages are written, empty or not. */
  lemma ChaincodeHeaderBytes(m: ChaincodeHeader)
    requires m.Valid()
    ensures ChaincodeHeaderWire(m) ==
              var s, p := SequenceWire(m.sequence), CommitmentProofWire(m.proof);
              ([0x0a] + (Encode(|s|) + s)) + ([0x12] + (Encode(|p|) + p))
  {
    NestedBytes(1, SequenceBlob(m.sequence));
    NestedBytes(2, CommitmentProofBlob(m.proof));
    Wire2(Nested(1, SequenceBlob(m.sequence)), Nested(2, CommitmentProofBlob(m.proof)),
          Sized(0x0a, SequenceWire(m.sequence)), Sized(0x12, CommitmentProofWire(m.proof)));
  }

  /** A missing proof is left out, an empty one is not. */
  function OptProof(p: Option<MessageProof>): Bytes {
    if p.None? then [] else Sized(0x2a, MessageProofWire(p.value))
  }

  lemma ProofFieldBytes(p: Option<MessageProof>)
    requires ValidProof(p)
    ensures FieldsWire(ProofField(p)) == OptProof(p)
  {
    if p.Some? { NestedBytes(5, MessageProofBlob(p.value)); }
  }

  lemma ChaincodeInfoBytes(m: ChaincodeInfo)
    requires m.Valid()
    ensures ChaincodeInfoWire(m) ==
              OptSized(0x0a, m.channelId) + (Sized(0x12, ChaincodeIDWire(m.chaincodeId))
              + (OptSized(0x1a, m.endorsementPolicy) + (OptSized(0x22, m.ibcPolicy) + OptProof(m.proof))))
  {
    BlobFieldBytes(1, m.channelId);
    NestedBytes(2, ChaincodeIDBlob(m.chaincodeId));
    BlobFieldBytes(3, m.endorsementPolicy);
    BlobFieldBytes(4, m.ibcPolicy);
    ProofFieldBytes(m.proof);
    Wire5(BlobField(1, m.channelId), Nested(2, ChaincodeIDBlob(m.chaincodeId)), BlobField(3, m.endorsementPolicy),
          BlobField(4, m.ibcPolicy), ProofField(m.proof),
          OptSized(0x0a, m.channelId), Sized(0x12, ChaincodeIDWire(m.chaincodeId)),
          OptSized(0x1a, m.endorsementPolicy), OptSized(0x22, m.ibcPolicy), OptProof(m.proof));
  }

  lemma MSPHeaderBytes(m: MSPHeader)
    requires m.Valid()
    ensures MSPHeaderWire(m) ==
              OptNumber(0x08, if m.kind < 0 then m.kind + 0x1_0000_0000_0000_0000 else m.kind)
              + (OptSized(0x12, m.mspId) + (OptSized(0x1a, m.config)
              + (OptSized(0x22, m.policy) + OptProof(m.proof))))
  {
    NumFieldBytes(1, ToUint64(m.kind));
    BlobFieldBytes(2, m.mspId);
    BlobFieldBytes(3, m.config);
    BlobFieldBytes(4, m.policy);
    ProofFieldBytes(m.proof);
    Wire5(NumField(1, ToUint64(m.kind)), BlobField(2, m.mspId), BlobField(3, m.config),
          BlobField(4, m.policy), ProofField(m.proof),
          OptNumber(0x08, ToUint64(m.kind)), OptSized(0x12, m.mspId), OptSized(0x1a, m.config),
          OptSized(0x22, m.policy), OptProof(m.proof));
  }

  /** The two list messages: each element in order under the tag of field 1. */
  lemma ListBytes(infos: seq<MSPInfo>, headers: seq<MSPHeader>)
    requires ValidInfos(infos) && ValidHeaders(headers)
    ensures FieldsWire(Repeated(1, InfoBlobs(infos))) == Each(0x0a, InfoBlobs(infos))
    ensures FieldsWire(Repeated(1, HeaderBlobs(headers))) == Each(0x0a, HeaderBlobs(headers))
  {
    RepeatedBytes(1, InfoBlobs(infos));
    RepeatedBytes(1, HeaderBlobs(headers));
  }

  // ------------------------------------------------------------------ what parsers read

  /** Numbers of more than 32 bits lose their high bits, a flag is any number but zero. */
  lemma WideNumbers(x: Uint64)
    ensures var low := x % 0x1_0000_0000;
            && Parse(COMMITMENT_PROOF, NO_COMMITMENT_PROOF, Number(0x10, x)) == Ok(NO_COMMITMENT_PROOF.(nsIndex := low))
            && Parse(COMMITMENT_PROOF, NO_COMMITMENT_PROOF, Number(0x18, x))
                 == Ok(NO_COMMITMENT_PROOF.(writeSetIndex := low))
            && Parse(MSP_HEADER, NO_MSP_HEADER, Number(0x08, x))
                 == Ok(NO_MSP_HEADER.(kind := if low < 0x8000_0000 then low else low - 0x1_0000_0000))
    ensures Parse(MSP_INFO, NO_MSP_INFO, Number(0x20, x)) == Ok(NO_MSP_INFO.(freezed := x != 0))
    ensures Parse(SEQUENCE, NO_SEQUENCE, Number(0x10, x)) ==
              Ok(Sequence(0, if x < 0x8000_0000_0000_0000 then x else x - 0x1_0000_0000_0000_0000))
  {
    NumberParsed(COMMITMENT_PROOF, NO_COMMITMENT_PROOF, 2, x);
    NumberParsed(COMMITMENT_PROOF, NO_COMMITMENT_PROOF, 3, x);
    NumberParsed(MSP_HEADER, NO_MSP_HEADER, 1, x);
    NumberParsed(MSP_INFO, NO_MSP_INFO, 4, x);
    NumberParsed(SEQUENCE, NO_SEQUENCE, 2, x);
  }

  lemma NumberParsed<M>(c: Codec<M>, m: M, num: nat, x: Uint64)
    requires 1 <= num <= 15 && c.kind(num) == VarintField
    ensures Parse(c, m, Number(8 * num, x)) == c.put(m, num, Num(x))
  {
    var f := Field(num, Num(x));
    ParseKnown(c, m, f, []);
    assert FieldWire(f) + [] == Number(8 * num, x);
  }

  /** A chaincode header after another one: numbers and bytes that are present replace, repeated
      fields are appended. */
  lemma ChaincodeHeadersMerge(a: ChaincodeHeader, b: ChaincodeHeader)
    requires a.Valid() && b.Valid()
    ensures var r := Parse(CHAINCODE_HEADER, NO_CHAINCODE_HEADER, ChaincodeHeaderWire(a) + ChaincodeHeaderWire(b));
            && r.Ok?
            && r.value.sequence.value == (if b.sequence.value != 0 then b.sequence.value else a.sequence.value)
            && r.value.sequence.timestamp
                 == (if b.sequence.timestamp != 0 then b.sequence.timestamp else a.sequence.timestamp)
            && r.value.proof.proposal == (if b.proof.proposal != [] then b.proof.proposal else a.proof.proposal)
            && r.value.proof.nsIndex == (if b.proof.nsIndex != 0 then b.proof.nsIndex else a.proof.nsIndex)
            && r.value.proof.writeSetIndex
                 == (if b.proof.writeSetIndex != 0 then b.proof.writeSetIndex else a.proof.writeSetIndex)
            && r.value.proof.identities == a.proof.identities + b.proof.identities
            && r.value.proof.signatures == a.proof.signatures + b.proof.signatures
  {
    ChaincodeHeaderRoundTrip(a);
    ParseConcat(CHAINCODE_HEADER, NO_CHAINCODE_HEADER, ChaincodeHeaderWire(a), ChaincodeHeaderWire(b));
    ChaincodeHeaderParsed(a, b);
  }

  /** Which tags end parsing with an error, whatever the message is: a group's end, no field
      number, and a known field with another wire type. */
  lemma BadTags<M>(c: Codec<M>, m: M, b: Bytes)
    requires b != [] && Decode(b).Ok?
    ensures var tag := Decode(b).value.0;
            var low := tag / 8 % 0x1_0000_0000;
            var known := 0 < low < 0x8000_0000 && c.kind(low) != Unknown;
            && (tag % 8 == 4 ==> Parse(c, m, b) == Err(EndGroup))
            && (tag % 8 != 4 && (low == 0 || low >= 0x8000_0000) ==> Parse(c, m, b) == Err(IllegalTag))
            && (known && tag % 8 !in {if c.kind(low) == VarintField then 0 else 2, 4}
                ==> Parse(c, m, b) == Err(WrongWireType))
            && (0 < low < 0x8000_0000 && !known && tag % 8 >= 6 ==> Parse(c, m, b) == Err(IllegalWireType))
  {
    var t := Decode(b).value;
    assert Tagged(b, 0) == Element(b, t.1, t.0 % 8, 0);
    if t.0 % 8 >= 6 { assert Skip(b, 0) == Err(IllegalWireType); }
  }

  /** A known field of bytes whose length is no signed 64-bit number or points past the end. */
  lemma BadLengths<M>(c: Codec<M>, m: M, b: Bytes)
    requires b != [] && Decode(b).Ok?
    requires var tag := Decode(b).value.0;
             var num := tag / 8 % 0x1_0000_0000;
             tag % 8 == 2 && 0 < num < 0x8000_0000 && c.kind(num) == SizedField
    requires Decode(b[Decode(b).value.1..]).Ok?
    ensures var n := Decode(b).value.1;
            var length := Decode(b[n..]).value;
            && (length.0 >= 0x8000_0000_0000_0000 ==> Parse(c, m, b) == Err(InvalidLength))
            && (length.0 < 0x8000_0000_0000_0000 && n + length.1 + length.0 > |b| ==>
                  Parse(c, m, b) == Err(UnexpectedEOF))
  {
  }

  /** A varint that does not end: ten bytes, or the end of the input. */
  lemma BadVarints(b: Bytes)
    ensures Decode(b) == Err(IntOverflow) <==> |b| >= 10 && forall i :: 0 <= i < 10 ==> b[i] >= 128
    ensures Decode(b) == Err(UnexpectedEOF) <==> |b| < 10 && forall i :: 0 <= i < |b| ==> b[i] >= 128
    ensures Decode(b).Ok? ==> IsVarint(b[..Decode(b).value.1])
    ensures Decode(b).Ok? || Decode(b) == Err(IntOverflow) || Decode(b) == Err(UnexpectedEOF)
  {
    ScanExactly(b, 0);
  }
}
