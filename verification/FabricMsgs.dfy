/** The messages of the Fabric light client that contain no other messages. */
module FabricMsgs {
  import opened Wrappers
  import opened Varint
  import opened Wire
  import opened WireWriter

  type Uint32 = x: int | 0 <= x < TWO32
  type Int32 = x: int | -0x8000_0000 <= x < 0x8000_0000
  type Int64 = x: int | -0x8000_0000_0000_0000 <= x < TWO63

  /** Go's conversion of a signed integer to uint64. */
  function ToUint64(x: Int64): Uint64 { if x < 0 then x + TWO64 else x }

  function ToInt64(x: Uint64): Int64 { if x >= TWO63 then x - TWO64 else x }

  lemma SignedRoundTrip(x: Int64)
    ensures ToInt64(ToUint64(x)) == x && (ToUint64(x) == 0 <==> x == 0)
    ensures -0x8000_0000 <= x < 0x8000_0000 ==> ToInt32(ToUint64(x)) == x
  {
    if -0x8000_0000 <= x < 0 {
      assert ToUint64(x) == (TWO32 - 1) * TWO32 + (x + TWO32);
    }
  }

  /** The repeated field of the elements from `k` on, stored one by one. */
  lemma {:induction false} PutRepeated<M>(c: Codec<M>, num: nat, bs: seq<Small>, at: nat -> M, k: nat)
    requires 1 <= num <= 15 && k <= |bs|
    requires forall j: nat :: j < |bs| ==> c.put(at(j), num, Blob(bs[j])) == Ok(at(j + 1))
    ensures PutAll(c, at(k), Repeated(num, bs[k..])) == Ok(at(|bs|))
    decreases |bs| - k
  {
    if k == |bs| {
    } else {
      assert bs[k..][0] == bs[k];
      assert Repeated(num, bs[k..])[1..] == Repeated(num, bs[k + 1..]);
      PutRepeated(c, num, bs, at, k + 1);
    }
  }

  lemma Prefixes(bs: seq<Small>)
    ensures bs[..0] == [] && bs[0..] == bs && bs[..|bs|] == bs
    ensures forall j :: 0 <= j < |bs| ==> bs[..j] + [bs[j]] == bs[..j + 1]
  {
  }

  lemma PutBoth<M>(c: Codec<M>, m: M, x: seq<Field>, mid: M, y: seq<Field>, end: M)
    requires PutAll(c, m, x) == Ok(mid) && PutAll(c, mid, y) == Ok(end)
    ensures PutAll(c, m, x + y) == Ok(end)
  {
    PutAllAppend(c, m, x, y);
  }

  // ------------------------------------------------------------------ Sequence

  datatype Sequence = Sequence(value: Uint64, timestamp: Int64)

  const NO_SEQUENCE := Sequence(0, 0)

  function SequenceFields(m: Sequence): (fs: seq<Field>)
    ensures AllValid(fs)
  {
    NumField(1, m.value) + NumField(2, ToUint64(m.timestamp))
  }

  function SequenceWire(m: Sequence): Bytes { FieldsWire(SequenceFields(m)) }

  function SequenceKind(num: int): Kind { if num == 1 || num == 2 then VarintField else Unknown }

  function SequencePut(m: Sequence, num: int, v: Value): Result<Sequence, Error> {
    if v.Blob? then Err(WrongWireType)
    else Ok(if num == 1 then m.(value := v.raw) else m.(timestamp := ToInt64(v.raw)))
  }

  const SEQUENCE: Codec<Sequence> := Codec(SequenceKind, SequencePut)

  function SequenceSize(m: Sequence): nat { NumSize(m.value) + NumSize(ToUint64(m.timestamp)) }

  lemma SequenceSizeIsLength(m: Sequence)
    ensures |SequenceWire(m)| == SequenceSize(m) <= 22
  {
    NumFieldSize(1, m.value);
    NumFieldSize(2, ToUint64(m.timestamp));
    Shorter(NumField(1, m.value), NumField(2, ToUint64(m.timestamp)));
    DecodeEncode(m.value, []);
    DecodeEncode(ToUint64(m.timestamp), []);
  }

  /** `m` after the fields of `n`. */
  function SequenceMerged(m: Sequence, n: Sequence): Sequence {
    Sequence(if n.value == 0 then m.value else n.value, if n.timestamp == 0 then m.timestamp else n.timestamp)
  }

  lemma SequencePuts(m: Sequence, n: Sequence)
    ensures PutAll(SEQUENCE, m, NumField(1, n.value)) == Ok(m.(value := if n.value == 0 then m.value else n.value))
    ensures PutAll(SEQUENCE, m, NumField(2, ToUint64(n.timestamp)))
              == Ok(m.(timestamp := if n.timestamp == 0 then m.timestamp else n.timestamp))
  {
    SignedRoundTrip(n.timestamp);
  }

  lemma SequenceParsed(m: Sequence, n: Sequence)
    ensures Parse(SEQUENCE, m, SequenceWire(n)) == Ok(SequenceMerged(m, n))
  {
    var mid := m.(value := if n.value == 0 then m.value else n.value);
    SequencePuts(m, n);
    SequencePuts(mid, n);
    PutBoth(SEQUENCE, m, NumField(1, n.value), mid, NumField(2, ToUint64(n.timestamp)), SequenceMerged(m, n));
    ParseFields(SEQUENCE, m, SequenceFields(n));
  }

  lemma SequenceRoundTrip(m: Sequence)
    ensures Parse(SEQUENCE, NO_SEQUENCE, SequenceWire(m)) == Ok(m)
  {
    SequenceParsed(NO_SEQUENCE, m);
  }

  /** An endorsed sequence commitment determines value and timestamp. */
  lemma SequenceInjective(a: Sequence, b: Sequence)
    ensures SequenceWire(a) == SequenceWire(b) <==> a == b
  {
    SequenceRoundTrip(a);
    SequenceRoundTrip(b);
  }

  method MarshalSequence(m: Sequence, dAtA: array<Byte>, end: nat) returns (i: nat)
    requires SequenceSize(m) <= end <= dAtA.Length
    modifies dAtA
    ensures Holds(dAtA[..], old(dAtA[..]), i, end, SequenceWire(m)) && i == end - SequenceSize(m)
  {
    SequenceSizeIsLength(m);
    ghost var was := dAtA[..];
    NothingWritten(was, end);
    i := WriteNum(dAtA, end, end, 2, ToUint64(m.timestamp), was, []);
    NumFieldSize(2, ToUint64(m.timestamp));
    assert NumField(2, ToUint64(m.timestamp)) + [] == NumField(2, ToUint64(m.timestamp));
    i := WriteNum(dAtA, i, end, 1, m.value, was, NumField(2, ToUint64(m.timestamp)));
  }

  // ------------------------------------------------------------------ ChaincodeID

  datatype ChaincodeID = ChaincodeID(path: Small, name: Small, version: Small)

  const NO_CHAINCODE_ID := ChaincodeID([], [], [])

  function ChaincodeIDFields(m: ChaincodeID): (fs: seq<Field>)
    ensures AllValid(fs)
  {
    BlobField(1, m.path) + (BlobField(2, m.name) + BlobField(3, m.version))
  }

  function ChaincodeIDWire(m: ChaincodeID): Bytes { FieldsWire(ChaincodeIDFields(m)) }

  function ChaincodeIDKind(num: int): Kind { if 1 <= num <= 3 then SizedField else Unknown }

  function ChaincodeIDPut(m: ChaincodeID, num: int, v: Value): Result<ChaincodeID, Error> {
    if v.Num? then Err(WrongWireType)
    else Ok(if num == 1 then m.(path := v.bytes) else if num == 2 then m.(name := v.bytes) else m.(version := v.bytes))
  }

  const CHAINCODE_ID: Codec<ChaincodeID> := Codec(ChaincodeIDKind, ChaincodeIDPut)

  function ChaincodeIDSize(m: ChaincodeID): nat { BlobSize(m.path) + BlobSize(m.name) + BlobSize(m.version) }

  lemma ChaincodeIDSizeIsLength(m: ChaincodeID)
    ensures |ChaincodeIDWire(m)| == ChaincodeIDSize(m)
  {
    BlobFieldSize(1, m.path);
    BlobFieldSize(2, m.name);
    BlobFieldSize(3, m.version);
    Shorter(BlobField(2, m.name), BlobField(3, m.version));
    Shorter(BlobField(1, m.path), BlobField(2, m.name) + BlobField(3, m.version));
  }

  lemma ChaincodeIDRoundTrip(m: ChaincodeID)
    ensures Parse(CHAINCODE_ID, NO_CHAINCODE_ID, ChaincodeIDWire(m)) == Ok(m)
  {
    var x, y, z := BlobField(1, m.path), BlobField(2, m.name), BlobField(3, m.version);
    ParseFields(CHAINCODE_ID, NO_CHAINCODE_ID, ChaincodeIDFields(m));
    PutAllAppend(CHAINCODE_ID, NO_CHAINCODE_ID, x, y + z);
    PutAllAppend(CHAINCODE_ID, ChaincodeID(m.path, [], []), y, z);
    assert PutAll(CHAINCODE_ID, NO_CHAINCODE_ID, x) == Ok(ChaincodeID(m.path, [], []));
  }

  method MarshalChaincodeID(m: ChaincodeID, dAtA: array<Byte>, end: nat) returns (i: nat)
    requires ChaincodeIDSize(m) <= end <= dAtA.Length
    modifies dAtA
    ensures Holds(dAtA[..], old(dAtA[..]), i, end, ChaincodeIDWire(m)) && i == end - ChaincodeIDSize(m)
  {
    ChaincodeIDSizeIsLength(m);
    ghost var was := dAtA[..];
    ghost var y, z := BlobField(2, m.name), BlobField(3, m.version);
    BlobFieldSize(2, m.name);
    BlobFieldSize(3, m.version);
    Shorter(y, z);
    NothingWritten(was, end);
    i := WriteBlob(dAtA, end, end, 3, m.version, was, []);
    assert z + [] == z;
    i := WriteBlob(dAtA, i, end, 2, m.name, was, z);
    i := WriteBlob(dAtA, i, end, 1, m.path, was, y + z);
  }

  // ------------------------------------------------------------------ CommitmentProof

  datatype CommitmentProof = CommitmentProof(proposal: Small, nsIndex: Uint32, writeSetIndex: Uint32,
                                             identities: seq<Small>, signatures: seq<Small>)

  const NO_COMMITMENT_PROOF := CommitmentProof([], 0, 0, [], [])

  function CommitmentProofFields(m: CommitmentProof): (fs: seq<Field>)
    ensures AllValid(fs)
  {
    BlobField(1, m.proposal) + (NumField(2, m.nsIndex) + (NumField(3, m.writeSetIndex)
    + (Repeated(4, m.identities) + Repeated(5, m.signatures))))
  }

  function CommitmentProofWire(m: CommitmentProof): Bytes { FieldsWire(CommitmentProofFields(m)) }

  function CommitmentProofKind(num: int): Kind {
    if num == 2 || num == 3 then VarintField else if num == 1 || num == 4 || num == 5 then SizedField else Unknown
  }

  /** A 32-bit variable keeps the low bits of what is read. */
  function CommitmentProofPut(m: CommitmentProof, num: int, v: Value): Result<CommitmentProof, Error> {
    match v
    case Num(x) => Ok(if num == 2 then m.(nsIndex := x % TWO32) else m.(writeSetIndex := x % TWO32))
    case Blob(b) =>
      Ok(if num == 1 then m.(proposal := b)
         else if num == 4 then m.(identities := m.identities + [b])
         else m.(signatures := m.signatures + [b]))
  }

  const COMMITMENT_PROOF: Codec<CommitmentProof> := Codec(CommitmentProofKind, CommitmentProofPut)

  function CommitmentProofSize(m: CommitmentProof): nat {
    BlobSize(m.proposal) + NumSize(m.nsIndex) + NumSize(m.writeSetIndex)
    + RepeatedSize(m.identities) + RepeatedSize(m.signatures)
  }

  lemma CommitmentProofSizes(m: CommitmentProof)
    ensures |CommitmentProofWire(m)| == CommitmentProofSize(m)
    ensures var d, e := Repeated(4, m.identities), Repeated(5, m.signatures);
            var c := NumField(3, m.writeSetIndex) + (d + e);
            && |FieldsWire(e)| == RepeatedSize(m.signatures)
            && |FieldsWire(d + e)| == RepeatedSize(m.identities) + |FieldsWire(e)|
            && |FieldsWire(c)| == NumSize(m.writeSetIndex) + |FieldsWire(d + e)|
            && |FieldsWire(NumField(2, m.nsIndex) + c)| == NumSize(m.nsIndex) + |FieldsWire(c)|
  {
    var d, e := Repeated(4, m.identities), Repeated(5, m.signatures);
    BlobFieldSize(1, m.proposal);
    NumFieldSize(2, m.nsIndex);
    NumFieldSize(3, m.writeSetIndex);
    RepeatedFieldSize(4, m.identities);
    RepeatedFieldSize(5, m.signatures);
    Shorter(d, e);
    Shorter(NumField(3, m.writeSetIndex), d + e);
    Shorter(NumField(2, m.nsIndex), NumField(3, m.writeSetIndex) + (d + e));
    Shorter(BlobField(1, m.proposal), NumField(2, m.nsIndex) + (NumField(3, m.writeSetIndex) + (d + e)));
  }

  lemma PrefixesAppended(x: seq<Small>, bs: seq<Small>)
    ensures bs[..0] == [] && bs[0..] == bs && bs[..|bs|] == bs && x + [] == x
    ensures forall j :: 0 <= j < |bs| ==> (x + bs[..j]) + [bs[j]] == x + bs[..j + 1]
  {
  }

  lemma CommitmentProofIdentities(m: CommitmentProof, bs: seq<Small>)
    ensures PutAll(COMMITMENT_PROOF, m, Repeated(4, bs)) == Ok(m.(identities := m.identities + bs))
  {
    PrefixesAppended(m.identities, bs);
    var at := (k: nat) => m.(identities := m.identities + if k <= |bs| then bs[..k] else []);
    PutRepeated(COMMITMENT_PROOF, 4, bs, at, 0);
  }

  lemma CommitmentProofSignatures(m: CommitmentProof, bs: seq<Small>)
    ensures PutAll(COMMITMENT_PROOF, m, Repeated(5, bs)) == Ok(m.(signatures := m.signatures + bs))
  {
    PrefixesAppended(m.signatures, bs);
    var at := (k: nat) => m.(signatures := m.signatures + if k <= |bs| then bs[..k] else []);
    PutRepeated(COMMITMENT_PROOF, 5, bs, at, 0);
  }

  lemma CommitmentProofScalars(m: CommitmentProof, n: CommitmentProof)
    ensures PutAll(COMMITMENT_PROOF, m, BlobField(1, n.proposal)) ==
              Ok(m.(proposal := if n.proposal == [] then m.proposal else n.proposal))
    ensures PutAll(COMMITMENT_PROOF, m, NumField(2, n.nsIndex)) ==
              Ok(m.(nsIndex := if n.nsIndex == 0 then m.nsIndex else n.nsIndex))
    ensures PutAll(COMMITMENT_PROOF, m, NumField(3, n.writeSetIndex)) ==
              Ok(m.(writeSetIndex := if n.writeSetIndex == 0 then m.writeSetIndex else n.writeSetIndex))
  {
  }

  /** `m` after the fields of `n`: what `n` sets replaces, and repeated fields are appended. */
  function CommitmentProofMerged(m: CommitmentProof, n: CommitmentProof): CommitmentProof {
    CommitmentProof(if n.proposal == [] then m.proposal else n.proposal,
                    if n.nsIndex == 0 then m.nsIndex else n.nsIndex,
                    if n.writeSetIndex == 0 then m.writeSetIndex else n.writeSetIndex,
                    m.identities + n.identities, m.signatures + n.signatures)
  }

  lemma CommitmentProofPutAll(m: CommitmentProof, n: CommitmentProof)
    ensures PutAll(COMMITMENT_PROOF, m, CommitmentProofFields(n)) == Ok(CommitmentProofMerged(m, n))
  {
    var a, b, c := BlobField(1, n.proposal), NumField(2, n.nsIndex), NumField(3, n.writeSetIndex);
    var d, e := Repeated(4, n.identities), Repeated(5, n.signatures);
    var end := CommitmentProofMerged(m, n);
    var one := m.(proposal := end.proposal);
    var two := one.(nsIndex := end.nsIndex);
    var three := two.(writeSetIndex := end.writeSetIndex);
    var four := three.(identities := end.identities);
    CommitmentProofScalars(m, n);
    CommitmentProofScalars(one, n);
    CommitmentProofScalars(two, n);
    CommitmentProofIdentities(three, n.identities);
    CommitmentProofSignatures(four, n.signatures);
    PutBoth(COMMITMENT_PROOF, three, d, four, e, end);
    PutBoth(COMMITMENT_PROOF, two, c, three, d + e, end);
    PutBoth(COMMITMENT_PROOF, one, b, two, c + (d + e), end);
    PutBoth(COMMITMENT_PROOF, m, a, one, b + (c + (d + e)), end);
  }

  lemma CommitmentProofParsed(m: CommitmentProof, n: CommitmentProof)
    ensures Parse(COMMITMENT_PROOF, m, CommitmentProofWire(n)) == Ok(CommitmentProofMerged(m, n))
  {
    CommitmentProofPutAll(m, n);
    ParseFields(COMMITMENT_PROOF, m, CommitmentProofFields(n));
  }

  lemma CommitmentProofRoundTrip(m: CommitmentProof)
    ensures Parse(COMMITMENT_PROOF, NO_COMMITMENT_PROOF, CommitmentProofWire(m)) == Ok(m)
  {
    CommitmentProofParsed(NO_COMMITMENT_PROOF, m);
    assert [] + m.identities == m.identities && [] + m.signatures == m.signatures;
  }

  method MarshalCommitmentProof(m: CommitmentProof, dAtA: array<Byte>, end: nat) returns (i: nat)
    requires CommitmentProofSize(m) <= end <= dAtA.Length
    modifies dAtA
    ensures Holds(dAtA[..], old(dAtA[..]), i, end, CommitmentProofWire(m)) && i == end - CommitmentProofSize(m)
  {
    CommitmentProofSizes(m);
    ghost var was := dAtA[..];
    ghost var e := Repeated(5, m.signatures);
    ghost var d := Repeated(4, m.identities) + e;
    ghost var c := NumField(3, m.writeSetIndex) + d;
    NothingWritten(was, end);
    i := WriteRepeated(dAtA, end, end, 5, m.signatures, was, []);
    assert e + [] == e;
    i := WriteRepeated(dAtA, i, end, 4, m.identities, was, e);
    i := WriteNum(dAtA, i, end, 3, m.writeSetIndex, was, d);
    i := WriteNum(dAtA, i, end, 2, m.nsIndex, was, c);
    i := WriteBlob(dAtA, i, end, 1, m.proposal, was, NumField(2, m.nsIndex) + c);
  }

  // ------------------------------------------------------------------ MessageProof

  datatype MessageProof = MessageProof(identities: seq<Small>, signatures: seq<Small>)

  const NO_MESSAGE_PROOF := MessageProof([], [])

  function MessageProofFields(m: MessageProof): (fs: seq<Field>)
    ensures AllValid(fs)
  {
    Repeated(1, m.identities) + Repeated(2, m.signatures)
  }

  function MessageProofWire(m: MessageProof): Bytes { FieldsWire(MessageProofFields(m)) }

  function MessageProofKind(num: int): Kind { if num == 1 || num == 2 then SizedField else Unknown }

  function MessageProofPut(m: MessageProof, num: int, v: Value): Result<MessageProof, Error> {
    if v.Num? then Err(WrongWireType)
    else Ok(if num == 1 then m.(identities := m.identities + [v.bytes]) else m.(signatures := m.signatures + [v.bytes]))
  }

  const MESSAGE_PROOF: Codec<MessageProof> := Codec(MessageProofKind, MessageProofPut)

  function MessageProofSize(m: MessageProof): nat { RepeatedSize(m.identities) + RepeatedSize(m.signatures) }

  lemma MessageProofSizeIsLength(m: MessageProof)
    ensures |MessageProofWire(m)| == MessageProofSize(m)
  {
    RepeatedFieldSize(1, m.identities);
    RepeatedFieldSize(2, m.signatures);
    Shorter(Repeated(1, m.identities), Repeated(2, m.signatures));
  }

  lemma MessageProofPuts(m: MessageProof, bs: seq<Small>)
    ensures m.identities == [] ==> PutAll(MESSAGE_PROOF, m, Repeated(1, bs)) == Ok(m.(identities := bs))
    ensures m.signatures == [] ==> PutAll(MESSAGE_PROOF, m, Repeated(2, bs)) == Ok(m.(signatures := bs))
  {
    Prefixes(bs);
    if m.identities == [] {
      PutRepeated(MESSAGE_PROOF, 1, bs, (k: nat) => m.(identities := if k <= |bs| then bs[..k] else []), 0);
    }
    if m.signatures == [] {
      PutRepeated(MESSAGE_PROOF, 2, bs, (k: nat) => m.(signatures := if k <= |bs| then bs[..k] else []), 0);
    }
  }

  lemma MessageProofRoundTrip(m: MessageProof)
    ensures Parse(MESSAGE_PROOF, NO_MESSAGE_PROOF, MessageProofWire(m)) == Ok(m)
  {
    ParseFields(MESSAGE_PROOF, NO_MESSAGE_PROOF, MessageProofFields(m));
    MessageProofPuts(NO_MESSAGE_PROOF, m.identities);
    MessageProofPuts(m.(signatures := []), m.signatures);
    PutAllAppend(MESSAGE_PROOF, NO_MESSAGE_PROOF, Repeated(1, m.identities), Repeated(2, m.signatures));
  }

  method MarshalMessageProof(m: MessageProof, dAtA: array<Byte>, end: nat) returns (i: nat)
    requires MessageProofSize(m) <= end <= dAtA.Length
    modifies dAtA
    ensures Holds(dAtA[..], old(dAtA[..]), i, end, MessageProofWire(m)) && i == end - MessageProofSize(m)
  {
    MessageProofSizeIsLength(m);
    ghost var was := dAtA[..];
    RepeatedFieldSize(2, m.signatures);
    NothingWritten(was, end);
    i := WriteRepeated(dAtA, end, end, 2, m.signatures, was, []);
    assert Repeated(2, m.signatures) + [] == Repeated(2, m.signatures);
    i := WriteRepeated(dAtA, i, end, 1, m.identities, was, Repeated(2, m.signatures));
  }

  // ------------------------------------------------------------------ MSPInfo

  datatype MSPInfo = MSPInfo(mspId: Small, config: Small, policy: Small, freezed: bool)

  const NO_MSP_INFO := MSPInfo([], [], [], false)

  function Bit(b: bool): Uint64 { if b then 1 else 0 }

  function MSPInfoFields(m: MSPInfo): (fs: seq<Field>)
    ensures AllValid(fs)
  {
    BlobField(1, m.mspId) + (BlobField(2, m.config) + (BlobField(3, m.policy) + NumField(4, Bit(m.freezed))))
  }

  function MSPInfoWire(m: MSPInfo): Bytes { FieldsWire(MSPInfoFields(m)) }

  function MSPInfoKind(num: int): Kind {
    if 1 <= num <= 3 then SizedField else if num == 4 then VarintField else Unknown
  }

  function MSPInfoPut(m: MSPInfo, num: int, v: Value): Result<MSPInfo, Error> {
    match v
    case Num(x) => Ok(m.(freezed := x != 0))
    case Blob(b) =>
      Ok(if num == 1 then m.(mspId := b) else if num == 2 then m.(config := b) else m.(policy := b))
  }

  const MSP_INFO: Codec<MSPInfo> := Codec(MSPInfoKind, MSPInfoPut)

  function MSPInfoSize(m: MSPInfo): nat {
    BlobSize(m.mspId) + BlobSize(m.config) + BlobSize(m.policy) + if m.freezed then 2 else 0
  }

  lemma MSPInfoSizes(m: MSPInfo)
    ensures |MSPInfoWire(m)| == MSPInfoSize(m)
    ensures var d := NumField(4, Bit(m.freezed));
            var c := BlobField(3, m.policy) + d;
            && |FieldsWire(d)| == NumSize(Bit(m.freezed)) == (if m.freezed then 2 else 0)
            && |FieldsWire(c)| == BlobSize(m.policy) + |FieldsWire(d)|
            && |FieldsWire(BlobField(2, m.config) + c)| == BlobSize(m.config) + |FieldsWire(c)|
  {
    var d := NumField(4, Bit(m.freezed));
    BlobFieldSize(1, m.mspId);
    BlobFieldSize(2, m.config);
    BlobFieldSize(3, m.policy);
    NumFieldSize(4, Bit(m.freezed));
    SovIsLength(1);
    Shorter(BlobField(3, m.policy), d);
    Shorter(BlobField(2, m.config), BlobField(3, m.policy) + d);
    Shorter(BlobField(1, m.mspId), BlobField(2, m.config) + (BlobField(3, m.policy) + d));
  }

  lemma MSPInfoPuts(m: MSPInfo, num: nat, b: Small)
    requires 1 <= num <= 3 && (if num == 1 then m.mspId else if num == 2 then m.config else m.policy) == []
    ensures PutAll(MSP_INFO, m, BlobField(num, b)) ==
              Ok(if num == 1 then m.(mspId := b) else if num == 2 then m.(config := b) else m.(policy := b))
  {
  }

  lemma MSPInfoRoundTrip(m: MSPInfo)
    ensures Parse(MSP_INFO, NO_MSP_INFO, MSPInfoWire(m)) == Ok(m)
  {
    var a, b := BlobField(1, m.mspId), BlobField(2, m.config);
    var c, d := BlobField(3, m.policy), NumField(4, Bit(m.freezed));
    var one := NO_MSP_INFO.(mspId := m.mspId);
    var two := one.(config := m.config);
    var three := two.(policy := m.policy);
    MSPInfoPuts(NO_MSP_INFO, 1, m.mspId);
    MSPInfoPuts(one, 2, m.config);
    MSPInfoPuts(two, 3, m.policy);
    assert PutAll(MSP_INFO, three, d) == Ok(m);
    PutBoth(MSP_INFO, two, c, three, d, m);
    PutBoth(MSP_INFO, one, b, two, c + d, m);
    PutBoth(MSP_INFO, NO_MSP_INFO, a, one, b + (c + d), m);
    ParseFields(MSP_INFO, NO_MSP_INFO, MSPInfoFields(m));
  }

  method MarshalMSPInfo(m: MSPInfo, dAtA: array<Byte>, end: nat) returns (i: nat)
    requires MSPInfoSize(m) <= end <= dAtA.Length
    modifies dAtA
    ensures Holds(dAtA[..], old(dAtA[..]), i, end, MSPInfoWire(m)) && i == end - MSPInfoSize(m)
  {
    MSPInfoSizes(m);
    ghost var was := dAtA[..];
    ghost var d := NumField(4, Bit(m.freezed));
    ghost var c := BlobField(3, m.policy) + d;
    NothingWritten(was, end);
    i := end;
    if m.freezed {
      FieldSize(Field(4, Num(1)));
      i := PutTag(dAtA, i, end, 1, was, []);
      i := PutTag(dAtA, i, end, 0x20, was, [1] + []);
      assert FieldsWire([Field(4, Num(1))]) == FieldWire(Field(4, Num(1))) + FieldsWire([]);
      assert FieldWire(Field(4, Num(1))) == [0x20] + ([1] + []);
    }
    i := WriteBlob(dAtA, i, end, 3, m.policy, was, d);
    i := WriteBlob(dAtA, i, end, 2, m.config, was, c);
    i := WriteBlob(dAtA, i, end, 1, m.mspId, was, BlobField(2, m.config) + c);
  }
}
