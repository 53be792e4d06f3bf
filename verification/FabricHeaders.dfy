/** The messages of the Fabric light client that contain others, and what signatures cover. */
module FabricHeaders {
  import opened Wrappers
  import opened Varint
  import opened Wire
  import opened WireWriter
  import opened FabricMsgs

  /** Store a nested message: parse it into the current value. */
  function Merge<M>(c: Codec<M>, current: M, v: Value): Result<M, Error> {
    if v.Num? then Err(WrongWireType) else Parse(c, current, v.bytes)
  }

  /** A nested message is written even when it is empty. */
  function Nested(num: nat, wire: Small): (fs: seq<Field>)
    requires 1 <= num <= 15
    ensures AllValid(fs)
  {
    [Field(num, Blob(wire))]
  }

  lemma NestedSize(num: nat, wire: Small)
    requires 1 <= num <= 15
    ensures |FieldsWire(Nested(num, wire))| == SizedSize(|wire|)
  {
    FieldSize(Field(num, Blob(wire)));
  }

  /** The nested message's bytes were written below `at`; put length and tag in front. */
  method CloseNested(dAtA: array<Byte>, i: nat, at: nat, end: nat, num: nat, ghost wire: Small,
                     ghost mid: Bytes, ghost was: Bytes, ghost fs: seq<Field>) returns (j: nat)
    requires 1 <= num <= 15 && Written(mid, was, at, end, fs)
    requires Holds(dAtA[..], mid, i, at, wire) && SizedSize(|wire|) <= at
    modifies dAtA
    ensures Written(dAtA[..], was, j, end, Nested(num, wire) + fs)
  {
    HoldsBefore(dAtA[..], was, mid, at, end, FieldsWire(fs), wire);
    j := CloseSized(dAtA, i, end, num, wire, at - i, was, fs);
  }

  // ------------------------------------------------------------------ ChaincodeHeader

  datatype ChaincodeHeader = ChaincodeHeader(sequence: Sequence, proof: CommitmentProof) {
    predicate Valid() { CommitmentProofSize(proof) < TWO63 }
  }

  const NO_CHAINCODE_HEADER := ChaincodeHeader(NO_SEQUENCE, NO_COMMITMENT_PROOF)

  function SequenceBlob(m: Sequence): Small {
    SequenceSizeIsLength(m);
    SequenceWire(m)
  }

  function CommitmentProofBlob(m: CommitmentProof): Small
    requires CommitmentProofSize(m) < TWO63
  {
    CommitmentProofSizes(m);
    CommitmentProofWire(m)
  }

  function ChaincodeHeaderFields(m: ChaincodeHeader): (fs: seq<Field>)
    requires m.Valid()
    ensures AllValid(fs)
  {
    Nested(1, SequenceBlob(m.sequence)) + Nested(2, CommitmentProofBlob(m.proof))
  }

  function ChaincodeHeaderWire(m: ChaincodeHeader): Bytes
    requires m.Valid()
  {
    FieldsWire(ChaincodeHeaderFields(m))
  }

  function ChaincodeHeaderKind(num: int): Kind { if num == 1 || num == 2 then SizedField else Unknown }

  function ChaincodeHeaderPut(m: ChaincodeHeader, num: int, v: Value): Result<ChaincodeHeader, Error> {
    if num == 1 then
      var r := Merge(SEQUENCE, m.sequence, v);
      if r.Err? then Err(r.error) else Ok(m.(sequence := r.value))
    else
      var r := Merge(COMMITMENT_PROOF, m.proof, v);
      if r.Err? then Err(r.error) else Ok(m.(proof := r.value))
  }

  const CHAINCODE_HEADER: Codec<ChaincodeHeader> := Codec(ChaincodeHeaderKind, ChaincodeHeaderPut)

  function ChaincodeHeaderSize(m: ChaincodeHeader): nat {
    SizedSize(SequenceSize(m.sequence)) + SizedSize(CommitmentProofSize(m.proof))
  }

  lemma ChaincodeHeaderSizes(m: ChaincodeHeader)
    requires m.Valid()
    ensures |ChaincodeHeaderWire(m)| == ChaincodeHeaderSize(m)
    ensures |FieldsWire(Nested(2, CommitmentProofBlob(m.proof)))| == SizedSize(CommitmentProofSize(m.proof))
  {
    SequenceSizeIsLength(m.sequence);
    CommitmentProofSizes(m.proof);
    NestedSize(1, SequenceBlob(m.sequence));
    NestedSize(2, CommitmentProofBlob(m.proof));
    Shorter(Nested(1, SequenceBlob(m.sequence)), Nested(2, CommitmentProofBlob(m.proof)));
  }

  lemma ChaincodeHeaderPuts(m: ChaincodeHeader, x: Sequence, y: CommitmentProof)
    requires CommitmentProofSize(y) < TWO63
    ensures PutAll(CHAINCODE_HEADER, m, Nested(1, SequenceBlob(x))) == Ok(m.(sequence := SequenceMerged(m.sequence, x)))
    ensures PutAll(CHAINCODE_HEADER, m, Nested(2, CommitmentProofBlob(y)))
              == Ok(m.(proof := CommitmentProofMerged(m.proof, y)))
  {
    SequenceParsed(m.sequence, x);
    CommitmentProofParsed(m.proof, y);
  }

  /** A nested message is merged into what was read before. */
  lemma ChaincodeHeaderParsed(m: ChaincodeHeader, n: ChaincodeHeader)
    requires n.Valid()
    ensures Parse(CHAINCODE_HEADER, m, ChaincodeHeaderWire(n)) ==
              Ok(ChaincodeHeader(SequenceMerged(m.sequence, n.sequence), CommitmentProofMerged(m.proof, n.proof)))
  {
    var one := m.(sequence := SequenceMerged(m.sequence, n.sequence));
    ChaincodeHeaderPuts(m, n.sequence, n.proof);
    ChaincodeHeaderPuts(one, n.sequence, n.proof);
    PutBoth(CHAINCODE_HEADER, m, Nested(1, SequenceBlob(n.sequence)), one,
            Nested(2, CommitmentProofBlob(n.proof)), one.(proof := CommitmentProofMerged(m.proof, n.proof)));
    ParseFields(CHAINCODE_HEADER, m, ChaincodeHeaderFields(n));
  }

  lemma ChaincodeHeaderRoundTrip(m: ChaincodeHeader)
    requires m.Valid()
    ensures Parse(CHAINCODE_HEADER, NO_CHAINCODE_HEADER, ChaincodeHeaderWire(m)) == Ok(m)
  {
    ChaincodeHeaderParsed(NO_CHAINCODE_HEADER, m);
    assert [] + m.proof.identities == m.proof.identities && [] + m.proof.signatures == m.proof.signatures;
  }

  method MarshalChaincodeHeader(m: ChaincodeHeader, dAtA: array<Byte>, end: nat) returns (i: nat)
    requires m.Valid() && ChaincodeHeaderSize(m) <= end <= dAtA.Length
    modifies dAtA
    ensures Holds(dAtA[..], old(dAtA[..]), i, end, ChaincodeHeaderWire(m))
  {
    ChaincodeHeaderSizes(m);
    SequenceSizeIsLength(m.sequence);
    CommitmentProofSizes(m.proof);
    ghost var was := dAtA[..];
    NothingWritten(was, end);
    i := MarshalCommitmentProof(m.proof, dAtA, end);
    i := CloseNested(dAtA, i, end, end, 2, CommitmentProofBlob(m.proof), was, was, []);
    ghost var fs := Nested(2, CommitmentProofBlob(m.proof));
    assert fs + [] == fs;
    ghost var mid := dAtA[..];
    var at := i;
    i := MarshalSequence(m.sequence, dAtA, i);
    i := CloseNested(dAtA, i, at, end, 1, SequenceBlob(m.sequence), mid, was, fs);
  }

  // ------------------------------------------------------------------ optional proofs

  predicate ValidProof(p: Option<MessageProof>) { p.Some? ==> MessageProofSize(p.value) < TWO63 }

  function MessageProofBlob(m: MessageProof): Small
    requires MessageProofSize(m) < TWO63
  {
    MessageProofSizeIsLength(m);
    MessageProofWire(m)
  }

  function ProofField(p: Option<MessageProof>): (fs: seq<Field>)
    requires ValidProof(p)
    ensures AllValid(fs)
  {
    if p.None? then [] else Nested(5, MessageProofBlob(p.value))
  }

  function ProofSize(p: Option<MessageProof>): nat {
    if p.None? then 0 else SizedSize(MessageProofSize(p.value))
  }

  lemma ProofFieldSize(p: Option<MessageProof>)
    requires ValidProof(p)
    ensures |FieldsWire(ProofField(p))| == ProofSize(p)
  {
    if p.Some? {
      MessageProofSizeIsLength(p.value);
      NestedSize(5, MessageProofBlob(p.value));
    }
  }

  /** A nil proof is allocated before it is parsed. */
  function MergeProof(p: Option<MessageProof>, v: Value): Result<Option<MessageProof>, Error> {
    var r := Merge(MESSAGE_PROOF, if p.None? then NO_MESSAGE_PROOF else p.value, v);
    if r.Err? then Err(r.error) else Ok(Some(r.value))
  }

  method WriteProof(p: Option<MessageProof>, dAtA: array<Byte>, end: nat) returns (i: nat)
    requires ValidProof(p) && ProofSize(p) <= end <= dAtA.Length
    modifies dAtA
    ensures Written(dAtA[..], old(dAtA[..]), i, end, ProofField(p))
  {
    i := end;
    NothingWritten(dAtA[..], end);
    if p.Some? {
      ghost var was := dAtA[..];
      MessageProofSizeIsLength(p.value);
      i := MarshalMessageProof(p.value, dAtA, end);
      i := CloseNested(dAtA, i, end, end, 5, MessageProofBlob(p.value), was, was, []);
      assert Nested(5, MessageProofBlob(p.value)) + [] == ProofField(p);
    }
  }

  // ------------------------------------------------------------------ ChaincodeInfo

  datatype ChaincodeInfo = ChaincodeInfo(channelId: Small, chaincodeId: ChaincodeID, endorsementPolicy: Small,
                                         ibcPolicy: Small, proof: Option<MessageProof>) {
    predicate Valid() { ChaincodeIDSize(chaincodeId) < TWO63 && ValidProof(proof) }
  }

  const NO_CHAINCODE_INFO := ChaincodeInfo([], NO_CHAINCODE_ID, [], [], None)

  function ChaincodeIDBlob(m: ChaincodeID): Small
    requires ChaincodeIDSize(m) < TWO63
  {
    ChaincodeIDSizeIsLength(m);
    ChaincodeIDWire(m)
  }

  function ChaincodeInfoFields(m: ChaincodeInfo): (fs: seq<Field>)
    requires m.Valid()
    ensures AllValid(fs)
  {
    BlobField(1, m.channelId) + (Nested(2, ChaincodeIDBlob(m.chaincodeId))
    + (BlobField(3, m.endorsementPolicy) + (BlobField(4, m.ibcPolicy) + ProofField(m.proof))))
  }

  function ChaincodeInfoWire(m: ChaincodeInfo): Bytes
    requires m.Valid()
  {
    FieldsWire(ChaincodeInfoFields(m))
  }

  function ChaincodeInfoKind(num: int): Kind { if 1 <= num <= 5 then SizedField else Unknown }

  function ChaincodeInfoPut(m: ChaincodeInfo, num: int, v: Value): Result<ChaincodeInfo, Error> {
    if v.Num? then Err(WrongWireType)
    else if num == 1 then Ok(m.(channelId := v.bytes))
    else if num == 2 then
      var r := Merge(CHAINCODE_ID, m.chaincodeId, v);
      if r.Err? then Err(r.error) else Ok(m.(chaincodeId := r.value))
    else if num == 3 then Ok(m.(endorsementPolicy := v.bytes))
    else if num == 4 then Ok(m.(ibcPolicy := v.bytes))
    else
      var r := MergeProof(m.proof, v);
      if r.Err? then Err(r.error) else Ok(m.(proof := r.value))
  }

  const CHAINCODE_INFO: Codec<ChaincodeInfo> := Codec(ChaincodeInfoKind, ChaincodeInfoPut)

  function ChaincodeInfoSize(m: ChaincodeInfo): nat {
    BlobSize(m.channelId) + SizedSize(ChaincodeIDSize(m.chaincodeId)) + BlobSize(m.endorsementPolicy)
    + BlobSize(m.ibcPolicy) + ProofSize(m.proof)
  }

  lemma ChaincodeInfoSizes(m: ChaincodeInfo)
    requires m.Valid()
    ensures |ChaincodeInfoWire(m)| == ChaincodeInfoSize(m)
    ensures var d := BlobField(4, m.ibcPolicy) + ProofField(m.proof);
            var c := BlobField(3, m.endorsementPolicy) + d;
            && |FieldsWire(ProofField(m.proof))| == ProofSize(m.proof)
            && |FieldsWire(d)| == BlobSize(m.ibcPolicy) + ProofSize(m.proof)
            && |FieldsWire(c)| == BlobSize(m.endorsementPolicy) + |FieldsWire(d)|
            && |FieldsWire(Nested(2, ChaincodeIDBlob(m.chaincodeId)) + c)|
                 == SizedSize(ChaincodeIDSize(m.chaincodeId)) + |FieldsWire(c)|
  {
    BlobFieldSize(1, m.channelId);
    ChaincodeIDSizeIsLength(m.chaincodeId);
    NestedSize(2, ChaincodeIDBlob(m.chaincodeId));
    BlobFieldSize(3, m.endorsementPolicy);
    BlobFieldSize(4, m.ibcPolicy);
    ProofFieldSize(m.proof);
    var d := BlobField(4, m.ibcPolicy) + ProofField(m.proof);
    var c := BlobField(3, m.endorsementPolicy) + d;
    Shorter(BlobField(4, m.ibcPolicy), ProofField(m.proof));
    Shorter(BlobField(3, m.endorsementPolicy), d);
    Shorter(Nested(2, ChaincodeIDBlob(m.chaincodeId)), c);
    Shorter(BlobField(1, m.channelId), Nested(2, ChaincodeIDBlob(m.chaincodeId)) + c);
  }

  lemma ChaincodeInfoPutBlob(m: ChaincodeInfo, num: nat, b: Small)
    requires num == 1 || num == 3 || num == 4
    requires (if num == 1 then m.channelId else if num == 3 then m.endorsementPolicy else m.ibcPolicy) == []
    ensures PutAll(CHAINCODE_INFO, m, BlobField(num, b)) ==
              Ok(if num == 1 then m.(channelId := b)
                 else if num == 3 then m.(endorsementPolicy := b)
                 else m.(ibcPolicy := b))
  {
  }

  lemma ChaincodeInfoPutID(m: ChaincodeInfo, x: ChaincodeID)
    requires m.chaincodeId == NO_CHAINCODE_ID && ChaincodeIDSize(x) < TWO63
    ensures PutAll(CHAINCODE_INFO, m, Nested(2, ChaincodeIDBlob(x))) == Ok(m.(chaincodeId := x))
  {
    ChaincodeIDRoundTrip(x);
  }

  lemma ChaincodeInfoPutProof(m: ChaincodeInfo, p: Option<MessageProof>)
    requires m.proof == None && ValidProof(p)
    ensures PutAll(CHAINCODE_INFO, m, ProofField(p)) == Ok(m.(proof := p))
  {
    if p.Some? { MessageProofRoundTrip(p.value); }
  }

  lemma ChaincodeInfoRoundTrip(m: ChaincodeInfo)
    requires m.Valid()
    ensures Parse(CHAINCODE_INFO, NO_CHAINCODE_INFO, ChaincodeInfoWire(m)) == Ok(m)
  {
    var one := NO_CHAINCODE_INFO.(channelId := m.channelId);
    var two := one.(chaincodeId := m.chaincodeId);
    var three := two.(endorsementPolicy := m.endorsementPolicy);
    var four := three.(ibcPolicy := m.ibcPolicy);
    var b, e := Nested(2, ChaincodeIDBlob(m.chaincodeId)), ProofField(m.proof);
    var c, d := BlobField(3, m.endorsementPolicy), BlobField(4, m.ibcPolicy);
    ChaincodeInfoPutBlob(NO_CHAINCODE_INFO, 1, m.channelId);
    ChaincodeInfoPutID(one, m.chaincodeId);
    ChaincodeInfoPutBlob(two, 3, m.endorsementPolicy);
    ChaincodeInfoPutBlob(three, 4, m.ibcPolicy);
    ChaincodeInfoPutProof(four, m.proof);
    PutBoth(CHAINCODE_INFO, three, d, four, e, m);
    PutBoth(CHAINCODE_INFO, two, c, three, d + e, m);
    PutBoth(CHAINCODE_INFO, one, b, two, c + (d + e), m);
    PutBoth(CHAINCODE_INFO, NO_CHAINCODE_INFO, BlobField(1, m.channelId), one, b + (c + (d + e)), m);
    ParseFields(CHAINCODE_INFO, NO_CHAINCODE_INFO, ChaincodeInfoFields(m));
  }

  method MarshalChaincodeInfo(m: ChaincodeInfo, dAtA: array<Byte>, end: nat) returns (i: nat)
    requires m.Valid() && ChaincodeInfoSize(m) <= end <= dAtA.Length
    modifies dAtA
    ensures Holds(dAtA[..], old(dAtA[..]), i, end, ChaincodeInfoWire(m))
  {
    ChaincodeInfoSizes(m);
    ChaincodeIDSizeIsLength(m.chaincodeId);
    ghost var was := dAtA[..];
    ghost var e := ProofField(m.proof);
    ghost var d := BlobField(4, m.ibcPolicy) + e;
    ghost var c := BlobField(3, m.endorsementPolicy) + d;
    i := WriteProof(m.proof, dAtA, end);
    i := WriteBlob(dAtA, i, end, 4, m.ibcPolicy, was, e);
    i := WriteBlob(dAtA, i, end, 3, m.endorsementPolicy, was, d);
    ghost var mid := dAtA[..];
    var at := i;
    i := MarshalChaincodeID(m.chaincodeId, dAtA, i);
    i := CloseNested(dAtA, i, at, end, 2, ChaincodeIDBlob(m.chaincodeId), mid, was, c);
    i := WriteBlob(dAtA, i, end, 1, m.channelId, was, Nested(2, ChaincodeIDBlob(m.chaincodeId)) + c);
  }

  // ------------------------------------------------------------------ MSPHeader

  datatype MSPHeader = MSPHeader(kind: Int32, mspId: Small, config: Small, policy: Small, proof: Option<MessageProof>) {
    predicate Valid() { ValidProof(proof) }
  }

  const NO_MSP_HEADER := MSPHeader(0, [], [], [], None)

  function MSPHeaderFields(m: MSPHeader): (fs: seq<Field>)
    requires m.Valid()
    ensures AllValid(fs)
  {
    NumField(1, ToUint64(m.kind)) + (BlobField(2, m.mspId) + (BlobField(3, m.config)
    + (BlobField(4, m.policy) + ProofField(m.proof))))
  }

  function MSPHeaderWire(m: MSPHeader): Bytes
    requires m.Valid()
  {
    FieldsWire(MSPHeaderFields(m))
  }

  function MSPHeaderKind(num: int): Kind {
    if num == 1 then VarintField else if 2 <= num <= 5 then SizedField else Unknown
  }

  /** The enumeration keeps the low 32 bits of what is read. */
  function MSPHeaderPut(m: MSPHeader, num: int, v: Value): Result<MSPHeader, Error> {
    if v.Num? then Ok(m.(kind := ToInt32(v.raw)))
    else if num == 2 then Ok(m.(mspId := v.bytes))
    else if num == 3 then Ok(m.(config := v.bytes))
    else if num == 4 then Ok(m.(policy := v.bytes))
    else
      var r := MergeProof(m.proof, v);
      if r.Err? then Err(r.error) else Ok(m.(proof := r.value))
  }

  const MSP_HEADER: Codec<MSPHeader> := Codec(MSPHeaderKind, MSPHeaderPut)

  function MSPHeaderSize(m: MSPHeader): nat {
    NumSize(ToUint64(m.kind)) + BlobSize(m.mspId) + BlobSize(m.config) + BlobSize(m.policy) + ProofSize(m.proof)
  }

  lemma MSPHeaderSizes(m: MSPHeader)
    requires m.Valid()
    ensures |MSPHeaderWire(m)| == MSPHeaderSize(m)
    ensures var d := BlobField(4, m.policy) + ProofField(m.proof);
            var c := BlobField(3, m.config) + d;
            && |FieldsWire(ProofField(m.proof))| == ProofSize(m.proof)
            && |FieldsWire(d)| == BlobSize(m.policy) + ProofSize(m.proof)
            && |FieldsWire(c)| == BlobSize(m.config) + |FieldsWire(d)|
            && |FieldsWire(BlobField(2, m.mspId) + c)| == BlobSize(m.mspId) + |FieldsWire(c)|
  {
    NumFieldSize(1, ToUint64(m.kind));
    BlobFieldSize(2, m.mspId);
    BlobFieldSize(3, m.config);
    BlobFieldSize(4, m.policy);
    ProofFieldSize(m.proof);
    var d := BlobField(4, m.policy) + ProofField(m.proof);
    var c := BlobField(3, m.config) + d;
    Shorter(BlobField(4, m.policy), ProofField(m.proof));
    Shorter(BlobField(3, m.config), d);
    Shorter(BlobField(2, m.mspId), c);
    Shorter(NumField(1, ToUint64(m.kind)), BlobField(2, m.mspId) + c);
  }

  lemma MSPHeaderPutBlob(m: MSPHeader, num: nat, b: Small)
    requires 2 <= num <= 4 && (if num == 2 then m.mspId else if num == 3 then m.config else m.policy) == []
    ensures PutAll(MSP_HEADER, m, BlobField(num, b)) ==
              Ok(if num == 2 then m.(mspId := b) else if num == 3 then m.(config := b) else m.(policy := b))
  {
  }

  lemma MSPHeaderPutKind(kind: Int32)
    ensures PutAll(MSP_HEADER, NO_MSP_HEADER, NumField(1, ToUint64(kind))) == Ok(NO_MSP_HEADER.(kind := kind))
  {
    SignedRoundTrip(kind);
  }

  lemma MSPHeaderPutProof(m: MSPHeader, p: Option<MessageProof>)
    requires m.proof == None && ValidProof(p)
    ensures PutAll(MSP_HEADER, m, ProofField(p)) == Ok(m.(proof := p))
  {
    if p.Some? { MessageProofRoundTrip(p.value); }
  }

  lemma MSPHeaderRoundTrip(m: MSPHeader)
    requires m.Valid()
    ensures Parse(MSP_HEADER, NO_MSP_HEADER, MSPHeaderWire(m)) == Ok(m)
  {
    var one := NO_MSP_HEADER.(kind := m.kind);
    var two := one.(mspId := m.mspId);
    var three := two.(config := m.config);
    var four := three.(policy := m.policy);
    var b, c, d, e := BlobField(2, m.mspId), BlobField(3, m.config), BlobField(4, m.policy), ProofField(m.proof);
    MSPHeaderPutKind(m.kind);
    MSPHeaderPutBlob(one, 2, m.mspId);
    MSPHeaderPutBlob(two, 3, m.config);
    MSPHeaderPutBlob(three, 4, m.policy);
    MSPHeaderPutProof(four, m.proof);
    PutBoth(MSP_HEADER, three, d, four, e, m);
    PutBoth(MSP_HEADER, two, c, three, d + e, m);
    PutBoth(MSP_HEADER, one, b, two, c + (d + e), m);
    PutBoth(MSP_HEADER, NO_MSP_HEADER, NumField(1, ToUint64(m.kind)), one, b + (c + (d + e)), m);
    ParseFields(MSP_HEADER, NO_MSP_HEADER, MSPHeaderFields(m));
  }

  method MarshalMSPHeader(m: MSPHeader, dAtA: array<Byte>, end: nat) returns (i: nat)
    requires m.Valid() && MSPHeaderSize(m) <= end <= dAtA.Length
    modifies dAtA
    ensures Holds(dAtA[..], old(dAtA[..]), i, end, MSPHeaderWire(m)) && i == end - MSPHeaderSize(m)
  {
    MSPHeaderSizes(m);
    ghost var was := dAtA[..];
    ghost var e := ProofField(m.proof);
    ghost var d := BlobField(4, m.policy) + e;
    ghost var c := BlobField(3, m.config) + d;
    i := WriteProof(m.proof, dAtA, end);
    i := WriteBlob(dAtA, i, end, 4, m.policy, was, e);
    i := WriteBlob(dAtA, i, end, 3, m.config, was, d);
    i := WriteBlob(dAtA, i, end, 2, m.mspId, was, c);
    i := WriteNum(dAtA, i, end, 1, ToUint64(m.kind), was, BlobField(2, m.mspId) + c);
  }

  // ------------------------------------------------------------------ lists of messages

  /** Each element of field 1 is appended as it is parsed. */
  lemma {:induction false} PutElements<M>(c: Codec<seq<M>>, done: seq<M>, xs: seq<M>, bs: seq<Small>)
    requires |bs| == |xs|
    requires forall j: nat, d: seq<M> :: j < |bs| ==> c.put(d, 1, Blob(bs[j])) == Ok(d + [xs[j]])
    ensures PutAll(c, done, Repeated(1, bs)) == Ok(done + xs)
    decreases |xs|
  {
    if xs == [] {
      assert done + xs == done;
    } else {
      forall j: nat, d: seq<M> | j < |bs[1..]| ensures c.put(d, 1, Blob(bs[1..][j])) == Ok(d + [xs[1..][j]]) {
        assert bs[1..][j] == bs[j + 1];
      }
      PutElements(c, done + [xs[0]], xs[1..], bs[1..]);
      assert Repeated(1, bs)[1..] == Repeated(1, bs[1..]);
      assert done + [xs[0]] + xs[1..] == done + xs;
    }
  }

  lemma RepeatedRoundTrip<M>(c: Codec<seq<M>>, xs: seq<M>, bs: seq<Small>)
    requires |bs| == |xs| && c.kind(1) == SizedField
    requires forall j: nat, d: seq<M> :: j < |bs| ==> c.put(d, 1, Blob(bs[j])) == Ok(d + [xs[j]])
    ensures Parse(c, [], FieldsWire(Repeated(1, bs))) == Ok(xs)
  {
    PutElements(c, [], xs, bs);
    assert [] + xs == xs;
    ParseFields(c, [], Repeated(1, bs));
  }

  predicate ValidInfos(infos: seq<MSPInfo>) { forall i :: 0 <= i < |infos| ==> MSPInfoSize(infos[i]) < TWO63 }

  function MSPInfoBlob(m: MSPInfo): (b: Small)
    requires MSPInfoSize(m) < TWO63
    ensures b == MSPInfoWire(m)
  {
    MSPInfoSizes(m);
    MSPInfoWire(m)
  }

  function InfoBlobs(infos: seq<MSPInfo>): (bs: seq<Small>)
    requires ValidInfos(infos)
    ensures |bs| == |infos| && forall i :: 0 <= i < |bs| ==> bs[i] == MSPInfoWire(infos[i])
  {
    seq(|infos|, i requires 0 <= i < |infos| => MSPInfoBlob(infos[i]))
  }

  function MSPInfosKind(num: int): Kind { if num == 1 then SizedField else Unknown }

  function MSPInfosPut(m: seq<MSPInfo>, num: int, v: Value): Result<seq<MSPInfo>, Error> {
    var r := Merge(MSP_INFO, NO_MSP_INFO, v);
    if r.Err? then Err(r.error) else Ok(m + [r.value])
  }

  const MSP_INFOS: Codec<seq<MSPInfo>> := Codec(MSPInfosKind, MSPInfosPut)

  lemma MSPInfosPutOne(infos: seq<MSPInfo>, m: MSPInfo)
    requires MSPInfoSize(m) < TWO63
    ensures MSP_INFOS.put(infos, 1, Blob(MSPInfoBlob(m))) == Ok(infos + [m])
  {
    MSPInfoRoundTrip(m);
  }

  lemma MSPInfosRoundTrip(infos: seq<MSPInfo>)
    requires ValidInfos(infos)
    ensures Parse(MSP_INFOS, [], FieldsWire(Repeated(1, InfoBlobs(infos)))) == Ok(infos)
  {
    var bs := InfoBlobs(infos);
    forall j: nat, done: seq<MSPInfo> | j < |bs|
      ensures MSP_INFOS.put(done, 1, Blob(bs[j])) == Ok(done + [infos[j]])
    {
      MSPInfosPutOne(done, infos[j]);
    }
    RepeatedRoundTrip(MSP_INFOS, infos, bs);
  }

  lemma RepeatedStep(bs: seq<Small>, k: nat)
    requires k < |bs|
    ensures Nested(1, bs[k]) + Repeated(1, bs[k + 1..]) == Repeated(1, bs[k..])
    ensures RepeatedSize(bs[k..]) == SizedSize(|bs[k]|) + RepeatedSize(bs[k + 1..]) <= RepeatedSize(bs)
    ensures |FieldsWire(Repeated(1, bs[k..]))| == RepeatedSize(bs[k..])
  {
    RepeatedSizeSuffix(bs, k);
    RepeatedFieldSize(1, bs[k..]);
  }

  method MarshalMSPInfos(infos: seq<MSPInfo>, dAtA: array<Byte>, end: nat) returns (i: nat)
    requires ValidInfos(infos) && RepeatedSize(InfoBlobs(infos)) <= end <= dAtA.Length
    modifies dAtA
    ensures Holds(dAtA[..], old(dAtA[..]), i, end, FieldsWire(Repeated(1, InfoBlobs(infos))))
  {
    ghost var was, bs := dAtA[..], InfoBlobs(infos);
    i := end;
    assert Repeated(1, bs[|infos|..]) == [];
    for iNdEx := |infos| downto 0
      invariant Written(dAtA[..], was, i, end, Repeated(1, bs[iNdEx..]))
      invariant i == end - RepeatedSize(bs[iNdEx..])
    {
      ghost var rest, mid := Repeated(1, bs[iNdEx + 1..]), dAtA[..];
      RepeatedStep(bs, iNdEx);
      MSPInfoSizes(infos[iNdEx]);
      var at := i;
      i := MarshalMSPInfo(infos[iNdEx], dAtA, i);
      i := CloseNested(dAtA, i, at, end, 1, bs[iNdEx], mid, was, rest);
    }
    assert bs[0..] == bs;
  }

  predicate ValidHeaders(headers: seq<MSPHeader>) {
    forall i :: 0 <= i < |headers| ==> headers[i].Valid() && MSPHeaderSize(headers[i]) < TWO63
  }

  function MSPHeaderBlob(m: MSPHeader): (b: Small)
    requires m.Valid() && MSPHeaderSize(m) < TWO63
    ensures b == MSPHeaderWire(m)
  {
    MSPHeaderSizes(m);
    MSPHeaderWire(m)
  }

  function HeaderBlobs(headers: seq<MSPHeader>): (bs: seq<Small>)
    requires ValidHeaders(headers)
    ensures |bs| == |headers| && forall i :: 0 <= i < |bs| ==> bs[i] == MSPHeaderWire(headers[i])
  {
    seq(|headers|, i requires 0 <= i < |headers| => MSPHeaderBlob(headers[i]))
  }

  function MSPHeadersPut(m: seq<MSPHeader>, num: int, v: Value): Result<seq<MSPHeader>, Error> {
    var r := Merge(MSP_HEADER, NO_MSP_HEADER, v);
    if r.Err? then Err(r.error) else Ok(m + [r.value])
  }

  const MSP_HEADERS: Codec<seq<MSPHeader>> := Codec(MSPInfosKind, MSPHeadersPut)

  lemma MSPHeadersPutOne(headers: seq<MSPHeader>, m: MSPHeader)
    requires m.Valid() && MSPHeaderSize(m) < TWO63
    ensures MSP_HEADERS.put(headers, 1, Blob(MSPHeaderBlob(m))) == Ok(headers + [m])
  {
    MSPHeaderRoundTrip(m);
  }

  lemma MSPHeadersRoundTrip(headers: seq<MSPHeader>)
    requires ValidHeaders(headers)
    ensures Parse(MSP_HEADERS, [], FieldsWire(Repeated(1, HeaderBlobs(headers)))) == Ok(headers)
  {
    var bs := HeaderBlobs(headers);
    forall j: nat, done: seq<MSPHeader> | j < |bs|
      ensures MSP_HEADERS.put(done, 1, Blob(bs[j])) == Ok(done + [headers[j]])
    {
      MSPHeadersPutOne(done, headers[j]);
    }
    RepeatedRoundTrip(MSP_HEADERS, headers, bs);
  }

  // ------------------------------------------------------------------ sign bytes

  /** What the signatures of an MSP header cover: the header without its proof. */
  function MSPHeaderSignBytes(h: MSPHeader): Bytes { MSPHeaderWire(h.(proof := None)) }

  function ChaincodeInfoSignBytes(m: ChaincodeInfo): Bytes
    requires m.Valid()
  {
    ChaincodeInfoWire(m.(proof := None))
  }

  /** Equal sign bytes mean equal contents apart from the proof. */
  lemma MSPHeaderSignBytesIdentify(a: MSPHeader, b: MSPHeader)
    ensures MSPHeaderSignBytes(a) == MSPHeaderSignBytes(b) <==> a.(proof := None) == b.(proof := None)
  {
    MSPHeaderRoundTrip(a.(proof := None));
    MSPHeaderRoundTrip(b.(proof := None));
  }

  lemma ChaincodeInfoSignBytesIdentify(a: ChaincodeInfo, b: ChaincodeInfo)
    requires a.Valid() && b.Valid()
    ensures ChaincodeInfoSignBytes(a) == ChaincodeInfoSignBytes(b) <==> a.(proof := None) == b.(proof := None)
  {
    ChaincodeInfoRoundTrip(a.(proof := None));
    ChaincodeInfoRoundTrip(b.(proof := None));
  }

  // ------------------------------------------------------------------ Marshal and Unmarshal

  lemma WholeBuffer(now: Bytes, was: Bytes, i: nat, wire: Bytes)
    requires Holds(now, was, i, |was|, wire)
    ensures now[i..] == wire
  {
  }

  /** Marshal reserves Size() bytes and fills all of them. */
  method MarshalHeader(m: MSPHeader) returns (b: Bytes)
    requires m.Valid()
    ensures b == MSPHeaderWire(m) && |b| == MSPHeaderSize(m)
  {
    MSPHeaderSizes(m);
    var size := MSPHeaderSize(m);
    var dAtA := new Byte[size](_ => 0);
    ghost var was := dAtA[..];
    var i := MarshalMSPHeader(m, dAtA, size);
    WholeBuffer(dAtA[..], was, i, MSPHeaderWire(m));
    return dAtA[i..];
  }

  /** A marshalled MSP header is read back unchanged. */
  method UnmarshalHeader(b: Bytes) returns (r: Result<MSPHeader, Error>)
    ensures r == Parse(MSP_HEADER, NO_MSP_HEADER, b)
    ensures forall m: MSPHeader :: m.Valid() && b == MSPHeaderWire(m) ==> r == Ok(m)
  {
    r := Unmarshal(MSP_HEADER, NO_MSP_HEADER, b);
    forall m: MSPHeader | m.Valid() && b == MSPHeaderWire(m) ensures r == Ok(m) {
      MSPHeaderRoundTrip(m);
    }
  }
}
