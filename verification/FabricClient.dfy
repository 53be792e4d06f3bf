/** The Fabric light client: verifying a client message against the current state, and updating
    the client state and the store with it. */
module FabricClient {
  import opened Wrappers
  import opened Varint
  import opened Heights
  import opened Wire
  import opened FabricMsgs
  import opened FabricHeaders

  const CREATE: Int32 := 1
  const UPDATE_POLICY: Int32 := 2
  const UPDATE_CONFIG: Int32 := 3
  const FREEZE: Int32 := 4

  datatype ClientState = ClientState(id: Small, header: ChaincodeHeader, info: ChaincodeInfo, infos: seq<MSPInfo>) {
    function LatestHeight(): nat { header.sequence.value }
  }

  /** An update; at least one part must be present. */
  datatype Header = Header(chaincodeHeader: Option<ChaincodeHeader>, chaincodeInfo: Option<ChaincodeInfo>,
                           mspHeaders: Option<seq<MSPHeader>>) {
    predicate Valid() { chaincodeInfo.Some? ==> chaincodeInfo.value.Valid() }

    function Msps(): seq<MSPHeader> { if mspHeaders.None? then [] else mspHeaders.value }
  }

  /** Cryptography and policy evaluation, as unknown functions: whether a configuration decodes,
      whether a message proof satisfies a policy, and the value that a commitment proof shows
      to be endorsed under a key. */
  datatype Endorsement = Endorsement(
    decodes: Bytes -> bool,
    message: (Bytes, MessageProof, Bytes, seq<Bytes>) -> bool,
    committed: (ChaincodeID, Bytes, CommitmentProof, string, seq<Bytes>) -> Option<Bytes>)

  const SEQUENCE_KEY := "fabric-msp/sequence"

  // ------------------------------------------------------------------ organisations

  /** The first organisation with this id, or -1. */
  function IndexOf(infos: seq<MSPInfo>, mspId: Small): (i: int)
    ensures -1 <= i < |infos|
    ensures i >= 0 ==> infos[i].mspId == mspId
    ensures forall j :: 0 <= j < (if i < 0 then |infos| else i) ==> infos[j].mspId != mspId
  {
    if infos == [] then -1
    else if infos[0].mspId == mspId then 0
    else
      var i := IndexOf(infos[1..], mspId);
      if i < 0 then -1 else i + 1
  }

  function Live(infos: seq<MSPInfo>): seq<MSPInfo> {
    if infos == [] then []
    else Live(infos[..|infos| - 1]) + if infos[|infos| - 1].freezed then [] else [infos[|infos| - 1]]
  }

  function Configs(infos: seq<MSPInfo>): (cs: seq<Bytes>)
    ensures |cs| == |infos| && forall i :: 0 <= i < |cs| ==> cs[i] == infos[i].config
  {
    seq(|infos|, i requires 0 <= i < |infos| => infos[i].config)
  }

  /** The verification root: the configurations of the organisations that are not frozen. */
  function Root(check: Endorsement, infos: seq<MSPInfo>): Option<seq<Bytes>> {
    if forall i :: 0 <= i < |infos| ==> infos[i].freezed || (infos[i].config != [] && check.decodes(infos[i].config))
    then Some(Configs(Live(infos))) else None
  }

  method GetMSPPBConfigs(check: Endorsement, infos: seq<MSPInfo>) returns (r: Option<seq<Bytes>>)
    ensures r == Root(check, infos)
  {
    var configs: seq<Bytes> := [];
    for i := 0 to |infos|
      invariant configs == Configs(Live(infos[..i]))
      invariant forall j :: 0 <= j < i ==> infos[j].freezed || (infos[j].config != [] && check.decodes(infos[j].config))
    {
      assert infos[..i + 1][..i] == infos[..i];
      if infos[i].freezed { continue; }
      if infos[i].config == [] { return None; }
      if !check.decodes(infos[i].config) { return None; }
      configs := configs + [infos[i].config];
    }
    assert infos[..|infos|] == infos;
    return Some(configs);
  }

  // ------------------------------------------------------------------ verification

  predicate EndorsedBy(check: Endorsement, policy: Bytes, proof: Option<MessageProof>, signed: Bytes,
                       infos: seq<MSPInfo>) {
    proof.Some? && Root(check, infos).Some? && check.message(policy, proof.value, signed, Root(check, infos).value)
  }

  /** An MSP header is verified against the state before the whole update. */
  predicate VerifiedMSP(check: Endorsement, cs: ClientState, mh: MSPHeader) {
    var i := IndexOf(cs.infos, mh.mspId);
    && CREATE <= mh.kind <= FREEZE
    && (if mh.kind == CREATE then i < 0 else i >= 0 && !cs.infos[i].freezed)
    && var policy := if mh.kind == UPDATE_CONFIG then cs.infos[i].policy else cs.info.ibcPolicy;
       EndorsedBy(check, policy, mh.proof, MSPHeaderSignBytes(mh), cs.infos)
  }

  predicate VerifiedHeader(check: Endorsement, cs: ClientState, ch: ChaincodeHeader) {
    && cs.LatestHeight() < ch.sequence.value
    && Root(check, cs.infos).Some?
    && check.committed(cs.info.chaincodeId, cs.info.endorsementPolicy, ch.proof, SEQUENCE_KEY,
                       Root(check, cs.infos).value)
         == Some(SequenceWire(ch.sequence))
  }

  predicate VerifiedInfo(check: Endorsement, cs: ClientState, info: ChaincodeInfo)
    requires info.Valid()
  {
    EndorsedBy(check, cs.info.ibcPolicy, info.proof, ChaincodeInfoSignBytes(info), cs.infos)
  }

  predicate Verified(check: Endorsement, cs: ClientState, h: Header)
    requires h.Valid()
  {
    && (h.chaincodeHeader.Some? || h.chaincodeInfo.Some? || h.mspHeaders.Some?)
    && (h.chaincodeHeader.Some? ==> VerifiedHeader(check, cs, h.chaincodeHeader.value))
    && (h.chaincodeInfo.Some? ==> VerifiedInfo(check, cs, h.chaincodeInfo.value))
    && forall i :: 0 <= i < |h.Msps()| ==> VerifiedMSP(check, cs, h.Msps()[i])
  }

  method VerifyMSPHeader(check: Endorsement, cs: ClientState, mh: MSPHeader) returns (ok: bool)
    ensures ok == VerifiedMSP(check, cs, mh)
  {
    if mh.kind < CREATE || mh.kind > FREEZE { return false; }
    if mh.proof.None? { return false; }
    var policy := cs.info.ibcPolicy;
    var i := IndexOf(cs.infos, mh.mspId);
    if mh.kind == CREATE {
      if i != -1 { return false; }
    } else {
      if i < 0 { return false; }
      if cs.infos[i].freezed { return false; }
      if mh.kind == UPDATE_CONFIG { policy := cs.infos[i].policy; }
    }
    var configs := GetMSPPBConfigs(check, cs.infos);
    if configs.None? { return false; }
    return check.message(policy, mh.proof.value, MSPHeaderSignBytes(mh), configs.value);
  }

  method VerifyClientMessage(check: Endorsement, cs: ClientState, h: Header) returns (ok: bool)
    requires h.Valid()
    ensures ok == Verified(check, cs, h)
  {
    if h.chaincodeHeader.None? && h.chaincodeInfo.None? && h.mspHeaders.None? { return false; }
    if h.chaincodeHeader.Some? {
      var ch := h.chaincodeHeader.value;
      if cs.LatestHeight() >= ch.sequence.value { return false; }
      var configs := GetMSPPBConfigs(check, cs.infos);
      if configs.None? { return false; }
      var value := check.committed(cs.info.chaincodeId, cs.info.endorsementPolicy, ch.proof, SEQUENCE_KEY,
                                   configs.value);
      if value != Some(SequenceWire(ch.sequence)) { return false; }
    }
    if h.chaincodeInfo.Some? {
      var info := h.chaincodeInfo.value;
      if info.proof.None? { return false; }
      var configs := GetMSPPBConfigs(check, cs.infos);
      if configs.None? { return false; }
      if !check.message(cs.info.ibcPolicy, info.proof.value, ChaincodeInfoSignBytes(info),
                        configs.value) { return false; }
    }
    for i := 0 to |h.Msps()|
      invariant forall j :: 0 <= j < i ==> VerifiedMSP(check, cs, h.Msps()[j])
    {
      var verified := VerifyMSPHeader(check, cs, h.Msps()[i]);
      if !verified { return false; }
    }
    return true;
  }

  // ------------------------------------------------------------------ update

  function ApplyOne(infos: seq<MSPInfo>, mh: MSPHeader): seq<MSPInfo> {
    var i := IndexOf(infos, mh.mspId);
    if mh.kind == CREATE then infos + [MSPInfo(mh.mspId, mh.config, mh.policy, false)]
    else if i < 0 then infos
    else if mh.kind == UPDATE_POLICY then infos[i := infos[i].(policy := mh.policy)]
    else if mh.kind == UPDATE_CONFIG then infos[i := infos[i].(config := mh.config)]
    else if mh.kind == FREEZE then infos[i := infos[i].(freezed := true)]
    else infos
  }

  function Apply(infos: seq<MSPInfo>, headers: seq<MSPHeader>): seq<MSPInfo>
    decreases |headers|
  {
    if headers == [] then infos else Apply(ApplyOne(infos, headers[0]), headers[1..])
  }

  method ApplyMSPHeaders(init: seq<MSPInfo>, headers: seq<MSPHeader>) returns (infos: seq<MSPInfo>)
    ensures infos == Apply(init, headers)
  {
    infos := init;
    for i := 0 to |headers|
      invariant Apply(init, headers) == Apply(infos, headers[i..])
    {
      var mh := headers[i];
      assert headers[i..][0] == mh && headers[i..][1..] == headers[i + 1..];
      var idx := IndexOf(infos, mh.mspId);
      if mh.kind == CREATE {
        infos := infos + [MSPInfo(mh.mspId, mh.config, mh.policy, false)];
      } else if idx >= 0 {
        if mh.kind == UPDATE_POLICY {
          infos := infos[idx := infos[idx].(policy := mh.policy)];
        } else if mh.kind == UPDATE_CONFIG {
          infos := infos[idx := infos[idx].(config := mh.config)];
        } else if mh.kind == FREEZE {
          infos := infos[idx := infos[idx].(freezed := true)];
        }
      }
    }
    assert headers[|headers|..] == [];
  }

  /** When an update is executed. */
  datatype Context = Context(time: Uint64, self: Height)

  /** The client state and what the store holds by consensus height. */
  datatype Snapshot = Snapshot(state: ClientState, consensus: map<nat, Int64>,
                               times: map<nat, Uint64>, heights: map<nat, Height>)

  function UpdatedState(cs: ClientState, h: Header): ClientState {
    ClientState(cs.id,
                if h.chaincodeHeader.Some? then h.chaincodeHeader.value else cs.header,
                if h.chaincodeInfo.Some? then h.chaincodeInfo.value else cs.info,
                Apply(cs.infos, h.Msps()))
  }

  function Updated(s: Snapshot, h: Header, ctx: Context): Snapshot {
    var cs := UpdatedState(s.state, h);
    if h.chaincodeHeader.None? then s.(state := cs)
    else
      var n := cs.LatestHeight();
      Snapshot(cs, s.consensus[n := h.chaincodeHeader.value.sequence.timestamp], s.times[n := ctx.time],
               s.heights[n := ctx.self])
  }

  datatype DelayError = ProcessedTimeNotFound | ProcessedHeightNotFound | DelayPeriodNotPassed

  /** Unsigned 64-bit addition. */
  function Add64(x: Uint64, y: Uint64): Uint64 { if x + y >= TWO64 then x + y - TWO64 else x + y }

  function TimeError(s: Snapshot, ctx: Context, proofHeight: nat, delay: Uint64): Option<DelayError> {
    if delay == 0 then None
    else if proofHeight !in s.times then Some(ProcessedTimeNotFound)
    else if ctx.time < Add64(s.times[proofHeight], delay) then Some(DelayPeriodNotPassed)
    else None
  }

  function BlockError(s: Snapshot, ctx: Context, proofHeight: nat, delay: Uint64): Option<DelayError> {
    if delay == 0 then None
    else if proofHeight !in s.heights then Some(ProcessedHeightNotFound)
    else
      var p := s.heights[proofHeight];
      if ctx.self.Less(Height(p.revision, Add64(p.height, delay))) then Some(DelayPeriodNotPassed) else None
  }

  /** The client with its store, updated in place. */
  class Client {
    const check: Endorsement
    var state: ClientState
    var stored: ClientState
    var consensus: map<nat, Int64>
    var times: map<nat, Uint64>
    var heights: map<nat, Height>

    function Now(): Snapshot
      reads this
    { Snapshot(state, consensus, times, heights) }

    /** Initialize stores no processed time or height. */
    constructor (check: Endorsement, cs: ClientState, timestamp: Int64)
      ensures this.check == check && stored == state
      ensures Now() == Snapshot(cs, map[cs.LatestHeight() := timestamp], map[], map[])
    {
      this.check := check;
      state, stored := cs, cs;
      consensus := map[cs.LatestHeight() := timestamp];
      times, heights := map[], map[];
    }

    method UpdateState(h: Header, ctx: Context) returns (updated: seq<nat>)
      modifies this
      ensures Now() == Updated(old(Now()), h, ctx) && stored == state
      ensures state.id == old(state.id) && state.infos == Apply(old(state.infos), h.Msps())
      ensures state.header == if h.chaincodeHeader.Some? then h.chaincodeHeader.value else old(state.header)
      ensures state.info == if h.chaincodeInfo.Some? then h.chaincodeInfo.value else old(state.info)
      ensures h.chaincodeHeader.None? ==>
                consensus == old(consensus) && times == old(times) && heights == old(heights)
      ensures h.chaincodeHeader.Some? ==>
                var m := h.chaincodeHeader.value.sequence;
                && consensus == old(consensus)[m.value := m.timestamp]
                && times == old(times)[m.value := ctx.time] && heights == old(heights)[m.value := ctx.self]
      ensures updated == [state.header.sequence.value]
    {
      var cs := state;
      if h.chaincodeInfo.Some? {
        cs := cs.(info := h.chaincodeInfo.value);
      }
      if h.mspHeaders.Some? {
        var infos := ApplyMSPHeaders(cs.infos, h.mspHeaders.value);
        cs := cs.(infos := infos);
      }
      if h.chaincodeHeader.None? {
        stored := cs;
        state := cs;
        return [state.LatestHeight()];
      }
      cs := cs.(header := h.chaincodeHeader.value);
      var newHeight := cs.header.sequence.value;
      stored := cs;
      consensus := consensus[newHeight := cs.header.sequence.timestamp];
      times := times[newHeight := ctx.time];
      heights := heights[newHeight := ctx.self];
      state := cs;
      return [newHeight];
    }

    /** What ibc-go does with a client message: update only if it is verified. */
    method Receive(h: Header, ctx: Context) returns (ok: bool)
      requires h.Valid()
      modifies this
      ensures ok == Verified(check, old(state), h)
      ensures Now() == if ok then Updated(old(Now()), h, ctx) else old(Now())
    {
      ok := VerifyClientMessage(check, state, h);
      if ok {
        var updated := UpdateState(h, ctx);
      }
    }

    method VerifyDelayPeriodPassed(ctx: Context, proofHeight: nat, timeDelay: Uint64, blockDelay: Uint64)
      returns (e: Option<DelayError>)
      ensures e == var t := TimeError(Now(), ctx, proofHeight, timeDelay);
                   if t.Some? then t else BlockError(Now(), ctx, proofHeight, blockDelay)
      ensures timeDelay == 0 && blockDelay == 0 ==> e == None
      ensures timeDelay != 0 && proofHeight !in times ==> e == Some(ProcessedTimeNotFound)
      ensures timeDelay == 0 && blockDelay != 0 && proofHeight !in heights ==> e == Some(ProcessedHeightNotFound)
      ensures e == None && timeDelay != 0 ==>
                ctx.time >= (times[proofHeight] + timeDelay) % 0x1_0000_0000_0000_0000
      ensures e == None && blockDelay != 0 ==>
                var p := heights[proofHeight];
                || ctx.self.revision > p.revision
                || (ctx.self.revision == p.revision
                    && ctx.self.height >= (p.height + blockDelay) % 0x1_0000_0000_0000_0000)
    {
      if timeDelay != 0 {
        if proofHeight !in times { return Some(ProcessedTimeNotFound); }
        var validTime := Add64(times[proofHeight], timeDelay);
        if ctx.time < validTime { return Some(DelayPeriodNotPassed); }
      }
      if blockDelay != 0 {
        if proofHeight !in heights { return Some(ProcessedHeightNotFound); }
        var p := heights[proofHeight];
        if ctx.self.Less(Height(p.revision, Add64(p.height, blockDelay))) { return Some(DelayPeriodNotPassed); }
      }
      return None;
    }
  }
}
