/** What the light client accepts, part by part, and what an accepted update writes. */
module FabricUpdate {
  import opened Wrappers
  import opened Varint
  import opened Heights
  import Wire
  import opened FabricMsgs
  import opened FabricHeaders
  import opened FabricClient
  import opened FabricSafety

  // ------------------------------------------------------------------ what is accepted

  function OnlyHeader(ch: ChaincodeHeader): Header { Header(Some(ch), None, None) }

  function OnlyInfo(info: ChaincodeInfo): Header { Header(None, Some(info), None) }

  function OnlyMSP(mh: MSPHeader): Header { Header(None, None, Some([mh])) }

  /** A message is accepted exactly when it has a part and each part alone would be: the parts
      are verified independently, against the same state. */
  lemma PartsAccepted(check: Endorsement, cs: ClientState, h: Header)
    requires h.Valid()
    ensures Verified(check, cs, h) <==>
              && (h.chaincodeHeader.Some? || h.chaincodeInfo.Some? || h.mspHeaders.Some?)
              && (h.chaincodeHeader.Some? ==> Verified(check, cs, OnlyHeader(h.chaincodeHeader.value)))
              && (h.chaincodeInfo.Some? ==> Verified(check, cs, OnlyInfo(h.chaincodeInfo.value)))
              && (h.mspHeaders.Some? ==>
                    forall i :: 0 <= i < |h.mspHeaders.value| ==>
                      Verified(check, cs, OnlyMSP(h.mspHeaders.value[i])))
  {
    assert h.mspHeaders.Some? ==> h.Msps() == h.mspHeaders.value;
    forall mh: MSPHeader ensures Verified(check, cs, OnlyMSP(mh)) <==> VerifiedMSP(check, cs, mh) {
      assert OnlyMSP(mh).Msps() == [mh] && [mh][0] == mh;
    }
  }

  /** A chaincode header moves the sequence forward, and its bytes are endorsed under the
      sequence key by the chaincode's endorsement policy. */
  lemma HeaderAccepted(check: Endorsement, cs: ClientState, ch: ChaincodeHeader)
    ensures Verified(check, cs, OnlyHeader(ch)) <==>
              && cs.header.sequence.value < ch.sequence.value && Root(check, cs.infos).Some?
              && check.committed(cs.info.chaincodeId, cs.info.endorsementPolicy, ch.proof, "fabric-msp/sequence",
                                 Root(check, cs.infos).value) == Some(SequenceWire(ch.sequence))
  {
  }

  /** New chaincode information, without its proof, is signed under the current IBC policy. */
  lemma InfoAccepted(check: Endorsement, cs: ClientState, info: ChaincodeInfo)
    requires info.Valid()
    ensures Verified(check, cs, OnlyInfo(info)) <==>
              && info.proof.Some? && Root(check, cs.infos).Some?
              && check.message(cs.info.ibcPolicy, info.proof.value, ChaincodeInfoWire(info.(proof := None)),
                               Root(check, cs.infos).value)
  {
  }

  lemma FirstIndex(infos: seq<MSPInfo>, id: Wire.Small, i: nat)
    requires i < |infos| && infos[i].mspId == id && forall j :: 0 <= j < i ==> infos[j].mspId != id
    ensures IndexOf(infos, id) == i
  {
  }

  /** An MSP header creates an organisation that does not exist or changes the first one with
      its id, if that is not frozen.  The new configuration of an organisation is signed under
      the organisation's own policy, all else under the IBC policy. */
  lemma MSPAccepted(check: Endorsement, cs: ClientState, mh: MSPHeader)
    ensures Verified(check, cs, OnlyMSP(mh)) <==>
              && mh.proof.Some? && Root(check, cs.infos).Some?
              && if mh.kind == 1 then
                   && (forall i :: 0 <= i < |cs.infos| ==> cs.infos[i].mspId != mh.mspId)
                   && check.message(cs.info.ibcPolicy, mh.proof.value, MSPHeaderWire(mh.(proof := None)),
                                    Root(check, cs.infos).value)
                 else
                   2 <= mh.kind <= 4 && exists i ::
                     && 0 <= i < |cs.infos| && cs.infos[i].mspId == mh.mspId && !cs.infos[i].freezed
                     && (forall j :: 0 <= j < i ==> cs.infos[j].mspId != mh.mspId)
                     && check.message(if mh.kind == 3 then cs.infos[i].policy else cs.info.ibcPolicy, mh.proof.value,
                                      MSPHeaderWire(mh.(proof := None)), Root(check, cs.infos).value)
  {
    assert OnlyMSP(mh).Msps() == [mh] && [mh][0] == mh;
    var n := IndexOf(cs.infos, mh.mspId);
    forall i: nat | i < |cs.infos| && cs.infos[i].mspId == mh.mspId && forall j :: 0 <= j < i ==>
                      cs.infos[j].mspId != mh.mspId
      ensures i == n
    {
      FirstIndex(cs.infos, mh.mspId, i);
    }
  }

  // ------------------------------------------------------------------ what is written

  /** The organisations that the headers create, as they are stored. */
  function CreatedInfos(headers: seq<MSPHeader>): seq<MSPInfo> {
    if headers == [] then []
    else
      var mh := headers[0];
      (if mh.kind == 1 then [MSPInfo(mh.mspId, mh.config, mh.policy, false)] else []) + CreatedInfos(headers[1..])
  }

  /** Header `k` is the last of its kind that names `id`. */
  predicate IsLast(headers: seq<MSPHeader>, k: nat, kind: Int32, id: Wire.Small) {
    && k < |headers| && headers[k].kind == kind && headers[k].mspId == id
    && forall j :: k < j < |headers| ==> headers[j].kind != kind || headers[j].mspId != id
  }

  predicate Mentions(headers: seq<MSPHeader>, kind: Int32, id: Wire.Small) {
    exists k :: 0 <= k < |headers| && headers[k].kind == kind && headers[k].mspId == id
  }

  lemma MentionsFirst(headers: seq<MSPHeader>, kind: Int32, id: Wire.Small)
    requires headers != []
    ensures var here := headers[0].kind == kind && headers[0].mspId == id;
            && (Mentions(headers, kind, id) <==> here || Mentions(headers[1..], kind, id))
            && (IsLast(headers, 0, kind, id) <==> here && !Mentions(headers[1..], kind, id))
    ensures forall k: nat :: k > 0 ==> (IsLast(headers, k, kind, id) <==> IsLast(headers[1..], k - 1, kind, id))
  {
    var t := headers[1..];
    assert forall j :: 0 <= j < |t| ==> t[j] == headers[j + 1];
    assert forall j :: 0 < j < |headers| ==> headers[j] == t[j - 1];
  }

  /** The organisation `b` that `a` becomes: the last header of a kind decides the value that
      the kind sets, and what no header sets is kept. */
  ghost predicate Becomes(headers: seq<MSPHeader>, a: MSPInfo, b: MSPInfo) {
    && b.mspId == a.mspId
    && (forall k: nat :: IsLast(headers, k, 2, a.mspId) ==> b.policy == headers[k].policy)
    && (forall k: nat :: IsLast(headers, k, 3, a.mspId) ==> b.config == headers[k].config)
    && (!Mentions(headers, 2, a.mspId) ==> b.policy == a.policy)
    && (!Mentions(headers, 3, a.mspId) ==> b.config == a.config)
    && (b.freezed <==> a.freezed || Mentions(headers, 4, a.mspId))
  }

  /** One header, seen from one organisation. */
  function ChangedBy(a: MSPInfo, mh: MSPHeader): MSPInfo {
    if mh.mspId != a.mspId then a
    else if mh.kind == 2 then a.(policy := mh.policy)
    else if mh.kind == 3 then a.(config := mh.config)
    else if mh.kind == 4 then a.(freezed := true)
    else a
  }

  lemma BecomesFirst(headers: seq<MSPHeader>, a: MSPInfo, b: MSPInfo)
    requires headers != [] && Becomes(headers[1..], ChangedBy(a, headers[0]), b)
    ensures Becomes(headers, a, b)
  {
    var mh, t := headers[0], headers[1..];
    MentionsFirst(headers, 2, a.mspId);
    MentionsFirst(headers, 3, a.mspId);
    MentionsFirst(headers, 4, a.mspId);
    forall k: nat | IsLast(headers, k, 2, a.mspId) ensures b.policy == headers[k].policy {
      if k > 0 { assert t[k - 1] == headers[k]; }
    }
    forall k: nat | IsLast(headers, k, 3, a.mspId) ensures b.config == headers[k].config {
      if k > 0 { assert t[k - 1] == headers[k]; }
    }
  }

  lemma OneChange(infos: seq<MSPInfo>, mh: MSPHeader, i: nat)
    requires i < |infos| && IndexOf(infos, infos[i].mspId) == i
    ensures var next := ApplyOne(infos, mh);
            i < |next| && next[i] == ChangedBy(infos[i], mh) && IndexOf(next, next[i].mspId) == i
  {
    var next := ApplyOne(infos, mh);
    ApplyOneShape(infos, mh);
    SameIndex(infos, next, infos[i].mspId);
  }

  /** An organisation that is the first with its id, after the headers of an update. */
  lemma {:induction false} LastHeaderDecides(infos: seq<MSPInfo>, headers: seq<MSPHeader>, i: nat)
    requires i < |infos| && forall j :: 0 <= j < i ==> infos[j].mspId != infos[i].mspId
    ensures i < |Apply(infos, headers)| && Becomes(headers, infos[i], Apply(infos, headers)[i])
    decreases |headers|
  {
    if headers == [] {
    } else {
      var next := ApplyOne(infos, headers[0]);
      FirstIndex(infos, infos[i].mspId, i);
      OneChange(infos, headers[0], i);
      LastHeaderDecides(next, headers[1..], i);
      BecomesFirst(headers, infos[i], Apply(infos, headers)[i]);
    }
  }

  lemma {:induction false} CreatedAfter(check: Endorsement, cs: ClientState, infos: seq<MSPInfo>,
                                        headers: seq<MSPHeader>)
    requires AllVerified(check, cs, headers) && |cs.infos| <= |infos|
    requires forall k :: 0 <= k < |cs.infos| ==> infos[k].mspId == cs.infos[k].mspId
    ensures |cs.infos| <= |Apply(infos, headers)|
    ensures Apply(infos, headers)[|cs.infos|..] == infos[|cs.infos|..] + CreatedInfos(headers)
    decreases |headers|
  {
    if headers == [] {
    } else {
      var next := FirstApplied(check, cs, infos, headers);
      CreatedAfter(check, cs, next, headers[1..]);
    }
  }

  lemma FirstApplied(check: Endorsement, cs: ClientState, infos: seq<MSPInfo>, headers: seq<MSPHeader>)
    returns (next: seq<MSPInfo>)
    requires headers != [] && AllVerified(check, cs, headers) && |cs.infos| <= |infos|
    requires forall k :: 0 <= k < |cs.infos| ==> infos[k].mspId == cs.infos[k].mspId
    ensures Apply(infos, headers) == Apply(next, headers[1..]) && |cs.infos| <= |next|
    ensures forall k :: 0 <= k < |cs.infos| ==> next[k].mspId == cs.infos[k].mspId
    ensures infos[|cs.infos|..] + CreatedInfos(headers) == next[|cs.infos|..] + CreatedInfos(headers[1..])
  {
    var mh, n := headers[0], |cs.infos|;
    assert VerifiedMSP(check, cs, mh);
    SameIndex(cs.infos, infos, mh.mspId);
    ApplyOneShape(infos, mh);
    next := TailAfter(infos, mh, n);
    if mh.kind == 1 {
      TailAppend(infos, MSPInfo(mh.mspId, mh.config, mh.policy, false), n, CreatedInfos(headers[1..]));
    } else {
      assert CreatedInfos(headers) == CreatedInfos(headers[1..]);
    }
  }

  /** The organisations from position `n` on, none of which the header names unless it creates it. */
  lemma TailAfter(infos: seq<MSPInfo>, mh: MSPHeader, n: nat) returns (next: seq<MSPInfo>)
    requires n <= |infos| && (mh.kind != 1 ==> IndexOf(infos, mh.mspId) < n)
    ensures next == ApplyOne(infos, mh) && n <= |next|
    ensures mh.kind == 1 ==> next == infos + [MSPInfo(mh.mspId, mh.config, mh.policy, false)]
    ensures mh.kind != 1 ==> next[n..] == infos[n..]
  {
    next := ApplyOne(infos, mh);
    if mh.kind != 1 {
      assert |next| == |infos| && forall k :: n <= k < |infos| ==> next[k] == infos[k];
    }
  }

  lemma TailAppend<T>(xs: seq<T>, x: T, n: nat, rest: seq<T>)
    requires n <= |xs|
    ensures (xs + [x])[n..] + rest == xs[n..] + ([x] + rest)
  {
    assert (xs + [x])[n..] == xs[n..] + [x];
  }

  /** An accepted update appends exactly the organisations it creates, as created: none of its
      other headers can name them. */
  lemma CreatedAsGiven(check: Endorsement, cs: ClientState, h: Header)
    requires h.Valid() && Verified(check, cs, h)
    ensures var infos := UpdatedState(cs, h).infos;
            |cs.infos| <= |infos| && infos[|cs.infos|..] == CreatedInfos(h.Msps())
  {
    CreatedAfter(check, cs, cs.infos, h.Msps());
  }

  // ------------------------------------------------------------------ over runs

  lemma {:induction false} RunLast(check: Endorsement, s: Snapshot, inputs: seq<Input>)
    requires AllValid(inputs) && inputs != []
    ensures var n := |inputs| - 1;
            AllValid(inputs[..n]) && Run(check, s, inputs) == Step(check, Run(check, s, inputs[..n]), inputs[n])
    decreases |inputs|
  {
    var n := |inputs| - 1;
    if n == 0 {
      assert inputs[1..] == [] && inputs[..0] == [];
    } else {
      var t := Step(check, s, inputs[0]);
      RunLast(check, t, inputs[1..]);
      assert inputs[1..][..n - 1] == inputs[..n][1..];
    }
  }

  /** The state in which message `k` of a run arrives. */
  function Before(check: Endorsement, s: Snapshot, inputs: seq<Input>, k: nat): ClientState
    requires AllValid(inputs) && k <= |inputs|
  {
    Run(check, s, inputs[..k]).state
  }

  /** Message `k` carried this sequence, and the chaincode information and the root that were
      current when it arrived show the sequence's bytes to be endorsed. */
  predicate Brought(check: Endorsement, s: Snapshot, inputs: seq<Input>, k: nat, m: Sequence, ctx: Context)
    requires AllValid(inputs)
  {
    && k < |inputs| && inputs[k].ctx == ctx && inputs[k].header.chaincodeHeader.Some?
    && var ch, cs := inputs[k].header.chaincodeHeader.value, Before(check, s, inputs, k);
       && ch.sequence == m && Root(check, cs.infos).Some?
       && check.committed(cs.info.chaincodeId, cs.info.endorsementPolicy, ch.proof, "fabric-msp/sequence",
                          Root(check, cs.infos).value) == Some(SequenceWire(m))
  }

  /** The consensus state of height `h` in `t` was brought by a message of the run. */
  ghost predicate Accounted(check: Endorsement, s: Snapshot, inputs: seq<Input>, t: Snapshot, h: nat)
    requires AllValid(inputs)
  {
    && h < TWO64 && h in t.consensus && h in t.times && h in t.heights
    && exists k: nat :: Brought(check, s, inputs, k, Sequence(h, t.consensus[h]), Context(t.times[h], t.heights[h]))
  }

  lemma AccountedLonger(check: Endorsement, s: Snapshot, inputs: seq<Input>, n: nat, t: Snapshot, u: Snapshot, h: nat)
    requires AllValid(inputs) && n <= |inputs| && Accounted(check, s, inputs[..n], t, h)
    requires h in u.consensus && h in u.times && h in u.heights
    requires u.consensus[h] == t.consensus[h] && u.times[h] == t.times[h] && u.heights[h] == t.heights[h]
    ensures Accounted(check, s, inputs, u, h)
  {
    var m, ctx := Sequence(h, t.consensus[h]), Context(t.times[h], t.heights[h]);
    var k: nat :| Brought(check, s, inputs[..n], k, m, ctx);
    assert inputs[..n][..k] == inputs[..k];
    assert Brought(check, s, inputs, k, m, ctx);
  }

  lemma AddedByLast(check: Endorsement, s: Snapshot, inputs: seq<Input>, n: nat, h: nat)
    requires AllValid(inputs) && n < |inputs|
    requires var mid := Run(check, s, inputs[..n]); h in Step(check, mid, inputs[n]).consensus && h !in mid.consensus
    ensures Accounted(check, s, inputs, Step(check, Run(check, s, inputs[..n]), inputs[n]), h)
  {
    var m, ctx := inputs[n].header.chaincodeHeader.value.sequence, inputs[n].ctx;
    assert Brought(check, s, inputs, n, m, ctx);
  }

  /** Every consensus state that a run added holds the timestamp of an endorsed sequence of that
      height, with the time and height at which its message was executed. */
  lemma {:induction false} EveryStateEndorsed(check: Endorsement, s: Snapshot, inputs: seq<Input>, h: nat)
    requires Stored(s) && AllValid(inputs)
    requires h in Run(check, s, inputs).consensus && h !in s.consensus
    ensures Accounted(check, s, inputs, Run(check, s, inputs), h)
    decreases |inputs|
  {
    if inputs == [] {
    } else {
      var n := |inputs| - 1;
      var mid := Run(check, s, inputs[..n]);
      RunLast(check, s, inputs);
      if h in mid.consensus {
        HistoryAppendOnly(check, s, inputs[..n]);
        StepExtends(check, mid, inputs[n]);
        EveryStateEndorsed(check, s, inputs[..n], h);
        AccountedLonger(check, s, inputs, n, mid, Run(check, s, inputs), h);
      } else {
        AddedByLast(check, s, inputs, n, h);
      }
    }
  }

  /** Message `k` carried this information, signed under the IBC policy of its time. */
  predicate Replaced(check: Endorsement, s: Snapshot, inputs: seq<Input>, k: nat, info: ChaincodeInfo)
    requires AllValid(inputs)
  {
    && k < |inputs| && inputs[k].header.chaincodeInfo == Some(info) && info.Valid() && info.proof.Some?
    && var cs := Before(check, s, inputs, k);
       && Root(check, cs.infos).Some?
       && check.message(cs.info.ibcPolicy, info.proof.value, ChaincodeInfoWire(info.(proof := None)),
                        Root(check, cs.infos).value)
  }

  lemma InfoKept(check: Endorsement, s: Snapshot, inputs: seq<Input>, n: nat, info: ChaincodeInfo)
    requires AllValid(inputs) && n <= |inputs| && exists k: nat :: Replaced(check, s, inputs[..n], k, info)
    ensures exists k: nat :: Replaced(check, s, inputs, k, info)
  {
    var k: nat :| Replaced(check, s, inputs[..n], k, info);
    assert inputs[..n][..k] == inputs[..k];
    assert Replaced(check, s, inputs, k, info);
  }

  lemma InfoByLast(check: Endorsement, s: Snapshot, inputs: seq<Input>, n: nat)
    requires AllValid(inputs) && n < |inputs|
    ensures var mid := Run(check, s, inputs[..n]);
            var info := Step(check, mid, inputs[n]).state.info;
            info == mid.state.info || Replaced(check, s, inputs, n, info)
  {
  }

  /** The chaincode information is the first one or was signed under the IBC policy of the one
      it replaced, so trust in it is a chain from the first. */
  lemma {:induction false} EveryInfoEndorsed(check: Endorsement, s: Snapshot, inputs: seq<Input>)
    requires AllValid(inputs)
    ensures var info := Run(check, s, inputs).state.info;
            info == s.state.info || exists k: nat :: Replaced(check, s, inputs, k, info)
    decreases |inputs|
  {
    if inputs == [] {
    } else {
      var n := |inputs| - 1;
      RunLast(check, s, inputs);
      EveryInfoEndorsed(check, s, inputs[..n]);
      InfoByLast(check, s, inputs, n);
      var info := Run(check, s, inputs).state.info;
      if info == Run(check, s, inputs[..n]).state.info && info != s.state.info {
        InfoKept(check, s, inputs, n, info);
      }
    }
  }
}
