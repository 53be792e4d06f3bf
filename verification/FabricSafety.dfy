/** What every run of accepted updates keeps. */
module FabricSafety {
  import opened Wrappers
  import opened Varint
  import opened Heights
  import opened Wire
  import opened FabricMsgs
  import opened FabricHeaders
  import opened FabricClient

  // ------------------------------------------------------------------ runs

  datatype Input = Input(header: Header, ctx: Context)

  function Step(check: Endorsement, s: Snapshot, i: Input): Snapshot
    requires i.header.Valid()
  {
    if Verified(check, s.state, i.header) then Updated(s, i.header, i.ctx) else s
  }

  predicate AllValid(inputs: seq<Input>) { forall k :: 0 <= k < |inputs| ==> inputs[k].header.Valid() }

  function Run(check: Endorsement, s: Snapshot, inputs: seq<Input>): Snapshot
    requires AllValid(inputs)
    decreases |inputs|
  {
    if inputs == [] then s else Run(check, Step(check, s, inputs[0]), inputs[1..])
  }

  // ------------------------------------------------------------------ history

  /** The latest height has a consensus state and bounds all heights that have one. */
  predicate Bounded(s: Snapshot) {
    && s.state.LatestHeight() in s.consensus
    && forall h :: h in s.consensus ==> h <= s.state.LatestHeight()
  }

  /** Nothing stored is removed or overwritten, heights are only added above the latest, and
      exactly the added heights get a processed time and height. */
  predicate Extends(s: Snapshot, t: Snapshot) {
    && s.state.LatestHeight() <= t.state.LatestHeight()
    && (forall h :: h in s.consensus ==> h in t.consensus && t.consensus[h] == s.consensus[h])
    && (forall h :: h in t.consensus && h !in s.consensus ==> s.state.LatestHeight() < h)
    && (forall h :: h in s.times ==> h in t.times && t.times[h] == s.times[h])
    && (forall h :: h in s.heights ==> h in t.heights && t.heights[h] == s.heights[h])
    && t.times.Keys == s.times.Keys + (t.consensus.Keys - s.consensus.Keys)
    && t.heights.Keys == s.heights.Keys + (t.consensus.Keys - s.consensus.Keys)
  }

  predicate Stored(s: Snapshot) {
    Bounded(s) && s.times.Keys <= s.consensus.Keys && s.heights.Keys <= s.consensus.Keys
  }

  lemma StepExtends(check: Endorsement, s: Snapshot, i: Input)
    requires Stored(s) && i.header.Valid()
    ensures var t := Step(check, s, i); Stored(t) && Extends(s, t)
    ensures (s.state.LatestHeight() < Step(check, s, i).state.LatestHeight())
              <==> (Verified(check, s.state, i.header) && i.header.chaincodeHeader.Some?)
  {
  }

  lemma ExtendsTransitive(s: Snapshot, t: Snapshot, u: Snapshot)
    requires Extends(s, t) && Extends(t, u)
    ensures Extends(s, u)
  {
    assert u.consensus.Keys - s.consensus.Keys
        == (t.consensus.Keys - s.consensus.Keys) + (u.consensus.Keys - t.consensus.Keys);
  }

  /** The history is append-only over any run of received messages. */
  lemma {:induction false} HistoryAppendOnly(check: Endorsement, s: Snapshot, inputs: seq<Input>)
    requires Stored(s) && AllValid(inputs)
    ensures Stored(Run(check, s, inputs)) && Extends(s, Run(check, s, inputs))
    decreases |inputs|
  {
    if inputs == [] {
    } else {
      var t := Step(check, s, inputs[0]);
      StepExtends(check, s, inputs[0]);
      HistoryAppendOnly(check, t, inputs[1..]);
      ExtendsTransitive(s, t, Run(check, s, inputs));
    }
  }

  /** The number of accepted messages that carried a chaincode header. */
  function Advances(check: Endorsement, s: Snapshot, inputs: seq<Input>): nat
    requires AllValid(inputs)
    decreases |inputs|
  {
    if inputs == [] then 0
    else (if Verified(check, s.state, inputs[0].header) && inputs[0].header.chaincodeHeader.Some? then 1 else 0)
         + Advances(check, Step(check, s, inputs[0]), inputs[1..])
  }

  /** Each of them, and nothing else, adds one consensus state. */
  lemma {:induction false} OneStateForEachAdvance(check: Endorsement, s: Snapshot, inputs: seq<Input>)
    requires Stored(s) && AllValid(inputs)
    ensures |Run(check, s, inputs).consensus| == |s.consensus| + Advances(check, s, inputs)
    decreases |inputs|
  {
    if inputs == [] {
    } else {
      var t := Step(check, s, inputs[0]);
      StepExtends(check, s, inputs[0]);
      OneStateForEachAdvance(check, t, inputs[1..]);
      if Verified(check, s.state, inputs[0].header) && inputs[0].header.chaincodeHeader.Some? {
        assert t.consensus.Keys == s.consensus.Keys + {t.state.LatestHeight()};
        assert |t.consensus.Keys| == |s.consensus.Keys| + 1;
        assert |t.consensus| == |t.consensus.Keys| && |s.consensus| == |s.consensus.Keys|;
      }
    }
  }

  /** The same proof cannot advance a client to two different heights or timestamps. */
  lemma EndorsedSequenceUnique(check: Endorsement, cs: ClientState, a: ChaincodeHeader, b: ChaincodeHeader)
    requires VerifiedHeader(check, cs, a) && VerifiedHeader(check, cs, b) && a.proof == b.proof
    ensures a == b
  {
    SequenceInjective(a.sequence, b.sequence);
  }

  // ------------------------------------------------------------------ organisations

  function Ids(infos: seq<MSPInfo>): (ids: seq<Small>)
    ensures |ids| == |infos| && forall i :: 0 <= i < |ids| ==> ids[i] == infos[i].mspId
  {
    seq(|infos|, i requires 0 <= i < |infos| => infos[i].mspId)
  }

  /** The ids that the headers create. */
  function Created(headers: seq<MSPHeader>): seq<Small> {
    if headers == [] then []
    else (if headers[0].kind == CREATE then [headers[0].mspId] else []) + Created(headers[1..])
  }

  predicate Distinct(ids: seq<Small>) { forall i, j :: 0 <= i < j < |ids| ==> ids[i] != ids[j] }

  predicate AllVerified(check: Endorsement, cs: ClientState, headers: seq<MSPHeader>) {
    forall k :: 0 <= k < |headers| ==> VerifiedMSP(check, cs, headers[k])
  }

  lemma CreatedFirst(ids: seq<Small>, headers: seq<MSPHeader>)
    requires headers != []
    ensures (ids + if headers[0].kind == CREATE then [headers[0].mspId] else []) + Created(headers[1..])
              == ids + Created(headers)
  {
    var x := if headers[0].kind == CREATE then [headers[0].mspId] else [];
    Associative(ids, x, Created(headers[1..]));
    assert Created(headers) == x + Created(headers[1..]);
  }

  lemma Associative<T>(x: seq<T>, y: seq<T>, z: seq<T>)
    ensures (x + y) + z == x + (y + z)
  {
  }

  lemma IdsAfterOne(infos: seq<MSPInfo>, mh: MSPHeader)
    ensures Ids(ApplyOne(infos, mh)) == Ids(infos) + if mh.kind == CREATE then [mh.mspId] else []
  {
  }

  /** Organisations are never removed, renamed or reordered; new ones are appended in the
      order of their creation. */
  lemma {:induction false} IdsAfter(infos: seq<MSPInfo>, headers: seq<MSPHeader>)
    ensures Ids(Apply(infos, headers)) == Ids(infos) + Created(headers)
    decreases |headers|
  {
    if headers == [] {
    } else {
      IdsAfter(ApplyOne(infos, headers[0]), headers[1..]);
      IdsAfterOne(infos, headers[0]);
      CreatedFirst(Ids(infos), headers);
    }
  }

  lemma {:induction false} CreatedIsNew(check: Endorsement, cs: ClientState, headers: seq<MSPHeader>)
    requires AllVerified(check, cs, headers)
    ensures forall id :: id in Created(headers) ==> id !in Ids(cs.infos)
    decreases |headers|
  {
    if headers == [] {
    } else {
      assert VerifiedMSP(check, cs, headers[0]);
      CreatedIsNew(check, cs, headers[1..]);
    }
  }

  lemma DistinctAppend(x: seq<Small>, y: seq<Small>)
    ensures Distinct(x + y) <==> Distinct(x) && Distinct(y) && forall a :: a in y ==> a !in x
  {
    var z := x + y;
    if Distinct(z) {
      forall i, j | 0 <= i < j < |x| ensures x[i] != x[j] { assert z[i] != z[j]; }
      forall i, j | 0 <= i < j < |y| ensures y[i] != y[j] { assert z[|x| + i] != z[|x| + j]; }
      forall a | a in y ensures a !in x {
        var j :| 0 <= j < |y| && y[j] == a;
        forall i | 0 <= i < |x| ensures x[i] != a { assert z[i] != z[|x| + j]; }
      }
    }
    if Distinct(x) && Distinct(y) && forall a :: a in y ==> a !in x {
      forall i, j | 0 <= i < j < |z| ensures z[i] != z[j] {
        if i < |x| && j >= |x| { assert y[j - |x|] in y && x[i] in x; }
        if i >= |x| { assert y[i - |x|] != y[j - |x|]; }
      }
    }
  }

  /** Every header is verified against the old state, so ids stay unique exactly when no id is
      created twice in the same update. */
  lemma UniqueIff(check: Endorsement, cs: ClientState, headers: seq<MSPHeader>)
    requires Distinct(Ids(cs.infos)) && AllVerified(check, cs, headers)
    ensures Distinct(Ids(Apply(cs.infos, headers))) <==> Distinct(Created(headers))
  {
    IdsAfter(cs.infos, headers);
    CreatedIsNew(check, cs, headers);
    DistinctAppend(Ids(cs.infos), Created(headers));
  }

  /** Organisation `i` of the old list while the headers are applied: it is only touched by
      headers that name it, and only if it is the first with its id. */
  lemma {:induction false} OnlyNamedTouched(orig: seq<MSPInfo>, infos: seq<MSPInfo>, headers: seq<MSPHeader>, i: nat)
    requires i < |orig| <= |infos| && forall k :: 0 <= k < |orig| ==> infos[k].mspId == orig[k].mspId
    requires forall k :: 0 <= k < |headers| ==> headers[k].kind == CREATE || IndexOf(orig, headers[k].mspId) != i
    ensures i < |Apply(infos, headers)| && Apply(infos, headers)[i] == infos[i]
    decreases |headers|
  {
    if headers == [] {
    } else {
      TouchesOne(orig, infos, headers[0], i);
      OnlyNamedTouched(orig, ApplyOne(infos, headers[0]), headers[1..], i);
    }
  }

  lemma TouchesOne(orig: seq<MSPInfo>, infos: seq<MSPInfo>, mh: MSPHeader, i: nat)
    requires i < |orig| <= |infos| && forall k :: 0 <= k < |orig| ==> infos[k].mspId == orig[k].mspId
    requires mh.kind == CREATE || IndexOf(orig, mh.mspId) != i
    ensures var next := ApplyOne(infos, mh);
            && |infos| <= |next| && next[i] == infos[i]
            && forall k :: 0 <= k < |orig| ==> next[k].mspId == orig[k].mspId
  {
    SameIndex(orig, infos, mh.mspId);
    ApplyOneShape(infos, mh);
  }

  lemma ApplyOneShape(infos: seq<MSPInfo>, mh: MSPHeader)
    ensures var next := ApplyOne(infos, mh);
            && |infos| <= |next|
            && (forall k :: 0 <= k < |infos| ==> next[k].mspId == infos[k].mspId)
            && (forall k :: 0 <= k < |infos| && (mh.kind == CREATE || k != IndexOf(infos, mh.mspId)) ==>
                  next[k] == infos[k])
  {
  }

  lemma SameIndex(orig: seq<MSPInfo>, infos: seq<MSPInfo>, id: Small)
    requires |orig| <= |infos| && forall k :: 0 <= k < |orig| ==> infos[k].mspId == orig[k].mspId
    ensures IndexOf(orig, id) >= 0 ==> IndexOf(infos, id) == IndexOf(orig, id)
    ensures IndexOf(orig, id) < 0 ==> IndexOf(infos, id) < 0 || IndexOf(infos, id) >= |orig|
  {
  }

  /** An organisation that no header of the update names keeps everything. */
  lemma UnnamedUnchanged(infos: seq<MSPInfo>, headers: seq<MSPHeader>, i: nat)
    requires i < |infos|
    requires forall k :: 0 <= k < |headers| ==> headers[k].mspId != infos[i].mspId
    ensures i < |Apply(infos, headers)| && Apply(infos, headers)[i] == infos[i]
  {
    OnlyNamedTouched(infos, infos, headers, i);
  }

  lemma FrozenKept(check: Endorsement, cs: ClientState, headers: seq<MSPHeader>, i: nat)
    requires AllVerified(check, cs, headers) && i < |cs.infos| && cs.infos[i].freezed
    ensures i < |Apply(cs.infos, headers)| && Apply(cs.infos, headers)[i] == cs.infos[i]
  {
    forall k | 0 <= k < |headers| ensures headers[k].kind == CREATE || IndexOf(cs.infos, headers[k].mspId) != i {
      assert VerifiedMSP(check, cs, headers[k]);
    }
    OnlyNamedTouched(cs.infos, cs.infos, headers, i);
  }

  /** Freezing is permanent: a frozen organisation keeps its config and policy and stays frozen
      over every run, whether or not ids are unique. */
  lemma {:induction false} FrozenForever(check: Endorsement, s: Snapshot, inputs: seq<Input>, i: nat)
    requires AllValid(inputs) && i < |s.state.infos| && s.state.infos[i].freezed
    ensures i < |Run(check, s, inputs).state.infos| && Run(check, s, inputs).state.infos[i] == s.state.infos[i]
    decreases |inputs|
  {
    if inputs == [] {
    } else {
      if Verified(check, s.state, inputs[0].header) {
        FrozenKept(check, s.state, inputs[0].header.Msps(), i);
      }
      FrozenForever(check, Step(check, s, inputs[0]), inputs[1..], i);
    }
  }

  /** No update of the run creates one id twice. */
  predicate CreatesOnce(inputs: seq<Input>) {
    forall k :: 0 <= k < |inputs| ==> Distinct(Created(inputs[k].header.Msps()))
  }

  lemma {:induction false} UniqueForever(check: Endorsement, s: Snapshot, inputs: seq<Input>)
    requires AllValid(inputs) && CreatesOnce(inputs) && Distinct(Ids(s.state.infos))
    ensures Distinct(Ids(Run(check, s, inputs).state.infos))
    decreases |inputs|
  {
    if inputs == [] {
    } else {
      if Verified(check, s.state, inputs[0].header) {
        UniqueIff(check, s.state, inputs[0].header.Msps());
      }
      UniqueForever(check, Step(check, s, inputs[0]), inputs[1..]);
    }
  }

  // ------------------------------------------------------------------ the verification root

  /** `at` are the positions of the live organisations, which are `live`. */
  predicate Positions(infos: seq<MSPInfo>, live: seq<MSPInfo>, at: seq<nat>) {
    && |at| == |live|
    && (forall k :: 0 <= k < |at| ==> at[k] < |infos| && !infos[at[k]].freezed && live[k] == infos[at[k]])
    && (forall j, k :: 0 <= j < k < |at| ==> at[j] < at[k])
    && forall i :: 0 <= i < |infos| && !infos[i].freezed ==> i in at
  }

  lemma PositionsStep(infos: seq<MSPInfo>, live: seq<MSPInfo>, at: seq<nat>, x: MSPInfo)
    requires Positions(infos, live, at)
    ensures x.freezed ==> Positions(infos + [x], live, at)
    ensures !x.freezed ==> Positions(infos + [x], live + [x], at + [|infos|])
  {
    var more := at + [|infos|];
    assert forall i :: i in at ==> i in more;
    assert more[|at|] == |infos|;
  }

  lemma {:induction false} LivePositions(infos: seq<MSPInfo>) returns (at: seq<nat>)
    ensures Positions(infos, Live(infos), at)
  {
    if infos == [] {
      at := [];
    } else {
      var n := |infos| - 1;
      at := LivePositions(infos[..n]);
      PositionsStep(infos[..n], Live(infos[..n]), at, infos[n]);
      assert infos[..n] + [infos[n]] == infos;
      if !infos[n].freezed { at := at + [n]; }
    }
  }

  /** The root holds the configurations of exactly the organisations that are not frozen, in
      their order (`at` are their positions), and there is one when all of these decode. */
  lemma RootIsLive(check: Endorsement, infos: seq<MSPInfo>) returns (at: seq<nat>)
    ensures Root(check, infos).Some? <==>
            forall i :: 0 <= i < |infos| && !infos[i].freezed ==>
              infos[i].config != [] && check.decodes(infos[i].config)
    ensures Root(check, infos).Some? ==>
              var root := Root(check, infos).value;
              && |at| == |root|
              && forall k :: 0 <= k < |at| ==>
                   at[k] < |infos| && !infos[at[k]].freezed && root[k] == infos[at[k]].config
    ensures forall j, k :: 0 <= j < k < |at| ==> at[j] < at[k]
    ensures forall i :: 0 <= i < |infos| && !infos[i].freezed ==> i in at
  {
    at := LivePositions(infos);
  }

  lemma {:induction false} LiveIgnoresFrozen(infos: seq<MSPInfo>, i: nat, x: MSPInfo)
    requires i < |infos| && infos[i].freezed && x.freezed
    ensures Live(infos[i := x]) == Live(infos)
    decreases |infos|
  {
    var n := |infos| - 1;
    if i == n {
      assert infos[i := x][..n] == infos[..n];
    } else {
      assert infos[i := x][..n] == infos[..n][i := x];
      LiveIgnoresFrozen(infos[..n], i, x);
    }
  }

  /** What a frozen organisation holds never matters to the root. */
  lemma RootIgnoresFrozen(check: Endorsement, infos: seq<MSPInfo>, i: nat, x: MSPInfo)
    requires i < |infos| && infos[i].freezed && x.freezed
    ensures Root(check, infos[i := x]) == Root(check, infos)
  {
    LiveIgnoresFrozen(infos, i, x);
    var next := infos[i := x];
    assert next[i := infos[i]] == infos;
    assert forall j :: 0 <= j < |infos| && j != i ==> next[j] == infos[j];
  }

  /** With unique ids, an organisation that was frozen once never takes part in verification
      again, under any run of updates that create no id twice: the root at the end consists of
      configurations of live organisations with other ids, and whatever configuration were
      stored under the frozen id, the root would be the same. */
  lemma FrozenOutOfRoot(check: Endorsement, s: Snapshot, inputs: seq<Input>, i: nat, j: nat, config: Small)
    requires AllValid(inputs) && CreatesOnce(inputs) && Distinct(Ids(s.state.infos))
    requires i < |s.state.infos| && s.state.infos[i].freezed
    ensures var infos := Run(check, s, inputs).state.infos;
            var id := s.state.infos[i].mspId;
            && (Root(check, infos).Some? ==> forall c :: c in Root(check, infos).value ==>
                  exists x :: x in infos && !x.freezed && x.mspId != id && x.config == c)
            && (j < |infos| && infos[j].mspId == id ==>
                  Root(check, infos[j := infos[j].(config := config)]) == Root(check, infos))
  {
    var infos := Run(check, s, inputs).state.infos;
    FrozenForever(check, s, inputs, i);
    UniqueForever(check, s, inputs);
    if j < |infos| && infos[j].mspId == infos[i].mspId {
      SameId(infos, i, j);
      RootIgnoresFrozen(check, infos, j, infos[j].(config := config));
    }
    var at := RootIsLive(check, infos);
    if Root(check, infos).Some? {
      forall c | c in Root(check, infos).value
        ensures exists x :: x in infos && !x.freezed && x.mspId != infos[i].mspId && x.config == c
      {
        var k :| 0 <= k < |at| && Root(check, infos).value[k] == c;
        var x := infos[at[k]];
        if x.mspId == infos[i].mspId { SameId(infos, i, at[k]); }
        assert x in infos && x.config == c;
      }
    }
  }

  lemma SameId(infos: seq<MSPInfo>, i: nat, j: nat)
    requires i < |infos| && j < |infos| && Distinct(Ids(infos)) && infos[i].mspId == infos[j].mspId
    ensures i == j
  {
    assert Ids(infos)[i] == Ids(infos)[j];
  }

  /** The condition is needed: one update that creates an id twice is accepted, and freezing
      that id then leaves the configuration in the root. */
  lemma CreatedTwice(check: Endorsement, proof: MessageProof, config: Small)
    requires config != [] && check.decodes(config)
    requires forall policy, signed, configs :: check.message(policy, proof, signed, configs)
    ensures var cs := ClientState([], NO_CHAINCODE_HEADER, NO_CHAINCODE_INFO, []);
            var create := MSPHeader(CREATE, [1], config, [], Some(proof));
            var freeze := MSPHeader(FREEZE, [1], [], [], Some(proof));
            var two := cs.(infos := Apply([], [create, create]));
            var end := Apply(two.infos, [freeze]);
            && AllVerified(check, cs, [create, create]) && VerifiedMSP(check, two, freeze)
            && end == [MSPInfo([1], config, [], true), MSPInfo([1], config, [], false)]
            && Root(check, end) == Some([config])
  {
    var create := MSPHeader(CREATE, [1], config, [], Some(proof));
    var freeze := MSPHeader(FREEZE, [1], [], [], Some(proof));
    var cs := ClientState([], NO_CHAINCODE_HEADER, NO_CHAINCODE_INFO, []);
    var x := MSPInfo([1], config, [], false);
    AlwaysAccepted(check, cs, create, proof);
    assert forall k :: 0 <= k < 2 ==> [create, create][k] == create;
    CreateTwice(create);
    AlwaysAccepted(check, cs.(infos := [x, x]), freeze, proof);
    FreezeFirst(x, freeze);
    assert Root(check, [x.(freezed := true), x]) == Some(Configs([x]));
    assert Configs([x]) == [config];
  }

  /** With a proof that satisfies every policy, only the state of the organisation decides. */
  lemma AlwaysAccepted(check: Endorsement, cs: ClientState, mh: MSPHeader, proof: MessageProof)
    requires forall policy, signed, configs :: check.message(policy, proof, signed, configs)
    requires mh.proof == Some(proof) && Root(check, cs.infos).Some? && CREATE <= mh.kind <= FREEZE
    requires var i := IndexOf(cs.infos, mh.mspId); if mh.kind == CREATE then i < 0 else i >= 0 && !cs.infos[i].freezed
    ensures VerifiedMSP(check, cs, mh)
  {
  }

  lemma CreateTwice(create: MSPHeader)
    requires create.kind == CREATE
    ensures var x := MSPInfo(create.mspId, create.config, create.policy, false);
            Apply([], [create, create]) == [x, x]
  {
    var x := MSPInfo(create.mspId, create.config, create.policy, false);
    assert ApplyOne([], create) == [x] && ApplyOne([x], create) == [x, x];
    assert [create, create][1..] == [create] && [create][1..] == [];
    assert Apply([x], [create]) == Apply([x, x], []);
  }

  lemma FreezeFirst(x: MSPInfo, freeze: MSPHeader)
    requires freeze.kind == FREEZE && freeze.mspId == x.mspId && !x.freezed
    ensures Apply([x, x], [freeze]) == [x.(freezed := true), x] && Live([x.(freezed := true), x]) == [x]
  {
    var y := x.(freezed := true);
    assert ApplyOne([x, x], freeze) == [y, x];
    assert [freeze][1..] == [];
    assert Apply([y, x], []) == [y, x];
    LiveOne([], y);
    LiveOne([y], x);
    assert [] + [y] == [y] && [y] + [x] == [y, x];
  }

  lemma LiveOne(infos: seq<MSPInfo>, x: MSPInfo)
    ensures Live(infos + [x]) == Live(infos) + if x.freezed then [] else [x]
  {
    assert (infos + [x])[..|infos|] == infos;
  }

  // ------------------------------------------------------------------ who may change what

  /** Some header of the list has this kind and id and satisfied this policy. */
  predicate Endorsed(check: Endorsement, cs: ClientState, mh: MSPHeader, kind: Int32, id: Small, policy: Bytes) {
    mh.kind == kind && mh.mspId == id && EndorsedBy(check, policy, mh.proof, MSPHeaderSignBytes(mh), cs.infos)
  }

  /** What an intermediate list may differ in, given the headers applied so far: a new value is
      the one of a header that was endorsed. */
  predicate Justified(check: Endorsement, cs: ClientState, headers: seq<MSPHeader>, infos: seq<MSPInfo>, i: nat)
    requires i < |cs.infos| && i < |infos|
  {
    var a, b := cs.infos[i], infos[i];
    && b.mspId == a.mspId
    && (b.config != a.config ==>
          exists mh :: mh in headers && mh.config == b.config
                       && Endorsed(check, cs, mh, UPDATE_CONFIG, a.mspId, a.policy))
    && (b.policy != a.policy ==>
          exists mh :: mh in headers && mh.policy == b.policy
                       && Endorsed(check, cs, mh, UPDATE_POLICY, a.mspId, cs.info.ibcPolicy))
    && (b.freezed != a.freezed ==>
          b.freezed && exists mh :: mh in headers && Endorsed(check, cs, mh, FREEZE, a.mspId, cs.info.ibcPolicy))
  }

  lemma JustifiedStep(check: Endorsement, cs: ClientState, headers: seq<MSPHeader>, infos: seq<MSPInfo>, k: nat, i: nat)
    requires k < |headers| && VerifiedMSP(check, cs, headers[k]) && i < |cs.infos| <= |infos|
    requires var i := IndexOf(cs.infos, headers[k].mspId); i >= 0 ==> IndexOf(infos, headers[k].mspId) == i
    requires Justified(check, cs, headers, infos, i)
    ensures i < |ApplyOne(infos, headers[k])| && Justified(check, cs, headers, ApplyOne(infos, headers[k]), i)
  {
    var mh := headers[k];
    if mh.kind == CREATE || IndexOf(infos, mh.mspId) != i {
      ApplyOneShape(infos, mh);
      assert ApplyOne(infos, mh)[i] == infos[i];
    } else {
      var a := cs.infos[i];
      var policy := if mh.kind == UPDATE_CONFIG then a.policy else cs.info.ibcPolicy;
      assert mh in headers && Endorsed(check, cs, mh, mh.kind, a.mspId, policy);
    }
  }

  lemma {:induction false} ChangesJustified(check: Endorsement, cs: ClientState, infos: seq<MSPInfo>,
                                            headers: seq<MSPHeader>, done: nat, i: nat)
    requires AllVerified(check, cs, headers) && done <= |headers| && i < |cs.infos| <= |infos|
    requires forall k :: 0 <= k < |cs.infos| ==> infos[k].mspId == cs.infos[k].mspId
    requires Justified(check, cs, headers, infos, i)
    ensures var end := Apply(infos, headers[done..]); i < |end| && Justified(check, cs, headers, end, i)
    decreases |headers| - done
  {
    if done == |headers| {
    } else {
      var mh := headers[done];
      assert VerifiedMSP(check, cs, mh);
      assert headers[done..][0] == mh && headers[done..][1..] == headers[done + 1..];
      SameIndex(cs.infos, infos, mh.mspId);
      ApplyOneShape(infos, mh);
      JustifiedStep(check, cs, headers, infos, done, i);
      ChangesJustified(check, cs, ApplyOne(infos, mh), headers, done + 1, i);
    }
  }

  /** An organisation's configuration changes only with the endorsement its own policy asks
      for; its policy and its freezing only under the client's IBC policy; and an organisation
      is never unfrozen. */
  lemma EveryChangeEndorsed(check: Endorsement, cs: ClientState, h: Header, i: nat)
    requires h.Valid() && Verified(check, cs, h) && i < |cs.infos|
    ensures var infos := UpdatedState(cs, h).infos; i < |infos| && Justified(check, cs, h.Msps(), infos, i)
  {
    assert h.Msps()[0..] == h.Msps();
    ChangesJustified(check, cs, cs.infos, h.Msps(), 0, i);
  }

  // ------------------------------------------------------------------ delay periods

  /** Metadata exists exactly for the heights that updates added: a client that was just
      initialized has none, so any delay, in time or in blocks, fails for its first height. */
  lemma DelayNeedsUpdate(check: Endorsement, cs: ClientState, timestamp: Int64, inputs: seq<Input>, ctx: Context,
                         delay: Uint64)
    requires AllValid(inputs) && delay != 0
    ensures var start := Snapshot(cs, map[cs.LatestHeight() := timestamp], map[], map[]);
            var t := Run(check, start, inputs);
            forall h: nat ::
              && (TimeError(t, ctx, h, delay) == Some(ProcessedTimeNotFound)
                  <==> h == cs.LatestHeight() || h !in t.consensus)
              && (BlockError(t, ctx, h, delay) == Some(ProcessedHeightNotFound)
                  <==> h == cs.LatestHeight() || h !in t.consensus)
  {
    var start := Snapshot(cs, map[cs.LatestHeight() := timestamp], map[], map[]);
    HistoryAppendOnly(check, start, inputs);
    var t := Run(check, start, inputs);
    assert t.times.Keys == t.consensus.Keys - {cs.LatestHeight()};
    assert t.heights.Keys == t.consensus.Keys - {cs.LatestHeight()};
  }

  /** The time check asks for the full delay at every moment exactly when the sum of processed
      time and delay fits 64 bits. */
  lemma DelayExactIff(s: Snapshot, h: nat, delay: Uint64)
    requires h in s.times && delay != 0
    ensures (forall ctx: Context :: TimeError(s, ctx, h, delay) == None <==> ctx.time >= s.times[h] + delay)
              <==> s.times[h] + delay < TWO64
  {
    var late := Context(TWO64 - 1, Height(0, 0));
    assert TimeError(s, late, h, delay) == None;
  }

  /** The executing chain has reached block `h` of the revision, or a later revision. */
  predicate Reached(self: Height, revision: nat, h: nat) {
    self.revision > revision || (self.revision == revision && self.height >= h)
  }

  /** The block check asks for the full delay at every height exactly when the sum of processed
      height and delay fits 64 bits. */
  lemma BlockDelayExactIff(s: Snapshot, h: nat, delay: Uint64)
    requires h in s.heights && delay != 0
    ensures (forall ctx: Context :: BlockError(s, ctx, h, delay) == None
                                    <==> Reached(ctx.self, s.heights[h].revision, s.heights[h].height + delay))
              <==> s.heights[h].height + delay < TWO64
  {
    var p := s.heights[h];
    var late := Context(0, Height(p.revision, TWO64 - 1));
    assert BlockError(s, late, h, delay) == None;
  }
}
