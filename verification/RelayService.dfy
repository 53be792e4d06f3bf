/** One round of packet relay: from the packets and acknowledgements found to the message list
    of each chain. */
module RelayService {
  import opened Wrappers
  import opened Heights
  import opened Packets

  /** Messages for a chain; `proofHeight` is the height of the other chain their proof refers to. */
  datatype Msg =
    | UpdateClient(header: Height)
    | Recv(packet: Packet, proofHeight: Height)
    | Ack(packet: Packet, proofHeight: Height)
    | Timeout(packet: Packet, nextSequenceRecv: Uint64, proofHeight: Height)

  datatype Error = RefreshCheckFailed | HeadersFailed | ProofFailed

  /** What the chain that messages are relayed from answers in this round: its finalized height,
      the headers needed to update its client on the other chain up to there, whether that
      client must be refreshed, and which messages' proofs it can give. */
  datatype From = From(finalized: Height, headers: Option<seq<Height>>, refresh: Option<bool>, proves: Msg -> bool) {
    /** The light client's contract: intermediate headers, then the update header for the
        finalized height, or none at all when the client is up to date. */
    predicate Valid() {
      headers.Some? && headers.value != [] ==> headers.value[|headers.value| - 1] == finalized
    }
  }

  /** What is to be done for one chain: relay packets and acknowledgements, return its own
      packets that have timed out. */
  datatype Job = Job(noAck: bool, ordered: bool, packets: seq<Packet>, acks: seq<Packet>, timeouts: seq<Packet>,
                     doRelay: bool, doAck: bool)

  // ------------------------------------------------------------------ specification

  function TimeoutMsg(p: Packet, ordered: bool, h: Height): Msg { Timeout(p, if ordered then p.sequence else 1, h) }

  function Recvs(ps: seq<Packet>, h: Height): seq<Msg> { seq(|ps|, i requires 0 <= i < |ps| => Recv(ps[i], h)) }

  function Acks(ps: seq<Packet>, h: Height): seq<Msg> { seq(|ps|, i requires 0 <= i < |ps| => Ack(ps[i], h)) }

  function Timeouts(ps: seq<Packet>, ordered: bool, h: Height): seq<Msg> {
    seq(|ps|, i requires 0 <= i < |ps| => TimeoutMsg(ps[i], ordered, h))
  }

  function ClientUpdates(headers: seq<Height>): seq<Msg> {
    seq(|headers|, i requires 0 <= i < |headers| => UpdateClient(headers[i]))
  }

  function Proved(from: From, msgs: seq<Msg>): Result<seq<Msg>, Error> {
    if forall i :: 0 <= i < |msgs| ==> from.proves(msgs[i]) then Ok(msgs) else Err(ProofFailed)
  }

  /** Something that needs a proof is wanted for the chain. */
  predicate Needed(j: Job) { j.doRelay || (j.doAck && !j.noAck) || |j.timeouts| > 0 }

  function Updating(j: Job, from: From): Result<seq<Msg>, Error> {
    if !Needed(j) && from.refresh.None? then Err(RefreshCheckFailed)
    else if !Needed(j) && !from.refresh.value then Ok([])
    else if from.headers.None? then Err(HeadersFailed)
    else Ok(ClientUpdates(from.headers.value))
  }

  function Relaying(j: Job, from: From): Result<seq<Msg>, Error> {
    if j.doRelay then Proved(from, Recvs(j.packets, from.finalized)) else Ok([])
  }

  function Acknowledging(j: Job, from: From): Result<seq<Msg>, Error> {
    if j.doAck && !j.noAck then Proved(from, Acks(j.acks, from.finalized)) else Ok([])
  }

  function Returning(j: Job, from: From): Result<seq<Msg>, Error> {
    Proved(from, Timeouts(j.timeouts, j.ordered, from.finalized))
  }

  function Then(a: Result<seq<Msg>, Error>, b: Result<seq<Msg>, Error>): Result<seq<Msg>, Error> {
    if a.Err? then a else if b.Err? then b else Ok(a.value + b.value)
  }

  /** The list for one chain. */
  function Assembled(j: Job, from: From): Result<seq<Msg>, Error> {
    Then(Then(Then(Updating(j, from), Relaying(j, from)), Acknowledging(j, from)), Returning(j, from))
  }

  // ------------------------------------------------------------------ the code

  method UpdateClients(j: Job, from: From) returns (r: Result<seq<Msg>, Error>)
    ensures r == Updating(j, from)
  {
    var needsUpdate := j.doRelay || (j.doAck && !j.noAck) || |j.timeouts| > 0;
    if !needsUpdate {
      if from.refresh.None? { return Err(RefreshCheckFailed); }
      needsUpdate := from.refresh.value;
    }
    var msgs: seq<Msg> := [];
    if needsUpdate {
      if from.headers.None? { return Err(HeadersFailed); }
      if |from.headers.value| > 0 { msgs := ClientUpdates(from.headers.value); }
      assert msgs == ClientUpdates(from.headers.value);
    }
    return Ok(msgs);
  }

  method CollectPackets(from: From, packets: seq<Packet>) returns (r: Result<seq<Msg>, Error>)
    ensures r == Proved(from, Recvs(packets, from.finalized))
  {
    var msgs: seq<Msg> := [];
    for i := 0 to |packets|
      invariant msgs == Recvs(packets, from.finalized)[..i] && forall k :: 0 <= k < i ==> from.proves(msgs[k])
    {
      var msg := Recv(packets[i], from.finalized);
      assert Recvs(packets, from.finalized)[i] == msg;
      if !from.proves(msg) { return Err(ProofFailed); }
      msgs := msgs + [msg];
    }
    assert msgs == Recvs(packets, from.finalized);
    return Ok(msgs);
  }

  method CollectAcks(from: From, packets: seq<Packet>) returns (r: Result<seq<Msg>, Error>)
    ensures r == Proved(from, Acks(packets, from.finalized))
  {
    var msgs: seq<Msg> := [];
    for i := 0 to |packets|
      invariant msgs == Acks(packets, from.finalized)[..i] && forall k :: 0 <= k < i ==> from.proves(msgs[k])
    {
      var msg := Ack(packets[i], from.finalized);
      assert Acks(packets, from.finalized)[i] == msg;
      if !from.proves(msg) { return Err(ProofFailed); }
      msgs := msgs + [msg];
    }
    assert msgs == Acks(packets, from.finalized);
    return Ok(msgs);
  }

  method CollectTimeoutPackets(from: From, packets: seq<Packet>, ordered: bool) returns (r: Result<seq<Msg>, Error>)
    ensures r == Proved(from, Timeouts(packets, ordered, from.finalized))
  {
    var msgs: seq<Msg> := [];
    for i := 0 to |packets|
      invariant msgs == Timeouts(packets, ordered, from.finalized)[..i]
      invariant forall k :: 0 <= k < i ==> from.proves(msgs[k])
    {
      var nextSequenceRecv: Uint64 := 1;
      if ordered { nextSequenceRecv := packets[i].sequence; }
      var msg := Timeout(packets[i], nextSequenceRecv, from.finalized);
      assert Timeouts(packets, ordered, from.finalized)[i] == msg;
      if !from.proves(msg) { return Err(ProofFailed); }
      msgs := msgs + [msg];
    }
    assert msgs == Timeouts(packets, ordered, from.finalized);
    return Ok(msgs);
  }

  /** Update clients, relay packets, relay acknowledgements, then return timed-out packets. */
  method Assemble(j: Job, from: From) returns (r: Result<seq<Msg>, Error>)
    ensures r == Assembled(j, from)
  {
    var msgs := UpdateClients(j, from);
    if msgs.Err? { return msgs; }
    if j.doRelay {
      var m := CollectPackets(from, j.packets);
      if m.Err? { return m; }
      msgs := Ok(msgs.value + m.value);
    } else {
      assert msgs.value + [] == msgs.value;
    }
    if !j.noAck && j.doAck {
      var m := CollectAcks(from, j.acks);
      if m.Err? { return m; }
      msgs := Ok(msgs.value + m.value);
    } else {
      assert msgs.value + [] == msgs.value;
    }
    if |j.timeouts| > 0 {
      var m := CollectTimeoutPackets(from, j.timeouts, j.ordered);
      if m.Err? { return m; }
      msgs := Ok(msgs.value + m.value);
    } else {
      assert Timeouts(j.timeouts, j.ordered, from.finalized) == [] && msgs.value + [] == msgs.value;
    }
    return msgs;
  }

  // ------------------------------------------------------------------ when to relay

  datatype Optimize = Optimize(srcInterval: int, srcCount: nat, dstInterval: int, dstCount: nat)

  /** The oldest packet is old enough, or there are enough packets. */
  predicate Due(packets: seq<Packet>, count: nat, interval: int, age: Height -> Option<int>) {
    || |packets| >= count
    || (packets != [] && age(packets[0].eventHeight).Some? && age(packets[0].eventHeight).value >= interval)
  }

  predicate AgeKnown(packets: seq<Packet>, age: Height -> Option<int>) {
    packets == [] || age(packets[0].eventHeight).Some?
  }

  /** Relay to a chain when it is due; to neither chain when an age is not known. */
  method ShouldExecuteRelay(src: seq<Packet>, dst: seq<Packet>, opt: Optimize,
                            srcAge: Height -> Option<int>, dstAge: Height -> Option<int>)
    returns (srcRelay: bool, dstRelay: bool)
    ensures dstRelay <==>
              && (src == [] || srcAge(src[0].eventHeight).Some?) && (dst == [] || dstAge(dst[0].eventHeight).Some?)
              && (|src| >= opt.dstCount || (src != [] && srcAge(src[0].eventHeight).value >= opt.dstInterval))
    ensures srcRelay <==>
              && (src == [] || srcAge(src[0].eventHeight).Some?) && (dst == [] || dstAge(dst[0].eventHeight).Some?)
              && (|dst| >= opt.srcCount || (dst != [] && dstAge(dst[0].eventHeight).value >= opt.srcInterval))
  {
    srcRelay, dstRelay := false, false;
    if |src| > 0 {
      var age := srcAge(src[0].eventHeight);
      if age.None? { return false, false; }
      if age.value >= opt.dstInterval { dstRelay := true; }
    }
    if |dst| > 0 {
      var age := dstAge(dst[0].eventHeight);
      if age.None? { return false, false; }
      if age.value >= opt.srcInterval { srcRelay := true; }
    }
    if |dst| >= opt.srcCount { srcRelay := true; }
    if |src| >= opt.dstCount { dstRelay := true; }
  }

  /** The strategy's settings. */
  datatype Strategy = Strategy(srcNoAck: bool, dstNoAck: bool, srcOrdered: bool, dstOrdered: bool)

  /** What one chain answers in a round: the packets it has committed and the acknowledgements it
      has written up to its finalized height, what it has received and had acknowledged at its
      finalized and latest heights, its clocks, ages, and what it gives for relaying. */
  datatype Answers = Answers(committed: seq<Packet>, written: seq<Packet>,
                             received: set<Uint64>, receivedLatest: set<Uint64>,
                             acked: set<Uint64>, ackedLatest: set<Uint64>,
                             clocks: Receiver, age: Height -> Option<int>, from: From)

  /** The packets that `sender` still has to get to `receiver`. */
  function Pending(sender: Answers, receiver: Answers): seq<Packet> {
    Select(sender.committed, Unreceived(receiver.received + receiver.receivedLatest))
  }

  /** The acknowledgements that `writer` still has to get to `sender`. */
  function Unacknowledged(writer: Answers, sender: Answers): seq<Packet> {
    Select(writer.written, Unreceived(sender.acked + sender.ackedLatest))
  }

  /** What is pending is committed or written at the one chain, and at the other neither received nor
      acknowledged, at its finalized and at its latest height. */
  lemma PendingMembers(x: Answers, y: Answers, p: Packet)
    ensures p in Pending(x, y) <==>
              p in x.committed && p.sequence !in y.received && p.sequence !in y.receivedLatest
    ensures p in Unacknowledged(x, y) <==>
              p in x.written && p.sequence !in y.acked && p.sequence !in y.ackedLatest
  {
    SelectMembers(x.committed, Unreceived(y.received + y.receivedLatest));
    SelectMembers(x.written, Unreceived(y.acked + y.ackedLatest));
  }

  function Together(toSrc: Result<seq<Msg>, Error>, toDst: Result<seq<Msg>, Error>)
    : Result<(seq<Msg>, seq<Msg>), Error>
  {
    if toDst.Err? then Err(toDst.error) else if toSrc.Err? then Err(toSrc.error) else Ok((toSrc.value, toDst.value))
  }

  /** Discovery and classification: what to relay to each chain, what to return to it as timed
      out, and the acknowledgements found on the other chain. */
  method Discover(st: Strategy, src: Answers, dst: Answers)
    returns (toSrc: seq<Packet>, toDst: seq<Packet>, srcTimeout: seq<Packet>, dstTimeout: seq<Packet>,
             srcAcks: seq<Packet>, dstAcks: seq<Packet>)
    ensures Classified(st.srcOrdered, Pending(src, dst), dst.clocks, toDst, srcTimeout)
    ensures Classified(st.dstOrdered, Pending(dst, src), src.clocks, toSrc, dstTimeout)
    ensures srcAcks == if st.dstNoAck then [] else Unacknowledged(src, dst)
    ensures dstAcks == if st.srcNoAck then [] else Unacknowledged(dst, src)
  {
    var srcPackets := UnrelayedPackets(src.committed, dst.received, dst.receivedLatest, false);
    var dstPackets := UnrelayedPackets(dst.committed, src.received, src.receivedLatest, false);
    var rp := new RelayPackets(srcPackets, dstPackets);
    ProcessTimeoutPackets(rp, st.srcOrdered, st.dstOrdered, src.clocks, dst.clocks);
    toDst, toSrc, srcTimeout, dstTimeout := rp.src, rp.dst, rp.srcTimeout, rp.dstTimeout;
    srcAcks, dstAcks := [], [];
    if !st.dstNoAck { srcAcks := UnrelayedPackets(src.written, dst.acked, dst.ackedLatest, false); }
    if !st.srcNoAck { dstAcks := UnrelayedPackets(dst.written, src.acked, src.ackedLatest, false); }
  }

  /** Discovery, classification and assembly of one round.  `toSrc` and `toDst` are the two chains'
      jobs; a round in which either list fails sends nothing. */
  method Serve(st: Strategy, src: Answers, dst: Answers, opt: Optimize)
    returns (r: Result<(seq<Msg>, seq<Msg>), Error>, toSrc: Job, toDst: Job)
    ensures Classified(st.srcOrdered, Pending(src, dst), dst.clocks, toDst.packets, toSrc.timeouts)
    ensures Classified(st.dstOrdered, Pending(dst, src), src.clocks, toSrc.packets, toDst.timeouts)
    ensures toDst.noAck == st.srcNoAck && toDst.ordered == st.dstOrdered
    ensures toSrc.noAck == st.dstNoAck && toSrc.ordered == st.srcOrdered
    ensures toDst.acks == if st.dstNoAck then [] else Unacknowledged(src, dst)
    ensures toSrc.acks == if st.srcNoAck then [] else Unacknowledged(dst, src)
    ensures var known := AgeKnown(toDst.packets, src.age) && AgeKnown(toSrc.packets, dst.age);
            && toDst.doRelay == (known && Due(toDst.packets, opt.dstCount, opt.dstInterval, src.age))
            && toSrc.doRelay == (known && Due(toSrc.packets, opt.srcCount, opt.srcInterval, dst.age))
    ensures var known := AgeKnown(toDst.acks, src.age) && AgeKnown(toSrc.acks, dst.age);
            && toDst.doAck == (known && Due(toDst.acks, opt.dstCount, opt.dstInterval, src.age))
            && toSrc.doAck == (known && Due(toSrc.acks, opt.srcCount, opt.srcInterval, dst.age))
    ensures r.Ok? <==> Assembled(toSrc, dst.from).Ok? && Assembled(toDst, src.from).Ok?
    ensures r.Ok? ==> Ok(r.value.0) == Assembled(toSrc, dst.from) && Ok(r.value.1) == Assembled(toDst, src.from)
  {
    var srcPackets, dstPackets, srcTimeout, dstTimeout, srcAcks, dstAcks := Discover(st, src, dst);
    var relaySrc, relayDst := ShouldExecuteRelay(dstPackets, srcPackets, opt, src.age, dst.age);
    var ackSrc, ackDst := ShouldExecuteRelay(srcAcks, dstAcks, opt, src.age, dst.age);
    toDst := Job(st.srcNoAck, st.dstOrdered, dstPackets, srcAcks, dstTimeout, relayDst, ackDst);
    toSrc := Job(st.dstNoAck, st.srcOrdered, srcPackets, dstAcks, srcTimeout, relaySrc, ackSrc);
    var dstMsgs := Assemble(toDst, src.from);
    var srcMsgs := Assemble(toSrc, dst.from);
    r := Together(srcMsgs, dstMsgs);
  }

  // ------------------------------------------------------------------ properties

  predicate BearsProof(m: Msg) { !m.UpdateClient? }

  function Rank(m: Msg): nat {
    match m
    case UpdateClient(_) => 0
    case Recv(_, _) => 1
    case Ack(_, _) => 2
    case Timeout(_, _, _) => 3
  }

  /** The parts of a list. */
  lemma Parts(j: Job, from: From) returns (u: seq<Msg>, p: seq<Msg>, a: seq<Msg>, t: seq<Msg>)
    requires Assembled(j, from).Ok?
    ensures Assembled(j, from).value == u + p + a + t
    ensures Updating(j, from) == Ok(u) && Relaying(j, from) == Ok(p)
    ensures Acknowledging(j, from) == Ok(a) && Returning(j, from) == Ok(t)
    ensures forall m :: m in u ==> Rank(m) == 0
    ensures forall m :: m in p ==> Rank(m) == 1 && m.proofHeight == from.finalized
    ensures forall m :: m in a ==> Rank(m) == 2 && m.proofHeight == from.finalized
    ensures forall m :: m in t ==> Rank(m) == 3 && m.proofHeight == from.finalized
  {
    u, p := Updating(j, from).value, Relaying(j, from).value;
    a, t := Acknowledging(j, from).value, Returning(j, from).value;
  }

  /** Client updates come first, then packets, then acknowledgements, then timeouts. */
  lemma ListOrder(j: Job, from: From)
    requires Assembled(j, from).Ok?
    ensures var msgs := Assembled(j, from).value;
            forall i, k :: 0 <= i < k < |msgs| ==> Rank(msgs[i]) <= Rank(msgs[k])
  {
    var u, p, a, t := Parts(j, from);
    Ranks(u, 0, p, 1);
    Ranks(u + p, 1, a, 2);
    Ranks(u + p + a, 2, t, 3);
  }

  lemma Ranks(x: seq<Msg>, r: nat, y: seq<Msg>, s: nat)
    requires r <= s && (forall m :: m in y ==> Rank(m) == s) && forall m :: m in x ==> Rank(m) <= r
    requires forall i, k :: 0 <= i < k < |x| ==> Rank(x[i]) <= Rank(x[k])
    ensures forall i, k :: 0 <= i < k < |x + y| ==> Rank((x + y)[i]) <= Rank((x + y)[k])
    ensures forall m :: m in x + y ==> Rank(m) <= s
  {
    var z := x + y;
    forall i, k | 0 <= i < k < |z| ensures Rank(z[i]) <= Rank(z[k]) {
      assert i < |x| ==> x[i] in x;
      assert k >= |x| ==> y[k - |x|] in y;
      assert i >= |x| ==> y[i - |x|] in y;
    }
  }

  /** A message with a proof is never sent without asking for the headers its proof height
      needs: the list then starts with the client updates, the last of them is for the finalized
      height at which every proof in the list was taken, and there are none only if the light
      client answered that none are needed. */
  lemma ProofsHaveHeaders(j: Job, from: From, m: Msg)
    requires from.Valid() && Assembled(j, from).Ok? && m in Assembled(j, from).value && BearsProof(m)
    ensures Needed(j) && m.proofHeight == from.finalized
    ensures from.headers.Some?
    ensures var updates := ClientUpdates(from.headers.value);
            && updates <= Assembled(j, from).value
            && (updates == [] <==> from.headers.value == [])
            && (updates != [] ==> updates[|updates| - 1] == UpdateClient(m.proofHeight))
  {
    var u, p, a, t := Parts(j, from);
  }

  function IsRecv(): Msg -> bool { (m: Msg) => m.Recv? }

  function IsTimeoutMsg(): Msg -> bool { (m: Msg) => m.Timeout? }

  /** A list holds exactly the packets of its job, once and in order: nothing is dropped,
      duplicated or reordered on the way. */
  lemma ListContents(j: Job, from: From)
    requires Assembled(j, from).Ok?
    ensures var msgs := Assembled(j, from).value;
            && Select(msgs, IsRecv()) == (if j.doRelay then Recvs(j.packets, from.finalized) else [])
            && Select(msgs, IsTimeoutMsg()) == Timeouts(j.timeouts, j.ordered, from.finalized)
  {
    var u, p, a, t := Parts(j, from);
    SelectOneRank(u, p, a, t);
  }

  lemma SelectOneRank(u: seq<Msg>, p: seq<Msg>, a: seq<Msg>, t: seq<Msg>)
    requires (forall m :: m in u ==> Rank(m) == 0) && (forall m :: m in p ==> Rank(m) == 1)
    requires (forall m :: m in a ==> Rank(m) == 2) && (forall m :: m in t ==> Rank(m) == 3)
    ensures Select(u + p + a + t, IsRecv()) == p && Select(u + p + a + t, IsTimeoutMsg()) == t
  {
    SelectRecvs(u, p, a, t);
    SelectTimeouts(u, p, a, t);
  }

  lemma OnlySecond(a: seq<Msg>, b: seq<Msg>, c: seq<Msg>, d: seq<Msg>)
    requires a == [] && c == [] && d == []
    ensures a + b + c + d == b
  {
  }

  lemma SelectRecvs(u: seq<Msg>, p: seq<Msg>, a: seq<Msg>, t: seq<Msg>)
    requires (forall m :: m in u ==> Rank(m) == 0) && (forall m :: m in p ==> Rank(m) == 1)
    requires (forall m :: m in a ==> Rank(m) == 2) && (forall m :: m in t ==> Rank(m) == 3)
    ensures Select(u + p + a + t, IsRecv()) == p
  {
    SelectNone(u, IsRecv());
    SelectAll(p, IsRecv());
    SelectNone(a, IsRecv());
    SelectNone(t, IsRecv());
    OnlySecond(Select(u, IsRecv()), Select(p, IsRecv()), Select(a, IsRecv()), Select(t, IsRecv()));
    SelectRank(u, p, a, t, IsRecv());
  }

  lemma OnlyFourth(a: seq<Msg>, b: seq<Msg>, c: seq<Msg>, d: seq<Msg>)
    requires a == [] && b == [] && c == []
    ensures a + b + c + d == d
  {
  }

  lemma SelectTimeouts(u: seq<Msg>, p: seq<Msg>, a: seq<Msg>, t: seq<Msg>)
    requires (forall m :: m in u ==> Rank(m) == 0) && (forall m :: m in p ==> Rank(m) == 1)
    requires (forall m :: m in a ==> Rank(m) == 2) && (forall m :: m in t ==> Rank(m) == 3)
    ensures Select(u + p + a + t, IsTimeoutMsg()) == t
  {
    SelectNone(u, IsTimeoutMsg());
    SelectNone(p, IsTimeoutMsg());
    SelectNone(a, IsTimeoutMsg());
    SelectAll(t, IsTimeoutMsg());
    OnlyFourth(Select(u, IsTimeoutMsg()), Select(p, IsTimeoutMsg()), Select(a, IsTimeoutMsg()),
               Select(t, IsTimeoutMsg()));
    SelectRank(u, p, a, t, IsTimeoutMsg());
  }

  lemma SelectRank(u: seq<Msg>, p: seq<Msg>, a: seq<Msg>, t: seq<Msg>, f: Msg -> bool)
    ensures Select(u + p + a + t, f) == Select(u, f) + Select(p, f) + Select(a, f) + Select(t, f)
  {
    SelectAppend(u + p + a, t, f);
    SelectAppend(u + p, a, f);
    SelectAppend(u, p, f);
  }

  lemma {:induction false} SelectAll<T>(xs: seq<T>, f: T -> bool)
    requires forall x :: x in xs ==> f(x)
    ensures Select(xs, f) == xs
  {
    if xs == [] {
    } else {
      var front, last := xs[..|xs| - 1], xs[|xs| - 1];
      assert xs == front + [last] && last in xs;
      assert forall x :: x in front ==> x in xs;
      SelectAll(front, f);
      SelectStep(xs, f);
    }
  }

  lemma {:induction false} SelectNone<T>(xs: seq<T>, f: T -> bool)
    requires forall x :: x in xs ==> !f(x)
    ensures Select(xs, f) == []
  {
    if xs == [] {
    } else {
      var front := xs[..|xs| - 1];
      assert xs[|xs| - 1] in xs && forall x :: x in front ==> x in xs;
      SelectNone(front, f);
      SelectStep(xs, f);
    }
  }

  /** The list position by position: the headers' client updates if a proof or a refresh asks for
      them, then the packets and the acknowledgements that are due, then the timeouts, which carry
      the packet's sequence on an ordered channel and the placeholder 1 otherwise. */
  lemma ListExactly(j: Job, from: From)
    requires Assembled(j, from).Ok?
    ensures var msgs, h := Assembled(j, from).value, from.finalized;
            var needed := j.doRelay || (j.doAck && !j.noAck) || j.timeouts != [];
            var u := if needed || from.refresh.value then |from.headers.value| else 0;
            var p := if j.doRelay then |j.packets| else 0;
            var a := if j.doAck && !j.noAck then |j.acks| else 0;
            && |msgs| == u + p + a + |j.timeouts|
            && (forall i :: 0 <= i < u ==> msgs[i] == UpdateClient(from.headers.value[i]))
            && (forall i :: 0 <= i < p ==> msgs[u + i] == Recv(j.packets[i], h))
            && (forall i :: 0 <= i < a ==> msgs[u + p + i] == Ack(j.acks[i], h))
            && (forall i :: 0 <= i < |j.timeouts| ==>
                  msgs[u + p + a + i] == Timeout(j.timeouts[i], if j.ordered then j.timeouts[i].sequence else 1, h))
            && forall m: Msg :: m in msgs && !m.UpdateClient? ==> from.proves(m)
  {
    var u, p, a, t := Parts(j, from);
    forall m: Msg | m in u + p + a + t && !m.UpdateClient? ensures from.proves(m) {
      assert Rank(m) != 0 && (m in p || m in a || m in t);
    }
  }

  lemma ProofFails(j: Job, from: From)
    ensures var h := from.finalized;
            && (Relaying(j, from).Err? <==>
                  j.doRelay && exists i :: 0 <= i < |j.packets| && !from.proves(Recv(j.packets[i], h)))
            && (Acknowledging(j, from).Err? <==>
                  j.doAck && !j.noAck && exists i :: 0 <= i < |j.acks| && !from.proves(Ack(j.acks[i], h)))
            && (Returning(j, from).Err? <==>
                  exists i :: 0 <= i < |j.timeouts|
                    && !from.proves(Timeout(j.timeouts[i], if j.ordered then j.timeouts[i].sequence else 1, h)))
  {
    var h := from.finalized;
    assert forall i :: 0 <= i < |j.packets| ==> Recvs(j.packets, h)[i] == Recv(j.packets[i], h);
    assert forall i :: 0 <= i < |j.acks| ==> Acks(j.acks, h)[i] == Ack(j.acks[i], h);
    assert forall i :: 0 <= i < |j.timeouts| ==>
        Timeouts(j.timeouts, j.ordered, h)[i]
          == Timeout(j.timeouts[i], if j.ordered then j.timeouts[i].sequence else 1, h);
  }

  /** There is no list exactly when a question that had to be asked failed: whether the client needs
      a refresh (only if nothing needs a proof), its headers, or one of the proofs. */
  lemma ListFails(j: Job, from: From)
    ensures var needed, h := j.doRelay || (j.doAck && !j.noAck) || j.timeouts != [], from.finalized;
            Assembled(j, from).Err? <==>
              || (!needed && from.refresh.None?)
              || ((needed || from.refresh.value) && from.headers.None?)
              || (j.doRelay && exists i :: 0 <= i < |j.packets| && !from.proves(Recv(j.packets[i], h)))
              || (j.doAck && !j.noAck && exists i :: 0 <= i < |j.acks| && !from.proves(Ack(j.acks[i], h)))
              || exists i :: 0 <= i < |j.timeouts|
                    && !from.proves(Timeout(j.timeouts[i], if j.ordered then j.timeouts[i].sequence else 1, h))
  {
    ProofFails(j, from);
  }

  /** Either of the two flags stops the acknowledgements of both directions: `noAck` is the flag of
      the side that relays them, and the other side's flag keeps them from being found. */
  lemma NoAckFlags(j: Job, from: From, srcNoAck: bool, dstNoAck: bool, written: seq<Packet>)
    requires Assembled(j, from).Ok?
    requires j.noAck == srcNoAck && j.acks == if dstNoAck then [] else written
    ensures (exists m :: m in Assembled(j, from).value && m.Ack?)
              <==> !srcNoAck && !dstNoAck && j.doAck && written != []
  {
    var u, p, a, t := Parts(j, from);
    var msgs := u + p + a + t;
    if !srcNoAck && !dstNoAck && j.doAck && written != [] {
      assert a == Acks(written, from.finalized) && a[0] in a;
      assert a[0] in msgs;
    }
    forall m | m in msgs && m.Ack? ensures m in a { }
  }
}
