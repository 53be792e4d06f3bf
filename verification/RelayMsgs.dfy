/** Sending the messages of a relay round in bundled transactions. */
module RelayMsgs {
  import opened Wrappers

  /** A message, as its marshalled bytes. */
  type Msg = seq<bv8>
  type MsgID = string

  /** One call of a chain's SendMsgs: `None` is an error, otherwise one id for each message.
      The first argument is the number of calls made before. */
  type SendMsgs = (nat, seq<Msg>) -> Option<seq<MsgID>>

  ghost predicate OneIdEach(send: SendMsgs) {
    forall k: nat, msgs: seq<Msg> :: send(k, msgs).Some? ==> |send(k, msgs).value| == |msgs|
  }

  /** A limit of zero is not applied. */
  datatype Limits = Limits(maxMsgLength: nat, maxTxSize: nat) {
    predicate IsMaxTx(msgLen: nat, txSize: nat) {
      || (maxMsgLength != 0 && msgLen > maxMsgLength)
      || (maxTxSize != 0 && txSize > maxTxSize)
    }
  }

  // ------------------------------------------------------------------ specification

  function Flatten<T>(batches: seq<seq<T>>): seq<T> {
    if batches == [] then [] else Flatten(batches[..|batches| - 1]) + batches[|batches| - 1]
  }

  function Size(msgs: seq<Msg>): nat {
    if msgs == [] then 0 else Size(msgs[..|msgs| - 1]) + |msgs[|msgs| - 1]|
  }

  /** A batch is within both limits. */
  predicate Fits(limits: Limits, batch: seq<Msg>) {
    && (limits.maxMsgLength == 0 || |batch| <= limits.maxMsgLength)
    && (limits.maxTxSize == 0 || Size(batch) <= limits.maxTxSize)
  }

  /** A batch exceeds the limits only if its one message does. */
  predicate Permitted(limits: Limits, batch: seq<Msg>) { Fits(limits, batch) || |batch| == 1 }

  predicate AllPermitted(limits: Limits, batches: seq<seq<Msg>>) {
    forall j :: 0 <= j < |batches| ==> Permitted(limits, batches[j])
  }

  /** Batch `j - 1` was closed because the first message of batch `j` did not fit. */
  predicate Closes(limits: Limits, batches: seq<seq<Msg>>, j: nat)
    requires 0 < j < |batches|
  {
    batches[j] != [] && !Fits(limits, batches[j - 1] + [batches[j][0]])
  }

  predicate Greedy(limits: Limits, batches: seq<seq<Msg>>) {
    forall j: nat :: 0 < j < |batches| ==> Closes(limits, batches, j)
  }

  /** The ids recorded for one call. */
  function Slots(batch: seq<Msg>, reply: Option<seq<MsgID>>): (slots: seq<Option<MsgID>>)
    requires reply.Some? ==> |reply.value| == |batch|
    ensures |slots| == |batch|
    ensures forall i :: 0 <= i < |batch| ==> slots[i] == if reply.Some? then Some(reply.value[i]) else None
  {
    seq(|batch|, i requires 0 <= i < |batch| => if reply.Some? then Some(reply.value[i]) else None)
  }

  ghost function AllSlots(send: SendMsgs, calls: seq<seq<Msg>>): seq<Option<MsgID>>
    requires OneIdEach(send)
  {
    if calls == [] then []
    else
      var n := |calls| - 1;
      AllSlots(send, calls[..n]) + Slots(calls[n], send(n, calls[n]))
  }

  predicate AllSent(send: SendMsgs, calls: seq<seq<Msg>>) {
    forall j :: 0 <= j < |calls| ==> send(j, calls[j]).Some?
  }

  // ------------------------------------------------------------------ sending

  /** After the calls made so far: the slots of their messages are final, the others unset. */
  ghost predicate Recorded(send: SendMsgs, calls: seq<seq<Msg>>, ids: seq<Option<MsgID>>, at: nat)
    requires OneIdEach(send)
  {
    && at == |Flatten(calls)| <= |ids| && ids[..at] == AllSlots(send, calls)
    && forall i :: at <= i < |ids| ==> ids[i] == None
  }

  /** One call; the ids of its messages go to the slots from `at` on. */
  method Submit(send: SendMsgs, calls: seq<seq<Msg>>, msgs: seq<Msg>, ids: array<Option<MsgID>>, at: nat,
                succeeded: bool)
    returns (ok: bool)
    requires OneIdEach(send) && at + |msgs| <= ids.Length
    requires Recorded(send, calls, ids[..], at) && succeeded == AllSent(send, calls)
    modifies ids
    ensures ok == AllSent(send, calls + [msgs])
    ensures Recorded(send, calls + [msgs], ids[..], at + |msgs|)
  {
    var msgIDs := send(|calls|, msgs);
    ghost var before := ids[..at];
    ghost var slots := Slots(msgs, msgIDs);
    if msgIDs.Some? {
      for i := 0 to |msgs|
        invariant ids[..at] == before
        invariant forall j :: at <= j < at + i ==> ids[j] == slots[j - at]
        invariant forall j :: at + |msgs| <= j < ids.Length ==> ids[j] == None
      {
        ids[i + at] := Some(msgIDs.value[i]);
      }
    }
    assert ids[..at + |msgs|] == before + slots;
    FlattenAppend(calls, msgs);
    AllSentAppend(send, calls, msgs);
    assert (calls + [msgs])[..|calls|] == calls;
    return succeeded && msgIDs.Some?;
  }

  lemma AllSentAppend(send: SendMsgs, calls: seq<seq<Msg>>, msgs: seq<Msg>)
    ensures AllSent(send, calls + [msgs]) <==> AllSent(send, calls) && send(|calls|, msgs).Some?
  {
    var c := calls + [msgs];
    assert c[|calls|] == msgs && forall j :: 0 <= j < |calls| ==> c[j] == calls[j];
  }

  /** Message `n` does not fit: submit what was collected before it. */
  method SubmitFull(limits: Limits, ghost all: seq<Msg>, ghost n: nat, send: SendMsgs, calls: seq<seq<Msg>>,
                    msgs: seq<Msg>, ids: array<Option<MsgID>>, at: nat, succeeded: bool) returns (ok: bool)
    requires OneIdEach(send) && ids.Length == |all| && n < |all| && at + |msgs| == n
    requires Batched(limits, all, n, calls, msgs) && !Fits(limits, msgs + [all[n]])
    requires Recorded(send, calls, ids[..], at) && succeeded == AllSent(send, calls)
    modifies ids
    ensures Batched(limits, all, n + 1, calls + [msgs], [all[n]])
    ensures Recorded(send, calls + [msgs], ids[..], at + |msgs|) && ok == AllSent(send, calls + [msgs])
  {
    CloseBatch(limits, all, n, calls, msgs);
    ok := Submit(send, calls, msgs, ids, at, succeeded);
  }

  /** The loop over the messages: `msgs` is left over, the calls made so far are recorded. */
  method SendFull(limits: Limits, all: seq<Msg>, send: SendMsgs, ids: array<Option<MsgID>>)
    returns (calls: seq<seq<Msg>>, msgs: seq<Msg>, maxTxCount: nat, ok: bool)
    requires OneIdEach(send) && ids.Length == |all| && forall i :: 0 <= i < ids.Length ==> ids[i] == None
    modifies ids
    ensures Batched(limits, all, |all|, calls, msgs) && maxTxCount + |msgs| == |all|
    ensures Recorded(send, calls, ids[..], maxTxCount) && ok == AllSent(send, calls)
  {
    var msgLen: nat, txSize: nat := 0, 0;
    calls, msgs, maxTxCount, ok := [], [], 0, true;
    for n := 0 to |all|
      invariant Batched(limits, all, n, calls, msgs) && maxTxCount + |msgs| == n
      invariant msgLen == |msgs| && txSize == Size(msgs)
      invariant Recorded(send, calls, ids[..], maxTxCount) && ok == AllSent(send, calls)
    {
      var msg := all[n];
      NextSize(limits, msgs, msg);
      msgLen := msgLen + 1;
      txSize := txSize + |msg|;
      if limits.IsMaxTx(msgLen, txSize) {
        ok := SubmitFull(limits, all, n, send, calls, msgs, ids, maxTxCount, ok);
        calls := calls + [msgs];
        maxTxCount := maxTxCount + |msgs|;
        msgLen, txSize := 1, |msg|;
        msgs := [msg];
      } else {
        ExtendBatch(limits, all, n, calls, msgs);
        msgs := msgs + [msg];
      }
    }
  }

  /** The calls for one chain; the last one takes what is left over. */
  method SendAll(limits: Limits, all: seq<Msg>, send: SendMsgs, ids: array<Option<MsgID>>)
    returns (calls: seq<seq<Msg>>, ok: bool)
    requires OneIdEach(send) && ids.Length == |all| && forall i :: 0 <= i < ids.Length ==> ids[i] == None
    modifies ids
    ensures Flatten(calls) == all && AllPermitted(limits, calls) && Greedy(limits, calls)
    ensures |calls| > 0 && calls[0] == [] <==> |all| > 0 && !Fits(limits, all[..1])
    ensures ids[..] == AllSlots(send, calls) && ok == AllSent(send, calls)
  {
    var msgs: seq<Msg>, maxTxCount: nat;
    calls, msgs, maxTxCount, ok := SendFull(limits, all, send, ids);
    BatchedAll(limits, all, calls, msgs);
    if |msgs| > 0 {
      ok := Submit(send, calls, msgs, ids, maxTxCount, ok);
      calls := calls + [msgs];
    }
    assert ids[..] == ids[..|all|];
  }

  /** The part of Send for one chain, with the calls it made. */
  method SendTo(limits: Limits, all: seq<Msg>, send: SendMsgs)
    returns (calls: seq<seq<Msg>>, msgIDs: seq<Option<MsgID>>, ok: bool)
    requires OneIdEach(send)
    ensures Flatten(calls) == all && AllPermitted(limits, calls) && Greedy(limits, calls)
    ensures forall j :: 0 <= j < |calls| && |calls[j]| != 1 ==>
      && (limits.maxMsgLength == 0 || |calls[j]| <= limits.maxMsgLength)
      && (limits.maxTxSize == 0 || |Flatten(calls[j])| <= limits.maxTxSize)
    ensures forall j :: 0 < j < |calls| ==> calls[j] != []
    ensures forall j :: 0 <= j < |calls| - 1 ==>
      || 0 < limits.maxMsgLength <= |calls[j]|
      || 0 < limits.maxTxSize < |Flatten(calls[j])| + |calls[j + 1][0]|
    ensures |calls| > 0 && calls[0] == [] <==> |all| > 0 && 0 < limits.maxTxSize < |all[0]|
    ensures msgIDs == AllSlots(send, calls) && ok == AllSent(send, calls)
  {
    var ids := new Option<MsgID>[|all|](_ => None);
    calls, ok := SendAll(limits, all, send, ids);
    FirstAlone(limits, all);
    BatchBytes(limits, calls);
    return calls, ids[..], ok;
  }

  /** The messages of a round and what became of them. */
  class Round {
    var src: seq<Msg>
    var dst: seq<Msg>
    const limits: Limits
    var succeeded: bool
    var srcMsgIDs: seq<Option<MsgID>>
    var dstMsgIDs: seq<Option<MsgID>>

    constructor (src: seq<Msg>, dst: seq<Msg>, limits: Limits)
      ensures this.src == src && this.dst == dst && this.limits == limits && !succeeded
    {
      this.src, this.dst, this.limits := src, dst, limits;
      this.succeeded, this.srcMsgIDs, this.dstMsgIDs := false, [], [];
    }

    /** All of the source's messages, then all of the destination's, whatever fails. */
    method Send(toSrc: SendMsgs, toDst: SendMsgs) returns (srcCalls: seq<seq<Msg>>, dstCalls: seq<seq<Msg>>)
      requires OneIdEach(toSrc) && OneIdEach(toDst)
      modifies this
      ensures src == old(src) && dst == old(dst)
      ensures Flatten(srcCalls) == src && Flatten(dstCalls) == dst
      ensures AllPermitted(limits, srcCalls) && Greedy(limits, srcCalls)
      ensures AllPermitted(limits, dstCalls) && Greedy(limits, dstCalls)
      ensures |srcCalls| > 0 && srcCalls[0] == [] <==> |src| > 0 && 0 < limits.maxTxSize < |src[0]|
      ensures |dstCalls| > 0 && dstCalls[0] == [] <==> |dst| > 0 && 0 < limits.maxTxSize < |dst[0]|
      ensures srcMsgIDs == AllSlots(toSrc, srcCalls) && dstMsgIDs == AllSlots(toDst, dstCalls)
      ensures succeeded == (AllSent(toSrc, srcCalls) && AllSent(toDst, dstCalls))
    {
      succeeded := true;
      var ok: bool;
      srcCalls, srcMsgIDs, ok := SendTo(limits, src, toSrc);
      succeeded := succeeded && ok;
      dstCalls, dstMsgIDs, ok := SendTo(limits, dst, toDst);
      succeeded := succeeded && ok;
    }
  }

  // ------------------------------------------------------------------ the batches

  lemma SizeAppend(msgs: seq<Msg>, msg: Msg)
    ensures Size(msgs + [msg]) == Size(msgs) + |msg|
  {
    assert (msgs + [msg])[..|msgs|] == msgs;
  }

  /** Counting the next message decides whether the batch still fits with it. */
  lemma NextSize(limits: Limits, msgs: seq<Msg>, msg: Msg)
    ensures Size(msgs + [msg]) == Size(msgs) + |msg| && Size([msg]) == |msg|
    ensures limits.IsMaxTx(|msgs| + 1, Size(msgs) + |msg|) <==> !Fits(limits, msgs + [msg])
  {
    SizeAppend(msgs, msg);
    SizeAppend([], msg);
    assert [] + [msg] == [msg];
  }

  lemma FlattenAppend<T>(batches: seq<seq<T>>, batch: seq<T>)
    ensures Flatten(batches + [batch]) == Flatten(batches) + batch
  {
    assert (batches + [batch])[..|batches|] == batches;
  }

  /** The size a batch is held to is its number of bytes. */
  lemma {:induction false} SizeIsBytes(msgs: seq<Msg>)
    ensures Size(msgs) == |Flatten(msgs)|
  {
    if msgs == [] {
    } else {
      SizeIsBytes(msgs[..|msgs| - 1]);
    }
  }

  /** What the limits say of the calls, in messages and bytes: a batch stays within both unless
      it is one message, and it ends only where the next message would go over one of them. */
  lemma BatchBytes(limits: Limits, calls: seq<seq<Msg>>)
    requires AllPermitted(limits, calls) && Greedy(limits, calls)
    ensures forall j :: 0 <= j < |calls| && |calls[j]| != 1 ==>
      && (limits.maxMsgLength == 0 || |calls[j]| <= limits.maxMsgLength)
      && (limits.maxTxSize == 0 || |Flatten(calls[j])| <= limits.maxTxSize)
    ensures forall j :: 0 < j < |calls| ==> calls[j] != []
    ensures forall j :: 0 <= j < |calls| - 1 ==>
      || 0 < limits.maxMsgLength <= |calls[j]|
      || 0 < limits.maxTxSize < |Flatten(calls[j])| + |calls[j + 1][0]|
  {
    forall j | 0 <= j < |calls| && |calls[j]| != 1
      ensures (limits.maxMsgLength == 0 || |calls[j]| <= limits.maxMsgLength)
              && (limits.maxTxSize == 0 || |Flatten(calls[j])| <= limits.maxTxSize)
    {
      SizeIsBytes(calls[j]);
    }
    forall j | 0 < j < |calls| ensures calls[j] != [] {
      EndsBatch(limits, calls, j);
    }
    forall j | 0 <= j < |calls| - 1
      ensures || 0 < limits.maxMsgLength <= |calls[j]|
              || 0 < limits.maxTxSize < |Flatten(calls[j])| + |calls[j + 1][0]|
    {
      EndsBatch(limits, calls, j + 1);
    }
  }

  lemma EndsBatch(limits: Limits, calls: seq<seq<Msg>>, j: int)
    requires Greedy(limits, calls) && 0 < j < |calls|
    ensures calls[j] != []
    ensures || 0 < limits.maxMsgLength <= |calls[j - 1]|
            || 0 < limits.maxTxSize < |Flatten(calls[j - 1])| + |calls[j][0]|
  {
    ClosesAt(limits, calls, j);
    SizeAppend(calls[j - 1], calls[j][0]);
    SizeIsBytes(calls[j - 1]);
  }

  /** Only the size can keep a message from being sent alone. */
  lemma FirstAlone(limits: Limits, all: seq<Msg>)
    ensures |all| > 0 ==> (!Fits(limits, all[..1]) <==> 0 < limits.maxTxSize < |all[0]|)
  {
    if |all| > 0 {
      SizeAppend([], all[0]);
      assert all[..1] == [] + [all[0]];
    }
  }

  /** The first `n` messages are in closed batches and the open one. */
  predicate Batched(limits: Limits, all: seq<Msg>, n: nat, calls: seq<seq<Msg>>, msgs: seq<Msg>) {
    && n <= |all| && Flatten(calls) + msgs == all[..n]
    && (msgs == [] <==> n == 0) && (n == 0 ==> calls == [])
    && AllPermitted(limits, calls + [msgs]) && Greedy(limits, calls + [msgs])
    && (n > 0 ==> (calls != [] && calls[0] == [] <==> !Fits(limits, all[..1])))
  }

  /** A message that does not fit starts a batch of its own. */
  lemma CloseBatch(limits: Limits, all: seq<Msg>, n: nat, calls: seq<seq<Msg>>, batch: seq<Msg>)
    requires Batched(limits, all, n, calls, batch) && n < |all| && !Fits(limits, batch + [all[n]])
    ensures Batched(limits, all, n + 1, calls + [batch], [all[n]])
  {
    var b := calls + [batch];
    var c := b + [[all[n]]];
    FlattenAppend(calls, batch);
    assert all[..n + 1] == all[..n] + [all[n]];
    forall j | 0 <= j < |c| ensures Permitted(limits, c[j]) {
      if j < |b| { assert c[j] == b[j]; }
    }
    forall j: nat | 0 < j < |c| ensures Closes(limits, c, j) {
      if j < |b| { assert Closes(limits, b, j); }
    }
    if n == 0 { assert all[..1] == batch + [all[n]]; }
  }

  lemma ExtendBatch(limits: Limits, all: seq<Msg>, n: nat, calls: seq<seq<Msg>>, batch: seq<Msg>)
    requires Batched(limits, all, n, calls, batch) && n < |all| && Fits(limits, batch + [all[n]])
    ensures Batched(limits, all, n + 1, calls, batch + [all[n]])
  {
    var b := calls + [batch];
    var c := calls + [batch + [all[n]]];
    assert all[..n + 1] == all[..n] + [all[n]];
    forall j | 0 <= j < |c| ensures Permitted(limits, c[j]) {
      if j < |calls| { assert c[j] == b[j]; }
    }
    forall j: nat | 0 < j < |c| ensures Closes(limits, c, j) {
      assert Closes(limits, b, j) && c[j][0] == b[j][0];
    }
    if n == 0 { assert all[..1] == batch + [all[n]]; }
  }

  lemma BatchedAll(limits: Limits, all: seq<Msg>, calls: seq<seq<Msg>>, msgs: seq<Msg>)
    requires Batched(limits, all, |all|, calls, msgs)
    ensures var c := if msgs == [] then calls else calls + [msgs];
            && Flatten(c) == all && AllPermitted(limits, c) && Greedy(limits, c)
            && (|c| > 0 && c[0] == [] <==> |all| > 0 && !Fits(limits, all[..1]))
  {
    FlattenAppend(calls, msgs);
    assert all[..|all|] == all;
  }

  // ------------------------------------------------------------------ ids

  /** Message `i` of call `j` and its id slot: the id the call returned for it, or nothing when
      the call failed. */
  lemma {:induction false} IdSlot(send: SendMsgs, calls: seq<seq<Msg>>, j: nat, i: nat)
    requires OneIdEach(send) && j < |calls| && i < |calls[j]|
    ensures var k := |Flatten(calls[..j])| + i;
            && k < |Flatten(calls)| == |AllSlots(send, calls)|
            && Flatten(calls)[k] == calls[j][i]
            && AllSlots(send, calls)[k] ==
                 if send(j, calls[j]).Some? then Some(send(j, calls[j]).value[i]) else None
    decreases |calls|
  {
    var n := |calls| - 1;
    var before := calls[..n];
    SlotsAlign(send, before);
    if j < n {
      assert before[..j] == calls[..j] && before[j] == calls[j];
      IdSlot(send, before, j, i);
    }
  }

  lemma {:induction false} SlotsAlign(send: SendMsgs, calls: seq<seq<Msg>>)
    requires OneIdEach(send)
    ensures |AllSlots(send, calls)| == |Flatten(calls)|
  {
    if calls == [] {
    } else {
      SlotsAlign(send, calls[..|calls| - 1]);
    }
  }

  // ------------------------------------------------------------------ optimality

  function Upto<T>(batches: seq<seq<T>>, k: nat): nat
    requires k <= |batches|
  {
    |Flatten(batches[..k])|
  }

  lemma {:induction false} BatchIsSlice<T>(batches: seq<seq<T>>, k: nat)
    requires k < |batches|
    ensures Upto(batches, k) <= Upto(batches, k + 1) <= |Flatten(batches)|
    ensures batches[k] == Flatten(batches)[Upto(batches, k)..Upto(batches, k + 1)]
    decreases |batches|
  {
    var n := |batches| - 1;
    var before := batches[..n];
    assert batches[..k + 1][..k] == batches[..k];
    if k == n {
      assert batches[..k + 1] == batches;
    } else {
      assert before[..k] == batches[..k] && before[..k + 1] == batches[..k + 1];
      BatchIsSlice(before, k);
    }
  }

  lemma {:induction false} SizeMonotone(all: seq<Msg>, a: nat, b: nat, c: nat, d: nat)
    requires a <= b <= c <= d <= |all|
    ensures Size(all[b..c]) <= Size(all[a..d])
    decreases d - a
  {
    if c < d {
      assert all[a..d][..d - a - 1] == all[a..d - 1];
      SizeMonotone(all, a, b, c, d - 1);
    } else if a < b {
      SizeMonotone(all, a + 1, b, c, d);
      SizeTail(all[a..d]);
      assert all[a..d][1..] == all[a + 1..d];
    }
  }

  lemma {:induction false} SizeTail(msgs: seq<Msg>)
    requires msgs != []
    ensures Size(msgs[1..]) <= Size(msgs)
  {
    if |msgs| <= 1 {
    } else {
      var front := msgs[..|msgs| - 1];
      SizeTail(front);
      assert msgs[1..][..|msgs| - 2] == front[1..];
    }
  }

  /** A batch that reaches further back and further ahead holds the next message as well. */
  lemma NextFits(limits: Limits, all: seq<Msg>, a: nat, b: nat, c: nat, d: nat)
    requires a <= b < c < d <= |all| && Permitted(limits, all[a..d])
    ensures Fits(limits, all[b..c] + [all[c]])
  {
    SizeMonotone(all, a, b, c + 1, d);
    assert all[b..c] + [all[c]] == all[b..c + 1];
  }

  lemma ClosesAt(limits: Limits, batches: seq<seq<Msg>>, j: nat)
    requires Greedy(limits, batches) && 0 < j < |batches|
    ensures batches[j] != [] && !Fits(limits, batches[j - 1] + [batches[j][0]])
  {
    assert Closes(limits, batches, j);
  }

  predicate NoneEmpty<T>(batches: seq<seq<T>>) { forall j :: 0 <= j < |batches| ==> batches[j] != [] }

  /** After as many batches, no split is further than the greedy one. */
  lemma {:induction false} GreedyStaysAhead(limits: Limits, g: seq<seq<Msg>>, o: seq<seq<Msg>>, k: nat)
    requires Greedy(limits, g) && NoneEmpty(g)
    requires AllPermitted(limits, o) && Flatten(o) == Flatten(g)
    requires k <= |g| && k <= |o|
    ensures Upto(o, k) <= Upto(g, k)
  {
    if k == 0 {
    } else {
      GreedyStaysAhead(limits, g, o, k - 1);
      BatchIsSlice(g, k - 1);
      BatchIsSlice(o, k - 1);
      assert g[..|g|] == g;
      if Upto(g, k) < Upto(o, k) {
        assert k < |g|;
        BatchIsSlice(g, k);
        assert g[k - 1] != [] && g[k] != [];
        NextFits(limits, Flatten(g), Upto(o, k - 1), Upto(g, k - 1), Upto(g, k), Upto(o, k));
        ClosesAt(limits, g, k);
        assert false;
      }
    }
  }

  /** The batches that carry messages; only the first call can be empty. */
  function Carrying(calls: seq<seq<Msg>>): seq<seq<Msg>> {
    if calls != [] && calls[0] == [] then calls[1..] else calls
  }

  lemma {:induction false} FlattenSkipsEmpty<T>(calls: seq<seq<T>>)
    requires calls != [] && calls[0] == []
    ensures Flatten(calls[1..]) == Flatten(calls)
  {
    if |calls| <= 1 {
    } else {
      FlattenSkipsEmpty(calls[..|calls| - 1]);
      assert calls[1..][..|calls| - 2] == calls[..|calls| - 1][1..];
    }
  }

  lemma CarryingGreedy(limits: Limits, calls: seq<seq<Msg>>)
    requires Greedy(limits, calls)
    ensures Greedy(limits, Carrying(calls)) && NoneEmpty(Carrying(calls))
    ensures Flatten(Carrying(calls)) == Flatten(calls)
  {
    var g := Carrying(calls);
    var skipped := |calls| - |g|;
    if skipped == 1 { FlattenSkipsEmpty(calls); }
    forall j: nat | 0 < j < |g| ensures Closes(limits, g, j) {
      assert Closes(limits, calls, j + skipped);
    }
    forall j | 0 <= j < |g| ensures g[j] != [] {
      if j + skipped > 0 { assert Closes(limits, calls, j + skipped); }
    }
  }

  /** No split of the same messages into permitted batches has fewer batches than the calls
      that carry messages; when every message fits alone, that is all calls. */
  lemma GreedyIsOptimal(limits: Limits, calls: seq<seq<Msg>>, other: seq<seq<Msg>>)
    requires AllPermitted(limits, calls) && Greedy(limits, calls)
    requires Flatten(other) == Flatten(calls)
    requires forall j :: 0 <= j < |other| && |other[j]| != 1 ==>
      && (limits.maxMsgLength == 0 || |other[j]| <= limits.maxMsgLength)
      && (limits.maxTxSize == 0 || |Flatten(other[j])| <= limits.maxTxSize)
    ensures |Carrying(calls)| <= |other|
  {
    var g := Carrying(calls);
    CarryingGreedy(limits, calls);
    forall j | 0 <= j < |other| ensures Permitted(limits, other[j]) {
      SizeIsBytes(other[j]);
    }
    if |g| > |other| {
      GreedyStaysAhead(limits, g, other, |other|);
      assert other[..|other|] == other;
      assert g[|other|] != [];
      BatchIsSlice(g, |other|);
    }
  }

  /** Without limits (as in the handshakes and the upgrade) a chain gets one call. */
  lemma NoLimitsOneCall(calls: seq<seq<Msg>>)
    requires AllPermitted(Limits(0, 0), calls) && Greedy(Limits(0, 0), calls)
    ensures |calls| <= 1
  {
    if |calls| > 1 {
      ClosesAt(Limits(0, 0), calls, 1);
      assert false;
    }
  }
}
