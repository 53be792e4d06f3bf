/** What happens when operators cancel on both ends under the two TRYs of one decision: each end
    then starts what the other had proposed, and nothing compares the proposals again. */
module UpgradeCancel {
  import opened Wrappers
  import opened UpgradeChain
  import opened UpgradeHistory
  import opened UpgradeSafety
  import opened ChannelUpgrade
  import opened UpgradeRun
  import opened UpgradeAgreement

  // ------------------------------------------------------------------ the exact condition

  /** Two ends with crossing proposals at the same sequence, nothing in flight. */
  ghost predicate Crossing(ca: Connections, cb: Connections, a: Block, b: Block) {
    && Inverse(ca, cb) && a.St() == OPEN && b.St() == OPEN && a.Seq() == b.Seq()
    && a.end.upgrade.Some? && b.end.upgrade.Some?
    && a.end.upgrade.value.fields.hop in ca && b.end.upgrade.value.fields.hop in cb
    && Mirrors(ca, a.end.chan.fields, b.end.chan.fields) && !a.end.inflight && !b.end.inflight
  }

  function Proposed(b: Block): Fields
    requires b.end.upgrade.Some?
  {
    b.end.upgrade.value.fields
  }

  function At(conns: Connections, b: Block): View { View(conns, b, b) }

  /** An authority's cancel, then the TRY that was decided before it. */
  lemma CancelThenTry(ca: Connections, cb: Connections, a: Block, b: Block, receipt: Option<nat>, timeout: Timeout)
    returns (c: Block)
    requires Crossing(ca, cb, a, b) && timeout.IsSet()
    ensures ActionFor(At(ca, a), At(cb, b)) == Ok(TRY)
    ensures var cancelled := HandleCancel(a, receipt, true);
            cancelled.Some? && HandleTry(ca, cancelled.value, b, cb[Proposed(b).hop], timeout) == Some(c)
    ensures c.St() == FLUSHING && c.Seq() == a.Seq() + 1 && !c.end.inflight && c.clock == a.clock
    ensures c.end.chan.fields == a.end.chan.fields
    ensures c.end.upgrade == Some(UpgradeChain.Upgrade(Proposed(b).(hop := cb[Proposed(b).hop]), timeout))
  {
    var cancelled := HandleCancel(a, receipt, true).value;
    c := HandleTry(ca, cancelled, b, cb[Proposed(b).hop], timeout).value;
  }

  /** Two flushing ends at the same sequence are sent CONFIRM and then OPEN, whatever they flush. */
  lemma FlushedThenOpened(ca: Connections, cb: Connections, a: Block, b: Block)
    returns (c: Block, d: Block)
    requires Inverse(ca, cb) && a.St() == FLUSHING && b.St() == FLUSHING && a.Seq() == b.Seq()
    requires a.end.upgrade.Some? && b.end.upgrade.Some? && !a.end.inflight && !b.end.inflight
    requires Mirrors(ca, a.end.chan.fields, b.end.chan.fields)
    requires !a.end.upgrade.value.timeout.Elapsed(b.clock) && !b.end.upgrade.value.timeout.Elapsed(a.clock)
    ensures ActionFor(At(ca, a), At(cb, b)) == Ok(CONFIRM) && ActionFor(At(cb, b), At(ca, a)) == Ok(CONFIRM)
    ensures HandleConfirm(ca, a, b).Some? && HandleConfirm(cb, b, a).Some?
    ensures var x, y := HandleConfirm(ca, a, b).value, HandleConfirm(cb, b, a).value;
            && x.St() == FLUSHCOMPLETE && y.St() == FLUSHCOMPLETE
            && ActionFor(At(ca, x), At(cb, y)) == Ok(OPENUP) && ActionFor(At(cb, y), At(ca, x)) == Ok(OPENUP)
            && HandleOpen(ca, x, y) == Some(c) && HandleOpen(cb, y, x) == Some(d)
    ensures c.St() == OPEN && d.St() == OPEN
    ensures c.end.chan.fields == Proposed(a) && d.end.chan.fields == Proposed(b)
  {
    MirrorsSymmetric(ca, cb, a.end.chan.fields, b.end.chan.fields);
    var x, y := HandleConfirm(ca, a, b).value, HandleConfirm(cb, b, a).value;
    c, d := HandleOpen(ca, x, y).value, HandleOpen(cb, y, x).value;
  }

  /** Each end adopts the mirror of what the other proposed, so they agree if and only if the
      proposals did. */
  lemma SwappedProposals(ca: Connections, cb: Connections, f: Fields, g: Fields)
    requires Inverse(ca, cb) && f.hop in ca && g.hop in cb
    ensures Mirrors(ca, g.(hop := cb[g.hop]), f.(hop := ca[f.hop])) <==> Mirrors(ca, f, g)
  {
  }

  /** The exact condition.  For all crossing proposals: the relayer decides TRY for both ends, both
      operators cancel, both TRYs are accepted, CONFIRM and OPEN are decided and accepted on both
      sides, and the ends are OPEN on matching fields if and only if the proposals mirrored each
      other. */
  lemma BothCancelledAgreeIff(ca: Connections, cb: Connections, a: Block, b: Block, receiptA: Option<nat>,
                              receiptB: Option<nat>, timeoutA: Timeout, timeoutB: Timeout)
    returns (a2: Block, b2: Block, a4: Block, b4: Block)
    requires Crossing(ca, cb, a, b) && timeoutA.IsSet() && timeoutB.IsSet()
    requires !timeoutA.Elapsed(b.clock) && !timeoutB.Elapsed(a.clock)
    ensures ActionFor(At(ca, a), At(cb, b)) == Ok(TRY) && ActionFor(At(cb, b), At(ca, a)) == Ok(TRY)
    ensures HandleCancel(a, receiptA, true).Some? && HandleCancel(b, receiptB, true).Some?
    ensures HandleTry(ca, HandleCancel(a, receiptA, true).value, b, cb[Proposed(b).hop], timeoutA) == Some(a2)
    ensures HandleTry(cb, HandleCancel(b, receiptB, true).value, a, ca[Proposed(a).hop], timeoutB) == Some(b2)
    ensures a2.St() == FLUSHING && a2.end.upgrade.Some? && b2.St() == FLUSHING && b2.end.upgrade.Some?
    ensures ActionFor(At(ca, a2), At(cb, b2)) == Ok(CONFIRM) && ActionFor(At(cb, b2), At(ca, a2)) == Ok(CONFIRM)
    ensures HandleConfirm(ca, a2, b2).Some? && HandleConfirm(cb, b2, a2).Some?
    ensures var x, y := HandleConfirm(ca, a2, b2).value, HandleConfirm(cb, b2, a2).value;
            && x.St() == FLUSHCOMPLETE && x.end.upgrade.Some? && y.St() == FLUSHCOMPLETE && y.end.upgrade.Some?
            && ActionFor(At(ca, x), At(cb, y)) == Ok(OPENUP) && ActionFor(At(cb, y), At(ca, x)) == Ok(OPENUP)
            && HandleOpen(ca, x, y) == Some(a4) && HandleOpen(cb, y, x) == Some(b4)
    ensures a4.St() == OPEN && b4.St() == OPEN
    ensures Mirrors(ca, a4.end.chan.fields, b4.end.chan.fields) <==> Mirrors(ca, Proposed(a), Proposed(b))
  {
    MirrorsSymmetric(ca, cb, a.end.chan.fields, b.end.chan.fields);
    a2 := CancelThenTry(ca, cb, a, b, receiptA, timeoutA);
    b2 := CancelThenTry(cb, ca, b, a, receiptB, timeoutB);
    a4, b4 := FlushedThenOpened(ca, cb, a2, b2);
    SwappedProposals(ca, cb, Proposed(a), Proposed(b));
  }

  // ------------------------------------------------------------------ the run

  const CONNS: Connections := map["c" := "c"]
  const NOW := Clock(0, 0)
  const LIMIT := Timeout(1, 0)

  /** The blocks of one end: OPEN, with a proposal, cancelled, flushing the other's proposal,
      completed, and OPEN again. */
  function Old(v: string): Block {
    Block(End(Channel(OPEN, Fields(UNORDERED, v, "c"), 0), None, None, None, false), Log(map[], map[], {}), NOW)
  }

  function Proposing(v: string, mine: string): Block {
    var b := Old(v);
    b.(end := b.end.(chan := b.end.chan.(sequence := 1),
                     upgrade := Some(UpgradeChain.Upgrade(Fields(UNORDERED, mine, "c"), NO_TIMEOUT))))
  }

  function Back(v: string, mine: string): Block { Restore(Proposing(v, mine)) }

  function Flushing(v: string, mine: string, theirs: string): Block {
    StartFlush(Back(v, mine), 2, Fields(UNORDERED, theirs, "c"), LIMIT)
  }

  function Flushed(v: string, mine: string, theirs: string): Block {
    CheckFlushed(Flushing(v, mine, theirs), LIMIT)
  }

  function New(v: string, mine: string, theirs: string): Block { Adopt(Flushed(v, mine, theirs)) }

  function All(v: string, mine: string, theirs: string): seq<Block> {
    [Old(v), Proposing(v, mine), Back(v, mine), Flushing(v, mine, theirs), Flushed(v, mine, theirs),
     New(v, mine, theirs)]
  }

  /** The first `n` blocks of an end. */
  function Part(v: string, mine: string, theirs: string, n: nat): Chain
    requires n <= 6
  {
    Chain(CONNS, All(v, mine, theirs)[..n])
  }

  function MsgOf(action: Action): Msg { Msg.Upgrade(action, if action == TRY then "c" else "", None) }

  function Going(action: Action, fin: nat): Option<Sending> { Some(Sending(MsgOf(action), fin)) }

  /** `m` and `n` blocks, both final up to `fin`, nothing under way. */
  function Quiet(v: string, p: string, q: string, m: nat, n: nat, fin: nat, x: bool, y: bool): Sys
    requires m <= 6 && n <= 6
  {
    Sys(Part(v, p, q, m), Part(v, q, p, n), fin, fin, None, None, x, y)
  }

  function Init(p: string): Event { OperatorInit(Fields(UNORDERED, p, "c")) }

  /** Both propose. */
  function Propose(p: string, q: string): seq<Step> {
    [NewBlock(Src, NOW, Init(p)), NewBlock(Dst, NOW, Init(q))]
  }

  /** Everything up to `fin` is final and the relayer decides. */
  function Decided(fin: nat, first: bool): seq<Step> {
    [Finalize(Src, fin), Finalize(Dst, fin), Decide(first, U_UNINIT, U_UNINIT)]
  }

  const CANCELS := [NewBlock(Src, NOW, OperatorCancel(0, true)), NewBlock(Dst, NOW, OperatorCancel(0, true))]

  const DELIVERIES := [Deliver(Src, NOW, LIMIT, false), Deliver(Dst, NOW, LIMIT, false)]

  /** Both propose; the relayer sends TRY to both; both cancel; the TRYs arrive; the relayer sends
      CONFIRM and then OPEN to both. */
  function CancelledUpgrade(p: string, q: string): seq<Step> {
    Propose(p, q) + (Decided(1, true) + (CANCELS + (DELIVERIES
    + (Decided(3, false) + (DELIVERIES + (Decided(4, false) + DELIVERIES))))))
  }

  // ------------------------------------------------------------------ the blocks of the run

  lemma OperatorBlocks(v: string, mine: string, cp: Chain)
    requires |cp.blocks| > 0 && cp.blocks[0].end.receipt.None?
    ensures Occurs(CONNS, Tick(Old(v), NOW), Init(mine), cp) == Proposing(v, mine)
    ensures Occurs(CONNS, Tick(Proposing(v, mine), NOW), OperatorCancel(0, true), cp) == Back(v, mine)
  {
  }

  lemma RelayedBlocks(v: string, p: string, q: string)
    ensures Handle(CONNS, Tick(Back(v, p), NOW), MsgOf(TRY), Proposing(v, q), LIMIT, false) == Some(Flushing(v, p, q))
    ensures Handle(CONNS, Tick(Flushing(v, p, q), NOW), MsgOf(CONFIRM), Flushing(v, q, p), LIMIT, false)
              == Some(Flushed(v, p, q))
    ensures Handle(CONNS, Tick(Flushed(v, p, q), NOW), MsgOf(OPENUP), Flushed(v, q, p), LIMIT, false)
              == Some(New(v, p, q))
  {
  }

  function Same(b: Block): View { View(CONNS, b, b) }

  lemma OneMessage(action: Action, me: View, cp: View)
    requires action != NONE && (action == TRY ==> cp.fin.end.upgrade.Some?)
    requires BuildActionMsg(action, me, cp).Ok?
    ensures MsgsFor(action, me, cp, []) == Ok([BuildActionMsg(action, me, cp).value])
  {
    var msgs := MsgsFor(action, me, cp, []).value;
    assert |msgs| == 1 && msgs == [msgs[0]];
  }

  lemma PlanTry(v: string, p: string, q: string)
    ensures Same(Proposing(v, p)).Valid() && Same(Proposing(v, q)).Valid()
    ensures Plan(Same(Proposing(v, p)), Same(Proposing(v, q)), U_UNINIT, U_UNINIT, true, [], [])
              == Ok(RelayMsgs([MsgOf(TRY)], [MsgOf(TRY)], false))
  {
    OneMessage(TRY, Same(Proposing(v, p)), Same(Proposing(v, q)));
    OneMessage(TRY, Same(Proposing(v, q)), Same(Proposing(v, p)));
  }

  lemma PlanConfirm(v: string, p: string, q: string)
    ensures Same(Flushing(v, p, q)).Valid() && Same(Flushing(v, q, p)).Valid()
    ensures Plan(Same(Flushing(v, p, q)), Same(Flushing(v, q, p)), U_UNINIT, U_UNINIT, false, [], [])
              == Ok(RelayMsgs([MsgOf(CONFIRM)], [MsgOf(CONFIRM)], false))
  {
    OneMessage(CONFIRM, Same(Flushing(v, p, q)), Same(Flushing(v, q, p)));
    OneMessage(CONFIRM, Same(Flushing(v, q, p)), Same(Flushing(v, p, q)));
  }

  lemma PlanOpen(v: string, p: string, q: string)
    ensures Same(Flushed(v, p, q)).Valid() && Same(Flushed(v, q, p)).Valid()
    ensures Plan(Same(Flushed(v, p, q)), Same(Flushed(v, q, p)), U_UNINIT, U_UNINIT, false, [], [])
              == Ok(RelayMsgs([MsgOf(OPENUP)], [MsgOf(OPENUP)], false))
  {
    OneMessage(OPENUP, Same(Flushed(v, p, q)), Same(Flushed(v, q, p)));
    OneMessage(OPENUP, Same(Flushed(v, q, p)), Same(Flushed(v, p, q)));
  }

  // ------------------------------------------------------------------ the run, phase by phase

  lemma RunTwo(s: Sys, a: Step, b: Step)
    requires s.Valid()
    ensures Next(s, a).Valid() && Run(s, [a, b]) == Next(Next(s, a), b)
  {
    NextValid(s, a);
    NextValid(Next(s, a), b);
    assert [a, b][1..] == [b] && [b][1..] == [];
    assert Run(Next(s, a), [b]) == Next(Next(s, a), b);
  }

  lemma GrowPart(v: string, p: string, q: string, n: nat, b: Block)
    requires n < 6 && b == All(v, p, q)[n]
    ensures Grow(Part(v, p, q, n), b) == Part(v, p, q, n + 1)
  {
  }

  /** Blocks that appear on both sides by themselves. */
  lemma BothBlocks(s: Sys, v: string, p: string, q: string, n: nat, a: Event, b: Event) returns (t: Sys)
    requires 0 < n < 6 && s.Valid() && s.src == Part(v, p, q, n) && s.dst == Part(v, q, p, n)
    requires Makes(All(v, p, q)[n - 1], a, All(v, p, q)[n]) && Makes(All(v, q, p)[n - 1], b, All(v, q, p)[n])
    ensures t == Run(s, [NewBlock(Src, NOW, a), NewBlock(Dst, NOW, b)])
    ensures t.src == Part(v, p, q, n + 1) && t.dst == Part(v, q, p, n + 1)
    ensures t.finSrc == s.finSrc && t.finDst == s.finDst
    ensures t.sendingSrc == s.sendingSrc && t.sendingDst == s.sendingDst
  {
    var x, y := NewBlock(Src, NOW, a), NewBlock(Dst, NOW, b);
    RunTwo(s, x, y);
    GrowPart(v, p, q, n, All(v, p, q)[n]);
    GrowPart(v, q, p, n, All(v, q, p)[n]);
    var u := Next(s, x);
    assert u.src == Part(v, p, q, n + 1);
    t := Next(u, y);
  }

  lemma FinalizeBoth(s: Sys, fin: nat) returns (t: Sys)
    requires s.Valid() && s.finSrc <= fin < |s.src.blocks| && s.finDst <= fin < |s.dst.blocks|
    ensures t == Run(s, [Finalize(Src, fin), Finalize(Dst, fin)]) && t == s.(finSrc := fin, finDst := fin)
  {
    RunTwo(s, Finalize(Src, fin), Finalize(Dst, fin));
    t := Next(Next(s, Finalize(Src, fin)), Finalize(Dst, fin));
  }

  lemma DecideBoth(s: Sys, a: Block, b: Block, action: Action, first: bool) returns (t: Sys)
    requires s.Valid() && s.Idle() && s.ViewOf(Src) == Same(a) && s.ViewOf(Dst) == Same(b)
    requires Same(a).Valid() && Same(b).Valid()
    requires Plan(Same(a), Same(b), U_UNINIT, U_UNINIT, first, [], [])
               == Ok(RelayMsgs([MsgOf(action)], [MsgOf(action)], false))
    ensures t == Run(s, [Decide(first, U_UNINIT, U_UNINIT)])
    ensures t == s.(sendingSrc := Going(action, s.finDst), sendingDst := Going(action, s.finSrc),
                    cancelledSrc := false, cancelledDst := false)
  {
    var step := Decide(first, U_UNINIT, U_UNINIT);
    t := Next(s, step);
    assert [step][1..] == [];
    NextValid(s, step);
  }

  /** Both ends are final up to their latest block, and the relayer's decision goes out. */
  lemma Exchange(s: Sys, v: string, p: string, q: string, n: nat, action: Action, first: bool) returns (t: Sys)
    requires 0 < n <= 6 && s.Valid() && s.src == Part(v, p, q, n) && s.dst == Part(v, q, p, n)
    requires s.finSrc < n && s.finDst < n && s.Idle()
    requires var a, b := All(v, p, q)[n - 1], All(v, q, p)[n - 1];
             && Same(a).Valid() && Same(b).Valid()
             && Plan(Same(a), Same(b), U_UNINIT, U_UNINIT, first, [], [])
                  == Ok(RelayMsgs([MsgOf(action)], [MsgOf(action)], false))
    ensures t == Run(s, Decided(n - 1, first))
    ensures t == Sys(s.src, s.dst, n - 1, n - 1, Going(action, n - 1), Going(action, n - 1), false, false)
  {
    var u := FinalizeBoth(s, n - 1);
    t := DecideBoth(u, All(v, p, q)[n - 1], All(v, q, p)[n - 1], action, first);
    RunAppend(s, [Finalize(Src, n - 1), Finalize(Dst, n - 1)], [Decide(first, U_UNINIT, U_UNINIT)]);
  }

  lemma ArriveAtSrc(s: Sys, v: string, p: string, q: string, n: nat, action: Action, fin: nat) returns (t: Sys)
    requires 0 < n < 6 && s.Valid() && s.src == Part(v, p, q, n) && s.dst == Part(v, q, p, n) && fin < n
    requires s.sendingSrc == Going(action, fin)
    requires Handle(CONNS, Tick(All(v, p, q)[n - 1], NOW), MsgOf(action), All(v, q, p)[fin], LIMIT, false)
               == Some(All(v, p, q)[n])
    ensures t == Next(s, Deliver(Src, NOW, LIMIT, false))
    ensures t == s.(src := Part(v, p, q, n + 1), sendingSrc := None)
  {
    GrowPart(v, p, q, n, All(v, p, q)[n]);
    t := Next(s, Deliver(Src, NOW, LIMIT, false));
  }

  lemma ArriveAtDst(s: Sys, v: string, p: string, q: string, n: nat, action: Action, fin: nat) returns (t: Sys)
    requires 0 < n < 6 && s.Valid() && s.src == Part(v, p, q, n + 1) && s.dst == Part(v, q, p, n) && fin < n
    requires s.sendingDst == Going(action, fin)
    requires Handle(CONNS, Tick(All(v, q, p)[n - 1], NOW), MsgOf(action), All(v, p, q)[fin], LIMIT, false)
               == Some(All(v, q, p)[n])
    ensures t == Next(s, Deliver(Dst, NOW, LIMIT, false))
    ensures t == s.(dst := Part(v, q, p, n + 1), sendingDst := None)
  {
    GrowPart(v, q, p, n, All(v, q, p)[n]);
    t := Next(s, Deliver(Dst, NOW, LIMIT, false));
  }

  /** Both messages arrive. */
  lemma Arrive(s: Sys, v: string, p: string, q: string, n: nat, action: Action, fin: nat) returns (t: Sys)
    requires 0 < n < 6 && s.Valid() && s.src == Part(v, p, q, n) && s.dst == Part(v, q, p, n) && fin < n
    requires s.sendingSrc == Going(action, fin) && s.sendingDst == Going(action, fin)
    requires Handle(CONNS, Tick(All(v, p, q)[n - 1], NOW), MsgOf(action), All(v, q, p)[fin], LIMIT, false)
               == Some(All(v, p, q)[n])
    requires Handle(CONNS, Tick(All(v, q, p)[n - 1], NOW), MsgOf(action), All(v, p, q)[fin], LIMIT, false)
               == Some(All(v, q, p)[n])
    ensures t == Run(s, DELIVERIES)
    ensures t == Sys(Part(v, p, q, n + 1), Part(v, q, p, n + 1), s.finSrc, s.finDst, None, None,
                     s.cancelledSrc, s.cancelledDst)
  {
    RunTwo(s, Deliver(Src, NOW, LIMIT, false), Deliver(Dst, NOW, LIMIT, false));
    var u := ArriveAtSrc(s, v, p, q, n, action, fin);
    t := ArriveAtDst(u, v, p, q, n, action, fin);
  }

  lemma FreshStart(v: string, p: string, q: string)
    ensures Initial(Quiet(v, p, q, 1, 1, 0, false, false))
  {
  }

  /** What an event makes of the latest block, whatever the other chain is like. */
  ghost predicate Makes(b: Block, event: Event, c: Block) {
    b.clock == NOW && forall cp: Chain | |cp.blocks| > 0 && cp.blocks[0].end.receipt.None? ::
                        Occurs(CONNS, Tick(b, NOW), event, cp) == c
  }

  lemma OperatorsMake(v: string, p: string)
    ensures Makes(Old(v), Init(p), Proposing(v, p)) && Makes(Proposing(v, p), OperatorCancel(0, true), Back(v, p))
  {
    forall cp: Chain | |cp.blocks| > 0 && cp.blocks[0].end.receipt.None?
      ensures Occurs(CONNS, Tick(Old(v), NOW), Init(p), cp) == Proposing(v, p)
      ensures Occurs(CONNS, Tick(Proposing(v, p), NOW), OperatorCancel(0, true), cp) == Back(v, p)
    {
      OperatorBlocks(v, p, cp);
    }
  }

  lemma RunToTheDecision(v: string, p: string, q: string) returns (t: Sys)
    ensures Quiet(v, p, q, 1, 1, 0, false, false).Valid()
    ensures t == Run(Quiet(v, p, q, 1, 1, 0, false, false), Propose(p, q) + Decided(1, true))
    ensures t == Sys(Part(v, p, q, 2), Part(v, q, p, 2), 1, 1, Going(TRY, 1), Going(TRY, 1), false, false)
  {
    var s := Quiet(v, p, q, 1, 1, 0, false, false);
    OperatorsMake(v, p);
    OperatorsMake(v, q);
    var a := BothBlocks(s, v, p, q, 1, Init(p), Init(q));
    PlanTry(v, p, q);
    t := Exchange(a, v, p, q, 2, TRY, true);
    RunAppend(s, Propose(p, q), Decided(1, true));
  }

  lemma RunThroughCancels(v: string, p: string, q: string, s: Sys) returns (t: Sys)
    requires s == Sys(Part(v, p, q, 2), Part(v, q, p, 2), 1, 1, Going(TRY, 1), Going(TRY, 1), false, false)
    ensures s.Valid() && t == Run(s, CANCELS + DELIVERIES)
    ensures t.Valid() && t.src == Part(v, p, q, 4) && t.dst == Part(v, q, p, 4)
    ensures t.finSrc == 1 && t.finDst == 1 && t.Idle()
  {
    OperatorsMake(v, p);
    OperatorsMake(v, q);
    var c := BothBlocks(s, v, p, q, 2, OperatorCancel(0, true), OperatorCancel(0, true));
    RelayedBlocks(v, p, q);
    RelayedBlocks(v, q, p);
    t := Arrive(c, v, p, q, 3, TRY, 1);
    RunAppend(s, CANCELS, DELIVERIES);
  }

  lemma RunToTheTry(v: string, p: string, q: string) returns (t: Sys)
    ensures Quiet(v, p, q, 1, 1, 0, false, false).Valid()
    ensures t == Run(Quiet(v, p, q, 1, 1, 0, false, false), (Propose(p, q) + Decided(1, true)) + (CANCELS + DELIVERIES))
    ensures t.Valid() && t.src == Part(v, p, q, 4) && t.dst == Part(v, q, p, 4)
    ensures t.finSrc == 1 && t.finDst == 1 && t.Idle()
  {
    var a := RunToTheDecision(v, p, q);
    t := RunThroughCancels(v, p, q, a);
    RunAppend(Quiet(v, p, q, 1, 1, 0, false, false), Propose(p, q) + Decided(1, true), CANCELS + DELIVERIES);
  }

  lemma RunToTheEnd(v: string, p: string, q: string, s: Sys) returns (t: Sys)
    requires s.Valid() && s.src == Part(v, p, q, 4) && s.dst == Part(v, q, p, 4)
    requires s.finSrc == 1 && s.finDst == 1 && s.Idle()
    ensures t == Run(s, Decided(3, false) + (DELIVERIES + (Decided(4, false) + DELIVERIES)))
    ensures t.Valid() && t.src == Part(v, p, q, 6) && t.dst == Part(v, q, p, 6)
  {
    RelayedBlocks(v, p, q);
    RelayedBlocks(v, q, p);
    PlanConfirm(v, p, q);
    var a := Exchange(s, v, p, q, 4, CONFIRM, false);
    var b := Arrive(a, v, p, q, 4, CONFIRM, 3);
    PlanOpen(v, p, q);
    var c := Exchange(b, v, p, q, 5, OPENUP, false);
    t := Arrive(c, v, p, q, 5, OPENUP, 4);
    RunAppend(s, Decided(3, false), DELIVERIES + (Decided(4, false) + DELIVERIES));
    RunAppend(a, DELIVERIES, Decided(4, false) + DELIVERIES);
    RunAppend(b, Decided(4, false), DELIVERIES);
  }

  lemma LastBlocks(v: string, p: string, q: string)
    ensures Part(v, p, q, 6).Valid() && Part(v, p, q, 6).Latest() == New(v, p, q)
    ensures New(v, p, q).St() == OPEN && New(v, p, q).end.chan.fields == Fields(UNORDERED, q, "c")
  {
  }

  lemma Phases(p: string, q: string)
    ensures CancelledUpgrade(p, q) == ((Propose(p, q) + Decided(1, true)) + (CANCELS + DELIVERIES))
                                      + (Decided(3, false) + (DELIVERIES + (Decided(4, false) + DELIVERIES)))
  {
  }

  /** The failing run, from two fresh ends on any version `v` to any proposals `p` and `q`: the
      relayer decides every message itself, both ends are OPEN in the end, and they agree if and
      only if the proposals were the same.  With different proposals the run is, by the agreement
      theorem, one on which both ends were cancelled under their TRYs. */
  lemma CancelledRun(v: string, p: string, q: string)
    ensures var s := Quiet(v, p, q, 1, 1, 0, false, false);
            && Initial(s)
            && var t := Run(s, CancelledUpgrade(p, q));
               && t.src.Latest().St() == OPEN && t.dst.Latest().St() == OPEN
               && (Mirrors(CONNS, t.src.Latest().end.chan.fields, t.dst.Latest().end.chan.fields) <==> p == q)
               && (p != q ==> !NeverBothCancelled(s, CancelledUpgrade(p, q)))
  {
    var s := Quiet(v, p, q, 1, 1, 0, false, false);
    FreshStart(v, p, q);
    var a := RunToTheTry(v, p, q);
    var t := RunToTheEnd(v, p, q, a);
    Phases(p, q);
    RunAppend(s, (Propose(p, q) + Decided(1, true)) + (CANCELS + DELIVERIES),
              Decided(3, false) + (DELIVERIES + (Decided(4, false) + DELIVERIES)));
    LastBlocks(v, p, q);
    LastBlocks(v, q, p);
    if NeverBothCancelled(s, CancelledUpgrade(p, q)) {
      UpgradeAgreement.UpgradeAgreement(s, CancelledUpgrade(p, q));
    }
  }
}
