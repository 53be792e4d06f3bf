/** Runs of the two chains and the relayer.  Chains grow block by block, finality lags behind
    by any amount, packets are flushed and operators start or cancel upgrades at any time; the
    relayer decides from settled views and its messages are delivered later, or fail. */
module UpgradeRun {
  import opened Wrappers
  import opened UpgradeChain
  import opened UpgradeHistory
  import opened UpgradeSafety
  import opened ChannelUpgrade

  datatype Chain = Chain(conns: Connections, blocks: seq<Block>) {
    predicate Valid() { |blocks| > 0 }

    function Latest(): Block
      requires Valid()
    { blocks[|blocks| - 1] }
  }

  /** A message under way, with the counterparty height its proofs refer to. */
  datatype Sending = Sending(msg: Msg, proofHeight: nat)

  /** The two chains, their finalized heights, the messages of the current step that are not
      delivered yet, and whether an operator has cancelled on an end while that step's TRY was
      under way to it.  The last two only record what happened. */
  datatype Sys = Sys(src: Chain, dst: Chain, finSrc: nat, finDst: nat,
                     sendingSrc: Option<Sending>, sendingDst: Option<Sending>,
                     cancelledSrc: bool, cancelledDst: bool) {
    predicate Valid() { finSrc < |src.blocks| && finDst < |dst.blocks| }

    function At(side: Side): Chain { if side == Src then src else dst }

    function FinAt(side: Side): nat { if side == Src then finSrc else finDst }

    function SendingTo(side: Side): Option<Sending> { if side == Src then sendingSrc else sendingDst }

    predicate Cancelled(side: Side) { if side == Src then cancelledSrc else cancelledDst }

    predicate Idle() { sendingSrc.None? && sendingDst.None? }

    function ViewOf(side: Side): View
      requires Valid()
    { View(At(side).conns, At(side).blocks[FinAt(side)], At(side).Latest()) }

    function WithChain(side: Side, c: Chain): Sys {
      if side == Src then this.(src := c) else this.(dst := c)
    }

    function WithCancelled(side: Side, c: bool): Sys {
      if side == Src then this.(cancelledSrc := c) else this.(cancelledDst := c)
    }

    function WithSending(side: Side, m: Option<Sending>): Sys {
      if side == Src then this.(sendingSrc := m) else this.(sendingDst := m)
    }
  }

  /** What may happen on a chain without the relayer. */
  datatype Event =
    | Empty
    | SendPacket
    | PacketsDone(last: bool)
    | OperatorInit(fields: Fields)
    | OperatorCancel(proofHeight: nat, authority: bool)

  datatype Step =
    | NewBlock(side: Side, now: Clock, event: Event)
    | Finalize(side: Side, height: nat)
    | Decide(firstCall: bool, targetSrc: UpgradeState, targetDst: UpgradeState)
    | Deliver(side: Side, now: Clock, timeout: Timeout, authority: bool)
    | SendFails(side: Side)

  function Occurs(conns: Connections, me: Block, event: Event, cp: Chain): Block {
    match event
    case Empty => me
    case SendPacket => HandleSendPacket(me)
    case PacketsDone(last) => HandlePackets(me, last)
    case OperatorInit(fields) =>
      var b := HandleInit(conns, me, fields); if b.Some? then b.value else me
    case OperatorCancel(h, authority) =>
      if |cp.blocks| <= h then me else
      var b := HandleCancel(me, cp.blocks[h].end.receipt, authority); if b.Some? then b.value else me
  }

  /** The handler for a relayed action; `ev` is the proved counterparty block. */
  function Handle(conns: Connections, me: Block, m: Msg, ev: Block, timeout: Timeout, authority: bool): Option<Block> {
    if m.UpdateClient? then None else
    match m.action
    case NONE => None
    case TRY => HandleTry(conns, me, ev, m.hop, timeout)
    case ACK => HandleAck(conns, me, ev, timeout)
    case CONFIRM => HandleConfirm(conns, me, ev)
    case OPENUP => HandleOpen(conns, me, ev)
    case CANCEL => if m.receipt == ev.end.receipt then HandleCancel(me, m.receipt, authority) else None
    case CANCEL_FLUSHCOMPLETE =>
      if m.receipt == ev.end.receipt then HandleCancel(me, m.receipt, authority) else None
    case TIMEOUT => HandleTimeout(conns, me, ev)
  }

  function Grow(c: Chain, b: Block): Chain { c.(blocks := c.blocks + [b]) }

  function ActionMsg(msgs: seq<Msg>, proofHeight: nat): Option<Sending> {
    if |msgs| == 0 then None else Some(Sending(msgs[|msgs| - 1], proofHeight))
  }

  function AfterBlock(c: Chain, cp: Chain, now: Clock, event: Event): Chain
    requires c.Valid() && c.Latest().clock.AtMost(now)
  {
    Grow(c, Occurs(c.conns, Tick(c.Latest(), now), event, cp))
  }

  /** A rejected message leaves the chain as it is. */
  function AfterDelivery(c: Chain, cp: Chain, m: Sending, now: Clock, timeout: Timeout, authority: bool): Chain
    requires c.Valid() && c.Latest().clock.AtMost(now) && m.proofHeight < |cp.blocks|
  {
    var b := Handle(c.conns, Tick(c.Latest(), now), m.msg, cp.blocks[m.proofHeight], timeout, authority);
    if b.None? then c else Grow(c, b.value)
  }

  function AfterDecision(s: Sys, firstCall: bool, targetSrc: UpgradeState, targetDst: UpgradeState): Sys
    requires s.Valid() && s.ViewOf(Src).Valid() && s.ViewOf(Dst).Valid()
  {
    var plan := Plan(s.ViewOf(Src), s.ViewOf(Dst), targetSrc, targetDst, firstCall, [], []);
    if plan.Err? then s
    else s.(sendingSrc := ActionMsg(plan.value.src, s.finDst), sendingDst := ActionMsg(plan.value.dst, s.finSrc),
            cancelledSrc := false, cancelledDst := false)
  }

  /** A TRY is under way. */
  predicate TryTo(m: Option<Sending>) { m.Some? && m.value.msg.Upgrade? && m.value.msg.action == TRY }

  /** The event is an operator's cancel that takes effect on an end to which a TRY is under way. */
  predicate CancelsUnderTry(me: Block, event: Event, cp: Chain, m: Option<Sending>) {
    && event.OperatorCancel? && TryTo(m) && event.proofHeight < |cp.blocks|
    && HandleCancel(me, cp.blocks[event.proofHeight].end.receipt, event.authority).Some?
  }

  predicate Enabled(s: Sys, step: Step)
    requires s.Valid()
  {
    match step
    case NewBlock(side, now, _) => s.At(side).Latest().clock.AtMost(now)
    case Finalize(side, height) => s.FinAt(side) <= height < |s.At(side).blocks|
    case Decide(_, _, _) => s.Idle() && s.ViewOf(Src).Valid() && s.ViewOf(Dst).Valid()
    case Deliver(side, now, _, _) =>
      && s.SendingTo(side).Some? && s.SendingTo(side).value.proofHeight < |s.At(side.Other()).blocks|
      && s.At(side).Latest().clock.AtMost(now)
    case SendFails(side) => true
  }

  /** The next state; a step that is not possible changes nothing. */
  function Next(s: Sys, step: Step): Sys
    requires s.Valid()
  {
    if !Enabled(s, step) then s else
    match step
    case NewBlock(side, now, event) =>
      var me, cp := s.At(side), s.At(side.Other());
      s.WithChain(side, AfterBlock(me, cp, now, event))
       .WithCancelled(side, s.Cancelled(side) || CancelsUnderTry(Tick(me.Latest(), now), event, cp, s.SendingTo(side)))
    case Finalize(side, height) => if side == Src then s.(finSrc := height) else s.(finDst := height)
    case Decide(firstCall, targetSrc, targetDst) => AfterDecision(s, firstCall, targetSrc, targetDst)
    case Deliver(side, now, timeout, authority) =>
      s.WithChain(side, AfterDelivery(s.At(side), s.At(side.Other()), s.SendingTo(side).value, now, timeout, authority))
       .WithSending(side, None)
    case SendFails(side) => s.WithSending(side, None)
  }

  lemma NextValid(s: Sys, step: Step)
    requires s.Valid()
    ensures Next(s, step).Valid()
  {
  }

  function Run(s: Sys, steps: seq<Step>): Sys
    requires s.Valid()
    ensures Run(s, steps).Valid()
    decreases |steps|
  {
    if steps == [] then s
    else
      NextValid(s, steps[0]);
      Run(Next(s, steps[0]), steps[1..])
  }

  lemma {:induction false} RunAppend(s: Sys, x: seq<Step>, y: seq<Step>)
    requires s.Valid()
    ensures Run(s, x + y) == Run(Run(s, x), y)
    decreases |x|
  {
    if x == [] {
      assert x + y == y;
    } else {
      assert (x + y)[1..] == x[1..] + y && (x + y)[0] == x[0];
      NextValid(s, x[0]);
      RunAppend(Next(s, x[0]), x[1..], y);
    }
  }
}
