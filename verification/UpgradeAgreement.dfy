/** Agreement over every run: whenever both ends are OPEN, their fields match. */
module UpgradeAgreement {
  import opened Wrappers
  import opened UpgradeChain
  import opened UpgradeHistory
  import opened UpgradeSafety
  import opened ChannelUpgrade
  import opened UpgradeRun

  /** Every block of a chain lies on the way to the latest one. */
  ghost predicate ChainOk(c: Chain) {
    c.Valid() && forall i | 0 <= i < |c.blocks| :: Wf(c.blocks[i]) && Later(c.blocks[i], c.Latest())
  }

  /** What the decision knew and what can no longer change before delivery. */
  ghost predicate FreshAction(action: Action, me: Block, ev: Block) {
    && (action == TRY ==> me.St() == OPEN && TryNotAdopted(me, ev) && TryBehind(me, ev))
    && (action == OPENUP ==> me.Flushing() ==> me.Seq() in ev.log.flush)
    && (action == TIMEOUT ==> TimeoutFresh(me, ev))
  }

  ghost predicate Fresh(m: Msg, me: Block, ev: Block) {
    m.Upgrade? ==> FreshAction(m.action, me, ev)
  }

  /** The same when `x` says that this end was cancelled under its TRY, and `y` that the other
      end was: a cancelled end need not be behind any more, as long as the other end was not
      cancelled too. */
  ghost predicate FreshUnless(m: Msg, me: Block, cp: Block, ev: Block, x: bool, y: bool) {
    m.Upgrade? ==>
      && (if x && m.action == TRY then me.St() == OPEN && TryNotAdopted(me, ev) else FreshAction(m.action, me, ev))
      && (m.action == TRY && !y ==> NoneAbove(me, cp, ev))
  }

  ghost predicate SendingOk(me: Chain, cp: Chain, m: Option<Sending>, x: bool, y: bool)
    requires me.Valid() && cp.Valid()
  {
    m.Some? ==> m.value.proofHeight < |cp.blocks|
                && FreshUnless(m.value.msg, me.Latest(), cp.Latest(), cp.blocks[m.value.proofHeight], x, y)
  }

  ghost predicate SideInv(me: Chain, cp: Chain, m: Option<Sending>, x: bool, y: bool) {
    && ChainOk(me) && ChainOk(cp) && SendingOk(me, cp, m, x, y)
    && Inv(me.conns, cp.conns, me.Latest(), cp.Latest())
  }

  predicate BothCancelled(s: Sys) { s.cancelledSrc && s.cancelledDst }

  ghost predicate SysInv(s: Sys) {
    && s.Valid() && !BothCancelled(s)
    && SideInv(s.src, s.dst, s.sendingSrc, s.cancelledSrc, s.cancelledDst)
    && SideInv(s.dst, s.src, s.sendingDst, s.cancelledDst, s.cancelledSrc)
  }

  /** Both ends OPEN on matching fields, with no upgrade, and nothing under way. */
  ghost predicate Initial(s: Sys) {
    && Inverse(s.src.conns, s.dst.conns)
    && |s.src.blocks| == |s.dst.blocks| == 1 && s.finSrc == s.finDst == 0
    && s.Idle() && !s.cancelledSrc && !s.cancelledDst
    && FreshEnd(s.src.blocks[0]) && FreshEnd(s.dst.blocks[0])
    && Mirrors(s.src.conns, s.src.blocks[0].end.chan.fields, s.dst.blocks[0].end.chan.fields)
  }

  ghost predicate FreshEnd(b: Block) {
    && b.St() == OPEN && b.end.upgrade.None? && b.end.cpTimeout.None?
    && (b.end.receipt.Some? ==> b.end.receipt.value <= b.Seq())
    && b.log == Log(map[], map[], {})
  }

  lemma InitialInv(s: Sys)
    requires Initial(s)
    ensures SysInv(s)
  {
    InvSymmetric(s.src.conns, s.dst.conns, s.src.Latest(), s.dst.Latest());
  }

  lemma GrowOk(c: Chain, b: Block)
    requires ChainOk(c) && Wf(b) && Later(c.Latest(), b)
    ensures ChainOk(Grow(c, b))
  {
    var d := Grow(c, b);
    forall i | 0 <= i < |d.blocks|
      ensures Wf(d.blocks[i]) && Later(d.blocks[i], d.Latest())
    {
      if i < |c.blocks| { LaterTrans(c.blocks[i], c.Latest(), b); }
    }
  }

  // ------------------------------------------------------------------ blocks without the relayer

  /** A message stays fresh while its chain moves on by itself. */
  lemma FreshStays(conns: Connections, m: Msg, me: Block, now: Clock, event: Event, cp: Chain, ev: Block,
                   x: bool, x': bool, y: bool)
    requires cp.Valid() && me.clock.AtMost(now) && FreshUnless(m, me, cp.Latest(), ev, x, y)
    requires m.Upgrade? && m.action == TRY ==>
               (x' <==> x || CancelsUnderTry(Tick(me, now), event, cp, Some(Sending(m, 0))))
    requires m.Upgrade? && m.action != TRY ==> x' == x
    requires Wf(me)
    ensures FreshUnless(m, Occurs(conns, Tick(me, now), event, cp), cp.Latest(), ev, x', y)
  {
  }

  lemma OccursInv(cm: Connections, cc: Connections, me: Block, now: Clock, event: Event, cp: Chain)
    requires ChainOk(cp) && Inv(cm, cc, me, cp.Latest()) && me.clock.AtMost(now)
    ensures var b := Occurs(cm, Tick(me, now), event, cp);
            Inv(cm, cc, b, cp.Latest()) && Later(me, b)
  {
    var t := Tick(me, now);
    var b := Occurs(cm, t, event, cp);
    var o := cp.Latest();
    InvTick(cm, cc, me, o, now);
    match event {
      case Empty =>
      case SendPacket => InvInflight(cm, cc, t, o, true);
      case PacketsDone(last) => InvPackets(cm, cc, t, o, last);
      case OperatorInit(fields) => if HandleInit(cm, t, fields).Some? { InvInit(cm, cc, t, o, fields); }
      case OperatorCancel(h, authority) =>
        if h < |cp.blocks| && HandleCancel(t, cp.blocks[h].end.receipt, authority).Some? {
          InvCancel(cm, cc, t, o, cp.blocks[h], authority);
        }
    }
    assert Later(t, b) || t == b;
    if t != b { LaterTrans(me, t, b); }
  }

  /** What `b` started to flush that `me` had not is not above the counterparty. */
  ghost predicate NothingAbove(me: Block, b: Block, cp: Block) {
    forall k | k in b.log.flush :: k in me.log.flush || k <= cp.Seq()
  }

  /** A message to the counterparty stays fresh when this end moves on. */
  lemma PeerFresh(n: Msg, cp: Block, me: Block, b: Block, ev: Block, y: bool, x: bool, x': bool)
    requires FreshUnless(n, cp, me, ev, y, x) && (x ==> x') && (x' || NothingAbove(me, b, cp))
    ensures FreshUnless(n, cp, b, ev, y, x')
  {
  }

  lemma PeerSendingOk(cp: Chain, me: Chain, b: Block, n: Option<Sending>, y: bool, x: bool, x': bool)
    requires me.Valid() && cp.Valid() && SendingOk(cp, me, n, y, x) && (x ==> x')
    requires x' || NothingAbove(me.Latest(), b, cp.Latest())
    ensures SendingOk(cp, Grow(me, b), n, y, x')
  {
    if n.Some? {
      assert Grow(me, b).blocks[n.value.proofHeight] == me.blocks[n.value.proofHeight];
      PeerFresh(n.value.msg, cp.Latest(), me.Latest(), b, me.blocks[n.value.proofHeight], y, x, x');
    }
  }

  /** A move of `me` that keeps the joint invariant keeps it for the whole system. */
  lemma MoveInv(me: Chain, cp: Chain, b: Block, m: Option<Sending>, n: Option<Sending>, x: bool, x': bool, y: bool)
    requires ChainOk(me) && ChainOk(cp) && SendingOk(cp, me, n, y, x) && (x ==> x')
    requires Inv(me.conns, cp.conns, b, cp.Latest()) && Later(me.Latest(), b)
    requires x' || NothingAbove(me.Latest(), b, cp.Latest())
    requires SendingOk(Grow(me, b), cp, m, x', y)
    ensures SideInv(Grow(me, b), cp, m, x', y) && SideInv(cp, Grow(me, b), n, y, x')
  {
    PeerSendingOk(cp, me, b, n, y, x, x');
    InvSymmetric(me.conns, cp.conns, b, cp.Latest());
    GrowOk(me, b);
  }

  lemma OccursFlush(conns: Connections, me: Block, now: Clock, event: Event, cp: Chain)
    requires me.clock.AtMost(now)
    ensures Occurs(conns, Tick(me, now), event, cp).log.flush == me.log.flush
  {
  }

  lemma OwnSendingOk(me: Chain, cp: Chain, m: Option<Sending>, now: Clock, event: Event, x: bool, y: bool)
    requires ChainOk(me) && ChainOk(cp) && SendingOk(me, cp, m, x, y) && me.Latest().clock.AtMost(now)
    ensures SendingOk(AfterBlock(me, cp, now, event), cp, m,
                      x || CancelsUnderTry(Tick(me.Latest(), now), event, cp, m), y)
  {
    var x' := x || CancelsUnderTry(Tick(me.Latest(), now), event, cp, m);
    if m.Some? {
      FreshStays(me.conns, m.value.msg, me.Latest(), now, event, cp, cp.blocks[m.value.proofHeight], x, x', y);
    }
  }

  lemma NewBlockInv(me: Chain, cp: Chain, m: Option<Sending>, n: Option<Sending>, now: Clock, event: Event,
                    x: bool, y: bool)
    requires SideInv(me, cp, m, x, y) && SideInv(cp, me, n, y, x) && me.Latest().clock.AtMost(now)
    ensures var c := AfterBlock(me, cp, now, event);
            var x' := x || CancelsUnderTry(Tick(me.Latest(), now), event, cp, m);
            SideInv(c, cp, m, x', y) && SideInv(cp, c, n, y, x')
  {
    var x' := x || CancelsUnderTry(Tick(me.Latest(), now), event, cp, m);
    OwnSendingOk(me, cp, m, now, event, x, y);
    OccursInv(me.conns, cp.conns, me.Latest(), now, event, cp);
    OccursFlush(me.conns, me.Latest(), now, event, cp);
    MoveInv(me, cp, Occurs(me.conns, Tick(me.Latest(), now), event, cp), m, n, x, x', y);
  }

  // ------------------------------------------------------------------ decisions and deliveries

  lemma ActionFresh(me: View, cp: View)
    requires me.Valid() && cp.Valid() && ActionFor(me, cp).Ok?
    requires SameView(me.fin, me.latest) && SameView(cp.fin, cp.latest)
    requires me.fin.log == me.latest.log && cp.fin.log == cp.latest.log
    requires Inv(me.conns, cp.conns, me.latest, cp.latest)
    ensures FreshAction(ActionFor(me, cp).value, me.latest, cp.fin)
  {
  }

  lemma LastMsg(action: Action, me: View, cp: View, proofHeight: nat)
    requires action == TRY ==> cp.fin.end.upgrade.Some?
    requires MsgsFor(action, me, cp, []).Ok?
    ensures var m := ActionMsg(MsgsFor(action, me, cp, []).value, proofHeight);
            m.Some? ==> m.value.proofHeight == proofHeight && m.value.msg.Upgrade? && m.value.msg.action == action
  {
  }

  lemma DecisionFresh(s: Sys, side: Side)
    requires SysInv(s)
    requires var me, cp := s.ViewOf(side), s.ViewOf(side.Other());
             me.Settled() && cp.Settled() && me.Valid() && cp.Valid() && ActionFor(me, cp).Ok?
    ensures FreshAction(ActionFor(s.ViewOf(side), s.ViewOf(side.Other())).value,
                        s.At(side).Latest(), s.At(side.Other()).blocks[s.FinAt(side.Other())])
    ensures NoneAbove(s.At(side).Latest(), s.At(side.Other()).Latest(),
                      s.At(side.Other()).blocks[s.FinAt(side.Other())])
  {
    var me, cp := s.ViewOf(side), s.ViewOf(side.Other());
    SettledMeansUnchanged(me.fin, me.latest);
    SettledMeansUnchanged(cp.fin, cp.latest);
    ActionFresh(me, cp);
  }

  /** The messages of a step are those of the two one-sided actions. */
  lemma PlanMsgs(src: View, dst: View, targetSrc: UpgradeState, targetDst: UpgradeState, firstCall: bool)
    requires src.Valid() && dst.Valid()
    ensures var plan := Plan(src, dst, targetSrc, targetDst, firstCall, [], []);
            plan.Ok? && (plan.value.src != [] || plan.value.dst != []) ==>
              && src.Settled() && dst.Settled() && ActionFor(src, dst).Ok? && ActionFor(dst, src).Ok?
              && (ActionFor(src, dst).value == TRY ==> dst.fin.end.upgrade.Some?)
              && (ActionFor(dst, src).value == TRY ==> src.fin.end.upgrade.Some?)
              && MsgsFor(ActionFor(src, dst).value, src, dst, []) == Ok(plan.value.src)
              && MsgsFor(ActionFor(dst, src).value, dst, src, []) == Ok(plan.value.dst)
  {
  }

  lemma DecideInv(s: Sys, firstCall: bool, targetSrc: UpgradeState, targetDst: UpgradeState)
    requires SysInv(s) && s.Idle() && s.ViewOf(Src).Valid() && s.ViewOf(Dst).Valid()
    ensures SysInv(AfterDecision(s, firstCall, targetSrc, targetDst))
  {
    var t := AfterDecision(s, firstCall, targetSrc, targetDst);
    PlanMsgs(s.ViewOf(Src), s.ViewOf(Dst), targetSrc, targetDst, firstCall);
    if !t.Idle() { SendingsFresh(s, t); }
  }

  lemma SendingsFresh(s: Sys, t: Sys)
    requires SysInv(s) && t.src == s.src && t.dst == s.dst && t.finSrc == s.finSrc && t.finDst == s.finDst
    requires !t.cancelledSrc && !t.cancelledDst
    requires var src, dst := s.ViewOf(Src), s.ViewOf(Dst);
             && src.Valid() && dst.Valid() && src.Settled() && dst.Settled()
             && ActionFor(src, dst).Ok? && ActionFor(dst, src).Ok?
             && (ActionFor(src, dst).value == TRY ==> dst.fin.end.upgrade.Some?)
             && (ActionFor(dst, src).value == TRY ==> src.fin.end.upgrade.Some?)
             && MsgsFor(ActionFor(src, dst).value, src, dst, []).Ok?
             && MsgsFor(ActionFor(dst, src).value, dst, src, []).Ok?
             && t.sendingSrc == ActionMsg(MsgsFor(ActionFor(src, dst).value, src, dst, []).value, s.finDst)
             && t.sendingDst == ActionMsg(MsgsFor(ActionFor(dst, src).value, dst, src, []).value, s.finSrc)
    ensures SysInv(t)
  {
    var src, dst := s.ViewOf(Src), s.ViewOf(Dst);
    DecisionFresh(s, Src);
    DecisionFresh(s, Dst);
    SentFresh(s.src, s.dst, src, dst, s.finDst);
    SentFresh(s.dst, s.src, dst, src, s.finSrc);
    SentInv(s, t);
  }

  /** Fresh messages on the same chains keep the invariant. */
  lemma SentInv(s: Sys, t: Sys)
    requires SysInv(s) && t.Valid() && t.src == s.src && t.dst == s.dst && !t.cancelledSrc && !t.cancelledDst
    requires SendingOk(s.src, s.dst, t.sendingSrc, false, false) && SendingOk(s.dst, s.src, t.sendingDst, false, false)
    ensures SysInv(t)
  {
  }

  /** The message of a fresh decision is fresh while it is under way. */
  lemma SentFresh(me: Chain, cp: Chain, mine: View, theirs: View, fin: nat)
    requires ChainOk(me) && ChainOk(cp) && fin < |cp.blocks| && mine.Valid() && theirs.Valid()
    requires ActionFor(mine, theirs).Ok? && (ActionFor(mine, theirs).value == TRY ==> theirs.fin.end.upgrade.Some?)
    requires MsgsFor(ActionFor(mine, theirs).value, mine, theirs, []).Ok?
    requires FreshAction(ActionFor(mine, theirs).value, me.Latest(), cp.blocks[fin])
    requires NoneAbove(me.Latest(), cp.Latest(), cp.blocks[fin])
    ensures var msgs := MsgsFor(ActionFor(mine, theirs).value, mine, theirs, []).value;
            SendingOk(me, cp, ActionMsg(msgs, fin), false, false)
  {
    LastMsg(ActionFor(mine, theirs).value, mine, theirs, fin);
  }

  lemma HandleInv(cm: Connections, cc: Connections, me: Block, cp: Block, m: Msg, ev: Block,
                  timeout: Timeout, authority: bool, x: bool, y: bool)
    requires Inv(cm, cc, me, cp) && Wf(ev) && Later(ev, cp) && FreshUnless(m, me, cp, ev, x, y) && !(x && y)
    requires Handle(cm, me, m, ev, timeout, authority).Some?
    ensures var b := Handle(cm, me, m, ev, timeout, authority).value; Inv(cm, cc, b, cp) && Later(me, b)
  {
    match m.action {
      case TRY => InvTry(cm, cc, me, cp, ev, m.hop, timeout);
      case ACK => InvAck(cm, cc, me, cp, ev, timeout);
      case CONFIRM => InvConfirm(cm, cc, me, cp, ev);
      case OPENUP => InvOpen(cm, cc, me, cp, ev);
      case CANCEL => InvCancel(cm, cc, me, cp, ev, authority);
      case CANCEL_FLUSHCOMPLETE => InvCancel(cm, cc, me, cp, ev, authority);
      case TIMEOUT => InvTimeout(cm, cc, me, cp, ev);
    }
  }

  /** An end that was not cancelled starts to flush no upgrade above the counterparty. */
  lemma HandleStarts(cm: Connections, me: Block, cp: Block, m: Msg, ev: Block, timeout: Timeout, authority: bool)
    requires Wf(me) && Wf(ev) && Later(ev, cp) && (m.Upgrade? && m.action == TRY ==> TryBehind(me, ev))
    requires Handle(cm, me, m, ev, timeout, authority).Some?
    ensures NothingAbove(me, Handle(cm, me, m, ev, timeout, authority).value, cp)
  {
  }

  /** The block that a delivered message makes. */
  lemma DeliveredBlock(me: Chain, cp: Chain, m: Sending, now: Clock, timeout: Timeout, authority: bool,
                       x: bool, y: bool)
    requires SideInv(me, cp, Some(m), x, y) && me.Latest().clock.AtMost(now) && !(x && y)
    ensures var b := Handle(me.conns, Tick(me.Latest(), now), m.msg, cp.blocks[m.proofHeight], timeout, authority);
            b.Some? ==>
              && Inv(me.conns, cp.conns, b.value, cp.Latest()) && Later(me.Latest(), b.value)
              && (x || NothingAbove(me.Latest(), b.value, cp.Latest()))
  {
    var t, ev := Tick(me.Latest(), now), cp.blocks[m.proofHeight];
    var b := Handle(me.conns, t, m.msg, ev, timeout, authority);
    if b.Some? {
      InvTick(me.conns, cp.conns, me.Latest(), cp.Latest(), now);
      HandleInv(me.conns, cp.conns, t, cp.Latest(), m.msg, ev, timeout, authority, x, y);
      if !x { HandleStarts(me.conns, t, cp.Latest(), m.msg, ev, timeout, authority); }
      LaterTrans(me.Latest(), t, b.value);
    }
  }

  lemma DeliverInv(me: Chain, cp: Chain, m: Sending, n: Option<Sending>,
                   now: Clock, timeout: Timeout, authority: bool, x: bool, y: bool)
    requires SideInv(me, cp, Some(m), x, y) && SideInv(cp, me, n, y, x) && me.Latest().clock.AtMost(now) && !(x && y)
    ensures var c := AfterDelivery(me, cp, m, now, timeout, authority);
            SideInv(c, cp, None, x, y) && SideInv(cp, c, n, y, x)
  {
    DeliveredBlock(me, cp, m, now, timeout, authority, x, y);
    var b := Handle(me.conns, Tick(me.Latest(), now), m.msg, cp.blocks[m.proofHeight], timeout, authority);
    if b.Some? { MoveInv(me, cp, b.value, None, n, x, x, y); }
  }

  /** The two sides of a system, in either order. */
  lemma SysInvSides(s: Sys, side: Side)
    ensures SysInv(s) <==>
              && s.Valid() && !BothCancelled(s)
              && SideInv(s.At(side), s.At(side.Other()), s.SendingTo(side), s.Cancelled(side),
                         s.Cancelled(side.Other()))
              && SideInv(s.At(side.Other()), s.At(side), s.SendingTo(side.Other()),
                         s.Cancelled(side.Other()), s.Cancelled(side))
  {
  }

  lemma NextNewBlock(s: Sys, side: Side, now: Clock, event: Event)
    requires SysInv(s) && !BothCancelled(Next(s, NewBlock(side, now, event)))
    ensures SysInv(Next(s, NewBlock(side, now, event)))
  {
    var c, cp := s.At(side), s.At(side.Other());
    if c.Latest().clock.AtMost(now) {
      SysInvSides(s, side);
      NewBlockInv(c, cp, s.SendingTo(side), s.SendingTo(side.Other()), now, event,
                  s.Cancelled(side), s.Cancelled(side.Other()));
      SysInvSides(Next(s, NewBlock(side, now, event)), side);
    }
  }

  lemma SidesDelivered(s: Sys, side: Side, c: Chain)
    requires s.Valid() && !BothCancelled(s) && |s.At(side).blocks| <= |c.blocks|
    requires SideInv(c, s.At(side.Other()), None, s.Cancelled(side), s.Cancelled(side.Other()))
    requires SideInv(s.At(side.Other()), c, s.SendingTo(side.Other()), s.Cancelled(side.Other()), s.Cancelled(side))
    ensures SysInv(s.WithChain(side, c).WithSending(side, None))
  {
    SysInvSides(s.WithChain(side, c).WithSending(side, None), side);
  }

  lemma NextDeliver(s: Sys, side: Side, now: Clock, timeout: Timeout, authority: bool)
    requires SysInv(s)
    ensures SysInv(Next(s, Deliver(side, now, timeout, authority)))
  {
    var c, cp := s.At(side), s.At(side.Other());
    if s.SendingTo(side).Some? && c.Latest().clock.AtMost(now) {
      SysInvSides(s, side);
      var m := s.SendingTo(side).value;
      DeliverInv(c, cp, m, s.SendingTo(side.Other()), now, timeout, authority,
                 s.Cancelled(side), s.Cancelled(side.Other()));
      SidesDelivered(s, side, AfterDelivery(c, cp, m, now, timeout, authority));
    }
  }

  lemma NextFinalize(s: Sys, side: Side, height: nat)
    requires SysInv(s)
    ensures SysInv(Next(s, Finalize(side, height)))
  {
    FinalizeShape(s, side, height);
    SameChains(s, Next(s, Finalize(side, height)));
  }

  lemma FinalizeShape(s: Sys, side: Side, height: nat)
    requires s.Valid()
    ensures var t := Next(s, Finalize(side, height));
            && t.Valid() && t.src == s.src && t.dst == s.dst
            && t.sendingSrc == s.sendingSrc && t.sendingDst == s.sendingDst
            && t.cancelledSrc == s.cancelledSrc && t.cancelledDst == s.cancelledDst
  {
  }

  /** The invariant does not depend on the finalized heights. */
  lemma SameChains(s: Sys, t: Sys)
    requires SysInv(s) && t.Valid() && t.src == s.src && t.dst == s.dst
    requires t.sendingSrc == s.sendingSrc && t.sendingDst == s.sendingDst
    requires t.cancelledSrc == s.cancelledSrc && t.cancelledDst == s.cancelledDst
    ensures SysInv(t)
  {
  }

  lemma NextDecide(s: Sys, firstCall: bool, targetSrc: UpgradeState, targetDst: UpgradeState)
    requires SysInv(s)
    ensures SysInv(Next(s, Decide(firstCall, targetSrc, targetDst)))
  {
    if Enabled(s, Decide(firstCall, targetSrc, targetDst)) { DecideInv(s, firstCall, targetSrc, targetDst); }
  }

  lemma NextSendFails(s: Sys, side: Side)
    requires SysInv(s)
    ensures SysInv(Next(s, SendFails(side)))
  {
    SysInvSides(s, side);
    SidesDelivered(s, side, s.At(side));
  }

  lemma NextInv(s: Sys, step: Step)
    requires SysInv(s) && !BothCancelled(Next(s, step))
    ensures SysInv(Next(s, step))
  {
    match step {
      case NewBlock(side, now, event) => NextNewBlock(s, side, now, event);
      case Finalize(side, height) => NextFinalize(s, side, height);
      case Decide(firstCall, targetSrc, targetDst) => NextDecide(s, firstCall, targetSrc, targetDst);
      case Deliver(side, now, timeout, authority) => NextDeliver(s, side, now, timeout, authority);
      case SendFails(side) => NextSendFails(s, side);
    }
  }

  /** At no moment of the run have operators cancelled on both ends under the two TRYs of one
      decision. */
  predicate NeverBothCancelled(s: Sys, steps: seq<Step>)
    requires s.Valid()
    decreases |steps|
  {
    && !BothCancelled(s)
    && (steps == [] || (NextValid(s, steps[0]); NeverBothCancelled(Next(s, steps[0]), steps[1..])))
  }

  lemma {:induction false} RunInv(s: Sys, steps: seq<Step>)
    requires SysInv(s) && NeverBothCancelled(s, steps)
    ensures SysInv(Run(s, steps))
    decreases |steps|
  {
    if steps == [] {
    } else {
      NextInv(s, steps[0]);
      RunInv(Next(s, steps[0]), steps[1..]);
    }
  }

  // ------------------------------------------------------------------ the theorem

  /** On every run, whenever both ends are OPEN they have matching fields: both kept the old
      ones or both adopted the new ones.  This covers any number of upgrades, proposals that
      repeat earlier fields, lagging finality, failing sends, timeouts and cancellations. */
  lemma UpgradeAgreement(s: Sys, steps: seq<Step>)
    requires Initial(s) && NeverBothCancelled(s, steps)
    ensures var t := Run(s, steps);
            t.src.Latest().St() == OPEN && t.dst.Latest().St() == OPEN ==>
              var f, g := t.src.Latest().end.chan.fields, t.dst.Latest().end.chan.fields;
              && f.ordering == g.ordering && f.version == g.version
              && f.hop in t.src.conns && t.src.conns[f.hop] == g.hop
  {
    InitialInv(s);
    RunInv(s, steps);
    var t := Run(s, steps);
    if t.src.Latest().St() == OPEN && t.dst.Latest().St() == OPEN {
      InvAgreement(t.src.conns, t.dst.conns, t.src.Latest(), t.dst.Latest());
    }
  }

  /** Fields only change by adopting an upgrade. */
  lemma UnchangedUntilAdopted(s: Sys, steps: seq<Step>, side: Side)
    requires Initial(s) && NeverBothCancelled(s, steps)
    ensures var b := Run(s, steps).At(side).Latest();
            b.log.adopted == {} ==> b.end.chan.fields == s.At(side).Latest().end.chan.fields
  {
    RunChainOk(s, steps, side);
    FirstBlockKept(s, steps, side);
    FirstBlockFields(Run(s, steps).At(side));
    assert s.At(side).Latest() == s.At(side).blocks[0];
  }

  lemma RunChainOk(s: Sys, steps: seq<Step>, side: Side)
    requires Initial(s) && NeverBothCancelled(s, steps)
    ensures ChainOk(Run(s, steps).At(side))
  {
    InitialInv(s);
    RunInv(s, steps);
  }

  lemma FirstBlockFields(c: Chain)
    requires ChainOk(c)
    ensures c.blocks[0].log.adopted == c.Latest().log.adopted ==>
              c.blocks[0].end.chan.fields == c.Latest().end.chan.fields
  {
    assert Later(c.blocks[0], c.Latest());
  }

  lemma {:induction false} FirstBlockKept(s: Sys, steps: seq<Step>, side: Side)
    requires s.Valid()
    ensures |Run(s, steps).At(side).blocks| > 0 && Run(s, steps).At(side).blocks[0] == s.At(side).blocks[0]
    decreases |steps|
  {
    if steps == [] {
    } else {
      NextValid(s, steps[0]);
      FirstBlockKept(Next(s, steps[0]), steps[1..], side);
    }
  }

  /** When the relayer stops because both views are back on UNINIT, the ends agree. */
  lemma StopsInAgreement(s: Sys, steps: seq<Step>)
    requires Initial(s) && NeverBothCancelled(s, steps)
    ensures var t := Run(s, steps);
            var src, dst := t.ViewOf(Src), t.ViewOf(Dst);
            && src.Valid() && dst.Valid()
            && var plan := Plan(src, dst, U_UNINIT, U_UNINIT, false, [], []);
            plan.Ok? && plan.value.last ==>
              && t.src.Latest().St() == OPEN && t.dst.Latest().St() == OPEN
              && t.src.Latest().end.upgrade.None? && t.dst.Latest().end.upgrade.None?
              && Mirrors(t.src.conns, t.src.Latest().end.chan.fields, t.dst.Latest().end.chan.fields)
  {
    InitialInv(s);
    RunInv(s, steps);
    UpgradeAgreement(s, steps);
    var t := Run(s, steps);
    StopViews(t.ViewOf(Src), t.ViewOf(Dst));
  }

  lemma StopViews(src: View, dst: View)
    requires Wf(src.fin) && Wf(dst.fin)
    ensures src.Valid() && dst.Valid()
    ensures var plan := Plan(src, dst, U_UNINIT, U_UNINIT, false, [], []);
            plan.Ok? && plan.value.last ==>
              && src.latest.St() == OPEN && dst.latest.St() == OPEN
              && src.latest.end.upgrade.None? && dst.latest.end.upgrade.None?
  {
  }
}
