/** Undisturbed runs: the measure bounds the messages that can still be accepted, and a settled
    relayer always has a message to send unless packets are in flight. */
module UpgradeTermination {
  import opened Wrappers
  import opened UpgradeChain
  import opened UpgradeHistory
  import opened UpgradeSafety
  import opened ChannelUpgrade
  import opened UpgradeRun
  import opened UpgradeAgreement
  import opened UpgradeProgress

  ghost predicate TimelyTo(me: Chain, cp: Chain, m: Option<Sending>)
    requires me.Valid() && cp.Valid()
  {
    m.Some? ==> m.value.proofHeight < |cp.blocks|
                && Timely(me.conns, me.Latest(), cp.Latest(), m.value.msg, cp.blocks[m.value.proofHeight])
  }

  ghost predicate BothTogether(a: Chain, b: Chain, m: Option<Sending>, n: Option<Sending>)
    requires a.Valid() && b.Valid()
  {
    m.Some? && n.Some? ==>
      && m.value.proofHeight < |b.blocks| && n.value.proofHeight < |a.blocks|
      && Together(m.value.msg, a.Latest(), b.blocks[m.value.proofHeight],
                  n.value.msg, b.Latest(), a.blocks[n.value.proofHeight])
  }

  ghost predicate CalmSide(me: Chain, cp: Chain, m: Option<Sending>, n: Option<Sending>) {
    && SideInv(me, cp, m, false, false) && Calm(me.conns, cp.conns, me.Latest(), cp.Latest())
    && TimelyTo(me, cp, m) && BothTogether(me, cp, m, n)
  }

  ghost predicate CalmSys(s: Sys) {
    && s.Valid() && !s.cancelledSrc && !s.cancelledDst
    && CalmSide(s.src, s.dst, s.sendingSrc, s.sendingDst)
    && CalmSide(s.dst, s.src, s.sendingDst, s.sendingSrc)
  }

  function MeasureOf(s: Sys): nat
    requires s.Valid() && Wf(s.src.Latest()) && Wf(s.dst.Latest())
  {
    Measure(s.src.Latest(), s.dst.Latest())
  }

  // ------------------------------------------------------------------ one step

  lemma TogetherSymmetric(m: Msg, a: Block, evM: Block, n: Msg, b: Block, evN: Block)
    requires Together(m, a, evM, n, b, evN)
    ensures Together(n, b, evN, m, a, evM)
  {
  }

  /** Appending `b` keeps a calm system calm when the block-level facts hold of `b`. */
  lemma CalmGrow(me: Chain, cp: Chain, b: Block, m: Option<Sending>, n: Option<Sending>)
    requires me.Valid() && cp.Valid()
    requires SideInv(Grow(me, b), cp, m, false, false) && SideInv(cp, Grow(me, b), n, false, false)
    requires Calm(me.conns, cp.conns, b, cp.Latest())
    requires m.Some? ==> m.value.proofHeight < |cp.blocks|
                         && Timely(me.conns, b, cp.Latest(), m.value.msg, cp.blocks[m.value.proofHeight])
    requires n.Some? ==> n.value.proofHeight < |me.blocks|
                         && Timely(cp.conns, cp.Latest(), b, n.value.msg, me.blocks[n.value.proofHeight])
    requires m.Some? && n.Some? ==>
               Together(m.value.msg, b, cp.blocks[m.value.proofHeight],
                        n.value.msg, cp.Latest(), me.blocks[n.value.proofHeight])
    ensures CalmSide(Grow(me, b), cp, m, n) && CalmSide(cp, Grow(me, b), n, m)
  {
    CalmSymmetric(me.conns, cp.conns, b, cp.Latest());
    if m.Some? && n.Some? {
      TogetherSymmetric(m.value.msg, b, cp.blocks[m.value.proofHeight],
                        n.value.msg, cp.Latest(), me.blocks[n.value.proofHeight]);
    }
  }

  lemma SeqKept(conns: Connections, me: Block, now: Clock, event: Event, cp: Chain)
    requires me.clock.AtMost(now) && CalmEvent(event)
    ensures Occurs(conns, Tick(me, now), event, cp).Seq() == me.Seq()
  {
  }

  /** The facts about `b == Occurs(...)` that CalmGrow needs. */
  lemma CalmBlockFacts(me: Chain, cp: Chain, m: Option<Sending>, n: Option<Sending>, now: Clock, event: Event)
    requires CalmSide(me, cp, m, n) && CalmSide(cp, me, n, m)
    requires me.Latest().clock.AtMost(now) && CalmEvent(event) && NoTimeout(cp.Latest(), Tick(me.Latest(), now))
    ensures var b := Occurs(me.conns, Tick(me.Latest(), now), event, cp);
            && Calm(me.conns, cp.conns, b, cp.Latest())
            && Measure(b, cp.Latest()) <= Measure(me.Latest(), cp.Latest())
            && (m.Some? ==> Timely(me.conns, b, cp.Latest(), m.value.msg, cp.blocks[m.value.proofHeight]))
            && (n.Some? ==> Timely(cp.conns, cp.Latest(), b, n.value.msg, me.blocks[n.value.proofHeight]))
            && b.Seq() == me.Latest().Seq()
  {
    EventKeepsCalm(me.conns, cp.conns, me.Latest(), now, event, cp);
    if m.Some? {
      EventKeepsTimely(me.conns, cp.conns, me.Latest(), now, event, cp, m.value.msg, cp.blocks[m.value.proofHeight]);
    }
    if n.Some? {
      PeerEventKeepsTimely(cp.conns, me.conns, cp, me.Latest(), now, event, n.value.msg,
                           me.blocks[n.value.proofHeight]);
    }
    SeqKept(me.conns, me.Latest(), now, event, cp);
  }

  lemma CalmBlock(me: Chain, cp: Chain, m: Option<Sending>, n: Option<Sending>, now: Clock, event: Event)
    requires CalmSide(me, cp, m, n) && CalmSide(cp, me, n, m)
    requires me.Latest().clock.AtMost(now) && CalmEvent(event) && NoTimeout(cp.Latest(), Tick(me.Latest(), now))
    ensures var c := AfterBlock(me, cp, now, event);
            && CalmSide(c, cp, m, n) && CalmSide(cp, c, n, m)
            && Measure(c.Latest(), cp.Latest()) <= Measure(me.Latest(), cp.Latest())
  {
    NewBlockInv(me, cp, m, n, now, event, false, false);
    CalmBlockFacts(me, cp, m, n, now, event);
    CalmGrow(me, cp, Occurs(me.conns, Tick(me.Latest(), now), event, cp), m, n);
  }

  /** What holds of the block `t` a message is about to be executed on. */
  ghost predicate Ready(me: Chain, cp: Chain, m: Sending, n: Option<Sending>, t: Block) {
    && ChainOk(me) && ChainOk(cp) && m.proofHeight < |cp.blocks|
    && Calm(me.conns, cp.conns, t, cp.Latest()) && Fresh(m.msg, t, cp.blocks[m.proofHeight])
    && Timely(me.conns, t, cp.Latest(), m.msg, cp.blocks[m.proofHeight])
    && (n.Some? ==>
          && n.value.proofHeight < |me.blocks|
          && Timely(cp.conns, cp.Latest(), t, n.value.msg, me.blocks[n.value.proofHeight])
          && Together(m.msg, t, cp.blocks[m.proofHeight], n.value.msg, cp.Latest(), me.blocks[n.value.proofHeight]))
  }

  lemma TickReady(me: Chain, cp: Chain, m: Sending, n: Option<Sending>, now: Clock)
    requires CalmSide(me, cp, Some(m), n) && CalmSide(cp, me, n, Some(m))
    requires me.Latest().clock.AtMost(now) && NoTimeout(cp.Latest(), Tick(me.Latest(), now))
    ensures Ready(me, cp, m, n, Tick(me.Latest(), now))
  {
    CalmBlockFacts(me, cp, Some(m), n, now, Empty);
    FreshStays(me.conns, m.msg, me.Latest(), now, Empty, cp, cp.blocks[m.proofHeight], false, false, false);
  }

  /** How the message leaves the two ends, and the other message still under way. */
  ghost predicate Delivered(me: Chain, cp: Chain, m: Sending, n: Option<Sending>, t: Block, o: Option<Block>)
    requires cp.Valid()
  {
    && Progressed(me.conns, cp.conns, t, cp.Latest(), m.msg, o)
    && (o.Some? && n.Some? ==>
          && n.value.proofHeight < |me.blocks|
          && Timely(cp.conns, cp.Latest(), o.value, n.value.msg, me.blocks[n.value.proofHeight]))
  }

  lemma ReadyDelivered(me: Chain, cp: Chain, m: Sending, n: Option<Sending>, t: Block, timeout: Timeout,
                       authority: bool)
    requires Ready(me, cp, m, n, t) && timeout.IsSet()
    ensures Delivered(me, cp, m, n, t, Handle(me.conns, t, m.msg, cp.blocks[m.proofHeight], timeout, authority))
  {
    var ev := cp.blocks[m.proofHeight];
    AcceptedMakesProgress(me.conns, cp.conns, t, cp.Latest(), m.msg, ev, timeout, authority);
    if n.Some? && Handle(me.conns, t, m.msg, ev, timeout, authority).Some? {
      PeerMessageKeepsTimely(me.conns, cp.conns, t, cp.Latest(), m.msg, n.value.msg, ev,
                             me.blocks[n.value.proofHeight], timeout, authority);
    }
  }

  lemma CalmAccepted(me: Chain, cp: Chain, m: Sending, b: Block, n: Option<Sending>, t: Block)
    requires me.Valid() && cp.Valid()
    requires SideInv(Grow(me, b), cp, None, false, false) && SideInv(cp, Grow(me, b), n, false, false)
    requires Delivered(me, cp, m, n, t, Some(b)) && HopsKnown(cp.conns, cp.Latest())
    requires NoTimeout(b, cp.Latest()) && NoTimeout(cp.Latest(), b)
    ensures CalmSide(Grow(me, b), cp, None, n) && CalmSide(cp, Grow(me, b), n, None)
  {
    CalmGrow(me, cp, b, None, n);
  }

  lemma CalmRefused(me: Chain, cp: Chain, m: Option<Sending>, n: Option<Sending>)
    requires CalmSide(me, cp, m, n) && CalmSide(cp, me, n, m)
    ensures CalmSide(me, cp, None, n) && CalmSide(cp, me, n, None)
  {
  }

  lemma DeliveryOutcome(me: Chain, cp: Chain, m: Sending, n: Option<Sending>, now: Clock, timeout: Timeout,
                        authority: bool)
    returns (o: Option<Block>)
    requires CalmSide(me, cp, Some(m), n) && CalmSide(cp, me, n, Some(m))
    requires me.Latest().clock.AtMost(now) && timeout.IsSet()
    requires NoTimeout(cp.Latest(), Tick(me.Latest(), now))
    ensures AfterDelivery(me, cp, m, now, timeout, authority) == if o.None? then me else Grow(me, o.value)
    ensures Delivered(me, cp, m, n, Tick(me.Latest(), now), o)
    ensures o.Some? ==> && SideInv(Grow(me, o.value), cp, None, false, false)
                            && SideInv(cp, Grow(me, o.value), n, false, false)
  {
    TickReady(me, cp, m, n, now);
    ReadyDelivered(me, cp, m, n, Tick(me.Latest(), now), timeout, authority);
    DeliverInv(me, cp, m, n, now, timeout, authority, false, false);
    o := Handle(me.conns, Tick(me.Latest(), now), m.msg, cp.blocks[m.proofHeight], timeout, authority);
  }

  lemma MeasureTick(me: Block, cp: Block, now: Clock)
    requires Wf(me) && Wf(cp) && me.clock.AtMost(now)
    ensures Wf(Tick(me, now)) && Measure(Tick(me, now), cp) == Measure(me, cp)
  {
  }

  /** `c` is `me` after the delivery of `m`. */
  ghost predicate StillCalm(me: Chain, cp: Chain, m: Sending, n: Option<Sending>, c: Chain)
    requires me.Valid() && cp.Valid() && Wf(me.Latest()) && Wf(cp.Latest())
  {
    && CalmSide(c, cp, None, n) && CalmSide(cp, c, n, None)
    && (if c == me then m.msg.Upgrade? && m.msg.action == CONFIRM && me.Latest().St() == FLUSHCOMPLETE
        else Measure(c.Latest(), cp.Latest()) < Measure(me.Latest(), cp.Latest()))
  }

  lemma OutcomeCalm(me: Chain, cp: Chain, m: Sending, n: Option<Sending>, now: Clock, o: Option<Block>)
    requires CalmSide(me, cp, Some(m), n) && CalmSide(cp, me, n, Some(m))
    requires me.Latest().clock.AtMost(now) && Delivered(me, cp, m, n, Tick(me.Latest(), now), o)
    requires o.Some? ==> && SideInv(Grow(me, o.value), cp, None, false, false)
                            && SideInv(cp, Grow(me, o.value), n, false, false)
    requires o.Some? ==> NoTimeout(o.value, cp.Latest()) && NoTimeout(cp.Latest(), o.value)
    ensures StillCalm(me, cp, m, n, if o.None? then me else Grow(me, o.value))
  {
    if o.Some? {
      CalmAccepted(me, cp, m, o.value, n, Tick(me.Latest(), now));
      MeasureTick(me.Latest(), cp.Latest(), now);
      assert |Grow(me, o.value).blocks| != |me.blocks|;
    } else {
      CalmRefused(me, cp, Some(m), n);
    }
  }

  /** A delivered message is accepted and decreases the measure, unless it is a CONFIRM for an
      end that reached FLUSHCOMPLETE by itself. */
  lemma CalmDelivery(me: Chain, cp: Chain, m: Sending, n: Option<Sending>, now: Clock, timeout: Timeout,
                     authority: bool)
    requires CalmSide(me, cp, Some(m), n) && CalmSide(cp, me, n, Some(m))
    requires me.Latest().clock.AtMost(now) && timeout.IsSet()
    requires NoTimeout(cp.Latest(), Tick(me.Latest(), now))
    requires var c := AfterDelivery(me, cp, m, now, timeout, authority);
             c.Valid() && NoTimeout(c.Latest(), cp.Latest()) && NoTimeout(cp.Latest(), c.Latest())
    ensures StillCalm(me, cp, m, n, AfterDelivery(me, cp, m, now, timeout, authority))
  {
    var o := DeliveryOutcome(me, cp, m, n, now, timeout, authority);
    if o.Some? { assert Grow(me, o.value).Latest() == o.value; }
    OutcomeCalm(me, cp, m, n, now, o);
  }

  // ------------------------------------------------------------------ decisions

  lemma SettledViews(s: Sys)
    requires CalmSys(s) && s.ViewOf(Src).Settled() && s.ViewOf(Dst).Settled()
    requires s.ViewOf(Src).Valid() && s.ViewOf(Dst).Valid()
    ensures SettledCalm(s.ViewOf(Src), s.ViewOf(Dst)) && SettledCalm(s.ViewOf(Dst), s.ViewOf(Src))
  {
    SettledMeansUnchanged(s.ViewOf(Src).fin, s.ViewOf(Src).latest);
    SettledMeansUnchanged(s.ViewOf(Dst).fin, s.ViewOf(Dst).latest);
  }

  lemma DecisionsTogether(src: View, dst: View)
    requires SettledCalm(src, dst) && SettledCalm(dst, src)
    ensures var a, b := ActionFor(src, dst), ActionFor(dst, src);
            && a.Ok? && b.Ok?
            && (a.value == TRY ==> dst.fin.end.upgrade.Some?) && (b.value == TRY ==> src.fin.end.upgrade.Some?)
            && (a.value != NONE && b.value != NONE ==>
                  && BuildActionMsg(a.value, src, dst).Ok? && BuildActionMsg(b.value, dst, src).Ok?
                  && Together(BuildActionMsg(a.value, src, dst).value, src.latest, dst.fin,
                              BuildActionMsg(b.value, dst, src).value, dst.latest, src.fin))
  {
    DecisionTimely(src, dst);
    DecisionTimely(dst, src);
  }

  /** The last message of a side is the action's message. */
  lemma MsgOf(action: Action, me: View, cp: View, proofHeight: nat)
    requires action == TRY ==> cp.fin.end.upgrade.Some?
    requires action != NONE ==> BuildActionMsg(action, me, cp).Ok?
    ensures var msgs := MsgsFor(action, me, cp, []);
            && msgs.Ok? && (msgs.value == [] <==> action == NONE)
            && ActionMsg(msgs.value, proofHeight) ==
                 if action == NONE then None else Some(Sending(BuildActionMsg(action, me, cp).value, proofHeight))
  {
  }

  /** What a decision puts under way. */
  lemma DecisionMsgs(s: Sys, firstCall: bool, targetSrc: UpgradeState, targetDst: UpgradeState)
    requires CalmSys(s) && s.Idle() && s.ViewOf(Src).Valid() && s.ViewOf(Dst).Valid()
    ensures var t := AfterDecision(s, firstCall, targetSrc, targetDst);
            && t.src == s.src && t.dst == s.dst && t.finSrc == s.finSrc && t.finDst == s.finDst
            && TimelyTo(t.src, t.dst, t.sendingSrc) && TimelyTo(t.dst, t.src, t.sendingDst)
            && BothTogether(t.src, t.dst, t.sendingSrc, t.sendingDst)
  {
    var src, dst := s.ViewOf(Src), s.ViewOf(Dst);
    PlanMsgs(src, dst, targetSrc, targetDst, firstCall);
    var t := AfterDecision(s, firstCall, targetSrc, targetDst);
    if !t.Idle() {
      SettledViews(s);
      DecisionsTogether(src, dst);
      DecisionTimely(src, dst);
      DecisionTimely(dst, src);
      MsgOf(ActionFor(src, dst).value, src, dst, s.finDst);
      MsgOf(ActionFor(dst, src).value, dst, src, s.finSrc);
    }
  }

  lemma CalmDecision(s: Sys, firstCall: bool, targetSrc: UpgradeState, targetDst: UpgradeState)
    requires CalmSys(s) && s.Idle() && s.ViewOf(Src).Valid() && s.ViewOf(Dst).Valid()
    ensures CalmSys(AfterDecision(s, firstCall, targetSrc, targetDst))
    ensures MeasureOf(AfterDecision(s, firstCall, targetSrc, targetDst)) == MeasureOf(s)
  {
    var t := AfterDecision(s, firstCall, targetSrc, targetDst);
    DecideInv(s, firstCall, targetSrc, targetDst);
    DecisionMsgs(s, firstCall, targetSrc, targetDst);
    if t.sendingSrc.Some? && t.sendingDst.Some? {
      TogetherSymmetric(t.sendingSrc.value.msg, t.src.Latest(), t.dst.blocks[t.sendingSrc.value.proofHeight],
                        t.sendingDst.value.msg, t.dst.Latest(), t.src.blocks[t.sendingDst.value.proofHeight]);
    }
  }

  // ------------------------------------------------------------------ runs

  /** No operator interferes and no upgrade timeout elapses. */
  ghost predicate Undisturbed(s: Sys, step: Step)
    requires s.Valid()
  {
    Enabled(s, step) ==>
      match step
      case NewBlock(side, now, event) =>
        CalmEvent(event) && NoTimeout(s.At(side.Other()).Latest(), Tick(s.At(side).Latest(), now))
      case Deliver(side, now, timeout, authority) =>
        var c := AfterDelivery(s.At(side), s.At(side.Other()), s.SendingTo(side).value, now, timeout, authority);
        && timeout.IsSet() && NoTimeout(s.At(side.Other()).Latest(), Tick(s.At(side).Latest(), now))
        && c.Valid() && NoTimeout(c.Latest(), s.At(side.Other()).Latest())
        && NoTimeout(s.At(side.Other()).Latest(), c.Latest())
      case _ => true
  }

  /** The step delivers a message that its chain accepts. */
  predicate Accepts(s: Sys, step: Step)
    requires s.Valid()
  {
    && step.Deliver? && Enabled(s, step)
    && AfterDelivery(s.At(step.side), s.At(step.side.Other()), s.SendingTo(step.side).value,
                     step.now, step.timeout, step.authority) != s.At(step.side)
  }

  lemma CalmSides(s: Sys, side: Side)
    ensures CalmSys(s) <==>
              && s.Valid() && !s.cancelledSrc && !s.cancelledDst
              && CalmSide(s.At(side), s.At(side.Other()), s.SendingTo(side), s.SendingTo(side.Other()))
              && CalmSide(s.At(side.Other()), s.At(side), s.SendingTo(side.Other()), s.SendingTo(side))
  {
  }

  lemma MeasureSides(s: Sys, side: Side)
    requires CalmSys(s)
    ensures MeasureOf(s) == Measure(s.At(side).Latest(), s.At(side.Other()).Latest())
  {
    CalmSymmetric(s.src.conns, s.dst.conns, s.src.Latest(), s.dst.Latest());
  }

  lemma CalmMoved(s: Sys, side: Side, c: Chain)
    requires CalmSys(s) && |s.At(side).blocks| <= |c.blocks|
    requires CalmSide(c, s.At(side.Other()), s.SendingTo(side), s.SendingTo(side.Other()))
    requires CalmSide(s.At(side.Other()), c, s.SendingTo(side.Other()), s.SendingTo(side))
    requires Measure(c.Latest(), s.At(side.Other()).Latest())
               <= Measure(s.At(side).Latest(), s.At(side.Other()).Latest())
    ensures CalmSys(s.WithChain(side, c)) && MeasureOf(s.WithChain(side, c)) <= MeasureOf(s)
  {
    CalmSides(s.WithChain(side, c), side);
    MeasureSides(s, side);
    MeasureSides(s.WithChain(side, c), side);
  }

  lemma CalmBlockShape(s: Sys, side: Side, now: Clock, event: Event)
    requires CalmSys(s) && Enabled(s, NewBlock(side, now, event)) && CalmEvent(event)
    ensures Next(s, NewBlock(side, now, event))
              == s.WithChain(side, AfterBlock(s.At(side), s.At(side.Other()), now, event))
  {
  }

  lemma CalmNewBlockStep(s: Sys, side: Side, now: Clock, event: Event)
    requires CalmSys(s) && Undisturbed(s, NewBlock(side, now, event)) && Enabled(s, NewBlock(side, now, event))
    ensures var t := Next(s, NewBlock(side, now, event)); CalmSys(t) && MeasureOf(t) <= MeasureOf(s)
  {
    CalmSides(s, side);
    var me, cp := s.At(side), s.At(side.Other());
    CalmBlock(me, cp, s.SendingTo(side), s.SendingTo(side.Other()), now, event);
    CalmMoved(s, side, AfterBlock(me, cp, now, event));
    CalmBlockShape(s, side, now, event);
  }

  lemma CalmDeliverStep(s: Sys, side: Side, now: Clock, timeout: Timeout, authority: bool)
    requires CalmSys(s) && Enabled(s, Deliver(side, now, timeout, authority))
    requires Undisturbed(s, Deliver(side, now, timeout, authority))
    ensures var t := Next(s, Deliver(side, now, timeout, authority));
            && CalmSys(t)
            && MeasureOf(t) + (if Accepts(s, Deliver(side, now, timeout, authority)) then 1 else 0) <= MeasureOf(s)
  {
    CalmSides(s, side);
    var me, cp := s.At(side), s.At(side.Other());
    var m, n := s.SendingTo(side).value, s.SendingTo(side.Other());
    CalmDelivery(me, cp, m, n, now, timeout, authority);
    var c := AfterDelivery(me, cp, m, now, timeout, authority);
    CalmDelivered(s, side, c);
  }

  lemma CalmDelivered(s: Sys, side: Side, c: Chain)
    requires CalmSys(s) && s.SendingTo(side).Some?
    requires |s.At(side).blocks| <= |c.blocks|
    requires StillCalm(s.At(side), s.At(side.Other()), s.SendingTo(side).value, s.SendingTo(side.Other()), c)
    ensures var t := s.WithChain(side, c).WithSending(side, None);
            CalmSys(t) && MeasureOf(t) + (if c != s.At(side) then 1 else 0) <= MeasureOf(s)
  {
    var t := s.WithChain(side, c).WithSending(side, None);
    CalmSides(t, side);
    MeasureSides(s, side);
    MeasureSides(t, side);
  }

  lemma CalmSendFails(s: Sys, side: Side)
    requires CalmSys(s)
    ensures CalmSys(s.WithSending(side, None)) && MeasureOf(s.WithSending(side, None)) == MeasureOf(s)
  {
    CalmSides(s, side);
    CalmRefused(s.At(side), s.At(side.Other()), s.SendingTo(side), s.SendingTo(side.Other()));
    CalmSides(s.WithSending(side, None), side);
  }

  lemma CalmNext(s: Sys, step: Step)
    requires CalmSys(s) && Undisturbed(s, step)
    ensures CalmSys(Next(s, step))
    ensures MeasureOf(Next(s, step)) + (if Accepts(s, step) then 1 else 0) <= MeasureOf(s)
  {
    if Enabled(s, step) {
      match step {
        case NewBlock(side, now, event) => CalmNewBlockStep(s, side, now, event);
        case Finalize(side, height) =>
        case Decide(firstCall, targetSrc, targetDst) => CalmDecision(s, firstCall, targetSrc, targetDst);
        case Deliver(side, now, timeout, authority) => CalmDeliverStep(s, side, now, timeout, authority);
        case SendFails(side) => CalmSendFails(s, side);
      }
    }
  }

  ghost predicate UndisturbedRun(s: Sys, steps: seq<Step>)
    requires s.Valid()
    decreases |steps|
  {
    steps == [] || (NextValid(s, steps[0]); Undisturbed(s, steps[0]) && UndisturbedRun(Next(s, steps[0]), steps[1..]))
  }

  function AcceptedIn(s: Sys, steps: seq<Step>): nat
    requires s.Valid()
    decreases |steps|
  {
    if steps == [] then 0
    else
      NextValid(s, steps[0]);
      (if Accepts(s, steps[0]) then 1 else 0) + AcceptedIn(Next(s, steps[0]), steps[1..])
  }

  lemma AtMostSix(s: Sys)
    requires CalmSys(s)
    ensures MeasureOf(s) <= 6
  {
  }

  lemma {:induction false} MeasureShrinks(s: Sys, steps: seq<Step>)
    requires CalmSys(s) && UndisturbedRun(s, steps)
    ensures CalmSys(Run(s, steps)) && AcceptedIn(s, steps) + MeasureOf(Run(s, steps)) <= MeasureOf(s)
    decreases |steps|
  {
    if steps == [] {
    } else {
      CalmNext(s, steps[0]);
      MeasureShrinks(Next(s, steps[0]), steps[1..]);
    }
  }

  /** An undisturbed run accepts at most as many messages as the measure says, and never
      repeats work: what is left after it has shrunk by what was accepted. */
  lemma UpgradeProgresses(s: Sys, steps: seq<Step>)
    requires CalmSys(s) && UndisturbedRun(s, steps)
    ensures CalmSys(Run(s, steps))
    ensures AcceptedIn(s, steps) + MeasureOf(Run(s, steps)) <= MeasureOf(s) <= 6
  {
    MeasureShrinks(s, steps);
    AtMostSix(s);
  }

  /** Every end that still flushes has packets in flight, and nothing else is missing. */
  predicate WaitingForPackets(a: Block, b: Block) {
    && a.Flushing() && b.Flushing() && (a.St() == FLUSHING || b.St() == FLUSHING)
    && (a.St() == FLUSHING ==> a.end.inflight) && (b.St() == FLUSHING ==> b.end.inflight)
  }

  /** A settled relayer stops exactly when nothing is left to do, and is otherwise idle exactly
      while packets are in flight. */
  lemma NeverStuck(s: Sys, firstCall: bool)
    requires CalmSys(s) && s.ViewOf(Src).Settled() && s.ViewOf(Dst).Settled()
    requires s.ViewOf(Src).Valid() && s.ViewOf(Dst).Valid()
    ensures var plan := Plan(s.ViewOf(Src), s.ViewOf(Dst), U_UNINIT, U_UNINIT, firstCall, [], []);
            var a, b := s.src.Latest(), s.dst.Latest();
            && (U(a) == U_UNINIT && U(b) == U_UNINIT ==>
                  plan == if firstCall then Err(UpgradeNotInitialized) else Ok(NO_MSGS.(last := true)))
            && (U(a) != U_UNINIT || U(b) != U_UNINIT ==>
                  && plan.Ok? && !plan.value.last
                  && (plan.value.src == [] && plan.value.dst == [] <==> WaitingForPackets(a, b)))
  {
    var src, dst := s.ViewOf(Src), s.ViewOf(Dst);
    SettledViews(s);
    DecisionsTogether(src, dst);
    DecisionTimely(src, dst);
    DecisionTimely(dst, src);
    MsgOf(ActionFor(src, dst).value, src, dst, 0);
    MsgOf(ActionFor(dst, src).value, dst, src, 0);
    WaitsForPackets(src, dst);
  }

  lemma WaitsForPackets(src: View, dst: View)
    requires SettledCalm(src, dst) && SettledCalm(dst, src)
    ensures ActionFor(src, dst).Ok? && ActionFor(dst, src).Ok?
    ensures U(src.latest) != U_UNINIT || U(dst.latest) != U_UNINIT ==>
              (ActionFor(src, dst).value == NONE && ActionFor(dst, src).value == NONE
               <==> WaitingForPackets(src.latest, dst.latest))
  {
    DecisionTimely(src, dst);
    DecisionTimely(dst, src);
  }
}
