/** Completion: from the start of an upgrade, undisturbed steps lead to two OPEN ends on the proposed
    fields, where the relayer stops. */
module UpgradeCompletion {
  import opened Wrappers
  import opened UpgradeChain
  import opened UpgradeHistory
  import opened UpgradeSafety
  import opened ChannelUpgrade
  import opened UpgradeRun
  import opened UpgradeAgreement
  import opened UpgradeProgress
  import opened UpgradeTermination

  // ------------------------------------------------------------------ the proposal is kept

  /** `me` is upgrading to `fields`, or is on them with no other proposal to follow. */
  predicate OnCourse(me: Block, cp: Block, fields: Fields) {
    || (me.end.upgrade.Some? && me.end.upgrade.value.fields == fields)
    || (me.end.upgrade.None? && me.end.chan.fields == fields && !(cp.St() == OPEN && cp.end.upgrade.Some?))
  }

  lemma EventOnCourse(cm: Connections, cc: Connections, me: Block, now: Clock, event: Event, cp: Chain, fields: Fields)
    requires ChainOk(cp) && Calm(cm, cc, me, cp.Latest()) && me.clock.AtMost(now) && CalmEvent(event)
    requires NoTimeout(cp.Latest(), Tick(me, now)) && OnCourse(me, cp.Latest(), fields)
    ensures OnCourse(Occurs(cm, Tick(me, now), event, cp), cp.Latest(), fields)
  {
  }

  lemma PeerEventOnCourse(cc: Connections, me: Chain, cp: Block, now: Clock, event: Event, fields: Fields)
    requires me.Valid() && cp.clock.AtMost(now) && CalmEvent(event) && OnCourse(me.Latest(), cp, fields)
    ensures OnCourse(me.Latest(), Occurs(cc, Tick(cp, now), event, me), fields)
  {
  }

  lemma MessageOnCourse(cm: Connections, cc: Connections, me: Block, cp: Block, m: Msg, ev: Block,
                        timeout: Timeout, authority: bool, fields: Fields)
    requires Calm(cm, cc, me, cp) && Wf(ev) && Later(ev, cp) && Timely(cm, me, cp, m, ev)
    requires Handle(cm, me, m, ev, timeout, authority).Some? && OnCourse(me, cp, fields)
    ensures OnCourse(Handle(cm, me, m, ev, timeout, authority).value, cp, fields)
  {
  }

  lemma PeerMessageOnCourse(cc: Connections, me: Block, cp: Block, n: Msg, ev: Block,
                            timeout: Timeout, authority: bool, fields: Fields)
    requires Handle(cc, cp, n, ev, timeout, authority).Some? && OnCourse(me, cp, fields)
    ensures OnCourse(me, Handle(cc, cp, n, ev, timeout, authority).value, fields)
  {
  }

  predicate SideOnCourse(s: Sys, side: Side, fields: Fields)
    requires s.Valid()
  {
    OnCourse(s.At(side).Latest(), s.At(side.Other()).Latest(), fields)
  }

  lemma NewBlockOnCourse(s: Sys, at: Side, now: Clock, event: Event, side: Side, fields: Fields)
    requires CalmSys(s) && Undisturbed(s, NewBlock(at, now, event)) && SideOnCourse(s, side, fields)
    ensures SideOnCourse(Next(s, NewBlock(at, now, event)), side, fields)
  {
    var step := NewBlock(at, now, event);
    if Enabled(s, step) {
      CalmSides(s, at);
      var c, cp := s.At(at), s.At(at.Other());
      if at == side {
        EventOnCourse(c.conns, cp.conns, c.Latest(), now, event, cp, fields);
      } else {
        PeerEventOnCourse(c.conns, cp, c.Latest(), now, event, fields);
      }
    }
  }

  lemma DeliveryOnCourse(me: Chain, cp: Chain, m: Sending, n: Option<Sending>, now: Clock, timeout: Timeout,
                         authority: bool, fields: Fields)
    requires CalmSide(me, cp, Some(m), n) && CalmSide(cp, me, n, Some(m))
    requires me.Latest().clock.AtMost(now) && NoTimeout(cp.Latest(), Tick(me.Latest(), now))
    requires OnCourse(me.Latest(), cp.Latest(), fields)
    ensures OnCourse(AfterDelivery(me, cp, m, now, timeout, authority).Latest(), cp.Latest(), fields)
  {
    TickReady(me, cp, m, n, now);
    ReadyOnCourse(me, cp, m, n, Tick(me.Latest(), now), timeout, authority, fields);
    DeliveredLatest(me, cp, m, now, timeout, authority);
  }

  lemma DeliveredLatest(me: Chain, cp: Chain, m: Sending, now: Clock, timeout: Timeout, authority: bool)
    requires me.Valid() && me.Latest().clock.AtMost(now) && m.proofHeight < |cp.blocks|
    ensures var b := Handle(me.conns, Tick(me.Latest(), now), m.msg, cp.blocks[m.proofHeight], timeout, authority);
            var c := AfterDelivery(me, cp, m, now, timeout, authority);
            c.Valid() && c.Latest() == if b.None? then me.Latest() else b.value
  {
  }

  lemma ReadyOnCourse(me: Chain, cp: Chain, m: Sending, n: Option<Sending>, t: Block, timeout: Timeout,
                      authority: bool, fields: Fields)
    requires Ready(me, cp, m, n, t) && OnCourse(t, cp.Latest(), fields)
    ensures var b := Handle(me.conns, t, m.msg, cp.blocks[m.proofHeight], timeout, authority);
            b.Some? ==> OnCourse(b.value, cp.Latest(), fields)
  {
    var ev := cp.blocks[m.proofHeight];
    if Handle(me.conns, t, m.msg, ev, timeout, authority).Some? {
      MessageOnCourse(me.conns, cp.conns, t, cp.Latest(), m.msg, ev, timeout, authority, fields);
    }
  }

  lemma PeerDeliveryOnCourse(me: Chain, cp: Chain, m: Sending, now: Clock, timeout: Timeout, authority: bool,
                             fields: Fields)
    requires me.Valid() && cp.Valid() && m.proofHeight < |cp.blocks| && me.Latest().clock.AtMost(now)
    requires OnCourse(cp.Latest(), me.Latest(), fields)
    ensures OnCourse(cp.Latest(), AfterDelivery(me, cp, m, now, timeout, authority).Latest(), fields)
  {
    var t, ev := Tick(me.Latest(), now), cp.blocks[m.proofHeight];
    if Handle(me.conns, t, m.msg, ev, timeout, authority).Some? {
      PeerMessageOnCourse(me.conns, cp.Latest(), t, m.msg, ev, timeout, authority, fields);
    }
  }

  lemma DeliverOnCourse(s: Sys, at: Side, now: Clock, timeout: Timeout, authority: bool, side: Side, fields: Fields)
    returns (c: Chain)
    requires CalmSys(s) && SideOnCourse(s, side, fields)
    requires s.SendingTo(at).Some? && s.At(at).Latest().clock.AtMost(now)
    requires NoTimeout(s.At(at.Other()).Latest(), Tick(s.At(at).Latest(), now))
    ensures s.SendingTo(at).value.proofHeight < |s.At(at.Other()).blocks|
    ensures c == AfterDelivery(s.At(at), s.At(at.Other()), s.SendingTo(at).value, now, timeout, authority)
    ensures c.Valid() && if at == side then OnCourse(c.Latest(), s.At(at.Other()).Latest(), fields)
                         else OnCourse(s.At(side).Latest(), c.Latest(), fields)
  {
    CalmSides(s, at);
    var cp, m := s.At(at.Other()), s.SendingTo(at).value;
    c := AfterDelivery(s.At(at), cp, m, now, timeout, authority);
    if at == side {
      DeliveryOnCourse(s.At(at), cp, m, s.SendingTo(at.Other()), now, timeout, authority, fields);
    } else {
      PeerDeliveryOnCourse(s.At(at), cp, m, now, timeout, authority, fields);
    }
  }

  lemma StillOnCourse(s: Sys, step: Step, side: Side, fields: Fields)
    requires s.Valid() && SideOnCourse(s, side, fields) && !step.NewBlock?
    requires step.Deliver? ==> !Enabled(s, step)
    ensures Next(s, step).Valid() && SideOnCourse(Next(s, step), side, fields)
  {
    NextValid(s, step);
  }

  /** What a delivery changes. */
  lemma DeliverShape(s: Sys, step: Step)
    requires s.Valid() && step.Deliver? && Enabled(s, step)
    ensures var t, at := Next(s, step), step.side;
            && t.Valid() && t.At(at.Other()) == s.At(at.Other())
            && t.At(at) == AfterDelivery(s.At(at), s.At(at.Other()), s.SendingTo(at).value,
                                         step.now, step.timeout, step.authority)
  {
    NextValid(s, step);
  }

  lemma UndisturbedDelivery(s: Sys, step: Step)
    requires s.Valid() && step.Deliver? && Enabled(s, step) && Undisturbed(s, step)
    ensures s.SendingTo(step.side).Some? && s.At(step.side).Latest().clock.AtMost(step.now)
    ensures NoTimeout(s.At(step.side.Other()).Latest(), Tick(s.At(step.side).Latest(), step.now))
  {
  }

  lemma ChainsOnCourse(s: Sys, t: Sys, at: Side, c: Chain, side: Side, fields: Fields)
    requires s.Valid() && t.Valid() && c.Valid() && t.At(at) == c && t.At(at.Other()) == s.At(at.Other())
    requires if at == side then OnCourse(c.Latest(), s.At(at.Other()).Latest(), fields)
             else OnCourse(s.At(side).Latest(), c.Latest(), fields)
    ensures SideOnCourse(t, side, fields)
  {
  }

  lemma DeliverStepOnCourse(s: Sys, step: Step, side: Side, fields: Fields)
    requires CalmSys(s) && Undisturbed(s, step) && SideOnCourse(s, side, fields) && step.Deliver? && Enabled(s, step)
    ensures Next(s, step).Valid() && SideOnCourse(Next(s, step), side, fields)
  {
    UndisturbedDelivery(s, step);
    var c := DeliverOnCourse(s, step.side, step.now, step.timeout, step.authority, side, fields);
    DeliverShape(s, step);
    ChainsOnCourse(s, Next(s, step), step.side, c, side, fields);
  }

  /** No undisturbed step takes an end off the fields it is upgrading to. */
  lemma StepOnCourse(s: Sys, step: Step, side: Side, fields: Fields)
    requires CalmSys(s) && Undisturbed(s, step) && SideOnCourse(s, side, fields)
    ensures Next(s, step).Valid() && SideOnCourse(Next(s, step), side, fields)
  {
    if step.NewBlock? {
      NextValid(s, step);
      NewBlockOnCourse(s, step.side, step.now, step.event, side, fields);
    } else if step.Deliver? && Enabled(s, step) {
      DeliverStepOnCourse(s, step, side, fields);
    } else {
      StillOnCourse(s, step, side, fields);
    }
  }

  // ------------------------------------------------------------------ undisturbed steps one by one

  /** `x` is an undisturbed run from `s` to `t` that keeps `side` on its course. */
  ghost predicate Follows(s: Sys, x: seq<Step>, t: Sys, side: Side, fields: Fields) {
    && s.Valid() && UndisturbedRun(s, x) && t == Run(s, x) && CalmSys(t) && SideOnCourse(t, side, fields)
  }

  lemma {:induction false} UndisturbedAppend(s: Sys, x: seq<Step>, y: seq<Step>)
    requires s.Valid() && UndisturbedRun(s, x) && UndisturbedRun(Run(s, x), y)
    ensures UndisturbedRun(s, x + y)
    decreases |x|
  {
    if x == [] {
      assert x + y == y;
    } else {
      assert (x + y)[1..] == x[1..] + y && (x + y)[0] == x[0];
      NextValid(s, x[0]);
      UndisturbedAppend(Next(s, x[0]), x[1..], y);
    }
  }

  lemma OneUndisturbed(t: Sys, step: Step)
    requires t.Valid() && Undisturbed(t, step)
    ensures UndisturbedRun(t, [step]) && Next(t, step).Valid() && Run(t, [step]) == Next(t, step)
  {
    NextValid(t, step);
    assert [step][1..] == [];
    assert UndisturbedRun(Next(t, step), []);
  }

  lemma Extend(s: Sys, x: seq<Step>, t: Sys, step: Step, side: Side, fields: Fields) returns (y: seq<Step>, u: Sys)
    requires Follows(s, x, t, side, fields) && Undisturbed(t, step)
    ensures u == Next(t, step) && Follows(s, y, u, side, fields)
    ensures MeasureOf(u) + (if Accepts(t, step) then 1 else 0) <= MeasureOf(t)
  {
    y, u := x + [step], Next(t, step);
    OneUndisturbed(t, step);
    CalmNext(t, step);
    StepOnCourse(t, step, side, fields);
    RunAppend(s, x, [step]);
    UndisturbedAppend(s, x, [step]);
  }

  // ------------------------------------------------------------------ the steps of a round

  function Drain(s: Sys, at: Side): Step
    requires s.Valid()
  {
    NewBlock(at, s.At(at).Latest().clock, PacketsDone(true))
  }

  lemma DrainUndisturbed(s: Sys, at: Side)
    requires CalmSys(s)
    ensures Undisturbed(s, Drain(s, at)) && Enabled(s, Drain(s, at))
  {
    CalmSides(s, at);
  }

  lemma DrainShape(s: Sys, at: Side)
    requires s.Valid()
    ensures var t := Next(s, Drain(s, at));
            && t.Valid() && !t.At(at).Latest().end.inflight && t.At(at.Other()) == s.At(at.Other())
            && (s.Idle() ==> t.Idle())
  {
    NextValid(s, Drain(s, at));
  }

  /** The counterparty's clock has not reached it. */
  function InTime(s: Sys, at: Side): Timeout
    requires s.Valid()
  {
    Timeout(s.At(at.Other()).Latest().clock.height + 1, 0)
  }

  function Arrival(s: Sys, at: Side): Step
    requires s.Valid()
  {
    Deliver(at, s.At(at).Latest().clock, InTime(s, at), false)
  }

  lemma HandledInTime(cm: Connections, cc: Connections, me: Block, cp: Block, m: Msg, ev: Block, timeout: Timeout)
    requires Calm(cm, cc, me, cp) && Timely(cm, me, cp, m, ev) && !timeout.Elapsed(cp.clock)
    requires Handle(cm, me, m, ev, timeout, false).Some?
    ensures var b := Handle(cm, me, m, ev, timeout, false).value; NoTimeout(b, cp) && NoTimeout(cp, b)
  {
  }

  lemma HandledOrKept(cm: Connections, cc: Connections, me: Block, cp: Block, m: Msg, ev: Block, timeout: Timeout)
    requires Calm(cm, cc, me, cp) && Timely(cm, me, cp, m, ev) && !timeout.Elapsed(cp.clock)
    ensures var b := Handle(cm, Tick(me, me.clock), m, ev, timeout, false);
            b.Some? ==> NoTimeout(b.value, cp) && NoTimeout(cp, b.value)
  {
    assert Tick(me, me.clock) == me;
    if Handle(cm, me, m, ev, timeout, false).Some? { HandledInTime(cm, cc, me, cp, m, ev, timeout); }
  }

  lemma DeliveredInTime(me: Chain, cp: Chain, m: Sending, n: Option<Sending>, timeout: Timeout)
    requires CalmSide(me, cp, Some(m), n) && CalmSide(cp, me, n, Some(m)) && !timeout.Elapsed(cp.Latest().clock)
    ensures var c := AfterDelivery(me, cp, m, me.Latest().clock, timeout, false);
            c.Valid() && NoTimeout(c.Latest(), cp.Latest()) && NoTimeout(cp.Latest(), c.Latest())
  {
    HandledOrKept(me.conns, cp.conns, me.Latest(), cp.Latest(), m.msg, cp.blocks[m.proofHeight], timeout);
  }

  lemma ArrivalUndisturbed(s: Sys, at: Side)
    requires CalmSys(s)
    ensures Undisturbed(s, Arrival(s, at))
  {
    if s.SendingTo(at).Some? {
      CalmSides(s, at);
      DeliveredInTime(s.At(at), s.At(at.Other()), s.SendingTo(at).value, s.SendingTo(at.Other()), InTime(s, at));
    }
  }

  /** CONFIRM is only under way to an end that has not completed its flush. */
  predicate ConfirmUseful(s: Sys, at: Side)
    requires s.Valid()
  {
    s.SendingTo(at).Some? && s.SendingTo(at).value.msg.Upgrade? && s.SendingTo(at).value.msg.action == CONFIRM ==>
      s.At(at).Latest().St() == FLUSHING
  }

  lemma DeliveredAccepted(me: Chain, cp: Chain, m: Sending, n: Option<Sending>, timeout: Timeout)
    requires CalmSide(me, cp, Some(m), n) && CalmSide(cp, me, n, Some(m))
    requires timeout.IsSet() && !timeout.Elapsed(cp.Latest().clock)
    requires m.msg.Upgrade? && m.msg.action == CONFIRM ==> me.Latest().St() == FLUSHING
    ensures AfterDelivery(me, cp, m, me.Latest().clock, timeout, false) != me
  {
    DeliveredInTime(me, cp, m, n, timeout);
    CalmDelivery(me, cp, m, n, me.Latest().clock, timeout, false);
  }

  lemma ArrivalEnabled(s: Sys, at: Side)
    requires CalmSys(s) && s.SendingTo(at).Some?
    ensures Enabled(s, Arrival(s, at)) && InTime(s, at).IsSet()
  {
    CalmSides(s, at);
  }

  lemma ChangedAccepted(s: Sys, at: Side)
    requires s.Valid() && Enabled(s, Arrival(s, at))
    requires AfterDelivery(s.At(at), s.At(at.Other()), s.SendingTo(at).value, s.At(at).Latest().clock,
                           InTime(s, at), false) != s.At(at)
    ensures Accepts(s, Arrival(s, at))
  {
  }

  lemma ArrivalAccepted(s: Sys, at: Side)
    requires CalmSys(s) && s.SendingTo(at).Some? && ConfirmUseful(s, at)
    ensures Accepts(s, Arrival(s, at))
  {
    CalmSides(s, at);
    ArrivalEnabled(s, at);
    DeliveredAccepted(s.At(at), s.At(at.Other()), s.SendingTo(at).value, s.SendingTo(at.Other()), InTime(s, at));
    ChangedAccepted(s, at);
  }

  lemma ArrivalShape(s: Sys, at: Side)
    requires CalmSys(s)
    ensures var t := Next(s, Arrival(s, at));
            && t.Valid() && t.SendingTo(at).None? && t.SendingTo(at.Other()) == s.SendingTo(at.Other())
            && t.At(at.Other()) == s.At(at.Other())
  {
    CalmSides(s, at);
    NextValid(s, Arrival(s, at));
  }

  lemma FinalUndisturbed(s: Sys, at: Side)
    requires CalmSys(s)
    ensures var step := Finalize(at, |s.At(at).blocks| - 1);
            && Undisturbed(s, step) && Enabled(s, step)
            && var t := Next(s, step);
               && t.Valid() && t.ViewOf(at).fin == t.ViewOf(at).latest && t.src == s.src && t.dst == s.dst
               && t.FinAt(at.Other()) == s.FinAt(at.Other())
               && t.sendingSrc == s.sendingSrc && t.sendingDst == s.sendingDst
  {
  }

  /** Both ends have nothing in flight and their latest blocks are final. */
  predicate Rested(s: Sys) {
    && s.Valid() && s.Idle()
    && !s.src.Latest().end.inflight && !s.dst.Latest().end.inflight
    && s.ViewOf(Src).fin == s.ViewOf(Src).latest && s.ViewOf(Dst).fin == s.ViewOf(Dst).latest
  }

  predicate Drained(s: Sys)
    requires s.Valid()
  {
    s.Idle() && !s.src.Latest().end.inflight && !s.dst.Latest().end.inflight
  }

  lemma DrainBoth(s: Sys, x: seq<Step>, t: Sys, side: Side, fields: Fields) returns (y: seq<Step>, u: Sys)
    requires Follows(s, x, t, side, fields) && t.Idle()
    ensures Follows(s, y, u, side, fields) && Drained(u) && MeasureOf(u) <= MeasureOf(t)
  {
    DrainUndisturbed(t, Src);
    DrainShape(t, Src);
    y, u := Extend(s, x, t, Drain(t, Src), side, fields);
    DrainUndisturbed(u, Dst);
    DrainShape(u, Dst);
    y, u := Extend(s, y, u, Drain(u, Dst), side, fields);
  }

  lemma FinalExtend(s: Sys, x: seq<Step>, t: Sys, at: Side, side: Side, fields: Fields) returns (y: seq<Step>, u: Sys)
    requires Follows(s, x, t, side, fields) && Drained(t)
    ensures Follows(s, y, u, side, fields) && Drained(u) && MeasureOf(u) <= MeasureOf(t)
    ensures u.ViewOf(at).fin == u.ViewOf(at).latest && u.ViewOf(at.Other()) == t.ViewOf(at.Other())
  {
    FinalUndisturbed(t, at);
    y, u := Extend(s, x, t, Finalize(at, |t.At(at).blocks| - 1), side, fields);
  }

  lemma Rest(s: Sys, x: seq<Step>, t: Sys, side: Side, fields: Fields) returns (y: seq<Step>, u: Sys)
    requires Follows(s, x, t, side, fields) && t.Idle()
    ensures Follows(s, y, u, side, fields) && Rested(u) && MeasureOf(u) <= MeasureOf(t)
  {
    y, u := DrainBoth(s, x, t, side, fields);
    y, u := FinalExtend(s, y, u, Src, side, fields);
    y, u := FinalExtend(s, y, u, Dst, side, fields);
  }

  // ------------------------------------------------------------------ decisions

  lemma RestedViews(s: Sys)
    requires CalmSys(s) && Rested(s)
    ensures s.ViewOf(Src).Valid() && s.ViewOf(Dst).Valid() && s.ViewOf(Src).Settled() && s.ViewOf(Dst).Settled()
    ensures !WaitingForPackets(s.src.Latest(), s.dst.Latest())
  {
  }

  const DECISION := Decide(false, U_UNINIT, U_UNINIT)

  lemma ConfirmsFlushing(src: View, dst: View)
    requires src.Valid() && dst.Valid() && ActionFor(src, dst) == Ok(CONFIRM)
    ensures src.fin.St() == FLUSHING
  {
  }

  /** A rested pair that is not back yet is sent something, and only useful CONFIRMs. */
  lemma DecisionSends(s: Sys)
    requires CalmSys(s) && Rested(s) && MeasureOf(s) > 0
    ensures s.ViewOf(Src).Valid() && s.ViewOf(Dst).Valid()
    ensures var t := AfterDecision(s, false, U_UNINIT, U_UNINIT);
            && t.src == s.src && t.dst == s.dst && !t.Idle() && ConfirmUseful(t, Src) && ConfirmUseful(t, Dst)
  {
    RestedViews(s);
    NeverStuck(s, false);
    var src, dst := s.ViewOf(Src), s.ViewOf(Dst);
    PlanMsgs(src, dst, U_UNINIT, U_UNINIT, false);
    LastMsg(ActionFor(src, dst).value, src, dst, s.finDst);
    LastMsg(ActionFor(dst, src).value, dst, src, s.finSrc);
    if ActionFor(src, dst).value == CONFIRM { ConfirmsFlushing(src, dst); }
    if ActionFor(dst, src).value == CONFIRM { ConfirmsFlushing(dst, src); }
  }

  lemma DecisionUndisturbed(s: Sys)
    requires CalmSys(s) && Rested(s) && MeasureOf(s) > 0
    ensures Undisturbed(s, DECISION)
    ensures var t := Next(s, DECISION);
            t.Valid() && !t.Idle() && ConfirmUseful(t, Src) && ConfirmUseful(t, Dst)
  {
    DecisionSends(s);
    NextValid(s, DECISION);
  }

  // ------------------------------------------------------------------ completion

  lemma Deliveries(s: Sys, x: seq<Step>, t: Sys, side: Side, fields: Fields) returns (y: seq<Step>, u: Sys)
    requires Follows(s, x, t, side, fields) && !t.Idle() && ConfirmUseful(t, Src) && ConfirmUseful(t, Dst)
    ensures Follows(s, y, u, side, fields) && u.Idle() && MeasureOf(u) < MeasureOf(t)
  {
    if t.sendingSrc.Some? { ArrivalAccepted(t, Src); }
    ArrivalUndisturbed(t, Src);
    ArrivalShape(t, Src);
    var y1, t1 := Extend(s, x, t, Arrival(t, Src), side, fields);
    if t1.sendingDst.Some? { ArrivalAccepted(t1, Dst); }
    ArrivalUndisturbed(t1, Dst);
    ArrivalShape(t1, Dst);
    y, u := Extend(s, y1, t1, Arrival(t1, Dst), side, fields);
  }

  /** What the run ends in: both ends OPEN without an upgrade, `side` on `fields`, the other end on
      matching fields, and the relayer stops. */
  ghost predicate Completed(t: Sys, side: Side, fields: Fields) {
    && t.Valid() && t.ViewOf(Src).Valid() && t.ViewOf(Dst).Valid()
    && t.src.Latest().St() == OPEN && t.src.Latest().end.upgrade.None?
    && t.dst.Latest().St() == OPEN && t.dst.Latest().end.upgrade.None?
    && t.At(side).Latest().end.chan.fields == fields
    && Mirrors(t.src.conns, t.src.Latest().end.chan.fields, t.dst.Latest().end.chan.fields)
    && Plan(t.ViewOf(Src), t.ViewOf(Dst), U_UNINIT, U_UNINIT, false, [], []) == Ok(NO_MSGS.(last := true))
  }

  lemma BothBack(a: Block, b: Block)
    requires Wf(a) && Wf(b) && Measure(a, b) == 0
    ensures U(a) == U_UNINIT && U(b) == U_UNINIT
    ensures a.St() == OPEN && a.end.upgrade.None? && b.St() == OPEN && b.end.upgrade.None?
  {
  }

  lemma RestedCompleted(t: Sys, side: Side, fields: Fields)
    requires CalmSys(t) && Rested(t) && MeasureOf(t) == 0 && SideOnCourse(t, side, fields)
    ensures Completed(t, side, fields)
  {
    RestedViews(t);
    BothBack(t.src.Latest(), t.dst.Latest());
    NeverStuck(t, false);
    InvAgreement(t.src.conns, t.dst.conns, t.src.Latest(), t.dst.Latest());
  }

  lemma {:induction false} Completes(s: Sys, x: seq<Step>, t: Sys, side: Side, fields: Fields)
    returns (y: seq<Step>, u: Sys)
    requires Follows(s, x, t, side, fields) && t.Idle()
    ensures Follows(s, y, u, side, fields) && Completed(u, side, fields)
    decreases MeasureOf(t)
  {
    y, u := Rest(s, x, t, side, fields);
    if MeasureOf(u) == 0 {
      RestedCompleted(u, side, fields);
    } else {
      DecisionUndisturbed(u);
      y, u := Extend(s, y, u, DECISION, side, fields);
      y, u := Deliveries(s, y, u, side, fields);
      y, u := Completes(s, y, u, side, fields);
    }
  }

  /** Completion.  From every calm system with nothing under way, whose `side` is upgrading to
      `fields`, some undisturbed steps complete the upgrade to them on both sides, and the relayer
      stops there. */
  lemma UpgradeCompletes(s: Sys, side: Side, fields: Fields) returns (steps: seq<Step>)
    requires CalmSys(s) && s.Idle() && s.At(side).Latest().end.upgrade.Some?
    requires s.At(side).Latest().end.upgrade.value.fields == fields
    ensures UndisturbedRun(s, steps) && Completed(Run(s, steps), side, fields)
  {
    var t: Sys;
    assert UndisturbedRun(s, []) && Run(s, []) == s;
    steps, t := Completes(s, [], s, side, fields);
  }

  // ------------------------------------------------------------------ starts

  lemma InitCalmSrc(s: Sys, now: Clock, fields: Fields)
    requires Initial(s) && s.dst.Latest().Seq() <= s.src.Latest().Seq()
    requires s.src.Latest().clock.AtMost(now) && fields.hop in s.src.conns
    ensures var t := Next(s, NewBlock(Src, now, OperatorInit(fields)));
            && CalmSys(t) && t.Idle() && MeasureOf(t) == 6
            && t.src.Latest().end.upgrade == Some(UpgradeChain.Upgrade(fields, NO_TIMEOUT))
  {
    InitialInv(s);
    NextInv(s, NewBlock(Src, now, OperatorInit(fields)));
  }

  lemma InitCalmDst(s: Sys, now: Clock, fields: Fields)
    requires Initial(s) && s.src.Latest().Seq() <= s.dst.Latest().Seq()
    requires s.dst.Latest().clock.AtMost(now) && fields.hop in s.dst.conns
    ensures var t := Next(s, NewBlock(Dst, now, OperatorInit(fields)));
            && CalmSys(t) && t.Idle() && MeasureOf(t) == 6
            && t.dst.Latest().end.upgrade == Some(UpgradeChain.Upgrade(fields, NO_TIMEOUT))
  {
    InitialInv(s);
    NextInv(s, NewBlock(Dst, now, OperatorInit(fields)));
  }

  /** An upgrade that an operator starts on either end, if its sequence is not the lower one, begins
      an undisturbed run, at most six messages away from an end in which both ends have adopted it. */
  lemma InitStartsUpgrade(s: Sys, side: Side, now: Clock, fields: Fields) returns (steps: seq<Step>)
    requires Initial(s) && s.At(side.Other()).Latest().Seq() <= s.At(side).Latest().Seq()
    requires s.At(side).Latest().clock.AtMost(now) && fields.hop in s.At(side).conns
    ensures var t := Next(s, NewBlock(side, now, OperatorInit(fields)));
            && CalmSys(t) && MeasureOf(t) == 6
            && UndisturbedRun(t, steps) && Completed(Run(t, steps), side, fields)
  {
    if side == Src { InitCalmSrc(s, now, fields); } else { InitCalmDst(s, now, fields); }
    steps := UpgradeCompletes(Next(s, NewBlock(side, now, OperatorInit(fields))), side, fields);
  }

  /** One end of a fresh system proposes. */
  lemma Proposes(s: Sys, now: Clock, f: Fields) returns (t: Sys)
    requires Initial(s) && s.src.Latest().clock.AtMost(now) && f.hop in s.src.conns
    ensures t == Next(s, NewBlock(Src, now, OperatorInit(f))) && SysInv(t)
    ensures t.dst == s.dst && t.src.conns == s.src.conns && t.Idle() && !t.cancelledSrc && !t.cancelledDst
    ensures var b := t.src.Latest();
            && b.St() == OPEN && b.end.upgrade == Some(UpgradeChain.Upgrade(f, NO_TIMEOUT)) && b.log.flush == map[]
  {
    InitialInv(s);
    t := Next(s, NewBlock(Src, now, OperatorInit(f)));
    NextInv(s, NewBlock(Src, now, OperatorInit(f)));
  }

  lemma CrossingCalm(s: Sys, now: Clock, later: Clock, f: Fields, g: Fields)
    requires Initial(s) && s.src.Latest().clock.AtMost(now) && s.dst.Latest().clock.AtMost(later)
    requires Mirrors(s.src.conns, f, g)
    ensures var t := Next(Next(s, NewBlock(Src, now, OperatorInit(f))), NewBlock(Dst, later, OperatorInit(g)));
            && CalmSys(t) && t.Idle() && MeasureOf(t) == 6
            && t.src.Latest().end.upgrade == Some(UpgradeChain.Upgrade(f, NO_TIMEOUT))
            && t.dst.Latest().end.upgrade == Some(UpgradeChain.Upgrade(g, NO_TIMEOUT))
  {
    var u := Proposes(s, now, f);
    Answers(s, u, later, f, g);
  }

  /** The other end proposes the mirror. */
  lemma Answers(s: Sys, u: Sys, later: Clock, f: Fields, g: Fields)
    requires SysInv(u) && u.Idle() && !u.cancelledSrc && !u.cancelledDst && u.dst == s.dst && Initial(s)
    requires u.src.conns == s.src.conns && u.src.Latest().St() == OPEN && u.src.Latest().log.flush == map[]
    requires u.src.Latest().end.upgrade == Some(UpgradeChain.Upgrade(f, NO_TIMEOUT))
    requires u.dst.Latest().clock.AtMost(later) && Mirrors(u.src.conns, f, g)
    ensures var t := Next(u, NewBlock(Dst, later, OperatorInit(g)));
            && CalmSys(t) && t.Idle() && MeasureOf(t) == 6
            && t.src.Latest().end.upgrade == Some(UpgradeChain.Upgrade(f, NO_TIMEOUT))
            && t.dst.Latest().end.upgrade == Some(UpgradeChain.Upgrade(g, NO_TIMEOUT))
  {
    NextInv(u, NewBlock(Dst, later, OperatorInit(g)));
  }

  /** So do crossing starts with mirrored proposals, whatever the two sequences are. */
  lemma CrossingInitsComplete(s: Sys, now: Clock, later: Clock, f: Fields, g: Fields) returns (steps: seq<Step>)
    requires Initial(s) && s.src.Latest().clock.AtMost(now) && s.dst.Latest().clock.AtMost(later)
    requires Mirrors(s.src.conns, f, g)
    ensures var t := Next(Next(s, NewBlock(Src, now, OperatorInit(f))), NewBlock(Dst, later, OperatorInit(g)));
            && CalmSys(t) && MeasureOf(t) == 6
            && UndisturbedRun(t, steps) && Completed(Run(t, steps), Src, f)
  {
    CrossingCalm(s, now, later, f, g);
    steps := UpgradeCompletes(Next(Next(s, NewBlock(Src, now, OperatorInit(f))), NewBlock(Dst, later, OperatorInit(g))),
                              Src, f);
  }
}
