/** What a step of the upgrade sends, stated on the two ends themselves, and how an upgrade that one
    end has aborted is taken back on the other. */
module UpgradeRecovery {
  import opened Wrappers
  import opened UpgradeChain
  import opened UpgradeHistory
  import opened ChannelUpgrade
  import opened UpgradeRun
  import RelayLoop

  /** The action of the message that follows the client updates. */
  function Sent(msgs: seq<Msg>): Action {
    if msgs == [] || !msgs[|msgs| - 1].Upgrade? then NONE else msgs[|msgs| - 1].action
  }

  /** A height bound or a time bound that is set and reached. */
  lemma ElapsedExactly(t: Timeout, now: Clock)
    ensures t.Elapsed(now) <==>
              || (t.height > 0 && now.height >= t.height)
              || (t.timestamp > 0 && now.time >= t.timestamp)
  {
  }

  /** Two ends on fields that mirror each other: the same ordering and version, and connections
      that are the two ends of one. */
  lemma MirrorsExactly(conns: Connections, mine: Fields, theirs: Fields)
    ensures Mirrors(conns, mine, theirs) <==>
              && mine.ordering == theirs.ordering && mine.version == theirs.version
              && mine.hop in conns && theirs.hop == conns[mine.hop]
  {
  }

  /** Both ends are settled, and both without an upgrade, which the first step does not accept, or
      both in the states asked for. */
  ghost predicate StoppedAt(src: View, dst: View, targetSrc: UpgradeState, targetDst: UpgradeState, first: bool) {
    var a, b := src.fin, dst.fin;
    && a.end.chan == src.latest.end.chan && a.end.upgrade == src.latest.end.upgrade
    && b.end.chan == dst.latest.end.chan && b.end.upgrade == dst.latest.end.upgrade
    && (|| (!first && a.end.upgrade.None? && b.end.upgrade.None?)
        || (a.end.upgrade.Some? && b.end.upgrade.Some? && StateOf(a) == Ok(targetSrc) && StateOf(b) == Ok(targetDst)))
  }

  /** The guards of the step alone, whatever it would send. */
  lemma GuardsStopExactly(src: View, dst: View, targetSrc: UpgradeState, targetDst: UpgradeState, firstCall: bool,
                          actions: Result<RelayMsgs, Failure>)
    requires actions.Ok? ==> !actions.value.last
    requires StateOf(src.fin).Ok? && StateOf(dst.fin).Ok?
    requires src.fin.Flushing() ==> src.fin.end.upgrade.Some?
    requires dst.fin.Flushing() ==> dst.fin.end.upgrade.Some?
    ensures var p := Guarded(src, dst, targetSrc, targetDst, firstCall, actions);
            p.Ok? && p.value.last <==> StoppedAt(src, dst, targetSrc, targetDst, firstCall)
    ensures !src.Settled() || !dst.Settled() ==>
              Guarded(src, dst, targetSrc, targetDst, firstCall, actions) == Ok(NO_MSGS)
  {
  }

  lemma ActionsAreNotLast(src: View, dst: View, srcHeaders: seq<nat>, dstHeaders: seq<nat>)
    requires src.Valid() && dst.Valid()
    ensures var p := PlanActions(src, dst, srcHeaders, dstHeaders); p.Ok? ==> !p.value.last
  {
  }

  /** The step stops exactly when both ends are settled and either, after the first call, both are
      OPEN without an upgrade, or both have one and are in the states asked for. */
  lemma StepStopsExactly(src: View, dst: View, targetSrc: UpgradeState, targetDst: UpgradeState, firstCall: bool,
                         srcHeaders: seq<nat>, dstHeaders: seq<nat>)
    requires src.Valid() && dst.Valid() && Wf(src.fin) && Wf(dst.fin)
    ensures var p := Plan(src, dst, targetSrc, targetDst, firstCall, srcHeaders, dstHeaders);
            var a, b := src.fin, dst.fin;
            p.Ok? && p.value.last <==>
              && a.end.chan == src.latest.end.chan && a.end.upgrade == src.latest.end.upgrade
              && b.end.chan == dst.latest.end.chan && b.end.upgrade == dst.latest.end.upgrade
              && (|| (!firstCall && a.end.upgrade.None? && b.end.upgrade.None?)
                  || (a.end.upgrade.Some? && b.end.upgrade.Some?
                      && targetSrc == (match a.St() case FLUSHING => U_FLUSHING case FLUSHCOMPLETE => U_FLUSHCOMPLETE
                                                    case _ => U_INIT)
                      && targetDst == (match b.St() case FLUSHING => U_FLUSHING case FLUSHCOMPLETE => U_FLUSHCOMPLETE
                                                    case _ => U_INIT)))
  {
    ActionsAreNotLast(src, dst, srcHeaders, dstHeaders);
    GuardsStopExactly(src, dst, targetSrc, targetDst, firstCall, PlanActions(src, dst, srcHeaders, dstHeaders));
  }

  /** What `me` is to be sent, by action, from the states, sequences, fields, timeouts and packets of
      the two ends. */
  lemma ActionExactly(me: View, cp: View)
    requires me.Valid() && cp.Valid() && Wf(me.fin) && Wf(cp.fin)
    requires me.fin.St() == FLUSHCOMPLETE && cp.fin.St() == OPEN ==> me.Upg().fields.hop in me.conns
    ensures ActionFor(me, cp).Ok?
    ensures var action, a, b := ActionFor(me, cp).value, me.fin, cp.fin;
            && (action == TRY <==>
                  && a.St() == OPEN && b.St() == OPEN && b.end.upgrade.Some?
                  && (if a.end.upgrade.Some? then a.Seq() <= b.Seq() else a.Seq() < b.Seq()))
            && (action == ACK <==>
                  a.St() == OPEN && a.end.upgrade.Some? && b.St() == FLUSHING && a.Seq() == b.Seq())
            && (action == CONFIRM <==>
                  && a.St() == FLUSHING && (b.St() == FLUSHING || b.St() == FLUSHCOMPLETE) && !me.latest.end.inflight
                  && !cp.Upg().timeout.Elapsed(a.clock)
                  && (b.St() == FLUSHING ==> !me.Upg().timeout.Elapsed(b.clock)))
            && (action == OPENUP <==>
                  && a.St() == FLUSHCOMPLETE
                  && (b.St() == FLUSHCOMPLETE
                      || (b.St() == OPEN && Mirrors(me.conns, me.Upg().fields, b.end.chan.fields))))
            && (action == TIMEOUT <==>
                  && (a.St() == FLUSHING || a.St() == FLUSHCOMPLETE) && me.Upg().timeout.Elapsed(b.clock)
                  && (b.St() == FLUSHING
                      || (a.St() == FLUSHCOMPLETE && b.St() == OPEN
                          && !Mirrors(me.conns, me.Upg().fields, b.end.chan.fields))))
            && (action == CANCEL <==>
                  || (a.St() == OPEN && a.end.upgrade.Some? && b.St() == OPEN && b.end.upgrade.None?
                      && a.Seq() <= b.Seq())
                  || (a.St() == FLUSHING && b.St() == OPEN && (b.end.upgrade.None? || a.Seq() != b.Seq())))
            && (action == CANCEL_FLUSHCOMPLETE <==>
                  && a.St() == FLUSHCOMPLETE && b.St() == OPEN && !me.Upg().timeout.Elapsed(b.clock)
                  && !Mirrors(me.conns, me.Upg().fields, b.end.chan.fields))
  {
  }

  /** The step sends each end exactly the message of its action. */
  lemma StepSends(src: View, dst: View, targetSrc: UpgradeState, targetDst: UpgradeState, firstCall: bool,
                  srcHeaders: seq<nat>, dstHeaders: seq<nat>)
    requires src.Valid() && dst.Valid() && src.Settled() && dst.Settled()
    requires var p := Plan(src, dst, targetSrc, targetDst, firstCall, srcHeaders, dstHeaders); p.Ok? && !p.value.last
    ensures var p := Plan(src, dst, targetSrc, targetDst, firstCall, srcHeaders, dstHeaders).value;
            ActionFor(src, dst) == Ok(Sent(p.src)) && ActionFor(dst, src) == Ok(Sent(p.dst))
  {
    TryHasUpgradeIf(src, dst);
    TryHasUpgradeIf(dst, src);
    SentIs(ActionFor(src, dst).value, src, dst, dstHeaders);
    SentIs(ActionFor(dst, src).value, dst, src, srcHeaders);
  }

  lemma SentIs(action: Action, me: View, cp: View, headers: seq<nat>)
    requires action == TRY ==> cp.fin.end.upgrade.Some?
    requires MsgsFor(action, me, cp, headers).Ok?
    ensures Sent(MsgsFor(action, me, cp, headers).value) == action
  {
  }

  /** The exact table of a step over two well-formed ends, for the messages to the source; by
      `PlanMirrored` the same holds for the destination. */
  lemma StepExactly(src: View, dst: View, targetSrc: UpgradeState, targetDst: UpgradeState, firstCall: bool,
                    srcHeaders: seq<nat>, dstHeaders: seq<nat>)
    requires src.Valid() && dst.Valid() && src.Settled() && dst.Settled() && Wf(src.fin) && Wf(dst.fin)
    requires var p := Plan(src, dst, targetSrc, targetDst, firstCall, srcHeaders, dstHeaders); p.Ok? && !p.value.last
    ensures var sent := Sent(Plan(src, dst, targetSrc, targetDst, firstCall, srcHeaders, dstHeaders).value.src);
            var a, b := src.fin, dst.fin;
            && (sent == TRY <==>
                  && a.St() == OPEN && b.St() == OPEN && b.end.upgrade.Some?
                  && (if a.end.upgrade.Some? then a.Seq() <= b.Seq() else a.Seq() < b.Seq()))
            && (sent == ACK <==>
                  a.St() == OPEN && a.end.upgrade.Some? && b.St() == FLUSHING && a.Seq() == b.Seq())
            && (sent == CONFIRM <==>
                  && a.St() == FLUSHING && (b.St() == FLUSHING || b.St() == FLUSHCOMPLETE) && !src.latest.end.inflight
                  && !dst.Upg().timeout.Elapsed(a.clock)
                  && (b.St() == FLUSHING ==> !src.Upg().timeout.Elapsed(b.clock)))
            && (sent == OPENUP <==>
                  && a.St() == FLUSHCOMPLETE
                  && (b.St() == FLUSHCOMPLETE
                      || (b.St() == OPEN && Mirrors(src.conns, src.Upg().fields, b.end.chan.fields))))
            && (sent == TIMEOUT <==>
                  && (a.St() == FLUSHING || a.St() == FLUSHCOMPLETE) && src.Upg().timeout.Elapsed(b.clock)
                  && (b.St() == FLUSHING
                      || (a.St() == FLUSHCOMPLETE && b.St() == OPEN
                          && !Mirrors(src.conns, src.Upg().fields, b.end.chan.fields))))
            && (sent == CANCEL <==>
                  || (a.St() == OPEN && a.end.upgrade.Some? && b.St() == OPEN && b.end.upgrade.None?
                      && a.Seq() <= b.Seq())
                  || (a.St() == FLUSHING && b.St() == OPEN && (b.end.upgrade.None? || a.Seq() != b.Seq())))
            && (sent == CANCEL_FLUSHCOMPLETE <==>
                  && a.St() == FLUSHCOMPLETE && b.St() == OPEN && !src.Upg().timeout.Elapsed(b.clock)
                  && !Mirrors(src.conns, src.Upg().fields, b.end.chan.fields))
  {
    StepSends(src, dst, targetSrc, targetDst, firstCall, srcHeaders, dstHeaders);
    ActionExactly(src, dst);
  }

  /** What the message to the source carries: TRY the connection that the proposal names, seen from the
      source, the cancels the destination's error receipt, if it has one, and the others nothing. */
  lemma StepCarries(src: View, dst: View, targetSrc: UpgradeState, targetDst: UpgradeState, firstCall: bool,
                    srcHeaders: seq<nat>, dstHeaders: seq<nat>)
    requires src.Valid() && dst.Valid() && src.Settled() && dst.Settled()
    requires var p := Plan(src, dst, targetSrc, targetDst, firstCall, srcHeaders, dstHeaders);
             p.Ok? && !p.value.last && p.value.src != []
    ensures var msgs := Plan(src, dst, targetSrc, targetDst, firstCall, srcHeaders, dstHeaders).value.src;
            var m := msgs[|msgs| - 1];
            && m.Upgrade?
            && (m.action == TRY ==>
                  && dst.fin.end.upgrade.Some? && dst.Upg().fields.hop in dst.conns
                  && m.hop == dst.conns[dst.Upg().fields.hop])
            && m.receipt ==
                 (if m.action == CANCEL || m.action == CANCEL_FLUSHCOMPLETE then dst.fin.end.receipt else None)
  {
    TryHasUpgradeIf(src, dst);
    TryHasUpgradeIf(dst, src);
    MessageCarries(ActionFor(src, dst).value, src, dst, dstHeaders);
  }

  lemma MessageCarries(action: Action, me: View, cp: View, headers: seq<nat>)
    requires action == TRY ==> cp.fin.end.upgrade.Some?
    requires MsgsFor(action, me, cp, headers).Ok? && action != NONE
    ensures var msgs := MsgsFor(action, me, cp, headers).value;
            && msgs != []
            && var m := msgs[|msgs| - 1];
               && m.Upgrade? && m.action == action
               && (action == TRY ==> cp.Upg().fields.hop in cp.conns && m.hop == cp.conns[cp.Upg().fields.hop])
               && m.receipt == (if action == CANCEL || action == CANCEL_FLUSHCOMPLETE then cp.fin.end.receipt else None)
  {
  }

  /** What `me` needs cannot be built: the connection of a proposal is not known, or an end in
      FLUSHCOMPLETE is to be cancelled without a receipt of its own sequence. */
  ghost predicate CannotBuild(me: View, cp: View)
    requires me.Valid() && cp.Valid() && Wf(me.fin) && Wf(cp.fin)
  {
    var a, b := me.fin, cp.fin;
    || (a.St() == FLUSHCOMPLETE && b.St() == OPEN && me.Upg().fields.hop !in me.conns)
    || (a.St() == OPEN && b.St() == OPEN && b.end.upgrade.Some? && cp.Upg().fields.hop !in cp.conns
        && (if a.end.upgrade.Some? then a.Seq() <= b.Seq() else a.Seq() < b.Seq()))
    || (a.St() == FLUSHCOMPLETE && b.St() == OPEN && !Mirrors(me.conns, me.Upg().fields, b.end.chan.fields)
        && !me.Upg().timeout.Elapsed(b.clock) && b.end.receipt != Some(a.Seq()))
  }

  lemma BuildFailsExactly(me: View, cp: View, headers: seq<nat>)
    requires me.Valid() && cp.Valid() && Wf(me.fin) && Wf(cp.fin)
    ensures ActionFor(me, cp) == Ok(TRY) ==> cp.fin.end.upgrade.Some?
    ensures CannotBuild(me, cp) <==>
              ActionFor(me, cp).Err? || MsgsFor(ActionFor(me, cp).value, me, cp, headers).Err?
  {
  }

  /** A settled step fails exactly when there is nothing to do on the first call, or when it does not
      stop and one of the two ends needs something that cannot be built. */
  lemma StepFailsExactly(src: View, dst: View, targetSrc: UpgradeState, targetDst: UpgradeState, firstCall: bool,
                         srcHeaders: seq<nat>, dstHeaders: seq<nat>)
    requires src.Valid() && dst.Valid() && src.Settled() && dst.Settled() && Wf(src.fin) && Wf(dst.fin)
    ensures var p := Plan(src, dst, targetSrc, targetDst, firstCall, srcHeaders, dstHeaders);
            var none := src.fin.end.upgrade.None? && dst.fin.end.upgrade.None?;
            p.Err? <==>
              || (firstCall && none)
              || (!StoppedAt(src, dst, targetSrc, targetDst, firstCall)
                  && (CannotBuild(src, dst) || CannotBuild(dst, src)))
  {
    BuildFailsExactly(src, dst, dstHeaders);
    BuildFailsExactly(dst, src, srcHeaders);
  }

  // ------------------------------------------------------------------ taking an upgrade back

  /** `me` has an upgrade that `cp` has aborted with the receipt it proves, and `cp` is not flushing
      another one.  An end that has completed its flush can only be taken back by the receipt of its
      own sequence, before its timeout, and if the other end is not on the new fields anyway. */
  ghost predicate TakenBack(me: View, cp: View) {
    && me.Valid() && cp.Valid() && me.Settled() && cp.Settled() && Wf(me.fin) && Wf(cp.fin)
    && me.latest.end.upgrade.Some? && cp.latest.St() == OPEN
    && cp.fin.end.receipt.Some? && me.latest.Seq() <= cp.fin.end.receipt.value
    && (me.latest.St() == OPEN ==> cp.latest.end.upgrade.None?)
    && (me.latest.St() == FLUSHCOMPLETE ==>
          && me.Upg().fields.hop in me.conns && cp.fin.end.receipt.value == me.latest.Seq()
          && !me.Upg().timeout.Elapsed(cp.fin.clock)
          && !Mirrors(me.conns, me.Upg().fields, cp.latest.end.chan.fields))
  }

  /** `b` is `me` without its upgrade. */
  predicate BackOpen(me: Block, b: Option<Block>) {
    && b.Some? && b.value.St() == OPEN && b.value.end.upgrade.None?
    && b.value.end.chan.fields == me.end.chan.fields && b.value.end.receipt == Some(b.value.Seq())
  }

  lemma CancelAccepted(me: View, cp: View, m: Msg, now: Clock, timeout: Timeout, authority: bool)
    requires TakenBack(me, cp) && me.latest.clock.AtMost(now)
    requires m.Upgrade? && (m.action == CANCEL || m.action == CANCEL_FLUSHCOMPLETE)
    requires m.receipt == cp.fin.end.receipt
    ensures BackOpen(me.latest, Handle(me.conns, Tick(me.latest, now), m, cp.fin, timeout, authority))
  {
  }

  /** The other end needs nothing that could fail. */
  lemma OtherSideReady(me: View, cp: View)
    requires TakenBack(me, cp)
    ensures ActionFor(cp, me) == Ok(NONE)
  {
  }

  lemma CancelMessage(me: View, cp: View, headers: seq<nat>)
    requires TakenBack(me, cp)
    ensures var action := if me.latest.St() == FLUSHCOMPLETE then CANCEL_FLUSHCOMPLETE else CANCEL;
            && ActionFor(me, cp) == Ok(action)
            && MsgsFor(action, me, cp, headers).Ok?
            && var msgs := MsgsFor(action, me, cp, headers).value;
               |msgs| > 0 && msgs[|msgs| - 1] == Msg.Upgrade(action, "", cp.fin.end.receipt)
  {
  }

  /** Recovery.  Whatever it is asked for, a step over a settled pair in which `src` has an upgrade
      that `dst` has aborted sends `src` a cancel with the receipt, unless it stops at the states
      asked for; the chain accepts that cancel at any later moment, from any sender, and the end is
      back on OPEN with its old fields.  By `PlanMirrored` the same holds with the ends swapped. */
  lemma AbortedIsTakenBack(src: View, dst: View, targetSrc: UpgradeState, targetDst: UpgradeState, firstCall: bool,
                           srcHeaders: seq<nat>, dstHeaders: seq<nat>, now: Clock, timeout: Timeout, authority: bool)
    requires TakenBack(src, dst) && src.latest.clock.AtMost(now)
    ensures var p := Plan(src, dst, targetSrc, targetDst, firstCall, srcHeaders, dstHeaders);
            && p.Ok?
            && (!p.value.last ==>
                  && |p.value.src| > 0
                  && var m := p.value.src[|p.value.src| - 1];
                     && m.Upgrade? && (m.action == CANCEL || m.action == CANCEL_FLUSHCOMPLETE)
                     && m.receipt == dst.fin.end.receipt
                     && BackOpen(src.latest, Handle(src.conns, Tick(src.latest, now), m, dst.fin, timeout, authority)))
            && (dst.latest.end.upgrade.None? ==> !p.value.last)
  {
    OtherSideReady(src, dst);
    CancelMessage(src, dst, dstHeaders);
    var action := if src.latest.St() == FLUSHCOMPLETE then CANCEL_FLUSHCOMPLETE else CANCEL;
    CancelAccepted(src, dst, Msg.Upgrade(action, "", dst.fin.end.receipt), now, timeout, authority);
    assert MsgsFor(NONE, dst, src, srcHeaders) == Ok([]);
  }

  /** An end in FLUSHCOMPLETE that is to be cancelled: the step fails exactly when the other end
      proves no receipt for its sequence. */
  lemma CompleteNeedsReceipt(src: View, dst: View, targetSrc: UpgradeState, targetDst: UpgradeState, firstCall: bool,
                             srcHeaders: seq<nat>, dstHeaders: seq<nat>)
    requires src.Valid() && dst.Valid() && src.Settled() && dst.Settled() && Wf(src.fin) && Wf(dst.fin)
    requires src.fin.St() == FLUSHCOMPLETE && dst.fin.St() == OPEN && dst.fin.end.upgrade.None?
    requires src.Upg().fields.hop in src.conns && !src.Upg().timeout.Elapsed(dst.fin.clock)
    requires !Mirrors(src.conns, src.Upg().fields, dst.fin.end.chan.fields)
    ensures Plan(src, dst, targetSrc, targetDst, firstCall, srcHeaders, dstHeaders).Err? <==>
              dst.fin.end.receipt != Some(src.fin.Seq())
  {
  }

  // ------------------------------------------------------------------ the loop's verdict

  /** An end as every chain has it. */
  predicate Formed(b: Block) { b.St() == OPEN || (b.Flushing() && b.end.upgrade.Some?) }

  lemma StepOutcomeMeans(plan: Result<RelayMsgs, Failure>, sendOk: bool, syncOk: bool)
    ensures var x := RelayLoop.StepOutcome(plan, sendOk, syncOk);
            && (x.Complete? <==> plan.Ok? && plan.value.last)
            && (plan == Ok(NO_MSGS) ==> x.Wait?)
            && (x.Send? ==> x.success == sendOk && x.syncOk == syncOk && !x.last)
  {
  }

  /** What a round of the upgrade's loop comes to: it is complete exactly when the step stops there, it
      waits while an end is unsettled, and if it sends, the result of the send decides. */
  lemma OutcomeMeans(r: RelayLoop.UpgradeRound, targetSrc: UpgradeState, targetDst: UpgradeState, first: bool)
    requires r.Valid() && Formed(r.src.fin) && Formed(r.dst.fin)
    ensures var x := RelayLoop.UpgradeOutcome(r, targetSrc, targetDst, first);
            && (x.Complete? <==> StoppedAt(r.src, r.dst, targetSrc, targetDst, first))
            && (!r.src.Settled() || !r.dst.Settled() ==> x.Wait?)
            && (x.Send? ==> x.success == r.sendOk && x.syncOk == r.syncOk && !x.last)
  {
    ActionsAreNotLast(r.src, r.dst, r.srcHeaders, r.dstHeaders);
    var actions := PlanActions(r.src, r.dst, r.srcHeaders, r.dstHeaders);
    GuardsStopExactly(r.src, r.dst, targetSrc, targetDst, first, actions);
    StepOutcomeMeans(Guarded(r.src, r.dst, targetSrc, targetDst, first, actions), r.sendOk, r.syncOk);
  }

  /** What the verdict of a loop says of its last round. */
  lemma VerdictMeans(o: seq<RelayLoop.Outcome>, v: RelayLoop.Verdict)
    requires RelayLoop.Ends(o, v)
    ensures o != []
    ensures var x := o[|o| - 1];
            && (v == RelayLoop.Done <==> x.Complete? || (x.Send? && x.success && x.syncOk && x.last))
            && (v == RelayLoop.TooManyFailures <==> x.Send? && !x.success)
            && (v == RelayLoop.SyncFailed <==> x.Send? && x.success && !x.syncOk)
            && (v == RelayLoop.StepFailed <==> x.Error?)
  {
  }
}
