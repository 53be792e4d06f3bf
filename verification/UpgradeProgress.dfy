/** Progress: while no timeout elapses and the proposals match, every accepted message brings
    the two ends closer to the end of the handshake, and the relayer only ever waits for
    finality or for packets in flight. */
module UpgradeProgress {
  import opened Wrappers
  import opened UpgradeChain
  import opened UpgradeHistory
  import opened UpgradeSafety
  import opened ChannelUpgrade
  import opened UpgradeRun
  import opened UpgradeAgreement

  function U(b: Block): UpgradeState
    requires Wf(b)
  {
    StateOf(b).value
  }

  /** The pairs of states an undisturbed handshake goes through. */
  ghost predicate Shape(ca: Connections, a: Block, b: Block)
    requires Wf(a) && Wf(b)
  {
    match (U(a), U(b))
    case (U_UNINIT, U_UNINIT) => true
    case (U_INIT, U_UNINIT) => b.Seq() < a.Seq()
    case (U_UNINIT, U_INIT) => a.Seq() < b.Seq()
    case (U_INIT, U_INIT) => Mirrors(ca, a.end.upgrade.value.fields, b.end.upgrade.value.fields)
    case (U_INIT, U_FLUSHING) =>
      a.Seq() == b.Seq() && Mirrors(ca, a.end.upgrade.value.fields, b.end.upgrade.value.fields)
    case (U_FLUSHING, U_INIT) =>
      a.Seq() == b.Seq() && Mirrors(ca, a.end.upgrade.value.fields, b.end.upgrade.value.fields)
    case (U_INIT, U_FLUSHCOMPLETE) => false
    case (U_FLUSHCOMPLETE, U_INIT) => false
    case (U_UNINIT, U_FLUSHING) => false
    case (U_FLUSHING, U_UNINIT) => false
    case (U_UNINIT, U_FLUSHCOMPLETE) => b.Seq() in a.log.adopted
    case (U_FLUSHCOMPLETE, U_UNINIT) => a.Seq() in b.log.adopted
    case _ => a.Seq() == b.Seq()
  }

  /** How many messages the handshake still needs at most. */
  function Measure(a: Block, b: Block): nat
    requires Wf(a) && Wf(b)
  {
    match (U(a), U(b))
    case (U_UNINIT, U_UNINIT) => 0
    case (U_UNINIT, U_FLUSHCOMPLETE) => 1
    case (U_FLUSHCOMPLETE, U_UNINIT) => 1
    case (U_FLUSHCOMPLETE, U_FLUSHCOMPLETE) => 2
    case (U_FLUSHING, U_FLUSHCOMPLETE) => 3
    case (U_FLUSHCOMPLETE, U_FLUSHING) => 3
    case (U_FLUSHING, U_FLUSHING) => 4
    case (U_INIT, U_FLUSHING) => 5
    case (U_FLUSHING, U_INIT) => 5
    case _ => 6
  }

  /** The timeout of `a`'s current upgrade has not elapsed at `b`. */
  ghost predicate NoTimeout(a: Block, b: Block) {
    a.Seq() in a.log.flush ==> !a.log.flush[a.Seq()].timeout.Elapsed(b.clock)
  }

  ghost predicate HopsKnown(c: Connections, b: Block) {
    b.end.upgrade.Some? ==> b.end.upgrade.value.fields.hop in c
  }

  ghost predicate Calm(ca: Connections, cb: Connections, a: Block, b: Block) {
    && Inv(ca, cb, a, b) && Shape(ca, a, b) && NoTimeout(a, b) && NoTimeout(b, a)
    && HopsKnown(ca, a) && HopsKnown(cb, b)
  }

  lemma CalmSymmetric(ca: Connections, cb: Connections, a: Block, b: Block)
    requires Calm(ca, cb, a, b)
    ensures Calm(cb, ca, b, a) && Measure(a, b) == Measure(b, a)
  {
    InvSymmetric(ca, cb, a, b);
    if a.end.upgrade.Some? && b.end.upgrade.Some? {
      MirrorsSymmetric(ca, cb, a.end.upgrade.value.fields, b.end.upgrade.value.fields);
    }
  }

  // ------------------------------------------------------------------ messages under way

  /** What is known of an undelivered message: enough for the handler to accept it. */
  ghost predicate Timely(cm: Connections, me: Block, cp: Block, m: Msg, ev: Block) {
    && m.Upgrade?
    && match m.action
       case TRY =>
         && me.St() == OPEN && ev.St() == OPEN && ev.end.upgrade.Some?
         && Mirrors(cm, me.end.chan.fields, ev.end.chan.fields)
         && (if me.end.upgrade.Some?
             then me.Seq() <= ev.Seq() && Mirrors(cm, me.end.upgrade.value.fields, ev.end.upgrade.value.fields)
             else me.Seq() < ev.Seq() && m.hop in cm && cm[m.hop] == ev.end.upgrade.value.fields.hop)
         && ((cp.St() == OPEN && SameView(ev, cp)) || (cp.Flushing() && cp.Seq() == ev.Seq()))
       case ACK =>
         && me.St() == OPEN && me.end.upgrade.Some? && ev.St() == FLUSHING && ev.end.upgrade.Some?
         && me.Seq() == ev.Seq() && Mirrors(cm, me.end.chan.fields, ev.end.chan.fields)
         && Mirrors(cm, me.end.upgrade.value.fields, ev.end.upgrade.value.fields)
         && cp.Flushing() && cp.Seq() == ev.Seq()
       case CONFIRM =>
         && me.Flushing() && !me.end.inflight && ev.Flushing() && ev.end.upgrade.Some?
         && me.Seq() == ev.Seq() && Mirrors(cm, me.end.chan.fields, ev.end.chan.fields)
         && cp.Flushing() && cp.Seq() == ev.Seq() && (ev.St() == FLUSHCOMPLETE ==> cp.St() == FLUSHCOMPLETE)
       case OPENUP =>
         && me.St() == FLUSHCOMPLETE && me.end.upgrade.Some?
         && ((ev.St() == FLUSHCOMPLETE && ev.Seq() == me.Seq() && Mirrors(cm, me.end.chan.fields, ev.end.chan.fields))
             || (ev.St() == OPEN && me.Seq() <= ev.Seq()
                 && Mirrors(cm, me.end.upgrade.value.fields, ev.end.chan.fields)))
         && ((cp.St() == FLUSHCOMPLETE && cp.Seq() == me.Seq())
             || (cp.St() == OPEN && cp.end.upgrade.None? && me.Seq() in cp.log.adopted))
       case _ => false
  }

  /** `b` is `me` after a message that brings the handshake nearer to its end. */
  ghost predicate Nearer(cm: Connections, cc: Connections, me: Block, cp: Block, b: Block) {
    && Inv(cm, cc, me, cp) && Inv(cm, cc, b, cp) && Later(me, b)
    && Shape(cm, b, cp) && HopsKnown(cm, b) && Measure(b, cp) < Measure(me, cp)
  }

  ghost predicate Progressed(cm: Connections, cc: Connections, me: Block, cp: Block, m: Msg, b: Option<Block>) {
    && (b.None? ==> m.Upgrade? && m.action == CONFIRM && me.St() == FLUSHCOMPLETE)
    && (b.Some? ==> Nearer(cm, cc, me, cp, b.value))
  }

  /** An accepted TRY starts to flush the proved sequence, on fields that mirror the proposal. */
  lemma TryOutcome(cm: Connections, cc: Connections, me: Block, cp: Block, m: Msg, ev: Block, timeout: Timeout)
    returns (b: Block)
    requires Inv(cm, cc, me, cp) && Timely(cm, me, cp, m, ev) && m.action == TRY && timeout.IsSet()
    ensures HandleTry(cm, me, ev, m.hop, timeout) == Some(b)
    ensures b.St() == FLUSHING && b.Seq() == ev.Seq() && b.end.upgrade.Some? && b.log.adopted == me.log.adopted
    ensures Mirrors(cm, b.end.upgrade.value.fields, ev.end.upgrade.value.fields)
  {
    b := HandleTry(cm, me, ev, m.hop, timeout).value;
  }

  lemma TryNearer(cm: Connections, cc: Connections, me: Block, cp: Block, b: Block, ev: Block)
    requires Wf(me) && Wf(b) && Wf(cp) && Shape(cm, me, cp) && me.St() == OPEN
    requires b.St() == FLUSHING && b.Seq() == ev.Seq() && b.end.upgrade.Some? && ev.end.upgrade.Some?
    requires Mirrors(cm, b.end.upgrade.value.fields, ev.end.upgrade.value.fields)
    requires (cp.St() == OPEN && SameView(ev, cp)) || (cp.Flushing() && cp.Seq() == ev.Seq())
    requires me.end.upgrade.None? ==> cp.St() == OPEN || cp.Seq() !in me.log.adopted
    ensures Shape(cm, b, cp) && HopsKnown(cm, b) && Measure(b, cp) < Measure(me, cp)
  {
  }

  lemma TryProgress(cm: Connections, cc: Connections, me: Block, cp: Block, m: Msg, ev: Block,
                    timeout: Timeout, authority: bool)
    requires Calm(cm, cc, me, cp) && Wf(ev) && Later(ev, cp) && Timely(cm, me, cp, m, ev) && Fresh(m, me, ev)
    requires m.action == TRY && timeout.IsSet()
    ensures Progressed(cm, cc, me, cp, m, Handle(cm, me, m, ev, timeout, authority))
  {
    var b := TryOutcome(cm, cc, me, cp, m, ev, timeout);
    InvTry(cm, cc, me, cp, ev, m.hop, timeout);
    TryNearer(cm, cc, me, cp, b, ev);
  }

  /** The timeout that the proof shows is the one the counterparty started with, and not elapsed. */
  lemma ProvedTimeout(me: Block, cp: Block, ev: Block)
    requires Wf(ev) && Wf(cp) && Later(ev, cp) && ev.Flushing() && cp.Seq() == ev.Seq() && NoTimeout(cp, me)
    ensures ev.end.upgrade.Some? && !ev.end.upgrade.value.timeout.Elapsed(me.clock)
  {
  }

  /** An accepted ACK leaves the end flushing its own proposal. */
  lemma AckOutcome(cm: Connections, me: Block, ev: Block, timeout: Timeout) returns (b: Block)
    requires me.St() == OPEN && me.end.upgrade.Some? && ev.St() == FLUSHING && ev.end.upgrade.Some?
    requires me.Seq() == ev.Seq() && Mirrors(cm, me.end.chan.fields, ev.end.chan.fields) && timeout.IsSet()
    requires Mirrors(cm, me.end.upgrade.value.fields, ev.end.upgrade.value.fields)
    requires !ev.end.upgrade.value.timeout.Elapsed(me.clock)
    ensures HandleAck(cm, me, ev, timeout) == Some(b)
    ensures b.Flushing() && b.Seq() == me.Seq() && b.end.upgrade.Some?
    ensures b.end.upgrade.value.fields == me.end.upgrade.value.fields
  {
    b := HandleAck(cm, me, ev, timeout).value;
  }

  lemma AckNearer(cm: Connections, me: Block, cp: Block, b: Block)
    requires Wf(me) && Wf(b) && Wf(cp) && me.St() == OPEN && me.end.upgrade.Some? && cp.Flushing()
    requires Shape(cm, me, cp) && b.Flushing() && b.Seq() == me.Seq() && cp.Seq() == me.Seq()
    ensures Shape(cm, b, cp) && Measure(b, cp) < Measure(me, cp)
  {
  }

  lemma AckProgress(cm: Connections, cc: Connections, me: Block, cp: Block, m: Msg, ev: Block,
                    timeout: Timeout, authority: bool)
    requires Calm(cm, cc, me, cp) && Wf(ev) && Later(ev, cp) && Timely(cm, me, cp, m, ev) && Fresh(m, me, ev)
    requires m.action == ACK && timeout.IsSet()
    ensures Progressed(cm, cc, me, cp, m, Handle(cm, me, m, ev, timeout, authority))
  {
    ProvedTimeout(me, cp, ev);
    var b := AckOutcome(cm, me, ev, timeout);
    InvAck(cm, cc, me, cp, ev, timeout);
    AckNearer(cm, me, cp, b);
  }

  lemma ConfirmProgress(cm: Connections, cc: Connections, me: Block, cp: Block, m: Msg, ev: Block,
                       timeout: Timeout, authority: bool)
    requires Calm(cm, cc, me, cp) && Wf(ev) && Later(ev, cp) && Timely(cm, me, cp, m, ev) && Fresh(m, me, ev)
    requires m.action == CONFIRM
    ensures Progressed(cm, cc, me, cp, m, Handle(cm, me, m, ev, timeout, authority))
  {
    if me.St() == FLUSHCOMPLETE { return; }
    var t := ev.end.upgrade.value.timeout;
    assert !t.Elapsed(me.clock);
    var done := FlushComplete(WithEnd(me, me.end.(cpTimeout := Some(t))));
    assert HandleConfirm(cm, me, ev) == Some(if ev.St() == FLUSHCOMPLETE then Adopt(done) else done);
    InvConfirm(cm, cc, me, cp, ev);
    ConfirmNearer(cm, me, cp, done);
  }

  lemma ConfirmNearer(cm: Connections, me: Block, cp: Block, done: Block)
    requires Wf(me) && Wf(cp) && me.St() == FLUSHING && cp.Flushing() && cp.Seq() == me.Seq()
    requires done.St() == FLUSHCOMPLETE && done.end.upgrade == me.end.upgrade && done.Seq() == me.Seq()
    ensures Wf(done) ==> Shape(cm, done, cp) && Measure(done, cp) < Measure(me, cp)
    ensures Wf(Adopt(done)) && cp.St() == FLUSHCOMPLETE ==>
              Shape(cm, Adopt(done), cp) && Measure(Adopt(done), cp) < Measure(me, cp)
  {
  }

  lemma OpenProgress(cm: Connections, cc: Connections, me: Block, cp: Block, m: Msg, ev: Block,
                       timeout: Timeout, authority: bool)
    requires Calm(cm, cc, me, cp) && Wf(ev) && Later(ev, cp) && Timely(cm, me, cp, m, ev) && Fresh(m, me, ev)
    requires m.action == OPENUP
    ensures Progressed(cm, cc, me, cp, m, Handle(cm, me, m, ev, timeout, authority))
  {
    OpenNearer(cm, cc, me, cp, m, ev);
  }

  lemma OpenNearer(cm: Connections, cc: Connections, me: Block, cp: Block, m: Msg, ev: Block)
    requires Calm(cm, cc, me, cp) && Wf(ev) && Later(ev, cp) && Timely(cm, me, cp, m, ev) && Fresh(m, me, ev)
    requires m.action == OPENUP
    ensures HandleOpen(cm, me, ev) == Some(Adopt(me)) && Nearer(cm, cc, me, cp, Adopt(me))
  {
    InvOpen(cm, cc, me, cp, ev);
    AdoptNearer(cm, me, cp);
  }

  lemma AdoptNearer(cm: Connections, me: Block, cp: Block)
    requires Wf(me) && Wf(cp) && me.St() == FLUSHCOMPLETE && Wf(Adopt(me)) && me.St() == FLUSHCOMPLETE
    requires (cp.St() == FLUSHCOMPLETE && cp.Seq() == me.Seq()) || (cp.St() == OPEN && cp.end.upgrade.None?)
    ensures Shape(cm, Adopt(me), cp) && Measure(Adopt(me), cp) < Measure(me, cp)
  {
  }

  /** Every message under way is accepted and brings the handshake nearer to its end; only a
      CONFIRM may be refused, when packets have made it unnecessary. */
  lemma AcceptedMakesProgress(cm: Connections, cc: Connections, me: Block, cp: Block, m: Msg, ev: Block,
                              timeout: Timeout, authority: bool)
    requires Calm(cm, cc, me, cp) && Wf(ev) && Later(ev, cp) && Timely(cm, me, cp, m, ev) && Fresh(m, me, ev)
    requires timeout.IsSet()
    ensures Progressed(cm, cc, me, cp, m, Handle(cm, me, m, ev, timeout, authority))
  {
    match m.action {
      case TRY => TryProgress(cm, cc, me, cp, m, ev, timeout, authority);
      case ACK => AckProgress(cm, cc, me, cp, m, ev, timeout, authority);
      case CONFIRM => ConfirmProgress(cm, cc, me, cp, m, ev, timeout, authority);
      case OPENUP => OpenProgress(cm, cc, me, cp, m, ev, timeout, authority);
    }
  }

  // ------------------------------------------------------------------ what else may happen

  predicate CalmEvent(event: Event) { !event.OperatorInit? && !event.OperatorCancel? }

  lemma EventKeepsCalm(cm: Connections, cc: Connections, me: Block, now: Clock, event: Event, cp: Chain)
    requires ChainOk(cp) && Calm(cm, cc, me, cp.Latest()) && me.clock.AtMost(now) && CalmEvent(event)
    requires NoTimeout(cp.Latest(), Tick(me, now))
    ensures var b := Occurs(cm, Tick(me, now), event, cp);
            && Calm(cm, cc, b, cp.Latest()) && Measure(b, cp.Latest()) <= Measure(me, cp.Latest())
  {
    if event.PacketsDone? {
      PacketsKeepCalm(cm, cc, me, now, event.last, cp);
    } else {
      OccursInv(cm, cc, me, now, event, cp);
    }
  }

  /** Settling packets changes at most FLUSHING to FLUSHCOMPLETE. */
  lemma PacketsOutcome(cm: Connections, cc: Connections, me: Block, cp: Block, last: bool)
    requires Inv(cm, cc, me, cp) && Shape(cm, me, cp) && NoTimeout(cp, me)
    ensures var b := HandlePackets(me, last);
            && (b.St() == me.St() || (me.St() == FLUSHING && b.St() == FLUSHCOMPLETE))
            && b.Seq() == me.Seq() && b.end.upgrade == me.end.upgrade && b.log.flush == me.log.flush
            && b.log.adopted == me.log.adopted && b.clock == me.clock
  {
  }

  lemma ShapeKept(cm: Connections, me: Block, b: Block, cp: Block)
    requires Wf(me) && Wf(b) && Wf(cp) && Shape(cm, me, cp)
    requires b.St() == me.St() || (me.St() == FLUSHING && b.St() == FLUSHCOMPLETE)
    requires b.Seq() == me.Seq() && b.end.upgrade == me.end.upgrade && b.log.adopted == me.log.adopted
    requires me.St() == FLUSHING ==> cp.St() != OPEN || b.St() == FLUSHING
    ensures Shape(cm, b, cp) && Measure(b, cp) <= Measure(me, cp)
  {
  }

  /** An end that completes its flush by itself was not alone in flushing. */
  lemma CompletesTogether(cm: Connections, cc: Connections, me: Block, cp: Block, last: bool)
    requires Inv(cm, cc, me, cp) && Shape(cm, me, cp) && me.St() == FLUSHING
    ensures HandlePackets(me, last).St() == FLUSHCOMPLETE ==> cp.St() != OPEN
  {
  }

  lemma PacketsKeepCalm(cm: Connections, cc: Connections, me: Block, now: Clock, last: bool, cp: Chain)
    requires ChainOk(cp) && Calm(cm, cc, me, cp.Latest()) && me.clock.AtMost(now)
    requires NoTimeout(cp.Latest(), Tick(me, now))
    ensures var b := Occurs(cm, Tick(me, now), PacketsDone(last), cp);
            && Calm(cm, cc, b, cp.Latest()) && Measure(b, cp.Latest()) <= Measure(me, cp.Latest())
  {
    var t, o := Tick(me, now), cp.Latest();
    OccursInv(cm, cc, me, now, PacketsDone(last), cp);
    InvTick(cm, cc, me, o, now);
    PacketsOutcome(cm, cc, t, o, last);
    if me.St() == FLUSHING { CompletesTogether(cm, cc, t, o, last); }
    ShapeKept(cm, t, HandlePackets(t, last), o);
  }

  lemma EventKeepsTimely(cm: Connections, cc: Connections, me: Block, now: Clock, event: Event, cp: Chain, m: Msg,
                         ev: Block)
    requires ChainOk(cp) && Calm(cm, cc, me, cp.Latest()) && me.clock.AtMost(now) && CalmEvent(event)
    requires NoTimeout(cp.Latest(), Tick(me, now))
    requires Timely(cm, me, cp.Latest(), m, ev)
    ensures Timely(cm, Occurs(cm, Tick(me, now), event, cp), cp.Latest(), m, ev)
  {
  }

  lemma PeerEventKeepsTimely(cm: Connections, cc: Connections, me: Chain, cp: Block, now: Clock, event: Event, m: Msg,
                             ev: Block)
    requires ChainOk(me) && Calm(cm, cc, me.Latest(), cp) && cp.clock.AtMost(now) && CalmEvent(event)
    requires NoTimeout(me.Latest(), Tick(cp, now))
    requires Timely(cm, me.Latest(), cp, m, ev)
    ensures Timely(cm, me.Latest(), Occurs(cc, Tick(cp, now), event, me), m, ev)
  {
  }

  /** Two messages under way at once come from one decision: `m` to `a`, `n` to `b`. */
  ghost predicate Together(m: Msg, a: Block, evM: Block, n: Msg, b: Block, evN: Block) {
    && m.Upgrade? && n.Upgrade? && m.action == n.action
    && (m.action == TRY ==> a.Seq() == b.Seq() && evM.Seq() == b.Seq() && evN.Seq() == a.Seq())
    && (m.action == CONFIRM ==> evM.St() == FLUSHING && evN.St() == FLUSHING)
    && m.action in {TRY, CONFIRM, OPENUP}
  }

  lemma PeerMessageKeepsTimely(ca: Connections, cb: Connections, a: Block, b: Block, m: Msg, n: Msg, evM: Block,
                               evN: Block, timeout: Timeout, authority: bool)
    requires Calm(ca, cb, a, b) && Timely(ca, a, b, m, evM) && Timely(cb, b, a, n, evN)
    requires Together(m, a, evM, n, b, evN) && Wf(evM) && Later(evM, b)
    requires Handle(ca, a, m, evM, timeout, authority).Some?
    ensures Timely(cb, b, Handle(ca, a, m, evM, timeout, authority).value, n, evN)
  {
  }

  // ------------------------------------------------------------------ decisions

  /** Two settled views of a calm pair: unchanged since the finalized heights. */
  ghost predicate SettledCalm(me: View, cp: View) {
    && me.Valid() && cp.Valid()
    && SameView(me.fin, me.latest) && SameView(cp.fin, cp.latest)
    && me.fin.log == me.latest.log && cp.fin.log == cp.latest.log
    && me.fin.clock.AtMost(me.latest.clock) && cp.fin.clock.AtMost(cp.latest.clock)
    && Calm(me.conns, cp.conns, me.latest, cp.latest)
  }

  /** The decision for `me` is not an error, and its message is one that `me` accepts. */
  ghost predicate DecidesTimely(me: View, cp: View)
    requires me.Valid() && cp.Valid()
  {
    && ActionFor(me, cp).Ok?
    && var action := ActionFor(me, cp).value;
       action != NONE ==>
         && (action == TRY ==> cp.fin.end.upgrade.Some?)
         && BuildActionMsg(action, me, cp).Ok?
         && Timely(me.conns, me.latest, cp.latest, BuildActionMsg(action, me, cp).value, cp.fin)
  }

  lemma OpenDecides(me: View, cp: View)
    requires SettledCalm(me, cp) && me.latest.St() == OPEN
    ensures DecidesTimely(me, cp)
  {
    MirrorsSymmetric(me.conns, cp.conns, me.latest.end.chan.fields, cp.latest.end.chan.fields);
  }

  lemma FlushingDecidesAgainstOpen(me: View, cp: View)
    requires SettledCalm(me, cp) && me.latest.St() != OPEN && cp.latest.St() == OPEN
    ensures DecidesTimely(me, cp)
  {
  }

  lemma FlushingDecidesAgainstFlushing(me: View, cp: View)
    requires SettledCalm(me, cp) && me.latest.St() != OPEN && cp.latest.St() == FLUSHING
    ensures DecidesTimely(me, cp)
  {
  }

  lemma FlushingDecidesAgainstComplete(me: View, cp: View)
    requires SettledCalm(me, cp) && me.latest.St() != OPEN && cp.latest.St() == FLUSHCOMPLETE
    ensures DecidesTimely(me, cp)
  {
  }

  /** In a calm state every settled decision is TRY, ACK, CONFIRM, OPEN or waiting. */
  lemma DecisionTimely(me: View, cp: View)
    requires SettledCalm(me, cp)
    ensures DecidesTimely(me, cp)
  {
    if me.latest.St() == OPEN {
      OpenDecides(me, cp);
    } else if cp.latest.St() == OPEN {
      FlushingDecidesAgainstOpen(me, cp);
    } else if cp.latest.St() == FLUSHING {
      FlushingDecidesAgainstFlushing(me, cp);
    } else {
      FlushingDecidesAgainstComplete(me, cp);
    }
  }
}
