/** The joint invariant of the two ends and its preservation by every on-chain move. */
module UpgradeSafety {
  import opened Wrappers
  import opened UpgradeChain
  import opened UpgradeHistory

  /** Connection ids of the two chains name each other. */
  ghost predicate Inverse(ca: Connections, cb: Connections) {
    && (forall c | c in ca :: ca[c] in cb && cb[ca[c]] == c)
    && (forall c | c in cb :: cb[c] in ca && ca[cb[c]] == c)
  }

  lemma MirrorsSymmetric(ca: Connections, cb: Connections, x: Fields, y: Fields)
    requires Inverse(ca, cb)
    ensures Mirrors(ca, x, y) <==> Mirrors(cb, y, x)
  {
  }

  /** What the history of `a` says about `b`. */
  ghost predicate Half(a: Block, b: Block) {
    // `a` completes flushing only after `b` started, and before `b`'s timeout
    && (forall n | n in a.log.done ::
          n in b.log.flush && !b.log.flush[n].timeout.Elapsed(a.log.done[n]))
    && (a.end.cpTimeout.Some? ==>
          a.Seq() in b.log.flush && a.end.cpTimeout.value == b.log.flush[a.Seq()].timeout)
    // once both completed flushing an upgrade, neither aborts it
    && (forall n | n in a.log.done && n in b.log.done :: !Aborted(a, n))
    // when `a` adopted an upgrade, `b` can only be waiting to adopt it
    && (forall n | n in a.log.adopted ::
          n <= b.Seq() && (b.Seq() == n && b.end.upgrade.Some? ==> b.St() == FLUSHCOMPLETE))
    // when `a` gave up after completing its flush, `b` is too late to complete its own
    && (forall n | n in a.log.done && n in a.log.flush && Aborted(a, n) ::
          b.Seq() == n && b.St() == FLUSHING ==> a.log.flush[n].timeout.Elapsed(b.clock))
  }

  /** `a` still waits in FLUSHCOMPLETE for an upgrade that `b` has adopted. */
  predicate Behind(a: Block, b: Block) {
    a.St() == FLUSHCOMPLETE && a.Seq() in b.log.adopted
  }

  ghost predicate FieldsAgree(ca: Connections, cb: Connections, a: Block, b: Block) {
    && (Behind(a, b) ==> b.St() == OPEN && a.end.upgrade.Some?
                         && Mirrors(ca, a.end.upgrade.value.fields, b.end.chan.fields))
    && (Behind(b, a) ==> a.St() == OPEN && b.end.upgrade.Some?
                         && Mirrors(cb, b.end.upgrade.value.fields, a.end.chan.fields))
    && (!Behind(a, b) && !Behind(b, a) ==> Mirrors(ca, a.end.chan.fields, b.end.chan.fields))
  }

  ghost predicate Inv(ca: Connections, cb: Connections, a: Block, b: Block) {
    && Inverse(ca, cb)
    && Wf(a) && Wf(b) && Half(a, b) && Half(b, a)
    && (forall n | n in a.log.flush && n in b.log.flush ::
          Mirrors(ca, a.log.flush[n].fields, b.log.flush[n].fields))
    && FieldsAgree(ca, cb, a, b)
  }

  lemma InvSymmetric(ca: Connections, cb: Connections, a: Block, b: Block)
    requires Inv(ca, cb, a, b)
    ensures Inv(cb, ca, b, a)
  {
    forall n | n in a.log.flush && n in b.log.flush
      ensures Mirrors(cb, b.log.flush[n].fields, a.log.flush[n].fields)
    {
      MirrorsSymmetric(ca, cb, a.log.flush[n].fields, b.log.flush[n].fields);
    }
    MirrorsSymmetric(ca, cb, a.end.chan.fields, b.end.chan.fields);
  }

  /** Agreement: two ends that are both OPEN have matching fields. */
  lemma InvAgreement(ca: Connections, cb: Connections, a: Block, b: Block)
    requires Inv(ca, cb, a, b) && a.St() == OPEN && b.St() == OPEN
    ensures Mirrors(ca, a.end.chan.fields, b.end.chan.fields)
  {
  }

  // ------------------------------------------------------------------ moves of one end

  lemma InvTick(cm: Connections, cc: Connections, me: Block, cp: Block, now: Clock)
    requires Inv(cm, cc, me, cp) && me.clock.AtMost(now)
    ensures Inv(cm, cc, Tick(me, now), cp) && Later(me, Tick(me, now))
  {
  }

  /** Aborting is safe unless the counterparty has completed, or may still complete. */
  ghost predicate MayAbort(me: Block, cp: Block) {
    me.St() == FLUSHCOMPLETE && me.end.upgrade.Some? ==>
      && me.Seq() !in cp.log.done
      && (cp.Seq() == me.Seq() && cp.St() == FLUSHING ==> me.end.upgrade.value.timeout.Elapsed(cp.clock))
  }

  lemma InvRestore(cm: Connections, cc: Connections, me: Block, cp: Block, sequence: nat)
    requires Inv(cm, cc, me, cp) && me.end.upgrade.Some? && me.Seq() <= sequence && MayAbort(me, cp)
    ensures var c := Restore(WithEnd(me, me.end.(chan := me.end.chan.(sequence := sequence))));
            Inv(cm, cc, c, cp) && Later(me, c)
  {
    LaterRestore(me, sequence);
  }

  lemma InvStartFlush(cm: Connections, cc: Connections, me: Block, cp: Block,
                      sequence: nat, fields: Fields, timeout: Timeout)
    requires Inv(cm, cc, me, cp) && me.St() == OPEN
    requires me.Seq() < sequence
             || (me.Seq() == sequence && me.end.upgrade.Some? && fields == me.end.upgrade.value.fields)
    requires sequence in cp.log.flush ==> Mirrors(cm, fields, cp.log.flush[sequence].fields)
    requires sequence !in cp.log.adopted && !Behind(cp, me)
    ensures var c := StartFlush(me, sequence, fields, timeout); Inv(cm, cc, c, cp) && Later(me, c)
  {
    LaterStartFlush(me, sequence, fields, timeout);
  }

  lemma InvFlushComplete(cm: Connections, cc: Connections, me: Block, cp: Block)
    requires Inv(cm, cc, me, cp) && me.St() == FLUSHING && me.Seq() in cp.log.flush
    requires !cp.log.flush[me.Seq()].timeout.Elapsed(me.clock)
    ensures var t := cp.log.flush[me.Seq()].timeout;
            var c := FlushComplete(WithEnd(me, me.end.(cpTimeout := Some(t))));
            Inv(cm, cc, c, cp) && Later(me, c)
  {
    LaterFlushComplete(me, cp.log.flush[me.Seq()].timeout);
  }

  /** The counterparty's timeout is the one it recorded when it started to flush. */
  lemma InvCheckFlushed(cm: Connections, cc: Connections, me: Block, cp: Block, timeout: Timeout)
    requires Inv(cm, cc, me, cp) && me.St() == FLUSHING
    requires me.Seq() in cp.log.flush && cp.log.flush[me.Seq()].timeout == timeout
    ensures var c := CheckFlushed(me, timeout); Inv(cm, cc, c, cp) && Later(me, c)
  {
    if timeout.Elapsed(me.clock) {
      InvRestore(cm, cc, me, cp, me.Seq());
      assert WithEnd(me, me.end.(chan := me.end.chan.(sequence := me.Seq()))) == me;
    } else if !me.end.inflight {
      InvFlushComplete(cm, cc, me, cp);
    }
  }

  /** What makes adopting safe: the counterparty waits too, has adopted, or is back on OPEN
      with fields that match anyway. */
  ghost predicate MayAdopt(cm: Connections, me: Block, cp: Block)
    requires me.end.upgrade.Some?
  {
    || (cp.St() == FLUSHCOMPLETE && cp.Seq() == me.Seq())
    || me.Seq() in cp.log.adopted
    || (Aborted(cp, me.Seq()) && Mirrors(cm, me.end.upgrade.value.fields, cp.end.chan.fields))
  }

  lemma InvAdopt(cm: Connections, cc: Connections, me: Block, cp: Block)
    requires Inv(cm, cc, me, cp) && me.St() == FLUSHCOMPLETE && MayAdopt(cm, me, cp)
    ensures Inv(cm, cc, Adopt(me), cp) && Later(me, Adopt(me))
  {
    LaterAdopt(me);
    var c := Adopt(me);
    var s := me.Seq();
    if Behind(cp, c) {
      if cp.Seq() == s {
        MirrorsSymmetric(cm, cc, me.end.upgrade.value.fields, cp.end.upgrade.value.fields);
      }
    }
  }

  lemma InvInit(cm: Connections, cc: Connections, me: Block, cp: Block, fields: Fields)
    requires Inv(cm, cc, me, cp) && HandleInit(cm, me, fields).Some?
    ensures var c := HandleInit(cm, me, fields).value; Inv(cm, cc, c, cp) && Later(me, c)
  {
  }

  lemma InvReceipt(cm: Connections, cc: Connections, me: Block, cp: Block, receipt: nat)
    requires Inv(cm, cc, me, cp)
    requires receipt <= me.Seq() && receipt !in me.log.adopted && (me.end.upgrade.Some? ==> receipt < me.Seq())
    ensures var c := WithEnd(me, me.end.(receipt := Some(receipt))); Inv(cm, cc, c, cp) && Later(me, c)
  {
    LaterReceipt(cm, cc, me, cp, receipt);
  }

  lemma LaterReceipt(cm: Connections, cc: Connections, me: Block, cp: Block, receipt: nat)
    requires Inv(cm, cc, me, cp)
    requires receipt <= me.Seq() && receipt !in me.log.adopted && (me.end.upgrade.Some? ==> receipt < me.Seq())
    ensures var c := WithEnd(me, me.end.(receipt := Some(receipt))); Wf(c) && Later(me, c)
  {
  }

  lemma InvInflight(cm: Connections, cc: Connections, me: Block, cp: Block, inflight: bool)
    requires Inv(cm, cc, me, cp)
    ensures var c := WithEnd(me, me.end.(inflight := inflight)); Inv(cm, cc, c, cp) && Later(me, c)
  {
  }

  lemma InvPackets(cm: Connections, cc: Connections, me: Block, cp: Block, last: bool)
    requires Inv(cm, cc, me, cp)
    ensures Inv(cm, cc, HandlePackets(me, last), cp) && Later(me, HandlePackets(me, last))
  {
    var b := WithEnd(me, me.end.(inflight := me.end.inflight && !last));
    InvInflight(cm, cc, me, cp, me.end.inflight && !last);
    if me.St() == FLUSHING && me.end.cpTimeout.Some? {
      InvCheckFlushed(cm, cc, b, cp, me.end.cpTimeout.value);
      LaterTrans(me, b, HandlePackets(me, last));
    }
  }

  // ------------------------------------------------------------------ relayed messages
  // `ev` is the counterparty block the message proves; `cp` is the counterparty now.

  /** A TRY was decided while this end had adopted nothing at or past the proved sequence... */
  ghost predicate TryNotAdopted(me: Block, ev: Block) { forall n | n in me.log.adopted :: n < ev.Seq() }

  /** ...and while an end without an upgrade was behind that sequence. */
  predicate TryBehind(me: Block, ev: Block) { me.end.upgrade.None? ==> me.Seq() < ev.Seq() }

  /** The counterparty has started no upgrade above both the proved sequence and this end's. */
  ghost predicate NoneAbove(me: Block, cp: Block, ev: Block) {
    forall k | k in cp.log.flush :: k <= ev.Seq() || k <= me.Seq()
  }

  lemma InvTry(cm: Connections, cc: Connections, me: Block, cp: Block, ev: Block, hop: string, timeout: Timeout)
    requires Inv(cm, cc, me, cp) && Wf(ev) && Later(ev, cp)
    requires TryNotAdopted(me, ev) && (TryBehind(me, ev) || NoneAbove(me, cp, ev))
    requires HandleTry(cm, me, ev, hop, timeout).Some?
    ensures var c := HandleTry(cm, me, ev, hop, timeout).value; Inv(cm, cc, c, cp) && Later(me, c)
  {
    if ev.Seq() < me.Seq() {
      InvReceipt(cm, cc, me, cp, if me.end.upgrade.Some? then me.Seq() - 1 else me.Seq());
    } else {
      var theirs := ev.end.upgrade.value.fields;
      var mine := if me.end.upgrade.Some? then me.end.upgrade.value.fields
                  else Fields(theirs.ordering, theirs.version, hop);
      var a := if me.end.upgrade.Some? then ev.Seq() else Max(me.Seq() + 1, ev.Seq());
      assert a !in me.log.flush;
      InvStartFlush(cm, cc, me, cp, a, mine, timeout);
    }
  }

  lemma InvAck(cm: Connections, cc: Connections, me: Block, cp: Block, ev: Block, timeout: Timeout)
    requires Inv(cm, cc, me, cp) && Wf(ev) && Later(ev, cp)
    requires HandleAck(cm, me, ev, timeout).Some?
    ensures var c := HandleAck(cm, me, ev, timeout).value; Inv(cm, cc, c, cp) && Later(me, c)
  {
    var s := me.Seq();
    assert s in cp.log.flush && cp.log.flush[s] == ev.end.upgrade.value;
    if !Mirrors(cm, me.end.upgrade.value.fields, ev.end.upgrade.value.fields) {
      InvRestore(cm, cc, me, cp, s);
      assert WithEnd(me, me.end.(chan := me.end.chan.(sequence := s))) == me;
    } else if me.St() == FLUSHING {
      InvCheckFlushed(cm, cc, me, cp, ev.end.upgrade.value.timeout);
    } else {
      var b := StartFlush(me, s, me.end.upgrade.value.fields, timeout);
      InvStartFlush(cm, cc, me, cp, s, me.end.upgrade.value.fields, timeout);
      InvCheckFlushed(cm, cc, b, cp, ev.end.upgrade.value.timeout);
      LaterTrans(me, b, HandleAck(cm, me, ev, timeout).value);
    }
  }

  lemma InvConfirm(cm: Connections, cc: Connections, me: Block, cp: Block, ev: Block)
    requires Inv(cm, cc, me, cp) && Wf(ev) && Later(ev, cp)
    requires HandleConfirm(cm, me, ev).Some?
    ensures var c := HandleConfirm(cm, me, ev).value; Inv(cm, cc, c, cp) && Later(me, c)
  {
    var b := CheckFlushed(me, ev.end.upgrade.value.timeout);
    InvCheckFlushed(cm, cc, me, cp, ev.end.upgrade.value.timeout);
    if b.St() == FLUSHCOMPLETE && ev.St() == FLUSHCOMPLETE {
      assert b.Seq() in b.log.done && b.Seq() in cp.log.done;
      InvAdopt(cm, cc, b, cp);
      LaterTrans(me, b, Adopt(b));
    }
  }

  /** An OPEN was decided when the counterparty had at least started to flush this upgrade. */
  ghost predicate OpenFresh(me: Block, ev: Block) {
    me.St() == FLUSHCOMPLETE ==> me.Seq() in ev.log.flush
  }

  lemma InvOpen(cm: Connections, cc: Connections, me: Block, cp: Block, ev: Block)
    requires Inv(cm, cc, me, cp) && Wf(ev) && Later(ev, cp) && OpenFresh(me, ev)
    requires HandleOpen(cm, me, ev).Some?
    ensures var c := HandleOpen(cm, me, ev).value; Inv(cm, cc, c, cp) && Later(me, c)
  {
    var s := me.Seq();
    if ev.St() == OPEN && s !in cp.log.adopted {
      assert Aborted(ev, s);
      AbortedStays(ev, cp, s);
      assert ev.log.adopted == cp.log.adopted;
    }
    InvAdopt(cm, cc, me, cp);
  }

  lemma InvCancel(cm: Connections, cc: Connections, me: Block, cp: Block, ev: Block, authority: bool)
    requires Inv(cm, cc, me, cp) && Wf(ev) && Later(ev, cp)
    requires HandleCancel(me, ev.end.receipt, authority).Some?
    ensures var c := HandleCancel(me, ev.end.receipt, authority).value; Inv(cm, cc, c, cp) && Later(me, c)
  {
    var s := me.Seq();
    if me.St() == FLUSHCOMPLETE {
      assert Aborted(ev, s);
      AbortedStays(ev, cp, s);
      InvRestore(cm, cc, me, cp, s);
      assert WithEnd(me, me.end.(chan := me.end.chan.(sequence := s))) == me;
    } else if authority {
      InvRestore(cm, cc, me, cp, s);
      assert WithEnd(me, me.end.(chan := me.end.chan.(sequence := s))) == me;
    } else {
      InvRestore(cm, cc, me, cp, ev.end.receipt.value);
    }
  }

  /** A TIMEOUT was decided when the counterparty, if past this upgrade, was OPEN. */
  ghost predicate TimeoutFresh(me: Block, ev: Block) {
    me.Flushing() && me.Seq() in ev.log.adopted ==> ev.St() == OPEN
  }

  lemma InvTimeout(cm: Connections, cc: Connections, me: Block, cp: Block, ev: Block)
    requires Inv(cm, cc, me, cp) && Wf(ev) && Later(ev, cp) && TimeoutFresh(me, ev)
    requires HandleTimeout(cm, me, ev).Some?
    ensures var c := HandleTimeout(cm, me, ev).value; Inv(cm, cc, c, cp) && Later(me, c)
  {
    var s := me.Seq();
    if me.St() == FLUSHCOMPLETE && s in cp.log.done {
      if Aborted(ev, s) { AbortedStays(ev, cp, s); }
      assert false;
    }
    InvRestore(cm, cc, me, cp, s);
    assert WithEnd(me, me.end.(chan := me.end.chan.(sequence := s))) == me;
  }
}
