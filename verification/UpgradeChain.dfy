/** The two ends of a channel as the chains keep them while a channel upgrade is under
    way, with the on-chain handlers of ICS 4 `UPGRADES.md` ("Upgrade Handshake", "Cancel
    Upgrade Process", "Timeout Upgrade Process").  A handler takes the counterparty block the
    relayer proved (`ev`) and either rejects the message (`None`) or gives the next block. */
module UpgradeChain {
  import opened Wrappers

  datatype Ordering = ORDERED | UNORDERED

  datatype State = UNINITIALIZED | INIT | TRYOPEN | OPEN | CLOSED | FLUSHING | FLUSHCOMPLETE

  /** The fields a channel upgrade may change.  Only the first connection hop is used. */
  datatype Fields = Fields(ordering: Ordering, version: string, hop: string)

  datatype Channel = Channel(state: State, fields: Fields, sequence: nat)

  datatype Clock = Clock(height: nat, time: nat) {
    predicate AtMost(other: Clock) { height <= other.height && time <= other.time }
  }

  /** A zero height or a zero timestamp means that the bound is not set. */
  datatype Timeout = Timeout(height: nat, timestamp: nat) {
    predicate IsSet() { height != 0 || timestamp != 0 }

    predicate Elapsed(now: Clock) {
      || (height != 0 && height <= now.height)
      || (timestamp != 0 && timestamp <= now.time)
    }
  }

  const NO_TIMEOUT := Timeout(0, 0)

  datatype Upgrade = Upgrade(fields: Fields, timeout: Timeout)

  /** What a chain stores for its end.  `cpTimeout` is the counterparty's upgrade timeout once
      ACK or CONFIRM has stored it; `receipt` is the sequence of the latest error receipt. */
  datatype End = End(chan: Channel, upgrade: Option<Upgrade>, cpTimeout: Option<Timeout>,
                     receipt: Option<nat>, inflight: bool)

  /** What happened on a chain so far, by upgrade sequence: the upgrades it started to flush,
      when it reached FLUSHCOMPLETE, and the upgrades it adopted.  Nothing on chain or in the
      relayer reads this; the properties are stated over it. */
  datatype Log = Log(flush: map<nat, Upgrade>, done: map<nat, Clock>, adopted: set<nat>)

  datatype Block = Block(end: End, log: Log, clock: Clock) {
    function Seq(): nat { end.chan.sequence }
    function St(): State { end.chan.state }
    predicate Flushing() { St() == FLUSHING || St() == FLUSHCOMPLETE }
  }

  /** A connection id mapped to the id its counterparty end has on the other chain. */
  type Connections = map<string, string>

  predicate Mirrors(conns: Connections, mine: Fields, theirs: Fields) {
    && mine.ordering == theirs.ordering
    && mine.version == theirs.version
    && mine.hop in conns && conns[mine.hop] == theirs.hop
  }

  function Max(a: nat, b: nat): nat { if a < b then b else a }

  // ------------------------------------------------------------------ state changes

  function WithEnd(b: Block, e: End): Block { b.(end := e) }

  /** Abort: back to OPEN on the old fields, leaving an error receipt for the sequence. */
  function Restore(b: Block): Block {
    WithEnd(b, b.end.(chan := b.end.chan.(state := OPEN), upgrade := None, cpTimeout := None,
                      receipt := Some(b.Seq())))
  }

  function StartFlush(b: Block, sequence: nat, fields: Fields, timeout: Timeout): Block {
    var u := Upgrade(fields, timeout);
    Block(b.end.(chan := b.end.chan.(state := FLUSHING, sequence := sequence), upgrade := Some(u)),
          b.log.(flush := b.log.flush[sequence := u]), b.clock)
  }

  function FlushComplete(b: Block): Block {
    Block(b.end.(chan := b.end.chan.(state := FLUSHCOMPLETE)),
          b.log.(done := b.log.done[b.Seq() := b.clock]), b.clock)
  }

  function Adopt(b: Block): Block
    requires b.end.upgrade.Some?
  {
    Block(b.end.(chan := b.end.chan.(state := OPEN, fields := b.end.upgrade.value.fields),
                 upgrade := None, cpTimeout := None),
          b.log.(adopted := b.log.adopted + {b.Seq()}), b.clock)
  }

  /** The counterparty's timeout is known: abort if it has passed, otherwise move to
      FLUSHCOMPLETE when nothing is in flight. */
  function CheckFlushed(b: Block, timeout: Timeout): Block {
    if timeout.Elapsed(b.clock) then Restore(b)
    else if b.end.inflight then WithEnd(b, b.end.(cpTimeout := Some(timeout)))
    else FlushComplete(WithEnd(b, b.end.(cpTimeout := Some(timeout))))
  }

  // ------------------------------------------------------------------ handlers

  /** chanUpgradeInit, sent by an operator. */
  function HandleInit(conns: Connections, me: Block, fields: Fields): Option<Block> {
    if me.St() != OPEN || fields.hop !in conns then None else
    Some(WithEnd(me, me.end.(chan := me.end.chan.(sequence := me.Seq() + 1),
                             upgrade := Some(Upgrade(fields, NO_TIMEOUT)),
                             receipt := if me.end.upgrade.Some? then Some(me.Seq()) else me.end.receipt)))
  }

  function HandleTry(conns: Connections, me: Block, ev: Block, hop: string, timeout: Timeout): Option<Block> {
    if me.St() != OPEN || !timeout.IsSet() then None
    else if ev.St() != OPEN || !Mirrors(conns, me.end.chan.fields, ev.end.chan.fields) then None
    else if ev.Seq() < me.Seq() then
      // the counterparty's attempt is outdated: answer with an error receipt
      Some(WithEnd(me, me.end.(receipt := Some(if me.end.upgrade.Some? then me.Seq() - 1 else me.Seq()))))
    else if ev.end.upgrade.None? then None
    else
      var theirs := ev.end.upgrade.value.fields;
      var mine := if me.end.upgrade.Some? then me.end.upgrade.value.fields
                  else Fields(theirs.ordering, theirs.version, hop);
      if !Mirrors(conns, mine, theirs) then None else
      var sequence := if me.end.upgrade.Some? then ev.Seq() else Max(me.Seq() + 1, ev.Seq());
      Some(StartFlush(me, sequence, mine, timeout))
  }

  function HandleAck(conns: Connections, me: Block, ev: Block, timeout: Timeout): Option<Block> {
    if (me.St() != OPEN && me.St() != FLUSHING) || me.end.upgrade.None? || !timeout.IsSet() then None
    else if ev.St() != FLUSHING || ev.Seq() != me.Seq() || ev.end.upgrade.None?
            || !Mirrors(conns, me.end.chan.fields, ev.end.chan.fields) then None
    else if !Mirrors(conns, me.end.upgrade.value.fields, ev.end.upgrade.value.fields) then Some(Restore(me))
    else
      var flushing := if me.St() == FLUSHING then me
                      else StartFlush(me, me.Seq(), me.end.upgrade.value.fields, timeout);
      Some(CheckFlushed(flushing, ev.end.upgrade.value.timeout))
  }

  function HandleConfirm(conns: Connections, me: Block, ev: Block): Option<Block> {
    if me.St() != FLUSHING || me.end.upgrade.None? then None
    else if !ev.Flushing() || ev.Seq() != me.Seq() || ev.end.upgrade.None?
            || !Mirrors(conns, me.end.chan.fields, ev.end.chan.fields) then None
    else
      var flushed := CheckFlushed(me, ev.end.upgrade.value.timeout);
      Some(if flushed.St() == FLUSHCOMPLETE && ev.St() == FLUSHCOMPLETE then Adopt(flushed) else flushed)
  }

  function HandleOpen(conns: Connections, me: Block, ev: Block): Option<Block> {
    if me.St() != FLUSHCOMPLETE || me.end.upgrade.None? then None
    else if ev.St() == FLUSHCOMPLETE && ev.Seq() == me.Seq()
            && Mirrors(conns, me.end.chan.fields, ev.end.chan.fields) then Some(Adopt(me))
    else if ev.St() == OPEN && me.Seq() <= ev.Seq()
            && Mirrors(conns, me.end.upgrade.value.fields, ev.end.chan.fields) then Some(Adopt(me))
    else None
  }

  /** chanUpgradeCancel: `authority` says that the sender may cancel without a receipt,
      `receipt` is the counterparty's proved error receipt. */
  function HandleCancel(me: Block, receipt: Option<nat>, authority: bool): Option<Block> {
    if me.end.upgrade.None? then None
    else if authority && me.St() != FLUSHCOMPLETE then Some(Restore(me))
    else if receipt.None? then None
    else if me.St() == FLUSHCOMPLETE then
      if receipt.value == me.Seq() then Some(Restore(me)) else None
    else if receipt.value < me.Seq() then None
    else Some(Restore(WithEnd(me, me.end.(chan := me.end.chan.(sequence := receipt.value)))))
  }

  function HandleTimeout(conns: Connections, me: Block, ev: Block): Option<Block> {
    if !me.Flushing() || me.end.upgrade.None? then None
    else if !me.end.upgrade.value.timeout.Elapsed(ev.clock) then None
    else if ev.St() != OPEN && ev.St() != FLUSHING then None
    else if ev.St() == OPEN && Mirrors(conns, me.end.upgrade.value.fields, ev.end.chan.fields) then None
    else Some(Restore(me))
  }

  /** Packets of this end are acknowledged or timed out; `last` when none is left in flight. */
  function HandlePackets(me: Block, last: bool): Block {
    var b := WithEnd(me, me.end.(inflight := me.end.inflight && !last));
    if me.St() == FLUSHING && me.end.cpTimeout.Some? then CheckFlushed(b, me.end.cpTimeout.value) else b
  }

  /** A new packet can only be sent while the channel is OPEN. */
  function HandleSendPacket(me: Block): Block {
    if me.St() == OPEN then WithEnd(me, me.end.(inflight := true)) else me
  }
}
