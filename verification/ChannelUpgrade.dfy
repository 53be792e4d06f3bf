/** The relayer's side of the channel-upgrade handshake: from the two settled ends to the
    messages of one step. */
module ChannelUpgrade {
  import opened Wrappers
  import opened UpgradeChain

  datatype UpgradeState = U_UNINIT | U_INIT | U_FLUSHING | U_FLUSHCOMPLETE

  datatype Action =
    | NONE | TRY | ACK | CONFIRM | OPENUP | CANCEL | CANCEL_FLUSHCOMPLETE | TIMEOUT

  datatype Failure =
    | ChannelNotOpened
    | UpgradeNotInitialized
    | ConnectionNotFound
    | ReceiptNotFound
    | ReceiptSequenceMismatch
    | UninitializedChannelProof

  /** One chain as a step sees it: its connections, the block at the finalized height the
      proofs refer to, and the block at the latest height. */
  datatype View = View(conns: Connections, fin: Block, latest: Block) {
    /** Chains keep an upgrade for as long as they flush. */
    predicate Valid() { fin.Flushing() ==> fin.end.upgrade.Some? }

    predicate Settled() { fin.end.chan == latest.end.chan && fin.end.upgrade == latest.end.upgrade }

    function Upg(): UpgradeChain.Upgrade
      requires fin.end.upgrade.Some?
    { fin.end.upgrade.value }
  }

  datatype Msg =
    | UpdateClient(header: nat)
    | Upgrade(action: Action, hop: string, receipt: Option<nat>)

  datatype RelayMsgs = RelayMsgs(src: seq<Msg>, dst: seq<Msg>, last: bool)

  const NO_MSGS := RelayMsgs([], [], false)

  function NewUpgradeState(state: State, upgradeExists: bool): Result<UpgradeState, Failure> {
    match state
    case OPEN => Ok(if upgradeExists then U_INIT else U_UNINIT)
    case FLUSHING => Ok(U_FLUSHING)
    case FLUSHCOMPLETE => Ok(U_FLUSHCOMPLETE)
    case _ => Err(ChannelNotOpened)
  }

  function StateOf(b: Block): Result<UpgradeState, Failure> {
    NewUpgradeState(b.St(), b.end.upgrade.Some?)
  }

  /** Whether `channel` already has the fields that the counterparty's upgrade proposes. */
  function AlreadyComplete(channel: Channel, cp: View): Result<bool, Failure>
    requires cp.fin.end.upgrade.Some?
  {
    var proposed := cp.Upg().fields;
    if proposed.hop !in cp.conns then Err(ConnectionNotFound) else
    Ok(&& channel.fields.version == proposed.version
       && channel.fields.ordering == proposed.ordering
       && channel.fields.hop == cp.conns[proposed.hop])
  }

  /** Whether the counterparty's upgrade has timed out at this chain's finalized height. */
  predicate AlreadyTimedOut(chain: View, cp: View)
    requires cp.fin.end.upgrade.Some?
  {
    cp.Upg().timeout.Elapsed(chain.fin.clock)
  }

  predicate CanTransitionToFlushComplete(chain: View) { !chain.latest.end.inflight }

  // ------------------------------------------------------------------ one-sided specification

  /** The action that one end needs, seen from that end.  The step's table decides for both
      ends at once; it is proved to choose exactly this action for each of them. */
  function ActionFor(me: View, cp: View): Result<Action, Failure>
    requires me.Valid() && cp.Valid()
  {
    var x, y := StateOf(me.fin), StateOf(cp.fin);
    if x.Err? || y.Err? then Err(ChannelNotOpened) else
    match x.value
    case U_UNINIT =>
      Ok(if y.value == U_INIT && me.fin.Seq() < cp.fin.Seq() then TRY else NONE)
    case U_INIT =>
      Ok(match y.value
         case U_UNINIT => if me.fin.Seq() <= cp.fin.Seq() then CANCEL else NONE
         case U_INIT => if me.fin.Seq() <= cp.fin.Seq() then TRY else NONE
         case U_FLUSHING => if me.fin.Seq() == cp.fin.Seq() then ACK else NONE
         case U_FLUSHCOMPLETE => NONE)
    case U_FLUSHING =>
      Ok(match y.value
         case U_UNINIT => CANCEL
         case U_INIT => if me.fin.Seq() != cp.fin.Seq() then CANCEL else NONE
         case _ =>
           if y.value == U_FLUSHING && AlreadyTimedOut(cp, me) then TIMEOUT
           else if AlreadyTimedOut(me, cp) then NONE
           else if CanTransitionToFlushComplete(me) then CONFIRM else NONE)
    case U_FLUSHCOMPLETE =>
      match y.value
      case U_FLUSHCOMPLETE => Ok(OPENUP)
      case U_FLUSHING => Ok(if AlreadyTimedOut(cp, me) then TIMEOUT else NONE)
      case _ =>
        var complete := AlreadyComplete(cp.fin.end.chan, me);
        if complete.Err? then Err(complete.error)
        else if complete.value then Ok(OPENUP)
        else if AlreadyTimedOut(cp, me) then Ok(TIMEOUT)
        else Ok(CANCEL_FLUSHCOMPLETE)
  }

  function BuildActionMsg(action: Action, me: View, cp: View): Result<Msg, Failure>
    requires action != NONE
    requires action == TRY ==> cp.fin.end.upgrade.Some?
  {
    if action in {TRY, ACK, CONFIRM, OPENUP, TIMEOUT} && cp.fin.St() == UNINITIALIZED then
      Err(UninitializedChannelProof)
    else match action
    case TRY =>
      if cp.Upg().fields.hop !in cp.conns then Err(ConnectionNotFound)
      else Ok(Msg.Upgrade(TRY, cp.conns[cp.Upg().fields.hop], None))
    case CANCEL => Ok(Msg.Upgrade(CANCEL, "", cp.fin.end.receipt))
    case CANCEL_FLUSHCOMPLETE =>
      if cp.fin.end.receipt.None? then Err(ReceiptNotFound)
      else if cp.fin.end.receipt.value != me.fin.Seq() then Err(ReceiptSequenceMismatch)
      else Ok(Msg.Upgrade(CANCEL_FLUSHCOMPLETE, "", cp.fin.end.receipt))
    case _ => Ok(Msg.Upgrade(action, "", None))
  }

  /** Client updates with the counterparty's headers, then the message for the action. */
  function MsgsFor(action: Action, me: View, cp: View, headers: seq<nat>): Result<seq<Msg>, Failure>
    requires action == TRY ==> cp.fin.end.upgrade.Some?
  {
    if action == NONE then Ok([])
    else
      var msg := BuildActionMsg(action, me, cp);
      if msg.Err? then Err(msg.error)
      else Ok(seq(|headers|, i requires 0 <= i < |headers| => UpdateClient(headers[i])) + [msg.value])
  }

  lemma TryHasUpgradeIf(me: View, cp: View)
    requires me.Valid() && cp.Valid()
    ensures ActionFor(me, cp) == Ok(TRY) ==> cp.fin.end.upgrade.Some?
  {
  }

  /** Whether both ends have reached UNINIT again or the states asked for. */
  predicate Reached(x: UpgradeState, y: UpgradeState, targetX: UpgradeState, targetY: UpgradeState, firstCall: bool) {
    || (!firstCall && x == U_UNINIT && y == U_UNINIT)
    || (x != U_UNINIT && y != U_UNINIT && x == targetX && y == targetY)
  }

  /** The part of the plan before the actions. */
  function Guarded(src: View, dst: View, targetSrc: UpgradeState, targetDst: UpgradeState, firstCall: bool,
                   actions: Result<RelayMsgs, Failure>): Result<RelayMsgs, Failure>
  {
    if !src.Settled() || !dst.Settled() then Ok(NO_MSGS) else
    var x, y := StateOf(src.fin), StateOf(dst.fin);
    if x.Err? || y.Err? then Err(ChannelNotOpened)
    else if Reached(x.value, y.value, targetSrc, targetDst, firstCall) then Ok(NO_MSGS.(last := true))
    else if x.value == U_UNINIT && y.value == U_UNINIT then Err(UpgradeNotInitialized)
    else actions
  }

  /** What one step gives: nothing while a view is unsettled, otherwise the messages each end
      needs. */
  function Plan(src: View, dst: View, targetSrc: UpgradeState, targetDst: UpgradeState, firstCall: bool,
                srcHeaders: seq<nat>, dstHeaders: seq<nat>): Result<RelayMsgs, Failure>
    requires src.Valid() && dst.Valid()
  {
    Guarded(src, dst, targetSrc, targetDst, firstCall, PlanActions(src, dst, srcHeaders, dstHeaders))
  }

  function PlanActions(src: View, dst: View, srcHeaders: seq<nat>, dstHeaders: seq<nat>): Result<RelayMsgs, Failure>
    requires src.Valid() && dst.Valid()
  {
    var a, b := ActionFor(src, dst), ActionFor(dst, src);
    if a.Err? then Err(a.error) else if b.Err? then Err(b.error)
    else Assemble(a.value, b.value, src, dst, srcHeaders, dstHeaders)
  }

  function Assemble(srcAction: Action, dstAction: Action, src: View, dst: View,
                    srcHeaders: seq<nat>, dstHeaders: seq<nat>): Result<RelayMsgs, Failure>
    requires srcAction == TRY ==> dst.fin.end.upgrade.Some?
    requires dstAction == TRY ==> src.fin.end.upgrade.Some?
  {
    var s, d := MsgsFor(srcAction, src, dst, dstHeaders), MsgsFor(dstAction, dst, src, srcHeaders);
    if s.Err? then Err(s.error) else if d.Err? then Err(d.error) else Ok(RelayMsgs(s.value, d.value, false))
  }

  // ------------------------------------------------------------------ the step

  /** The counterparty waits in FLUSHCOMPLETE while `chain` is OPEN: complete is checked before
      timed out, and timed out before cancel. */
  method FlushCompleteAction(chain: View, cp: View) returns (r: Result<Action, Failure>)
    requires cp.fin.end.upgrade.Some?
    ensures r.Ok? <==> cp.Upg().fields.hop in cp.conns
    ensures r.Err? ==> r.error == ConnectionNotFound
    ensures r.Ok? ==>
      && (r.value == OPENUP <==> Mirrors(cp.conns, cp.Upg().fields, chain.fin.end.chan.fields))
      && (r.value == TIMEOUT <==> r.value != OPENUP && AlreadyTimedOut(chain, cp))
      && r.value in {OPENUP, TIMEOUT, CANCEL_FLUSHCOMPLETE}
  {
    var complete := AlreadyComplete(chain.fin.end.chan, cp);
    if complete.Err? { return Err(complete.error); }
    if complete.value { return Ok(OPENUP); }
    if AlreadyTimedOut(chain, cp) { return Ok(TIMEOUT); }
    return Ok(CANCEL_FLUSHCOMPLETE);
  }

  /** Append the client updates and the action's message to the messages of one side. */
  method AppendActionMsgs(out: seq<Msg>, action: Action, me: View, cp: View, headers: seq<nat>)
    returns (msgs: seq<Msg>, err: Option<Failure>)
    requires action == TRY ==> cp.fin.end.upgrade.Some?
    ensures err.Some? <==> MsgsFor(action, me, cp, headers).Err?
    ensures err.Some? ==> MsgsFor(action, me, cp, headers) == Err(err.value)
    ensures err.None? ==> msgs == out + MsgsFor(action, me, cp, headers).value
  {
    msgs, err := out, None;
    if action != NONE {
      var updates: seq<Msg> := [];
      for i := 0 to |headers|
        invariant updates == seq(i, j requires 0 <= j < i => UpdateClient(headers[j]))
      {
        updates := updates + [UpdateClient(headers[i])];
      }
      if |headers| > 0 {
        msgs := msgs + updates;
      }
      var msg := BuildActionMsg(action, me, cp);
      if msg.Err? {
        err := Some(msg.error);
        return;
      }
      msgs := msgs + [msg.value];
    }
  }

  /** The table of the 16 pairs of states, for both ends at once. */
  method DetermineActions(src: View, dst: View) returns (srcAction: Action, dstAction: Action, err: Option<Failure>)
    requires src.Valid() && dst.Valid() && StateOf(src.fin).Ok? && StateOf(dst.fin).Ok?
    ensures err.Some? <==> ActionFor(src, dst).Err? || ActionFor(dst, src).Err?
    ensures err.Some? ==> err.value == ConnectionNotFound
    ensures err.None? ==> ActionFor(src, dst) == Ok(srcAction) && ActionFor(dst, src) == Ok(dstAction)
  {
    srcAction, dstAction, err := NONE, NONE, None;
    var srcState, dstState := StateOf(src.fin).value, StateOf(dst.fin).value;
    var srcSeq, dstSeq := src.fin.Seq(), dst.fin.Seq();
    match (srcState, dstState) {
      case (U_UNINIT, U_UNINIT) =>
      case (U_INIT, U_UNINIT) =>
        if dstSeq >= srcSeq { srcAction := CANCEL; } else { dstAction := TRY; }
      case (U_UNINIT, U_INIT) =>
        if srcSeq >= dstSeq { dstAction := CANCEL; } else { srcAction := TRY; }
      case (U_UNINIT, U_FLUSHING) =>
        dstAction := CANCEL;
      case (U_FLUSHING, U_UNINIT) =>
        srcAction := CANCEL;
      case (U_UNINIT, U_FLUSHCOMPLETE) =>
        var a := FlushCompleteAction(src, dst);
        if a.Err? { err := Some(a.error); return; }
        dstAction := a.value;
      case (U_FLUSHCOMPLETE, U_UNINIT) =>
        var a := FlushCompleteAction(dst, src);
        if a.Err? { err := Some(a.error); return; }
        srcAction := a.value;
      case (U_INIT, U_INIT) => // crossing hellos
        if srcSeq >= dstSeq { dstAction := TRY; }
        if srcSeq <= dstSeq { srcAction := TRY; }
      case (U_INIT, U_FLUSHING) =>
        if srcSeq != dstSeq { dstAction := CANCEL; } else { srcAction := ACK; }
      case (U_FLUSHING, U_INIT) =>
        if srcSeq != dstSeq { srcAction := CANCEL; } else { dstAction := ACK; }
      case (U_INIT, U_FLUSHCOMPLETE) =>
        var a := FlushCompleteAction(src, dst);
        if a.Err? { err := Some(a.error); return; }
        dstAction := a.value;
      case (U_FLUSHCOMPLETE, U_INIT) =>
        var a := FlushCompleteAction(dst, src);
        if a.Err? { err := Some(a.error); return; }
        srcAction := a.value;
      case (U_FLUSHING, U_FLUSHING) =>
        if AlreadyTimedOut(src, dst) { dstAction := TIMEOUT; }
        if AlreadyTimedOut(dst, src) { srcAction := TIMEOUT; }
        // if either chain has already timed out, never confirm
        if srcAction != TIMEOUT && dstAction != TIMEOUT {
          if CanTransitionToFlushComplete(src) { srcAction := CONFIRM; }
          if CanTransitionToFlushComplete(dst) { dstAction := CONFIRM; }
        }
      case (U_FLUSHING, U_FLUSHCOMPLETE) =>
        if AlreadyTimedOut(src, dst) { dstAction := TIMEOUT; }
        else if CanTransitionToFlushComplete(src) { srcAction := CONFIRM; }
      case (U_FLUSHCOMPLETE, U_FLUSHING) =>
        if AlreadyTimedOut(dst, src) { srcAction := TIMEOUT; }
        else if CanTransitionToFlushComplete(dst) { dstAction := CONFIRM; }
      case (U_FLUSHCOMPLETE, U_FLUSHCOMPLETE) =>
        srcAction := OPENUP;
        dstAction := OPENUP;
    }
  }

  method AssembleMsgs(out: RelayMsgs, srcAction: Action, dstAction: Action, src: View, dst: View,
                      srcHeaders: seq<nat>, dstHeaders: seq<nat>)
    returns (r: Result<RelayMsgs, Failure>)
    requires out == NO_MSGS
    requires srcAction == TRY ==> dst.fin.end.upgrade.Some?
    requires dstAction == TRY ==> src.fin.end.upgrade.Some?
    ensures r == Assemble(srcAction, dstAction, src, dst, srcHeaders, dstHeaders)
  {
    var srcMsgs, srcErr := AppendActionMsgs(out.src, srcAction, src, dst, dstHeaders);
    var dstMsgs, dstErr := AppendActionMsgs(out.dst, dstAction, dst, src, srcHeaders);
    if srcErr.Some? { return Err(srcErr.value); }
    if dstErr.Some? { return Err(dstErr.value); }
    assert srcMsgs == MsgsFor(srcAction, src, dst, dstHeaders).value;
    assert dstMsgs == MsgsFor(dstAction, dst, src, srcHeaders).value;
    return Ok(out.(src := srcMsgs, dst := dstMsgs));
  }

  method ActionMsgs(out: RelayMsgs, src: View, dst: View, srcHeaders: seq<nat>, dstHeaders: seq<nat>)
    returns (r: Result<RelayMsgs, Failure>)
    requires out == NO_MSGS && src.Valid() && dst.Valid() && StateOf(src.fin).Ok? && StateOf(dst.fin).Ok?
    ensures r == PlanActions(src, dst, srcHeaders, dstHeaders)
  {
    var srcAction, dstAction, err := DetermineActions(src, dst);
    if err.Some? { return Err(err.value); }
    r := AssembleMsgs(out, srcAction, dstAction, src, dst, srcHeaders, dstHeaders);
  }

  method UpgradeChannelStep(src: View, dst: View, targetSrcState: UpgradeState, targetDstState: UpgradeState,
                            firstCall: bool, srcHeaders: seq<nat>, dstHeaders: seq<nat>)
    returns (r: Result<RelayMsgs, Failure>)
    requires src.Valid() && dst.Valid()
    ensures r == Plan(src, dst, targetSrcState, targetDstState, firstCall, srcHeaders, dstHeaders)
  {
    var out := NO_MSGS;
    if !(src.fin.end.chan == src.latest.end.chan && dst.fin.end.chan == dst.latest.end.chan) {
      return Ok(out);
    }
    if !(src.fin.end.upgrade == src.latest.end.upgrade && dst.fin.end.upgrade == dst.latest.end.upgrade) {
      return Ok(out);
    }

    var x := NewUpgradeState(src.fin.St(), src.fin.end.upgrade.Some?);
    if x.Err? { return Err(x.error); }
    var y := NewUpgradeState(dst.fin.St(), dst.fin.end.upgrade.Some?);
    if y.Err? { return Err(y.error); }
    var srcState, dstState := x.value, y.value;

    if (!firstCall && srcState == U_UNINIT && dstState == U_UNINIT)
       || (srcState != U_UNINIT && dstState != U_UNINIT
           && srcState == targetSrcState && dstState == targetDstState) {
      return Ok(out.(last := true));
    }

    if srcState == U_UNINIT && dstState == U_UNINIT {
      return Err(UpgradeNotInitialized);
    }
    r := ActionMsgs(out, src, dst, srcHeaders, dstHeaders);
  }

  // ------------------------------------------------------------------ properties of the step

  ghost predicate Swapped(p: Result<RelayMsgs, Failure>, q: Result<RelayMsgs, Failure>) {
    && (p.Ok? <==> q.Ok?)
    && (p.Ok? ==> q.value == RelayMsgs(p.value.dst, p.value.src, p.value.last))
  }

  lemma AssembleMirrored(a: Action, b: Action, src: View, dst: View, srcHeaders: seq<nat>, dstHeaders: seq<nat>)
    requires a == TRY ==> dst.fin.end.upgrade.Some?
    requires b == TRY ==> src.fin.end.upgrade.Some?
    ensures Swapped(Assemble(a, b, src, dst, srcHeaders, dstHeaders), Assemble(b, a, dst, src, dstHeaders, srcHeaders))
  {
  }

  lemma PlanActionsMirrored(src: View, dst: View, srcHeaders: seq<nat>, dstHeaders: seq<nat>)
    requires src.Valid() && dst.Valid()
    ensures Swapped(PlanActions(src, dst, srcHeaders, dstHeaders), PlanActions(dst, src, dstHeaders, srcHeaders))
  {
    var a, b := ActionFor(src, dst), ActionFor(dst, src);
    if a.Ok? && b.Ok? {
      TryHasUpgradeIf(src, dst);
      TryHasUpgradeIf(dst, src);
      AssembleMirrored(a.value, b.value, src, dst, srcHeaders, dstHeaders);
    }
  }

  /** Swapping the two chains swaps the messages: the table favours neither side. */
  lemma PlanMirrored(src: View, dst: View, targetSrc: UpgradeState, targetDst: UpgradeState, firstCall: bool,
                     srcHeaders: seq<nat>, dstHeaders: seq<nat>)
    requires src.Valid() && dst.Valid()
    ensures Swapped(Plan(src, dst, targetSrc, targetDst, firstCall, srcHeaders, dstHeaders),
                    Plan(dst, src, targetDst, targetSrc, firstCall, dstHeaders, srcHeaders))
  {
    PlanActionsMirrored(src, dst, srcHeaders, dstHeaders);
    StatesMirrored(src, dst, targetSrc, targetDst, firstCall, PlanActions(src, dst, srcHeaders, dstHeaders),
                   PlanActions(dst, src, dstHeaders, srcHeaders));
  }

  lemma StatesMirrored(src: View, dst: View, targetSrc: UpgradeState, targetDst: UpgradeState, firstCall: bool,
                       a: Result<RelayMsgs, Failure>, b: Result<RelayMsgs, Failure>)
    requires Swapped(a, b)
    ensures Swapped(Guarded(src, dst, targetSrc, targetDst, firstCall, a),
                    Guarded(dst, src, targetDst, targetSrc, firstCall, b))
  {
  }

  /** The messages for one side are the client updates followed by one real action. */
  ghost predicate UpdatesThenAction(msgs: seq<Msg>, headers: seq<nat>) {
    msgs != [] ==>
      && |msgs| == |headers| + 1
      && (forall i | 0 <= i < |headers| :: msgs[i] == UpdateClient(headers[i]))
      && msgs[|headers|].Upgrade? && msgs[|headers|].action != NONE
  }

  lemma MsgsShape(action: Action, me: View, cp: View, headers: seq<nat>)
    requires action == TRY ==> cp.fin.end.upgrade.Some?
    ensures var m := MsgsFor(action, me, cp, headers);
            m.Ok? ==> UpdatesThenAction(m.value, headers)
  {
  }

  /** No step sends the action NONE, a message for an unsettled view, or anything when it is the
      last.  That every pair of states is decided is the exhaustive match of the step itself. */
  lemma PlanMessages(src: View, dst: View, targetSrc: UpgradeState, targetDst: UpgradeState, firstCall: bool,
                     srcHeaders: seq<nat>, dstHeaders: seq<nat>)
    requires src.Valid() && dst.Valid()
    ensures var p := Plan(src, dst, targetSrc, targetDst, firstCall, srcHeaders, dstHeaders);
            p.Ok? ==>
              && UpdatesThenAction(p.value.src, dstHeaders) && UpdatesThenAction(p.value.dst, srcHeaders)
              && (p.value.src != [] || p.value.dst != [] ==> src.Settled() && dst.Settled() && !p.value.last)
  {
    var a, b := ActionFor(src, dst), ActionFor(dst, src);
    if a.Ok? && b.Ok? {
      TryHasUpgradeIf(src, dst);
      TryHasUpgradeIf(dst, src);
      MsgsShape(a.value, src, dst, dstHeaders);
      MsgsShape(b.value, dst, src, srcHeaders);
    }
    PlanIsOneOf(src, dst, targetSrc, targetDst, firstCall, srcHeaders, dstHeaders);
  }

  lemma PlanIsOneOf(src: View, dst: View, targetSrc: UpgradeState, targetDst: UpgradeState, firstCall: bool,
                    srcHeaders: seq<nat>, dstHeaders: seq<nat>)
    requires src.Valid() && dst.Valid()
    ensures var p := Plan(src, dst, targetSrc, targetDst, firstCall, srcHeaders, dstHeaders);
            || (p.Ok? && p.value.src == [] && p.value.dst == [])
            || (p.Err? && p.error in {ChannelNotOpened, UpgradeNotInitialized})
            || (p == PlanActions(src, dst, srcHeaders, dstHeaders) && src.Settled() && dst.Settled())
  {
  }

  /** The end's own upgrade or, while both ends flush, the other's has timed out at the other end.
      An end whose counterparty waits in FLUSHCOMPLETE only looks at the counterparty's upgrade. */
  predicate ConfirmTooLate(me: View, cp: View)
    requires me.Valid() && cp.Valid() && me.fin.Flushing() && cp.fin.Flushing()
  {
    AlreadyTimedOut(me, cp) || (cp.fin.St() == FLUSHING && AlreadyTimedOut(cp, me))
  }

  /** Between two flushing ends CONFIRM goes exactly to an end that is FLUSHING with nothing in
      flight and not too late; TIMEOUT goes exactly to an end whose upgrade has timed out at an
      end that is FLUSHING. */
  lemma ConfirmExactly(me: View, cp: View)
    requires me.Valid() && cp.Valid() && me.fin.Flushing() && cp.fin.Flushing()
    ensures ActionFor(me, cp) == Ok(CONFIRM) <==>
              me.fin.St() == FLUSHING && CanTransitionToFlushComplete(me) && !ConfirmTooLate(me, cp)
    ensures ActionFor(me, cp) == Ok(TIMEOUT) <==> cp.fin.St() == FLUSHING && AlreadyTimedOut(cp, me)
  {
  }

  /** No CONFIRM is sent after a timeout that either end could still use: when an end is sent
      TIMEOUT, neither is sent CONFIRM, and when an end that could confirm is too late, one end is
      sent TIMEOUT. */
  lemma NoConfirmAfterTimeout(src: View, dst: View)
    requires src.Valid() && dst.Valid() && src.fin.Flushing() && dst.fin.Flushing()
    ensures ActionFor(src, dst) == Ok(TIMEOUT) || ActionFor(dst, src) == Ok(TIMEOUT) ==>
              ActionFor(src, dst) != Ok(CONFIRM) && ActionFor(dst, src) != Ok(CONFIRM)
    ensures src.fin.St() == FLUSHING && ConfirmTooLate(src, dst) ==>
              ActionFor(src, dst) == Ok(TIMEOUT) || ActionFor(dst, src) == Ok(TIMEOUT)
    ensures dst.fin.St() == FLUSHING && ConfirmTooLate(dst, src) ==>
              ActionFor(src, dst) == Ok(TIMEOUT) || ActionFor(dst, src) == Ok(TIMEOUT)
  {
    ConfirmExactly(src, dst);
    ConfirmExactly(dst, src);
  }

  /** A FLUSHING end is still sent CONFIRM after its own upgrade has timed out at a counterparty
      in FLUSHCOMPLETE: that timeout no longer matters, since the counterparty flushed in time. */
  lemma ConfirmDespiteOwnTimeout(src: View, dst: View)
    requires src.Valid() && dst.Valid() && src.fin.St() == FLUSHING && dst.fin.St() == FLUSHCOMPLETE
    requires AlreadyTimedOut(dst, src) && !AlreadyTimedOut(src, dst) && CanTransitionToFlushComplete(src)
    ensures ActionFor(src, dst) == Ok(CONFIRM)
  {
  }
}
