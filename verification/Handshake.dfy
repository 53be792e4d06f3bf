/** The opening handshake of a connection (ICS 3) or a channel (ICS 4): what a chain stores for
    its ends, its handlers, and the relayer's decision for one step. */
module Handshake {
  import opened Wrappers

  datatype Kind = CONNECTION | CHANNEL

  datatype State = UNINITIALIZED | INIT | TRYOPEN | OPEN | CLOSED

  /** One end; `cp` is the counterparty's identifier, empty when it is not known yet. */
  datatype End = End(state: State, cp: string)

  const NO_END := End(UNINITIALIZED, "")

  /** The ends a chain stores at some height, by identifier. */
  type Store = map<string, End>

  datatype Act = OpenInit | OpenTry | OpenAck | OpenConfirm

  /** A client update with the other chain's header of a height, or a handshake message; `own` and
      `cp` are the identifiers that one carries, empty where it carries none. */
  datatype Msg = UpdateClient(height: nat) | Open(act: Act, own: string, cp: string)

  datatype RelayMsgs = RelayMsgs(src: seq<Msg>, dst: seq<Msg>, last: bool) {
    predicate Ready() { |src| > 0 || |dst| > 0 }
  }

  /** The panic for a pair of states the relayer has no message for. */
  datatype Failure = NotImplemented(src: State, dst: State)

  /** What the relayer sees of one chain: the path's identifier and the ends stored at the
      finalized height and at the latest height. */
  datatype View = View(id: string, fin: Store, latest: Store) {
    function Fin(): End { Read(fin, id) }
    predicate Settled() { Fin() == Read(latest, id) }
  }

  /** An empty identifier, and one the chain does not know at that height, read as
      UNINITIALIZED. */
  function Read(store: Store, id: string): End {
    if id != "" && id in store then store[id] else NO_END
  }

  // ------------------------------------------------------------------ handlers

  /** The handlers: `ev` is the counterparty store that the message's proof refers to, `newId`
      the identifier the chain generates for a new end. */
  function Handle(store: Store, m: Msg, ev: Store, newId: string): Option<Store> {
    match m
    case UpdateClient(_) => Some(store)
    case Open(OpenInit, _, _) => Some(store[newId := End(INIT, "")])
    case Open(OpenTry, _, cp) =>
      if Read(ev, cp) == End(INIT, "") then Some(store[newId := End(TRYOPEN, cp)]) else None
    case Open(OpenAck, own, cp) =>
      if Read(store, own).state == INIT && Read(ev, cp) == End(TRYOPEN, own)
      then Some(store[own := End(OPEN, cp)]) else None
    case Open(OpenConfirm, own, _) =>
      var me := Read(store, own);
      if me.state == TRYOPEN && Read(ev, me.cp) == End(OPEN, own) then Some(store[own := me.(state := OPEN)])
      else None
  }

  // ------------------------------------------------------------------ the decision

  /** What a chain in state `me` is to be sent; both ends UNINITIALIZED is decided apart. */
  function ActFor(me: State, cp: State): Option<Act> {
    if me == UNINITIALIZED && cp == INIT then Some(OpenTry)
    else if me == INIT && cp == TRYOPEN then Some(OpenAck)
    else if me == TRYOPEN && cp == OPEN then Some(OpenConfirm)
    else None
  }

  function MsgFor(act: Act, own: string, cp: string): Msg {
    match act
    case OpenInit => Open(OpenInit, "", "")
    case OpenTry => Open(OpenTry, "", cp)
    case OpenAck => Open(OpenAck, own, cp)
    case OpenConfirm => Open(OpenConfirm, own, "")
  }

  function Updates(headers: seq<nat>): (msgs: seq<Msg>)
    ensures |msgs| == |headers| && forall i :: 0 <= i < |msgs| ==> msgs[i] == UpdateClient(headers[i])
  {
    seq(|headers|, i requires 0 <= i < |headers| => UpdateClient(headers[i]))
  }

  /** The messages of a step.  `fromSrc` and `fromDst` are the headers with which the other
      chain's client is updated. */
  function Plan(kind: Kind, src: View, dst: View, fromSrc: seq<nat>, fromDst: seq<nat>): Result<RelayMsgs, Failure> {
    if !src.Settled() || !dst.Settled() then Ok(RelayMsgs([], [], false))
    else
      var s, d := src.Fin().state, dst.Fin().state;
      if s == UNINITIALIZED && d == UNINITIALIZED then
        Ok(RelayMsgs((if kind == CONNECTION then Updates(fromDst) else []) + [MsgFor(OpenInit, "", "")], [], false))
      else if ActFor(s, d).Some? then
        var act := ActFor(s, d).value;
        Ok(RelayMsgs(Updates(fromDst) + [MsgFor(act, src.id, dst.id)], [], act == OpenConfirm))
      else if ActFor(d, s).Some? then
        var act := ActFor(d, s).value;
        Ok(RelayMsgs([], Updates(fromSrc) + [MsgFor(act, dst.id, src.id)], act == OpenConfirm))
      else Err(NotImplemented(s, d))
  }

  /** The step: the state pair selects the messages to assemble, their headers are fetched,
      then the destination's messages are assembled before the source's. */
  method CreateStep(kind: Kind, src: View, dst: View, fromSrc: seq<nat>, fromDst: seq<nat>)
    returns (out: Result<RelayMsgs, Failure>)
    ensures out == Plan(kind, src, dst, fromSrc, fromDst)
  {
    if !src.Settled() || !dst.Settled() {
      return Ok(RelayMsgs([], [], false));
    }
    var s, d := src.Fin().state, dst.Fin().state;
    var srcFuture, dstFuture: seq<Act> := [], [];
    match (s, d) {
      case (UNINITIALIZED, UNINITIALIZED) => srcFuture := srcFuture + [OpenInit];
      case (UNINITIALIZED, INIT) => srcFuture := srcFuture + [OpenTry];
      case (INIT, UNINITIALIZED) => dstFuture := dstFuture + [OpenTry];
      case (TRYOPEN, INIT) => dstFuture := dstFuture + [OpenAck];
      case (INIT, TRYOPEN) => srcFuture := srcFuture + [OpenAck];
      case (TRYOPEN, OPEN) => srcFuture := srcFuture + [OpenConfirm];
      case (OPEN, TRYOPEN) => dstFuture := dstFuture + [OpenConfirm];
      case _ => return Err(NotImplemented(s, d));
    }
    var msgs := RelayMsgs([], [], false);
    if |dstFuture| > 0 {
      msgs := msgs.(dst := Updates(fromSrc) + [MsgFor(dstFuture[0], dst.id, src.id)],
                    last := msgs.last || dstFuture[0] == OpenConfirm);
    }
    if |srcFuture| > 0 {
      var headers := if kind == CHANNEL && srcFuture[0] == OpenInit then [] else fromDst;
      msgs := msgs.(src := Updates(headers) + [MsgFor(srcFuture[0], src.id, dst.id)],
                    last := msgs.last || srcFuture[0] == OpenConfirm);
    }
    return Ok(msgs);
  }

  // ------------------------------------------------------------------ the ideal handshake

  /** How far a handshake is; `initiator` is the side that was sent OpenInit. */
  datatype Stage =
    | Fresh
    | Started(initiator: Side)
    | Tried(initiator: Side)
    | Acked(initiator: Side)
    | Opened
    | Broken

  function StageOf(src: State, dst: State): Stage {
    match (src, dst)
    case (UNINITIALIZED, UNINITIALIZED) => Fresh
    case (INIT, UNINITIALIZED) => Started(Src)
    case (UNINITIALIZED, INIT) => Started(Dst)
    case (INIT, TRYOPEN) => Tried(Src)
    case (TRYOPEN, INIT) => Tried(Dst)
    case (OPEN, TRYOPEN) => Acked(Src)
    case (TRYOPEN, OPEN) => Acked(Dst)
    case (OPEN, OPEN) => Opened
    case _ => Broken
  }

  datatype Sent = Sent(side: Side, act: Act)

  /** The whole handshake, started on side `i`. */
  function Script(i: Side): seq<Sent> {
    [Sent(i, OpenInit), Sent(i.Other(), OpenTry), Sent(i, OpenAck), Sent(i.Other(), OpenConfirm)]
  }

  /** The messages the handshake still needs, in order. */
  function Remaining(stage: Stage): seq<Sent> {
    match stage
    case Fresh => Script(Src)
    case Started(i) => Script(i)[1..]
    case Tried(i) => Script(i)[2..]
    case Acked(i) => Script(i)[3..]
    case Opened => []
    case Broken => []
  }

  function Last<T>(s: seq<T>): T
    requires |s| > 0
  {
    s[|s| - 1]
  }

  /** A step waits exactly when an end is not settled, panics exactly when the settled pair is
      not one of the seven, and otherwise sends to one chain only, first the client updates with
      all headers of the other chain (a channel's OpenInit proves nothing and goes without), then
      the next message of the handshake; it is the last step exactly when that message is the only
      one the handshake still needs. */
  lemma PlanSendsTheNextMessage(kind: Kind, src: View, dst: View, fromSrc: seq<nat>, fromDst: seq<nat>)
    ensures var stage := StageOf(src.Fin().state, dst.Fin().state);
            var settled := src.Settled() && dst.Settled();
            match Plan(kind, src, dst, fromSrc, fromDst)
            case Err(e) => settled && (stage == Broken || stage == Opened)
            case Ok(m) =>
              && (!m.Ready() <==> !settled)
              && (settled ==>
                   var todo := Remaining(stage);
                   && |todo| > 0 && (m.last <==> |todo| == 1)
                   && var side := todo[0].side;
                      var msgs := if side == Src then m.src else m.dst;
                      var own := if side == Src then src.id else dst.id;
                      var cp := if side == Src then dst.id else src.id;
                      var headers := if kind == CHANNEL && todo[0].act == OpenInit then []
                                     else if side == Src then fromDst else fromSrc;
                      && (if side == Src then m.dst else m.src) == []
                      && |msgs| == |headers| + 1 && Last(msgs) == MsgFor(todo[0].act, own, cp)
                      && forall i :: 0 <= i < |headers| ==> msgs[i] == UpdateClient(headers[i]))
  {
  }
}
