/** Safety and completion of the create loop over all runs. */
module HandshakeSafety {
  import opened Wrappers
  import opened Handshake
  import opened HandshakeRun
  import PathConfig

  // ------------------------------------------------------------------ invariants

  /** The configured identifier is set exactly when the end exists, and the end names the
      other side's configured end from OpenTry on. */
  predicate CoupledEnd(e: End, id: string, cpId: string) {
    && (id == "" <==> e.state == UNINITIALIZED)
    && (e.state == INIT ==> e.cp == "")
    && (e.state == TRYOPEN || e.state == OPEN ==> e.cp == cpId)
  }

  predicate CoupledChains(c: Chain, cp: Chain, kind: Kind)
    requires c.Valid()
  {
    CoupledEnd(c.Own(kind), c.Id(kind), cp.Id(kind))
  }

  predicate Coupled(s: Sys) {
    && s.Valid() && s.Stage() != Broken
    && CoupledChains(s.src, s.dst, s.kind) && CoupledChains(s.dst, s.src, s.kind)
  }

  /** Whatever is under way is the next message of the handshake, its evidence is still what the
      counterparty stores, and the client knows the height of its proof or is updated to it. */
  predicate NextIsSent(s: Sys)
    requires s.Valid()
  {
    s.sending.Some? ==>
      var m := s.sending.value;
      var todo := Remaining(s.Stage());
      var me, cp := s.At(m.side), s.At(m.side.Other());
      && s.status == Running && |todo| > 0
      && todo[0].side == m.side && m.msg == MsgFor(todo[0].act, me.Id(s.kind), cp.Id(s.kind))
      && m.last == (|todo| == 1)
      && m.proofHeight < |cp.blocks| && Read(cp.blocks[m.proofHeight], cp.Id(s.kind)) == cp.Own(s.kind)
      && (NeedsProof(m.msg) ==> m.proofHeight in KnownAfter(me, m))
  }

  predicate Inv(s: Sys) {
    && Coupled(s) && NextIsSent(s)
    && (s.status == Running ==> s.failures <= 2)
    && (s.status == Created || s.status == Panicked ==> s.Stage() == Opened)
  }

  /** The handshake has not finished behind the relayer's back. */
  predicate Clean(s: Sys)
    requires s.Valid()
  {
    s.Stage() == Opened <==> s.status == Created
  }

  /** The one event that can: OpenConfirm is executed, but reported as failed. */
  predicate LosesConfirm(s: Sys, step: Step) {
    step.LostReport? && s.sending.Some? && s.sending.value.last
  }

  predicate NeverLosesConfirm(s: Sys, steps: seq<Step>)
    requires s.Valid()
    decreases |steps|
  {
    steps == [] || (!LosesConfirm(s, steps[0]) && NeverLosesConfirm(Next(s, steps[0]), steps[1..]))
  }

  predicate Faithful(steps: seq<Step>) { forall i :: 0 <= i < |steps| ==> !steps[i].LostReport? }

  // ------------------------------------------------------------------ recording identifiers

  lemma {:induction false} UpdatesSetNothing(ids: PathConfig.Ids, msgs: seq<Option<Option<PathConfig.MsgResult>>>)
    requires forall i :: 0 <= i < |msgs| ==> msgs[i] == Some(Some(PathConfig.MsgResult(true, [PathConfig.OtherEvent])))
    ensures PathConfig.AfterMsgs(ids, msgs) == (ids, None)
    decreases |msgs|
  {
    if msgs == [] {
    } else {
      assert PathConfig.Apply(ids, map[]) == ids;
      assert PathConfig.AfterEvents(ids, [PathConfig.OtherEvent]) == (ids, None);
      UpdatesSetNothing(ids, msgs[1..]);
    }
  }

  predicate Generates(m: Msg) { m.Open? && (m.act == OpenInit || m.act == OpenTry) }

  function WithId(kind: Kind, ids: PathConfig.Ids, id: string): PathConfig.Ids {
    if kind == CONNECTION then ids.(connection := id) else ids.(channel := id)
  }

  /** A successful send never fails to be recorded; it sets the identifier of a generated end
      and nothing else. */
  lemma Recorded(kind: Kind, ids: PathConfig.Ids, m: Sending, newId: string)
    ensures PathConfig.AfterMsgs(ids, ResultsOf(kind, m, newId))
              == (if Generates(m.msg) then WithId(kind, ids, newId) else ids, None)
  {
    var events := EventsOf(kind, m.msg, newId);
    var last := [Some(Some(PathConfig.MsgResult(true, events)))];
    var updates := ResultsOf(kind, m, newId)[..|m.headers|];
    assert ResultsOf(kind, m, newId) == updates + last;
    UpdatesSetNothing(ids, updates);
    PathConfig.AfterMsgsSplit(ids, updates, last);
    var kv := PathConfig.Entries(events[0]);
    assert PathConfig.AfterEvents(ids, events) == (PathConfig.Apply(ids, kv.value), None);
    assert last[1..] == [];
    assert PathConfig.AfterMsgs(ids, last) == (PathConfig.Apply(ids, kv.value), None);
  }

  // ------------------------------------------------------------------ one message

  function StageAt(side: Side, mine: State, theirs: State): Stage {
    if side == Src then StageOf(mine, theirs) else StageOf(theirs, mine)
  }

  /** What the path's end on the receiving chain becomes. */
  function Advanced(e: End, act: Act, cpId: string): End {
    match act
    case OpenInit => End(INIT, "")
    case OpenTry => End(TRYOPEN, cpId)
    case OpenAck => End(OPEN, cpId)
    case OpenConfirm => e.(state := OPEN)
  }

  /** The next message of the handshake moves a coupled pair one stage on. */
  lemma AdvancedCoupled(side: Side, e: End, id: string, f: End, cpId: string, act: Act, newId: string)
    requires CoupledEnd(e, id, cpId) && CoupledEnd(f, cpId, id) && newId != ""
    requires var todo := Remaining(StageAt(side, e.state, f.state)); |todo| > 0 && todo[0] == Sent(side, act)
    ensures var e' := Advanced(e, act, cpId);
            var id' := if act == OpenInit || act == OpenTry then newId else id;
            && CoupledEnd(e', id', cpId) && CoupledEnd(f, cpId, id')
            && StageAt(side, e'.state, f.state) != Broken
            && Remaining(StageAt(side, e'.state, f.state)) == Remaining(StageAt(side, e.state, f.state))[1..]
  {
  }

  /** The receiving chain accepts that message and stores the end under the right identifier;
      a generated end leaves the one configured so far alone. */
  lemma HandledNext(side: Side, store: Store, id: string, ev: Store, cpId: string, act: Act, newId: string)
    requires var e, f := Read(store, id), Read(ev, cpId);
             && CoupledEnd(e, id, cpId) && CoupledEnd(f, cpId, id)
             && var todo := Remaining(StageAt(side, e.state, f.state)); |todo| > 0 && todo[0] == Sent(side, act)
    requires newId != "" && newId !in store
    ensures var next := Handle(store, MsgFor(act, id, cpId), ev, newId);
            && next.Some?
            && Read(next.value, if act == OpenInit || act == OpenTry then newId else id)
                 == Advanced(Read(store, id), act, cpId)
            && (act == OpenInit || act == OpenTry ==> Read(next.value, id) == Read(store, id))
            && store.Keys <= next.value.Keys
  {
  }

  lemma CoupledSides(s: Sys, side: Side)
    requires s.Valid()
    ensures var me, cp := s.At(side), s.At(side.Other());
            && s.Stage() == StageAt(side, me.Own(s.kind).state, cp.Own(s.kind).state)
            && (Coupled(s) <==> CoupledChains(me, cp, s.kind) && CoupledChains(cp, me, s.kind) && s.Stage() != Broken)
  {
  }

  /** What is known of the message under way, from the receiving side. */
  lemma Receiving(s: Sys, newId: string) returns (me: Chain, cp: Chain, act: Act, next: Store)
    requires Inv(s) && s.sending.Some? && NewName(s.At(s.sending.value.side), newId)
    ensures var m := s.sending.value;
            && me == s.At(m.side) && cp == s.At(m.side.Other()) && m.msg.Open? && m.msg.act == act
            && |Remaining(s.Stage())| > 0 && Remaining(s.Stage())[0] == Sent(m.side, act)
            && Executed(s, newId) == Some(next)
            && Read(next, if Generates(m.msg) then newId else me.Id(s.kind))
                 == Advanced(me.Own(s.kind), act, cp.Id(s.kind))
            && (Generates(m.msg) ==> Read(next, me.Id(s.kind)) == me.Own(s.kind))
  {
    var m := s.sending.value;
    me, cp, act := s.At(m.side), s.At(m.side.Other()), m.msg.act;
    CoupledSides(s, m.side);
    HandledNext(m.side, me.Latest(), me.Id(s.kind), cp.blocks[m.proofHeight], cp.Id(s.kind), act, newId);
    next := Executed(s, newId).value;
  }

  // ------------------------------------------------------------------ one step

  /** A successful send, spelled out for the receiving side. */
  lemma DeliverShape(s: Sys, newId: string)
    requires s.Valid() && s.sending.Some? && NewName(s.At(s.sending.value.side), newId) && Executed(s, newId).Some?
    ensures var t := Next(s, Deliver(newId));
            var m := s.sending.value;
            var me := s.At(m.side);
            && t.At(m.side).blocks == me.blocks + [Executed(s, newId).value]
            && t.At(m.side).Id(s.kind) == (if Generates(m.msg) then newId else me.Id(s.kind))
            && t.At(m.side.Other()) == s.At(m.side.Other())
            && t.kind == s.kind && t.sending.None?
            && t.status == (if m.last then Created else s.status)
            && (m.last || t.failures == 0)
            && t.executed == s.executed + if m.msg.Open? then [Sent(m.side, m.msg.act)] else []
  {
    Recorded(s.kind, s.At(s.sending.value.side).ids, s.sending.value, newId);
  }

  /** A message under way is accepted whenever it arrives: its evidence is still what the other
      chain stores, and its end has not moved. */
  lemma NextIsAccepted(s: Sys, newId: string)
    requires Inv(s) && s.sending.Some? && NewName(s.At(s.sending.value.side), newId)
    ensures Executed(s, newId).Some?
  {
    var me, cp, act, next := Receiving(s, newId);
  }

  lemma DeliverCoupled(s: Sys, newId: string)
    requires Inv(s) && s.sending.Some? && NewName(s.At(s.sending.value.side), newId)
    ensures var t := Next(s, Deliver(newId));
            && Coupled(t) && Remaining(t.Stage()) == Remaining(s.Stage())[1..]
            && t.executed == s.executed + [Remaining(s.Stage())[0]]
            && t.sending.None? && (t.status == Created <==> |Remaining(s.Stage())| == 1)
            && (t.status == Created || (t.status == Running && t.failures == 0))
  {
    var me, cp, act, next := Receiving(s, newId);
    var m := s.sending.value;
    DeliverShape(s, newId);
    CoupledAfter(s, Next(s, Deliver(newId)), m, me, cp, newId);
  }

  /** The receiving end `me` became `t.At(m.side)`. */
  lemma CoupledAfter(s: Sys, t: Sys, m: Sending, me: Chain, cp: Chain, newId: string)
    requires Coupled(s) && t.Valid() && t.kind == s.kind && newId != ""
    requires me == s.At(m.side) && cp == s.At(m.side.Other()) && cp == t.At(m.side.Other()) && m.msg.Open?
    requires |Remaining(s.Stage())| > 0 && Remaining(s.Stage())[0] == Sent(m.side, m.msg.act)
    requires t.At(m.side).Own(s.kind) == Advanced(me.Own(s.kind), m.msg.act, cp.Id(s.kind))
    requires t.At(m.side).Id(s.kind) == if Generates(m.msg) then newId else me.Id(s.kind)
    ensures Coupled(t) && Remaining(t.Stage()) == Remaining(s.Stage())[1..]
  {
    CoupledSides(s, m.side);
    AdvancedCoupled(m.side, me.Own(s.kind), me.Id(s.kind), cp.Own(s.kind), cp.Id(s.kind), m.msg.act, newId);
    CoupledSides(t, m.side);
  }

  lemma OpenedIsLast(stage: Stage)
    requires stage != Broken
    ensures stage == Opened <==> Remaining(stage) == []
  {
  }

  lemma InvBetweenSends(t: Sys, todo: seq<Sent>)
    requires Coupled(t) && t.sending.None? && |todo| > 0 && Remaining(t.Stage()) == todo[1..]
    requires t.status == Created ==> |todo| == 1
    requires t.status == Created || t.status == Failed || (t.status == Running && t.failures <= 2)
    ensures Inv(t) && ((t.status == Created <==> |todo| == 1) ==> Clean(t))
  {
    OpenedIsLast(t.Stage());
  }

  lemma DeliverInv(s: Sys, newId: string)
    requires Inv(s) && s.sending.Some? && NewName(s.At(s.sending.value.side), newId)
    ensures Inv(Next(s, Deliver(newId))) && Clean(Next(s, Deliver(newId)))
    ensures Next(s, Deliver(newId)).executed + Remaining(Next(s, Deliver(newId)).Stage())
              == s.executed + Remaining(s.Stage())
  {
    var todo := Remaining(s.Stage());
    DeliverCoupled(s, newId);
    InvBetweenSends(Next(s, Deliver(newId)), todo);
    assert todo == [todo[0]] + todo[1..];
  }

  lemma LostReportShape(s: Sys, newId: string)
    requires s.Valid() && s.sending.Some? && NewName(s.At(s.sending.value.side), newId) && Executed(s, newId).Some?
    ensures var t := Next(s, LostReport(newId));
            var m := s.sending.value;
            var me := s.At(m.side);
            && t.At(m.side) == Grow(me, Executed(s, newId).value, KnownAfter(me, m))
            && t.At(m.side.Other()) == s.At(m.side.Other())
            && t.kind == s.kind && t.sending.None? && t.executed == s.executed
            && t.status == (if s.failures < 2 then s.status else Failed)
            && t.failures == s.failures + 1
  {
  }

  /** An unreported message leaves an end nobody refers to, or (OpenAck, OpenConfirm) advances
      the path's own end. */
  lemma LostReportInv(s: Sys, newId: string)
    requires Inv(s) && s.sending.Some? && NewName(s.At(s.sending.value.side), newId)
    ensures var t := Next(s, LostReport(newId));
            && Inv(t) && t.executed == s.executed
            && t.status == (if s.failures < 2 then Running else Failed)
            && Remaining(t.Stage()) == (if Generates(s.sending.value.msg) then Remaining(s.Stage())
                                        else Remaining(s.Stage())[1..])
  {
    var me, cp, act, next := Receiving(s, newId);
    var m := s.sending.value;
    LostReportShape(s, newId);
    var t := Next(s, LostReport(newId));
    if Generates(m.msg) {
      CoupledSides(s, m.side);
      CoupledSides(t, m.side);
      InvBetweenSends(t, [Sent(m.side, act)] + Remaining(s.Stage()));
    } else {
      CoupledAfter(s, t, m, me, cp, newId);
      InvBetweenSends(t, Remaining(s.Stage()));
    }
  }

  lemma DecideInv(s: Sys, fromSrc: seq<nat>, fromDst: seq<nat>)
    requires Inv(s) && Enabled(s, Decide(fromSrc, fromDst))
    ensures Inv(Next(s, Decide(fromSrc, fromDst)))
    ensures Next(s, Decide(fromSrc, fromDst)).Stage() == s.Stage()
    ensures Next(s, Decide(fromSrc, fromDst)).executed == s.executed
    ensures Next(s, Decide(fromSrc, fromDst)).status == Panicked <==>
              s.Stage() == Opened && s.src.ViewOf(s.kind).Settled() && s.dst.ViewOf(s.kind).Settled()
  {
    PlanSendsTheNextMessage(s.kind, s.src.ViewOf(s.kind), s.dst.ViewOf(s.kind), fromSrc, fromDst);
    DecisionKnown(s, fromSrc, fromDst);
  }

  /** The headers of a decision make the height of its proof known. */
  lemma DecisionKnown(s: Sys, fromSrc: seq<nat>, fromDst: seq<nat>)
    requires s.Valid() && Enabled(s, Decide(fromSrc, fromDst))
    ensures var t := Next(s, Decide(fromSrc, fromDst));
            t.sending.Some? ==>
              var m := t.sending.value;
              NeedsProof(m.msg) ==> m.proofHeight in KnownAfter(s.At(m.side), m)
  {
    PlanSendsTheNextMessage(s.kind, s.src.ViewOf(s.kind), s.dst.ViewOf(s.kind), fromSrc, fromDst);
    var t := Next(s, Decide(fromSrc, fromDst));
    if t.sending.Some? {
      var m := t.sending.value;
      var headers := if m.side == Src then fromDst else fromSrc;
      if NeedsProof(m.msg) && headers != [] {
        assert m.headers[|headers| - 1] == headers[|headers| - 1];
        assert headers[|headers| - 1] in m.headers;
      }
    }
  }

  /** Other users and finality change neither what the path's own ends are nor the evidence of
      a message under way. */
  lemma EnvironmentInv(s: Sys, step: Step)
    requires Inv(s) && Enabled(s, step) && (step.NewBlock? || step.Finalize?)
    ensures Inv(Next(s, step)) && Next(s, step).Stage() == s.Stage()
    ensures var t := Next(s, step);
            && t.status == s.status && t.executed == s.executed && t.sending == s.sending && t.failures == s.failures
  {
    var t := Next(s, step);
    var side := step.side;
    var c, d := s.At(side), t.At(side);
    assert d.Own(s.kind) == c.Own(s.kind) && d.Id(s.kind) == c.Id(s.kind) && t.At(side.Other()) == s.At(side.Other());
    assert c.blocks <= d.blocks && c.known <= d.known;
    CoupledSides(s, side);
    CoupledSides(t, side);
    NextIsSentKept(s, t, side);
  }

  lemma NextIsSentKept(s: Sys, t: Sys, side: Side)
    requires s.Valid() && t.Valid() && NextIsSent(s) && t.Stage() == s.Stage()
    requires t.kind == s.kind && t.status == s.status && t.sending == s.sending
    requires t.At(side.Other()) == s.At(side.Other()) && s.At(side).blocks <= t.At(side).blocks
    requires s.At(side).known <= t.At(side).known
    requires t.At(side).Own(s.kind) == s.At(side).Own(s.kind) && t.At(side).Id(s.kind) == s.At(side).Id(s.kind)
    ensures NextIsSent(t)
  {
  }

  lemma NextInv(s: Sys, step: Step)
    requires Inv(s)
    ensures Inv(Next(s, step))
    ensures Clean(s) && !LosesConfirm(s, step) ==> Clean(Next(s, step))
    ensures !step.LostReport? ==>
              Next(s, step).executed + Remaining(Next(s, step).Stage()) == s.executed + Remaining(s.Stage())
  {
    if Enabled(s, step) {
      match step
      case NewBlock(_, _, _) => EnvironmentInv(s, step);
      case Finalize(_, _) => EnvironmentInv(s, step);
      case Decide(fromSrc, fromDst) => DecideInv(s, fromSrc, fromDst);
      case Deliver(newId) => DeliverInv(s, newId);
      case SendFails =>
      case LostReport(newId) => LostReportInv(s, newId);
    }
  }

  // ------------------------------------------------------------------ all runs

  /** Safety.  As long as no executed OpenConfirm is reported as failed, the panic is
      unreachable, the identifiers stay coupled with the chains, the next message is always
      one the chain accepts, and the loop reports success exactly when both ends are OPEN. */
  lemma {:induction false} HandshakeSafe(s: Sys, steps: seq<Step>)
    requires Inv(s) && Clean(s) && NeverLosesConfirm(s, steps)
    ensures var t := Run(s, steps);
            && Inv(t) && t.status != Panicked
            && (t.status == Created <==> t.Stage() == Opened)
    decreases |steps|
  {
    if steps == [] {
    } else {
      NextInv(s, steps[0]);
      HandshakeSafe(Next(s, steps[0]), steps[1..]);
    }
  }

  /** With truthful reports, whatever the delays, failures and other users: the messages
      executed so far, followed by those the handshake still needs, are at every moment the
      same sequence.  From two UNINITIALIZED ends that is Init, Try, Ack, Confirm. */
  lemma {:induction false} ExecutedInOrder(s: Sys, steps: seq<Step>)
    requires Inv(s) && Faithful(steps)
    ensures Run(s, steps).executed + Remaining(Run(s, steps).Stage()) == s.executed + Remaining(s.Stage())
    decreases |steps|
  {
    if steps == [] {
    } else {
      assert !steps[0].LostReport?;
      NextInv(s, steps[0]);
      ExecutedInOrder(Next(s, steps[0]), steps[1..]);
    }
  }

  lemma {:induction false} FaithfulNeverLoses(s: Sys, steps: seq<Step>)
    requires s.Valid() && Faithful(steps)
    ensures NeverLosesConfirm(s, steps)
    decreases |steps|
  {
    if steps == [] {
    } else {
      assert !steps[0].LostReport?;
      FaithfulNeverLoses(Next(s, steps[0]), steps[1..]);
    }
  }

  /** A new path: nothing configured, nothing sent. */
  predicate NewPath(s: Sys) {
    && s.Valid() && s.src.Id(s.kind) == "" && s.dst.Id(s.kind) == ""
    && s.sending.None? && s.failures == 0 && s.status == Running && s.executed == []
  }

  lemma NewPathInv(s: Sys)
    requires NewPath(s)
    ensures Inv(s) && Clean(s) && s.Stage() == Fresh
  {
  }

  lemma OpenedNames(t: Sys)
    requires Inv(t) && t.Stage() == Opened
    ensures t.src.Own(t.kind) == End(OPEN, t.dst.Id(t.kind)) && t.dst.Own(t.kind) == End(OPEN, t.src.Id(t.kind))
  {
  }

  /** From a new path: each of the four messages is executed at most once and in order, the
      loop ends in success exactly after the fourth, and the two ends then name each other. */
  lemma NewPathHandshake(s: Sys, steps: seq<Step>)
    requires NewPath(s) && Faithful(steps)
    ensures var t := Run(s, steps);
            && t.Valid() && t.executed <= Script(Src) && t.status != Panicked
            && (t.status == Created <==> t.executed == Script(Src))
            && (t.status == Created ==>
                  && t.src.Own(t.kind) == End(OPEN, t.dst.Id(t.kind))
                  && t.dst.Own(t.kind) == End(OPEN, t.src.Id(t.kind)))
  {
    NewPathInv(s);
    FaithfulNeverLoses(s, steps);
    HandshakeSafe(s, steps);
    ExecutedInOrder(s, steps);
    var t := Run(s, steps);
    OpenedIsLast(t.Stage());
    ExecutedAll(t.executed, Remaining(t.Stage()));
    if t.status == Created { OpenedNames(t); }
  }

  lemma ExecutedAll(done: seq<Sent>, left: seq<Sent>)
    requires done + left == [] + Remaining(Fresh)
    ensures done <= Script(Src) && (done == Script(Src) <==> left == [])
  {
    assert [] + Remaining(Fresh) == Script(Src);
    assert |done| + |left| == 4 && done == Script(Src)[..|done|];
  }

  // ------------------------------------------------------------------ the lost confirmation

  /** After a lost OpenConfirm the loop can only wait, panic or give up: it never reports the
      success that happened. */
  lemma {:induction false} OpenedUnseen(s: Sys, steps: seq<Step>)
    requires Inv(s) && s.Stage() == Opened && s.status != Created
    ensures Run(s, steps).status != Created && Run(s, steps).executed == s.executed
    decreases |steps|
  {
    if steps == [] {
    } else {
      NextInv(s, steps[0]);
      assert s.sending.None?;
      if Enabled(s, steps[0]) && (steps[0].NewBlock? || steps[0].Finalize?) { EnvironmentInv(s, steps[0]); }
      if Enabled(s, steps[0]) && steps[0].Decide? { DecideInv(s, steps[0].fromSrc, steps[0].fromDst); }
      OpenedUnseen(Next(s, steps[0]), steps[1..]);
    }
  }

  lemma LostConfirmOpens(s: Sys, newId: string)
    requires Inv(s) && s.sending.Some? && s.sending.value.last
    requires NewName(s.At(s.sending.value.side), newId)
    ensures var t := Next(s, LostReport(newId));
            Inv(t) && t.Stage() == Opened && t.status == if s.failures < 2 then Running else Failed
  {
    LostReportInv(s, newId);
    OpenedIsLast(Next(s, LostReport(newId)).Stage());
  }

  /** Both chains' histories become final. */
  function Finalized(s: Sys): Sys
    requires s.Valid()
  {
    var u := Next(s, Finalize(Src, |s.src.blocks| - 1));
    Next(u, Finalize(Dst, |u.dst.blocks| - 1))
  }

  lemma FinalizeAll(s: Sys, side: Side)
    requires Inv(s)
    ensures var t := Next(s, Finalize(side, |s.At(side).blocks| - 1));
            && Inv(t) && t.Stage() == s.Stage() && t.kind == s.kind
            && t.status == s.status && t.sending == s.sending && t.executed == s.executed && t.failures == s.failures
            && t.At(side).ViewOf(s.kind).Settled() && t.At(side.Other()) == s.At(side.Other())
            && t.At(side).blocks == s.At(side).blocks
  {
    EnvironmentInv(s, Finalize(side, |s.At(side).blocks| - 1));
  }

  lemma FinalizedShape(s: Sys)
    requires s.Valid()
    ensures Finalized(s) == s.(src := s.src.(fin := |s.src.blocks| - 1), dst := s.dst.(fin := |s.dst.blocks| - 1))
  {
  }

  lemma FinalizedSettles(s: Sys)
    requires Inv(s)
    ensures var v := Finalized(s);
            && Inv(v) && v.Stage() == s.Stage() && v.src.ViewOf(v.kind).Settled() && v.dst.ViewOf(v.kind).Settled()
            && v.status == s.status && v.sending == s.sending && v.executed == s.executed && v.failures == s.failures
            && v.src.Latest() == s.src.Latest() && v.dst.Latest() == s.dst.Latest()
  {
    FinalizedShape(s);
    FinalizeAll(s, Src);
    FinalizeAll(Next(s, Finalize(Src, |s.src.blocks| - 1)), Dst);
  }

  lemma OpenedPanics(t: Sys, fromSrc: seq<nat>, fromDst: seq<nat>)
    requires Inv(t) && t.Stage() == Opened && t.status == Running
    ensures Next(Finalized(t), Decide(fromSrc, fromDst)).status == Panicked
  {
    FinalizedSettles(t);
    OpenedIsLast(t.Stage());
    OpenedPlanPanics(Finalized(t));
    DecideInv(Finalized(t), fromSrc, fromDst);
  }

  lemma OpenedPlanPanics(v: Sys)
    requires v.Valid() && v.Stage() == Opened
    requires v.src.ViewOf(v.kind).Settled() && v.dst.ViewOf(v.kind).Settled()
    ensures Panics(v)
  {
    PlanSendsTheNextMessage(v.kind, v.src.ViewOf(v.kind), v.dst.ViewOf(v.kind), [], []);
  }

  /** The condition on lost confirmations is exact.  Losing one opens both ends; if it was the
      third failure in a row the loop gives up, and otherwise it panics as soon as both ends are
      settled. */
  lemma LostConfirmPanics(s: Sys, newId: string, fromSrc: seq<nat>, fromDst: seq<nat>)
    requires Inv(s) && s.sending.Some? && s.sending.value.last
    requires NewName(s.At(s.sending.value.side), newId)
    ensures var t := Next(s, LostReport(newId));
            && t.Stage() == Opened
            && (if s.failures < 2 then Next(Finalized(t), Decide(fromSrc, fromDst)).status == Panicked
                else t.status == Failed)
  {
    LostConfirmOpens(s, newId);
    if s.failures < 2 { OpenedPanics(Next(s, LostReport(newId)), fromSrc, fromDst); }
  }

  // ------------------------------------------------------------------ completion

  /** One undisturbed round: finality catches up, the relayer decides with the headers of the
      finalized heights, the message arrives. */
  function Round(s: Sys, newId: string): Sys
    requires s.Valid()
  {
    var v := Finalized(s);
    Next(Next(v, Decide([v.src.fin], [v.dst.fin])), Deliver(newId))
  }

  function Rounds(s: Sys, newIds: seq<string>): Sys
    requires s.Valid()
    decreases |newIds|
  {
    if newIds == [] then s else Rounds(Round(s, newIds[0]), newIds[1..])
  }

  lemma RoundAdvances(s: Sys, newId: string) returns (t: Sys)
    requires Inv(s) && Clean(s) && s.status == Running && s.sending.None?
    requires NewName(s.src, newId) && NewName(s.dst, newId)
    ensures t == Round(s, newId)
    ensures Inv(t) && Clean(t) && t.sending.None? && (t.status == Running || t.status == Created)
    ensures |Remaining(s.Stage())| > 0 && |Remaining(t.Stage())| == |Remaining(s.Stage())| - 1
  {
    FinalizedSettles(s);
    OpenedIsLast(s.Stage());
    var v := Finalized(s);
    var u := Next(v, Decide([v.src.fin], [v.dst.fin]));
    DecideInv(v, [v.src.fin], [v.dst.fin]);
    DecidedSends(v);
    DeliverCoupled(u, newId);
    DeliverInv(u, newId);
    t := Next(u, Deliver(newId));
  }

  lemma DecidedSends(v: Sys)
    requires Inv(v) && v.status == Running && v.sending.None? && v.Stage() != Opened
    requires v.src.ViewOf(v.kind).Settled() && v.dst.ViewOf(v.kind).Settled()
    ensures var u := Next(v, Decide([v.src.fin], [v.dst.fin])); u.sending.Some? && u.src == v.src && u.dst == v.dst
  {
    PlanSendsTheNextMessage(v.kind, v.src.ViewOf(v.kind), v.dst.ViewOf(v.kind), [v.src.fin], [v.dst.fin]);
  }

  lemma {:induction false} NameBeyond(names: set<string>) returns (n: nat)
    ensures forall x :: x in names ==> |x| <= n
  {
    if names == {} { return 0; }
    var y :| y in names;
    n := NameBeyond(names - {y});
    if n < |y| { n := |y|; }
  }

  lemma NewNameExists(s: Sys) returns (id: string)
    requires s.Valid()
    ensures NewName(s.src, id) && NewName(s.dst, id)
  {
    var n := NameBeyond(s.src.Latest().Keys + s.dst.Latest().Keys);
    id := seq(n + 1, _ => 'x');
    assert |id| == n + 1;
    assert id !in s.src.Latest().Keys + s.dst.Latest().Keys;
  }

  /** No state of the loop is a dead end: between sends, undisturbed rounds complete the
      handshake, as many as it still needs messages. */
  lemma {:induction false} HandshakeCompletes(s: Sys) returns (newIds: seq<string>)
    requires Inv(s) && Clean(s) && s.status == Running && s.sending.None?
    ensures Rounds(s, newIds).status == Created && |newIds| == |Remaining(s.Stage())|
    decreases |Remaining(s.Stage())|
  {
    var newId := NewNameExists(s);
    var t := RoundAdvances(s, newId);
    OpenedIsLast(t.Stage());
    newIds := [];
    if t.status == Running {
      newIds := HandshakeCompletes(t);
    }
    assert ([newId] + newIds)[1..] == newIds;
    newIds := [newId] + newIds;
  }
}
