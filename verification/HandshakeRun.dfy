/** Runs of the create loop: two growing chains with lagging finality, other users of the
    chains, and the relayer deciding, sending and recording the generated identifiers. */
module HandshakeRun {
  import opened Wrappers
  import opened Handshake
  import PathConfig

  /** A chain's history, its finalized height, the path's configuration for it, and the heights of
      the other chain that its client knows and can verify proofs for. */
  datatype Chain = Chain(blocks: seq<Store>, fin: nat, ids: PathConfig.Ids, known: set<nat>) {
    predicate Valid() { fin < |blocks| }

    function Latest(): Store
      requires Valid()
    { blocks[|blocks| - 1] }

    function Id(kind: Kind): string { if kind == CONNECTION then ids.connection else ids.channel }

    function ViewOf(kind: Kind): View
      requires Valid()
    { View(Id(kind), blocks[fin], Latest()) }

    /** The path's own end at the latest height. */
    function Own(kind: Kind): End
      requires Valid()
    { Read(Latest(), Id(kind)) }
  }

  /** A step's messages under way to one chain; its proofs refer to `proofHeight` of the other. */
  datatype Sending = Sending(side: Side, headers: seq<nat>, msg: Msg, proofHeight: nat, last: bool)

  datatype Status = Running | Created | Failed | Panicked

  datatype Sys = Sys(kind: Kind, src: Chain, dst: Chain, sending: Option<Sending>,
                     failures: nat, status: Status, executed: seq<Sent>) {
    predicate Valid() { src.Valid() && dst.Valid() }

    function At(side: Side): Chain { if side == Src then src else dst }

    function With(side: Side, c: Chain): Sys { if side == Src then this.(src := c) else this.(dst := c) }

    function Stage(): Stage
      requires Valid()
    { StageOf(src.Own(kind).state, dst.Own(kind).state) }
  }

  datatype Step =
    | NewBlock(side: Side, store: Store, learned: set<nat>)
    | Finalize(side: Side, height: nat)
    | Decide(fromSrc: seq<nat>, fromDst: seq<nat>)
    | Deliver(newId: string)
      // SendMsgs reports an error and nothing was executed
    | SendFails
      // SendMsgs reports an error although the messages were executed
    | LostReport(newId: string)

  /** What the chain reports about the executed messages: a generated identifier for OpenInit
      and OpenTry, nothing of interest for the others. */
  function EventsOf(kind: Kind, m: Msg, newId: string): seq<PathConfig.Event> {
    match m
    case UpdateClient(_) => [PathConfig.OtherEvent]
    case Open(act, _, _) =>
      if act == OpenInit || act == OpenTry then
        [if kind == CONNECTION then PathConfig.GenerateConnectionIdentifier(newId)
         else PathConfig.GenerateChannelIdentifier(newId)]
      else [PathConfig.OtherEvent]
  }

  function ResultsOf(kind: Kind, m: Sending, newId: string): seq<Option<Option<PathConfig.MsgResult>>> {
    var update := Some(Some(PathConfig.MsgResult(true, [PathConfig.OtherEvent])));
    seq(|m.headers|, _ => update) + [Some(Some(PathConfig.MsgResult(true, EventsOf(kind, m.msg, newId))))]
  }

  /** The other users of a chain never remove an end and never touch the path's own. */
  predicate LeavesOwn(c: Chain, kind: Kind, store: Store)
    requires c.Valid()
  {
    c.Latest().Keys <= store.Keys && Read(store, c.Id(kind)) == c.Own(kind)
  }

  predicate NewName(c: Chain, id: string)
    requires c.Valid()
  {
    id != "" && id !in c.Latest()
  }

  /** The heights that the client knows once the updates under way are executed. */
  function KnownAfter(c: Chain, m: Sending): set<nat> { c.known + set h | h in m.headers }

  predicate NeedsProof(m: Msg) { m.Open? && m.act != OpenInit }

  /** The store after the messages under way; `None` when the chain rejects them.  A proof can
      only be verified at a height that the client knows. */
  function Executed(s: Sys, newId: string): Option<Store>
    requires s.Valid() && s.sending.Some?
  {
    var m := s.sending.value;
    var me, cp := s.At(m.side), s.At(m.side.Other());
    if m.proofHeight < |cp.blocks| && (NeedsProof(m.msg) ==> m.proofHeight in KnownAfter(me, m))
    then Handle(me.Latest(), m.msg, cp.blocks[m.proofHeight], newId) else None
  }

  function Grow(c: Chain, store: Store, known: set<nat>): Chain { c.(blocks := c.blocks + [store], known := known) }

  /** The third consecutive failure ends the loop. */
  function AfterFailure(s: Sys): Sys {
    s.(sending := None, failures := s.failures + 1, status := if s.failures + 1 > 2 then Failed else s.status)
  }

  /** A success writes the identifiers into the configuration and resets the counter. */
  function AfterSuccess(s: Sys, store: Store, newId: string): Sys
    requires s.Valid() && s.sending.Some?
  {
    var m := s.sending.value;
    var c := s.At(m.side);
    var ids := PathConfig.AfterMsgs(c.ids, ResultsOf(s.kind, m, newId)).0;
    s.With(m.side, Grow(c, store, KnownAfter(c, m)).(ids := ids))
     .(sending := None, status := if m.last then Created else s.status,
       failures := if m.last then s.failures else 0,
       executed := s.executed + if m.msg.Open? then [Sent(m.side, m.msg.act)] else [])
  }

  function HeightsOf(msgs: seq<Msg>): seq<nat> {
    seq(|msgs|, i requires 0 <= i < |msgs| => if msgs[i].UpdateClient? then msgs[i].height else 0)
  }

  function AfterDecision(s: Sys, fromSrc: seq<nat>, fromDst: seq<nat>): Sys
    requires s.Valid()
  {
    var plan := Plan(s.kind, s.src.ViewOf(s.kind), s.dst.ViewOf(s.kind), fromSrc, fromDst);
    if plan.Err? then s.(status := Panicked)
    else if !plan.value.Ready() then s
    else
      var m := plan.value;
      var side := if |m.src| > 0 then Src else Dst;
      var msgs := if |m.src| > 0 then m.src else m.dst;
      s.(sending := Some(Sending(side, HeightsOf(msgs[..|msgs| - 1]), Handshake.Last(msgs),
                                 s.At(side.Other()).fin, m.last)))
  }

  /** The light client's contract for the headers of a chain: the header of its finalized height
      comes last, or there are none and the other chain's client knows that height already. */
  predicate HeadersFor(headers: seq<nat>, fin: nat, known: set<nat>) {
    if headers == [] then fin in known else headers[|headers| - 1] == fin
  }

  predicate HeadersAnswered(s: Sys, fromSrc: seq<nat>, fromDst: seq<nat>) {
    HeadersFor(fromSrc, s.src.fin, s.dst.known) && HeadersFor(fromDst, s.dst.fin, s.src.known)
  }

  /** The step panics before it asks for headers. */
  predicate Panics(s: Sys)
    requires s.Valid()
  {
    Plan(s.kind, s.src.ViewOf(s.kind), s.dst.ViewOf(s.kind), [], []).Err?
  }

  predicate Enabled(s: Sys, step: Step)
    requires s.Valid()
  {
    match step
    case NewBlock(side, store, _) => LeavesOwn(s.At(side), s.kind, store)
    case Finalize(side, height) => s.At(side).fin <= height < |s.At(side).blocks|
    case Decide(fromSrc, fromDst) =>
      && s.status == Running && s.sending.None? && (HeadersAnswered(s, fromSrc, fromDst) || Panics(s))
    case Deliver(newId) => s.sending.Some? && NewName(s.At(s.sending.value.side), newId)
    case SendFails => s.sending.Some?
    case LostReport(newId) => s.sending.Some? && NewName(s.At(s.sending.value.side), newId)
  }

  /** The next state; a step that is not possible changes nothing. */
  function Next(s: Sys, step: Step): Sys
    requires s.Valid()
  {
    if !Enabled(s, step) then s else
    match step
    case NewBlock(side, store, learned) =>
      s.With(side, Grow(s.At(side), store, s.At(side).known + learned))
    case Finalize(side, height) => s.With(side, s.At(side).(fin := height))
    case Decide(fromSrc, fromDst) => AfterDecision(s, fromSrc, fromDst)
    case Deliver(newId) =>
      var store := Executed(s, newId);
      if store.None? then AfterFailure(s) else AfterSuccess(s, store.value, newId)
    case SendFails => AfterFailure(s)
    case LostReport(newId) =>
      var store := Executed(s, newId);
      var m := s.sending.value;
      AfterFailure(if store.None? then s
                   else s.With(m.side, Grow(s.At(m.side), store.value, KnownAfter(s.At(m.side), m))))
  }

  function Run(s: Sys, steps: seq<Step>): Sys
    requires s.Valid()
    ensures Run(s, steps).Valid()
    decreases |steps|
  {
    if steps == [] then s else Run(Next(s, steps[0]), steps[1..])
  }
}
