/** The path configuration and how it follows the events of the messages that were sent. */
module PathConfig {
  import opened Wrappers

  datatype Key = ClientID | ConnectionID | ChannelID | Order | Version

  datatype Order = ORDERED | UNORDERED | NONE

  /** An on-chain channel as the upgrade event's query returns it. */
  datatype UpgradedChannel = UpgradedChannel(upgradeSequence: nat, connectionHops: seq<string>,
                                             ordering: Order, version: string)

  datatype Event =
    | GenerateClientIdentifier(id: string)
    | GenerateConnectionIdentifier(id: string)
    | GenerateChannelIdentifier(id: string)
    | UpgradeChannel(upgradeSequence: nat, queried: Option<UpgradedChannel>)
    | OtherEvent

  /** The result of a message: `None` when it cannot be fetched. */
  datatype MsgResult = MsgResult(ok: bool, events: seq<Event>)

  datatype Failure =
    | ResultNotFound
    | ExecutionFailed
    | ChannelNotFound
    | SequenceMismatch
    | UnexpectedHops
    | UnexpectedOrdering

  /** The identifiers of one end of a path; the empty string stands for "not set". */
  datatype Ids = Ids(client: string, connection: string, channel: string, order: string, version: string)

  function Apply(ids: Ids, kv: map<Key, string>): Ids {
    Ids(if ClientID in kv then kv[ClientID] else ids.client,
        if ConnectionID in kv then kv[ConnectionID] else ids.connection,
        if ChannelID in kv then kv[ChannelID] else ids.channel,
        if Order in kv then kv[Order] else ids.order,
        if Version in kv then kv[Version] else ids.version)
  }

  /** The entries one event sets; an event that sets none is skipped. */
  function Entries(event: Event): Result<map<Key, string>, Failure> {
    match event
    case GenerateClientIdentifier(id) => Ok(map[ClientID := id])
    case GenerateConnectionIdentifier(id) => Ok(map[ConnectionID := id])
    case GenerateChannelIdentifier(id) => Ok(map[ChannelID := id])
    case UpgradeChannel(sequence, queried) =>
      if queried.None? then Err(ChannelNotFound)
      else
        var c := queried.value;
        if c.upgradeSequence != sequence then Err(SequenceMismatch)
        else if |c.connectionHops| != 1 then Err(UnexpectedHops)
        else if c.ordering == NONE then Err(UnexpectedOrdering)
        else Ok(map[ConnectionID := c.connectionHops[0],
                    Order := if c.ordering == ORDERED then "ordered" else "unordered",
                    Version := c.version])
    case OtherEvent => Ok(map[])
  }

  /** All events of a message in order, up to the first failure. */
  function AfterEvents(ids: Ids, events: seq<Event>): (Ids, Option<Failure>)
    decreases |events|
  {
    if events == [] then (ids, None)
    else
      var kv := Entries(events[0]);
      if kv.Err? then (ids, Some(kv.error)) else AfterEvents(Apply(ids, kv.value), events[1..])
  }

  /** All messages in order; a nil message id is skipped. */
  function AfterMsgs(ids: Ids, msgs: seq<Option<Option<MsgResult>>>): (Ids, Option<Failure>)
    decreases |msgs|
  {
    if msgs == [] then (ids, None)
    else if msgs[0].None? then AfterMsgs(ids, msgs[1..])
    else if msgs[0].value.None? then (ids, Some(ResultNotFound))
    else if !msgs[0].value.value.ok then (ids, Some(ExecutionFailed))
    else
      var r := AfterEvents(ids, msgs[0].value.value.events);
      if r.1.Some? then r else AfterMsgs(r.0, msgs[1..])
  }

  lemma {:induction false} AfterEventsSplit(ids: Ids, x: seq<Event>, y: seq<Event>)
    ensures AfterEvents(ids, x + y) ==
              var r := AfterEvents(ids, x); if r.1.Some? then r else AfterEvents(r.0, y)
    decreases |x|
  {
    if x == [] {
      assert x + y == y;
    } else {
      assert (x + y)[1..] == x[1..] + y;
      var kv := Entries(x[0]);
      if kv.Ok? { AfterEventsSplit(Apply(ids, kv.value), x[1..], y); }
    }
  }

  lemma {:induction false} AfterMsgsSplit(ids: Ids, x: seq<Option<Option<MsgResult>>>,
                                          y: seq<Option<Option<MsgResult>>>)
    ensures AfterMsgs(ids, x + y) ==
              var r := AfterMsgs(ids, x); if r.1.Some? then r else AfterMsgs(r.0, y)
    decreases |x|
  {
    if x == [] {
      assert x + y == y;
    } else {
      assert (x + y)[1..] == x[1..] + y;
      if x[0].None? {
        AfterMsgsSplit(ids, x[1..], y);
      } else if x[0].value.Some? && x[0].value.value.ok {
        var r := AfterEvents(ids, x[0].value.value.events);
        if r.1.None? { AfterMsgsSplit(r.0, x[1..], y); }
      }
    }
  }

  /** What one event does to one end of the path: it sets the identifier it reports, or after an
      upgrade the queried connection, order and version; a failing one changes nothing. */
  lemma OneEvent(ids: Ids, event: Event)
    ensures AfterEvents(ids, [event]) ==
              match event
              case GenerateClientIdentifier(id) => (ids.(client := id), None)
              case GenerateConnectionIdentifier(id) => (ids.(connection := id), None)
              case GenerateChannelIdentifier(id) => (ids.(channel := id), None)
              case UpgradeChannel(n, None) => (ids, Some(ChannelNotFound))
              case UpgradeChannel(n, Some(c)) =>
                if c.upgradeSequence != n then (ids, Some(SequenceMismatch))
                else if |c.connectionHops| != 1 then (ids, Some(UnexpectedHops))
                else if c.ordering == NONE then (ids, Some(UnexpectedOrdering))
                else (ids.(connection := c.connectionHops[0], version := c.version,
                           order := if c.ordering == UNORDERED then "unordered" else "ordered"), None)
              case OtherEvent => (ids, None)
  {
    var kv := Entries(event);
    assert kv.Ok? ==> AfterEvents(ids, [event]) == AfterEvents(Apply(ids, kv.value), []);
  }

  /** What one message does: its events, unless it failed or cannot be found. */
  lemma OneMsg(ids: Ids, msg: Option<Option<MsgResult>>)
    ensures AfterMsgs(ids, [msg]) ==
              match msg
              case None => (ids, None)
              case Some(None) => (ids, Some(ResultNotFound))
              case Some(Some(res)) => if res.ok then AfterEvents(ids, res.events) else (ids, Some(ExecutionFailed))
  {
  }

  /** Does the event set the key? */
  predicate Sets(event: Event, k: Key) { Entries(event).Ok? && k in Entries(event).value }

  function Get(ids: Ids, k: Key): string {
    match k
    case ClientID => ids.client
    case ConnectionID => ids.connection
    case ChannelID => ids.channel
    case Order => ids.order
    case Version => ids.version
  }

  /** A key that no event sets keeps its value, whether or not an event fails. */
  lemma {:induction false} UnsetKeyKept(ids: Ids, events: seq<Event>, k: Key)
    requires forall i :: 0 <= i < |events| ==> !Sets(events[i], k)
    ensures Get(AfterEvents(ids, events).0, k) == Get(ids, k)
    decreases |events|
  {
    if events == [] {
    } else {
      var kv := Entries(events[0]);
      if kv.Ok? {
        assert !Sets(events[0], k);
        UnsetKeyKept(Apply(ids, kv.value), events[1..], k);
      }
    }
  }

  /** The last event that sets a key decides its value. */
  lemma LastEventWins(ids: Ids, before: seq<Event>, event: Event, after: seq<Event>, k: Key)
    requires AfterEvents(ids, before + [event] + after).1.None?
    requires Sets(event, k) && forall i :: 0 <= i < |after| ==> !Sets(after[i], k)
    ensures Get(AfterEvents(ids, before + [event] + after).0, k) == Entries(event).value[k]
  {
    AfterEventsSplit(ids, before + [event], after);
    AfterEventsSplit(ids, before, [event]);
    var mid := AfterEvents(ids, before).0;
    assert AfterEvents(mid, [event]).0 == Apply(mid, Entries(event).value);
    UnsetKeyKept(AfterEvents(ids, before + [event]).0, after, k);
  }

  /** The end of a path held in the configuration; it is updated in place. */
  class PathEnd {
    const chainID: string
    var ids: Ids

    constructor (chainID: string, ids: Ids)
      ensures this.chainID == chainID && this.ids == ids
    {
      this.chainID := chainID;
      this.ids := ids;
    }
  }

  function Set(ids: Ids, k: Key, v: string): Ids {
    match k
    case ClientID => ids.(client := v)
    case ConnectionID => ids.(connection := v)
    case ChannelID => ids.(channel := v)
    case Order => ids.(order := v)
    case Version => ids.(version := v)
  }

  /** Entries may be written one at a time, in any order. */
  lemma ApplyEntry(ids: Ids, kv: map<Key, string>, k: Key)
    requires k in kv
    ensures Apply(Set(ids, k, kv[k]), kv - {k}) == Apply(ids, kv)
  {
    var rest := kv - {k};
    assert forall j: Key :: j in rest <==> j in kv && j != k;
    assert forall j: Key :: j in rest ==> rest[j] == kv[j];
    match k
    case ClientID =>
    case ConnectionID =>
    case ChannelID =>
    case Order =>
    case Version =>
  }

  method SetEntries(start: Ids, kv: map<Key, string>) returns (ids: Ids)
    ensures ids == Apply(start, kv)
  {
    ids := start;
    var left := kv;
    while left != map[]
      invariant Apply(ids, left) == Apply(start, kv)
      decreases |left|
    {
      var k :| k in left;
      ApplyEntry(ids, left, k);
      ids := Set(ids, k, left[k]);
      left := left - {k};
    }
  }

  /** Overwrite the end of `chainID` with the entries. */
  method UpdatePathConfig(src: PathEnd, dst: PathEnd, chainID: string, kv: map<Key, string>) returns (found: bool)
    modifies src, dst
    ensures found <==> chainID == src.chainID || chainID == dst.chainID
    ensures chainID == src.chainID && src != dst ==> src.ids == Apply(old(src.ids), kv) && dst.ids == old(dst.ids)
    ensures chainID != src.chainID && src != dst ==>
              && src.ids == old(src.ids)
              && dst.ids == if chainID == dst.chainID then Apply(old(dst.ids), kv) else old(dst.ids)
  {
    if chainID != src.chainID && chainID != dst.chainID {
      return false;
    }
    var end := if chainID == src.chainID then src else dst;
    var ids := SetEntries(end.ids, kv);
    end.ids := ids;
    return true;
  }

  /** The end of `chainID`. */
  function EndOf(src: PathEnd, dst: PathEnd, chainID: string): PathEnd {
    if chainID == src.chainID then src else dst
  }

  /** Go through the results of the messages sent to one chain of the path.  The configuration
      is written event by event, so the entries before a failure stay. */
  method SyncChainConfigFromEvents(msgs: seq<Option<Option<MsgResult>>>, src: PathEnd, dst: PathEnd, chainID: string)
    returns (failure: Option<Failure>)
    requires src != dst && (chainID == src.chainID || chainID == dst.chainID)
    modifies src, dst
    ensures EndOf(src, dst, chainID).ids == AfterMsgs(old(EndOf(src, dst, chainID).ids), msgs).0
    ensures failure == AfterMsgs(old(EndOf(src, dst, chainID).ids), msgs).1
    ensures chainID == src.chainID ==> dst.ids == old(dst.ids)
    ensures chainID != src.chainID ==> src.ids == old(src.ids)
  {
    var end := EndOf(src, dst, chainID);
    ghost var start := end.ids;
    for i := 0 to |msgs|
      invariant AfterMsgs(start, msgs) == AfterMsgs(end.ids, msgs[i..])
      invariant if end == src then dst.ids == old(dst.ids) else src.ids == old(src.ids)
    {
      ghost var rest := msgs[i..];
      assert rest[0] == msgs[i] && rest[1..] == msgs[i + 1..];
      if msgs[i].None? { continue; }
      if msgs[i].value.None? { return Some(ResultNotFound); }
      var res := msgs[i].value.value;
      if !res.ok { return Some(ExecutionFailed); }
      ghost var before := end.ids;
      for j := 0 to |res.events|
        invariant AfterEvents(before, res.events) == AfterEvents(end.ids, res.events[j..])
        invariant if end == src then dst.ids == old(dst.ids) else src.ids == old(src.ids)
      {
        assert res.events[j..][0] == res.events[j] && res.events[j..][1..] == res.events[j + 1..];
        if res.events[j].OtherEvent? {
          assert Apply(end.ids, map[]) == end.ids;
          continue;
        }
        var kv := Entries(res.events[j]);
        if kv.Err? { return Some(kv.error); }
        var found := UpdatePathConfig(src, dst, chainID, kv.value);
      }
      assert res.events[|res.events|..] == [];
    }
    assert msgs[|msgs|..] == [];
    return None;
  }

  /** Source first; the destination is left alone when the source fails. */
  method SyncChainConfigsFromEvents(msgsSrc: seq<Option<Option<MsgResult>>>, msgsDst: seq<Option<Option<MsgResult>>>,
                                    src: PathEnd, dst: PathEnd) returns (failure: Option<Failure>)
    requires src != dst && src.chainID != dst.chainID
    modifies src, dst
    ensures src.ids == AfterMsgs(old(src.ids), msgsSrc).0
    ensures dst.ids == if AfterMsgs(old(src.ids), msgsSrc).1.Some? then old(dst.ids)
                       else AfterMsgs(old(dst.ids), msgsDst).0
    ensures failure == if AfterMsgs(old(src.ids), msgsSrc).1.Some? then AfterMsgs(old(src.ids), msgsSrc).1
                       else AfterMsgs(old(dst.ids), msgsDst).1
  {
    failure := SyncChainConfigFromEvents(msgsSrc, src, dst, src.chainID);
    if failure.Some? { return; }
    failure := SyncChainConfigFromEvents(msgsDst, src, dst, dst.chainID);
  }
}
