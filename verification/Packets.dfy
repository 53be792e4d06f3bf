/** Lists of packets, what is left to relay of them, and which have timed out. */
module Packets {
  import opened Wrappers
  import opened Heights

  /** The zero height and the zero timestamp mean that the bound is not set. */
  datatype Packet = Packet(sequence: Uint64, timeoutHeight: Height, timeoutTimestamp: Uint64,
                           data: string, acknowledgement: string, eventHeight: Height)

  // ------------------------------------------------------------------ selecting

  function Select<T>(xs: seq<T>, keep: T -> bool): seq<T> {
    if xs == [] then []
    else Select(xs[..|xs| - 1], keep) + if keep(xs[|xs| - 1]) then [xs[|xs| - 1]] else []
  }

  lemma SelectSnoc<T>(xs: seq<T>, x: T, keep: T -> bool)
    ensures Select(xs + [x], keep) == Select(xs, keep) + if keep(x) then [x] else []
  {
    assert (xs + [x])[..|xs|] == xs;
  }

  lemma {:induction false} SelectAppend<T>(x: seq<T>, y: seq<T>, keep: T -> bool)
    ensures Select(x + y, keep) == Select(x, keep) + Select(y, keep)
  {
    if y == [] {
      assert x + y == x;
    } else {
      assert (x + y)[..|x + y| - 1] == x + y[..|y| - 1];
      SelectAppend(x, y[..|y| - 1], keep);
    }
  }

  lemma {:induction false} SelectMembers<T>(xs: seq<T>, keep: T -> bool)
    ensures forall x :: x in Select(xs, keep) <==> x in xs && keep(x)
  {
    if xs == [] {
    } else {
      SelectMembers(xs[..|xs| - 1], keep);
      assert xs == xs[..|xs| - 1] + [xs[|xs| - 1]];
    }
  }

  /** `sel` are the elements of `xs` that meet the condition, each from its own position in `at`
      and in the order of the list. */
  predicate Positions<T(==)>(xs: seq<T>, keep: T -> bool, sel: seq<T>, at: seq<nat>) {
    && |at| == |sel|
    && (forall k :: 0 <= k < |at| ==> at[k] < |xs| && keep(xs[at[k]]) && sel[k] == xs[at[k]])
    && (forall j, k :: 0 <= j < k < |at| ==> at[j] < at[k])
    && forall i :: 0 <= i < |xs| && keep(xs[i]) ==> i in at
  }

  lemma PositionsStep<T>(xs: seq<T>, keep: T -> bool, sel: seq<T>, at: seq<nat>, x: T)
    requires Positions(xs, keep, sel, at)
    ensures !keep(x) ==> Positions(xs + [x], keep, sel, at)
    ensures keep(x) ==> Positions(xs + [x], keep, sel + [x], at + [|xs|])
  {
    var more := at + [|xs|];
    assert forall i :: i in at ==> i in more;
    assert more[|at|] == |xs|;
  }

  lemma {:induction false} SelectExactly<T>(xs: seq<T>, keep: T -> bool) returns (at: seq<nat>)
    ensures Positions(xs, keep, Select(xs, keep), at)
  {
    if xs == [] {
      at := [];
    } else {
      var n := |xs| - 1;
      at := SelectExactly(xs[..n], keep);
      PositionsStep(xs[..n], keep, Select(xs[..n], keep), at, xs[n]);
      assert xs[..n] + [xs[n]] == xs;
      if keep(xs[n]) { at := at + [n]; }
    }
  }

  function Both<T>(f: T -> bool, g: T -> bool): T -> bool { (x: T) => f(x) && g(x) }

  lemma SelectStep<T>(xs: seq<T>, f: T -> bool)
    requires xs != []
    ensures var front, last := xs[..|xs| - 1], xs[|xs| - 1];
            && (f(last) ==> Select(xs, f) == Select(front, f) + [last])
            && (!f(last) ==> Select(xs, f) == Select(front, f))
            && (f(last) ==> multiset(Select(xs, f)) == multiset(Select(front, f)) + multiset{last})
  {
  }

  lemma {:induction false} SelectTwice<T>(xs: seq<T>, f: T -> bool, g: T -> bool)
    ensures Select(Select(xs, f), g) == Select(xs, Both(f, g))
  {
    if xs == [] {
    } else {
      var front, last := xs[..|xs| - 1], xs[|xs| - 1];
      SelectTwice(front, f, g);
      SelectStep(xs, f);
      SelectStep(xs, Both(f, g));
      if f(last) { SelectSnoc(Select(front, f), last, g); }
    }
  }

  lemma {:induction false} SelectSame<T>(xs: seq<T>, f: T -> bool, g: T -> bool)
    requires forall x :: x in xs ==> f(x) == g(x)
    ensures Select(xs, f) == Select(xs, g)
  {
    if xs == [] {
    } else {
      assert forall x :: x in xs[..|xs| - 1] ==> x in xs;
      SelectSame(xs[..|xs| - 1], f, g);
    }
  }

  function Not<T>(f: T -> bool): T -> bool { (x: T) => !f(x) }

  lemma {:induction false} SelectSplit<T>(xs: seq<T>, f: T -> bool)
    ensures multiset(xs) == multiset(Select(xs, f)) + multiset(Select(xs, Not(f)))
  {
    if xs == [] {
    } else {
      var front, last := xs[..|xs| - 1], xs[|xs| - 1];
      assert xs == front + [last];
      SelectSplit(front, f);
      SelectStep(xs, f);
      SelectStep(xs, Not(f));
    }
  }

  /** Conditions of which each element meets exactly one split a list without loss. */
  lemma SelectPartition<T>(xs: seq<T>, f: T -> bool, g: T -> bool, h: T -> bool)
    requires forall x :: x in xs ==> (f(x) && !g(x) && !h(x)) || (!f(x) && g(x) && !h(x)) || (!f(x) && !g(x) && h(x))
    ensures multiset(xs) == multiset(Select(xs, f)) + multiset(Select(xs, g)) + multiset(Select(xs, h))
  {
    var rest := Select(xs, Not(f));
    SelectSplit(xs, f);
    SelectSplit(rest, g);
    SelectTwice(xs, Not(f), g);
    SelectTwice(xs, Not(f), Not(g));
    SelectSame(xs, Both(Not(f), g), g);
    SelectSame(xs, Both(Not(f), Not(g)), h);
  }

  // ------------------------------------------------------------------ packet lists

  function Sequences(ps: seq<Packet>): (r: seq<Uint64>)
    ensures |r| == |ps| && forall i :: 0 <= i < |ps| ==> r[i] == ps[i].sequence
  {
    seq(|ps|, i requires 0 <= i < |ps| => ps[i].sequence)
  }

  method ExtractSequenceList(ps: seq<Packet>) returns (seqs: seq<Uint64>)
    ensures seqs == Sequences(ps)
  {
    seqs := [];
    for i := 0 to |ps|
      invariant seqs == Sequences(ps[..i])
    {
      seqs := seqs + [ps[i].sequence];
    }
    assert ps[..|ps|] == ps;
  }

  function Listed(seqs: seq<Uint64>): Packet -> bool { (p: Packet) => p.sequence in seqs }

  function Unlisted(seqs: seq<Uint64>): Packet -> bool { (p: Packet) => p.sequence !in seqs }

  /** The packets whose sequence is not listed. */
  method Subtract(ps: seq<Packet>, seqs: seq<Uint64>) returns (ret: seq<Packet>)
    ensures ret == Select(ps, Unlisted(seqs)) && forall p :: p in ret <==> p in ps && p.sequence !in seqs
  {
    ret := [];
    label out: for i := 0 to |ps|
      invariant ret == Select(ps[..i], Unlisted(seqs))
    {
      assert ps[..i + 1][..i] == ps[..i];
      for j := 0 to |seqs|
        invariant ps[i].sequence !in seqs[..j]
      {
        if ps[i].sequence == seqs[j] { continue out; }
      }
      assert seqs[..|seqs|] == seqs;
      ret := ret + [ps[i]];
    }
    assert ps[..|ps|] == ps;
    SelectMembers(ps, Unlisted(seqs));
  }

  /** The packets whose sequence is listed; a packet is kept once even if it is listed twice. */
  method Filter(ps: seq<Packet>, seqs: seq<Uint64>) returns (ret: seq<Packet>)
    ensures ret == Select(ps, Listed(seqs)) && forall p :: p in ret <==> p in ps && p.sequence in seqs
  {
    ret := [];
    for i := 0 to |ps|
      invariant ret == Select(ps[..i], Listed(seqs))
    {
      assert ps[..i + 1][..i] == ps[..i];
      var found := false;
      for j := 0 to |seqs|
        invariant !found && ps[i].sequence !in seqs[..j]
      {
        if ps[i].sequence == seqs[j] {
          found := true;
          break;
        }
      }
      assert seqs[..|seqs|] == seqs;
      if found { ret := ret + [ps[i]]; }
    }
    assert ps[..|ps|] == ps;
    SelectMembers(ps, Listed(seqs));
  }

  /** Filter and Subtract split every list, whatever sequences are given. */
  lemma FilterSubtractPartition(ps: seq<Packet>, seqs: seq<Uint64>)
    ensures var kept := Select(ps, Listed(seqs));
            var rest := Select(ps, Unlisted(seqs));
            multiset(ps) == multiset(kept) + multiset(rest)
  {
    SelectSplit(ps, Listed(seqs));
    SelectSame(ps, Not(Listed(seqs)), Unlisted(seqs));
  }

  // ------------------------------------------------------------------ discovery

  /** A chain's answer at a height at which it has these receipts. */
  function QueryUnreceivedPackets(seqs: seq<Uint64>, receipts: set<Uint64>): seq<Uint64> {
    Select(seqs, s => s !in receipts)
  }

  function Unreceived(receipts: set<Uint64>): Packet -> bool { (p: Packet) => p.sequence !in receipts }

  /** One direction of UnrelayedPackets: the packets committed at the sender's finalized height,
      less those received at the receiver's finalized height (by the chain), less those received
      at its latest height. */
  method UnrelayedPackets(committed: seq<Packet>, finalized: set<Uint64>, latest: set<Uint64>,
                          includeRelayedButUnfinalized: bool) returns (packets: seq<Packet>)
    ensures packets == if includeRelayedButUnfinalized then Select(committed, Unreceived(finalized))
                       else Select(committed, Unreceived(finalized + latest))
    ensures forall p :: p in packets <==>
              && p in committed && p.sequence !in finalized
              && (includeRelayedButUnfinalized || p.sequence !in latest)
  {
    var list := ExtractSequenceList(committed);
    packets := Filter(committed, QueryUnreceivedPackets(list, finalized));
    Answered(committed, finalized);
    if !includeRelayedButUnfinalized {
      ghost var before := packets;
      list := ExtractSequenceList(packets);
      packets := Filter(packets, QueryUnreceivedPackets(list, latest));
      Answered(before, latest);
      UnreceivedTwice(committed, finalized, latest);
    }
    SelectMembers(committed, Unreceived(finalized));
    SelectMembers(committed, Unreceived(finalized + latest));
  }

  lemma UnreceivedTwice(ps: seq<Packet>, a: set<Uint64>, b: set<Uint64>)
    ensures Select(Select(ps, Unreceived(a)), Unreceived(b)) == Select(ps, Unreceived(a + b))
  {
    SelectTwice(ps, Unreceived(a), Unreceived(b));
    SelectSame(ps, Both(Unreceived(a), Unreceived(b)), Unreceived(a + b));
  }

  lemma Answered(ps: seq<Packet>, receipts: set<Uint64>)
    ensures Select(ps, Listed(QueryUnreceivedPackets(Sequences(ps), receipts))) == Select(ps, Unreceived(receipts))
  {
    SelectMembers(Sequences(ps), s => s !in receipts);
    forall p | p in ps ensures p.sequence in Sequences(ps) {
      var i :| 0 <= i < |ps| && ps[i] == p;
      assert Sequences(ps)[i] == p.sequence;
    }
    SelectSame(ps, Listed(QueryUnreceivedPackets(Sequences(ps), receipts)), Unreceived(receipts));
  }

  /** When receipts only grow, what is discovered is exactly, and in order, what is committed
      and not received at the latest height. */
  lemma DiscoveryRefines(committed: seq<Packet>, finalized: set<Uint64>, latest: set<Uint64>)
    requires finalized <= latest
    ensures Select(Select(committed, Unreceived(finalized)), Unreceived(latest))
              == Select(committed, Unreceived(latest))
  {
    UnreceivedTwice(committed, finalized, latest);
    assert finalized + latest == latest;
  }

  // ------------------------------------------------------------------ timeouts

  datatype Clock = Clock(height: Height, time: Uint64) {
    predicate AtMost(other: Clock) { !other.height.Less(height) && time <= other.time }
  }

  predicate IsTimeout(p: Packet, now: Clock) {
    || (p.timeoutHeight != ZERO_HEIGHT && !now.height.Less(p.timeoutHeight))
    || (p.timeoutTimestamp != 0 && p.timeoutTimestamp <= now.time)
  }

  /** A bound that is set is reached at its own value: a height of the same revision from the bound
      on, a later revision, a timestamp from the bound on.  Without bounds there is no timeout. */
  lemma TimeoutExactly(p: Packet, now: Clock)
    ensures IsTimeout(p, now) <==>
              || (p.timeoutHeight.revision + p.timeoutHeight.height > 0
                  && (now.height.revision > p.timeoutHeight.revision
                      || (now.height.revision == p.timeoutHeight.revision
                          && now.height.height >= p.timeoutHeight.height)))
              || (p.timeoutTimestamp > 0 && now.time >= p.timeoutTimestamp)
  {
  }

  function TimedOut(now: Clock): Packet -> bool { (p: Packet) => IsTimeout(p, now) }

  /** Timed out at neither clock. */
  function Relayable(finalized: Clock, latest: Clock): Packet -> bool {
    (p: Packet) => !IsTimeout(p, finalized) && !IsTimeout(p, latest)
  }

  /** Timed out, but not provably yet. */
  function HeldBack(finalized: Clock, latest: Clock): Packet -> bool {
    (p: Packet) => !IsTimeout(p, finalized) && IsTimeout(p, latest)
  }

  function InTime(now: Clock): Packet -> bool { (p: Packet) => !IsTimeout(p, now) }

  lemma TimeoutPersists(p: Packet, earlier: Clock, later: Clock)
    requires earlier.AtMost(later) && IsTimeout(p, earlier)
    ensures IsTimeout(p, later)
  {
  }

  /** What one chain answers about its clocks and its next receive sequence at the finalized
      height (`None` when that query fails). */
  datatype Receiver = Receiver(finalized: Clock, latest: Clock, nextReceive: Option<Uint64>)

  /** The outcome of a classification.  Unordered: every packet by its own timeout.  Ordered:
      relay the longest prefix without a timeout; time out only the first packet, and only if
      the receiver expects it next. */
  predicate Classified(ordered: bool, packets: seq<Packet>, r: Receiver, relay: seq<Packet>, timeout: seq<Packet>) {
    if ordered then
      && relay <= packets
      && (forall i :: 0 <= i < |relay| ==> Relayable(r.finalized, r.latest)(packets[i]))
      && (|relay| < |packets| ==> !Relayable(r.finalized, r.latest)(packets[|relay|]))
      && timeout == if packets != [] && IsTimeout(packets[0], r.finalized) && r.nextReceive == Some(packets[0].sequence)
                    then [packets[0]] else []
    else
      && relay == Select(packets, Relayable(r.finalized, r.latest))
      && timeout == Select(packets, TimedOut(r.finalized))
  }

  /** Classify the packets sent to one chain. */
  method Classify(ordered: bool, packets: seq<Packet>, r: Receiver) returns (relay: seq<Packet>, timeout: seq<Packet>)
    ensures Classified(ordered, packets, r, relay, timeout)
  {
    relay, timeout := [], [];
    for i := 0 to |packets|
      invariant !ordered ==>
        && relay == Select(packets[..i], Relayable(r.finalized, r.latest))
        && timeout == Select(packets[..i], TimedOut(r.finalized))
      invariant ordered ==> relay == packets[..i] && timeout == []
      invariant ordered ==> forall j :: 0 <= j < i ==> Relayable(r.finalized, r.latest)(packets[j])
    {
      var p := packets[i];
      assert packets[..i + 1][..i] == packets[..i];
      if IsTimeout(p, r.finalized) {
        if ordered {
          if i == 0 {
            if r.nextReceive == Some(p.sequence) { timeout := [p]; }
          }
          break;
        } else {
          timeout := timeout + [p];
        }
      } else if IsTimeout(p, r.latest) {
        if ordered { break; }
      } else {
        relay := relay + [p];
      }
    }
    assert packets[..|packets|] == packets;
  }

  /** Packets of a round, by the side they were sent from. */
  class RelayPackets {
    var src: seq<Packet>
    var dst: seq<Packet>
    var srcTimeout: seq<Packet>
    var dstTimeout: seq<Packet>

    constructor (src: seq<Packet>, dst: seq<Packet>)
      ensures this.src == src && this.dst == dst && srcTimeout == [] && dstTimeout == []
    {
      this.src, this.dst, srcTimeout, dstTimeout := src, dst, [], [];
    }
  }

  /** Each direction by the order configured for its sender and the receiver's clocks. */
  method ProcessTimeoutPackets(rp: RelayPackets, srcOrdered: bool, dstOrdered: bool, src: Receiver, dst: Receiver)
    modifies rp
    ensures Classified(srcOrdered, old(rp.src), dst, rp.src, rp.srcTimeout)
    ensures Classified(dstOrdered, old(rp.dst), src, rp.dst, rp.dstTimeout)
  {
    var srcPackets, srcTimeout := Classify(srcOrdered, rp.src, dst);
    var dstPackets, dstTimeout := Classify(dstOrdered, rp.dst, src);
    rp.src, rp.dst, rp.srcTimeout, rp.dstTimeout := srcPackets, dstPackets, srcTimeout, dstTimeout;
  }

  /** Unordered: when the finalized clock is not ahead of the latest, every packet goes to
      exactly one of relay, timeout and held back. */
  lemma UnorderedPartition(packets: seq<Packet>, r: Receiver, relay: seq<Packet>, timeout: seq<Packet>)
    requires r.finalized.AtMost(r.latest) && Classified(false, packets, r, relay, timeout)
    ensures var held := Select(packets, HeldBack(r.finalized, r.latest));
            multiset(packets) == multiset(relay) + multiset(timeout) + multiset(held)
    ensures relay == Select(packets, InTime(r.latest))
    ensures forall p :: p in relay ==> p !in timeout
  {
    var a, b := Relayable(r.finalized, r.latest), TimedOut(r.finalized);
    SelectPartition(packets, a, b, HeldBack(r.finalized, r.latest));
    forall p | p in packets ensures a(p) == InTime(r.latest)(p) {
      if IsTimeout(p, r.finalized) { TimeoutPersists(p, r.finalized, r.latest); }
    }
    SelectSame(packets, a, InTime(r.latest));
    SelectMembers(packets, a);
    SelectMembers(packets, b);
  }

  predicate NoTimeouts(packets: seq<Packet>, r: Receiver) {
    forall i :: 0 <= i < |packets| ==> !IsTimeout(packets[i], r.finalized) && !IsTimeout(packets[i], r.latest)
  }

  /** Unordered, whatever the clocks: a packet is timed out by the finalized clock, relayed if
      neither clock has reached its timeout, and otherwise left for a later round. */
  lemma UnorderedMembers(packets: seq<Packet>, r: Receiver, relay: seq<Packet>, timeout: seq<Packet>)
    requires Classified(false, packets, r, relay, timeout)
    ensures forall p :: p in timeout <==> p in packets && IsTimeout(p, r.finalized)
    ensures forall p :: p in relay <==> p in packets && !IsTimeout(p, r.finalized) && !IsTimeout(p, r.latest)
  {
    SelectMembers(packets, TimedOut(r.finalized));
    SelectMembers(packets, Relayable(r.finalized, r.latest));
  }

  /** Ordered: the packets up to the first timeout are relayed.  The first packet alone can be
      timed out, exactly when the finalized clock has reached its timeout and the receiver
      expects it next, and then nothing is relayed. */
  lemma OrderedExclusive(packets: seq<Packet>, r: Receiver, relay: seq<Packet>, timeout: seq<Packet>)
    requires Classified(true, packets, r, relay, timeout)
    ensures timeout == (if packets != [] && IsTimeout(packets[0], r.finalized)
                           && r.nextReceive == Some(packets[0].sequence) then packets[..1] else [])
    ensures relay == [] || timeout == []
    ensures relay <= packets && NoTimeouts(relay, r)
    ensures forall prefix :: prefix <= packets && NoTimeouts(prefix, r) ==> prefix <= relay
  {
    assert NoTimeouts(relay, r);
    forall prefix | prefix <= packets && NoTimeouts(prefix, r) ensures prefix <= relay {
      if |prefix| > |relay| {
        PrefixElement(prefix, packets, r, |relay|);
        assert false;
      }
    }
  }

  lemma PrefixElement(prefix: seq<Packet>, packets: seq<Packet>, r: Receiver, k: int)
    requires prefix <= packets && NoTimeouts(prefix, r) && 0 <= k < |prefix|
    ensures Relayable(r.finalized, r.latest)(packets[k])
  {
  }
}
