/** The backlog metrics: the packets in flight of one chain, and the counter of those that left. */
module Backlog {
  import opened Wrappers
  import opened Heights
  import opened Packets

  /** One chain's backlog and its counter of finally received packets. */
  class Metrics {
    var backlog: seq<Packet>
    var received: nat

    constructor ()
      ensures backlog == [] && received == 0
    {
      backlog, received := [], 0;
    }

    method Update(newBacklog: seq<Packet>)
      modifies this
      ensures backlog == newBacklog
      ensures received == old(received) + |Select(old(backlog), Unlisted(Sequences(newBacklog)))|
    {
      var seqs := ExtractSequenceList(newBacklog);
      var gone := Subtract(backlog, seqs);
      received := received + |gone|;
      backlog := newBacklog;
    }
  }

  // ------------------------------------------------------------------ rounds

  predicate Unique(ps: seq<Packet>) {
    forall i, j :: 0 <= i < j < |ps| ==> ps[i].sequence != ps[j].sequence
  }

  function SeqSet(ps: seq<Packet>): set<Uint64> { set i | 0 <= i < |ps| :: ps[i].sequence }

  /** The current backlog, the counter, and all sequences that were ever in a backlog. */
  datatype State = State(backlog: seq<Packet>, received: nat, seen: set<Uint64>)

  const START := State([], 0, {})

  function Next(s: State, newBacklog: seq<Packet>): State {
    State(newBacklog, s.received + |Select(s.backlog, Unlisted(Sequences(newBacklog)))|, s.seen + SeqSet(newBacklog))
  }

  function Run(s: State, rounds: seq<seq<Packet>>): State
    decreases |rounds|
  {
    if rounds == [] then s else Run(Next(s, rounds[0]), rounds[1..])
  }

  /** How often a packet came back after it had left the backlog. */
  function Returns(s: State, rounds: seq<seq<Packet>>): nat
    decreases |rounds|
  {
    if rounds == [] then 0
    else |SeqSet(rounds[0]) * (s.seen - SeqSet(s.backlog))| + Returns(Next(s, rounds[0]), rounds[1..])
  }

  method Record(rounds: seq<seq<Packet>>) returns (m: Metrics)
    ensures fresh(m) && m.backlog == Run(START, rounds).backlog && m.received == Run(START, rounds).received
  {
    m := new Metrics();
    ghost var s := START;
    for i := 0 to |rounds|
      invariant fresh(m) && m.backlog == s.backlog && m.received == s.received
      invariant Run(START, rounds) == Run(s, rounds[i..])
    {
      assert rounds[i..][0] == rounds[i] && rounds[i..][1..] == rounds[i + 1..];
      m.Update(rounds[i]);
      s := Next(s, rounds[i]);
    }
    assert rounds[|rounds|..] == [];
  }

  // ------------------------------------------------------------------ conservation

  lemma SeqSetSnoc(ps: seq<Packet>)
    requires ps != []
    ensures SeqSet(ps) == SeqSet(ps[..|ps| - 1]) + {ps[|ps| - 1].sequence}
  {
    var front := ps[..|ps| - 1];
    forall x | x in SeqSet(ps) ensures x in SeqSet(front) + {ps[|ps| - 1].sequence} {
      var i :| 0 <= i < |ps| && ps[i].sequence == x;
      if i < |front| { assert front[i].sequence == x; }
    }
    forall x | x in SeqSet(front) ensures x in SeqSet(ps) {
      var i :| 0 <= i < |front| && front[i].sequence == x;
      assert ps[i].sequence == x;
    }
  }

  lemma {:induction false} SeqSetSize(ps: seq<Packet>)
    requires Unique(ps)
    ensures |SeqSet(ps)| == |ps|
  {
    if ps == [] {
    } else {
      SeqSetSize(ps[..|ps| - 1]);
      SeqSetSnoc(ps);
    }
  }

  /** Subtracting counts the sequences that are gone. */
  lemma {:induction false} GoneSize(ps: seq<Packet>, seqs: seq<Uint64>, gone: set<Uint64>)
    requires Unique(ps) && gone == set x | x in SeqSet(ps) && x !in seqs
    ensures |Select(ps, Unlisted(seqs))| == |gone|
  {
    if ps == [] {
    } else {
      var front, last := ps[..|ps| - 1], ps[|ps| - 1].sequence;
      var before := set x | x in SeqSet(front) && x !in seqs;
      GoneSize(front, seqs, before);
      SeqSetSnoc(ps);
      assert last !in SeqSet(front);
      assert gone == if last in seqs then before else before + {last};
    }
  }

  lemma SequencesSet(ps: seq<Packet>)
    ensures forall x :: x in Sequences(ps) <==> x in SeqSet(ps)
  {
    forall x | x in Sequences(ps) ensures x in SeqSet(ps) {
      var i :| 0 <= i < |ps| && Sequences(ps)[i] == x;
      assert ps[i].sequence == x;
    }
    forall x | x in SeqSet(ps) ensures x in Sequences(ps) {
      var i :| 0 <= i < |ps| && ps[i].sequence == x;
      assert Sequences(ps)[i] == x;
    }
  }

  lemma SizeSplit(a: set<Uint64>, b: set<Uint64>)
    ensures |a| == |a * b| + |a - b|
  {
    assert a == (a * b) + (a - b);
  }

  lemma CountSets(before: set<Uint64>, after: set<Uint64>, seen: set<Uint64>)
    requires before <= seen
    ensures |before - after| + |after| + |seen| == |before| + |seen + after| + |after * (seen - before)|
  {
    SizeSplit(before, after);
    SizeSplit(after, seen);
    SizeSplit(after * seen, before);
    assert after * seen * before == before * after;
    assert after * seen - before == after * (seen - before);
    assert seen + after == seen + (after - seen);
  }

  lemma Conserved(s: State, newBacklog: seq<Packet>)
    requires Unique(s.backlog) && Unique(newBacklog) && SeqSet(s.backlog) <= s.seen
    ensures var t := Next(s, newBacklog);
            && SeqSet(t.backlog) <= t.seen
            && t.received + |t.backlog| + |s.seen|
                 == s.received + |s.backlog| + |t.seen| + |SeqSet(newBacklog) * (s.seen - SeqSet(s.backlog))|
  {
    var before, after := SeqSet(s.backlog), SeqSet(newBacklog);
    SeqSetSize(s.backlog);
    SeqSetSize(newBacklog);
    SequencesSet(newBacklog);
    GoneSize(s.backlog, Sequences(newBacklog), before - after);
    CountSets(before, after, s.seen);
  }

  /** Over any rounds, the counter and the current backlog together exceed the number of
      distinct packets ever seen by exactly the number of returns; so they are equal exactly
      when no packet that left the backlog came back. */
  lemma {:induction false} BacklogConservation(s: State, rounds: seq<seq<Packet>>)
    requires Unique(s.backlog) && SeqSet(s.backlog) <= s.seen && forall i :: 0 <= i < |rounds| ==> Unique(rounds[i])
    ensures var t := Run(s, rounds);
            t.received + |t.backlog| + |s.seen| == s.received + |s.backlog| + |t.seen| + Returns(s, rounds)
    decreases |rounds|
  {
    if rounds == [] {
    } else {
      Conserved(s, rounds[0]);
      BacklogConservation(Next(s, rounds[0]), rounds[1..]);
    }
  }

  /** From the start: counted once each. */
  lemma CountedOnce(rounds: seq<seq<Packet>>)
    requires forall i :: 0 <= i < |rounds| ==> Unique(rounds[i])
    ensures var t := Run(START, rounds);
            t.received + |t.backlog| == |t.seen| <==> Returns(START, rounds) == 0
  {
    BacklogConservation(START, rounds);
  }
}
