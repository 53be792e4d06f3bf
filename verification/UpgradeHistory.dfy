/** How one end evolves: every move of a chain goes forward in the order `Later`, so a block
    that a proof refers to constrains all later blocks of its chain, and an end that looks the
    same at two heights has not changed in between. */
module UpgradeHistory {
  import opened Wrappers
  import opened UpgradeChain

  /** What holds of every block of a chain on its own. */
  ghost predicate Wf(b: Block) {
    var s := b.Seq();
    && (b.St() == OPEN || b.Flushing())
    && (b.Flushing() <==> b.end.upgrade.Some? && s in b.log.flush)
    && (b.Flushing() ==> b.log.flush[s] == b.end.upgrade.value)
    && (forall n | n in b.log.flush :: n <= s)
    && b.log.done.Keys <= b.log.flush.Keys
    && (b.St() == FLUSHCOMPLETE ==> s in b.log.done)
    && (b.St() == FLUSHING ==> s !in b.log.done)
    && (forall n | n in b.log.done :: b.log.done[n].AtMost(b.clock))
    && b.log.adopted <= b.log.done.Keys
    && (b.end.upgrade.Some? ==> s !in b.log.adopted)
    && (b.end.cpTimeout.Some? ==> b.Flushing())
    && (b.end.receipt.Some? ==>
          var r := b.end.receipt.value;
          r <= s && r !in b.log.adopted && (b.end.upgrade.Some? ==> r < s))
  }

  /** How far the attempt at the current sequence has got. */
  function Phase(b: Block): nat {
    if b.end.upgrade.None? then 3
    else if b.St() == FLUSHCOMPLETE then 2
    else if b.St() == FLUSHING then 1
    else 0
  }

  /** The attempt at sequence `n` is over on this chain and was not adopted. */
  predicate Aborted(b: Block, n: nat) {
    n <= b.Seq() && n !in b.log.adopted && !(b.Seq() == n && b.end.upgrade.Some?)
  }

  /** What the settled check compares: the channel end and its upgrade. */
  predicate SameView(x: Block, y: Block) {
    x.end.chan == y.end.chan && x.end.upgrade == y.end.upgrade
  }

  ghost predicate Later(x: Block, y: Block) {
    && x.clock.AtMost(y.clock)
    && (x.Seq() < y.Seq() || (x.Seq() == y.Seq() && Phase(x) <= Phase(y)))
    && (x.Seq() == y.Seq() && Phase(x) == Phase(y) ==> SameView(x, y) && x.log == y.log)
    && (forall n | n in x.log.flush :: n in y.log.flush && y.log.flush[n] == x.log.flush[n])
    && (forall n | n in x.log.done :: n in y.log.done && y.log.done[n] == x.log.done[n])
    && x.log.adopted <= y.log.adopted
    && (forall n | n in y.log.flush && n !in x.log.flush ::
          && x.Seq() <= n
          && (n == x.Seq() ==> x.end.upgrade.Some? && y.log.flush[n].fields == x.end.upgrade.value.fields))
    && (forall n | n in y.log.done && n !in x.log.done :: x.clock.AtMost(y.log.done[n]))
    && (forall n | n in y.log.adopted && n !in x.log.adopted ::
          x.Seq() <= n && (n == x.Seq() ==> x.end.upgrade.Some?))
    && (x.log.adopted == y.log.adopted ==> x.end.chan.fields == y.end.chan.fields)
  }

  lemma LaterTrans(x: Block, y: Block, z: Block)
    requires Wf(x) && Wf(y) && Wf(z) && Later(x, y) && Later(y, z)
    ensures Later(x, z)
  {
    StartsTrans(x, y, z);
    PhaseTrans(x, y, z);
    FieldsTrans(x, y, z);
  }

  lemma PhaseTrans(x: Block, y: Block, z: Block)
    requires Later(x, y) && Later(y, z)
    ensures x.Seq() < z.Seq() || (x.Seq() == z.Seq() && Phase(x) <= Phase(z))
    ensures x.Seq() == z.Seq() && Phase(x) == Phase(z) ==> SameView(x, z) && x.log == z.log
  {
  }

  lemma FieldsTrans(x: Block, y: Block, z: Block)
    requires Later(x, y) && Later(y, z)
    ensures x.log.adopted <= z.log.adopted
    ensures x.log.adopted == z.log.adopted ==> x.end.chan.fields == z.end.chan.fields
  {
  }

  /** What is new in `z` since `x` is new since `y`, or was new in `y`. */
  lemma StartsTrans(x: Block, y: Block, z: Block)
    requires Wf(x) && Wf(y) && Wf(z) && Later(x, y) && Later(y, z)
    ensures forall n | n in z.log.flush && n !in x.log.flush ::
              && x.Seq() <= n
              && (n == x.Seq() ==> x.end.upgrade.Some? && z.log.flush[n].fields == x.end.upgrade.value.fields)
    ensures forall n | n in z.log.adopted && n !in x.log.adopted ::
              x.Seq() <= n && (n == x.Seq() ==> x.end.upgrade.Some?)
  {
  }

  /** Two settled views of the same end agree on everything that happened: nothing was
      started, flushed, adopted or aborted between the two blocks. */
  lemma SettledMeansUnchanged(x: Block, y: Block)
    requires Later(x, y) && SameView(x, y)
    ensures x.log == y.log
    ensures forall z | Later(x, z) && Later(z, y) :: SameView(x, z) && x.log == z.log
  {
  }

  lemma AbortedStays(x: Block, y: Block, n: nat)
    requires Later(x, y) && Aborted(x, n)
    ensures Aborted(y, n)
  {
  }

  // ------------------------------------------------------------------ one lemma per move

  function Tick(b: Block, now: Clock): Block
    requires b.clock.AtMost(now)
  {
    b.(clock := now)
  }

  lemma LaterRestore(b: Block, sequence: nat)
    requires Wf(b) && b.end.upgrade.Some? && b.Seq() <= sequence
    ensures var c := Restore(WithEnd(b, b.end.(chan := b.end.chan.(sequence := sequence))));
            Wf(c) && Later(b, c) && Aborted(c, b.Seq())
  {
  }

  lemma LaterStartFlush(b: Block, sequence: nat, fields: Fields, timeout: Timeout)
    requires Wf(b) && b.St() == OPEN
    requires b.Seq() < sequence
             || (b.Seq() == sequence && b.end.upgrade.Some? && fields == b.end.upgrade.value.fields)
    ensures var c := StartFlush(b, sequence, fields, timeout); Wf(c) && Later(b, c)
  {
  }

  lemma LaterFlushComplete(b: Block, timeout: Timeout)
    requires Wf(b) && b.St() == FLUSHING
    ensures var c := FlushComplete(WithEnd(b, b.end.(cpTimeout := Some(timeout)))); Wf(c) && Later(b, c)
  {
  }

  lemma LaterAdopt(b: Block)
    requires Wf(b) && b.St() == FLUSHCOMPLETE
    ensures Wf(Adopt(b)) && Later(b, Adopt(b))
  {
    assert b.Seq() in Adopt(b).log.adopted && b.Seq() !in b.log.adopted;
  }
}
