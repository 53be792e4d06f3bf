/** The status that a handshake run keeps is the verdict of the create loop on the outcomes of the
    run's rounds. */
module HandshakeLoop {
  import opened Wrappers
  import opened Handshake
  import opened HandshakeRun
  import RelayLoop

  /** What a step that finishes a round came to; a decision that sends finishes with its send. */
  function OutcomeOf(s: Sys, step: Step): Option<RelayLoop.Outcome>
    requires s.Valid()
  {
    if !Enabled(s, step) then None else
    match step
    case NewBlock(_, _, _) => None
    case Finalize(_, _) => None
    case Decide(_, _) =>
      if Next(s, step).status == Panicked then Some(RelayLoop.Error)
      else if Next(s, step).sending.None? then Some(RelayLoop.Wait)
      else None
    case Deliver(newId) => Some(RelayLoop.Send(Executed(s, newId).Some?, true, s.sending.value.last))
    case SendFails => Some(RelayLoop.Send(false, true, s.sending.value.last))
    case LostReport(_) => Some(RelayLoop.Send(false, true, s.sending.value.last))
  }

  function Append(o: seq<RelayLoop.Outcome>, x: Option<RelayLoop.Outcome>): seq<RelayLoop.Outcome> {
    if x.None? then o else o + [x.value]
  }

  function Outcomes(s: Sys, steps: seq<Step>, before: seq<RelayLoop.Outcome>): seq<RelayLoop.Outcome>
    requires s.Valid()
    decreases |steps|
  {
    if steps == [] then before
    else Outcomes(Next(s, steps[0]), steps[1..], Append(before, OutcomeOf(s, steps[0])))
  }

  /** The loop's own reading of these outcomes: still running with this failure count, or ended
      with the verdict of the status. */
  predicate Agrees(s: Sys, o: seq<RelayLoop.Outcome>) {
    match s.status
    case Running => RelayLoop.Continues(o) && s.failures == RelayLoop.Failures(o) && s.failures <= 2
    case Created => s.sending.None? && RelayLoop.Ends(o, RelayLoop.Done)
    case Failed => s.sending.None? && RelayLoop.Ends(o, RelayLoop.TooManyFailures)
    case Panicked => s.sending.None? && RelayLoop.Ends(o, RelayLoop.StepFailed)
  }

  /** The rule of the loop for one more outcome. */
  lemma OneMore(o: seq<RelayLoop.Outcome>, x: RelayLoop.Outcome)
    requires RelayLoop.Continues(o) && RelayLoop.Failures(o) <= 2
    ensures var f := if !x.Send? then RelayLoop.Failures(o) else if x.success then 0 else RelayLoop.Failures(o) + 1;
            && RelayLoop.Failures(o + [x]) == f
            && (RelayLoop.GoesOn(x) && f <= 2 ==> RelayLoop.Continues(o + [x]))
            && (x == RelayLoop.Error ==> RelayLoop.Ends(o + [x], RelayLoop.StepFailed))
            && (x.Send? && x.success && x.syncOk && x.last ==> RelayLoop.Ends(o + [x], RelayLoop.Done))
            && (x.Send? && !x.success && f == 3 ==> RelayLoop.Ends(o + [x], RelayLoop.TooManyFailures))
  {
    assert (o + [x])[..|o|] == o;
    if RelayLoop.GoesOn(x) && RelayLoop.Failures(o + [x]) <= 2 { RelayLoop.ContinuesExtend(o, x); }
  }

  lemma StepAgrees(s: Sys, step: Step, o: seq<RelayLoop.Outcome>)
    requires s.Valid() && Agrees(s, o)
    ensures Agrees(Next(s, step), Append(o, OutcomeOf(s, step)))
  {
    var x := OutcomeOf(s, step);
    if s.status == Running && x.Some? { OneMore(o, x.value); }
  }

  lemma {:induction false} RunAgrees(s: Sys, steps: seq<Step>, o: seq<RelayLoop.Outcome>)
    requires s.Valid() && Agrees(s, o)
    ensures Agrees(Run(s, steps), Outcomes(s, steps, o))
    decreases |steps|
  {
    if steps == [] {
    } else {
      var t, p := FirstStep(s, steps, o);
      RunAgrees(t, steps[1..], p);
    }
  }

  lemma FirstStep(s: Sys, steps: seq<Step>, o: seq<RelayLoop.Outcome>) returns (t: Sys, p: seq<RelayLoop.Outcome>)
    requires s.Valid() && Agrees(s, o) && steps != []
    ensures t.Valid() && Agrees(t, p)
    ensures Run(s, steps) == Run(t, steps[1..]) && Outcomes(s, steps, o) == Outcomes(t, steps[1..], p)
  {
    t, p := Unrolled(s, steps, o);
    StepAgrees(s, steps[0], o);
  }

  lemma Unrolled(s: Sys, steps: seq<Step>, o: seq<RelayLoop.Outcome>) returns (t: Sys, p: seq<RelayLoop.Outcome>)
    requires s.Valid() && steps != []
    ensures t == Next(s, steps[0]) && p == Append(o, OutcomeOf(s, steps[0])) && t.Valid()
    ensures Run(s, steps) == Run(t, steps[1..]) && Outcomes(s, steps, o) == Outcomes(t, steps[1..], p)
  {
    t, p := Next(s, steps[0]), Append(o, OutcomeOf(s, steps[0]));
  }

  /** From the start of a loop, on every run: the status is Running exactly while the loop goes on
      over the outcomes, and otherwise it is the verdict with which the loop ends on them. */
  lemma StatusIsVerdict(s: Sys, steps: seq<Step>)
    requires s.Valid() && s.status == Running && s.failures == 0
    ensures var t, o := Run(s, steps), Outcomes(s, steps, []);
            && (t.status == Running <==> RelayLoop.Continues(o))
            && (t.status == Created <==> RelayLoop.Ends(o, RelayLoop.Done))
            && (t.status == Failed <==> RelayLoop.Ends(o, RelayLoop.TooManyFailures))
            && (t.status == Panicked <==> RelayLoop.Ends(o, RelayLoop.StepFailed))
  {
    RunAgrees(s, steps, []);
    Exclusive(Outcomes(s, steps, []));
  }

  lemma Exclusive(o: seq<RelayLoop.Outcome>)
    ensures forall v, w :: RelayLoop.Ends(o, v) && RelayLoop.Ends(o, w) ==> v == w
    ensures forall v :: RelayLoop.Ends(o, v) ==> !RelayLoop.Continues(o)
  {
    if o != [] && RelayLoop.Continues(o) {
      assert o[..|o| - 1 + 1] == o;
      assert RelayLoop.GoesOn(o[|o| - 1]) && RelayLoop.Failures(o) <= 2;
    }
  }

  /** A decision and the result of its send are one round of the loop. */
  lemma DecisionIsRound(s: Sys, fromSrc: seq<nat>, fromDst: seq<nat>, sendOk: bool)
    requires s.Valid() && Enabled(s, Decide(fromSrc, fromDst))
    ensures var t := Next(s, Decide(fromSrc, fromDst));
            RelayLoop.CreateOutcome(s.kind, RelayLoop.CreateRound(s.src.ViewOf(s.kind), s.dst.ViewOf(s.kind),
                                                                   fromSrc, fromDst, sendOk, true))
              == if t.status == Panicked then RelayLoop.Error else if t.sending.None? then RelayLoop.Wait
                 else RelayLoop.Send(sendOk, true, t.sending.value.last)
  {
  }
}
