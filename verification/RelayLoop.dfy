/** The loops around the handshake steps and the upgrade step: when they go on, when they stop,
    and with what verdict. */
module RelayLoop {
  import opened Wrappers
  import Handshake
  import ChannelUpgrade

  datatype Verdict = Waiting | Done | StepFailed | SyncFailed | TooManyFailures

  /** What one round came to.  `Complete` is a step that is done without sending. */
  datatype Outcome =
    | Error
    | Complete
    | Wait
    | Send(success: bool, syncOk: bool, last: bool)

  // ------------------------------------------------------------------ specification

  /** The failed sends since the last successful one; waiting does not count. */
  function Failures(o: seq<Outcome>): nat {
    if o == [] then 0
    else
      var before := Failures(o[..|o| - 1]);
      var last := o[|o| - 1];
      if !last.Send? then before else if last.success then 0 else before + 1
  }

  predicate GoesOn(o: Outcome) {
    o.Wait? || (o.Send? && (o.success ==> o.syncOk && !o.last))
  }

  /** After these rounds the loop is still running. */
  predicate Continues(o: seq<Outcome>) {
    forall k :: 0 <= k < |o| ==> GoesOn(o[k]) && Failures(o[..k + 1]) <= 2
  }

  /** The last of these rounds ended the loop. */
  predicate Ends(o: seq<Outcome>, v: Verdict) {
    && |o| > 0 && Continues(o[..|o| - 1])
    && match o[|o| - 1]
       case Error => v == StepFailed
       case Complete => v == Done
       case Wait => false
       case Send(success, syncOk, last) =>
         if success then (if syncOk then last && v == Done else v == SyncFailed)
         else Failures(o) == 3 && v == TooManyFailures
  }

  lemma ContinuesExtend(o: seq<Outcome>, x: Outcome)
    requires Continues(o) && GoesOn(x) && Failures(o + [x]) <= 2
    ensures Continues(o + [x])
  {
    var p := o + [x];
    forall k | 0 <= k < |p| ensures GoesOn(p[k]) && Failures(p[..k + 1]) <= 2 {
      if k < |o| {
        assert p[..k + 1] == o[..k + 1] && p[k] == o[k];
      } else {
        assert p[..k + 1] == p;
      }
    }
  }

  /** The results of the sends alone. */
  function Sends(o: seq<Outcome>): seq<bool> {
    if o == [] then []
    else Sends(o[..|o| - 1]) + if o[|o| - 1].Send? then [o[|o| - 1].success] else []
  }

  lemma {:induction false} FailuresAreTrailing(o: seq<Outcome>)
    ensures Failures(o) <= |Sends(o)|
    ensures forall k :: |Sends(o)| - Failures(o) <= k < |Sends(o)| ==> !Sends(o)[k]
    ensures Failures(o) < |Sends(o)| ==> Sends(o)[|Sends(o)| - Failures(o) - 1]
  {
    if o == [] {
    } else {
      FailuresAreTrailing(o[..|o| - 1]);
    }
  }

  /** The loop gives up exactly on the third of three sends in a row that failed. */
  lemma GivesUpOnThirdFailure(o: seq<Outcome>)
    requires |o| > 0 && Continues(o[..|o| - 1]) && o[|o| - 1].Send?
    ensures Ends(o, TooManyFailures) <==>
              var s := Sends(o); |s| >= 3 && !s[|s| - 3] && !s[|s| - 2] && !s[|s| - 1]
  {
    var p := o[..|o| - 1];
    FailuresAreTrailing(o);
    FailuresBelowThree(p);
    assert Failures(o) <= 3;
    assert Sends(o)[|Sends(o)| - 1] == o[|o| - 1].success;
  }

  lemma FailuresBelowThree(p: seq<Outcome>)
    requires Continues(p)
    ensures Failures(p) <= 2
  {
    if p != [] {
      assert p[..|p| - 1 + 1] == p && GoesOn(p[|p| - 1]);
    }
  }

  /** A loop stops once: no proper prefix of the rounds of a stopped loop stops it, and the
      verdict is determined. */
  lemma EndsOnce(o: seq<Outcome>, v: Verdict, n: nat, w: Verdict)
    requires Ends(o, v) && n <= |o| && Ends(o[..n], w)
    ensures n == |o| && w == v
  {
    if n < |o| {
      GoesOnBefore(o, n);
      assert false;
    } else {
      assert o[..n] == o;
    }
  }

  lemma GoesOnBefore(o: seq<Outcome>, n: nat)
    requires 0 < n < |o| && Continues(o[..|o| - 1])
    ensures GoesOn(o[..n][n - 1]) && Failures(o[..n]) <= 2
  {
    var p := o[..|o| - 1];
    assert p[..n - 1 + 1] == o[..n] && GoesOn(p[n - 1]);
  }

  /** The part of a round after its step: count a failed send, forget the failures on success. */
  method Judge(x: Outcome, failures: nat, ghost o: seq<Outcome>) returns (v: Verdict, left: nat)
    requires Continues(o) && failures == Failures(o) && failures <= 2
    ensures v == Waiting ==> Continues(o + [x]) && left == Failures(o + [x]) && left <= 2
    ensures v != Waiting ==> Ends(o + [x], v)
  {
    assert (o + [x])[..|o|] == o;
    left := failures;
    match x {
      case Error => return StepFailed, left;
      case Complete => return Done, left;
      case Wait =>
      case Send(success, syncOk, last) =>
        if success {
          if !syncOk { return SyncFailed, left; }
          if last { return Done, left; }
          left := 0;
        } else {
          left := left + 1;
          if left > 2 { return TooManyFailures, left; }
        }
    }
    ContinuesExtend(o, x);
    return Waiting, left;
  }

  // ------------------------------------------------------------------ connection and channel

  /** What the chains answer in one round. */
  datatype CreateRound = CreateRound(src: Handshake.View, dst: Handshake.View, fromSrc: seq<nat>, fromDst: seq<nat>,
                                     sendOk: bool, syncOk: bool)

  function CreateOutcome(kind: Handshake.Kind, r: CreateRound): Outcome {
    var plan := Handshake.Plan(kind, r.src, r.dst, r.fromSrc, r.fromDst);
    if plan.Err? then Error
    else if !plan.value.Ready() then Wait
    else Send(r.sendOk, r.syncOk, plan.value.last)
  }

  function CreateOutcomes(kind: Handshake.Kind, rounds: seq<CreateRound>): (o: seq<Outcome>)
    ensures |o| == |rounds| && forall k :: 0 <= k < |o| ==> o[k] == CreateOutcome(kind, rounds[k])
  {
    seq(|rounds|, k requires 0 <= k < |rounds| => CreateOutcome(kind, rounds[k]))
  }

  method CreateRoundOutcome(kind: Handshake.Kind, r: CreateRound) returns (x: Outcome)
    ensures x == CreateOutcome(kind, r)
  {
    var step := Handshake.CreateStep(kind, r.src, r.dst, r.fromSrc, r.fromDst);
    if step.Err? { return Error; }
    if !step.value.Ready() { return Wait; }
    return Send(r.sendOk, r.syncOk, step.value.last);
  }

  /** CreateConnection and CreateChannel, for as many rounds as there are. */
  method Create(kind: Handshake.Kind, rounds: seq<CreateRound>) returns (v: Verdict, n: nat)
    ensures n <= |rounds|
    ensures v == Waiting ==> n == |rounds| && Continues(CreateOutcomes(kind, rounds))
    ensures v != Waiting ==> Ends(CreateOutcomes(kind, rounds[..n]), v)
  {
    var failures := 0;
    n, v := 0, Waiting;
    while n < |rounds|
      invariant n <= |rounds| && failures <= 2 && v == Waiting
      invariant Continues(CreateOutcomes(kind, rounds[..n])) && failures == Failures(CreateOutcomes(kind, rounds[..n]))
    {
      ghost var o := CreateOutcomes(kind, rounds[..n]);
      var x := CreateRoundOutcome(kind, rounds[n]);
      n := n + 1;
      assert CreateOutcomes(kind, rounds[..n]) == o + [x];
      v, failures := Judge(x, failures, o);
      if v != Waiting { return; }
    }
    assert rounds[..n] == rounds;
  }

  // ------------------------------------------------------------------ channel upgrade

  datatype UpgradeRound = UpgradeRound(src: ChannelUpgrade.View, dst: ChannelUpgrade.View,
                                       srcHeaders: seq<nat>, dstHeaders: seq<nat>, sendOk: bool, syncOk: bool) {
    predicate Valid() { src.Valid() && dst.Valid() }
  }

  /** `first` is whether this is the loop's first step, which may not stop at two ends without
      an upgrade. */
  function UpgradeOutcome(r: UpgradeRound, targetSrc: ChannelUpgrade.UpgradeState,
                          targetDst: ChannelUpgrade.UpgradeState, first: bool): Outcome
    requires r.Valid()
  {
    StepOutcome(ChannelUpgrade.Plan(r.src, r.dst, targetSrc, targetDst, first, r.srcHeaders, r.dstHeaders),
                r.sendOk, r.syncOk)
  }

  /** An upgrade's step and the result of sending what it gives. */
  function StepOutcome(plan: Result<ChannelUpgrade.RelayMsgs, ChannelUpgrade.Failure>, sendOk: bool, syncOk: bool)
    : Outcome
  {
    if plan.Err? then Error
    else if plan.value.last then Complete
    else if plan.value.src == [] && plan.value.dst == [] then Wait
    else Send(sendOk, syncOk, false)
  }

  function UpgradeOutcomes(rounds: seq<UpgradeRound>, targetSrc: ChannelUpgrade.UpgradeState,
                           targetDst: ChannelUpgrade.UpgradeState): (o: seq<Outcome>)
    requires forall k :: 0 <= k < |rounds| ==> rounds[k].Valid()
    ensures |o| == |rounds|
    ensures forall k :: 0 <= k < |o| ==> o[k] == UpgradeOutcome(rounds[k], targetSrc, targetDst, k == 0)
  {
    seq(|rounds|, k requires 0 <= k < |rounds| => UpgradeOutcome(rounds[k], targetSrc, targetDst, k == 0))
  }

  method UpgradeRoundOutcome(r: UpgradeRound, targetSrc: ChannelUpgrade.UpgradeState,
                             targetDst: ChannelUpgrade.UpgradeState, first: bool) returns (x: Outcome)
    requires r.Valid()
    ensures x == UpgradeOutcome(r, targetSrc, targetDst, first)
  {
    var step := ChannelUpgrade.UpgradeChannelStep(r.src, r.dst, targetSrc, targetDst, first, r.srcHeaders,
                                                  r.dstHeaders);
    if step.Err? { return Error; }
    if step.value.last { return Complete; }
    if step.value.src == [] && step.value.dst == [] { return Wait; }
    return Send(r.sendOk, r.syncOk, false);
  }

  /** `o` lists the outcomes of the first `n` rounds. */
  ghost predicate Lists(o: seq<Outcome>, rounds: seq<UpgradeRound>, n: nat, targetSrc: ChannelUpgrade.UpgradeState,
                        targetDst: ChannelUpgrade.UpgradeState)
    requires n <= |rounds| && forall k :: 0 <= k < |rounds| ==> rounds[k].Valid()
  {
    |o| == n && forall k :: 0 <= k < |o| ==> o[k] == UpgradeOutcome(rounds[k], targetSrc, targetDst, k == 0)
  }

  lemma ListsOutcomes(o: seq<Outcome>, rounds: seq<UpgradeRound>, n: nat, targetSrc: ChannelUpgrade.UpgradeState,
                      targetDst: ChannelUpgrade.UpgradeState)
    requires n <= |rounds| && forall k :: 0 <= k < |rounds| ==> rounds[k].Valid()
    requires Lists(o, rounds, n, targetSrc, targetDst)
    ensures o == UpgradeOutcomes(rounds[..n], targetSrc, targetDst)
  {
  }

  lemma ListsOne(before: seq<Outcome>, rounds: seq<UpgradeRound>, n: nat, targetSrc: ChannelUpgrade.UpgradeState,
                 targetDst: ChannelUpgrade.UpgradeState, x: Outcome)
    requires n < |rounds| && forall k :: 0 <= k < |rounds| ==> rounds[k].Valid()
    requires Lists(before, rounds, n, targetSrc, targetDst)
    requires x == UpgradeOutcome(rounds[n], targetSrc, targetDst, n == 0)
    ensures Lists(before + [x], rounds, n + 1, targetSrc, targetDst)
  {
    var o := before + [x];
    forall k | 0 <= k < |o| ensures o[k] == UpgradeOutcome(rounds[k], targetSrc, targetDst, k == 0) {
      if k < n { assert o[k] == before[k]; }
    }
  }

  /** One round of the upgrade loop. */
  method UpgradeRoundVerdict(rounds: seq<UpgradeRound>, n: nat, targetSrc: ChannelUpgrade.UpgradeState,
                             targetDst: ChannelUpgrade.UpgradeState, firstCall: bool, failures: nat,
                             ghost before: seq<Outcome>)
    returns (v: Verdict, left: nat, ghost o: seq<Outcome>)
    requires n < |rounds| && forall k :: 0 <= k < |rounds| ==> rounds[k].Valid()
    requires firstCall == (n == 0) && failures <= 2
    requires Lists(before, rounds, n, targetSrc, targetDst) && Continues(before) && failures == Failures(before)
    ensures Lists(o, rounds, n + 1, targetSrc, targetDst)
    ensures if v == Waiting then Continues(o) && left == Failures(o) && left <= 2 else Ends(o, v)
  {
    var x := UpgradeRoundOutcome(rounds[n], targetSrc, targetDst, firstCall);
    v, left := Judge(x, failures, before);
    o := before + [x];
    ListsOne(before, rounds, n, targetSrc, targetDst, x);
  }

  method UpgradeLoop(rounds: seq<UpgradeRound>, targetSrc: ChannelUpgrade.UpgradeState,
                     targetDst: ChannelUpgrade.UpgradeState) returns (v: Verdict, n: nat, ghost o: seq<Outcome>)
    requires forall k :: 0 <= k < |rounds| ==> rounds[k].Valid()
    ensures n <= |rounds| && Lists(o, rounds, n, targetSrc, targetDst)
    ensures if v == Waiting then n == |rounds| && Continues(o) else Ends(o, v)
  {
    var failures, firstCall := 0, true;
    n, v, o := 0, Waiting, [];
    while n < |rounds|
      invariant n <= |rounds| && failures <= 2 && v == Waiting && firstCall == (n == 0)
      invariant Lists(o, rounds, n, targetSrc, targetDst) && Continues(o) && failures == Failures(o)
    {
      v, failures, o := UpgradeRoundVerdict(rounds, n, targetSrc, targetDst, firstCall, failures, o);
      n := n + 1;
      firstCall := false;
      if v != Waiting { return; }
    }
  }

  /** ExecuteChannelUpgrade, for as many rounds as there are. */
  method ExecuteChannelUpgrade(rounds: seq<UpgradeRound>, targetSrc: ChannelUpgrade.UpgradeState,
                               targetDst: ChannelUpgrade.UpgradeState) returns (v: Verdict, n: nat)
    requires forall k :: 0 <= k < |rounds| ==> rounds[k].Valid()
    ensures n <= |rounds|
    ensures v == Waiting ==> n == |rounds| && Continues(UpgradeOutcomes(rounds, targetSrc, targetDst))
    ensures v != Waiting ==> Ends(UpgradeOutcomes(rounds[..n], targetSrc, targetDst), v)
  {
    ghost var o: seq<Outcome>;
    v, n, o := UpgradeLoop(rounds, targetSrc, targetDst);
    ListsOutcomes(o, rounds, n, targetSrc, targetDst);
    assert v == Waiting ==> rounds[..n] == rounds;
  }

  // ------------------------------------------------------------------ starting

  datatype Readiness = Go | AlreadyCreated | SrcMissing | DstMissing

  /** An identifier that is configured must exist; the loop is not entered when both ends are
      OPEN. */
  method CheckCreateReady(src: Handshake.View, dst: Handshake.View) returns (r: Readiness)
    ensures r == SrcMissing <==> src.id != "" && Handshake.Read(src.latest, src.id).state == Handshake.UNINITIALIZED
    ensures r == DstMissing <==> r != SrcMissing && dst.id != ""
                                 && Handshake.Read(dst.latest, dst.id).state == Handshake.UNINITIALIZED
    ensures r == AlreadyCreated <==>
              && Handshake.Read(src.latest, src.id).state == Handshake.OPEN
              && Handshake.Read(dst.latest, dst.id).state == Handshake.OPEN
  {
    if src.id == "" && dst.id == "" {
      return Go;
    }
    var s := if src.id == "" then Handshake.UNINITIALIZED else Handshake.Read(src.latest, src.id).state;
    var d := if dst.id == "" then Handshake.UNINITIALIZED else Handshake.Read(dst.latest, dst.id).state;
    if src.id != "" && s == Handshake.UNINITIALIZED { return SrcMissing; }
    if dst.id != "" && d == Handshake.UNINITIALIZED { return DstMissing; }
    return if s == Handshake.OPEN && d == Handshake.OPEN then AlreadyCreated else Go;
  }
}
