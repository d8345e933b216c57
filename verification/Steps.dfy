/** StepRunner: internal/engine/steps.go. */
module Steps {
  import opened Common
  import opened Records

  /** Everything an action may do when one step reaches it, chosen by an adversary. */
  datatype Behaviour = Behaviour(
    known: bool,          // the registry has the action
    resolves: bool,       // Resolve returns a target
    plans: bool,          // Plan succeeds (dry run only)
    executes: bool,       // Execute succeeds
    verifier: bool,       // the action has a post-condition check
    timeoutValid: bool,   // the step's verifyTimeout parses and is within bounds
    verifies: bool)       // Verify succeeds

  datatype Call = PlanCall(step: nat) | ExecuteCall(step: nat) | VerifyCall(step: nat)

  /** Why a step fails; None when it succeeds or is simulated. */
  function Failure(dryRun: bool, b: Behaviour): Option<Reason> {
    if !b.known then Some(UnknownAction)
    else if !b.resolves then Some(StepFailed)
    else if dryRun then if b.plans then None else Some(StepFailed)
    else if !b.executes then Some(StepFailed)
    else if b.verifier && !(b.timeoutValid && b.verifies) then Some(StepFailed)
    else None
  }

  /** The methods of the action that are called, in order. */
  function Calls(dryRun: bool, i: nat, b: Behaviour): seq<Call> {
    if !b.known || !b.resolves then []
    else if dryRun then [PlanCall(i)]
    else if b.executes && b.verifier && b.timeoutValid then [ExecuteCall(i), VerifyCall(i)]
    else [ExecuteCall(i)]
  }

  function Completed(dryRun: bool): Phase {
    if dryRun then PhaseSimulated else PhaseSucceeded
  }

  /** A plan partly run: the statuses so far, the first failure, the calls made. */
  datatype Progress = Progress(steps: seq<StepStatus>, failure: Option<Reason>, calls: seq<Call>)

  const NOTHING_RUN := Progress([], None, [])

  /** One turn of Run's loop. */
  function Advance(dryRun: bool, plan: seq<string>, p: Progress, b: Behaviour): Progress
    requires |p.steps| < |plan|
  {
    var i := |p.steps|;
    if p.failure.Some? then
      p.(steps := p.steps + [StepStatus(i, plan[i], PhaseSkipped)])
    else
      var f := Failure(dryRun, b);
      Progress(
        p.steps + [StepStatus(i, plan[i], if f.Some? then PhaseFailed else Completed(dryRun))],
        f,
        p.calls + Calls(dryRun, i, b))
  }

  function RunFrom(dryRun: bool, plan: seq<string>, p: Progress, bs: seq<Behaviour>): Progress
    requires |p.steps| + |bs| <= |plan|
    decreases |bs|
  {
    if bs == [] then p
    else RunFrom(dryRun, plan, Advance(dryRun, plan, p, bs[0]), bs[1..])
  }

  /** The whole plan, one behaviour for each step. */
  function RunPlan(dryRun: bool, plan: seq<string>, bs: seq<Behaviour>): Progress
    requires |bs| == |plan|
  {
    RunFrom(dryRun, plan, NOTHING_RUN, bs)
  }

  /** Every status is in place, and they read: completed, at most one failed, then only skipped. */
  ghost predicate Shaped(dryRun: bool, plan: seq<string>, p: Progress) {
    && |p.steps| <= |plan|
    && (forall i :: 0 <= i < |p.steps| ==> p.steps[i].index == i && p.steps[i].action == plan[i])
    && (p.failure.None? ==> forall i :: 0 <= i < |p.steps| ==> p.steps[i].phase == Completed(dryRun))
    && (p.failure.Some? ==> exists cut :: FailedAt(dryRun, p.steps, cut))
    && (p.failure.Some? ==> p.failure.value in {StepFailed, UnknownAction})
  }

  ghost predicate FailedAt(dryRun: bool, steps: seq<StepStatus>, cut: nat) {
    && cut < |steps|
    && steps[cut].phase == PhaseFailed
    && (forall i :: 0 <= i < cut ==> steps[i].phase == Completed(dryRun))
    && (forall i :: cut < i < |steps| ==> steps[i].phase == PhaseSkipped)
  }

  /** The calls a partly run plan may have made: own posture only, each step reached in order, once. */
  ghost predicate CallsInOrder(dryRun: bool, p: Progress) {
    Ordered(p.calls, |p.steps|, dryRun)
  }

  ghost predicate Ordered(calls: seq<Call>, n: nat, dryRun: bool) {
    && (forall k :: 0 <= k < |calls| ==> calls[k].step < n && (calls[k].PlanCall? <==> dryRun))
    && (forall j, k :: 0 <= j < k < |calls| ==>
          calls[j].step < calls[k].step || (calls[j].ExecuteCall? && calls[k].VerifyCall? && calls[j].step == calls[k].step))
    && (forall k :: 0 <= k < |calls| && calls[k].VerifyCall? ==> k > 0 && calls[k-1] == ExecuteCall(calls[k].step))
  }

  lemma AdvanceKeepsShaped(dryRun: bool, plan: seq<string>, p: Progress, b: Behaviour)
    requires |p.steps| < |plan| && Shaped(dryRun, plan, p)
    ensures Shaped(dryRun, plan, Advance(dryRun, plan, p, b))
  {
    var q := Advance(dryRun, plan, p, b);
    if p.failure.Some? {
      var cut :| FailedAt(dryRun, p.steps, cut);
      assert FailedAt(dryRun, q.steps, cut);
    } else if q.failure.Some? {
      assert FailedAt(dryRun, q.steps, |p.steps|);
    }
  }

  lemma AdvanceKeepsCalls(dryRun: bool, plan: seq<string>, p: Progress, b: Behaviour)
    requires |p.steps| < |plan| && CallsInOrder(dryRun, p)
    ensures CallsInOrder(dryRun, Advance(dryRun, plan, p, b))
  {
    if p.failure.None? {
      AppendedInOrder(p.calls, |p.steps|, Calls(dryRun, |p.steps|, b), dryRun);
    }
  }

  lemma AppendedInOrder(calls: seq<Call>, n: nat, cs: seq<Call>, dryRun: bool)
    requires Ordered(calls, n, dryRun)
    requires cs == [] || (dryRun && cs == [PlanCall(n)]) || (!dryRun && (cs == [ExecuteCall(n)] || cs == [ExecuteCall(n), VerifyCall(n)]))
    ensures Ordered(calls + cs, n + 1, dryRun)
  {
  }

  lemma {:induction false} RunFromShape(dryRun: bool, plan: seq<string>, p: Progress, bs: seq<Behaviour>)
    requires |p.steps| + |bs| <= |plan|
    requires Shaped(dryRun, plan, p) && CallsInOrder(dryRun, p)
    ensures var q := RunFrom(dryRun, plan, p, bs);
            |q.steps| == |p.steps| + |bs| && Shaped(dryRun, plan, q) && CallsInOrder(dryRun, q)
    decreases |bs|
  {
    if bs != [] {
      AdvanceKeepsShaped(dryRun, plan, p, bs[0]);
      AdvanceKeepsCalls(dryRun, plan, p, bs[0]);
      RunFromShape(dryRun, plan, Advance(dryRun, plan, p, bs[0]), bs[1..]);
    }
  }

  /** For arbitrary action outcomes: one status per step, shaped, and no mutating call in a dry run. */
  lemma RunShape(dryRun: bool, plan: seq<string>, bs: seq<Behaviour>)
    requires |bs| == |plan|
    ensures var r := RunPlan(dryRun, plan, bs);
            |r.steps| == |plan| && Shaped(dryRun, plan, r) && CallsInOrder(dryRun, r)
  {
    RunFromShape(dryRun, plan, NOTHING_RUN, bs);
  }

  // ---- What a step comes to, in its behaviour's own fields --------------------------------------

  /** Everything a step needs in order to succeed, in no particular order. */
  predicate Works(dryRun: bool, b: Behaviour) {
    && b.known && b.resolves
    && (dryRun ==> b.plans)
    && (!dryRun ==> b.executes && (b.verifier ==> b.timeoutValid && b.verifies))
  }

  /** A step fails exactly when something it needs is missing, and it says when that is the action itself. */
  lemma StepVerdict(dryRun: bool, b: Behaviour)
    ensures Failure(dryRun, b) == None <==> Works(dryRun, b)
    ensures Failure(dryRun, b) == Some(UnknownAction) <==> !b.known
    ensures Failure(dryRun, b) == Some(StepFailed) <==> b.known && !Works(dryRun, b)
  {
  }

  /** What of an action a step that is reached calls: a plan only in a dry run, a check only after an execution that has one. */
  predicate MakesCall(dryRun: bool, b: Behaviour, c: Call) {
    && b.known && b.resolves
    && match c
       case PlanCall(_) => dryRun
       case ExecuteCall(_) => !dryRun
       case VerifyCall(_) => !dryRun && b.executes && b.verifier && b.timeoutValid
  }

  lemma StepCalls(dryRun: bool, i: nat, b: Behaviour, c: Call)
    ensures c in Calls(dryRun, i, b) <==> c.step == i && MakesCall(dryRun, b, c)
    ensures forall j, k :: 0 <= j < k < |Calls(dryRun, i, b)| ==> Calls(dryRun, i, b)[j] != Calls(dryRun, i, b)[k]
  {
  }

  /** A step is reached when everything before it works. */
  ghost predicate Reached(dryRun: bool, bs: seq<Behaviour>, i: nat) {
    forall j :: 0 <= j < i && j < |bs| ==> Works(dryRun, bs[j])
  }

  /** How one step of a plan reads afterwards. */
  ghost predicate Reads(dryRun: bool, plan: seq<string>, bs: seq<Behaviour>, i: nat, s: StepStatus)
    requires i < |plan| && i < |bs|
  {
    && s.index == i && s.action == plan[i]
    && s.phase == if !Reached(dryRun, bs, i) then PhaseSkipped
                  else if !Works(dryRun, bs[i]) then PhaseFailed
                  else if dryRun then PhaseSimulated else PhaseSucceeded
  }

  /** The step that fails a plan: it is reached, and does not work. */
  ghost predicate FailsAt(dryRun: bool, bs: seq<Behaviour>, i: nat) {
    i < |bs| && Reached(dryRun, bs, i) && !Works(dryRun, bs[i])
  }

  ghost predicate Ran(dryRun: bool, plan: seq<string>, bs: seq<Behaviour>, p: Progress)
    requires |bs| <= |plan|
  {
    && |p.steps| == |bs|
    && (forall i :: 0 <= i < |bs| ==> Reads(dryRun, plan, bs, i, p.steps[i]))
    && (p.failure.None? <==> Reached(dryRun, bs, |bs|))
    && (p.failure.Some? ==> exists i: nat :: FailsAt(dryRun, bs, i) && p.failure.value == if bs[i].known then StepFailed else UnknownAction)
    && (forall c :: c in p.calls <==> c.step < |bs| && Reached(dryRun, bs, c.step) && MakesCall(dryRun, bs[c.step], c))
  }

  lemma ReachedSnoc(dryRun: bool, bs: seq<Behaviour>, b: Behaviour, i: nat)
    ensures i <= |bs| ==> (Reached(dryRun, bs + [b], i) <==> Reached(dryRun, bs, i))
    ensures Reached(dryRun, bs + [b], |bs| + 1) <==> Reached(dryRun, bs, |bs|) && Works(dryRun, b)
  {
    if i <= |bs| {
      forall j | 0 <= j < i ensures (bs + [b])[j] == bs[j] {}
    }
    assert (bs + [b])[|bs|] == b && forall j :: 0 <= j < |bs| ==> (bs + [b])[j] == bs[j];
  }

  lemma AdvanceKeepsOutcome(dryRun: bool, plan: seq<string>, bs: seq<Behaviour>, p: Progress, b: Behaviour)
    requires |bs| < |plan| && Ran(dryRun, plan, bs, p)
    ensures Ran(dryRun, plan, bs + [b], Advance(dryRun, plan, p, b))
  {
    var n, all, q := |bs|, bs + [b], Advance(dryRun, plan, p, b);
    StepVerdict(dryRun, b);
    ReachedSnoc(dryRun, bs, b, n);
    forall i | 0 <= i < |all| ensures Reads(dryRun, plan, all, i, q.steps[i]) {
      ReachedSnoc(dryRun, bs, b, i);
      if i < n { assert Reads(dryRun, plan, bs, i, p.steps[i]); }
    }
    AdvanceFailure(dryRun, plan, bs, p, b);
    forall c: Call ensures c in q.calls <==> c.step < |all| && Reached(dryRun, all, c.step) && MakesCall(dryRun, all[c.step], c) {
      AdvanceCalls(dryRun, plan, bs, p, b, c);
    }
  }

  lemma AdvanceFailure(dryRun: bool, plan: seq<string>, bs: seq<Behaviour>, p: Progress, b: Behaviour)
    requires |bs| < |plan| && Ran(dryRun, plan, bs, p)
    ensures var q, all := Advance(dryRun, plan, p, b), bs + [b];
      && (q.failure.None? <==> Reached(dryRun, all, |all|))
      && (q.failure.Some? ==> exists i: nat :: FailsAt(dryRun, all, i) && q.failure.value == if all[i].known then StepFailed else UnknownAction)
  {
    var n, all := |bs|, bs + [b];
    StepVerdict(dryRun, b);
    ReachedSnoc(dryRun, bs, b, n);
    if p.failure.Some? {
      var i: nat :| FailsAt(dryRun, bs, i) && p.failure.value == if bs[i].known then StepFailed else UnknownAction;
      ReachedSnoc(dryRun, bs, b, i);
      assert FailsAt(dryRun, all, i) && all[i] == bs[i];
    } else if !Works(dryRun, b) {
      assert FailsAt(dryRun, all, n) && all[n] == b;
    }
  }

  lemma AdvanceCalls(dryRun: bool, plan: seq<string>, bs: seq<Behaviour>, p: Progress, b: Behaviour, c: Call)
    requires |bs| < |plan| && Ran(dryRun, plan, bs, p)
    ensures var q, all := Advance(dryRun, plan, p, b), bs + [b];
      c in q.calls <==> c.step < |all| && Reached(dryRun, all, c.step) && MakesCall(dryRun, all[c.step], c)
  {
    var n, all := |bs|, bs + [b];
    ReachedSnoc(dryRun, bs, b, c.step);
    StepCalls(dryRun, n, b, c);
    if c.step < n { assert all[c.step] == bs[c.step]; }
  }

  lemma {:induction false} RunFromOutcome(dryRun: bool, plan: seq<string>, done: seq<Behaviour>, p: Progress, bs: seq<Behaviour>)
    requires |done| + |bs| <= |plan| && Ran(dryRun, plan, done, p)
    ensures Ran(dryRun, plan, done + bs, RunFrom(dryRun, plan, p, bs))
    decreases |bs|
  {
    if bs == [] {
      assert done + bs == done;
    } else {
      AdvanceKeepsOutcome(dryRun, plan, done, p, bs[0]);
      RunFromOutcome(dryRun, plan, done + [bs[0]], Advance(dryRun, plan, p, bs[0]), bs[1..]);
      assert done + [bs[0]] + bs[1..] == done + bs;
    }
  }

  /**
    * What a plan comes to, step by step: each one before the first that does not work is completed, that
    * one is failed and gives the reason, the ones after it are skipped; and the calls made on actions
    * are exactly those of the steps that were reached.
    */
  lemma RunOutcome(dryRun: bool, plan: seq<string>, bs: seq<Behaviour>)
    requires |bs| == |plan|
    ensures Ran(dryRun, plan, bs, RunPlan(dryRun, plan, bs))
  {
    NothingRunYet(dryRun, plan);
    RunFromOutcome(dryRun, plan, [], NOTHING_RUN, bs);
    assert [] + bs == bs;
  }

  lemma NothingRunYet(dryRun: bool, plan: seq<string>)
    ensures Ran(dryRun, plan, [], NOTHING_RUN)
  {
  }

  /** The run reports no failure exactly when every step has everything it needs. */
  lemma RunSucceedsIffEveryStepDoes(dryRun: bool, plan: seq<string>, bs: seq<Behaviour>)
    requires |bs| == |plan|
    ensures RunPlan(dryRun, plan, bs).failure.None? <==> forall i :: 0 <= i < |bs| ==> Works(dryRun, bs[i])
  {
    RunOutcome(dryRun, plan, bs);
  }

  function TerminalState(dryRun: bool, failed: bool): (s: State)
    ensures s in {Succeeded, Simulated, Failed}
    ensures s == Simulated <==> dryRun && !failed
    ensures s == Failed <==> failed
  {
    if failed then Failed else if dryRun then Simulated else Succeeded
  }

  /** The runner, with the calls it has made on actions since it was built. */
  class StepRunner {
    const dryRun: bool
    var calls: seq<Call>

    constructor (dryRun: bool)
      ensures this.dryRun == dryRun && calls == []
    {
      this.dryRun := dryRun;
      calls := [];
    }

    method RunStep(index: nat, action: string, b: Behaviour) returns (status: StepStatus, err: Option<Reason>)
      modifies this`calls
      ensures err == Failure(dryRun, b) && (err.None? <==> Works(dryRun, b))
      ensures status == StepStatus(index, action, if err.Some? then PhaseFailed else Completed(dryRun))
      ensures calls == old(calls) + Calls(dryRun, index, b)
    {
      StepVerdict(dryRun, b);
      status := StepStatus(index, action, PhaseRunning);
      if !b.known {
        return status.(phase := PhaseFailed), Some(UnknownAction);
      }
      if !b.resolves {
        return status.(phase := PhaseFailed), Some(StepFailed);
      }
      if dryRun {
        calls := calls + [PlanCall(index)];
        if !b.plans {
          return status.(phase := PhaseFailed), Some(StepFailed);
        }
        return status.(phase := PhaseSimulated), None;
      }
      calls := calls + [ExecuteCall(index)];
      if !b.executes {
        return status.(phase := PhaseFailed), Some(StepFailed);
      }
      if b.verifier {
        if !b.timeoutValid {
          return status.(phase := PhaseFailed), Some(StepFailed);
        }
        calls := calls + [VerifyCall(index)];
        if !b.verifies {
          return status.(phase := PhaseFailed), Some(StepFailed);
        }
      }
      return status.(phase := PhaseSucceeded), None;
    }

    /** The body of Run's loop: the next step runs, or is skipped after a failure. */
    method RunNext(plan: seq<string>, before: seq<StepStatus>, failed: Option<Reason>, b: Behaviour)
      returns (steps: seq<StepStatus>, err: Option<Reason>)
      requires |before| < |plan|
      modifies this`calls
      ensures var p := Advance(dryRun, plan, Progress(before, failed, []), b);
        steps == p.steps && err == p.failure && calls == old(calls) + p.calls
    {
      var i := |before|;
      if failed.Some? {
        return before + [StepStatus(i, plan[i], PhaseSkipped)], failed;
      }
      var status, failure := RunStep(i, plan[i], b);
      return before + [status], failure;
    }

    method Run(plan: seq<string>, bs: seq<Behaviour>) returns (steps: seq<StepStatus>, err: Option<Reason>)
      requires |bs| == |plan|
      modifies this`calls
      ensures var r := RunPlan(dryRun, plan, bs);
              steps == r.steps && err == r.failure && calls == old(calls) + r.calls
    {
      steps, err := [], None;
      var i := 0;
      ghost var made := [];
      while i < |plan|
        invariant 0 <= i <= |plan| && |steps| == i
        invariant calls == old(calls) + made
        invariant RunFrom(dryRun, plan, Progress(steps, err, made), bs[i..]) == RunPlan(dryRun, plan, bs)
      {
        ghost var before := Progress(steps, err, made);
        steps, err := RunNext(plan, steps, err, bs[i]);
        made := Advance(dryRun, plan, before, bs[i]).calls;
        assert bs[i..][0] == bs[i] && bs[i..][1..] == bs[i + 1..];
        i := i + 1;
      }
    }
  }
}
