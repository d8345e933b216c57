/** The fallback plan: runChannels and escalate in internal/engine/escalation.go. */
module Channels {
  import opened Common
  import opened Records
  import opened Steps

  /** The loop state of runChannels. */
  datatype Outcome = Outcome(steps: seq<StepStatus>, delivered: bool, lastErr: Option<Reason>)

  const NOT_STARTED := Outcome([], false, None)

  function Try(plan: seq<string>, firstSuccess: bool, o: Outcome, b: Behaviour): Outcome
    requires |o.steps| < |plan|
  {
    var i := |o.steps|;
    if o.delivered && firstSuccess then
      o.(steps := o.steps + [StepStatus(i, plan[i], PhaseSkipped)])
    else
      var f := Failure(false, b);
      if f.Some? then
        Outcome(o.steps + [StepStatus(i, plan[i], PhaseFailed)], o.delivered, f)
      else
        Outcome(o.steps + [StepStatus(i, plan[i], PhaseSucceeded)], true, o.lastErr)
  }

  function TryFrom(plan: seq<string>, firstSuccess: bool, o: Outcome, bs: seq<Behaviour>): Outcome
    requires |o.steps| + |bs| <= |plan|
    decreases |bs|
  {
    if bs == [] then o else TryFrom(plan, firstSuccess, Try(plan, firstSuccess, o, bs[0]), bs[1..])
  }

  function TryAll(plan: seq<string>, firstSuccess: bool, bs: seq<Behaviour>): Outcome
    requires |bs| == |plan|
  {
    TryFrom(plan, firstSuccess, NOT_STARTED, bs)
  }

  ghost predicate SucceededAt(steps: seq<StepStatus>, hit: nat) {
    && hit < |steps|
    && steps[hit].phase == PhaseSucceeded
    && (forall i :: 0 <= i < hit ==> steps[i].phase == PhaseFailed)
    && (forall i :: hit < i < |steps| ==> steps[i].phase == PhaseSkipped)
  }

  /** What the statuses, the delivery flag and the error say about one another. */
  ghost predicate Faithful(plan: seq<string>, firstSuccess: bool, o: Outcome) {
    && |o.steps| <= |plan|
    && (forall i :: 0 <= i < |o.steps| ==> o.steps[i].index == i && o.steps[i].action == plan[i])
    && (o.delivered <==> exists i :: 0 <= i < |o.steps| && o.steps[i].phase == PhaseSucceeded)
    && (o.lastErr.Some? <==> exists i :: 0 <= i < |o.steps| && o.steps[i].phase == PhaseFailed)
    && (!o.delivered ==> forall i :: 0 <= i < |o.steps| ==> o.steps[i].phase == PhaseFailed)
    && (!firstSuccess ==> forall i :: 0 <= i < |o.steps| ==> o.steps[i].phase in {PhaseSucceeded, PhaseFailed})
    && (firstSuccess && o.delivered ==> exists hit :: SucceededAt(o.steps, hit))
  }

  lemma TryKeepsFaithful(plan: seq<string>, firstSuccess: bool, o: Outcome, b: Behaviour)
    requires |o.steps| < |plan| && Faithful(plan, firstSuccess, o)
    ensures Faithful(plan, firstSuccess, Try(plan, firstSuccess, o, b))
  {
    var n, q := |o.steps|, Try(plan, firstSuccess, o, b);
    assert forall i :: 0 <= i < n ==> q.steps[i] == o.steps[i];
    if o.delivered && firstSuccess {
      var hit :| SucceededAt(o.steps, hit);
      assert SucceededAt(q.steps, hit);
    } else if Failure(false, b).None? {
      assert q.steps[n].phase == PhaseSucceeded;
      if firstSuccess { assert SucceededAt(q.steps, n); }
    } else {
      assert q.steps[n].phase == PhaseFailed;
    }
    if o.delivered {
      var i :| 0 <= i < n && o.steps[i].phase == PhaseSucceeded;
      assert q.steps[i].phase == PhaseSucceeded;
    }
    if o.lastErr.Some? {
      var i :| 0 <= i < n && o.steps[i].phase == PhaseFailed;
      assert q.steps[i].phase == PhaseFailed;
    }
  }

  lemma {:induction false} TryFromFaithful(plan: seq<string>, firstSuccess: bool, o: Outcome, bs: seq<Behaviour>)
    requires |o.steps| + |bs| <= |plan| && Faithful(plan, firstSuccess, o)
    ensures Faithful(plan, firstSuccess, TryFrom(plan, firstSuccess, o, bs))
    ensures |TryFrom(plan, firstSuccess, o, bs).steps| == |o.steps| + |bs|
    decreases |bs|
  {
    if bs != [] {
      TryKeepsFaithful(plan, firstSuccess, o, bs[0]);
      TryFromFaithful(plan, firstSuccess, Try(plan, firstSuccess, o, bs[0]), bs[1..]);
    }
  }

  // ---- What the channels come to, in their own fields -------------------------------------------

  ghost predicate SomeWork(bs: seq<Behaviour>, n: nat) {
    exists i :: 0 <= i < n && i < |bs| && Works(false, bs[i])
  }

  /** A channel is tried unless one before it has worked and the first success is enough. */
  ghost predicate Tried(firstSuccess: bool, bs: seq<Behaviour>, i: nat) {
    !(firstSuccess && SomeWork(bs, i))
  }

  ghost predicate ChannelReads(plan: seq<string>, firstSuccess: bool, bs: seq<Behaviour>, i: nat, s: StepStatus)
    requires i < |plan| && i < |bs|
  {
    && s.index == i && s.action == plan[i]
    && s.phase == if !Tried(firstSuccess, bs, i) then PhaseSkipped else if Works(false, bs[i]) then PhaseSucceeded else PhaseFailed
  }

  /** A channel that is tried and does not work. */
  ghost predicate FailedTry(firstSuccess: bool, bs: seq<Behaviour>, i: nat) {
    i < |bs| && Tried(firstSuccess, bs, i) && !Works(false, bs[i])
  }

  /** The channels tried so far: how each reads, whether anybody was told, and that a failure leaves an error. */
  ghost predicate TriedSoFar(plan: seq<string>, firstSuccess: bool, bs: seq<Behaviour>, o: Outcome)
    requires |bs| <= |plan|
  {
    && |o.steps| == |bs|
    && (forall i :: 0 <= i < |bs| ==> ChannelReads(plan, firstSuccess, bs, i, o.steps[i]))
    && (o.delivered <==> SomeWork(bs, |bs|))
    && (o.lastErr.Some? <==> exists i: nat :: FailedTry(firstSuccess, bs, i))
  }

  lemma SomeWorkSnoc(bs: seq<Behaviour>, b: Behaviour, i: nat)
    ensures i <= |bs| ==> (SomeWork(bs + [b], i) <==> SomeWork(bs, i))
    ensures SomeWork(bs + [b], |bs| + 1) <==> SomeWork(bs, |bs|) || Works(false, b)
  {
    var all := bs + [b];
    assert all[|bs|] == b && forall j :: 0 <= j < |bs| ==> all[j] == bs[j];
    if SomeWork(bs, |bs|) {
      var j :| 0 <= j < |bs| && Works(false, bs[j]);
      assert Works(false, all[j]);
    }
    if i <= |bs| && SomeWork(bs, i) {
      var j :| 0 <= j < i && j < |bs| && Works(false, bs[j]);
      assert Works(false, all[j]);
    }
  }

  lemma FailedTrySnoc(firstSuccess: bool, bs: seq<Behaviour>, b: Behaviour)
    ensures (exists i: nat :: FailedTry(firstSuccess, bs + [b], i)) <==>
      (exists i: nat :: FailedTry(firstSuccess, bs, i)) || (Tried(firstSuccess, bs, |bs|) && !Works(false, b))
  {
    var all := bs + [b];
    forall i: nat ensures i < |bs| ==> (FailedTry(firstSuccess, all, i) <==> FailedTry(firstSuccess, bs, i)) {
      SomeWorkSnoc(bs, b, i);
    }
    SomeWorkSnoc(bs, b, |bs|);
    assert FailedTry(firstSuccess, all, |bs|) <==> Tried(firstSuccess, bs, |bs|) && !Works(false, b);
    if i: nat :| FailedTry(firstSuccess, all, i) {
      assert i < |bs| ==> FailedTry(firstSuccess, bs, i);
    }
    if i: nat :| FailedTry(firstSuccess, bs, i) {
      assert FailedTry(firstSuccess, all, i);
    }
  }

  lemma TryOnce(plan: seq<string>, firstSuccess: bool, bs: seq<Behaviour>, o: Outcome, b: Behaviour)
    requires |bs| < |plan| && TriedSoFar(plan, firstSuccess, bs, o)
    ensures TriedSoFar(plan, firstSuccess, bs + [b], Try(plan, firstSuccess, o, b))
  {
    var all, q := bs + [b], Try(plan, firstSuccess, o, b);
    StepVerdict(false, b);
    SomeWorkSnoc(bs, b, |bs|);
    FailedTrySnoc(firstSuccess, bs, b);
    forall i | 0 <= i < |all| ensures ChannelReads(plan, firstSuccess, all, i, q.steps[i]) {
      SomeWorkSnoc(bs, b, i);
      if i < |bs| { assert ChannelReads(plan, firstSuccess, bs, i, o.steps[i]); }
    }
  }

  lemma {:induction false} TryFromOutcome(plan: seq<string>, firstSuccess: bool, done: seq<Behaviour>, o: Outcome, bs: seq<Behaviour>)
    requires |done| + |bs| <= |plan| && TriedSoFar(plan, firstSuccess, done, o)
    ensures TriedSoFar(plan, firstSuccess, done + bs, TryFrom(plan, firstSuccess, o, bs))
    decreases |bs|
  {
    if bs == [] {
      assert done + bs == done;
    } else {
      TryOnce(plan, firstSuccess, done, o, bs[0]);
      TryFromOutcome(plan, firstSuccess, done + [bs[0]], Try(plan, firstSuccess, o, bs[0]), bs[1..]);
      assert done + [bs[0]] + bs[1..] == done + bs;
    }
  }

  /**
    * For arbitrary channel behaviour: somebody was told exactly when some channel works; every channel
    * that is tried reports its own verdict, and one is skipped exactly when the first success is enough
    * and an earlier one worked; and an escalation that told nobody has an error to record.
    */
  lemma ChannelsOutcome(plan: seq<string>, firstSuccess: bool, bs: seq<Behaviour>)
    requires |bs| == |plan|
    ensures var o := TryAll(plan, firstSuccess, bs);
      && |o.steps| == |plan| && Faithful(plan, firstSuccess, o)
      && (o.delivered <==> exists i :: 0 <= i < |bs| && Works(false, bs[i]))
      && (!o.delivered && plan != [] ==> o.lastErr.Some?)
      && (forall i :: 0 <= i < |bs| ==> ChannelReads(plan, firstSuccess, bs, i, o.steps[i]))
  {
    TryFromFaithful(plan, firstSuccess, NOT_STARTED, bs);
    NothingTriedYet(plan, firstSuccess);
    TryFromOutcome(plan, firstSuccess, [], NOT_STARTED, bs);
    assert [] + bs == bs;
    var o := TryAll(plan, firstSuccess, bs);
    if !o.delivered && plan != [] {
      assert o.steps[0].phase == PhaseFailed;
    }
  }

  lemma NothingTriedYet(plan: seq<string>, firstSuccess: bool)
    ensures TriedSoFar(plan, firstSuccess, [], NOT_STARTED)
  {
  }

  // ---- The calls that page ------------------------------------------------------------------------

  /** The calls the channels get, in order: the live calls of each one that is tried. */
  function ChannelCalls(firstSuccess: bool, told: bool, n: nat, bs: seq<Behaviour>): seq<Call>
    decreases |bs|
  {
    if bs == [] then []
    else if firstSuccess && told then ChannelCalls(firstSuccess, told, n + 1, bs[1..])
    else Calls(false, n, bs[0]) + ChannelCalls(firstSuccess, told || Failure(false, bs[0]).None?, n + 1, bs[1..])
  }

  lemma {:induction false} ChannelCallsFrom(firstSuccess: bool, done: seq<Behaviour>, bs: seq<Behaviour>, c: Call)
    ensures c in ChannelCalls(firstSuccess, SomeWork(done, |done|), |done|, bs) <==>
      var all := done + bs;
      |done| <= c.step < |all| && Tried(firstSuccess, all, c.step) && MakesCall(false, all[c.step], c)
    decreases |bs|
  {
    var all, n := done + bs, |done|;
    if bs != [] {
      var b, next := bs[0], done + [bs[0]];
      assert next + bs[1..] == all && all[n] == b;
      StepVerdict(false, b);
      StepCalls(false, n, b, c);
      SomeWorkSnoc(done, b, n);
      ChannelCallsFrom(firstSuccess, next, bs[1..], c);
      SomeWorkPrefix(done, bs, n);
    }
  }

  lemma SomeWorkPrefix(done: seq<Behaviour>, bs: seq<Behaviour>, n: nat)
    requires n <= |done|
    ensures SomeWork(done + bs, n) <==> SomeWork(done, n)
  {
    assert forall j :: 0 <= j < |done| ==> (done + bs)[j] == done[j];
    if SomeWork(done, n) {
      var j :| 0 <= j < n && j < |done| && Works(false, done[j]);
      assert Works(false, (done + bs)[j]);
    }
  }

  /** Paging is calling: each channel that is tried and can be resolved has its Execute called, and nothing else is. */
  lemma PagingCalls(firstSuccess: bool, bs: seq<Behaviour>, c: Call)
    ensures c in ChannelCalls(firstSuccess, false, 0, bs) <==>
      c.step < |bs| && Tried(firstSuccess, bs, c.step) && MakesCall(false, bs[c.step], c)
  {
    ChannelCallsFrom(firstSuccess, [], bs, c);
    assert [] + bs == bs && !SomeWork([], 0);
  }

  /** What an escalation leaves on the record; nothing when the strategy declares no channel. */
  function Escalate(plan: seq<string>, firstSuccess: bool, bs: seq<Behaviour>, now: Time): Option<Escalation>
    requires |bs| == |plan|
  {
    if plan == [] then None
    else
      var o := TryAll(plan, firstSuccess, bs);
      Some(Escalation(if o.delivered then PhaseSucceeded else PhaseFailed, o.steps, now))
  }

  /** The runner is a live one even for a simulated record: people are told for real. */
  method RunChannels(runner: StepRunner, plan: seq<string>, firstSuccess: bool, bs: seq<Behaviour>)
    returns (steps: seq<StepStatus>, delivered: bool, lastErr: Option<Reason>)
    requires |bs| == |plan| && !runner.dryRun
    modifies runner`calls
    ensures Outcome(steps, delivered, lastErr) == TryAll(plan, firstSuccess, bs)
    ensures runner.calls == old(runner.calls) + ChannelCalls(firstSuccess, false, 0, bs)
  {
    steps, delivered, lastErr := [], false, None;
    var i := 0;
    ghost var made: seq<Call> := [];
    assert bs[0..] == bs;
    while i < |plan|
      invariant 0 <= i <= |plan| && |steps| == i
      invariant runner.calls == old(runner.calls) + made
      invariant made + ChannelCalls(firstSuccess, delivered, i, bs[i..]) == ChannelCalls(firstSuccess, false, 0, bs)
      invariant TryFrom(plan, firstSuccess, Outcome(steps, delivered, lastErr), bs[i..]) == TryAll(plan, firstSuccess, bs)
    {
      ghost var before := Outcome(steps, delivered, lastErr);
      ghost var known := made;
      if delivered && firstSuccess {
        steps := steps + [StepStatus(i, plan[i], PhaseSkipped)];
      } else {
        var status, err := runner.RunStep(i, plan[i], bs[i]);
        made := made + Calls(false, i, bs[i]);
        steps := steps + [status];
        if err.Some? {
          lastErr := err;
        } else {
          delivered := true;
        }
      }
      assert Outcome(steps, delivered, lastErr) == Try(plan, firstSuccess, before, bs[i]);
      assert bs[i..][0] == bs[i] && bs[i..][1..] == bs[i + 1..];
      Associates(known, Calls(false, i, bs[i]), ChannelCalls(firstSuccess, delivered, i + 1, bs[i + 1..]));
      i := i + 1;
    }
    assert bs[i..] == [];
  }

  /** What is left of a fallback plan on the record: its channels as they read, and whether anybody was told. */
  ghost predicate PageRecorded(plan: seq<string>, firstSuccess: bool, bs: seq<Behaviour>, now: Time, e: Option<Escalation>)
    requires |bs| == |plan|
  {
    && (e.Some? <==> plan != [])
    && (e.Some? ==>
          && e.value.completedAt == now && |e.value.steps| == |plan|
          && (e.value.phase == PhaseSucceeded <==> exists i :: 0 <= i < |bs| && Works(false, bs[i]))
          && e.value.phase in {PhaseSucceeded, PhaseFailed}
          && forall i :: 0 <= i < |bs| ==> ChannelReads(plan, firstSuccess, bs, i, e.value.steps[i]))
  }

  lemma EscalateIsRecorded(plan: seq<string>, firstSuccess: bool, bs: seq<Behaviour>, now: Time)
    requires |bs| == |plan|
    ensures PageRecorded(plan, firstSuccess, bs, now, Escalate(plan, firstSuccess, bs, now))
  {
    ChannelsOutcome(plan, firstSuccess, bs);
  }

  /** Runs the fallback plan; reading the error of an undelivered one is safe by ChannelsOutcome. */
  method RunEscalation(plan: seq<string>, firstSuccess: bool, bs: seq<Behaviour>, now: Time)
    returns (status: Option<Escalation>, calls: seq<Call>)
    requires |bs| == |plan|
    ensures status == Escalate(plan, firstSuccess, bs, now) && PageRecorded(plan, firstSuccess, bs, now, status)
    ensures calls == ChannelCalls(firstSuccess, false, 0, bs)
  {
    EscalateIsRecorded(plan, firstSuccess, bs, now);
    if plan == [] {
      return None, [];
    }
    var runner := new StepRunner(false);
    var steps, delivered, lastErr := RunChannels(runner, plan, firstSuccess, bs);
    var phase := PhaseSucceeded;
    if !delivered {
      ChannelsOutcome(plan, firstSuccess, bs);
      assert lastErr.Some?;
      phase := PhaseFailed;
    }
    return Some(Escalation(phase, steps, now)), runner.calls;
  }
}
