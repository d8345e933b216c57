/**
  * What one reconcile decides and the status it builds: internal/engine/controller.go and
  * internal/engine/approval.go, as functions of the record read, the clock and the run's outcome.
  */
module Lifecycle {
  import opened Common
  import opened Records
  import opened Steps
  import opened Channels
  import opened Backoff

  datatype Branch = Done | Interrupt | StopTrying | RunAttempt | Refuse | Wait | Expire

  /** The switch of Reconcile, with awaitApproval's own switch folded in. */
  function Decide(spec: Spec, r: Version, now: Time): Branch {
    if Terminal(r.status.state) then Done
    else if r.status.state == Running then Interrupt
    else if spec.gaveUp then StopTrying
    else if spec.mode == Approval then
      match r.decision
      case Approve => RunAttempt
      case Deny => Refuse
      case Undecided =>
        if spec.deadline.None? then Expire
        else if now < spec.deadline.value then Wait
        else Expire
    else RunAttempt
  }

  /** What is written before a plan is run. */
  function Begin(s: Status, now: Time): Status {
    s.(state := Running, attempt := s.attempt + 1, steps := [],
       startedAt := if s.startedAt.None? then Some(now) else s.startedAt)
  }

  /** The status finish builds, before its completion time is known. */
  function Finish(s: Status, state: State, reason: Reason, escalation: Option<Escalation>): Status {
    s.(state := state, reason := reason,
       message := if reason == NoReason then NoMessage else Explains(reason),
       escalation := escalation)
  }

  /** Steps found mid-flight in an interrupted record are rewritten as failed. */
  function FailRunning(steps: seq<StepStatus>): (r: seq<StepStatus>)
    ensures |r| == |steps|
    ensures forall i :: 0 <= i < |r| ==>
      r[i] == if steps[i].phase == PhaseRunning then steps[i].(phase := PhaseFailed) else steps[i]
  {
    if steps == [] then []
    else [if steps[0].phase == PhaseRunning then steps[0].(phase := PhaseFailed) else steps[0]] + FailRunning(steps[1..])
  }

  /** Every channel of a fallback plan has a behaviour chosen for it. */
  predicate Covers(spec: Spec, channels: seq<Behaviour>) {
    |channels| == |spec.escalation|
  }

  function Page(spec: Spec, channels: seq<Behaviour>, now: Time): Option<Escalation>
    requires Covers(spec, channels)
  {
    Escalate(spec.escalation, spec.firstSuccess, channels, now)
  }

  /** The status a branch other than running an attempt wants to write. */
  function Resolution(spec: Spec, r: Version, branch: Branch, channels: seq<Behaviour>, now: Time): Status
    requires branch in {Interrupt, StopTrying, Refuse, Wait, Expire}
    requires branch == Wait ==> spec.deadline.Some?
    requires Covers(spec, channels)
  {
    match branch
    case Interrupt =>
      Finish(r.status.(steps := FailRunning(r.status.steps)), Failed, Interrupted, r.status.escalation)
    case StopTrying => Finish(r.status, Failed, GaveUp, Page(spec, channels, now))
    case Refuse => Finish(r.status, Failed, Denied, r.status.escalation)
    case Expire => Finish(r.status, Failed, ApprovalTimeout, Page(spec, channels, now))
    case Wait => r.status.(state := AwaitingApproval, reason := NoReason, message := Waiting(spec.deadline.value - now))
  }

  /** A branch that runs the fallback plan; every other one leaves people alone. */
  predicate Pages(spec: Spec, branch: Branch) {
    spec.escalation != [] && (branch == StopTrying || branch == Expire)
  }

  /** A wait that would rewrite the status it already has writes nothing. */
  predicate NothingToWrite(r: Version, branch: Branch, next: Status) {
    branch == Wait && r.status.state == AwaitingApproval && r.status.message == next.message
  }

  predicate GivesUp(spec: Spec, s: Status, p: Progress) {
    p.failure.Some? && s.attempt > spec.retries
  }

  /** The status the end of a run wants to write over the Running one. */
  function Conclusion(spec: Spec, s: Status, p: Progress, channels: seq<Behaviour>, now: Time): Status
    requires Covers(spec, channels)
  {
    var ran := s.(steps := p.steps);
    if p.failure.None? then
      Finish(ran, TerminalState(spec.dryRun, false), NoReason, ran.escalation)
    else if !GivesUp(spec, s, p) then
      ran.(state := Pending, reason := p.failure.value, message := Explains(p.failure.value))
    else
      Finish(ran, Failed, p.failure.value, Page(spec, channels, now))
  }

  /** finish takes the completion time from the clock at the moment it writes. */
  function Stamp(s: Status, now: Time): Status {
    if Terminal(s.state) then s.(completedAt := Some(now)) else s
  }

  /** Whether a landed verdict feeds the guards. */
  predicate FeedsGuards(spec: Spec, s: Status) {
    Terminal(s.state) && spec.target != "" && s.reason != GaveUp
  }

  // ---- A reconcile whose reads are current and whose writes all land -------------------------

  /** The adversary's part of one reconcile: when it starts and ends, how each step and channel behaves. */
  datatype Luck = Luck(now: Time, ended: Time, steps: seq<Behaviour>, channels: seq<Behaviour>)

  predicate Fits(spec: Spec, luck: Luck) {
    |luck.steps| == |spec.steps| && Covers(spec, luck.channels)
  }

  /**
    * The record as a reconcile leaves it that read a version and whose writes landed: it looked at the
    * clock when it began, again when its run was over, and once more when it wrote.
    */
  function Written(spec: Spec, r: Version, luck: Luck, began: Time, decided: Time, ended: Time): Version
    requires Fits(spec, luck)
  {
    var branch := Decide(spec, r, began);
    if branch == Done then r
    else if branch == RunAttempt then
      var running := Begin(r.status, began);
      var p := RunPlan(spec.dryRun, spec.steps, luck.steps);
      r.(status := Stamp(Conclusion(spec, running, p, luck.channels, decided), ended))
    else
      var next := Resolution(spec, r, branch, luck.channels, began);
      if NothingToWrite(r, branch, next) then r else r.(status := Stamp(next, ended))
  }

  /** The record after a reconcile that nothing disturbs. */
  function Settle(spec: Spec, r: Version, luck: Luck): Version
    requires Fits(spec, luck)
  {
    Written(spec, r, luck, luck.now, luck.ended, luck.ended)
  }

  /** How long that reconcile asks to be left alone before the next one. */
  function RequeueAfter(spec: Spec, r: Version, luck: Luck): Time
    requires Fits(spec, luck)
  {
    match Decide(spec, r, luck.now)
    case Wait => Min(spec.deadline.value - luck.now + 1, 60)
    case RunAttempt =>
      if Settle(spec, r, luck).status.state == Pending then WaitBefore(r.status.attempt + 2) else 0
    case _ => 0
  }

  /** Reconciles a record still has ahead of it, not counting approval waits. */
  function Remaining(spec: Spec, s: Status): nat {
    if Terminal(s.state) then 0
    else if s.state == Running then 1
    else 1 + Max(0, spec.retries + 1 - s.attempt)
  }

  /** Every reconcile makes progress, except a wait that starts before the deadline. */
  lemma SettleMakesProgress(spec: Spec, r: Version, luck: Luck)
    requires Fits(spec, luck)
    requires !Terminal(r.status.state) && r.status.attempt <= spec.retries + (if r.status.state == Running then 1 else 0)
    ensures Decide(spec, r, luck.now) != Wait ==>
            Remaining(spec, Settle(spec, r, luck).status) < Remaining(spec, r.status)
    ensures Decide(spec, r, luck.now) == Wait ==>
            && luck.now < spec.deadline.value
            && Settle(spec, r, luck).status.state == AwaitingApproval
            && Settle(spec, r, luck).status.attempt == r.status.attempt
            && 0 < RequeueAfter(spec, r, luck) <= 60
            && luck.now + RequeueAfter(spec, r, luck) <= spec.deadline.value + 1
            && (RequeueAfter(spec, r, luck) < 60 ==> luck.now + RequeueAfter(spec, r, luck) == spec.deadline.value + 1)
  {
  }

  /** However the fallback plan goes, only the record of it differs: it cannot make a failure a success. */
  lemma PagingNeverChangesTheOutcome(spec: Spec, r: Version, luck: Luck, channels: seq<Behaviour>)
    requires Fits(spec, luck) && Covers(spec, channels)
    ensures var a, b := Settle(spec, r, luck), Settle(spec, r, luck.(channels := channels));
      && a.status.(escalation := None) == b.status.(escalation := None) && a.decision == b.decision
      && (a.status.escalation != b.status.escalation ==> a.status.state == Failed && spec.escalation != [])
  {
  }

  /** Reconciles one after another, each at its own time; people may patch the decision in between. */
  function SettleAll(spec: Spec, r: Version, turns: seq<(Decision, Luck)>): Version
    requires forall i :: 0 <= i < |turns| ==> Fits(spec, turns[i].1)
    decreases |turns|
  {
    if turns == [] then r
    else
      assert Fits(spec, turns[0].1);
      SettleAll(spec, Settle(spec, r.(decision := turns[0].0), turns[0].1), turns[1..])
  }

  /** No turn happens before the deadline of a record that has one. */
  predicate PastDeadline(spec: Spec, turns: seq<(Decision, Luck)>) {
    spec.mode == Approval && spec.deadline.Some? ==>
      forall i :: 0 <= i < |turns| ==> turns[i].1.now >= spec.deadline.value
  }

  /**
    * Whatever people decide and however every step behaves, once a record's approval deadline has
    * passed (or it has none to wait for) Retries + 2 reconciles finish it.
    */
  lemma {:induction false} SettlesInBoundedTurns(spec: Spec, r: Version, turns: seq<(Decision, Luck)>)
    requires forall i :: 0 <= i < |turns| ==> Fits(spec, turns[i].1)
    requires PastDeadline(spec, turns)
    requires r.status.attempt <= spec.retries + (if r.status.state == Running then 1 else 0) || Terminal(r.status.state)
    requires |turns| >= Remaining(spec, r.status)
    ensures Terminal(SettleAll(spec, r, turns).status.state)
    decreases |turns|
  {
    if turns != [] {
      assert Fits(spec, turns[0].1);
      var before := r.(decision := turns[0].0);
      var after := Settle(spec, before, turns[0].1);
      if !Terminal(r.status.state) {
        SettleMakesProgress(spec, before, turns[0].1);
      }
      SettlesInBoundedTurns(spec, after, turns[1..]);
    }
  }

  /** The waits asked for by consecutive failing attempts of an ungated record. */
  function WaitsAsked(spec: Spec, r: Version, lucks: seq<Luck>): Time
    requires forall i :: 0 <= i < |lucks| ==> Fits(spec, lucks[i])
    decreases |lucks|
  {
    if lucks == [] then 0
    else
      assert Fits(spec, lucks[0]);
      RequeueAfter(spec, r, lucks[0]) + WaitsAsked(spec, Settle(spec, r, lucks[0]), lucks[1..])
  }

  predicate EveryAttemptFails(spec: Spec, lucks: seq<Luck>) {
    forall i :: 0 <= i < |lucks| ==>
      Fits(spec, lucks[i]) && RunPlan(spec.dryRun, spec.steps, lucks[i].steps).failure.Some?
  }

  /** Turns in which nobody touches the decision. */
  function Unpatched(d: Decision, lucks: seq<Luck>): (turns: seq<(Decision, Luck)>)
    ensures |turns| == |lucks| && forall i :: 0 <= i < |turns| ==> turns[i] == (d, lucks[i])
  {
    if lucks == [] then [] else [(d, lucks[0])] + Unpatched(d, lucks[1..])
  }

  /** One failing attempt: another one later, or the end. */
  lemma FailedAttempt(spec: Spec, r: Version, luck: Luck)
    requires Fits(spec, luck) && Decide(spec, r, luck.now) == RunAttempt && r.status.attempt <= spec.retries
    requires RunPlan(spec.dryRun, spec.steps, luck.steps).failure.Some?
    ensures var after := Settle(spec, r, luck);
      && after.decision == r.decision && after.status.attempt == r.status.attempt + 1
      && after.status.state == (if r.status.attempt < spec.retries then Pending else Failed)
      && RequeueAfter(spec, r, luck) == (if r.status.attempt < spec.retries then WaitBefore(r.status.attempt + 2) else 0)
  {
  }

  /** A record that may run an attempt, and as many attempts as it has left, all of which fail. */
  ghost predicate FailsOn(spec: Spec, r: Version, lucks: seq<Luck>) {
    && !spec.gaveUp && (spec.mode != Approval || r.decision == Approve)
    && !Terminal(r.status.state) && r.status.state != Running && r.status.attempt <= spec.retries
    && |lucks| == spec.retries + 1 - r.status.attempt && EveryAttemptFails(spec, lucks)
  }

  lemma FailsOnward(spec: Spec, r: Version, lucks: seq<Luck>)
    requires FailsOn(spec, r, lucks)
    ensures Fits(spec, lucks[0]) && forall i :: 0 <= i < |lucks| ==> Fits(spec, lucks[i])
    ensures var after := Settle(spec, r, lucks[0]);
      && after.decision == r.decision && after.status.attempt == r.status.attempt + 1
      && RequeueAfter(spec, r, lucks[0]) == (if r.status.attempt < spec.retries then WaitBefore(r.status.attempt + 2) else 0)
      && (if r.status.attempt < spec.retries then FailsOn(spec, after, lucks[1..]) else after.status.state == Failed && lucks[1..] == [])
  {
    assert Fits(spec, lucks[0]);
    FailedAttempt(spec, r, lucks[0]);
    assert EveryAttemptFails(spec, lucks[1..]);
  }

  lemma {:induction false} FailingRecordWaits(spec: Spec, r: Version, lucks: seq<Luck>)
    requires FailsOn(spec, r, lucks) && forall i :: 0 <= i < |lucks| ==> Fits(spec, lucks[i])
    ensures WaitsAsked(spec, r, lucks) == TotalWait(spec.retries) - TotalWait(r.status.attempt)
    decreases |lucks|
  {
    FailsOnward(spec, r, lucks);
    if r.status.attempt < spec.retries {
      FailingRecordWaits(spec, Settle(spec, r, lucks[0]), lucks[1..]);
    }
  }

  lemma {:induction false} FailingRecordEnds(spec: Spec, r: Version, lucks: seq<Luck>)
    requires FailsOn(spec, r, lucks) && forall i :: 0 <= i < |lucks| ==> Fits(spec, lucks[i])
    ensures var last := SettleAll(spec, r, Unpatched(r.decision, lucks));
      last.status.state == Failed && last.status.attempt == spec.retries + 1
    decreases |lucks|
  {
    FailsOnward(spec, r, lucks);
    UnpatchedTurn(spec, r, lucks);
    if r.status.attempt < spec.retries {
      FailingRecordEnds(spec, Settle(spec, r, lucks[0]), lucks[1..]);
    }
  }

  /**
    * A record that fails every attempt runs exactly Retries + 1 of them, ends Failed, and has been
    * scheduled to wait the sum of the capped doubling sequence in between.
    */
  lemma FailingRecordSchedule(spec: Spec, r: Version, lucks: seq<Luck>)
    requires !spec.gaveUp && (spec.mode != Approval || r.decision == Approve)
    requires !Terminal(r.status.state) && r.status.state != Running && r.status.attempt <= spec.retries
    requires |lucks| == spec.retries + 1 - r.status.attempt && EveryAttemptFails(spec, lucks)
    ensures forall i :: 0 <= i < |lucks| ==> Fits(spec, lucks[i])
    ensures WaitsAsked(spec, r, lucks) == TotalWait(spec.retries) - TotalWait(r.status.attempt)
    ensures var last := SettleAll(spec, r, Unpatched(r.decision, lucks));
            last.status.state == Failed && last.status.attempt == spec.retries + 1
  {
    FailingRecordWaits(spec, r, lucks);
    FailingRecordEnds(spec, r, lucks);
  }

  /** The first of several turns in which nobody touches the decision. */
  lemma UnpatchedTurn(spec: Spec, r: Version, lucks: seq<Luck>)
    requires lucks != [] && forall i :: 0 <= i < |lucks| ==> Fits(spec, lucks[i])
    ensures SettleAll(spec, r, Unpatched(r.decision, lucks)) ==
      SettleAll(spec, Settle(spec, r, lucks[0]), Unpatched(r.decision, lucks[1..]))
  {
    var turns := Unpatched(r.decision, lucks);
    assert turns[1..] == Unpatched(r.decision, lucks[1..]);
    assert r.(decision := turns[0].0) == r;
  }
}
