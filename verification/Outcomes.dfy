/**
  * What one reconcile leaves behind, field by field: internal/engine/controller.go and
  * internal/engine/approval.go. Nothing here is said through the functions that build the status.
  */
module Outcomes {
  import opened Common
  import opened Records
  import opened Steps
  import opened Channels
  import opened Backoff
  import opened Lifecycle

  /** A record that has neither started its latest attempt nor ended. */
  predicate Open(s: State) {
    s in {New, Pending, AwaitingApproval}
  }

  /** A verdict: what it says, when it was written, and everything about the attempts as it was. */
  predicate Ends(before: Status, after: Status, state: State, reason: Reason, ended: Time) {
    && after.state == state && after.reason == reason
    && after.message == (if reason == NoReason then NoMessage else Explains(reason))
    && after.completedAt == Some(ended)
    && after.attempt == before.attempt && after.startedAt == before.startedAt
  }

  /** A finished record is not touched. */
  lemma FinishedIsLeftAlone(spec: Spec, r: Version, luck: Luck, began: Time, decided: Time, ended: Time)
    requires Fits(spec, luck) && r.status.state in {Succeeded, Failed, Simulated}
    ensures Written(spec, r, luck, began, decided, ended) == r && RequeueAfter(spec, r, luck.(now := began)) == 0
  {
  }

  /** A record found Running, whatever else it is, fails as Interrupted; a step that says it is running has failed. */
  lemma RunningIsInterrupted(spec: Spec, r: Version, luck: Luck, began: Time, decided: Time, ended: Time)
    requires Fits(spec, luck) && r.status.state == Running
    ensures var after := Written(spec, r, luck, began, decided, ended);
      && after.decision == r.decision && Ends(r.status, after.status, Failed, Interrupted, ended)
      && after.status.escalation == r.status.escalation && |after.status.steps| == |r.status.steps|
      && (forall i :: 0 <= i < |r.status.steps| ==>
            after.status.steps[i] == if r.status.steps[i].phase == PhaseRunning then r.status.steps[i].(phase := PhaseFailed)
                                     else r.status.steps[i])
      && RequeueAfter(spec, r, luck.(now := began)) == 0
  {
  }

  /** A give-up record runs its fallback plan and fails as GaveUp, whatever its mode and its decision. */
  lemma GiveUpIsPaged(spec: Spec, r: Version, luck: Luck, began: Time, decided: Time, ended: Time)
    requires Fits(spec, luck) && Open(r.status.state) && spec.gaveUp
    ensures var after := Written(spec, r, luck, began, decided, ended);
      && after.decision == r.decision && Ends(r.status, after.status, Failed, GaveUp, ended)
      && after.status.steps == r.status.steps
      && PageRecorded(spec.escalation, spec.firstSuccess, luck.channels, began, after.status.escalation)
      && RequeueAfter(spec, r, luck.(now := began)) == 0
  {
    EscalateIsRecorded(spec.escalation, spec.firstSuccess, luck.channels, began);
  }

  predicate Gated(spec: Spec, r: Version) {
    Open(r.status.state) && !spec.gaveUp && spec.mode == Approval
  }

  /** A denied record fails as Denied; no step and no channel is run. */
  lemma DeniedIsEnded(spec: Spec, r: Version, luck: Luck, began: Time, decided: Time, ended: Time)
    requires Fits(spec, luck) && Gated(spec, r) && r.decision == Deny
    ensures var after := Written(spec, r, luck, began, decided, ended);
      && after.decision == Deny && Ends(r.status, after.status, Failed, Denied, ended)
      && after.status.steps == r.status.steps && after.status.escalation == r.status.escalation
      && RequeueAfter(spec, r, luck.(now := began)) == 0
  {
  }

  /** An undecided record before its deadline says that it waits and for how long, and nothing else changes. */
  lemma UndecidedWaits(spec: Spec, r: Version, luck: Luck, began: Time, decided: Time, ended: Time)
    requires Fits(spec, luck) && Gated(spec, r) && r.decision == Undecided
    requires spec.deadline.Some? && began < spec.deadline.value
    ensures var left := spec.deadline.value - began;
      var after := Written(spec, r, luck, began, decided, ended);
      && after.decision == Undecided && after.status.state == AwaitingApproval && after.status.message == Waiting(left)
      && (r.status.state == AwaitingApproval && r.status.message == Waiting(left) ==> after == r)
      && (r.status.state != AwaitingApproval || r.status.message != Waiting(left) ==> after.status.reason == NoReason)
      && after.status.(state := r.status.state, reason := r.status.reason, message := r.status.message) == r.status
      && RequeueAfter(spec, r, luck.(now := began)) == if left < 60 then left + 1 else 60
  {
  }

  /** At its deadline, or without one, it runs the fallback plan and fails as ApprovalTimeout. */
  lemma UndecidedTimesOut(spec: Spec, r: Version, luck: Luck, began: Time, decided: Time, ended: Time)
    requires Fits(spec, luck) && Gated(spec, r) && r.decision == Undecided
    requires spec.deadline.Some? ==> began >= spec.deadline.value
    ensures var after := Written(spec, r, luck, began, decided, ended);
      && after.decision == Undecided && Ends(r.status, after.status, Failed, ApprovalTimeout, ended)
      && after.status.steps == r.status.steps
      && PageRecorded(spec.escalation, spec.firstSuccess, luck.channels, began, after.status.escalation)
      && RequeueAfter(spec, r, luck.(now := began)) == 0
  {
    EscalateIsRecorded(spec.escalation, spec.firstSuccess, luck.channels, began);
  }

  /** What an attempt leaves: its number, its start, every step as it reads, and no more decided than was. */
  ghost predicate Attempted(spec: Spec, before: Status, after: Status, luck: Luck, began: Time)
    requires Fits(spec, luck)
  {
    && after.attempt == before.attempt + 1
    && after.startedAt == (if before.startedAt.Some? then before.startedAt else Some(began))
    && |after.steps| == |spec.steps|
    && forall i :: 0 <= i < |spec.steps| ==> Reads(spec.dryRun, spec.steps, luck.steps, i, after.steps[i])
  }

  /** The reason of a failed attempt is that of the step that failed it. */
  ghost predicate SaysWhy(dryRun: bool, bs: seq<Behaviour>, after: Status) {
    && after.message == Explains(after.reason)
    && exists i: nat :: FailsAt(dryRun, bs, i) && after.reason == if bs[i].known then StepFailed else UnknownAction
  }

  /**
    * What an attempt leaves behind: a success, in the record's own posture, if and only if every step has
    * everything it needs; otherwise the steps that ran and why, and either another attempt after the
    * back-off or, once the budget is spent, the verdict with the fallback plan's outcome in it.
    */
  lemma AttemptOutcome(spec: Spec, r: Version, luck: Luck, began: Time, decided: Time, ended: Time)
    requires Fits(spec, luck) && Open(r.status.state) && !spec.gaveUp && (spec.mode != Approval || r.decision == Approve)
    ensures var after := Written(spec, r, luck, began, decided, ended);
      var allWork := forall i :: 0 <= i < |luck.steps| ==> Works(spec.dryRun, luck.steps[i]);
      var s, requeue := after.status, RequeueAfter(spec, r, luck.(now := began));
      && after.decision == r.decision && Attempted(spec, r.status, s, luck, began)
      && (allWork ==>
            && s.state == (if spec.dryRun then Simulated else Succeeded) && s.reason == NoReason && s.message == NoMessage
            && s.completedAt == Some(ended) && s.escalation == r.status.escalation && requeue == 0)
      && (!allWork ==> SaysWhy(spec.dryRun, luck.steps, s))
      && (!allWork && r.status.attempt < spec.retries ==>
            && s.state == Pending && s.completedAt == r.status.completedAt && s.escalation == r.status.escalation
            && requeue == WaitBefore(r.status.attempt + 2))
      && (!allWork && r.status.attempt >= spec.retries ==>
            && s.state == Failed && s.completedAt == Some(ended) && requeue == 0
            && PageRecorded(spec.escalation, spec.firstSuccess, luck.channels, decided, s.escalation))
  {
    var running, p := Begin(r.status, began), RunPlan(spec.dryRun, spec.steps, luck.steps);
    RunOutcome(spec.dryRun, spec.steps, luck.steps);
    RunSucceedsIffEveryStepDoes(spec.dryRun, spec.steps, luck.steps);
    ConclusionReads(spec, running, p, luck.channels, decided, ended);
    AttemptWrites(spec, r, luck, began, decided, ended);
  }

  lemma AttemptWrites(spec: Spec, r: Version, luck: Luck, began: Time, decided: Time, ended: Time)
    requires Fits(spec, luck) && Open(r.status.state) && !spec.gaveUp && (spec.mode != Approval || r.decision == Approve)
    ensures var s := Stamp(Conclusion(spec, Begin(r.status, began), RunPlan(spec.dryRun, spec.steps, luck.steps), luck.channels, decided), ended);
      && Written(spec, r, luck, began, decided, ended) == r.(status := s)
      && RequeueAfter(spec, r, luck.(now := began)) == if s.state == Pending then WaitBefore(r.status.attempt + 2) else 0
  {
  }

  /** What the end of a run makes of its progress. */
  lemma ConclusionReads(spec: Spec, running: Status, p: Progress, channels: seq<Behaviour>, decided: Time, ended: Time)
    requires Covers(spec, channels)
    ensures var s := Stamp(Conclusion(spec, running, p, channels, decided), ended);
      && s.attempt == running.attempt && s.startedAt == running.startedAt && s.steps == p.steps
      && (p.failure.None? ==>
            && s.state == (if spec.dryRun then Simulated else Succeeded) && s.reason == NoReason && s.message == NoMessage
            && s.completedAt == Some(ended) && s.escalation == running.escalation)
      && (p.failure.Some? ==> s.reason == p.failure.value && (s.reason != NoReason ==> s.message == Explains(s.reason)))
      && (p.failure.Some? && running.attempt <= spec.retries ==>
            s.state == Pending && s.completedAt == running.completedAt && s.escalation == running.escalation)
      && (p.failure.Some? && running.attempt > spec.retries ==>
            && s.state == Failed && s.completedAt == Some(ended)
            && PageRecorded(spec.escalation, spec.firstSuccess, channels, decided, s.escalation))
  {
    EscalateIsRecorded(spec.escalation, spec.firstSuccess, channels, decided);
  }

  /** Every record is one of these. */
  lemma EveryRecordIsCovered(spec: Spec, r: Version, now: Time)
    ensures
      || r.status.state in {Succeeded, Failed, Simulated} || r.status.state == Running
      || (Open(r.status.state) && spec.gaveUp)
      || (Gated(spec, r) && r.decision == Deny)
      || (Gated(spec, r) && r.decision == Undecided && spec.deadline.Some? && now < spec.deadline.value)
      || (Gated(spec, r) && r.decision == Undecided && (spec.deadline.Some? ==> now >= spec.deadline.value))
      || (Open(r.status.state) && !spec.gaveUp && (spec.mode != Approval || r.decision == Approve))
  {
  }
}
