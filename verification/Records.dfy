/** The Remediation resource: api/v1alpha1/remediation_types.go. */
module Records {
  import opened Common

  // New is the state before the first status write, the empty string.
  datatype State = New | Pending | AwaitingApproval | Running | Succeeded | Failed | Simulated

  predicate Terminal(s: State) {
    s == Succeeded || s == Failed || s == Simulated
  }

  datatype Reason =
    NoReason | Interrupted | StepFailed | UnknownAction | GaveUp | ApprovalTimeout | Denied

  // What a status message tells the reader; only the wait carries data the engine compares.
  datatype Message = NoMessage | Waiting(left: Time) | Explains(why: Reason)

  datatype Phase =
    PhasePending | PhaseRunning | PhaseSucceeded | PhaseFailed | PhaseSkipped | PhaseSimulated

  datatype StepStatus = StepStatus(index: nat, action: string, phase: Phase)

  datatype Escalation = Escalation(phase: Phase, steps: seq<StepStatus>, completedAt: Time)

  datatype Mode = Auto | Approval | Manual

  datatype Decision = Undecided | Approve | Deny

  /** The part of a record written once, at creation, with its give-up label and creation time. */
  datatype Spec = Spec(
    strategy: string,
    target: string,
    steps: seq<string>,
    retries: nat,
    escalation: seq<string>,
    firstSuccess: bool,
    mode: Mode,
    deadline: Option<Time>,
    dryRun: bool,
    gaveUp: bool,
    created: Time)

  datatype Status = Status(
    state: State,
    attempt: nat,
    steps: seq<StepStatus>,
    reason: Reason,
    message: Message,
    startedAt: Option<Time>,
    completedAt: Option<Time>,
    escalation: Option<Escalation>)

  const EMPTY_STATUS := Status(New, 0, [], NoReason, NoMessage, None, None, None)

  /** One stored version of a record: what a person may patch, and what the engine writes. */
  datatype Version = Version(decision: Decision, status: Status)
}
