/** What every step of the lifecycle protocol keeps. */
module ProtocolInvariant {
  import opened Common
  import opened Records
  import opened Steps
  import opened Lifecycle
  import opened Protocol

  ghost predicate StatusOk(spec: Spec, s: Status, now: Time) {
    && (s.state == Running ==> s.steps == [] && s.attempt >= 1)
    && (s.state == New ==> s == EMPTY_STATUS)
    && (!Terminal(s.state) ==> s.completedAt.None? && s.escalation.None?)
    && (Terminal(s.state) ==> s.completedAt.Some? && s.completedAt.value <= now)
    && s.attempt <= spec.retries + (if s.state == Running || Terminal(s.state) then 1 else 0)
    && (s.startedAt.Some? <==> s.attempt > 0)
    && (s.startedAt.Some? ==> spec.created <= s.startedAt.value <= now)
    && (s.startedAt.Some? && s.completedAt.Some? ==> s.startedAt.value <= s.completedAt.value)
    && (s.completedAt.Some? ==> spec.created <= s.completedAt.value)
    && (s.state == Succeeded ==> !spec.dryRun && s.reason == NoReason)
    && (s.state == Simulated ==> spec.dryRun && s.reason == NoReason)
    && (s.state == Failed ==> s.reason != NoReason)
    && (spec.gaveUp ==> s.attempt == 0 && (s.state == New || (s.state == Failed && s.reason == GaveUp)))
    && (s.reason == GaveUp ==> spec.gaveUp)
    && (s.reason == Interrupted ==> s.state == Failed && s.escalation.None?)
    && (s.reason == Denied ==> s.state == Failed && spec.mode == Approval && s.escalation.None?)
    && (s.reason == ApprovalTimeout ==>
          && s.state == Failed && spec.mode == Approval
          && (spec.deadline.Some? ==> spec.deadline.value <= s.completedAt.value))
  }

  /** One version and the next: a patch of the decision, or a status write that respects the lifecycle. */
  ghost predicate Transition(spec: Spec, a: Version, b: Version) {
    || a.status == b.status
    || (&& a.decision == b.decision
        && !Terminal(a.status.state) && b.status.state != New
        && (a.status.startedAt.Some? ==> b.status.startedAt == a.status.startedAt)
        && (b.status.reason == Denied ==> a.decision == Deny)
        && (b.status.reason == ApprovalTimeout ==> a.decision == Undecided)
        && (b.status.reason == Interrupted ==> a.status.state == Running && b.status.steps == [])
        && (if b.status.state == Running then
              && b.status.attempt == a.status.attempt + 1
              && a.status.state != Running
              && (spec.mode == Approval ==> a.decision == Approve)
            else
              && b.status.attempt == a.status.attempt
              && (a.status.state == Running ==> b.status.state == Pending || Terminal(b.status.state))
              && (Terminal(b.status.state) && a.status.state != Running ==>
                    b.status.reason in {GaveUp, Denied, ApprovalTimeout})
              && (b.status.state == Pending ==> a.status.state == Running)))
  }

  ghost predicate VersionsOk(spec: Spec, versions: seq<Version>, now: Time) {
    && versions != []
    && versions[0] == Version(Undecided, EMPTY_STATUS)
    && spec.created <= now
    && (forall i :: 0 <= i < |versions| ==> StatusOk(spec, versions[i].status, now))
    && (forall i :: 0 < i < |versions| ==> Transition(spec, versions[i - 1], versions[i]))
    && (forall i, j :: 0 <= i <= j < |versions| ==> versions[i].status.attempt <= versions[j].status.attempt)
    && (forall i, j :: 0 <= i <= j < |versions| && Terminal(versions[i].status.state) ==>
          versions[j].status == versions[i].status)
  }

  ghost predicate NextOk(spec: Spec, r: Version, next: Status, now: Time) {
    && next.completedAt.None?
    && !Terminal(r.status.state)
    && StatusOk(spec, Stamp(next, now), now)
    && Transition(spec, r, r.(status := Stamp(next, now)))
  }

  /** The attempt an executing worker is on. */
  function AttemptOf(versions: seq<Version>, pc: Worker): nat {
    if pc.Executing? && pc.v < |versions| then versions[pc.v].status.attempt else 0
  }

  ghost predicate WorkerOk(spec: Spec, versions: seq<Version>, started: seq<nat>, now: Time, pc: Worker) {
    match pc
    case Idle => true
    case Fetched(v) => v < |versions|
    case Executing(v, p) =>
      && v < |versions|
      && versions[v].status.state == Running
      && versions[v].status.attempt in started
      && Shaped(spec.dryRun, spec.steps, p)
    case Deciding(v, next, paged) =>
      && v < |versions|
      && NextOk(spec, versions[v], next, now)
      && (paged ==> Terminal(next.state))
  }

  ghost predicate EveryWorkerOk(spec: Spec, versions: seq<Version>, started: seq<nat>, now: Time, workers: map<nat, Worker>) {
    forall id :: id in workers ==> WorkerOk(spec, versions, started, now, workers[id])
  }

  /** No two workers are on the same attempt. */
  ghost predicate OneWorkerPerAttempt(versions: seq<Version>, workers: map<nat, Worker>) {
    forall i, j :: i in workers && j in workers && i != j ==>
      (workers[i].Executing? && workers[j].Executing? ==> AttemptOf(versions, workers[i]) != AttemptOf(versions, workers[j]))
  }

  ghost predicate StartedOk(started: seq<nat>, attempt: nat) {
    && (forall k :: 0 <= k < |started| ==> 1 <= started[k] <= attempt)
    && (forall j, k :: 0 <= j < k < |started| ==> started[j] < started[k])
  }

  ghost predicate ExecutedOk(spec: Spec, started: seq<nat>, executed: seq<(nat, nat)>) {
    && (forall k :: 0 <= k < |executed| ==> executed[k].0 in started && executed[k].1 < |spec.steps|)
    && (forall j, k :: 0 <= j < k < |executed| ==> executed[j] != executed[k])
    && (spec.dryRun ==> executed == [])
  }

  /** An executing worker is past every step of its attempt that was ever executed. */
  ghost predicate Ahead(versions: seq<Version>, executed: seq<(nat, nat)>, pc: Worker) {
    forall k :: 0 <= k < |executed| ==>
      (pc.Executing? && AttemptOf(versions, pc) == executed[k].0 ==> executed[k].1 < |pc.progress.steps|)
  }

  ghost predicate EveryWorkerAhead(versions: seq<Version>, executed: seq<(nat, nat)>, workers: map<nat, Worker>) {
    forall id :: id in workers ==> Ahead(versions, executed, workers[id])
  }

  /** Workers that have run a fallback plan and not yet written its verdict. */
  ghost function Paging(workers: map<nat, Worker>): set<nat> {
    set id | id in workers && HoldsPage(workers[id])
  }

  predicate HoldsPage(pc: Worker) {
    pc.Deciding? && pc.paged
  }

  ghost predicate PagesOk(last: Status, workers: map<nat, Worker>, log: Log) {
    && log.pages == log.pagesLanded + log.pagesLost + |Paging(workers)|
    && log.pagesLanded <= 1
    && (log.pagesLanded == 1 ==> Terminal(last.state))
  }

  /** The fallback plan of a failed attempt is run after the last attempt the budget allows. */
  ghost predicate AttemptPagesOk(spec: Spec, versions: seq<Version>, workers: map<nat, Worker>, log: Log) {
    && log.attemptPages <= 1
    && (log.attemptPages == 1 ==> spec.retries + 1 in log.started)
    && (log.attemptPages == 1 ==> forall id :: id in workers ==> AttemptOf(versions, workers[id]) <= spec.retries)
  }

  ghost predicate CompletionsOk(spec: Spec, last: Status, completions: seq<Time>) {
    completions != [] ==>
      && Terminal(last.state)
      && FeedsGuards(spec, last)
      && last.completedAt == Some(completions[0])
      && |completions| == 1
  }

  ghost predicate Inv(w: World) {
    && VersionsOk(w.spec, w.versions, w.now)
    && EveryWorkerOk(w.spec, w.versions, w.log.started, w.now, w.workers)
    && OneWorkerPerAttempt(w.versions, w.workers)
    && StartedOk(w.log.started, Last(w).status.attempt)
    && ExecutedOk(w.spec, w.log.started, w.log.executed)
    && EveryWorkerAhead(w.versions, w.log.executed, w.workers)
    && PagesOk(Last(w).status, w.workers, w.log)
    && AttemptPagesOk(w.spec, w.versions, w.workers, w.log)
    && CompletionsOk(w.spec, Last(w).status, w.log.completions)
  }

  lemma InitialInv(spec: Spec)
    ensures Inv(Initial(spec))
  {
  }

  // ---- Versions -----------------------------------------------------------------------------

  lemma PushKeepsVersions(spec: Spec, versions: seq<Version>, now: Time, b: Version)
    requires VersionsOk(spec, versions, now)
    requires StatusOk(spec, b.status, now) && Transition(spec, versions[|versions| - 1], b)
    ensures VersionsOk(spec, versions + [b], now)
  {
    var x, n := versions + [b], |versions|;
    assert forall i :: 0 <= i < n ==> x[i] == versions[i];
    assert b.status.attempt >= versions[n - 1].status.attempt;
    assert Terminal(versions[n - 1].status.state) ==> b.status == versions[n - 1].status;
  }

  lemma LaterStillOk(spec: Spec, r: Version, next: Status, now: Time, later: Time)
    requires NextOk(spec, r, next, now) && now <= later
    ensures NextOk(spec, r, next, later)
  {
  }

  lemma BeginOk(spec: Spec, r: Version, now: Time)
    requires StatusOk(spec, r.status, now) && spec.created <= now
    requires Decide(spec, r, now) == RunAttempt
    ensures StatusOk(spec, Begin(r.status, now), now)
    ensures Transition(spec, r, r.(status := Begin(r.status, now)))
  {
  }

  lemma ResolutionOk(spec: Spec, r: Version, channels: seq<Behaviour>, now: Time)
    requires StatusOk(spec, r.status, now) && spec.created <= now
    requires Decide(spec, r, now) !in {Done, RunAttempt} && Covers(spec, channels)
    ensures NextOk(spec, r, Resolution(spec, r, Decide(spec, r, now), channels, now), now)
  {
  }

  lemma ConclusionOk(spec: Spec, r: Version, p: Progress, channels: seq<Behaviour>, now: Time)
    requires StatusOk(spec, r.status, now) && spec.created <= now
    requires r.status.state == Running && Shaped(spec.dryRun, spec.steps, p) && Covers(spec, channels)
    ensures NextOk(spec, r, Conclusion(spec, r.status, p, channels, now), now)
  {
  }

  // ---- Workers ------------------------------------------------------------------------------

  lemma PagingAfter(workers: map<nat, Worker>, id: nat, pc: Worker)
    ensures var before := |Paging(workers)| - (if id in workers && HoldsPage(workers[id]) then 1 else 0);
            |Paging(workers[id := pc])| == before + (if HoldsPage(pc) then 1 else 0)
  {
    var all, rest := Paging(workers), Paging(workers) - {id};
    assert |all| == |rest| + (if id in all then 1 else 0) by {
      if id in all { assert all == rest + {id}; } else { assert all == rest; }
    }
    var after := Paging(workers[id := pc]);
    forall x ensures x in after <==> x in rest || (x == id && HoldsPage(pc)) {
    }
    if HoldsPage(pc) { assert after == rest + {id}; } else { assert after == rest; }
  }

  /** Replacing one worker by one that is not executing, or that goes on with the same attempt. */
  lemma ReplaceWorker(w: World, id: nat, pc: Worker)
    requires Inv(w) && WorkerOk(w.spec, w.versions, w.log.started, w.now, pc)
    requires pc.Executing? ==> id in w.workers && w.workers[id].Executing? && w.workers[id].v == pc.v
    requires Ahead(w.versions, w.log.executed, pc)
    ensures EveryWorkerOk(w.spec, w.versions, w.log.started, w.now, w.workers[id := pc])
    ensures OneWorkerPerAttempt(w.versions, w.workers[id := pc])
    ensures EveryWorkerAhead(w.versions, w.log.executed, w.workers[id := pc])
    ensures AttemptPagesOk(w.spec, w.versions, w.workers[id := pc], w.log)
  {
    if pc.Executing? {
      assert AttemptOf(w.versions, pc) == AttemptOf(w.versions, w.workers[id]);
    }
  }

  /** Versions only grow, so what a worker has read stays what it read. */
  lemma GrowKeepsWorkers(w: World, b: Version)
    requires Inv(w)
    ensures EveryWorkerOk(w.spec, w.versions + [b], w.log.started, w.now, w.workers)
    ensures OneWorkerPerAttempt(w.versions + [b], w.workers)
    ensures EveryWorkerAhead(w.versions + [b], w.log.executed, w.workers)
    ensures AttemptPagesOk(w.spec, w.versions + [b], w.workers, w.log)
  {
    forall id | id in w.workers
      ensures WorkerOk(w.spec, w.versions + [b], w.log.started, w.now, w.workers[id])
      ensures AttemptOf(w.versions + [b], w.workers[id]) == AttemptOf(w.versions, w.workers[id])
      ensures Ahead(w.versions + [b], w.log.executed, w.workers[id])
    {
      assert WorkerOk(w.spec, w.versions, w.log.started, w.now, w.workers[id]);
      assert Ahead(w.versions, w.log.executed, w.workers[id]);
    }
  }
}
