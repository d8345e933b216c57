/** What holds over every interleaving of the lifecycle protocol. */
module ProtocolTheorems {
  import opened Common
  import opened Records
  import opened Lifecycle
  import opened Channels
  import opened Outcomes
  import opened Protocol
  import opened ProtocolInvariant
  import opened ProtocolSteps

  lemma ReachableInv(spec: Spec, run: seq<Action>)
    requires Legal(Initial(spec), run)
    ensures Inv(Run(Initial(spec), run))
  {
    InitialInv(spec);
    RunKeepsInv(Initial(spec), run);
  }

  // ---- Attempts -----------------------------------------------------------------------------

  lemma {:induction false} IncreasingIsShort(s: seq<nat>, low: nat, high: nat)
    requires forall k :: 0 <= k < |s| ==> low <= s[k] <= high
    requires forall j, k :: 0 <= j < k < |s| ==> s[j] < s[k]
    requires low <= high + 1
    ensures |s| <= high + 1 - low
    decreases |s|
  {
    if s != [] {
      assert forall k :: 0 <= k < |s[1..]| ==> s[1..][k] == s[k + 1];
      IncreasingIsShort(s[1..], s[0] + 1, high);
    }
  }

  /** Each attempt number starts its plan at most once, in order, and there are at most Retries + 1. */
  lemma AttemptsStartOnce(spec: Spec, run: seq<Action>)
    requires Legal(Initial(spec), run)
    ensures var started := Run(Initial(spec), run).log.started;
      && (forall k :: 0 <= k < |started| ==> 1 <= started[k] <= spec.retries + 1)
      && (forall j, k :: 0 <= j < k < |started| ==> started[j] < started[k])
      && |started| <= spec.retries + 1
  {
    ReachableInv(spec, run);
    var w := Run(Initial(spec), run);
    RunKeepsSpec(Initial(spec), run);
    assert StatusOk(w.spec, Last(w).status, w.now);
    IncreasingIsShort(w.log.started, 1, spec.retries + 1);
  }

  lemma {:induction false} RunKeepsSpec(w: World, run: seq<Action>)
    requires Legal(w, run)
    ensures Run(w, run).spec == w.spec
    decreases |run|
  {
    if run != [] { RunKeepsSpec(Apply(w, run[0]), run[1..]); }
  }

  lemma NothingExecutedUnstarted(w: World)
    requires Inv(w)
    ensures w.log.started == [] ==> w.log.executed == []
  {
    assert w.log.executed != [] ==> w.log.executed[0].0 in w.log.started;
  }

  /** No step of an attempt is executed twice, and none at all for a dry-run record. */
  lemma ExecuteAtMostOnce(spec: Spec, run: seq<Action>)
    requires Legal(Initial(spec), run)
    ensures var log := Run(Initial(spec), run).log;
      && (forall j, k :: 0 <= j < k < |log.executed| ==> log.executed[j] != log.executed[k])
      && (forall k :: 0 <= k < |log.executed| ==> log.executed[k].0 in log.started && log.executed[k].1 < |spec.steps|)
      && (spec.dryRun ==> log.executed == [])
  {
    ReachableInv(spec, run);
    RunKeepsSpec(Initial(spec), run);
  }

  /** A dry-run record never ends Succeeded, and a live one never ends Simulated. */
  lemma PostureShowsInTheVerdict(spec: Spec, run: seq<Action>, i: nat)
    requires Legal(Initial(spec), run)
    requires i < |Run(Initial(spec), run).versions|
    ensures var s := Run(Initial(spec), run).versions[i].status;
      (s.state == Succeeded ==> !spec.dryRun) && (s.state == Simulated ==> spec.dryRun)
  {
    ReachableInv(spec, run);
    RunKeepsSpec(Initial(spec), run);
    var w := Run(Initial(spec), run);
    assert StatusOk(w.spec, w.versions[i].status, w.now);
  }

  // ---- Writes -------------------------------------------------------------------------------

  /** Status writes a record still has ahead of it, not counting approval waits. */
  function WritesLeft(spec: Spec, s: Status): nat {
    if Terminal(s.state) then 0
    else
      var attempts := Max(0, spec.retries + 1 - s.attempt);
      if s.state == Running then 1 + 2 * attempts else 2 * attempts
  }

  /** The landed writes among the first n versions that did more than record a wait. */
  function StatusWrites(versions: seq<Version>, n: nat): nat
    requires 0 < n <= |versions|
  {
    if n == 1 then 0
    else
      StatusWrites(versions, n - 1) +
      (if versions[n - 1].status != versions[n - 2].status && versions[n - 1].status.state != AwaitingApproval then 1 else 0)
  }

  /** Every landed write that is not a wait uses one up; nothing gives one back. */
  lemma TransitionUsesAWrite(spec: Spec, a: Version, b: Version, now: Time)
    requires StatusOk(spec, a.status, now) && StatusOk(spec, b.status, now) && Transition(spec, a, b)
    ensures WritesLeft(spec, b.status) <= WritesLeft(spec, a.status)
    ensures a.status != b.status && b.status.state != AwaitingApproval ==> WritesLeft(spec, b.status) < WritesLeft(spec, a.status)
  {
  }

  lemma {:induction false} WritesAddUp(w: World, n: nat)
    requires Inv(w) && 0 < n <= |w.versions|
    ensures StatusWrites(w.versions, n) + WritesLeft(w.spec, w.versions[n - 1].status) <= 2 * (w.spec.retries + 1)
  {
    if n > 1 {
      WritesAddUp(w, n - 1);
      assert StatusOk(w.spec, w.versions[n - 2].status, w.now) && StatusOk(w.spec, w.versions[n - 1].status, w.now);
      assert Transition(w.spec, w.versions[n - 2], w.versions[n - 1]);
      TransitionUsesAWrite(w.spec, w.versions[n - 2], w.versions[n - 1], w.now);
    }
  }

  /**
    * Over every run, whoever reads, writes, crashes or patches: the landed status writes other than
    * waits are at most two for each attempt the budget allows, less the ones still ahead.
    */
  lemma LandedWritesAreBounded(spec: Spec, run: seq<Action>)
    requires Legal(Initial(spec), run)
    ensures var w := Run(Initial(spec), run);
      && w.versions != []
      && StatusWrites(w.versions, |w.versions|) + WritesLeft(spec, Last(w).status) <= 2 * (spec.retries + 1)
  {
    ReachableInv(spec, run);
    RunKeepsSpec(Initial(spec), run);
    var w := Run(Initial(spec), run);
    WritesAddUp(w, |w.versions|);
  }

  // ---- Verdicts -----------------------------------------------------------------------------

  lemma {:induction false} VersionsOnlyGrow(w: World, run: seq<Action>)
    requires Legal(w, run)
    ensures w.versions <= Run(w, run).versions
    decreases |run|
  {
    if run != [] {
      VersionsOnlyGrow(Apply(w, run[0]), run[1..]);
    }
  }

  /** A persisted terminal verdict is never overwritten, whatever happens afterwards. */
  lemma VerdictIsForever(spec: Spec, run: seq<Action>, more: seq<Action>)
    requires Legal(Initial(spec), run)
    requires Legal(Run(Initial(spec), run), more)
    requires Run(Initial(spec), run).versions != []
    requires Terminal(Last(Run(Initial(spec), run)).status.state)
    ensures Run(Run(Initial(spec), run), more).versions != []
    ensures Last(Run(Run(Initial(spec), run), more)).status == Last(Run(Initial(spec), run)).status
  {
    ReachableInv(spec, run);
    var w := Run(Initial(spec), run);
    RunKeepsInv(w, more);
    VersionsOnlyGrow(w, more);
    var x := Run(w, more);
    assert x.versions[|w.versions| - 1] == Last(w);
  }

  /**
    * A Running version never carries steps, so the loop that rewrites steps found mid-flight
    * rewrites nothing, and an Interrupted record says nothing about any step.
    */
  lemma InterruptedRecordsHaveNoSteps(spec: Spec, run: seq<Action>, i: nat)
    requires Legal(Initial(spec), run)
    requires i < |Run(Initial(spec), run).versions|
    ensures var s := Run(Initial(spec), run).versions[i].status;
      && (s.state == Running ==> s.steps == [] && FailRunning(s.steps) == s.steps)
      && (s.reason == Interrupted ==> s.steps == [] && s.escalation.None? && s.state == Failed)
  {
    ReachableInv(spec, run);
    var w := Run(Initial(spec), run);
    assert StatusOk(w.spec, w.versions[i].status, w.now);
    if w.versions[i].status.reason == Interrupted {
      InterruptedCameFromRunning(w, i);
    }
  }

  lemma {:induction false} InterruptedCameFromRunning(w: World, i: nat)
    requires Inv(w) && i < |w.versions| && w.versions[i].status.reason == Interrupted
    ensures w.versions[i].status.steps == []
    decreases i
  {
    assert i > 0;
    assert Transition(w.spec, w.versions[i - 1], w.versions[i]);
    if w.versions[i - 1].status == w.versions[i].status {
      InterruptedCameFromRunning(w, i - 1);
    }
  }

  /** A give-up record starts nothing, ends Failed/GaveUp if it ends, and never feeds the guards. */
  lemma GiveUpRecordsOnlyReport(spec: Spec, run: seq<Action>)
    requires Legal(Initial(spec), run) && spec.gaveUp
    ensures var w := Run(Initial(spec), run);
      && w.log.started == [] && w.log.executed == [] && w.log.completions == []
      && (forall i :: 0 <= i < |w.versions| ==>
            && w.versions[i].status.state in {New, Failed} && w.versions[i].status.startedAt.None?
            && (w.versions[i].status.state == Failed ==> w.versions[i].status.reason == GaveUp))
  {
    ReachableInv(spec, run);
    RunKeepsSpec(Initial(spec), run);
    var w := Run(Initial(spec), run);
    forall i | 0 <= i < |w.versions|
      ensures && w.versions[i].status.state in {New, Failed} && w.versions[i].status.startedAt.None?
              && (w.versions[i].status.state == Failed ==> w.versions[i].status.reason == GaveUp)
    {
      assert StatusOk(w.spec, w.versions[i].status, w.now);
    }
    assert StatusOk(w.spec, Last(w).status, w.now);
    NothingExecutedUnstarted(w);
    IncreasingIsShort(w.log.started, 1, 0);
  }

  // ---- Pages --------------------------------------------------------------------------------

  /**
    * The attempt path pages at most once per record. Across all paths every page is accounted for:
    * at most one belongs to a verdict that landed, the others to verdicts that were lost or are
    * still held by a worker.
    */
  lemma PagesAreAccountedFor(spec: Spec, run: seq<Action>)
    requires Legal(Initial(spec), run)
    ensures var w := Run(Initial(spec), run);
      && w.log.attemptPages <= 1
      && w.log.pages == w.log.pagesLanded + w.log.pagesLost + |Paging(w.workers)|
      && w.log.pagesLanded <= 1
      && (Paging(w.workers) == {} ==> w.log.pages <= 1 + w.log.pagesLost)
  {
    ReachableInv(spec, run);
  }

  // ---- Approval -----------------------------------------------------------------------------

  /** The version at which an attempt number first appears. */
  ghost predicate Began(versions: seq<Version>, v: int, attempt: nat) {
    && 0 < v < |versions|
    && versions[v].status.state == Running
    && versions[v].status.attempt == attempt
    && versions[v - 1].status.attempt + 1 == attempt
  }

  lemma {:induction false} EveryAttemptBegan(w: World, upTo: nat, attempt: nat)
    requires Inv(w) && upTo < |w.versions| && 1 <= attempt <= w.versions[upTo].status.attempt
    ensures exists v :: Began(w.versions, v, attempt) && v <= upTo &&
              (w.spec.mode == Approval ==> w.versions[v].decision == Approve)
    decreases upTo
  {
    assert upTo > 0;
    assert Transition(w.spec, w.versions[upTo - 1], w.versions[upTo]);
    if attempt <= w.versions[upTo - 1].status.attempt {
      EveryAttemptBegan(w, upTo - 1, attempt);
    } else {
      assert Began(w.versions, upTo, attempt);
    }
  }

  /** In approval mode nothing is planned or executed except on a version that carries an approval. */
  lemma NothingRunsUnapproved(spec: Spec, run: seq<Action>, attempt: nat)
    requires Legal(Initial(spec), run) && spec.mode == Approval
    requires attempt in Run(Initial(spec), run).log.started
    ensures var w := Run(Initial(spec), run);
      exists v :: Began(w.versions, v, attempt) && w.versions[v].decision == Approve
  {
    ReachableInv(spec, run);
    RunKeepsSpec(Initial(spec), run);
    var w := Run(Initial(spec), run);
    EveryAttemptBegan(w, |w.versions| - 1, attempt);
  }

  lemma {:induction false} UndecidedNeverBegins(w: World, i: nat)
    requires Inv(w) && i < |w.versions| && w.spec.mode == Approval
    requires forall k :: 0 <= k < |w.versions| ==> w.versions[k].decision == Undecided
    ensures w.versions[i].status.attempt == 0
    ensures w.versions[i].status.reason != Denied
    decreases i
  {
    if i > 0 {
      UndecidedNeverBegins(w, i - 1);
      assert Transition(w.spec, w.versions[i - 1], w.versions[i]);
    }
  }

  lemma {:induction false} UnstartedEnds(w: World, i: nat)
    requires Inv(w) && i < |w.versions| && w.spec.mode == Approval && !w.spec.gaveUp
    requires forall k :: 0 <= k < |w.versions| ==> w.versions[k].decision == Undecided
    ensures w.versions[i].status.state in {New, AwaitingApproval} ||
            (w.versions[i].status.state == Failed && w.versions[i].status.reason == ApprovalTimeout)
    decreases i
  {
    UndecidedNeverBegins(w, i);
    if i > 0 {
      UnstartedEnds(w, i - 1);
      UndecidedNeverBegins(w, i - 1);
      assert Transition(w.spec, w.versions[i - 1], w.versions[i]);
      assert StatusOk(w.spec, w.versions[i].status, w.now);
    }
  }

  /** A record nobody decides runs nothing, and can only end as a timeout, never before its deadline. */
  lemma UndecidedRecordsTimeOut(spec: Spec, run: seq<Action>)
    requires Legal(Initial(spec), run) && spec.mode == Approval && !spec.gaveUp
    requires forall v :: v in Run(Initial(spec), run).versions ==> v.decision == Undecided
    ensures var w := Run(Initial(spec), run);
      && w.versions != [] && w.log.started == [] && w.log.executed == []
      && Last(w).status.attempt == 0
      && (Terminal(Last(w).status.state) ==>
            && Last(w).status.state == Failed && Last(w).status.reason == ApprovalTimeout
            && Last(w).status.completedAt.Some?
            && (spec.deadline.Some? ==> spec.deadline.value <= Last(w).status.completedAt.value))
  {
    ReachableInv(spec, run);
    RunKeepsSpec(Initial(spec), run);
    var w := Run(Initial(spec), run);
    var n := |w.versions| - 1;
    UndecidedNeverBegins(w, n);
    UnstartedEnds(w, n);
    assert StatusOk(w.spec, Last(w).status, w.now);
    NothingExecutedUnstarted(w);
    IncreasingIsShort(w.log.started, 1, 0);
  }

  lemma {:induction false} DenialWasMade(w: World, i: nat)
    requires Inv(w) && i < |w.versions| && w.versions[i].status.reason == Denied
    ensures exists v :: 0 <= v < i && w.versions[v].decision == Deny && !Terminal(w.versions[v].status.state)
    decreases i
  {
    assert i > 0;
    assert Transition(w.spec, w.versions[i - 1], w.versions[i]);
    if w.versions[i - 1].status == w.versions[i].status {
      DenialWasMade(w, i - 1);
    }
  }

  /** A record ends Denied only after somebody denied it, and tells nobody about it. */
  lemma DenialsDoNotPage(spec: Spec, run: seq<Action>, i: nat)
    requires Legal(Initial(spec), run)
    requires i < |Run(Initial(spec), run).versions|
    requires Run(Initial(spec), run).versions[i].status.reason == Denied
    ensures var w := Run(Initial(spec), run);
      && w.versions[i].status.escalation.None? && spec.mode == Approval
      && exists v :: 0 <= v < i && w.versions[v].decision == Deny
  {
    ReachableInv(spec, run);
    RunKeepsSpec(Initial(spec), run);
    var w := Run(Initial(spec), run);
    assert StatusOk(w.spec, w.versions[i].status, w.now);
    DenialWasMade(w, i);
  }

  // ---- The completions a process remembers ----------------------------------------------------

  /** The guards are fed at most once per record, with the completion the record carries. */
  lemma CompletionsAgreeWithTheRecord(spec: Spec, run: seq<Action>)
    requires Legal(Initial(spec), run)
    ensures var w := Run(Initial(spec), run);
      w.log.completions == [] ||
        (w.versions != [] && Terminal(Last(w).status.state) && FeedsGuards(spec, Last(w).status)
         && Last(w).status.completedAt.Some? && w.log.completions == [Last(w).status.completedAt.value])
  {
    ReachableInv(spec, run);
    RunKeepsSpec(Initial(spec), run);
  }
  // ---- What is logged as a page -------------------------------------------------------------------

  /** A step that ends a record without anybody having denied it, or its last attempt, which failed. */
  predicate EndsForWantOfHelp(w: World, a: Action)
    requires Enabled(w, a)
  {
    match a
    case Resolve(id, _) =>
      var r := w.versions[Pc(w, id).v];
      || (Open(r.status.state) && w.spec.gaveUp)
      || (Gated(w.spec, r) && r.decision == Undecided && (w.spec.deadline.Some? ==> w.now >= w.spec.deadline.value))
    case Conclude(id, _) => Pc(w, id).progress.failure.Some? && w.versions[Pc(w, id).v].status.attempt > w.spec.retries
    case _ => false
  }

  /** The outcome of the fallback plan, in the verdict its worker now holds. */
  ghost predicate HoldsThePage(w: World, a: Action, x: World)
    requires Enabled(w, a)
  {
    match a
    case Resolve(id, channels) =>
      Pc(x, id).Deciding? && PageRecorded(w.spec.escalation, w.spec.firstSuccess, channels, w.now, Pc(x, id).next.escalation)
    case Conclude(id, channels) =>
      Pc(x, id).Deciding? && PageRecorded(w.spec.escalation, w.spec.firstSuccess, channels, w.now, Pc(x, id).next.escalation)
    case _ => false
  }

  /** A page is logged exactly when a fallback plan is run, and then its outcome is in the verdict to be written. */
  lemma PagesAreRuns(w: World, a: Action)
    requires Enabled(w, a)
    ensures var x := Apply(w, a);
      && x.log.pages == w.log.pages + (if EndsForWantOfHelp(w, a) && w.spec.escalation != [] then 1 else 0)
      && (EndsForWantOfHelp(w, a) ==> HoldsThePage(w, a, x))
  {
    if a.Resolve? || a.Conclude? {
      EscalateIsRecorded(w.spec.escalation, w.spec.firstSuccess, a.channels, w.now);
    }
  }
}
