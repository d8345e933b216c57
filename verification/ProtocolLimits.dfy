/** Where a stronger claim about the lifecycle would be false. */
module ProtocolLimits {
  import opened Common
  import opened Records
  import opened Steps
  import opened Lifecycle
  import opened Protocol
  import opened ProtocolRuns

  const UNTOUCHED := Version(Undecided, EMPTY_STATUS)

  /** A new record whose next reconcile, at this instant, runs the fallback plan and ends it. */
  predicate WouldPage(spec: Spec, now: Time) {
    Pages(spec, Decide(spec, UNTOUCHED, now))
  }

  /** After a wait, runs of the fallback plan of a new record whose verdicts are all lost. */
  function LostPages(wait: nat, n: nat, channels: seq<Behaviour>): seq<Action> {
    if n == 0 then [] + [Action.Tick(wait)]
    else LostPages(wait, n - 1, channels) + [Read(0, 0)] + [Resolve(0, channels)] + [Crash(0)]
  }

  ghost predicate Untouched(spec: Spec, now: Time, w: World) {
    w.spec == spec && w.now == now && w.versions == [UNTOUCHED] && !w.deleted && Pc(w, 0).Idle? && w.log.attemptPages == 0
  }

  lemma {:induction false} LostPagesLead(spec: Spec, wait: nat, n: nat, channels: seq<Behaviour>, now: Time)
    requires now == spec.created + wait && WouldPage(spec, now) && Covers(spec, channels)
    ensures Legal(Initial(spec), LostPages(wait, n, channels))
    ensures var w := Run(Initial(spec), LostPages(wait, n, channels));
      Untouched(spec, now, w) && w.log.pages == w.log.pagesLost == n && w.log.pagesLanded == 0
  {
    var w := Initial(spec);
    if n == 0 {
      assert Leads(w, [], w);
      LeadsOn(w, [], w, Action.Tick(wait));
    } else {
      LostPagesLead(spec, wait, n - 1, channels, now);
      LosesAPage(spec, now, LostPages(wait, n - 1, channels), Run(w, LostPages(wait, n - 1, channels)), channels);
    }
  }

  /** One more run of the fallback plan whose verdict is lost. */
  lemma LosesAPage(spec: Spec, now: Time, run: seq<Action>, x: World, channels: seq<Behaviour>)
    requires WouldPage(spec, now) && Covers(spec, channels) && Leads(Initial(spec), run, x) && Untouched(spec, now, x)
    ensures var all := run + [Read(0, 0)] + [Resolve(0, channels)] + [Crash(0)];
      && Legal(Initial(spec), all)
      && var y := Run(Initial(spec), all);
      && Untouched(spec, now, y) && y.log.pages == x.log.pages + 1 && y.log.pagesLost == x.log.pagesLost + 1
      && y.log.pagesLanded == x.log.pagesLanded
  {
    var w := Initial(spec);
    LeadsOn(w, run, x, Read(0, 0));
    var x1 := Apply(x, Read(0, 0));
    LeadsOn(w, run + [Read(0, 0)], x1, Resolve(0, channels));
    var x2 := ApplyResolve(x1, 0, channels);
    LeadsOn(w, run + [Read(0, 0)] + [Resolve(0, channels)], x2, Crash(0));
  }

  ghost predicate PagesAgain(spec: Spec, run: seq<Action>, n: nat) {
    && Legal(Initial(spec), run)
    && var w := Run(Initial(spec), run);
    w.log.pages == n + 1 && w.log.pagesLost == n && w.log.pagesLanded == 1 && w.log.attemptPages == 0
  }

  lemma PagesAgainAfterAWait(spec: Spec, wait: nat, n: nat, channels: seq<Behaviour>)
    requires WouldPage(spec, spec.created + wait) && Covers(spec, channels)
    ensures exists run :: PagesAgain(spec, run, n)
  {
    var now := spec.created + wait;
    LostPagesLead(spec, wait, n, channels, now);
    var run := LostPages(wait, n, channels);
    LandsAPage(spec, now, run, Run(Initial(spec), run), channels);
    var all := run + [Read(0, 0)] + [Resolve(0, channels)] + [Write(0, Lands)];
    assert PagesAgain(spec, all, n);
  }

  /** After any number of lost pages one more is run, and its verdict lands. */
  lemma LandsAPage(spec: Spec, now: Time, run: seq<Action>, x: World, channels: seq<Behaviour>)
    requires WouldPage(spec, now) && Covers(spec, channels)
    requires Leads(Initial(spec), run, x) && Untouched(spec, now, x) && x.log.pagesLanded == 0
    ensures var all := run + [Read(0, 0)] + [Resolve(0, channels)] + [Write(0, Lands)];
      && Legal(Initial(spec), all)
      && var log := Run(Initial(spec), all).log;
      && log.pages == x.log.pages + 1 && log.pagesLost == x.log.pagesLost && log.pagesLanded == 1 && log.attemptPages == 0
  {
    var w := Initial(spec);
    LeadsOn(w, run, x, Read(0, 0));
    var x1 := Apply(x, Read(0, 0));
    LeadsOn(w, run + [Read(0, 0)], x1, Resolve(0, channels));
    var x2 := ApplyResolve(x1, 0, channels);
    LeadsOn(w, run + [Read(0, 0)] + [Resolve(0, channels)], x2, Write(0, Lands));
  }

  /**
    * Escalation is not run at most once on the give-up path: it pages before any write that would catch
    * a stale read, so for every n there is a run that pages n + 1 times and loses n verdicts.
    */
  lemma GiveUpPagesAgainAfterEveryLostVerdict(spec: Spec, n: nat, channels: seq<Behaviour>)
    requires spec.gaveUp && spec.escalation != [] && Covers(spec, channels)
    ensures exists run :: PagesAgain(spec, run, n)
  {
    PagesAgainAfterAWait(spec, 0, n, channels);
  }

  /** Nor on the approval path, once nobody has decided in time. */
  lemma TimeoutPagesAgainAfterEveryLostVerdict(spec: Spec, n: nat, channels: seq<Behaviour>)
    requires spec.mode == Approval && !spec.gaveUp && spec.escalation != [] && Covers(spec, channels)
    ensures exists run :: PagesAgain(spec, run, n)
  {
    PagesAgainAfterAWait(spec, PastTheDeadline(spec), n, channels);
  }

  /** How long after its creation a record's approval has certainly timed out. */
  function PastTheDeadline(spec: Spec): nat {
    if spec.deadline.None? then 0 else Max(0, spec.deadline.value - spec.created)
  }

  /** No crash, no lost reply, no refusal of a write on the current version, and no edit that changes nothing. */
  predicate Clean(w: World, a: Action)
    requires Enabled(w, a)
  {
    match a
    case Crash(_) => false
    case Start(id, fate) => fate != ReplyLost && (fate == Refused ==> !CanLand(w, Pc(w, id).v))
    case Write(id, fate) => fate != ReplyLost && (fate == Refused ==> !CanLand(w, Pc(w, id).v))
    case Patch(d) => d != Last(w).decision
    case _ => true
  }

  ghost predicate CleanRun(w: World, run: seq<Action>)
    requires Legal(w, run)
    decreases |run|
  {
    run == [] || (Clean(w, run[0]) && CleanRun(Apply(w, run[0]), run[1..]))
  }

  ghost predicate CleanLeads(w: World, run: seq<Action>, x: World) {
    Leads(w, run, x) && CleanRun(w, run)
  }

  lemma {:induction false} CleanAppend(w: World, first: seq<Action>, then_: seq<Action>)
    requires Legal(w, first) && Legal(Run(w, first), then_) && Legal(w, first + then_)
    requires CleanRun(w, first) && CleanRun(Run(w, first), then_)
    ensures CleanRun(w, first + then_)
    decreases |first|
  {
    if first == [] {
      assert first + then_ == then_;
    } else {
      assert (first + then_)[0] == first[0] && (first + then_)[1..] == first[1..] + then_;
      CleanAppend(Apply(w, first[0]), first[1..], then_);
    }
  }

  lemma CleanLeadsOn(w: World, run: seq<Action>, x: World, a: Action)
    requires CleanLeads(w, run, x) && Enabled(x, a) && Clean(x, a)
    ensures CleanLeads(w, run + [a], Apply(x, a))
  {
    LeadsOn(w, run, x, a);
    assert [a][0] == a && [a][1..] == [];
    assert Legal(Apply(x, a), []) && Legal(x, [a]) && CleanRun(x, [a]);
    CleanAppend(w, run, [a]);
  }

  ghost predicate InterruptedWithoutACrash(spec: Spec, run: seq<Action>) {
    && Legal(Initial(spec), run) && CleanRun(Initial(spec), run)
    && var w := Run(Initial(spec), run);
    && w.versions != [] && w.log.started == [1]
    && Last(w).status.state == Failed && Last(w).status.reason == Interrupted
  }

  /**
    * Running found on entry does not mean that the process died: for every record that needs no
    * approval, one person's patch while the plan runs makes a run in which every step succeeds end
    * Failed/Interrupted, with no crash, no lost reply, and no write refused that could have landed.
    */
  lemma PatchTurnsSuccessIntoInterrupted(spec: Spec, bs: seq<Behaviour>, channels: seq<Behaviour>)
    requires !spec.gaveUp && spec.mode != Approval && Covers(spec, channels)
    requires |bs| == |spec.steps| && RunPlan(spec.dryRun, spec.steps, bs).failure.None?
    ensures exists run :: InterruptedWithoutACrash(spec, run)
  {
    var w := Initial(spec);
    var opening := [] + [Read(0, 0)] + [Start(0, Lands)] + StepActions(0, bs);
    var w3 := PlanRunAlone(spec, bs);
    var p := w3.workers[0].progress;
    SuccessRefused(w, opening, w3, p, channels);
    var w6 := RefusedByPatch(w3);
    var middle := opening + [Conclude(0, channels)] + [Patch(Approve)] + [Write(0, Refused)];
    FoundRunning(w, middle, w6, channels);
    var all := middle + [Read(0, 2)] + [Resolve(0, channels)] + [Write(0, Lands)];
    assert InterruptedWithoutACrash(spec, all);
  }

  /** One worker reads a new record and runs its whole plan, undisturbed. */
  lemma PlanRunAlone(spec: Spec, bs: seq<Behaviour>) returns (w3: World)
    requires !spec.gaveUp && spec.mode != Approval && |bs| == |spec.steps|
    ensures CleanLeads(Initial(spec), [] + [Read(0, 0)] + [Start(0, Lands)] + StepActions(0, bs), w3)
    ensures w3.spec == spec && !w3.deleted && |w3.versions| == 2 && w3.versions[1].status.state == Running
    ensures w3.versions[1].decision == Undecided
    ensures 0 in w3.workers && w3.workers[0] == Executing(1, RunPlan(spec.dryRun, spec.steps, bs))
    ensures |w3.workers[0].progress.steps| == |spec.steps| && w3.log.started == [1]
  {
    var w, steps := Initial(spec), StepActions(0, bs);
    var opening := [] + [Read(0, 0)] + [Start(0, Lands)];
    var w2 := StartAlone(spec);
    RunShape(spec.dryRun, spec.steps, bs);
    RunsItsPlan(w2, 0, bs);
    RunAppend(w, opening, steps);
    StartedOnce(w2, 0, bs);
    StepsAreClean(w2, 0, bs);
    CleanAppend(w, opening, steps);
    w3 := Run(w2, steps);
  }

  lemma StartAlone(spec: Spec) returns (w2: World)
    requires !spec.gaveUp && spec.mode != Approval
    ensures CleanLeads(Initial(spec), [] + [Read(0, 0)] + [Start(0, Lands)], w2)
    ensures w2.spec == spec && !w2.deleted && |w2.versions| == 2 && w2.versions[1].status.state == Running
    ensures w2.versions[1].decision == Undecided
    ensures 0 in w2.workers && w2.workers[0] == Executing(1, NOTHING_RUN) && w2.log.started == [1]
  {
    var w := Initial(spec);
    assert CleanLeads(w, [], w);
    CleanLeadsOn(w, [], w, Read(0, 0));
    var w1 := Move(w, 0, Fetched(0));
    CleanLeadsOn(w, [] + [Read(0, 0)], w1, Start(0, Lands));
    w2 := ApplyStart(w1, 0, Lands);
  }

  lemma {:induction false} StepsAreClean(w: World, id: nat, bs: seq<Behaviour>)
    requires Legal(w, StepActions(id, bs))
    ensures CleanRun(w, StepActions(id, bs))
    decreases |bs|
  {
    if bs != [] {
      var acts := StepActions(id, bs);
      assert acts[0] == RunStep(id, bs[0]) && acts[1..] == StepActions(id, bs[1..]);
      StepsAreClean(ApplyRunStep(w, id, bs[0]), id, bs[1..]);
    }
  }

  lemma {:induction false} StartedOnce(w: World, id: nat, bs: seq<Behaviour>)
    requires Legal(w, StepActions(id, bs))
    ensures Run(w, StepActions(id, bs)).log.started == w.log.started
    decreases |bs|
  {
    if bs != [] {
      var acts := StepActions(id, bs);
      assert acts[0] == RunStep(id, bs[0]) && acts[1..] == StepActions(id, bs[1..]);
      StartedOnce(ApplyRunStep(w, id, bs[0]), id, bs[1..]);
    }
  }

  /** The world after the success verdict of a finished plan was refused because of a patch. */
  function RefusedByPatch(w: World): World
    requires w.versions != []
  {
    Push(Move(w, 0, Idle), Last(w).(decision := Approve))
  }

  lemma SuccessRefused(w: World, run: seq<Action>, w3: World, p: Progress, channels: seq<Behaviour>)
    requires CleanLeads(w, run, w3) && !w3.deleted && Covers(w3.spec, channels)
    requires |w3.versions| == 2 && w3.versions[1].decision == Undecided
    requires 0 in w3.workers && w3.workers[0] == Executing(1, p) && p.failure.None? && |p.steps| == |w3.spec.steps|
    ensures CleanLeads(w, run + [Conclude(0, channels)] + [Patch(Approve)] + [Write(0, Refused)], RefusedByPatch(w3))
  {
    CleanLeadsOn(w, run, w3, Conclude(0, channels));
    var next := Conclusion(w3.spec, w3.versions[1].status, p, channels, w3.now);
    var w4 := Move(w3, 0, Deciding(1, next, false));
    assert ApplyConclude(w3, 0, channels) == w4;
    CleanLeadsOn(w, run + [Conclude(0, channels)], w4, Patch(Approve));
    var w5 := Push(w4, Last(w4).(decision := Approve));
    CleanLeadsOn(w, run + [Conclude(0, channels)] + [Patch(Approve)], w5, Write(0, Refused));
    assert ApplyWrite(w5, 0, Refused) == Move(w5, 0, Idle);
    assert w4.workers[0 := Idle] == w3.workers[0 := Idle];
  }

  lemma FoundRunning(w: World, run: seq<Action>, w6: World, channels: seq<Behaviour>)
    requires CleanLeads(w, run, w6) && !w6.deleted && Covers(w6.spec, channels)
    requires |w6.versions| == 3 && w6.versions[2].status.state == Running && Pc(w6, 0).Idle?
    ensures var all := run + [Read(0, 2)] + [Resolve(0, channels)] + [Write(0, Lands)];
      && Legal(w, all) && CleanRun(w, all)
      && var x := Run(w, all);
      && x.versions != [] && x.log.started == w6.log.started
      && Last(x).status.state == Failed && Last(x).status.reason == Interrupted
  {
    CleanLeadsOn(w, run, w6, Read(0, 2));
    var w7 := Move(w6, 0, Fetched(2));
    CleanLeadsOn(w, run + [Read(0, 2)], w7, Resolve(0, channels));
    var next := Resolution(w6.spec, w6.versions[2], Interrupt, channels, w6.now);
    var w8 := Move(w7, 0, Deciding(2, next, false));
    assert ApplyResolve(w7, 0, channels) == w8;
    CleanLeadsOn(w, run + [Read(0, 2)] + [Resolve(0, channels)], w8, Write(0, Lands));
  }
  // ---- Paged, and then run ------------------------------------------------------------------------

  ghost predicate PagedThenStarted(spec: Spec, run: seq<Action>) {
    && Legal(Initial(spec), run) && CleanRun(Initial(spec), run)
    && var w := Run(Initial(spec), run);
    w.log.pages == w.log.pagesLost == 1 && w.log.started == [1]
  }

  /**
    * The page that says nobody approved in time is no promise either: every gated record with a fallback
    * plan has a run that pages and then starts an attempt, because somebody approved while it paged,
    * with no crash, no lost reply and no write refused that could have landed.
    */
  lemma TimedOutPageMayBeFollowedByARun(spec: Spec, channels: seq<Behaviour>)
    requires spec.mode == Approval && !spec.gaveUp && spec.escalation != [] && Covers(spec, channels)
    ensures exists run :: PagedThenStarted(spec, run)
  {
    var w, wait := Initial(spec), PastTheDeadline(spec);
    var tick := Action.Tick(wait);
    assert CleanLeads(w, [], w);
    CleanLeadsOn(w, [], w, tick);
    var w1 := Apply(w, tick);
    CleanLeadsOn(w, [] + [tick], w1, Read(0, 0));
    var w2 := Apply(w1, Read(0, 0));
    CleanLeadsOn(w, [] + [tick] + [Read(0, 0)], w2, Resolve(0, channels));
    var w3 := ApplyResolve(w2, 0, channels);
    ApprovedWhilePaging(spec, w, [] + [tick] + [Read(0, 0)] + [Resolve(0, channels)], w3);
  }

  lemma ApprovedWhilePaging(spec: Spec, w: World, run: seq<Action>, w3: World)
    requires w == Initial(spec) && CleanLeads(w, run, w3) && spec.mode == Approval && !spec.gaveUp
    requires w3.spec == spec && w3.versions == [UNTOUCHED] && !w3.deleted && w3.log.started == []
    requires Pc(w3, 0).Deciding? && Pc(w3, 0).v == 0 && Pc(w3, 0).paged && w3.log.pages == 1 && w3.log.pagesLost == 0
    ensures exists run :: PagedThenStarted(spec, run)
  {
    CleanLeadsOn(w, run, w3, Patch(Approve));
    var w4 := Apply(w3, Patch(Approve));
    CleanLeadsOn(w, run + [Patch(Approve)], w4, Write(0, Refused));
    var w5 := ApplyWrite(w4, 0, Refused);
    ApprovedStarts(spec, w, run + [Patch(Approve)] + [Write(0, Refused)], w5);
  }

  lemma ApprovedStarts(spec: Spec, w: World, run: seq<Action>, w5: World)
    requires w == Initial(spec) && CleanLeads(w, run, w5) && spec.mode == Approval && !spec.gaveUp
    requires w5.spec == spec && w5.versions == [UNTOUCHED, UNTOUCHED.(decision := Approve)] && !w5.deleted
    requires Pc(w5, 0).Idle? && w5.log.started == [] && w5.log.pages == w5.log.pagesLost == 1
    ensures exists run :: PagedThenStarted(spec, run)
  {
    CleanLeadsOn(w, run, w5, Read(0, 1));
    var w6 := Apply(w5, Read(0, 1));
    CleanLeadsOn(w, run + [Read(0, 1)], w6, Start(0, Lands));
    assert PagedThenStarted(spec, run + [Read(0, 1)] + [Start(0, Lands)]);
  }
}
