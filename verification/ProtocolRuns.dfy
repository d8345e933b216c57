/** Particular runs: the reconcile nothing disturbs, and runs that show a bound is the best possible. */
module ProtocolRuns {
  import opened Records
  import opened Steps
  import opened Lifecycle
  import opened Protocol
  import opened ProtocolTheorems

  lemma {:induction false} RunAppend(w: World, first: seq<Action>, then_: seq<Action>)
    requires Legal(w, first) && Legal(Run(w, first), then_)
    ensures Legal(w, first + then_) && Run(w, first + then_) == Run(Run(w, first), then_)
    decreases |first|
  {
    if first == [] {
      assert first + then_ == then_;
    } else {
      RunAppend(Apply(w, first[0]), first[1..], then_);
      assert (first + then_)[0] == first[0] && (first + then_)[1..] == first[1..] + then_;
    }
  }

  /** A legal run and the world it leads to. */
  ghost predicate Leads(w: World, run: seq<Action>, x: World) {
    Legal(w, run) && Run(w, run) == x
  }

  lemma LeadsOn(w: World, run: seq<Action>, x: World, a: Action)
    requires Leads(w, run, x) && Enabled(x, a)
    ensures Leads(w, run + [a], Apply(x, a))
  {
    var y := Apply(x, a);
    assert [a][0] == a && [a][1..] == [];
    assert Legal(y, []) && Run(y, []) == y;
    RunAppend(w, run, [a]);
  }

  function StepActions(id: nat, bs: seq<Behaviour>): (r: seq<Action>)
    ensures |r| == |bs|
  {
    if bs == [] then [] else [RunStep(id, bs[0])] + StepActions(id, bs[1..])
  }

  /** A worker left alone runs its plan to the end. */
  lemma {:induction false} RunsItsPlan(w: World, id: nat, bs: seq<Behaviour>)
    requires id in w.workers && w.workers[id].Executing?
    requires |w.workers[id].progress.steps| + |bs| <= |w.spec.steps|
    ensures Legal(w, StepActions(id, bs))
    ensures var p := RunFrom(w.spec.dryRun, w.spec.steps, w.workers[id].progress, bs);
      var x := Run(w, StepActions(id, bs));
      x == w.(workers := w.workers[id := w.workers[id].(progress := p)], log := x.log)
    decreases |bs|
  {
    var acts := StepActions(id, bs);
    if bs == [] {
      assert w.workers[id := w.workers[id]] == w.workers;
    } else {
      var next := ApplyRunStep(w, id, bs[0]);
      assert acts[0] == RunStep(id, bs[0]) && acts[1..] == StepActions(id, bs[1..]);
      RunsItsPlan(next, id, bs[1..]);
      var x := Run(next, acts[1..]);
      assert next.workers[id := x.workers[id]] == w.workers[id := x.workers[id]];
    }
  }

  /** Whether a reconcile left alone writes nothing. */
  predicate WritesNothing(spec: Spec, r: Version, luck: Luck)
    requires Fits(spec, luck)
  {
    var branch := Decide(spec, r, luck.now);
    branch == Done ||
      (branch != RunAttempt && NothingToWrite(r, branch, Resolution(spec, r, branch, luck.channels, luck.now)))
  }

  /** The steps a worker takes when its read is current, its writes land and nobody else moves. */
  function Undisturbed(w: World, id: nat, luck: Luck): seq<Action>
    requires w.versions != [] && Fits(w.spec, luck) && luck.now <= luck.ended
  {
    var opening := [] + [Read(id, |w.versions| - 1)];
    var pause: Action := Tick(luck.ended - luck.now);
    if Decide(w.spec, Last(w), luck.now) == RunAttempt then
      opening + [Start(id, Lands)] + StepActions(id, luck.steps) + [pause] + [Conclude(id, luck.channels)] + [Write(id, Lands)]
    else if WritesNothing(w.spec, Last(w), luck) then
      opening + [Resolve(id, luck.channels)]
    else
      opening + [Resolve(id, luck.channels)] + [pause] + [Write(id, Lands)]
  }

  ghost predicate Settled(w: World, id: nat, luck: Luck, x: World)
    requires w.versions != [] && Fits(w.spec, luck)
  {
    && x.versions != [] && !x.deleted && Pc(x, id).Idle? && x.spec == w.spec
    && Last(x) == Settle(w.spec, Last(w), luck)
  }

  ghost predicate SettlesBy(w: World, id: nat, luck: Luck, run: seq<Action>)
    requires w.versions != [] && Fits(w.spec, luck)
  {
    Legal(w, run) && Settled(w, id, luck, Run(w, run))
  }

  /** The sequential account of a reconcile, Settle, is what the protocol does when left alone. */
  lemma UndisturbedIsSettle(w: World, id: nat, luck: Luck)
    requires w.versions != [] && !w.deleted && Pc(w, id).Idle?
    requires Fits(w.spec, luck) && w.now == luck.now <= luck.ended
    ensures SettlesBy(w, id, luck, Undisturbed(w, id, luck))
  {
    var w1 := Move(w, id, Fetched(|w.versions| - 1));
    ReadsCurrent(w, id);
    var opening := [] + [Read(id, |w.versions| - 1)];
    if Decide(w.spec, Last(w), luck.now) == RunAttempt {
      UndisturbedAttempt(w, opening, w1, id, luck);
    } else if WritesNothing(w.spec, Last(w), luck) {
      UndisturbedRest(w, opening, w1, id, luck);
    } else {
      UndisturbedResolve(w, opening, w1, id, luck);
    }
  }

  lemma ReadsCurrent(w: World, id: nat)
    requires w.versions != [] && Pc(w, id).Idle?
    ensures Leads(w, [] + [Read(id, |w.versions| - 1)], Move(w, id, Fetched(|w.versions| - 1)))
  {
    assert Leads(w, [], w);
    LeadsOn(w, [], w, Read(id, |w.versions| - 1));
  }

  lemma UndisturbedRest(w: World, opening: seq<Action>, w1: World, id: nat, luck: Luck)
    requires w.versions != [] && !w.deleted && w1 == Move(w, id, Fetched(|w.versions| - 1)) && Leads(w, opening, w1)
    requires Fits(w.spec, luck) && w.now == luck.now && WritesNothing(w.spec, Last(w), luck)
    ensures SettlesBy(w, id, luck, opening + [Resolve(id, luck.channels)])
  {
    LeadsOn(w, opening, w1, Resolve(id, luck.channels));
  }

  lemma UndisturbedAttempt(w: World, opening: seq<Action>, w1: World, id: nat, luck: Luck)
    requires w.versions != [] && !w.deleted && w1 == Move(w, id, Fetched(|w.versions| - 1)) && Leads(w, opening, w1)
    requires Fits(w.spec, luck) && w.now == luck.now <= luck.ended
    requires Decide(w.spec, Last(w), luck.now) == RunAttempt
    ensures var run := opening + [Start(id, Lands)] + StepActions(id, luck.steps)
                       + [Tick(luck.ended - luck.now)] + [Conclude(id, luck.channels)] + [Write(id, Lands)];
      SettlesBy(w, id, luck, run)
  {
    var begun := opening + [Start(id, Lands)];
    var w2 := ApplyStart(w1, id, Lands);
    LeadsOn(w, opening, w1, Start(id, Lands));
    var w3 := PlanIsRun(w, begun, w2, id, luck, |w.versions|);
    AttemptEnds(w, begun + StepActions(id, luck.steps), w3, id, luck);
  }

  lemma PlanIsRun(w: World, begun: seq<Action>, w2: World, id: nat, luck: Luck, v: nat) returns (w3: World)
    requires Leads(w, begun, w2) && Fits(w2.spec, luck) && id in w2.workers && w2.workers[id] == Executing(v, NOTHING_RUN)
    ensures Leads(w, begun + StepActions(id, luck.steps), w3)
    ensures w3.spec == w2.spec && w3.now == w2.now && w3.deleted == w2.deleted && w3.versions == w2.versions
    ensures id in w3.workers && w3.workers[id] == Executing(v, RunPlan(w2.spec.dryRun, w2.spec.steps, luck.steps))
    ensures |w3.workers[id].progress.steps| == |w2.spec.steps|
  {
    RunsItsPlan(w2, id, luck.steps);
    RunAppend(w, begun, StepActions(id, luck.steps));
    w3 := Run(w2, StepActions(id, luck.steps));
    RunShape(w2.spec.dryRun, w2.spec.steps, luck.steps);
  }

  lemma AttemptEnds(w: World, run: seq<Action>, w3: World, id: nat, luck: Luck)
    requires w.versions != [] && Fits(w.spec, luck) && luck.now <= luck.ended && Leads(w, run, w3)
    requires Decide(w.spec, Last(w), luck.now) == RunAttempt
    requires w3.spec == w.spec && w3.now == luck.now && !w3.deleted
    requires w3.versions == w.versions + [Last(w).(status := Begin(Last(w).status, luck.now))]
    requires id in w3.workers && w3.workers[id] == Executing(|w.versions|, RunPlan(w.spec.dryRun, w.spec.steps, luck.steps))
    requires |w3.workers[id].progress.steps| == |w.spec.steps|
    ensures var all := run + [Tick(luck.ended - luck.now)] + [Conclude(id, luck.channels)] + [Write(id, Lands)];
      SettlesBy(w, id, luck, all)
  {
    var pause: Action := Tick(luck.ended - luck.now);
    LeadsOn(w, run, w3, pause);
    var w4 := w3.(now := luck.ended);
    LeadsOn(w, run + [pause], w4, Conclude(id, luck.channels));
    var w5 := ApplyConclude(w4, id, luck.channels);
    LeadsOn(w, run + [pause] + [Conclude(id, luck.channels)], w5, Write(id, Lands));
    assert Last(ApplyWrite(w5, id, Lands)).status == Settle(w.spec, Last(w), luck).status;
  }

  lemma UndisturbedResolve(w: World, opening: seq<Action>, w1: World, id: nat, luck: Luck)
    requires w.versions != [] && !w.deleted && w1 == Move(w, id, Fetched(|w.versions| - 1)) && Leads(w, opening, w1)
    requires Fits(w.spec, luck) && w.now == luck.now <= luck.ended
    requires Decide(w.spec, Last(w), luck.now) != RunAttempt && !WritesNothing(w.spec, Last(w), luck)
    ensures var run := opening + [Resolve(id, luck.channels)] + [Tick(luck.ended - luck.now)] + [Write(id, Lands)];
      SettlesBy(w, id, luck, run)
  {
    var branch := Decide(w.spec, Last(w), luck.now);
    var next := Resolution(w.spec, Last(w), branch, luck.channels, luck.now);
    var w2 := ApplyResolve(w1, id, luck.channels);
    LeadsOn(w, opening, w1, Resolve(id, luck.channels));
    assert w2.workers[id] == Deciding(|w.versions| - 1, next, Pages(w.spec, branch));
    VerdictEnds(w, opening + [Resolve(id, luck.channels)], w2, id, next, luck);
  }

  lemma VerdictEnds(w: World, run: seq<Action>, w2: World, id: nat, next: Status, luck: Luck)
    requires w.versions != [] && luck.now <= luck.ended && Leads(w, run, w2)
    requires w2.spec == w.spec && w2.now == luck.now && !w2.deleted && w2.versions == w.versions
    requires id in w2.workers && w2.workers[id].Deciding? && w2.workers[id].v == |w.versions| - 1 && w2.workers[id].next == next
    ensures var all := run + [Tick(luck.ended - luck.now)] + [Write(id, Lands)];
      && Legal(w, all)
      && var x := Run(w, all);
      && x.versions != [] && !x.deleted && Pc(x, id).Idle? && x.spec == w.spec
      && Last(x) == Last(w).(status := Stamp(next, luck.ended))
  {
    var pause: Action := Tick(luck.ended - luck.now);
    LeadsOn(w, run, w2, pause);
    LeadsOn(w, run + [pause], w2.(now := luck.ended), Write(id, Lands));
  }

  /** A record nobody decides does end as a timeout, the first time it is reconciled past its deadline. */
  lemma UndecidedTimesOutOnceReconciled(spec: Spec, run: seq<Action>, id: nat, luck: Luck)
    requires Legal(Initial(spec), run) && spec.mode == Approval && !spec.gaveUp && Fits(spec, luck)
    requires var w := Run(Initial(spec), run);
      && w.now == luck.now <= luck.ended && !w.deleted && Pc(w, id).Idle?
      && (forall v :: v in w.versions ==> v.decision == Undecided)
      && (spec.deadline.Some? ==> spec.deadline.value <= luck.now)
    ensures var w := Run(Initial(spec), run);
      && w.spec == spec && w.versions != [] && Legal(w, Undisturbed(w, id, luck))
      && var x := Run(w, Undisturbed(w, id, luck));
      && x.versions != []
      && Last(x).status.state == Failed && Last(x).status.reason == ApprovalTimeout && Last(x).status.attempt == 0
  {
    ReachableInv(spec, run);
    RunKeepsSpec(Initial(spec), run);
    var w := Run(Initial(spec), run);
    UndecidedNeverBegins(w, |w.versions| - 1);
    UnstartedEnds(w, |w.versions| - 1);
    UndisturbedIsSettle(w, id, luck);
  }
}
