/** Each kind of protocol step keeps the invariant; so does every run. */
module ProtocolSteps {
  import opened Common
  import opened Records
  import opened Steps
  import opened Lifecycle
  import opened Protocol
  import opened ProtocolInvariant

  /** One worker replaced, nothing else: what the pages account for must not change. */
  lemma MoveKeepsInv(w: World, id: nat, pc: Worker)
    requires Inv(w) && WorkerOk(w.spec, w.versions, w.log.started, w.now, pc)
    requires pc.Executing? ==> id in w.workers && w.workers[id].Executing? && w.workers[id].v == pc.v
    requires Ahead(w.versions, w.log.executed, pc)
    requires !HoldsPage(Pc(w, id)) && !HoldsPage(pc)
    ensures Inv(Move(w, id, pc))
  {
    ReplaceWorker(w, id, pc);
    PagingAfter(w.workers, id, pc);
  }

  /** A version appended that changes no attempt, or starts one. */
  lemma PushKeepsInv(w: World, b: Version)
    requires Inv(w)
    requires StatusOk(w.spec, b.status, w.now) && Transition(w.spec, Last(w), b)
    ensures Inv(Push(w, b))
  {
    PushKeepsVersions(w.spec, w.versions, w.now, b);
    GrowKeepsWorkers(w, b);
    assert Last(Push(w, b)) == b;
    assert Last(w).status.attempt <= b.status.attempt;
  }

  lemma StartKeepsInv(w: World, id: nat, fate: Fate)
    requires Inv(w) && Enabled(w, Start(id, fate))
    ensures Inv(ApplyStart(w, id, fate))
  {
    var v := Pc(w, id).v;
    var r := w.versions[v];
    var b := r.(status := Begin(r.status, w.now));
    if fate == Refused {
      MoveKeepsInv(w, id, Idle);
    } else {
      assert r == Last(w);
      BeginOk(w.spec, r, w.now);
      PushKeepsInv(w, b);
      if fate == ReplyLost {
        MoveKeepsInv(Push(w, b), id, Idle);
      } else {
        NewAttemptKeepsInv(w, id, b);
      }
    }
  }

  lemma NewAttemptKeepsInv(w: World, id: nat, b: Version)
    requires Inv(w) && Inv(Push(w, b)) && !HoldsPage(Pc(w, id))
    requires b.status.state == Running && b.status.attempt == Last(w).status.attempt + 1
    ensures Inv(Move(Push(w, b), id, Executing(|w.versions|, NOTHING_RUN))
                  .(log := w.log.(started := w.log.started + [b.status.attempt])))
  {
    var versions, started := w.versions + [b], w.log.started + [b.status.attempt];
    var pc := Executing(|w.versions|, NOTHING_RUN);
    var workers := w.workers[id := pc];
    PagingAfter(w.workers, id, pc);
    NewAttemptWorkers(w, id, b);
    NewAttemptLog(w, b);
    assert StatusOk(w.spec, versions[|w.versions|].status, w.now);
  }

  lemma NewAttemptLog(w: World, b: Version)
    requires Inv(w) && b.status.attempt == Last(w).status.attempt + 1
    ensures StartedOk(w.log.started + [b.status.attempt], b.status.attempt)
    ensures ExecutedOk(w.spec, w.log.started + [b.status.attempt], w.log.executed)
    ensures w.log.attemptPages == 1 ==> w.spec.retries + 1 in w.log.started + [b.status.attempt]
  {
    assert forall n :: n in w.log.started ==> n in w.log.started + [b.status.attempt];
  }

  lemma NewAttemptWorkers(w: World, id: nat, b: Version)
    requires Inv(w) && b.status.state == Running && b.status.attempt == Last(w).status.attempt + 1
    ensures var versions, started := w.versions + [b], w.log.started + [b.status.attempt];
      var workers := w.workers[id := Executing(|w.versions|, NOTHING_RUN)];
      && EveryWorkerOk(w.spec, versions, started, w.now, workers)
      && EveryWorkerAhead(versions, w.log.executed, workers)
      && OneWorkerPerAttempt(versions, workers)
      && forall j :: j in workers && j != id ==> AttemptOf(versions, workers[j]) == AttemptOf(w.versions, w.workers[j])
  {
    var versions, started := w.versions + [b], w.log.started + [b.status.attempt];
    var workers := w.workers[id := Executing(|w.versions|, NOTHING_RUN)];
    assert started[|w.log.started|] == b.status.attempt;
    assert forall n :: n in w.log.started ==> n in started && n < b.status.attempt;
    forall j | j in workers
      ensures WorkerOk(w.spec, versions, started, w.now, workers[j])
      ensures Ahead(versions, w.log.executed, workers[j])
      ensures j != id ==> AttemptOf(versions, workers[j]) == AttemptOf(w.versions, w.workers[j]) < b.status.attempt
    {
      if j != id {
        assert WorkerOk(w.spec, w.versions, w.log.started, w.now, w.workers[j]);
        assert Ahead(w.versions, w.log.executed, w.workers[j]);
      }
    }
  }

  lemma RunStepKeepsInv(w: World, id: nat, b: Behaviour)
    requires Inv(w) && Enabled(w, RunStep(id, b))
    ensures Inv(ApplyRunStep(w, id, b))
  {
    AdvancedKeepsInv(w, id, b);
    var pc := w.workers[id];
    var p := Advance(w.spec.dryRun, w.spec.steps, pc.progress, b);
    assert WorkerOk(w.spec, w.versions, w.log.started, w.now, pc);
    if Executes(w.spec.dryRun, pc.progress, b) {
      ExecuteKeepsInv(w, id, p);
      assert ApplyRunStep(w, id, b) == Move(w, id, pc.(progress := p)).(log := w.log.(
        executed := w.log.executed + [(AttemptOf(w.versions, pc), |pc.progress.steps|)]));
    } else {
      assert ApplyRunStep(w, id, b) == Move(w, id, pc.(progress := p));
    }
  }

  lemma AdvancedKeepsInv(w: World, id: nat, b: Behaviour)
    requires Inv(w) && Enabled(w, RunStep(id, b))
    ensures Inv(Move(w, id, w.workers[id].(progress := Advance(w.spec.dryRun, w.spec.steps, w.workers[id].progress, b))))
  {
    var pc := w.workers[id];
    assert WorkerOk(w.spec, w.versions, w.log.started, w.now, pc) && Ahead(w.versions, w.log.executed, pc);
    AdvanceKeepsShaped(w.spec.dryRun, w.spec.steps, pc.progress, b);
    MoveKeepsInv(w, id, pc.(progress := Advance(w.spec.dryRun, w.spec.steps, pc.progress, b)));
  }

  lemma ExecuteKeepsInv(w: World, id: nat, p: Progress)
    requires Inv(w) && id in w.workers && w.workers[id].Executing? && !w.spec.dryRun
    requires |w.workers[id].progress.steps| < |w.spec.steps| && |p.steps| == |w.workers[id].progress.steps| + 1
    requires Inv(Move(w, id, w.workers[id].(progress := p)))
    ensures var pc := w.workers[id];
      Inv(Move(w, id, pc.(progress := p)).(log := w.log.(
        executed := w.log.executed + [(AttemptOf(w.versions, pc), |pc.progress.steps|)])))
  {
    ExecutedOnce(w, id);
    AheadOfWhatItExecuted(w, id, p);
  }

  /** The step about to be executed has not been executed before. */
  lemma ExecutedOnce(w: World, id: nat)
    requires Inv(w) && id in w.workers && w.workers[id].Executing? && !w.spec.dryRun
    requires |w.workers[id].progress.steps| < |w.spec.steps|
    ensures var pc := w.workers[id];
      ExecutedOk(w.spec, w.log.started, w.log.executed + [(AttemptOf(w.versions, pc), |pc.progress.steps|)])
  {
    var pc := w.workers[id];
    assert WorkerOk(w.spec, w.versions, w.log.started, w.now, pc) && Ahead(w.versions, w.log.executed, pc);
    forall k | 0 <= k < |w.log.executed|
      ensures w.log.executed[k] != (AttemptOf(w.versions, pc), |pc.progress.steps|)
    {
    }
  }

  lemma AheadOfWhatItExecuted(w: World, id: nat, p: Progress)
    requires Inv(w) && id in w.workers && w.workers[id].Executing?
    requires |p.steps| == |w.workers[id].progress.steps| + 1
    ensures var pc := w.workers[id];
      EveryWorkerAhead(w.versions, w.log.executed + [(AttemptOf(w.versions, pc), |pc.progress.steps|)],
                       w.workers[id := pc.(progress := p)])
  {
    var pc := w.workers[id];
    var executed, workers := w.log.executed + [(AttemptOf(w.versions, pc), |pc.progress.steps|)], w.workers[id := pc.(progress := p)];
    forall j | j in workers ensures Ahead(w.versions, executed, workers[j]) {
      assert Ahead(w.versions, w.log.executed, w.workers[j]);
      if j != id && workers[j].Executing? {
        assert AttemptOf(w.versions, w.workers[j]) != AttemptOf(w.versions, pc);
      }
    }
  }

  /** A worker that ran the fallback plan, or did not, and now wants to write. */
  lemma DecideKeepsInv(w: World, id: nat, pc: Worker, log: Log)
    requires Inv(w) && WorkerOk(w.spec, w.versions, w.log.started, w.now, pc)
    requires pc.Deciding? && !HoldsPage(Pc(w, id))
    requires log == w.log.(pages := log.pages, attemptPages := log.attemptPages)
    requires log.pages == w.log.pages + (if pc.paged then 1 else 0)
    requires AttemptPagesOk(w.spec, w.versions, w.workers[id := pc], log)
    ensures Inv(Move(w, id, pc).(log := log))
  {
    ReplaceWorker(w, id, pc);
    PagingAfter(w.workers, id, pc);
  }

  /** When the last attempt's worker stops executing, nobody is left executing an attempt that late. */
  lemma LastAttemptPages(w: World, id: nat, next: Worker)
    requires Inv(w) && id in w.workers && w.workers[id].Executing? && next.Deciding?
    requires AttemptOf(w.versions, w.workers[id]) > w.spec.retries
    ensures AttemptPagesOk(w.spec, w.versions, w.workers[id := next],
                           w.log.(pages := w.log.pages + 1, attemptPages := w.log.attemptPages + 1))
  {
    var workers := w.workers[id := next];
    assert WorkerOk(w.spec, w.versions, w.log.started, w.now, w.workers[id]);
    forall j | j in workers ensures AttemptOf(w.versions, workers[j]) <= w.spec.retries {
      if j != id && workers[j].Executing? {
        assert WorkerOk(w.spec, w.versions, w.log.started, w.now, w.workers[j]);
        assert AttemptOf(w.versions, w.workers[j]) != AttemptOf(w.versions, w.workers[id]);
      }
    }
    assert w.log.attemptPages == 0;
  }

  /** What an executing worker becomes when its run is over is a worker in good order. */
  lemma ConclusionWorkerOk(w: World, id: nat, channels: seq<Behaviour>)
    requires Inv(w) && Enabled(w, Conclude(id, channels))
    ensures WorkerOk(w.spec, w.versions, w.log.started, w.now, ApplyConclude(w, id, channels).workers[id])
  {
    var pc := w.workers[id];
    assert WorkerOk(w.spec, w.versions, w.log.started, w.now, pc);
    ConclusionOk(w.spec, w.versions[pc.v], pc.progress, channels, w.now);
  }

  lemma ConcludeKeepsInv(w: World, id: nat, channels: seq<Behaviour>)
    requires Inv(w) && Enabled(w, Conclude(id, channels))
    ensures Inv(ApplyConclude(w, id, channels))
  {
    ConclusionWorkerOk(w, id, channels);
    var x := ApplyConclude(w, id, channels);
    var next := x.workers[id];
    assert x == Move(w, id, next).(log := x.log);
    if next.paged {
      LastAttemptPages(w, id, next);
    } else {
      ReplaceWorker(w, id, next);
    }
    DecideKeepsInv(w, id, next, x.log);
  }

  lemma ResolveKeepsInv(w: World, id: nat, channels: seq<Behaviour>)
    requires Inv(w) && Enabled(w, Resolve(id, channels))
    ensures Inv(ApplyResolve(w, id, channels))
  {
    var r := w.versions[Pc(w, id).v];
    var branch := Decide(w.spec, r, w.now);
    if branch == Done {
      MoveKeepsInv(w, id, Idle);
    } else if NothingToWrite(r, branch, Resolution(w.spec, r, branch, channels, w.now)) {
      MoveKeepsInv(w, id, Idle);
    } else {
      ResolutionKeepsInv(w, id, channels);
    }
  }

  lemma ResolutionKeepsInv(w: World, id: nat, channels: seq<Behaviour>)
    requires Inv(w) && Enabled(w, Resolve(id, channels))
    requires var r := w.versions[Pc(w, id).v]; var branch := Decide(w.spec, r, w.now);
      branch != Done && !NothingToWrite(r, branch, Resolution(w.spec, r, branch, channels, w.now))
    ensures Inv(ApplyResolve(w, id, channels))
  {
    var v := Pc(w, id).v;
    var r := w.versions[v];
    var branch := Decide(w.spec, r, w.now);
    assert StatusOk(w.spec, r.status, w.now);
    ResolutionOk(w.spec, r, channels, w.now);
    var pc := Deciding(v, Resolution(w.spec, r, branch, channels, w.now), Pages(w.spec, branch));
    ReplaceWorker(w, id, pc);
    DecideKeepsInv(w, id, pc, ApplyResolve(w, id, channels).log);
  }

  /** A refused verdict or a crash: the page it held, if any, moves to the lost ones. */
  lemma LoseKeepsInv(w: World, id: nat)
    requires Inv(w)
    ensures Inv(Move(w, id, Idle).(log := Lose(w.log, Pc(w, id))))
  {
    ReplaceWorker(w, id, Idle);
    PagingAfter(w.workers, id, Idle);
  }

  lemma WriteKeepsInv(w: World, id: nat, fate: Fate)
    requires Inv(w) && Enabled(w, Write(id, fate))
    ensures Inv(ApplyWrite(w, id, fate))
  {
    if fate == Refused {
      LoseKeepsInv(w, id);
    } else {
      VerdictKeepsInv(w, id, fate);
    }
  }

  /** The version a landing write appends. */
  lemma VerdictPushes(w: World, id: nat, fate: Fate)
    requires Inv(w) && Enabled(w, Write(id, fate)) && fate != Refused
    ensures !Terminal(Last(w).status.state)
    ensures Inv(Push(w, Last(w).(status := Stamp(w.workers[id].next, w.now))))
    ensures w.workers[id].paged ==> Terminal(w.workers[id].next.state)
  {
    var pc := w.workers[id];
    assert WorkerOk(w.spec, w.versions, w.log.started, w.now, pc);
    assert w.versions[pc.v] == Last(w);
    PushKeepsInv(w, Last(w).(status := Stamp(pc.next, w.now)));
  }

  lemma VerdictKeepsInv(w: World, id: nat, fate: Fate)
    requires Inv(w) && Enabled(w, Write(id, fate)) && fate != Refused
    ensures Inv(ApplyWrite(w, id, fate))
  {
    VerdictPushes(w, id, fate);
    var b := Last(w).(status := Stamp(w.workers[id].next, w.now));
    ReplaceWorker(Push(w, b), id, Idle);
    PagingAfter(w.workers, id, Idle);
    assert Last(Push(w, b)) == b;
  }

  lemma TickKeepsInv(w: World, seconds: nat)
    requires Inv(w)
    ensures Inv(w.(now := w.now + seconds))
  {
    TickKeepsVersions(w.spec, w.versions, w.now, w.now + seconds);
    TickKeepsWorkers(w, seconds);
  }

  lemma TickKeepsVersions(spec: Spec, versions: seq<Version>, now: Time, later: Time)
    requires VersionsOk(spec, versions, now) && now <= later
    ensures VersionsOk(spec, versions, later)
  {
    forall i | 0 <= i < |versions| ensures StatusOk(spec, versions[i].status, later) {
      assert StatusOk(spec, versions[i].status, now);
    }
  }

  lemma TickKeepsWorkers(w: World, seconds: nat)
    requires Inv(w)
    ensures EveryWorkerOk(w.spec, w.versions, w.log.started, w.now + seconds, w.workers)
  {
    forall id | id in w.workers ensures WorkerOk(w.spec, w.versions, w.log.started, w.now + seconds, w.workers[id]) {
      var pc := w.workers[id];
      assert WorkerOk(w.spec, w.versions, w.log.started, w.now, pc);
      if pc.Deciding? {
        LaterStillOk(w.spec, w.versions[pc.v], pc.next, w.now, w.now + seconds);
      }
    }
  }

  lemma PatchKeepsInv(w: World, d: Decision)
    requires Inv(w)
    ensures Inv(Push(w, Last(w).(decision := d)))
  {
    PushKeepsInv(w, Last(w).(decision := d));
  }

  lemma DeleteKeepsInv(w: World)
    requires Inv(w)
    ensures Inv(w.(deleted := true))
  {
  }

  lemma ReadKeepsInv(w: World, id: nat, v: nat)
    requires Inv(w) && Enabled(w, Read(id, v))
    ensures Inv(Move(w, id, Fetched(v)))
  {
    MoveKeepsInv(w, id, Fetched(v));
  }

  lemma StepKeepsInv(w: World, a: Action)
    requires Inv(w) && Enabled(w, a)
    ensures Inv(Apply(w, a))
  {
    var x := Apply(w, a);
    match a {
      case Read(id, v) => ReadKeepsInv(w, id, v); assert x == Move(w, id, Fetched(v));
      case Start(id, fate) => StartKeepsInv(w, id, fate); assert x == ApplyStart(w, id, fate);
      case RunStep(id, b) => RunStepKeepsInv(w, id, b); assert x == ApplyRunStep(w, id, b);
      case Conclude(id, channels) => ConcludeKeepsInv(w, id, channels); assert x == ApplyConclude(w, id, channels);
      case Resolve(id, channels) => ResolveKeepsInv(w, id, channels); assert x == ApplyResolve(w, id, channels);
      case Write(id, fate) => WriteKeepsInv(w, id, fate); assert x == ApplyWrite(w, id, fate);
      case Crash(id) => LoseKeepsInv(w, id); assert x == Move(w, id, Idle).(log := Lose(w.log, Pc(w, id)));
      case Patch(d) => PatchKeepsInv(w, d); assert x == Push(w, Last(w).(decision := d));
      case Tick(s) => TickKeepsInv(w, s); assert x == w.(now := w.now + s);
      case Delete => DeleteKeepsInv(w); assert x == w.(deleted := true);
    }
    assert Inv(x);
  }

  lemma {:induction false} RunKeepsInv(w: World, run: seq<Action>)
    requires Inv(w) && Legal(w, run)
    ensures Inv(Run(w, run))
    decreases |run|
  {
    if run != [] {
      StepKeepsInv(w, run[0]);
      RunKeepsInv(Apply(w, run[0]), run[1..]);
    }
  }
}
