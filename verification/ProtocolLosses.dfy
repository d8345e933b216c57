/**
  * Exactly when a record is found Running: what Running on entry means to Reconcile and
  * markInterrupted in internal/engine/controller.go.
  */
module ProtocolLosses {
  import opened Common
  import opened Records
  import opened Steps
  import opened Lifecycle
  import opened Protocol
  import opened ProtocolInvariant
  import opened ProtocolSteps
  import opened ProtocolTheorems

  /** A worker holds the attempt it started until its verdict is written, or lost. */
  predicate Holds(versions: seq<Version>, pc: Worker) {
    match pc
    case Executing(v, _) => v < |versions|
    case Deciding(v, next, _) => v < |versions| && versions[v].status.state == Running && next.reason != Interrupted
    case _ => false
  }

  function HeldAttempt(versions: seq<Version>, pc: Worker): nat
    requires Holds(versions, pc)
  {
    versions[pc.v].status.attempt
  }

  ghost predicate NobodyHolds(w: World) {
    forall id :: id in w.workers ==> !Holds(w.versions, w.workers[id])
  }

  /** How an attempt comes to have nobody who will write its verdict. */
  datatype Loss =
    | StartUnheard(attempt: nat)      // its Running write landed and the reply was lost
    | WorkerDied(attempt: nat)        // its worker crashed after Running landed
    | VerdictRefused(attempt: nat)    // its verdict was refused

  function LossOf(w: World, a: Action): seq<Loss>
    requires Enabled(w, a)
  {
    match a
    case Start(id, fate) => if fate == ReplyLost then [StartUnheard(w.versions[Pc(w, id).v].status.attempt + 1)] else []
    case Crash(id) => if Holds(w.versions, Pc(w, id)) then [WorkerDied(HeldAttempt(w.versions, Pc(w, id)))] else []
    case Write(id, fate) =>
      if fate == Refused && Holds(w.versions, Pc(w, id)) then [VerdictRefused(HeldAttempt(w.versions, Pc(w, id)))] else []
    case _ => []
  }

  /** The losses of a run, in order. */
  function Losses(w: World, run: seq<Action>): seq<Loss>
    requires Legal(w, run)
    decreases |run|
  {
    if run == [] then [] else LossOf(w, run[0]) + Losses(Apply(w, run[0]), run[1..])
  }

  /** The latest attempt has no verdict of its own. */
  predicate Unfinished(s: Status) {
    s.state == Running || s.reason == Interrupted
  }

  // ---- What every step keeps --------------------------------------------------------------------

  /** Whoever holds an attempt holds the latest one, and it has not been lost. */
  ghost predicate HolderOk(versions: seq<Version>, lost: seq<Loss>, pc: Worker)
    requires versions != []
  {
    var last := versions[|versions| - 1].status;
    && (Holds(versions, pc) ==> lost == [] && HeldAttempt(versions, pc) == last.attempt && Unfinished(last))
    && (pc.Deciding? ==> pc.next.state != Running)
  }

  ghost predicate EveryHolderOk(versions: seq<Version>, workers: map<nat, Worker>, lost: seq<Loss>)
    requires versions != []
  {
    forall id :: id in workers ==> HolderOk(versions, lost, workers[id])
  }

  ghost predicate OneHolder(versions: seq<Version>, workers: map<nat, Worker>) {
    forall i, j :: i in workers && j in workers && Holds(versions, workers[i]) && Holds(versions, workers[j]) ==> i == j
  }

  ghost predicate SomebodyHolds(versions: seq<Version>, workers: map<nat, Worker>) {
    exists id :: id in workers && Holds(versions, workers[id])
  }

  /** A record loses at most one attempt, its latest; and an unfinished one is held or lost. */
  ghost predicate LostOk(versions: seq<Version>, workers: map<nat, Worker>, lost: seq<Loss>)
    requires versions != []
  {
    var last := versions[|versions| - 1].status;
    && |lost| <= 1
    && (lost != [] ==> lost[0].attempt == last.attempt && Unfinished(last))
    && (Unfinished(last) ==> lost != [] || SomebodyHolds(versions, workers))
  }

  ghost predicate LossInv(versions: seq<Version>, workers: map<nat, Worker>, lost: seq<Loss>) {
    && versions != []
    && EveryHolderOk(versions, workers, lost)
    && OneHolder(versions, workers)
    && LostOk(versions, workers, lost)
  }

  /** A worker that holds nothing is replaced by another one that holds nothing. */
  lemma IdlersKeep(versions: seq<Version>, workers: map<nat, Worker>, lost: seq<Loss>, id: nat, pc: Worker)
    requires LossInv(versions, workers, lost)
    requires id in workers ==> !Holds(versions, workers[id])
    requires !Holds(versions, pc) && (pc.Deciding? ==> pc.next.state != Running)
    ensures LossInv(versions, workers[id := pc], lost)
  {
    if SomebodyHolds(versions, workers) {
      var j :| j in workers && Holds(versions, workers[j]);
      assert j != id && Holds(versions, workers[id := pc][j]);
    }
  }

  /** The holder goes on with the attempt it holds. */
  lemma HolderGoesOn(versions: seq<Version>, workers: map<nat, Worker>, lost: seq<Loss>, id: nat, pc: Worker)
    requires LossInv(versions, workers, lost) && id in workers && Holds(versions, workers[id])
    requires Holds(versions, pc) && pc.v == workers[id].v && (pc.Deciding? ==> pc.next.state != Running)
    ensures LossInv(versions, workers[id := pc], lost)
  {
    assert HolderOk(versions, lost, workers[id]);
    assert Holds(versions, workers[id := pc][id]);
  }

  /** The holder lets go without a verdict: the attempt is lost. */
  lemma HolderLoses(versions: seq<Version>, workers: map<nat, Worker>, lost: seq<Loss>, id: nat, loss: Loss)
    requires LossInv(versions, workers, lost) && id in workers && Holds(versions, workers[id])
    requires loss.attempt == HeldAttempt(versions, workers[id])
    ensures LossInv(versions, workers[id := Idle], lost + [loss])
  {
    assert HolderOk(versions, lost, workers[id]);
    var after := workers[id := Idle];
    forall j | j in after ensures !Holds(versions, after[j]) {
    }
  }

  /** Versions only grow, so nobody comes to hold, or ceases to hold, what they have read. */
  lemma HoldersStay(versions: seq<Version>, b: Version, pc: Worker)
    requires pc.Executing? || pc.Deciding? || pc.Fetched? ==> pc.v < |versions|
    ensures Holds(versions + [b], pc) <==> Holds(versions, pc)
    ensures Holds(versions, pc) ==> HeldAttempt(versions + [b], pc) == HeldAttempt(versions, pc)
  {
  }

  lemma WorkersHaveRead(w: World, id: nat)
    requires Inv(w) && id in w.workers
    ensures var pc := w.workers[id]; pc.Executing? || pc.Deciding? || pc.Fetched? ==> pc.v < |w.versions|
  {
    assert WorkerOk(w.spec, w.versions, w.log.started, w.now, w.workers[id]);
  }

  /** A version with the same status: nothing changes for anybody. */
  lemma SameStatusKeeps(w: World, lost: seq<Loss>, b: Version)
    requires Inv(w) && LossInv(w.versions, w.workers, lost) && b.status == Last(w).status
    ensures LossInv(w.versions + [b], w.workers, lost)
  {
    forall id | id in w.workers
      ensures Holds(w.versions + [b], w.workers[id]) <==> Holds(w.versions, w.workers[id])
      ensures HolderOk(w.versions + [b], lost, w.workers[id])
    {
      WorkersHaveRead(w, id);
      HoldersStay(w.versions, b, w.workers[id]);
      assert HolderOk(w.versions, lost, w.workers[id]);
    }
    if SomebodyHolds(w.versions, w.workers) {
      var j :| j in w.workers && Holds(w.versions, w.workers[j]);
      assert Holds(w.versions + [b], w.workers[j]);
    }
  }

  /** With every attempt finished nobody holds anything and nothing is lost; a new version starts afresh. */
  lemma FreshVersion(w: World, lost: seq<Loss>, b: Version)
    requires Inv(w) && LossInv(w.versions, w.workers, lost) && !Unfinished(Last(w).status)
    ensures lost == []
    ensures forall id :: id in w.workers ==>
      !Holds(w.versions + [b], w.workers[id]) && (w.workers[id].Deciding? ==> w.workers[id].next.state != Running)
  {
    forall id | id in w.workers
      ensures !Holds(w.versions + [b], w.workers[id]) && (w.workers[id].Deciding? ==> w.workers[id].next.state != Running)
    {
      WorkersHaveRead(w, id);
      HoldersStay(w.versions, b, w.workers[id]);
      assert HolderOk(w.versions, lost, w.workers[id]);
    }
  }

  lemma StartKeepsLosses(w: World, lost: seq<Loss>, id: nat, fate: Fate)
    requires Inv(w) && LossInv(w.versions, w.workers, lost) && Enabled(w, Start(id, fate))
    ensures var x := ApplyStart(w, id, fate); LossInv(x.versions, x.workers, lost + LossOf(w, Start(id, fate)))
  {
    var v := Pc(w, id).v;
    if fate == Refused {
      IdlersKeep(w.versions, w.workers, lost, id, Idle);
      assert lost + [] == lost;
    } else {
      var b := Last(w).(status := Begin(Last(w).status, w.now));
      assert StatusOk(w.spec, Last(w).status, w.now);
      FreshVersion(w, lost, b);
      StartedAfresh(w, id, b, fate);
    }
  }

  lemma StartedAfresh(w: World, id: nat, b: Version, fate: Fate)
    requires w.versions != [] && b.status.state == Running && fate != Refused
    requires forall j :: j in w.workers ==>
      !Holds(w.versions + [b], w.workers[j]) && (w.workers[j].Deciding? ==> w.workers[j].next.state != Running)
    ensures var pc := if fate == Lands then Executing(|w.versions|, NOTHING_RUN) else Idle;
      var lost := if fate == ReplyLost then [StartUnheard(b.status.attempt)] else [];
      LossInv(w.versions + [b], w.workers[id := pc], lost)
  {
    if fate == Lands {
      assert Holds(w.versions + [b], w.workers[id := Executing(|w.versions|, NOTHING_RUN)][id]);
    }
  }

  lemma ConcludeKeepsLosses(w: World, lost: seq<Loss>, id: nat, channels: seq<Behaviour>)
    requires Inv(w) && LossInv(w.versions, w.workers, lost) && Enabled(w, Conclude(id, channels))
    ensures var x := ApplyConclude(w, id, channels); LossInv(x.versions, x.workers, lost)
  {
    var pc := w.workers[id];
    assert WorkerOk(w.spec, w.versions, w.log.started, w.now, pc);
    var x := ApplyConclude(w, id, channels);
    HolderGoesOn(w.versions, w.workers, lost, id, x.workers[id]);
  }

  lemma ResolveKeepsLosses(w: World, lost: seq<Loss>, id: nat, channels: seq<Behaviour>)
    requires Inv(w) && LossInv(w.versions, w.workers, lost) && Enabled(w, Resolve(id, channels))
    ensures var x := ApplyResolve(w, id, channels); LossInv(x.versions, x.workers, lost)
  {
    var x := ApplyResolve(w, id, channels);
    assert x.workers == w.workers[id := x.workers[id]] && x.versions == w.versions;
    IdlersKeep(w.versions, w.workers, lost, id, x.workers[id]);
  }

  lemma WriteKeepsLosses(w: World, lost: seq<Loss>, id: nat, fate: Fate)
    requires Inv(w) && LossInv(w.versions, w.workers, lost) && Enabled(w, Write(id, fate))
    ensures var x := ApplyWrite(w, id, fate); LossInv(x.versions, x.workers, lost + LossOf(w, Write(id, fate)))
  {
    if fate == Refused {
      LetGoKeepsLosses(w, lost, id, VerdictRefused(if Holds(w.versions, Pc(w, id)) then HeldAttempt(w.versions, Pc(w, id)) else 0));
    } else {
      VerdictKeepsLosses(w, lost, id, fate);
      assert lost + [] == lost;
    }
  }

  /** A worker stops: what it held, if anything, is lost. */
  lemma LetGoKeepsLosses(w: World, lost: seq<Loss>, id: nat, loss: Loss)
    requires LossInv(w.versions, w.workers, lost)
    requires Holds(w.versions, Pc(w, id)) ==> loss.attempt == HeldAttempt(w.versions, Pc(w, id))
    ensures LossInv(w.versions, w.workers[id := Idle], lost + (if Holds(w.versions, Pc(w, id)) then [loss] else []))
  {
    if Holds(w.versions, Pc(w, id)) {
      HolderLoses(w.versions, w.workers, lost, id, loss);
    } else {
      IdlersKeep(w.versions, w.workers, lost, id, Idle);
      assert lost + [] == lost;
    }
  }

  /** A landed write ends the attempt of the worker that holds it, or is somebody else's finding of Running. */
  lemma VerdictKeepsLosses(w: World, lost: seq<Loss>, id: nat, fate: Fate)
    requires Inv(w) && LossInv(w.versions, w.workers, lost) && Enabled(w, Write(id, fate)) && fate != Refused
    ensures var x := ApplyWrite(w, id, fate); LossInv(x.versions, x.workers, lost)
  {
    var pc := w.workers[id];
    assert WorkerOk(w.spec, w.versions, w.log.started, w.now, pc) && HolderOk(w.versions, lost, pc);
    assert w.versions[pc.v] == Last(w);
    assert StatusOk(w.spec, Last(w).status, w.now);
    var b := Last(w).(status := Stamp(pc.next, w.now));
    if Holds(w.versions, pc) {
      OwnVerdict(w, lost, id, b);
    } else if Last(w).status.state == Running {
      FoundRunning(w, lost, id, b);
    } else {
      FreshVersion(w, lost, b);
      OtherVerdict(w, id, b);
    }
  }

  /** The worker that holds the attempt writes a verdict of its own. */
  lemma OwnVerdict(w: World, lost: seq<Loss>, id: nat, b: Version)
    requires Inv(w) && LossInv(w.versions, w.workers, lost) && id in w.workers && Holds(w.versions, w.workers[id])
    requires !Unfinished(b.status)
    ensures LossInv(w.versions + [b], w.workers[id := Idle], lost)
  {
    assert HolderOk(w.versions, lost, w.workers[id]);
    var after := w.workers[id := Idle];
    forall j | j in after
      ensures !Holds(w.versions + [b], after[j])
      ensures HolderOk(w.versions + [b], lost, after[j])
    {
      if j != id {
        WorkersHaveRead(w, j);
        HoldersStay(w.versions, b, w.workers[j]);
        assert HolderOk(w.versions, lost, w.workers[j]);
      }
    }
  }

  /** A version that ends the record as Interrupted leaves holder and loss as they are. */
  lemma FoundRunning(w: World, lost: seq<Loss>, id: nat, b: Version)
    requires Inv(w) && LossInv(w.versions, w.workers, lost) && id in w.workers && !Holds(w.versions, w.workers[id])
    requires Unfinished(Last(w).status) && Unfinished(b.status) && b.status.attempt == Last(w).status.attempt
    ensures LossInv(w.versions + [b], w.workers[id := Idle], lost)
  {
    IdlersKeep(w.versions, w.workers, lost, id, Idle);
    var after := w.workers[id := Idle];
    forall j | j in after
      ensures Holds(w.versions + [b], after[j]) <==> Holds(w.versions, after[j])
      ensures HolderOk(w.versions + [b], lost, after[j])
    {
      if j != id {
        WorkersHaveRead(w, j);
        HoldersStay(w.versions, b, w.workers[j]);
        assert HolderOk(w.versions, lost, w.workers[j]);
      }
    }
    if SomebodyHolds(w.versions, after) {
      var j :| j in after && Holds(w.versions, after[j]);
      assert Holds(w.versions + [b], after[j]);
    }
  }

  lemma OtherVerdict(w: World, id: nat, b: Version)
    requires w.versions != [] && !Unfinished(b.status)
    requires forall j :: j in w.workers ==>
      !Holds(w.versions + [b], w.workers[j]) && (w.workers[j].Deciding? ==> w.workers[j].next.state != Running)
    ensures LossInv(w.versions + [b], w.workers[id := Idle], [])
  {
  }

  lemma StepKeepsLosses(w: World, lost: seq<Loss>, a: Action)
    requires Inv(w) && LossInv(w.versions, w.workers, lost) && Enabled(w, a)
    ensures var x := Apply(w, a); LossInv(x.versions, x.workers, lost + LossOf(w, a))
  {
    assert lost + [] == lost;
    match a {
      case Read(id, v) => IdlersKeep(w.versions, w.workers, lost, id, Fetched(v));
      case Start(id, fate) => StartKeepsLosses(w, lost, id, fate);
      case RunStep(id, b) => HolderGoesOn(w.versions, w.workers, lost, id, ApplyRunStep(w, id, b).workers[id]);
      case Conclude(id, channels) => ConcludeKeepsLosses(w, lost, id, channels);
      case Resolve(id, channels) => ResolveKeepsLosses(w, lost, id, channels);
      case Write(id, fate) => WriteKeepsLosses(w, lost, id, fate);
      case Crash(id) =>
        LetGoKeepsLosses(w, lost, id, WorkerDied(if Holds(w.versions, Pc(w, id)) then HeldAttempt(w.versions, Pc(w, id)) else 0));
      case Patch(d) => SameStatusKeeps(w, lost, Last(w).(decision := d));
      case Tick(_) =>
      case Delete =>
    }
  }

  lemma {:induction false} RunKeepsLosses(w: World, lost: seq<Loss>, run: seq<Action>)
    requires Inv(w) && LossInv(w.versions, w.workers, lost) && Legal(w, run)
    ensures var x := Run(w, run); LossInv(x.versions, x.workers, lost + Losses(w, run))
    decreases |run|
  {
    if run == [] {
      assert lost + [] == lost;
    } else {
      StepKeepsInv(w, run[0]);
      StepKeepsLosses(w, lost, run[0]);
      RunKeepsLosses(Apply(w, run[0]), lost + LossOf(w, run[0]), run[1..]);
      Associates(lost, LossOf(w, run[0]), Losses(Apply(w, run[0]), run[1..]));
    }
  }

  lemma ReachableLosses(spec: Spec, run: seq<Action>)
    requires Legal(Initial(spec), run)
    ensures var w := Run(Initial(spec), run); LossInv(w.versions, w.workers, Losses(Initial(spec), run))
  {
    InitialInv(spec);
    RunKeepsLosses(Initial(spec), [], run);
    assert [] + Losses(Initial(spec), run) == Losses(Initial(spec), run);
  }

  // ---- The theorems -----------------------------------------------------------------------------

  /**
    * A record whose latest status is Running has nobody left to write its verdict if and only if that
    * attempt was lost: its start went unheard, its worker died after Running landed, or its verdict
    * was refused. Over every run.
    */
  lemma FoundRunningIff(spec: Spec, run: seq<Action>)
    requires Legal(Initial(spec), run)
    requires Run(Initial(spec), run).versions != [] && Last(Run(Initial(spec), run)).status.state == Running
    ensures var w := Run(Initial(spec), run);
      NobodyHolds(w) <==> exists loss :: loss in Losses(Initial(spec), run) && loss.attempt == Last(w).status.attempt
  {
    ReachableLosses(spec, run);
    var w, lost := Run(Initial(spec), run), Losses(Initial(spec), run);
    if lost != [] {
      assert lost[0] in lost;
      forall id | id in w.workers ensures !Holds(w.versions, w.workers[id]) {
        assert HolderOk(w.versions, lost, w.workers[id]);
      }
    }
  }

  /**
    * At rest (no worker holds an attempt) a record is Running, or has ended Interrupted, if and only if
    * the run lost an attempt; then it lost exactly one, its latest.
    */
  lemma EndsInterruptedIff(spec: Spec, run: seq<Action>)
    requires Legal(Initial(spec), run) && NobodyHolds(Run(Initial(spec), run))
    ensures var w := Run(Initial(spec), run);
      && w.versions != []
      && (Unfinished(Last(w).status) <==> Losses(Initial(spec), run) != [])
      && |Losses(Initial(spec), run)| <= 1
      && forall loss :: loss in Losses(Initial(spec), run) ==> loss.attempt == Last(w).status.attempt
  {
    ReachableLosses(spec, run);
  }

  /** A lost attempt never gets a verdict of its own, whatever happens next: Interrupted is all that can follow. */
  lemma LostIsForGood(spec: Spec, run: seq<Action>, more: seq<Action>)
    requires Legal(Initial(spec), run) && Legal(Run(Initial(spec), run), more)
    requires Losses(Initial(spec), run) != []
    ensures var x := Run(Run(Initial(spec), run), more);
      x.versions != [] && Unfinished(Last(x).status) && Last(x).status.attempt == Losses(Initial(spec), run)[0].attempt
  {
    ReachableInv(spec, run);
    ReachableLosses(spec, run);
    RunKeepsLosses(Run(Initial(spec), run), Losses(Initial(spec), run), more);
  }

  /** A record that has ended Interrupted lost its attempt, or somebody else found it Running too early. */
  lemma InterruptedWasLostOrHeld(spec: Spec, run: seq<Action>)
    requires Legal(Initial(spec), run)
    requires Run(Initial(spec), run).versions != [] && Last(Run(Initial(spec), run)).status.reason == Interrupted
    ensures Losses(Initial(spec), run) != [] || !NobodyHolds(Run(Initial(spec), run))
  {
    ReachableLosses(spec, run);
  }
}
