/**
  * The reconciler as it is written: a working copy of the record whose status fields are assigned one
  * by one around writes (internal/engine/controller.go, internal/engine/approval.go). Every method
  * moves a world of the lifecycle protocol by legal steps only, with everybody else's steps in between,
  * and accounts for the steps it took itself, in order.
  */
module Reconciler {
  import opened Common
  import opened Records
  import opened Guards
  import opened Steps
  import opened Channels
  import opened Backoff
  import opened Lifecycle
  import opened Outcomes
  import opened Protocol
  import opened ProtocolRuns
  import Replay
  import Pruner
  import MH = MemoryHistory

  /** The copy of the record a reconcile works on. */
  class Remediation {
    const name: string
    const spec: Spec
    var version: nat
    var decision: Decision
    var state: State
    var attempt: nat
    var steps: seq<StepStatus>
    var reason: Reason
    var message: Message
    var startedAt: Option<Time>
    var completedAt: Option<Time>
    var escalation: Option<Escalation>

    constructor (name: string, spec: Spec, version: nat, r: Version)
      ensures this.name == name && this.spec == spec && this.version == version && AsVersion() == r
    {
      this.name := name;
      this.spec := spec;
      this.version := version;
      decision := r.decision;
      state := r.status.state;
      attempt := r.status.attempt;
      steps := r.status.steps;
      reason := r.status.reason;
      message := r.status.message;
      startedAt := r.status.startedAt;
      completedAt := r.status.completedAt;
      escalation := r.status.escalation;
    }

    function AsStatus(): Status
      reads this
    {
      Status(state, attempt, steps, reason, message, startedAt, completedAt, escalation)
    }

    function AsVersion(): Version
      reads this
    {
      Version(decision, AsStatus())
    }
  }

  /** Nothing has been written, and no time has passed. */
  predicate SameStore(before: World, after: World) {
    && after.versions == before.versions && after.now == before.now && after.deleted == before.deleted
    && after.spec == before.spec && after.log.completions == before.log.completions
  }

  /** What the cache answers a read with: any version the record ever had, that there is none, or an error. */
  datatype Reply = Found(v: nat) | NotFound | Fails

  /** A step one worker takes; people, the clock and other workers take the rest. */
  predicate Takes(a: Action, id: nat) {
    match a
    case Read(i, _) => i == id
    case Start(i, _) => i == id
    case RunStep(i, _) => i == id
    case Conclude(i, _) => i == id
    case Resolve(i, _) => i == id
    case Write(i, _) => i == id
    case Crash(i) => i == id
    case _ => false
  }

  /** The steps one worker took in a run, in order. */
  function Own(run: seq<Action>, id: nat): seq<Action> {
    if run == [] then []
    else
      var n := |run| - 1;
      Own(run[..n], id) + if Takes(run[n], id) then [run[n]] else []
  }

  lemma OwnOneMore(run: seq<Action>, a: Action, id: nat)
    ensures Own(run + [a], id) == Own(run, id) + if Takes(a, id) then [a] else []
  {
    assert (run + [a])[..|run|] == run;
  }

  lemma OthersLeaveAlone(w: World, a: Action, id: nat)
    requires w.versions != [] && Enabled(w, a) && !Takes(a, id)
    ensures var x := Apply(w, a);
      && Pc(x, id) == Pc(w, id) && x.spec == w.spec && w.versions <= x.versions && w.now <= x.now
  {
  }

  lemma ApplyKeepsVersions(w: World, a: Action)
    requires w.versions != [] && Enabled(w, a)
    ensures w.versions <= Apply(w, a).versions && Apply(w, a).versions != []
  {
  }

  /** The API server, as one record sees it. A quiet cluster is one where nobody else moves and nothing fails. */
  class Cluster {
    const name: string
    const start: World
    const quiet: bool
    const grants: Option<nat>    // how many records it lets prune delete; none when it does not list them
    var world: World
    ghost var trace: seq<Action>

    constructor (name: string, start: World, quiet: bool, grants: Option<nat>)
      requires start.versions != []
      ensures Valid() && this.name == name && this.start == start && this.quiet == quiet && this.grants == grants
      ensures world == start && trace == []
    {
      this.name := name;
      this.grants := grants;
      this.start := start;
      this.quiet := quiet;
      world := start;
      trace := [];
    }

    /** The world is where a legal run of the protocol has led. */
    ghost predicate Valid()
      reads this
    {
      world.versions != [] && Leads(start, trace, world)
    }

    ghost function Mine(id: nat): seq<Action>
      reads this
    {
      Own(trace, id)
    }

    method Do(a: Action, ghost id: nat)
      requires Valid() && Enabled(world, a)
      modifies this
      ensures Valid() && world == Apply(old(world), a) && trace == old(trace) + [a]
      ensures Mine(id) == old(Mine(id)) + if Takes(a, id) then [a] else []
    {
      LeadsOn(start, trace, world, a);
      ApplyKeepsVersions(world, a);
      OwnOneMore(trace, a, id);
      trace := trace + [a];
      world := Apply(world, a);
    }

    /** Any number of steps by anybody else: other workers, people, the clock. */
    method Others(id: nat)
      requires Valid()
      modifies this
      ensures Valid() && Mine(id) == old(Mine(id)) && (quiet ==> world == old(world))
      ensures Pc(world, id) == Pc(old(world), id) && world.spec == old(world).spec
      ensures old(world).versions <= world.versions && old(world).now <= world.now
    {
      if quiet {
        return;
      }
      var n: int := *;
      for i := 0 to Max(n, 0)
        invariant Valid() && Mine(id) == old(Mine(id))
        invariant Pc(world, id) == Pc(old(world), id) && world.spec == old(world).spec
        invariant old(world).versions <= world.versions && old(world).now <= world.now
      {
        var a: Action := *;
        if !Takes(a, id) && Enabled(world, a) {
          OthersLeaveAlone(world, a, id);
          Do(a, id);
        }
      }
    }

    /** Time passes while something slow runs; in a quiet cluster, until the given instant. */
    method Pass(id: nat, until: Time)
      requires Valid() && (quiet ==> world.now <= until)
      modifies this
      ensures Valid() && Mine(id) == old(Mine(id))
      ensures quiet ==> world == old(world).(now := until)
      ensures Pc(world, id) == Pc(old(world), id) && world.spec == old(world).spec
      ensures old(world).versions <= world.versions && old(world).now <= world.now
    {
      Others(id);
      if quiet {
        Do(Tick(until - world.now), id);
      }
    }

    /** A read from the cache, which may be behind; a deleted record may be gone from it or not, and a read may fail. */
    method Get(id: nat, reply: Reply) returns (rem: Remediation?, err: bool)
      requires Valid() && Pc(world, id).Idle? && (reply.Found? ==> reply.v < |world.versions|)
      modifies this
      ensures Valid() && (err <==> reply.Fails?) && (rem == null <==> !reply.Found?)
      ensures !reply.Found? ==> world == old(world) && Mine(id) == old(Mine(id))
      ensures reply.Found? ==>
        && fresh(rem) && rem.name == name && rem.spec == world.spec
        && rem.version == reply.v && rem.AsVersion() == old(world).versions[reply.v]
        && world == Move(old(world), id, Fetched(reply.v))
        && Mine(id) == old(Mine(id)) + [Read(id, reply.v)]
    {
      rem, err := null, reply.Fails?;
      if reply.Found? {
        rem := new Remediation(name, world.spec, reply.v, world.versions[reply.v]);
        Do(Read(id, reply.v), id);
      }
    }

    /** One more step of a plan. */
    method StepOnce(id: nat, b: Behaviour)
      requires Valid() && Enabled(world, RunStep(id, b))
      modifies this
      ensures Valid() && Mine(id) == old(Mine(id)) + [RunStep(id, b)] && SameStore(old(world), world)
      ensures Pc(world, id) == Executing(Pc(old(world), id).v, Advance(world.spec.dryRun, world.spec.steps, Pc(old(world), id).progress, b))
    {
      Do(RunStep(id, b), id);
    }

    /** Anything but running an attempt: the worker is done, or about to write. */
    method Resolve(id: nat, channels: seq<Behaviour>)
      requires Valid() && Enabled(world, Action.Resolve(id, channels))
      modifies this
      ensures Valid() && Mine(id) == old(Mine(id)) + [Action.Resolve(id, channels)] && SameStore(old(world), world)
      ensures var v := Pc(old(world), id).v;
        var branch := Decide(world.spec, world.versions[v], world.now);
        if branch == Done then Pc(world, id) == Idle
        else
          var next := Resolution(world.spec, world.versions[v], branch, channels, world.now);
          Pc(world, id) == if NothingToWrite(world.versions[v], branch, next) then Idle
                           else Deciding(v, next, Pages(world.spec, branch))
    {
      Do(Action.Resolve(id, channels), id);
    }

    /** The end of a run: its outcome is decided, and the fallback plan is run if it is final. */
    method Conclude(id: nat, channels: seq<Behaviour>)
      requires Valid() && Enabled(world, Action.Conclude(id, channels))
      modifies this
      ensures Valid() && Mine(id) == old(Mine(id)) + [Action.Conclude(id, channels)] && SameStore(old(world), world)
      ensures var pc := Pc(old(world), id);
        && Pc(world, id).Deciding? && Pc(world, id).v == pc.v
        && Pc(world, id).next == Conclusion(world.spec, world.versions[pc.v].status, pc.progress, channels, world.now)
    {
      Do(Action.Conclude(id, channels), id);
    }

    /** The write the protocol is waiting for is the one the working copy holds. */
    ghost predicate Expects(id: nat, rem: Remediation)
      reads this, rem
    {
      && rem.version < |world.versions| && rem.decision == world.versions[rem.version].decision
      && match Pc(world, id)
         case Fetched(v) =>
           && v == rem.version && Decide(world.spec, world.versions[v], world.now) == RunAttempt
           && rem.AsStatus() == Begin(world.versions[v].status, world.now)
         case Deciding(v, next, _) => v == rem.version && rem.AsStatus() == Stamp(next, world.now)
         case _ => false
    }

    /** The Running write of an attempt, with the reply the API server gives. */
    method SendRunning(id: nat, fate: Fate)
      requires Valid() && Enabled(world, Start(id, fate))
      modifies this
      ensures Valid() && Mine(id) == old(Mine(id)) + [Start(id, fate)]
      ensures world.spec == old(world).spec && world.now == old(world).now && world.deleted == old(world).deleted
      ensures world.log.completions == old(world).log.completions
      ensures var r := old(world).versions[Pc(old(world), id).v];
        && world.versions == old(world).versions + (if fate == Refused then [] else [r.(status := Begin(r.status, world.now))])
        && Pc(world, id) == if fate == Lands then Executing(|old(world).versions|, NOTHING_RUN) else Idle
    {
      Do(Start(id, fate), id);
    }

    /** Any other status write. */
    method SendStatus(id: nat, fate: Fate)
      requires Valid() && Enabled(world, Write(id, fate))
      modifies this
      ensures Valid() && Mine(id) == old(Mine(id)) + [Write(id, fate)] && Pc(world, id) == Idle
      ensures world.spec == old(world).spec && world.now == old(world).now && world.deleted == old(world).deleted
      ensures var s := Stamp(Pc(old(world), id).next, world.now);
        && world.versions == old(world).versions + (if fate == Refused then [] else [Last(old(world)).(status := s)])
        && world.log.completions == old(world).log.completions + (if fate == Lands && FeedsGuards(world.spec, s) then [world.now] else [])
    {
      Do(Write(id, fate), id);
    }

    /** Status().Update: a compare-and-swap on the version read, never retried. */
    method UpdateStatus(id: nat, rem: Remediation) returns (ok: bool, ghost fate: Fate)
      requires Valid() && Expects(id, rem)
      modifies this, rem`version
      ensures Valid() && (ok <==> fate == Lands)
      ensures Mine(id) == old(Mine(id)) + [if Pc(old(world), id).Fetched? then Start(id, fate) else Write(id, fate)]
      ensures world.spec == old(world).spec && world.now == old(world).now && world.deleted == old(world).deleted
      ensures old(world).versions <= world.versions
      ensures ok ==>
        && world.versions == old(world).versions + [rem.AsVersion()] && rem.version == |old(world).versions|
        && old(rem.version) + 1 == |old(world).versions|
      ensures Pc(world, id) == if ok && Pc(old(world), id).Fetched? then Executing(rem.version, NOTHING_RUN) else Idle
      ensures world.log.completions == old(world).log.completions +
        (if ok && Pc(old(world), id).Deciding? && FeedsGuards(world.spec, rem.AsStatus()) then [world.now] else [])
      ensures quiet && !old(world).deleted && old(rem.version) + 1 == |old(world).versions| ==> ok
    {
      var reply: Fate := *;
      if quiet {
        reply := Lands;
      }
      if !CanLand(world, rem.version) {
        reply := Refused;
      }
      if Pc(world, id).Fetched? {
        SendRunning(id, reply);
      } else {
        SendStatus(id, reply);
      }
      ok, fate := reply == Lands, reply;
      if ok {
        rem.version := |world.versions| - 1;
      }
    }
  }

  /** One completion more for a key, or none. */
  ghost predicate Fed(before: map<Key, seq<Time>>, after: map<Key, seq<Time>>, k: Key, at: Time, fed: bool) {
    && multiset(Of(after, k)) == multiset(Of(before, k)) + (if fed then multiset{at} else multiset{})
    && forall x: Key :: x != k ==> Of(after, x) == Of(before, x)
  }

  /** What one reconcile went through: the version it read, when it looked at the clock, how its writes fared. */
  datatype Account = Account(v: nat, r: Version, began: Time, decided: Time, start: Fate, write: Fate)

  const NOTHING_DONE := Account(0, Version(Undecided, EMPTY_STATUS), 0, 0, Refused, Refused)

  /** The protocol steps of a reconcile after its read, in order. */
  function Script(spec: Spec, id: nat, luck: Luck, a: Account): seq<Action>
    requires Fits(spec, luck)
  {
    if Decide(spec, a.r, a.began) == Branch.RunAttempt then
      if a.start != Lands then [Start(id, a.start)]
      else [Start(id, Lands)] + StepActions(id, luck.steps) + [Conclude(id, luck.channels)] + [Write(id, a.write)]
    else if WritesNothing(spec, a.r, luck.(now := a.began)) then [Resolve(id, luck.channels)]
    else [Resolve(id, luck.channels)] + [Write(id, a.write)]
  }

  lemma AttemptScript(spec: Spec, id: nat, luck: Luck, a: Account, mine: seq<Action>)
    requires Fits(spec, luck) && Decide(spec, a.r, a.began) == Branch.RunAttempt && a.start == Lands
    ensures mine + Script(spec, id, luck, a) ==
      mine + [Start(id, Lands)] + StepActions(id, luck.steps) + [Conclude(id, luck.channels)] + [Write(id, a.write)]
  {
    FiveParts(mine, [Start(id, Lands)], StepActions(id, luck.steps), [Conclude(id, luck.channels)], [Write(id, a.write)]);
  }

  lemma FiveParts<T>(a: seq<T>, b: seq<T>, c: seq<T>, d: seq<T>, e: seq<T>)
    ensures a + (b + c + d + e) == a + b + c + d + e
  {
  }

  lemma VerdictScript(spec: Spec, id: nat, luck: Luck, a: Account, mine: seq<Action>)
    requires Fits(spec, luck) && Decide(spec, a.r, a.began) != Branch.RunAttempt && !WritesNothing(spec, a.r, luck.(now := a.began))
    ensures mine + Script(spec, id, luck, a) == mine + [Resolve(id, luck.channels)] + [Write(id, a.write)]
  {
  }

  /** What the branches prescribe, by what the record says: run the plan, write one status, or write none. */
  lemma ScriptIs(spec: Spec, id: nat, luck: Luck, a: Account)
    requires Fits(spec, luck)
    ensures var runs := Open(a.r.status.state) && !spec.gaveUp && (spec.mode != Approval || a.r.decision == Approve);
      var waits := Gated(spec, a.r) && a.r.decision == Undecided && spec.deadline.Some? && a.began < spec.deadline.value;
      var silent := a.r.status.state in {Succeeded, Failed, Simulated}
        || (waits && a.r.status.state == AwaitingApproval && a.r.status.message == Waiting(spec.deadline.value - a.began));
      Script(spec, id, luck, a) ==
        if runs && a.start != Lands then [Start(id, a.start)]
        else if runs then [Start(id, Lands)] + StepActions(id, luck.steps) + [Conclude(id, luck.channels)] + [Write(id, a.write)]
        else if silent then [Resolve(id, luck.channels)]
        else [Resolve(id, luck.channels)] + [Write(id, a.write)]
  {
  }

  /** Whether it wrote a status that ends its turn, and heard that the write landed. */
  predicate Recorded(spec: Spec, luck: Luck, a: Account)
    requires Fits(spec, luck)
  {
    && !WritesNothing(spec, a.r, luck.(now := a.began)) && a.write == Lands
    && (Decide(spec, a.r, a.began) == Branch.RunAttempt ==> a.start == Lands)
  }

  /** The version that ends an attempt. */
  function Concluded(spec: Spec, running: Version, luck: Luck, decided: Time, ended: Time): Version
    requires Fits(spec, luck)
  {
    var p := RunPlan(spec.dryRun, spec.steps, luck.steps);
    running.(status := Stamp(Conclusion(spec, running.status, p, luck.channels, decided), ended))
  }

  lemma AttemptIsWritten(spec: Spec, r: Version, luck: Luck, began: Time, decided: Time, ended: Time)
    requires Fits(spec, luck) && Decide(spec, r, began) == Branch.RunAttempt
    ensures var running := r.(status := Begin(r.status, began));
      var after := Concluded(spec, running, luck, decided, ended);
      && Written(spec, r, luck, began, decided, ended) == after
      && running.status.attempt == r.status.attempt + 1
      && RequeueAfter(spec, r, luck.(now := began)) ==
           if after.status.state == Pending then WaitBefore(running.status.attempt + 1) else 0
  {
  }

  lemma VerdictIsWritten(spec: Spec, r: Version, luck: Luck, began: Time, decided: Time, ended: Time)
    requires Fits(spec, luck) && Decide(spec, r, began) in {Interrupt, StopTrying, Refuse, Expire}
    ensures var next := Resolution(spec, r, Decide(spec, r, began), luck.channels, began);
      && Terminal(next.state)
      && Written(spec, r, luck, began, decided, ended) == r.(status := Stamp(next, ended))
      && RequeueAfter(spec, r, luck.(now := began)) == 0 && !WritesNothing(spec, r, luck.(now := began))
  {
  }

  lemma WaitIsWritten(spec: Spec, r: Version, luck: Luck, began: Time, decided: Time, ended: Time)
    requires Fits(spec, luck) && Decide(spec, r, began) == Wait
    ensures var next := Resolution(spec, r, Wait, luck.channels, began);
      && next.state == AwaitingApproval && Stamp(next, ended) == next
      && (WritesNothing(spec, r, luck.(now := began)) <==> NothingToWrite(r, Wait, next))
      && Written(spec, r, luck, began, decided, ended) == (if NothingToWrite(r, Wait, next) then r else r.(status := next))
      && RequeueAfter(spec, r, luck.(now := began)) == Min(spec.deadline.value - began + 1, 60)
  {
  }

  /** A reconcile's next step is to write this status over the version its working copy came from. */
  ghost predicate Ready(w: World, id: nat, v: nat, r: Version, next: Status) {
    && v < |w.versions| && w.versions[v] == r
    && Pc(w, id).Deciding? && Pc(w, id).v == v && Pc(w, id).next == next
  }

  /** What a reconcile finds and changes: its own steps so far, the guards' history, the listed records, the pages sent. */
  datatype Before = Before(mine: seq<Action>, history: History, records: seq<Replay.Stored>, paged: seq<seq<Call>>)

  /** A reconcile that runs the fallback plan: there is one, and the record ends without a success nobody denied it. */
  ghost predicate PagesSomebody(spec: Spec, luck: Luck, a: Account) {
    spec.escalation != [] &&
      (|| (Open(a.r.status.state) && spec.gaveUp)
       || (Gated(spec, a.r) && a.r.decision == Undecided && (spec.deadline.Some? ==> a.began >= spec.deadline.value))
       || (&& Open(a.r.status.state) && !spec.gaveUp && (spec.mode != Approval || a.r.decision == Approve)
           && a.start == Lands && a.r.status.attempt >= spec.retries
           && exists i :: 0 <= i < |luck.steps| && !Works(spec.dryRun, luck.steps[i])))
  }

  /** The last attempt of a budget, failed, with a fallback plan to run. */
  ghost predicate PagesAtTheEnd(spec: Spec, running: Status, luck: Luck) {
    && spec.escalation != [] && running.attempt > spec.retries
    && exists i :: 0 <= i < |luck.steps| && !Works(spec.dryRun, luck.steps[i])
  }

  lemma PagesAtTheEndIff(spec: Spec, running: Status, luck: Luck)
    requires Fits(spec, luck)
    ensures PagesAtTheEnd(spec, running, luck) <==>
      spec.escalation != [] && running.attempt > spec.retries && RunPlan(spec.dryRun, spec.steps, luck.steps).failure.Some?
  {
    RunSucceedsIffEveryStepDoes(spec.dryRun, spec.steps, luck.steps);
  }

  lemma VerdictPages(spec: Spec, luck: Luck, a: Account)
    requires Decide(spec, a.r, a.began) in {Interrupt, StopTrying, Refuse, Expire}
    ensures PagesSomebody(spec, luck, a) <==> spec.escalation != [] && Decide(spec, a.r, a.began) in {StopTrying, Expire}
  {
  }

  lemma WaitPagesNobody(spec: Spec, luck: Luck, a: Account)
    requires Decide(spec, a.r, a.began) in {Wait, Done}
    ensures !PagesSomebody(spec, luck, a)
  {
  }

  lemma AttemptPages(spec: Spec, luck: Luck, a: Account)
    requires Decide(spec, a.r, a.began) == Branch.RunAttempt
    ensures PagesSomebody(spec, luck, a) <==> a.start == Lands && PagesAtTheEnd(spec, Begin(a.r.status, a.began), luck)
  {
  }

  /** The calls a page makes. */
  function PageCalls(spec: Spec, luck: Luck): seq<Call> {
    ChannelCalls(spec.firstSuccess, false, 0, luck.channels)
  }

  class RemediationReconciler {
    const history: MH.MemoryHistory
    const historyLimit: int
    var records: seq<Replay.Stored>    // every record, as prune's list call returns them
    ghost var paged: seq<seq<Call>>    // the calls of each fallback plan that was run

    constructor (history: MH.MemoryHistory, historyLimit: int, records: seq<Replay.Stored>)
      ensures this.history == history && this.historyLimit == historyLimit && this.records == records && paged == []
    {
      paged := [];
      this.history := history;
      this.historyLimit := historyLimit;
      this.records := records;
    }

    ghost function Snapshot(c: Cluster, id: nat): Before
      reads this, c, history
    {
      Before(c.Mine(id), history.View(), records, paged)
    }

    /** After a landed verdict, and only then, the guards hear of it and the count limit is applied. */
    ghost predicate Followed(b: Before, c: Cluster, spec: Spec, s: Status, now: Time, landed: bool, fed: bool)
      reads this, history
    {
      && history.Valid() && history.starts == b.history.starts
      && (fed <==> landed && FeedsGuards(spec, s))
      && Fed(b.history.completions, history.completions, Key(spec.strategy, spec.target), now, fed)
      && if landed && Terminal(s.state) then Trimmed(b.records, records, spec.strategy, c) else records == b.records
    }

    /** The surplus is gone, as far as the API server lets it be listed and deleted. */
    predicate Trimmed(before: seq<Replay.Stored>, after: seq<Replay.Stored>, strategy: string, c: Cluster) {
      var surplus := Pruner.Surplus(before, strategy, c.name, historyLimit);
      match c.grants
      case None => after == before
      case Some(n) => after == Pruner.Pruned(before, strategy, c.name, historyLimit, Min(n, |surplus|))
    }

    /** The whole story of a reconcile that read a version. */
    ghost predicate Accounted(b: Before, c: Cluster, id: nat, luck: Luck, a: Account, requeue: Time, err: bool, fed: bool)
      requires Fits(c.world.spec, luck)
      reads c, this, history
    {
      var spec := c.world.spec;
      var after := Written(spec, a.r, luck, a.began, a.decided, c.world.now);
      && c.Valid() && Pc(c.world, id).Idle?
      && c.Mine(id) == b.mine + Script(spec, id, luck, a)
      && a.began <= a.decided <= c.world.now
      && (err <==> !WritesNothing(spec, a.r, luck.(now := a.began)) && !Recorded(spec, luck, a))
      && (Recorded(spec, luck, a) ==> Last(c.world) == after)
      && requeue == (if err then 0 else RequeueAfter(spec, a.r, luck.(now := a.began)))
      && Followed(b, c, spec, after.status, c.world.now, Recorded(spec, luck, a), fed)
      && paged == b.paged + (if PagesSomebody(spec, luck, a) then [PageCalls(spec, luck)] else [])
    }

    /** ... in a quiet cluster: what it read was current, and every write landed. */
    ghost predicate WentWell(c: Cluster, luck: Luck, a: Account)
      requires Fits(c.world.spec, luck)
      reads c
    {
      && c.world.versions != [] && a.began == luck.now && a.start == a.write == Lands
      && Last(c.world) == Settle(c.world.spec, a.r, luck)
    }

    /**
      * One reconcile in the middle of everything. A record that is not found is left alone, and a
      * failed read is an error. Otherwise it takes the steps its branch prescribes for the version
      * read and no others, reports an error if and only if its last write did not land, and without
      * one leaves the record as Written says, feeds the guards, applies the count limit and asks to
      * be called back when RequeueAfter says. In a quiet cluster the record ends where Settle says.
      */
    method Reconcile(c: Cluster, id: nat, reply: Reply, luck: Luck) returns (requeue: Time, err: bool, ghost fed: bool, ghost a: Account)
      requires c.Valid() && history.Valid() && Pc(c.world, id).Idle? && Fits(c.world.spec, luck)
      requires reply.Found? ==> reply.v < |c.world.versions|
      requires c.quiet ==> !c.world.deleted && c.world.now == luck.now <= luck.ended && reply == Found(|c.world.versions| - 1)
      modifies c, history, this`records, this`paged
      ensures c.world.spec == old(c.world).spec
      ensures !reply.Found? ==>
        c.world == old(c.world) && Snapshot(c, id) == old(Snapshot(c, id)) && requeue == 0 && (err <==> reply.Fails?) && !fed
      ensures reply.Found? ==>
        && a.v == reply.v && a.r == old(c.world).versions[reply.v] && old(c.world).now <= a.began
        && Accounted(old(Snapshot(c, id)).(mine := old(c.Mine(id)) + [Read(id, reply.v)]), c, id, luck, a, requeue, err, fed)
      ensures c.quiet ==> !err && WentWell(c, luck, a)
    {
      requeue, fed, a := 0, false, NOTHING_DONE;
      var rem;
      rem, err := c.Get(id, reply);
      if rem == null {
        return;
      }
      ghost var b := Snapshot(c, id);
      c.Others(id);
      assert Snapshot(c, id) == b;
      if Terminal(rem.state) {
        a := Leave(c, id, rem, luck);
      } else if rem.state == Running {
        err, fed, a := MarkInterrupted(c, id, rem, luck);
      } else if rem.spec.gaveUp {
        err, fed, a := MarkGaveUp(c, id, rem, luck);
      } else if rem.spec.mode == Approval {
        requeue, err, fed, a := AwaitApproval(c, id, rem, luck);
      } else {
        requeue, err, fed, a := RunAttempt(c, id, rem, luck);
      }
    }

    /** The working copy is a version that was read, and nothing has been decided about it yet. */
    ghost predicate JustRead(c: Cluster, id: nat, rem: Remediation, luck: Luck)
      reads c, rem, history
    {
      && c.Valid() && history.Valid() && rem.spec == c.world.spec && rem.name == c.name && Fits(c.world.spec, luck)
      && rem.version < |c.world.versions| && rem.AsVersion() == c.world.versions[rem.version]
      && Pc(c.world, id) == Fetched(rem.version)
      && (c.quiet ==> !c.world.deleted && rem.version + 1 == |c.world.versions| && c.world.now == luck.now <= luck.ended)
    }

    /** What every branch of Reconcile guarantees, from the version read and the clock at that moment. */
    ghost predicate Handled(b: Before, v: nat, r: Version, began: Time, c: Cluster, id: nat, luck: Luck, a: Account, requeue: Time, err: bool, fed: bool)
      requires Fits(c.world.spec, luck)
      reads c, this, history
    {
      && a.v == v && a.r == r && a.began == began && v < |c.world.versions| && c.world.versions[v] == r
      && Accounted(b, c, id, luck, a, requeue, err, fed)
      && (c.quiet ==> !err && WentWell(c, luck, a))
    }

    /** A record that has ended is left alone. */
    method Leave(c: Cluster, id: nat, rem: Remediation, luck: Luck) returns (ghost a: Account)
      requires JustRead(c, id, rem, luck) && Terminal(rem.state)
      modifies c
      ensures c.world.spec == rem.spec
      ensures Handled(old(Snapshot(c, id)), rem.version, old(rem.AsVersion()), old(c.world.now), c, id, luck, a, 0, false, false)
    {
      c.Resolve(id, luck.channels);
      a := Account(rem.version, rem.AsVersion(), c.world.now, c.world.now, Lands, Lands);
      WaitPagesNobody(rem.spec, luck, a);
    }

    /** A status write by a worker that has decided: it lands over the version read, or nowhere. */
    method WriteBack(c: Cluster, id: nat, rem: Remediation, ghost r: Version, ghost next: Status) returns (ok: bool, ghost fate: Fate)
      requires c.Valid() && Ready(c.world, id, rem.version, r, next) && rem.spec == c.world.spec
      requires rem.decision == r.decision && rem.AsStatus() == Stamp(next, c.world.now)
      requires c.quiet ==> !c.world.deleted && rem.version + 1 == |c.world.versions|
      modifies c, rem`version
      ensures c.Valid() && Pc(c.world, id).Idle? && c.Mine(id) == old(c.Mine(id)) + [Write(id, fate)] && (ok <==> fate == Lands)
      ensures c.world.spec == rem.spec && c.world.now == old(c.world).now && old(c.world).versions <= c.world.versions
      ensures ok ==> Last(c.world) == r.(status := rem.AsStatus())
      ensures c.world.log.completions == old(c.world).log.completions +
        (if ok && FeedsGuards(rem.spec, rem.AsStatus()) then [c.world.now] else [])
      ensures c.quiet ==> ok
    {
      ok, fate := c.UpdateStatus(id, rem);
    }

    /** A record found Running gets its verdict: nobody else will give it one. */
    method MarkInterrupted(c: Cluster, id: nat, rem: Remediation, luck: Luck) returns (err: bool, ghost fed: bool, ghost a: Account)
      requires JustRead(c, id, rem, luck) && Decide(c.world.spec, rem.AsVersion(), c.world.now) == Interrupt
      modifies c, rem, history, this`records
      ensures c.world.spec == rem.spec
      ensures Handled(old(Snapshot(c, id)), old(rem.version), old(rem.AsVersion()), old(c.world.now), c, id, luck, a, 0, err, fed)
    {
      ghost var b, v, r, began := Snapshot(c, id), rem.version, rem.AsVersion(), c.world.now;
      c.Resolve(id, luck.channels);
      ghost var next := Resolution(rem.spec, r, Interrupt, luck.channels, began);
      FailRunningSteps(rem);
      c.Pass(id, luck.ended);
      ghost var fate;
      err, fed, fate := FinishRecord(c, id, rem, Failed, Interrupted, r, next);
      a := Account(v, r, began, c.world.now, Lands, fate);
      VerdictIsAccounted(this, b, c, id, next, luck, a, err, fed);
    }

    /** Whatever says it is running is rewritten as failed. */
    method FailRunningSteps(rem: Remediation)
      modifies rem`steps
      ensures rem.steps == FailRunning(old(rem.steps))
    {
      ghost var before := rem.steps;
      var i := 0;
      while i < |rem.steps|
        invariant 0 <= i <= |rem.steps| == |before|
        invariant forall j :: 0 <= j < i ==>
          rem.steps[j] == if before[j].phase == PhaseRunning then before[j].(phase := PhaseFailed) else before[j]
        invariant forall j :: i <= j < |before| ==> rem.steps[j] == before[j]
      {
        if rem.steps[i].phase == PhaseRunning {
          rem.steps := rem.steps[i := rem.steps[i].(phase := PhaseFailed)];
        }
        i := i + 1;
      }
    }

    /** A give-up record: the fallback plan, and then the verdict. */
    method MarkGaveUp(c: Cluster, id: nat, rem: Remediation, luck: Luck) returns (err: bool, ghost fed: bool, ghost a: Account)
      requires JustRead(c, id, rem, luck) && Decide(c.world.spec, rem.AsVersion(), c.world.now) == StopTrying
      modifies c, rem, history, this`records, this`paged
      ensures c.world.spec == rem.spec
      ensures Handled(old(Snapshot(c, id)), old(rem.version), old(rem.AsVersion()), old(c.world.now), c, id, luck, a, 0, err, fed)
    {
      ghost var b, v, r, began := Snapshot(c, id), rem.version, rem.AsVersion(), c.world.now;
      c.Resolve(id, luck.channels);
      ghost var next := Resolution(rem.spec, r, StopTrying, luck.channels, began);
      Page(c, rem, luck);
      c.Pass(id, luck.ended);
      ghost var fate;
      err, fed, fate := FinishRecord(c, id, rem, Failed, GaveUp, r, next);
      a := Account(v, r, began, c.world.now, Lands, fate);
      VerdictIsAccounted(this, b, c, id, next, luck, a, err, fed);
    }

    /** The gate: run, refuse, wait or time out. */
    method AwaitApproval(c: Cluster, id: nat, rem: Remediation, luck: Luck) returns (requeue: Time, err: bool, ghost fed: bool, ghost a: Account)
      requires JustRead(c, id, rem, luck)
      requires !Terminal(rem.state) && rem.state != Running && !rem.spec.gaveUp && rem.spec.mode == Approval
      modifies c, rem, history, this`records, this`paged
      ensures c.world.spec == rem.spec
      ensures Handled(old(Snapshot(c, id)), old(rem.version), old(rem.AsVersion()), old(c.world.now), c, id, luck, a, requeue, err, fed)
    {
      requeue, err, fed := 0, false, false;
      if rem.decision == Approve {
        requeue, err, fed, a := RunAttempt(c, id, rem, luck);
        return;
      }
      if rem.decision == Deny {
        err, fed, a := MarkDenied(c, id, rem, luck);
        return;
      }
      if rem.spec.deadline.None? {
        err, fed, a := TimeOutApproval(c, id, rem, luck);
        return;
      }
      var now, deadline := c.world.now, rem.spec.deadline.value;
      if now < deadline {
        var left := deadline - now;
        requeue, err, a := MarkAwaitingApproval(c, id, rem, luck, left);
        return;
      }
      err, fed, a := TimeOutApproval(c, id, rem, luck);
    }

    /** Ends a record somebody denied; nobody is paged. */
    method MarkDenied(c: Cluster, id: nat, rem: Remediation, luck: Luck) returns (err: bool, ghost fed: bool, ghost a: Account)
      requires JustRead(c, id, rem, luck) && Decide(c.world.spec, rem.AsVersion(), c.world.now) == Refuse
      modifies c, rem, history, this`records
      ensures c.world.spec == rem.spec
      ensures Handled(old(Snapshot(c, id)), old(rem.version), old(rem.AsVersion()), old(c.world.now), c, id, luck, a, 0, err, fed)
    {
      ghost var b, v, r, began := Snapshot(c, id), rem.version, rem.AsVersion(), c.world.now;
      c.Resolve(id, luck.channels);
      ghost var next := Resolution(rem.spec, r, Refuse, luck.channels, began);
      c.Pass(id, luck.ended);
      ghost var fate;
      err, fed, fate := FinishRecord(c, id, rem, Failed, Denied, r, next);
      a := Account(v, r, began, c.world.now, Lands, fate);
      VerdictIsAccounted(this, b, c, id, next, luck, a, err, fed);
    }

    /** Records the wait, unless the record already says the same, and comes back a second after the deadline. */
    method MarkAwaitingApproval(c: Cluster, id: nat, rem: Remediation, luck: Luck, left: Time) returns (requeue: Time, err: bool, ghost a: Account)
      requires JustRead(c, id, rem, luck) && Decide(c.world.spec, rem.AsVersion(), c.world.now) == Wait
      requires rem.spec.deadline.Some? && left == rem.spec.deadline.value - c.world.now
      modifies c, rem
      ensures c.world.spec == rem.spec
      ensures Handled(old(Snapshot(c, id)), old(rem.version), old(rem.AsVersion()), old(c.world.now), c, id, luck, a, requeue, err, false)
    {
      requeue, err := Min(left + 1, 60), false;
      ghost var b, v, r, began := Snapshot(c, id), rem.version, rem.AsVersion(), c.world.now;
      ghost var next := Resolution(rem.spec, r, Wait, luck.channels, began);
      WaitIsWritten(rem.spec, r, luck, began, began, began);
      c.Resolve(id, luck.channels);
      a := Account(v, r, began, began, Lands, Lands);
      var message := Waiting(left);
      if rem.state == AwaitingApproval && rem.message == message {
        SilentWaitIsAccounted(this, b, c, id, next, luck, a);
        return;
      }
      ghost var fate;
      err, fate := RecordWait(c, id, rem, luck.ended, message, r, next);
      a := Account(v, r, began, began, Lands, fate);
      WaitIsAccounted(this, b, c, id, next, luck, a, err);
      if err {
        requeue := 0;
      }
    }

    method RecordWait(c: Cluster, id: nat, rem: Remediation, ended: Time, message: Message, ghost r: Version, ghost next: Status)
      returns (err: bool, ghost fate: Fate)
      requires c.Valid() && Ready(c.world, id, rem.version, r, next) && rem.spec == c.world.spec
      requires rem.AsVersion() == r
      requires next == r.status.(state := AwaitingApproval, reason := NoReason, message := message)
      requires c.quiet ==> !c.world.deleted && rem.version + 1 == |c.world.versions| && c.world.now <= ended
      modifies c, rem
      ensures c.Valid() && Pc(c.world, id).Idle? && c.world.spec == rem.spec && old(c.world).now <= c.world.now
      ensures c.Mine(id) == old(c.Mine(id)) + [Write(id, fate)] && (err <==> fate != Lands) && old(c.world).versions <= c.world.versions
      ensures !err ==> Last(c.world) == r.(status := next)
      ensures c.quiet ==> !err
    {
      c.Pass(id, ended);
      rem.state := AwaitingApproval;
      rem.reason := NoReason;
      rem.message := message;
      var ok;
      ok, fate := WriteBack(c, id, rem, r, next);
      err := !ok;
    }

    /** The deadline has passed without a decision: the fallback plan, and then the verdict. */
    method TimeOutApproval(c: Cluster, id: nat, rem: Remediation, luck: Luck) returns (err: bool, ghost fed: bool, ghost a: Account)
      requires JustRead(c, id, rem, luck) && Decide(c.world.spec, rem.AsVersion(), c.world.now) == Expire
      modifies c, rem, history, this`records, this`paged
      ensures c.world.spec == rem.spec
      ensures Handled(old(Snapshot(c, id)), old(rem.version), old(rem.AsVersion()), old(c.world.now), c, id, luck, a, 0, err, fed)
    {
      ghost var b, v, r, began := Snapshot(c, id), rem.version, rem.AsVersion(), c.world.now;
      c.Resolve(id, luck.channels);
      ghost var next := Resolution(rem.spec, r, Expire, luck.channels, began);
      Page(c, rem, luck);
      c.Pass(id, luck.ended);
      ghost var fate;
      err, fed, fate := FinishRecord(c, id, rem, Failed, ApprovalTimeout, r, next);
      a := Account(v, r, began, c.world.now, Lands, fate);
      VerdictIsAccounted(this, b, c, id, next, luck, a, err, fed);
    }

    /** One attempt: Running is written first, then the plan is run, and what came of it is written last. */
    method RunAttempt(c: Cluster, id: nat, rem: Remediation, luck: Luck) returns (requeue: Time, err: bool, ghost fed: bool, ghost a: Account)
      requires JustRead(c, id, rem, luck) && Decide(c.world.spec, rem.AsVersion(), c.world.now) == Branch.RunAttempt
      modifies c, rem, history, this`records, this`paged
      ensures c.world.spec == rem.spec
      ensures Handled(old(Snapshot(c, id)), old(rem.version), old(rem.AsVersion()), old(c.world.now), c, id, luck, a, requeue, err, fed)
    {
      requeue, err, fed := 0, false, false;
      ghost var b := Snapshot(c, id);
      ghost var v, r, began := rem.version, rem.AsVersion(), c.world.now;
      var ok;
      ghost var start, decided, fate;
      ok, start := BeginAttempt(c, id, rem, luck);
      if !ok {
        err := true;
        a := Account(v, r, began, c.world.now, start, Refused);
        AttemptPages(rem.spec, luck, a);
        return;
      }
      ghost var running := rem.AsVersion();
      var steps, failure := RunSteps(c, id, luck, rem.version);
      c.Pass(id, luck.ended);
      ghost var mid := Snapshot(c, id);
      requeue, err, fed, decided, fate := ConcludeAttempt(c, id, rem, luck, steps, failure);
      a := Account(v, r, began, decided, Lands, fate);
      AttemptIsAccounted(this, b, mid, c, id, running, luck, a, requeue, err, fed);
    }

    /** Running is written, or nothing is done at all. */
    method BeginAttempt(c: Cluster, id: nat, rem: Remediation, luck: Luck) returns (ok: bool, ghost fate: Fate)
      requires JustRead(c, id, rem, luck) && Decide(c.world.spec, rem.AsVersion(), c.world.now) == Branch.RunAttempt
      modifies c, rem
      ensures c.Valid() && c.Mine(id) == old(c.Mine(id)) + [Start(id, fate)] && (ok <==> fate == Lands)
      ensures c.world.spec == rem.spec && c.world.deleted == old(c.world).deleted
      ensures c.world.now == old(c.world).now && old(c.world).versions <= c.world.versions
      ensures !ok ==> Pc(c.world, id).Idle? && !c.quiet
      ensures ok ==>
        && rem.AsVersion() == old(rem.AsVersion()).(status := Begin(old(rem.AsStatus()), c.world.now))
        && rem.version + 1 == |c.world.versions| && rem.AsVersion() == c.world.versions[rem.version]
        && Pc(c.world, id) == Executing(rem.version, NOTHING_RUN)
    {
      var attempt := rem.attempt + 1;
      var started := c.world.now;
      rem.state := Running;
      rem.attempt := attempt;
      rem.steps := [];
      if rem.startedAt.None? {
        rem.startedAt := Some(started);
      }
      ok, fate := c.UpdateStatus(id, rem);
    }

    /** The worker has run its plan over the Running version its working copy holds, and this came of it. */
    ghost predicate HasRun(c: Cluster, id: nat, rem: Remediation, luck: Luck, steps: seq<StepStatus>, failure: Option<Reason>)
      reads c, rem, history
    {
      && c.Valid() && history.Valid() && rem.spec == c.world.spec && rem.name == c.name && Fits(c.world.spec, luck)
      && rem.version < |c.world.versions| && rem.AsVersion() == c.world.versions[rem.version]
      && (c.quiet ==> !c.world.deleted && rem.version + 1 == |c.world.versions| && c.world.now == luck.ended)
      && var p := RunPlan(rem.spec.dryRun, rem.spec.steps, luck.steps);
         && Pc(c.world, id) == Executing(rem.version, p) && |p.steps| == |rem.spec.steps|
         && steps == p.steps && failure == p.failure
    }

    /** How an attempt ends, from the version that says Running. */
    ghost predicate ConcludesTo(b: Before, c: Cluster, id: nat, running: Version, luck: Luck, decided: Time, fate: Fate, requeue: Time, err: bool, fed: bool)
      requires Fits(c.world.spec, luck)
      reads c, this, history
    {
      var after := Concluded(c.world.spec, running, luck, decided, c.world.now);
      && c.Valid() && Pc(c.world, id).Idle? && decided <= c.world.now
      && c.Mine(id) == b.mine + [Conclude(id, luck.channels)] + [Write(id, fate)]
      && (err <==> fate != Lands) && (!err ==> Last(c.world) == after)
      && requeue == (if !err && after.status.state == Pending then WaitBefore(running.status.attempt + 1) else 0)
      && Followed(b, c, c.world.spec, after.status, c.world.now, !err, fed)
      && paged == b.paged + (if PagesAtTheEnd(c.world.spec, running.status, luck) then [PageCalls(c.world.spec, luck)] else [])
      && (c.quiet ==> !err && decided == c.world.now == luck.ended)
    }

    /** What follows a run: the verdict, another attempt later, or the fallback plan and then the verdict. */
    method ConcludeAttempt(c: Cluster, id: nat, rem: Remediation, luck: Luck, steps: seq<StepStatus>, failure: Option<Reason>)
      returns (requeue: Time, err: bool, ghost fed: bool, ghost decided: Time, ghost fate: Fate)
      requires HasRun(c, id, rem, luck, steps, failure)
      modifies c, rem, history, this`records, this`paged
      ensures c.world.spec == rem.spec && old(c.world).versions <= c.world.versions && decided >= old(c.world).now
      ensures ConcludesTo(old(Snapshot(c, id)), c, id, old(rem.AsVersion()), luck, decided, fate, requeue, err, fed)
    {
      requeue, err, fed := 0, false, false;
      if failure.None? {
        err, fed, decided, fate := Succeed(c, id, rem, luck, steps);
      } else if rem.attempt <= rem.spec.retries {
        requeue, err, decided, fate := RetryLater(c, id, rem, luck, steps, failure.value);
      } else {
        err, fed, decided, fate := FailForGood(c, id, rem, luck, steps, failure.value);
      }
    }

    method Succeed(c: Cluster, id: nat, rem: Remediation, luck: Luck, steps: seq<StepStatus>)
      returns (err: bool, ghost fed: bool, ghost decided: Time, ghost fate: Fate)
      requires HasRun(c, id, rem, luck, steps, None)
      modifies c, rem, history, this`records
      ensures c.world.spec == rem.spec && old(c.world).versions <= c.world.versions && decided >= old(c.world).now
      ensures ConcludesTo(old(Snapshot(c, id)), c, id, old(rem.AsVersion()), luck, decided, fate, 0, err, fed)
    {
      PagesAtTheEndIff(rem.spec, rem.AsStatus(), luck);
      ghost var running := rem.AsVersion();
      c.Conclude(id, luck.channels);
      decided := c.world.now;
      ghost var next := Pc(c.world, id).next;
      rem.steps := steps;
      err, fed, fate := FinishRecord(c, id, rem, TerminalState(rem.spec.dryRun, false), NoReason, running, next);
    }

    /** No attempt is left: the fallback plan is run, and the verdict that follows carries its outcome. */
    method FailForGood(c: Cluster, id: nat, rem: Remediation, luck: Luck, steps: seq<StepStatus>, why: Reason)
      returns (err: bool, ghost fed: bool, ghost decided: Time, ghost fate: Fate)
      requires HasRun(c, id, rem, luck, steps, Some(why)) && rem.attempt > rem.spec.retries
      modifies c, rem, history, this`records, this`paged
      ensures c.world.spec == rem.spec && old(c.world).versions <= c.world.versions && decided >= old(c.world).now
      ensures ConcludesTo(old(Snapshot(c, id)), c, id, old(rem.AsVersion()), luck, decided, fate, 0, err, fed)
    {
      PagesAtTheEndIff(rem.spec, rem.AsStatus(), luck);
      ghost var running := rem.AsVersion();
      rem.steps := steps;
      Page(c, rem, luck);
      c.Conclude(id, luck.channels);
      decided := c.world.now;
      ghost var next := Pc(c.world, id).next;
      assert next == Finish(rem.AsStatus(), Failed, why, rem.escalation);
      c.Others(id);
      err, fed, fate := FinishRecord(c, id, rem, Failed, why, running, next);
    }

    method RetryLater(c: Cluster, id: nat, rem: Remediation, luck: Luck, steps: seq<StepStatus>, why: Reason)
      returns (requeue: Time, err: bool, ghost decided: Time, ghost fate: Fate)
      requires HasRun(c, id, rem, luck, steps, Some(why)) && rem.attempt <= rem.spec.retries
      modifies c, rem
      ensures c.world.spec == rem.spec && old(c.world).versions <= c.world.versions && decided >= old(c.world).now
      ensures ConcludesTo(old(Snapshot(c, id)), c, id, old(rem.AsVersion()), luck, decided, fate, requeue, err, false)
    {
      PagesAtTheEndIff(rem.spec, rem.AsStatus(), luck);
      requeue, err := 0, false;
      var wait := Backoff.Backoff(rem.attempt + 1);
      c.Conclude(id, luck.channels);
      decided := c.world.now;
      err, fate := RecordFailedAttempt(c, id, rem, steps, why, rem.AsVersion(), Pc(c.world, id).next);
      if !err {
        requeue := wait;
      }
    }

    method RecordFailedAttempt(c: Cluster, id: nat, rem: Remediation, steps: seq<StepStatus>, why: Reason, ghost r: Version, ghost next: Status)
      returns (err: bool, ghost fate: Fate)
      requires c.Valid() && Ready(c.world, id, rem.version, r, next) && rem.spec == c.world.spec
      requires rem.AsVersion() == r
      requires next == r.status.(state := Pending, steps := steps, reason := why, message := Explains(why))
      requires c.quiet ==> !c.world.deleted && rem.version + 1 == |c.world.versions|
      modifies c, rem
      ensures c.Valid() && Pc(c.world, id).Idle? && c.world.spec == rem.spec && c.world.now == old(c.world).now
      ensures c.Mine(id) == old(c.Mine(id)) + [Write(id, fate)] && (err <==> fate != Lands) && old(c.world).versions <= c.world.versions
      ensures !err ==> Last(c.world) == r.(status := next)
      ensures c.quiet ==> !err
    {
      rem.steps := steps;
      rem.state := Pending;
      rem.reason := why;
      rem.message := Explains(why);
      var ok;
      ok, fate := WriteBack(c, id, rem, r, next);
      err := !ok;
    }

    /** The runner's loop over the steps of one attempt, with everybody else's moves in between. */
    method RunSteps(c: Cluster, id: nat, luck: Luck, v: nat) returns (steps: seq<StepStatus>, failure: Option<Reason>)
      requires c.Valid() && Fits(c.world.spec, luck) && Pc(c.world, id) == Executing(v, NOTHING_RUN)
      modifies c
      ensures c.Valid() && c.Mine(id) == old(c.Mine(id)) + StepActions(id, luck.steps) && c.world.spec == old(c.world).spec
      ensures var p := RunPlan(c.world.spec.dryRun, c.world.spec.steps, luck.steps);
        Pc(c.world, id) == Executing(v, p) && |p.steps| == |c.world.spec.steps| && steps == p.steps && failure == p.failure
      ensures old(c.world).versions <= c.world.versions && old(c.world).now <= c.world.now
      ensures c.quiet ==> SameStore(old(c.world), c.world)
    {
      ghost var spec := c.world.spec;
      RunShape(spec.dryRun, spec.steps, luck.steps);
      var plan, i := c.world.spec.steps, 0;
      var runner := new StepRunner(c.world.spec.dryRun);
      steps, failure := [], None;
      ghost var p := NOTHING_RUN;
      while i < |plan|
        invariant c.Valid() && c.world.spec == spec == old(c.world).spec && plan == spec.steps && runner.dryRun == spec.dryRun
        invariant 0 <= i <= |plan| && |p.steps| == i && Pc(c.world, id) == Executing(v, p) && steps == p.steps && failure == p.failure
        invariant RunFrom(spec.dryRun, plan, p, luck.steps[i..]) == RunPlan(spec.dryRun, plan, luck.steps)
        invariant c.Mine(id) + StepActions(id, luck.steps[i..]) == old(c.Mine(id)) + StepActions(id, luck.steps)
        invariant old(c.world).versions <= c.world.versions && old(c.world).now <= c.world.now
        invariant c.quiet ==> SameStore(old(c.world), c.world)
      {
        c.Others(id);
        ghost var mine, rest := c.Mine(id), StepActions(id, luck.steps[i + 1..]);
        steps, failure := runner.RunNext(plan, steps, failure, luck.steps[i]);
        c.StepOnce(id, luck.steps[i]);
        p := Advance(spec.dryRun, plan, p, luck.steps[i]);
        assert luck.steps[i..][0] == luck.steps[i] && luck.steps[i..][1..] == luck.steps[i + 1..];
        Associates(mine, [RunStep(id, luck.steps[i])], rest);
        i := i + 1;
      }
    }

    /** escalate: the fallback plan is run, if there is one, and its outcome is kept for the verdict. */
    method Page(c: Cluster, rem: Remediation, luck: Luck)
      requires Covers(rem.spec, luck.channels)
      modifies rem`escalation, this`paged
      ensures rem.escalation == Lifecycle.Page(rem.spec, luck.channels, c.world.now)
      ensures paged == old(paged) + (if rem.spec.escalation != [] then [PageCalls(rem.spec, luck)] else [])
    {
      ghost var calls;
      rem.escalation, calls := RunEscalation(rem.spec.escalation, rem.spec.firstSuccess, luck.channels, c.world.now);
      if rem.spec.escalation != [] {
        paged := paged + [calls];
      }
    }

    /** finish: the terminal write, then the guards' history, then the count limit. */
    method FinishRecord(c: Cluster, id: nat, rem: Remediation, state: State, reason: Reason, ghost r: Version, ghost next: Status)
      returns (err: bool, ghost fed: bool, ghost fate: Fate)
      requires c.Valid() && history.Valid() && rem.spec == c.world.spec && rem.name == c.name
      requires Terminal(state) && Ready(c.world, id, rem.version, r, next) && rem.decision == r.decision
      requires next == Finish(rem.AsStatus(), state, reason, rem.escalation)
      requires c.quiet ==> !c.world.deleted && rem.version + 1 == |c.world.versions|
      modifies c, rem, history, this`records
      ensures c.Valid() && Pc(c.world, id).Idle? && c.world.spec == rem.spec && c.world.now == old(c.world).now
      ensures c.Mine(id) == old(c.Mine(id)) + [Write(id, fate)] && (err <==> fate != Lands) && old(c.world).versions <= c.world.versions
      ensures !err ==> Last(c.world) == r.(status := Stamp(next, c.world.now))
      ensures Followed(old(Snapshot(c, id)), c, rem.spec, next, c.world.now, !err, fed)
      ensures c.world.log.completions == old(c.world).log.completions + (if fed then [c.world.now] else [])
      ensures c.quiet ==> !err
    {
      fed, err := false, false;
      var completed := c.world.now;
      rem.state := state;
      rem.reason := reason;
      rem.message := if reason == NoReason then NoMessage else Explains(reason);
      rem.completedAt := Some(completed);
      assert rem.AsStatus() == Stamp(next, c.world.now);
      var ok;
      ok, fate := WriteBack(c, id, rem, r, next);
      if !ok {
        err := true;
        return;
      }
      fed := Feed(rem.spec, reason, completed);
      Prune(c, rem.spec.strategy);
    }

    /** Every verdict on a target feeds the guards, unless it only says that nothing more is tried. */
    method Feed(spec: Spec, reason: Reason, completed: Time) returns (ghost fed: bool)
      requires history.Valid()
      modifies history
      ensures history.Valid() && history.starts == old(history.starts)
      ensures fed <==> spec.target != "" && reason != GaveUp
      ensures Fed(old(history.completions), history.completions, Key(spec.strategy, spec.target), completed, fed)
    {
      fed := false;
      if spec.target != "" {
        if reason != GaveUp {
          history.RecordCompletion(spec.strategy, spec.target, completed);
          fed := true;
        }
      }
    }

    /** Pruning is housekeeping: neither a failed list nor a refused delete makes the reconcile fail. */
    method Prune(c: Cluster, strategy: string)
      modifies this`records
      ensures Trimmed(old(records), records, strategy, c)
    {
      if c.grants.None? {
        return;
      }
      var err;
      records, err := Pruner.Prune(records, strategy, c.name, historyLimit, c.grants.value);
    }
  }

  // ---- The accounts -----------------------------------------------------------------------------

  /** A wait that is written. */
  lemma WaitIsAccounted(engine: RemediationReconciler, b: Before, c: Cluster, id: nat, next: Status, luck: Luck, a: Account, err: bool)
    requires c.Valid() && engine.history.Valid() && Fits(c.world.spec, luck) && Decide(c.world.spec, a.r, a.began) == Wait
    requires next == Resolution(c.world.spec, a.r, Wait, luck.channels, a.began) && !NothingToWrite(a.r, Wait, next)
    requires a.began <= a.decided <= c.world.now && Pc(c.world, id).Idle? && a.start == Lands
    requires b.history == engine.history.View() && b.records == engine.records && b.paged == engine.paged
    requires c.Mine(id) == b.mine + [Resolve(id, luck.channels)] + [Write(id, a.write)]
    requires (err <==> a.write != Lands) && (!err ==> Last(c.world) == a.r.(status := next))
    ensures engine.Accounted(b, c, id, luck, a, if err then 0 else Min(c.world.spec.deadline.value - a.began + 1, 60), err, false)
    ensures !err && a.began == luck.now ==> engine.WentWell(c, luck, a)
  {
    var spec := c.world.spec;
    WaitIsWritten(spec, a.r, luck, a.began, a.decided, c.world.now);
    if a.began == luck.now { WaitIsWritten(spec, a.r, luck, luck.now, luck.ended, luck.ended); }
    VerdictScript(spec, id, luck, a, b.mine);
    WaitPagesNobody(spec, luck, a);
    assert Recorded(spec, luck, a) <==> !err;
  }

  /** A wait the record already says. */
  lemma SilentWaitIsAccounted(engine: RemediationReconciler, b: Before, c: Cluster, id: nat, next: Status, luck: Luck, a: Account)
    requires c.Valid() && engine.history.Valid() && Fits(c.world.spec, luck) && Decide(c.world.spec, a.r, a.began) == Wait
    requires next == Resolution(c.world.spec, a.r, Wait, luck.channels, a.began) && NothingToWrite(a.r, Wait, next)
    requires a.began <= a.decided <= c.world.now && Pc(c.world, id).Idle? && a.start == a.write == Lands
    requires b.history == engine.history.View() && b.records == engine.records && b.paged == engine.paged
    requires c.Mine(id) == b.mine + [Resolve(id, luck.channels)]
    ensures engine.Accounted(b, c, id, luck, a, Min(c.world.spec.deadline.value - a.began + 1, 60), false, false)
    ensures a.began == luck.now && Last(c.world) == a.r ==> engine.WentWell(c, luck, a)
  {
    WaitPagesNobody(c.world.spec, luck, a);
    WaitIsWritten(c.world.spec, a.r, luck, a.began, a.decided, c.world.now);
    if a.began == luck.now { WaitIsWritten(c.world.spec, a.r, luck, luck.now, luck.ended, luck.ended); }
  }

  lemma AttemptIsAccounted(engine: RemediationReconciler, b: Before, mid: Before, c: Cluster, id: nat, running: Version,
                            luck: Luck, a: Account, requeue: Time, err: bool, fed: bool)
    requires c.Valid() && Fits(c.world.spec, luck) && Decide(c.world.spec, a.r, a.began) == Branch.RunAttempt
    requires a.start == Lands && a.began <= a.decided && running == a.r.(status := Begin(a.r.status, a.began))
    requires mid == b.(mine := b.mine + [Start(id, Lands)] + StepActions(id, luck.steps))
    requires engine.ConcludesTo(mid, c, id, running, luck, a.decided, a.write, requeue, err, fed)
    ensures engine.Accounted(b, c, id, luck, a, requeue, err, fed)
    ensures c.quiet && a.began == luck.now ==> !err && engine.WentWell(c, luck, a)
  {
    var spec := c.world.spec;
    var after := Written(spec, a.r, luck, a.began, a.decided, c.world.now);
    AttemptIsWritten(spec, a.r, luck, a.began, a.decided, c.world.now);
    AttemptPages(spec, luck, a);
    AttemptScript(spec, id, luck, a, b.mine);
    if c.quiet && a.began == luck.now { AttemptIsWritten(spec, a.r, luck, luck.now, luck.ended, luck.ended); }
    AttemptIsRecorded(spec, luck, a, err);
    assert engine.Followed(b, c, spec, after.status, c.world.now, !err, fed);
  }

  lemma AttemptIsRecorded(spec: Spec, luck: Luck, a: Account, err: bool)
    requires Fits(spec, luck) && Decide(spec, a.r, a.began) == Branch.RunAttempt && a.start == Lands && (err <==> a.write != Lands)
    ensures !WritesNothing(spec, a.r, luck.(now := a.began)) && (Recorded(spec, luck, a) <==> !err)
  {
  }

  /** The same for a branch that goes straight to a verdict. */
  lemma VerdictIsAccounted(engine: RemediationReconciler, b: Before, c: Cluster, id: nat, next: Status, luck: Luck, a: Account, err: bool, fed: bool)
    requires c.Valid() && Fits(c.world.spec, luck) && Decide(c.world.spec, a.r, a.began) in {Interrupt, StopTrying, Refuse, Expire}
    requires next == Resolution(c.world.spec, a.r, Decide(c.world.spec, a.r, a.began), luck.channels, a.began)
    requires a.began <= a.decided <= c.world.now && Pc(c.world, id).Idle? && a.start == Lands
    requires c.Mine(id) == b.mine + [Resolve(id, luck.channels)] + [Write(id, a.write)]
    requires (err <==> a.write != Lands) && (!err ==> Last(c.world) == a.r.(status := Stamp(next, c.world.now)))
    requires engine.Followed(b, c, c.world.spec, next, c.world.now, !err, fed)
    requires engine.paged == b.paged + (if c.world.spec.escalation != [] && Decide(c.world.spec, a.r, a.began) in {StopTrying, Expire}
                                        then [PageCalls(c.world.spec, luck)] else [])
    ensures engine.Accounted(b, c, id, luck, a, 0, err, fed)
    ensures !err && a.began == luck.now && c.world.now == luck.ended ==> engine.WentWell(c, luck, a)
  {
    var spec := c.world.spec;
    VerdictIsWritten(spec, a.r, luck, a.began, a.decided, c.world.now);
    if a.began == luck.now { VerdictIsWritten(spec, a.r, luck, luck.now, luck.ended, luck.ended); }
    VerdictPages(spec, luck, a);
    VerdictScript(spec, id, luck, a, b.mine);
    assert Recorded(spec, luck, a) <==> !err;
  }
}
