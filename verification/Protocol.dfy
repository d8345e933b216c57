/**
  * The remediation lifecycle as a protocol over one versioned record.
  *
  * Any number of workers read any version the record ever had (a cache may be arbitrarily stale),
  * run the plan one step at a time and write statuses by compare-and-swap on the version they read.
  * A write may land, land with its reply lost, or be refused; a worker may crash between any two
  * steps; people may patch the approval decision and anybody may delete the record at any time. A patch
  * here is any edit that changes the record, so it always makes a new version.
  */
module Protocol {
  import opened Common
  import opened Records
  import opened Steps
  import opened Lifecycle

  datatype Worker =
    | Idle
    | Fetched(v: nat)                                     // has read version v
    | Executing(v: nat, progress: Progress)               // its Running write became version v
    | Deciding(v: nat, next: Status, paged: bool)         // about to write over version v

  /** What the ghost observer of one record has seen happen. */
  datatype Log = Log(
    started: seq<nat>,              // attempts whose plan was started, in order
    executed: seq<(nat, nat)>,      // (attempt, step) pairs whose Execute was called, in order
    attemptPages: nat,              // fallback plans run because an attempt failed for good
    pages: nat,                     // fallback plans run, on any path
    pagesLanded: nat,               // ... whose verdict landed
    pagesLost: nat,                 // ... whose verdict did not land
    completions: seq<Time>)         // completions fed to the guards

  const NOTHING_SEEN := Log([], [], 0, 0, 0, 0, [])

  datatype World = World(
    spec: Spec,
    versions: seq<Version>,         // every version the store ever held; the last is current
    deleted: bool,
    now: Time,
    workers: map<nat, Worker>,
    log: Log)

  datatype Fate = Lands | ReplyLost | Refused

  datatype Action =
    | Read(id: nat, v: nat)
    | Start(id: nat, fate: Fate)
    | RunStep(id: nat, b: Behaviour)
    | Conclude(id: nat, channels: seq<Behaviour>)
    | Resolve(id: nat, channels: seq<Behaviour>)
    | Write(id: nat, fate: Fate)
    | Crash(id: nat)
    | Patch(decision: Decision)
    | Tick(seconds: nat)
    | Delete

  function Initial(spec: Spec): World {
    World(spec, [Version(Undecided, EMPTY_STATUS)], false, spec.created, map[], NOTHING_SEEN)
  }

  function Pc(w: World, id: nat): Worker {
    if id in w.workers then w.workers[id] else Idle
  }

  function Last(w: World): Version
    requires w.versions != []
  {
    w.versions[|w.versions| - 1]
  }

  /** The compare-and-swap: only a write built on the current version of a live record can land. */
  predicate CanLand(w: World, v: nat) {
    v + 1 == |w.versions| && !w.deleted
  }

  predicate Enabled(w: World, a: Action) {
    match a
    case Read(id, v) => Pc(w, id).Idle? && v < |w.versions|
    case Start(id, fate) =>
      && Pc(w, id).Fetched? && Pc(w, id).v < |w.versions|
      && Decide(w.spec, w.versions[Pc(w, id).v], w.now) == RunAttempt
      && (fate != Refused ==> CanLand(w, Pc(w, id).v))
    case RunStep(id, b) => Pc(w, id).Executing? && |Pc(w, id).progress.steps| < |w.spec.steps|
    case Conclude(id, channels) =>
      && Pc(w, id).Executing? && Pc(w, id).v < |w.versions|
      && |Pc(w, id).progress.steps| == |w.spec.steps| && Covers(w.spec, channels)
    case Resolve(id, channels) =>
      && Pc(w, id).Fetched? && Pc(w, id).v < |w.versions| && Covers(w.spec, channels)
      && Decide(w.spec, w.versions[Pc(w, id).v], w.now) != RunAttempt
    case Write(id, fate) => Pc(w, id).Deciding? && (fate != Refused ==> CanLand(w, Pc(w, id).v))
    case Crash(id) => true
    case Patch(_) => w.versions != [] && !w.deleted
    case Tick(_) => true
    case Delete => true
  }

  function Move(w: World, id: nat, pc: Worker): World {
    w.(workers := w.workers[id := pc])
  }

  function Push(w: World, v: Version): World {
    w.(versions := w.versions + [v])
  }

  /** A worker that stops before its verdict lands loses it. */
  function Lose(log: Log, pc: Worker): Log {
    if pc.Deciding? && pc.paged then log.(pagesLost := log.pagesLost + 1) else log
  }

  function Apply(w: World, a: Action): World
    requires Enabled(w, a)
  {
    match a
    case Read(id, v) => Move(w, id, Fetched(v))
    case Start(id, fate) => ApplyStart(w, id, fate)
    case RunStep(id, b) => ApplyRunStep(w, id, b)
    case Conclude(id, channels) => ApplyConclude(w, id, channels)
    case Resolve(id, channels) => ApplyResolve(w, id, channels)
    case Write(id, fate) => ApplyWrite(w, id, fate)
    case Crash(id) => Move(w, id, Idle).(log := Lose(w.log, Pc(w, id)))
    case Patch(d) => Push(w, Last(w).(decision := d))
    case Tick(s) => w.(now := w.now + s)
    case Delete => w.(deleted := true)
  }

  function ApplyStart(w: World, id: nat, fate: Fate): World
    requires Enabled(w, Start(id, fate))
  {
    var r := w.versions[Pc(w, id).v];
    var running := r.(status := Begin(r.status, w.now));
    match fate
    case Refused => Move(w, id, Idle)
    case ReplyLost => Move(Push(w, running), id, Idle)
    case Lands =>
      Move(Push(w, running), id, Executing(|w.versions|, NOTHING_RUN))
        .(log := w.log.(started := w.log.started + [running.status.attempt]))
  }

  function ApplyRunStep(w: World, id: nat, b: Behaviour): World
    requires Enabled(w, RunStep(id, b))
  {
    var pc := Pc(w, id);
    var p := Advance(w.spec.dryRun, w.spec.steps, pc.progress, b);
    var attempt := if pc.v < |w.versions| then w.versions[pc.v].status.attempt else 0;
    Move(w, id, pc.(progress := p))
      .(log := if Executes(w.spec.dryRun, pc.progress, b)
               then w.log.(executed := w.log.executed + [(attempt, |pc.progress.steps|)])
               else w.log)
  }

  /** Whether one more turn of the plan reaches its step's Execute. */
  predicate Executes(dryRun: bool, p: Progress, b: Behaviour) {
    p.failure.None? && ExecuteCall(|p.steps|) in Calls(dryRun, |p.steps|, b)
  }

  function ApplyConclude(w: World, id: nat, channels: seq<Behaviour>): World
    requires Enabled(w, Conclude(id, channels))
  {
    var pc := Pc(w, id);
    var s := w.versions[pc.v].status;
    var paged := GivesUp(w.spec, s, pc.progress) && w.spec.escalation != [];
    Move(w, id, Deciding(pc.v, Conclusion(w.spec, s, pc.progress, channels, w.now), paged))
      .(log := if paged then w.log.(pages := w.log.pages + 1, attemptPages := w.log.attemptPages + 1) else w.log)
  }

  function ApplyResolve(w: World, id: nat, channels: seq<Behaviour>): World
    requires Enabled(w, Resolve(id, channels))
  {
    var v := Pc(w, id).v;
    var r := w.versions[v];
    var branch := Decide(w.spec, r, w.now);
    if branch == Done then Move(w, id, Idle)
    else
      var next := Resolution(w.spec, r, branch, channels, w.now);
      if NothingToWrite(r, branch, next) then Move(w, id, Idle)
      else
        Move(w, id, Deciding(v, next, Pages(w.spec, branch)))
          .(log := if Pages(w.spec, branch) then w.log.(pages := w.log.pages + 1) else w.log)
  }

  function ApplyWrite(w: World, id: nat, fate: Fate): World
    requires Enabled(w, Write(id, fate))
  {
    var pc := Pc(w, id);
    if fate == Refused then Move(w, id, Idle).(log := Lose(w.log, pc))
    else
      var s := Stamp(pc.next, w.now);
      Move(Push(w, Last(w).(status := s)), id, Idle)
        .(log := w.log.(
            pagesLanded := w.log.pagesLanded + (if pc.paged then 1 else 0),
            completions := w.log.completions + (if fate == Lands && FeedsGuards(w.spec, s) then [w.now] else [])))
  }

  // ---- Runs -----------------------------------------------------------------------------------

  predicate Legal(w: World, run: seq<Action>)
    decreases |run|
  {
    run == [] || (Enabled(w, run[0]) && Legal(Apply(w, run[0]), run[1..]))
  }

  function Run(w: World, run: seq<Action>): World
    requires Legal(w, run)
    decreases |run|
  {
    if run == [] then w else Run(Apply(w, run[0]), run[1..])
  }
}
