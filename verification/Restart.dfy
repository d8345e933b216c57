/**
  * The guards' memory across restarts: live records (internal/engine/sink.go, controller.go) against
  * the replay that replaces them (internal/engine/history.go), with the sweeper running in between.
  */
module Restart {
  import opened Common
  import opened Records
  import opened Guards
  import opened Replay
  import opened Retention
  import opened Deletions
  import Lifecycle
  import Protocol
  import ProtocolInvariant
  import Sink
  import Sweeper
  import Pruner

  /** The records in the cluster, the index of the process that is alive, and the clock. */
  datatype System = System(records: seq<Stored>, live: History, now: Time)

  /** How far back every sweep's floor lies at least, and how far back the index remembers. */
  datatype Depths = Depths(floor: Time, retention: Time)

  datatype Event =
    | Create(r: Stored, recorded: bool)              // a new record; its start may be lost to a crash
    | Update(i: nat, status: Status, fed: bool)      // a status write; a verdict's reply may be lost
    | Sweep(gone: set<string>)
    | Delete(gone: set<string>)                      // the count limit, or a person
    | Forget(after: History)                         // the index is pruned
    | Restart(loaded: History)                       // the process dies and another one replays
    | Tick(seconds: nat)

  /** What one status write does to a record, as far as the guards can tell. */
  predicate RecordStep(spec: Spec, before: Status, after: Status, now: Time) {
    && !Terminal(before.state)
    && (before.startedAt.Some? ==> after.startedAt == before.startedAt)
    && (after.startedAt.Some? ==> spec.created <= after.startedAt.value <= now)
    && (if Terminal(after.state) then after.completedAt == Some(now) else after.completedAt.None?)
    && (Terminal(after.state) ==> (after.reason == GaveUp <==> spec.gaveUp))
  }

  ghost predicate Enabled(d: Depths, x: System, e: Event) {
    match e
    case Create(r, recorded) => r.spec.created == x.now && r.status == EMPTY_STATUS && (recorded ==> !r.spec.gaveUp)
    case Update(i, status, fed) =>
      && i < |x.records| && RecordStep(x.records[i].spec, x.records[i].status, status, x.now)
      && (fed ==> Lifecycle.FeedsGuards(x.records[i].spec, status))
    case Sweep(gone) => forall i :: 0 <= i < |x.records| && x.records[i].name in gone ==> Deletable(x.records[i], x.now - d.floor)
    case Delete(gone) => AllOut(x.records, gone, x.now, d.floor)
    case Forget(after) => MH.PrunedHistory(x.live, after, x.now - d.retention)
    case Restart(loaded) => Loaded(loaded, x.records, x.now - d.retention)
    case Tick(_) => true
  }

  function AddStart(h: History, s: string, t: Time): History {
    h.(starts := h.starts[s := Of(h.starts, s) + [t]])
  }

  function AddCompletion(h: History, k: Key, t: Time): History {
    h.(completions := h.completions[k := Of(h.completions, k) + [t]])
  }

  ghost function Apply(d: Depths, x: System, e: Event): System
    requires Enabled(d, x, e)
  {
    match e
    case Create(r, recorded) =>
      x.(records := x.records + [r], live := if recorded then AddStart(x.live, r.spec.strategy, x.now) else x.live)
    case Update(i, status, fed) =>
      var r := x.records[i].(status := status);
      x.(records := x.records[i := r], live := if fed then AddCompletion(x.live, KeyOf(r), x.now) else x.live)
    case Sweep(gone) => x.(records := Surviving(x.records, gone))
    case Delete(gone) => x.(records := Surviving(x.records, gone))
    case Forget(after) => x.(live := after)
    case Restart(loaded) => x.(live := loaded)
    case Tick(s) => x.(now := x.now + s)
  }

  ghost predicate Legal(d: Depths, x: System, run: seq<Event>)
    decreases |run|
  {
    run == [] || (Enabled(d, x, run[0]) && Legal(d, Apply(d, x, run[0]), run[1..]))
  }

  ghost function Run(d: Depths, x: System, run: seq<Event>): System
    requires Legal(d, x, run)
    decreases |run|
  {
    if run == [] then x else Run(d, Apply(d, x, run[0]), run[1..])
  }

  function Empty(now: Time): System {
    System([], NO_HISTORY, now)
  }

  /** A verdict that lands is heard of by the process that wrote it: its reply was not lost. */
  predicate Heard(x: System, e: Event) {
    e.Update? && e.i < |x.records| ==> (e.fed <==> Lifecycle.FeedsGuards(x.records[e.i].spec, e.status))
  }

  ghost predicate EveryVerdictHeard(d: Depths, x: System, run: seq<Event>)
    requires Legal(d, x, run)
    decreases |run|
  {
    run == [] || (Heard(x, run[0]) && EveryVerdictHeard(d, Apply(d, x, run[0]), run[1..]))
  }

  // ---- What every event keeps -----------------------------------------------------------------

  predicate RecordOk(r: Stored, now: Time) {
    && r.spec.created <= now
    && (r.status.startedAt.Some? ==> r.spec.created <= r.status.startedAt.value <= now)
    && (if Terminal(r.status.state) then r.status.completedAt.Some? && StartedAt(r) <= r.status.completedAt.value <= now
        else r.status.completedAt.None?)
    && (Terminal(r.status.state) ==> (r.status.reason == GaveUp <==> r.spec.gaveUp))
  }

  ghost predicate RecordsOk(rs: seq<Stored>, now: Time) {
    forall i :: 0 <= i < |rs| ==> RecordOk(rs[i], now)
  }

  /** From a cut onwards, one list of instants counts no more entries than another, at any point. */
  ghost predicate CountsAtMost(a: seq<Time>, b: seq<Time>, cut: Time) {
    forall since: Time :: since >= cut ==> AtMost(a, b, since)
  }

  predicate AtMost(a: seq<Time>, b: seq<Time>, since: Time) {
    CountSince(a, since) <= CountSince(b, since)
  }

  ghost predicate StartsBehind(h: History, rs: seq<Stored>, cut: Time, s: string) {
    CountsAtMost(Of(h.starts, s), StartsOf(rs, s), cut)
  }

  ghost predicate CompletionsBehind(h: History, rs: seq<Stored>, cut: Time, k: Key) {
    CountsAtMost(Of(h.completions, k), CompletionsOf(rs, k), cut)
  }

  ghost predicate CompletionsAhead(h: History, rs: seq<Stored>, cut: Time, k: Key) {
    CountsAtMost(CompletionsOf(rs, k), Of(h.completions, k), cut)
  }

  /** The index never counts more starts, or more completions, than a replay of the records would. */
  ghost predicate NoStartMissing(h: History, rs: seq<Stored>, cut: Time) {
    forall s: string :: StartsBehind(h, rs, cut, s)
  }

  ghost predicate NoCompletionMissing(h: History, rs: seq<Stored>, cut: Time) {
    forall k: Key :: CompletionsBehind(h, rs, cut, k)
  }

  /** ... and never fewer completions. */
  ghost predicate Level(h: History, rs: seq<Stored>, cut: Time) {
    forall k: Key :: CompletionsAhead(h, rs, cut, k)
  }

  /** As far back as any guard looks whose windows fit the depths. */
  ghost predicate Behind(d: Depths, x: System) {
    && (RATE_WINDOW < d.floor ==> NoStartMissing(x.live, x.records, HourCut(x.now)))
    && NoCompletionMissing(x.live, x.records, FloorCut(d, x.now))
  }

  function HourCut(now: Time): Time {
    now - RATE_WINDOW
  }

  function FloorCut(d: Depths, now: Time): Time {
    now - d.floor + 1
  }

  function BothCuts(d: Depths, now: Time): Time {
    Max(now - d.floor + 1, now - d.retention)
  }

  // ---- Counting replays -----------------------------------------------------------------------

  lemma CountAppend(a: seq<Time>, b: seq<Time>, since: Time)
    ensures CountSince(a + b, since) == CountSince(a, since) + CountSince(b, since)
  {
    RecentAppend(a, b, since);
  }

  lemma CountOne(t: Time, since: Time)
    ensures CountSince([t], since) == if t >= since then 1 else 0
  {
    assert [t][1..] == [] && Recent([t][1..], since) == [];
  }

  lemma {:induction false} StartsOfAppend(a: seq<Stored>, b: seq<Stored>, s: string)
    ensures StartsOf(a + b, s) == StartsOf(a, s) + StartsOf(b, s)
  {
    if a == [] {
      assert a + b == b;
    } else {
      var x, y, z := StartOf(a[0], s), StartsOf(a[1..], s), StartsOf(b, s);
      StartsOfAppend(a[1..], b, s);
      Associates(x, y, z);
      assert (a + b)[0] == a[0] && (a + b)[1..] == a[1..] + b;
      assert StartsOf(a + b, s) == x + (y + z);
    }
  }

  lemma {:induction false} CompletionsOfAppend(a: seq<Stored>, b: seq<Stored>, k: Key)
    ensures CompletionsOf(a + b, k) == CompletionsOf(a, k) + CompletionsOf(b, k)
  {
    if a == [] {
      assert a + b == b;
    } else {
      var x, y, z := CompletionOf(a[0], k), CompletionsOf(a[1..], k), CompletionsOf(b, k);
      CompletionsOfAppend(a[1..], b, k);
      Associates(x, y, z);
      assert (a + b)[0] == a[0] && (a + b)[1..] == a[1..] + b;
      assert CompletionsOf(a + b, k) == x + (y + z);
    }
  }

  lemma ReplayAppend(a: seq<Stored>, b: seq<Stored>, s: string, k: Key)
    ensures StartsOf(a + b, s) == StartsOf(a, s) + StartsOf(b, s)
    ensures CompletionsOf(a + b, k) == CompletionsOf(a, k) + CompletionsOf(b, k)
  {
    StartsOfAppend(a, b, s);
    CompletionsOfAppend(a, b, k);
  }

  lemma ReplayOne(r: Stored, s: string, k: Key)
    ensures StartsOf([r], s) == StartOf(r, s)
    ensures CompletionsOf([r], k) == CompletionOf(r, k)
  {
    assert [r][1..] == [];
  }

  /** How a replay's counts change when one record does. */
  lemma ReplayUpdate(rs: seq<Stored>, i: nat, r: Stored, s: string, k: Key, since: Time)
    requires i < |rs|
    ensures CountSince(StartsOf(rs[i := r], s), since) ==
      CountSince(StartsOf(rs, s), since) - CountSince(StartsOf([rs[i]], s), since) + CountSince(StartsOf([r], s), since)
    ensures CountSince(CompletionsOf(rs[i := r], k), since) ==
      CountSince(CompletionsOf(rs, k), since) - CountSince(CompletionsOf([rs[i]], k), since) + CountSince(CompletionsOf([r], k), since)
  {
    SplitCounts(rs, i, s, k, since);
    SplitCounts(rs[i := r], i, s, k, since);
    assert rs[i := r][..i] == rs[..i] && rs[i := r][i + 1..] == rs[i + 1..];
  }

  lemma SplitCounts(rs: seq<Stored>, i: nat, s: string, k: Key, since: Time)
    requires i < |rs|
    ensures CountSince(StartsOf(rs, s), since) == CountSince(StartsOf(rs[..i], s), since)
      + CountSince(StartsOf([rs[i]], s), since) + CountSince(StartsOf(rs[i + 1..], s), since)
    ensures CountSince(CompletionsOf(rs, k), since) == CountSince(CompletionsOf(rs[..i], k), since)
      + CountSince(CompletionsOf([rs[i]], k), since) + CountSince(CompletionsOf(rs[i + 1..], k), since)
  {
    assert rs == rs[..i] + ([rs[i]] + rs[i + 1..]);
    ReplayAppend(rs[..i], [rs[i]] + rs[i + 1..], s, k);
    ReplayAppend([rs[i]], rs[i + 1..], s, k);
    CountAppend(StartsOf(rs[..i], s), StartsOf([rs[i]], s) + StartsOf(rs[i + 1..], s), since);
    CountAppend(StartsOf([rs[i]], s), StartsOf(rs[i + 1..], s), since);
    CountAppend(CompletionsOf(rs[..i], k), CompletionsOf([rs[i]], k) + CompletionsOf(rs[i + 1..], k), since);
    CountAppend(CompletionsOf([rs[i]], k), CompletionsOf(rs[i + 1..], k), since);
  }

  // ---- Each event -----------------------------------------------------------------------------

  lemma CreateKeepsStarts(h: History, rs: seq<Stored>, cut: Time, r: Stored, recorded: bool, now: Time)
    requires NoStartMissing(h, rs, cut) && r.spec.created == now && r.status == EMPTY_STATUS && (recorded ==> !r.spec.gaveUp)
    ensures NoStartMissing(if recorded then AddStart(h, r.spec.strategy, now) else h, rs + [r], cut)
  {
    var x := if recorded then AddStart(h, r.spec.strategy, now) else h;
    forall s: string ensures StartsBehind(x, rs + [r], cut, s) {
      assert StartsBehind(h, rs, cut, s);
      ReplayAppend(rs, [r], s, KeyOf(r));
      ReplayOne(r, s, KeyOf(r));
      forall since: Time | since >= cut ensures AtMost(Of(x.starts, s), StartsOf(rs + [r], s), since) {
        assert AtMost(Of(h.starts, s), StartsOf(rs, s), since);
        CountAppend(StartsOf(rs, s), StartsOf([r], s), since);
        CountAppend(Of(h.starts, s), [now], since);
      }
    }
  }

  lemma CreateKeepsCompletions(h: History, rs: seq<Stored>, cut: Time, r: Stored, recorded: bool, now: Time)
    requires r.status == EMPTY_STATUS
    ensures NoCompletionMissing(h, rs, cut) ==> NoCompletionMissing(if recorded then AddStart(h, r.spec.strategy, now) else h, rs + [r], cut)
    ensures Level(h, rs, cut) ==> Level(if recorded then AddStart(h, r.spec.strategy, now) else h, rs + [r], cut)
  {
    var x := if recorded then AddStart(h, r.spec.strategy, now) else h;
    forall k: Key
      ensures CompletionsBehind(h, rs, cut, k) ==> CompletionsBehind(x, rs + [r], cut, k)
      ensures CompletionsAhead(h, rs, cut, k) ==> CompletionsAhead(x, rs + [r], cut, k)
    {
      ReplayAppend(rs, [r], "", k);
      ReplayOne(r, "", k);
      assert CompletionsOf(rs + [r], k) == CompletionsOf(rs, k);
    }
  }

  lemma UpdateCounts(rs: seq<Stored>, i: nat, status: Status, now: Time, s: string, k: Key, since: Time)
    requires i < |rs| && RecordOk(rs[i], now) && RecordStep(rs[i].spec, rs[i].status, status, now)
    ensures var r := rs[i].(status := status);
      && CountSince(StartsOf(rs[i := r], s), since) >= CountSince(StartsOf(rs, s), since)
      && CountSince(CompletionsOf(rs[i := r], k), since) == CountSince(CompletionsOf(rs, k), since)
           + (if Lifecycle.FeedsGuards(r.spec, status) && KeyOf(r) == k && now >= since then 1 else 0)
  {
    var r := rs[i].(status := status);
    ReplayUpdate(rs, i, r, s, k, since);
    ReplayOne(rs[i], s, k);
    ReplayOne(r, s, k);
    CountOne(StartedAt(rs[i]), since);
    CountOne(StartedAt(r), since);
    CountOne(now, since);
  }

  lemma UpdateKeepsStarts(h: History, rs: seq<Stored>, cut: Time, i: nat, status: Status, fed: bool, now: Time)
    requires NoStartMissing(h, rs, cut) && i < |rs| && RecordOk(rs[i], now) && RecordStep(rs[i].spec, rs[i].status, status, now)
    ensures NoStartMissing(if fed then AddCompletion(h, KeyOf(rs[i]), now) else h, rs[i := rs[i].(status := status)], cut)
  {
    var r := rs[i].(status := status);
    var after := rs[i := r];
    var x := if fed then AddCompletion(h, KeyOf(rs[i]), now) else h;
    forall s: string ensures StartsBehind(x, after, cut, s) {
      assert StartsBehind(h, rs, cut, s);
      forall since: Time | since >= cut ensures AtMost(Of(x.starts, s), StartsOf(after, s), since) {
        assert AtMost(Of(h.starts, s), StartsOf(rs, s), since);
        UpdateCounts(rs, i, status, now, s, KeyOf(r), since);
      }
    }
  }

  lemma UpdateKeepsCompletions(h: History, rs: seq<Stored>, cut: Time, i: nat, status: Status, fed: bool, now: Time)
    requires NoCompletionMissing(h, rs, cut) && i < |rs| && RecordOk(rs[i], now) && RecordStep(rs[i].spec, rs[i].status, status, now)
    requires fed ==> Lifecycle.FeedsGuards(rs[i].spec, status)
    ensures NoCompletionMissing(if fed then AddCompletion(h, KeyOf(rs[i]), now) else h, rs[i := rs[i].(status := status)], cut)
  {
    var r := rs[i].(status := status);
    var after := rs[i := r];
    var x := if fed then AddCompletion(h, KeyOf(rs[i]), now) else h;
    forall k: Key ensures CompletionsBehind(x, after, cut, k) {
      assert CompletionsBehind(h, rs, cut, k);
      forall since: Time | since >= cut ensures AtMost(Of(x.completions, k), CompletionsOf(after, k), since) {
        assert AtMost(Of(h.completions, k), CompletionsOf(rs, k), since);
        UpdateCounts(rs, i, status, now, "", k, since);
        CountAppend(Of(h.completions, k), [now], since);
        CountOne(now, since);
      }
    }
  }

  lemma UpdateKeepsLevel(h: History, rs: seq<Stored>, cut: Time, i: nat, status: Status, fed: bool, now: Time)
    requires Level(h, rs, cut) && i < |rs| && RecordOk(rs[i], now) && RecordStep(rs[i].spec, rs[i].status, status, now)
    requires fed <==> Lifecycle.FeedsGuards(rs[i].spec, status)
    ensures Level(if fed then AddCompletion(h, KeyOf(rs[i]), now) else h, rs[i := rs[i].(status := status)], cut)
  {
    var r := rs[i].(status := status);
    var after := rs[i := r];
    var x := if fed then AddCompletion(h, KeyOf(rs[i]), now) else h;
    forall k: Key ensures CompletionsAhead(x, after, cut, k) {
      assert CompletionsAhead(h, rs, cut, k);
      forall since: Time | since >= cut ensures AtMost(CompletionsOf(after, k), Of(x.completions, k), since) {
        assert AtMost(CompletionsOf(rs, k), Of(h.completions, k), since);
        UpdateCounts(rs, i, status, now, "", k, since);
        CountAppend(Of(h.completions, k), [now], since);
        CountOne(now, since);
      }
    }
  }

  /** Two lists that count the same from a cut onwards can stand in for each other. */
  ghost predicate CountsEqual(a: seq<Time>, b: seq<Time>, cut: Time) {
    CountsAtMost(a, b, cut) && CountsAtMost(b, a, cut)
  }

  lemma AtMostTransitive(a: seq<Time>, b: seq<Time>, c: seq<Time>, cut: Time)
    requires CountsAtMost(a, b, cut) && CountsAtMost(b, c, cut)
    ensures CountsAtMost(a, c, cut)
  {
    forall since: Time | since >= cut ensures AtMost(a, c, since) {
      assert AtMost(a, b, since) && AtMost(b, c, since);
    }
  }

  lemma SameRecentCounts(a: seq<Time>, b: seq<Time>, cut: Time)
    requires Recent(a, cut) == Recent(b, cut)
    ensures CountsEqual(a, b, cut)
  {
    forall since: Time | since >= cut ensures AtMost(a, b, since) && AtMost(b, a, since) {
      RecentOfRecent(a, cut, since);
      RecentOfRecent(b, cut, since);
    }
  }

  /** A deletion of records that replay nothing from a cut on. */
  lemma DeletionKeepsStarts(h: History, rs: seq<Stored>, gone: set<string>, cut: Time)
    requires forall i :: 0 <= i < |rs| && rs[i].name in gone ==> NoStartSince(rs[i], cut)
    ensures NoStartMissing(h, rs, cut) ==> NoStartMissing(h, Surviving(rs, gone), cut)
  {
    var left := Surviving(rs, gone);
    forall s: string ensures StartsBehind(h, rs, cut, s) ==> StartsBehind(h, left, cut, s) {
      SurvivorsStarts(rs, gone, cut, s);
      SameRecentCounts(StartsOf(left, s), StartsOf(rs, s), cut);
      if StartsBehind(h, rs, cut, s) { AtMostTransitive(Of(h.starts, s), StartsOf(rs, s), StartsOf(left, s), cut); }
    }
  }

  lemma DeletionKeepsCompletions(h: History, rs: seq<Stored>, gone: set<string>, cut: Time)
    requires forall i :: 0 <= i < |rs| && rs[i].name in gone ==> NoCompletionSince(rs[i], cut)
    ensures NoCompletionMissing(h, rs, cut) ==> NoCompletionMissing(h, Surviving(rs, gone), cut)
    ensures Level(h, rs, cut) ==> Level(h, Surviving(rs, gone), cut)
  {
    var left := Surviving(rs, gone);
    forall k: Key
      ensures CompletionsBehind(h, rs, cut, k) ==> CompletionsBehind(h, left, cut, k)
      ensures CompletionsAhead(h, rs, cut, k) ==> CompletionsAhead(h, left, cut, k)
    {
      SurvivorsCompletions(rs, gone, cut, k);
      SameRecentCounts(CompletionsOf(left, k), CompletionsOf(rs, k), cut);
      if CompletionsBehind(h, rs, cut, k) { AtMostTransitive(Of(h.completions, k), CompletionsOf(rs, k), CompletionsOf(left, k), cut); }
      if CompletionsAhead(h, rs, cut, k) { AtMostTransitive(CompletionsOf(left, k), CompletionsOf(rs, k), Of(h.completions, k), cut); }
    }
  }

  lemma RecentKeepsCounts(s: seq<Time>, cutoff: Time, cut: Time)
    ensures CountsAtMost(Recent(s, cutoff), s, cut)
    ensures cut >= cutoff ==> CountsAtMost(s, Recent(s, cutoff), cut)
  {
    forall since: Time | since >= cut
      ensures AtMost(Recent(s, cutoff), s, since)
      ensures cut >= cutoff ==> AtMost(s, Recent(s, cutoff), since)
    {
      RecentCounts(s, cutoff, since);
    }
  }

  lemma ForgetKeeps(h: History, after: History, rs: seq<Stored>, cutoff: Time, cut: Time)
    requires MH.PrunedHistory(h, after, cutoff)
    ensures NoStartMissing(h, rs, cut) ==> NoStartMissing(after, rs, cut)
    ensures NoCompletionMissing(h, rs, cut) ==> NoCompletionMissing(after, rs, cut)
    ensures Level(h, rs, cut) && cut >= cutoff ==> Level(after, rs, cut)
  {
    forall s: string ensures StartsBehind(h, rs, cut, s) ==> StartsBehind(after, rs, cut, s) {
      assert MH.PrunedAt(h.starts, after.starts, cutoff, s);
      RecentKeepsCounts(Of(h.starts, s), cutoff, cut);
      if StartsBehind(h, rs, cut, s) { AtMostTransitive(Of(after.starts, s), Of(h.starts, s), StartsOf(rs, s), cut); }
    }
    forall k: Key
      ensures CompletionsBehind(h, rs, cut, k) ==> CompletionsBehind(after, rs, cut, k)
      ensures CompletionsAhead(h, rs, cut, k) && cut >= cutoff ==> CompletionsAhead(after, rs, cut, k)
    {
      assert MH.PrunedAt(h.completions, after.completions, cutoff, k);
      RecentKeepsCounts(Of(h.completions, k), cutoff, cut);
      if CompletionsBehind(h, rs, cut, k) { AtMostTransitive(Of(after.completions, k), Of(h.completions, k), CompletionsOf(rs, k), cut); }
      if CompletionsAhead(h, rs, cut, k) && cut >= cutoff {
        AtMostTransitive(CompletionsOf(rs, k), Of(h.completions, k), Of(after.completions, k), cut);
      }
    }
  }

  lemma RestartKeeps(h: History, rs: seq<Stored>, cutoff: Time, cut: Time)
    requires Loaded(h, rs, cutoff)
    ensures NoStartMissing(h, rs, cut) && NoCompletionMissing(h, rs, cut)
    ensures cut >= cutoff ==> Level(h, rs, cut)
  {
    forall s: string ensures StartsBehind(h, rs, cut, s) {
      forall since: Time ensures AtMost(Of(h.starts, s), StartsOf(rs, s), since) {
        assert LoadedStarts(h, rs, cutoff, s);
        LoadedStartCounts(h, rs, cutoff, s, since);
      }
    }
    forall k: Key
      ensures CompletionsBehind(h, rs, cut, k)
      ensures cut >= cutoff ==> CompletionsAhead(h, rs, cut, k)
    {
      forall since: Time
        ensures AtMost(Of(h.completions, k), CompletionsOf(rs, k), since)
        ensures since >= cutoff ==> AtMost(CompletionsOf(rs, k), Of(h.completions, k), since)
      {
        assert LoadedCompletions(h, rs, cutoff, k);
        LoadedCompletionCounts(h, rs, cutoff, k, since);
      }
    }
  }

  lemma LaterKeeps(h: History, rs: seq<Stored>, cut: Time, later: Time)
    requires cut <= later
    ensures NoStartMissing(h, rs, cut) ==> NoStartMissing(h, rs, later)
    ensures NoCompletionMissing(h, rs, cut) ==> NoCompletionMissing(h, rs, later)
    ensures Level(h, rs, cut) ==> Level(h, rs, later)
  {
    forall s: string ensures StartsBehind(h, rs, cut, s) ==> StartsBehind(h, rs, later, s) {}
    forall k: Key ensures CompletionsBehind(h, rs, cut, k) ==> CompletionsBehind(h, rs, later, k) {}
    forall k: Key ensures CompletionsAhead(h, rs, cut, k) ==> CompletionsAhead(h, rs, later, k) {}
  }

  lemma {:induction false} SurvivorsAreRecords(rs: seq<Stored>, gone: set<string>, now: Time)
    requires RecordsOk(rs, now)
    ensures RecordsOk(Surviving(rs, gone), now)
  {
    if rs != [] {
      assert RecordsOk(rs[1..], now);
      SurvivorsAreRecords(rs[1..], gone, now);
    }
  }

  /** What the floor lets go is out of every window. */
  lemma DeletableIsOut(d: Depths, x: System, gone: set<string>)
    requires RecordsOk(x.records, x.now) && Enabled(d, x, Event.Sweep(gone))
    ensures AllOut(x.records, gone, x.now, d.floor)
  {
    forall i | 0 <= i < |x.records| && x.records[i].name in gone ensures OutOfEveryWindow(x.records[i], x.now, d.floor) {
      assert RecordOk(x.records[i], x.now);
    }
  }

  lemma EventKeepsRecords(d: Depths, x: System, e: Event)
    requires RecordsOk(x.records, x.now) && Enabled(d, x, e)
    ensures RecordsOk(Apply(d, x, e).records, Apply(d, x, e).now)
  {
    if e.Sweep? || e.Delete? { SurvivorsAreRecords(x.records, e.gone, x.now); }
    if e.Update? { assert RecordOk(x.records[e.i], x.now); }
  }

  lemma EventKeepsBehind(d: Depths, x: System, e: Event)
    requires RecordsOk(x.records, x.now) && Enabled(d, x, e) && Behind(d, x)
    ensures Behind(d, Apply(d, x, e))
  {
    match e {
      case Create(r, recorded) => CreateKeepsBehind(d, x, r, recorded);
      case Update(i, status, fed) => UpdateKeepsBehind(d, x, i, status, fed);
      case Sweep(gone) =>
        DeletableIsOut(d, x, gone);
        DeletionKeepsBehind(d, x, gone);
      case Delete(gone) => DeletionKeepsBehind(d, x, gone);
      case Forget(after) =>
        ForgetKeepsAll(d, x, after, HourCut(x.now));
        ForgetKeepsAll(d, x, after, FloorCut(d, x.now));
      case Restart(loaded) =>
        RestartKeepsAll(d, x, loaded, HourCut(x.now));
        RestartKeepsAll(d, x, loaded, FloorCut(d, x.now));
      case Tick(s) =>
        LaterKeeps(x.live, x.records, HourCut(x.now), HourCut(x.now + s));
        LaterKeeps(x.live, x.records, FloorCut(d, x.now), FloorCut(d, x.now + s));
    }
  }

  lemma CreateKeepsBehind(d: Depths, x: System, r: Stored, recorded: bool)
    requires Enabled(d, x, Create(r, recorded)) && Behind(d, x)
    ensures Behind(d, Apply(d, x, Create(r, recorded)))
  {
    if RATE_WINDOW < d.floor { CreateKeepsStarts(x.live, x.records, HourCut(x.now), r, recorded, x.now); }
    CreateKeepsCompletions(x.live, x.records, FloorCut(d, x.now), r, recorded, x.now);
  }

  lemma UpdateKeepsBehind(d: Depths, x: System, i: nat, status: Status, fed: bool)
    requires RecordsOk(x.records, x.now) && Enabled(d, x, Update(i, status, fed)) && Behind(d, x)
    ensures Behind(d, Apply(d, x, Update(i, status, fed)))
  {
    assert RecordOk(x.records[i], x.now);
    if RATE_WINDOW < d.floor { UpdateKeepsStarts(x.live, x.records, HourCut(x.now), i, status, fed, x.now); }
    UpdateKeepsCompletions(x.live, x.records, FloorCut(d, x.now), i, status, fed, x.now);
  }

  lemma DeletionKeepsBehind(d: Depths, x: System, gone: set<string>)
    requires AllOut(x.records, gone, x.now, d.floor) && Behind(d, x)
    ensures Behind(d, x.(records := Surviving(x.records, gone)))
  {
    OldRecordsReplayNothing(x.records, gone, x.now, d.floor);
    if RATE_WINDOW < d.floor { DeletionKeepsStarts(x.live, x.records, gone, HourCut(x.now)); }
    DeletionKeepsCompletions(x.live, x.records, gone, FloorCut(d, x.now));
  }

  lemma DeletionKeepsLevel(d: Depths, x: System, gone: set<string>)
    requires AllOut(x.records, gone, x.now, d.floor) && Level(x.live, x.records, BothCuts(d, x.now))
    ensures Level(x.live, Surviving(x.records, gone), BothCuts(d, x.now))
  {
    OldRecordsReplayNothing(x.records, gone, x.now, d.floor);
    DeletionKeepsCompletions(x.live, x.records, gone, BothCuts(d, x.now));
  }

  lemma ForgetKeepsAll(d: Depths, x: System, after: History, cut: Time)
    requires Enabled(d, x, Forget(after))
    ensures NoStartMissing(x.live, x.records, cut) ==> NoStartMissing(after, x.records, cut)
    ensures NoCompletionMissing(x.live, x.records, cut) ==> NoCompletionMissing(after, x.records, cut)
    ensures Level(x.live, x.records, cut) && cut >= x.now - d.retention ==> Level(after, x.records, cut)
  {
    ForgetKeeps(x.live, after, x.records, x.now - d.retention, cut);
  }

  lemma RestartKeepsAll(d: Depths, x: System, loaded: History, cut: Time)
    requires Enabled(d, x, Restart(loaded))
    ensures NoStartMissing(loaded, x.records, cut) && NoCompletionMissing(loaded, x.records, cut)
    ensures cut >= x.now - d.retention ==> Level(loaded, x.records, cut)
  {
    RestartKeeps(loaded, x.records, x.now - d.retention, cut);
  }

  lemma EventKeepsLevel(d: Depths, x: System, e: Event)
    requires RecordsOk(x.records, x.now) && Enabled(d, x, e) && Heard(x, e) && Level(x.live, x.records, BothCuts(d, x.now))
    ensures var y := Apply(d, x, e); Level(y.live, y.records, BothCuts(d, y.now))
  {
    var cut := BothCuts(d, x.now);
    match e {
      case Create(r, recorded) => CreateKeepsCompletions(x.live, x.records, cut, r, recorded, x.now);
      case Update(i, status, fed) => UpdateKeepsLevel(x.live, x.records, cut, i, status, fed, x.now);
      case Sweep(gone) =>
        DeletableIsOut(d, x, gone);
        DeletionKeepsLevel(d, x, gone);
      case Delete(gone) => DeletionKeepsLevel(d, x, gone);
      case Forget(after) => ForgetKeepsAll(d, x, after, cut);
      case Restart(loaded) => RestartKeepsAll(d, x, loaded, cut);
      case Tick(s) => LaterKeeps(x.live, x.records, cut, BothCuts(d, x.now + s));
    }
  }

  lemma {:induction false} RunKeepsBehind(d: Depths, x: System, run: seq<Event>)
    requires Legal(d, x, run) && RecordsOk(x.records, x.now) && Behind(d, x)
    ensures var y := Run(d, x, run); RecordsOk(y.records, y.now) && Behind(d, y)
    decreases |run|
  {
    if run != [] {
      EventKeepsRecords(d, x, run[0]);
      EventKeepsBehind(d, x, run[0]);
      RunKeepsBehind(d, Apply(d, x, run[0]), run[1..]);
    }
  }

  lemma {:induction false} RunKeepsLevel(d: Depths, x: System, run: seq<Event>)
    requires Legal(d, x, run) && EveryVerdictHeard(d, x, run)
    requires RecordsOk(x.records, x.now) && Level(x.live, x.records, BothCuts(d, x.now))
    ensures var y := Run(d, x, run); Level(y.live, y.records, BothCuts(d, y.now))
    decreases |run|
  {
    if run != [] {
      EventKeepsRecords(d, x, run[0]);
      EventKeepsLevel(d, x, run[0]);
      RunKeepsLevel(d, Apply(d, x, run[0]), run[1..]);
    }
  }

  lemma EmptyIsLevel(d: Depths, now: Time)
    ensures var x := Empty(now);
      RecordsOk(x.records, now) && Behind(d, x) && Level(x.live, x.records, BothCuts(d, now))
  {
    forall s: string ensures StartsBehind(NO_HISTORY, [], HourCut(now), s) {}
    forall k: Key ensures CompletionsBehind(NO_HISTORY, [], FloorCut(d, now), k) {}
    forall k: Key ensures CompletionsAhead(NO_HISTORY, [], BothCuts(d, now), k) {}
  }

  // ---- The theorems ---------------------------------------------------------------------------

  /**
    * Whatever has happened (creates, writes whose replies were lost, sweeps, deletions of records that
    * are out of every window, prunes of the index, earlier restarts), restarting now never loosens the guards: what the replayed history allows at
    * any later time, the live history it replaces would have allowed too.
    */
  lemma RestartNeverLoosens(d: Depths, began: Time, run: seq<Event>, loaded: History, cfg: Config, k: Key, later: Time)
    requires Legal(d, Empty(began), run) && FitsFloor(cfg, d.floor) && MH.FitsRetention(cfg, d.retention)
    requires var x := Run(d, Empty(began), run); Loaded(loaded, x.records, x.now - d.retention) && x.now <= later
    ensures var x := Run(d, Empty(began), run);
      Evaluate(cfg, loaded, k, later) == Allowed ==> Evaluate(cfg, x.live, k, later) == Allowed
  {
    EmptyIsLevel(d, began);
    RunKeepsBehind(d, Empty(began), run);
    var x := Run(d, Empty(began), run);
    ReplayAllowsNoMore(d, x, loaded, cfg, k, later);
  }

  lemma ReplayAllowsNoMore(d: Depths, x: System, loaded: History, cfg: Config, k: Key, later: Time)
    requires Behind(d, x) && Loaded(loaded, x.records, x.now - d.retention) && x.now <= later
    requires FitsFloor(cfg, d.floor) && MH.FitsRetention(cfg, d.retention)
    ensures Evaluate(cfg, loaded, k, later) == Allowed ==> Evaluate(cfg, x.live, k, later) == Allowed
  {
    var cooling, hour, giving := later - cfg.cooldown + 1, later - RATE_WINDOW, later - cfg.giveUpWithin;
    if cfg.cooldown > 0 { ReplaySeesCompletions(d, x, loaded, k, cooling); }
    if cfg.maxPerHour > 0 { ReplaySeesStarts(d, x, loaded, k.strategy, hour); }
    if cfg.giveUpCount > 0 && cfg.giveUpWithin > 0 { ReplaySeesCompletions(d, x, loaded, k, giving); }
    MoreNeverAllowsMore(cfg, loaded, x.live, k, later);
  }

  lemma ReplaySeesStarts(d: Depths, x: System, loaded: History, s: string, since: Time)
    requires Behind(d, x) && Loaded(loaded, x.records, x.now - d.retention)
    requires RATE_WINDOW < d.floor && since >= HourCut(x.now) && since >= x.now - d.retention
    ensures StartsSince(x.live, s, since) <= StartsSince(loaded, s, since)
  {
    assert StartsBehind(x.live, x.records, HourCut(x.now), s);
    assert AtMost(Of(x.live.starts, s), StartsOf(x.records, s), since);
    var cutoff := x.now - d.retention;
    assert LoadedStarts(loaded, x.records, cutoff, s);
    LoadedStartCounts(loaded, x.records, cutoff, s, since);
  }

  lemma ReplaySeesCompletions(d: Depths, x: System, loaded: History, k: Key, since: Time)
    requires Behind(d, x) && Loaded(loaded, x.records, x.now - d.retention)
    requires since >= BothCuts(d, x.now)
    ensures CompletionsSince(x.live, k, since) <= CompletionsSince(loaded, k, since)
  {
    assert CompletionsBehind(x.live, x.records, FloorCut(d, x.now), k);
    assert AtMost(Of(x.live.completions, k), CompletionsOf(x.records, k), since);
    var cutoff := x.now - d.retention;
    assert LoadedCompletions(loaded, x.records, cutoff, k);
    LoadedCompletionCounts(loaded, x.records, cutoff, k, since);
  }

  /** When no reply was lost, the replayed completions are exactly the live ones, as far as any guard looks. */
  lemma RestartKeepsCompletions(d: Depths, began: Time, run: seq<Event>, loaded: History, k: Key, since: Time)
    requires Legal(d, Empty(began), run) && EveryVerdictHeard(d, Empty(began), run)
    requires var x := Run(d, Empty(began), run);
      Loaded(loaded, x.records, x.now - d.retention) && since >= BothCuts(d, x.now)
    ensures var x := Run(d, Empty(began), run); CompletionsSince(loaded, k, since) == CompletionsSince(x.live, k, since)
  {
    EmptyIsLevel(d, began);
    RunKeepsBehind(d, Empty(began), run);
    RunKeepsLevel(d, Empty(began), run);
    var x := Run(d, Empty(began), run);
    ReplayKeepsCompletions(d, x, loaded, k, since);
  }

  lemma ReplayKeepsCompletions(d: Depths, x: System, loaded: History, k: Key, since: Time)
    requires Behind(d, x) && Level(x.live, x.records, BothCuts(d, x.now))
    requires Loaded(loaded, x.records, x.now - d.retention) && since >= BothCuts(d, x.now)
    ensures CompletionsSince(loaded, k, since) == CompletionsSince(x.live, k, since)
  {
    ReplaySeesCompletions(d, x, loaded, k, since);
    var cut, cutoff := BothCuts(d, x.now), x.now - d.retention;
    assert CompletionsAhead(x.live, x.records, cut, k) && LoadedCompletions(loaded, x.records, cutoff, k);
    ReplayAddsNoCompletions(x.live, x.records, cut, loaded, cutoff, k, since);
  }

  lemma ReplayAddsNoCompletions(live: History, rs: seq<Stored>, cut: Time, loaded: History, cutoff: Time, k: Key, since: Time)
    requires CompletionsAhead(live, rs, cut, k) && LoadedCompletions(loaded, rs, cutoff, k) && since >= cut && since >= cutoff
    ensures CompletionsSince(loaded, k, since) <= CompletionsSince(live, k, since)
  {
    assert AtMost(CompletionsOf(rs, k), Of(live.completions, k), since);
    LoadedCompletionCounts(loaded, rs, cutoff, k, since);
  }

  // ---- Where the events come from ---------------------------------------------------------------

  /** What one alert makes is a Create event, with its start recorded exactly when it may execute. */
  lemma DeliveriesAreEvents(d: Depths, x: System, alert: Sink.Delivery)
    requires alert.now == x.now
    ensures var o := Sink.Decide(alert, x.live, x.records);
      var after := Sink.Deliver(alert, x.live, x.records);
      if |after| == |x.records| then after == x.records && !Sink.RecordsStart(alert, o)
      else
        && after == x.records + [after[|x.records|]]
        && Enabled(d, x, Create(after[|x.records|], Sink.RecordsStart(alert, o)))
  {
  }

  /** What a sweep deletes is a Sweep event, when its floor is as deep as assumed. */
  lemma SweepsAreEvents(d: Depths, x: System, strategies: seq<Config>, policy: Sweeper.Policy, gone: set<string>)
    requires d.floor <= LongestWindow(strategies) + FLOOR_MARGIN
    requires forall r :: r in x.records && r.name in gone ==>
      Sweeper.Candidate(x.records, policy, x.now, x.now - (LongestWindow(strategies) + FLOOR_MARGIN), r)
    ensures Enabled(d, x, Event.Sweep(gone))
  {
    var floor := x.now - (LongestWindow(strategies) + FLOOR_MARGIN);
    forall i | 0 <= i < |x.records| && x.records[i].name in gone ensures Deletable(x.records[i], x.now - d.floor) {
      Sweeper.CandidatesRespectTheFloor(x.records, policy, x.now, floor, x.records[i]);
    }
  }

  /** What the count limit deletes is a Delete event, when the surplus is out of every window. */
  lemma PrunesAreEvents(d: Depths, x: System, strategy: string, keep: string, limit: int, i: nat)
    requires Sweeper.DistinctNames(x.records) && i <= |Pruner.Surplus(x.records, strategy, keep, limit)|
    ensures var deleted := Pruner.Surplus(x.records, strategy, keep, limit)[..i];
      && (Enabled(d, x, Delete(NamesOf(deleted))) <==> forall r :: r in deleted ==> OutOfEveryWindow(r, x.now, d.floor))
      && Surviving(x.records, NamesOf(deleted)) == Pruner.Pruned(x.records, strategy, keep, limit, i)
  {
    var surplus := Pruner.Surplus(x.records, strategy, keep, limit);
    Pruner.SurplusIsListed(x.records, strategy, keep, limit);
    assert forall r :: r in surplus[..i] ==> r in surplus;
    Pruner.OutByName(x.records, surplus[..i], x.now, d.floor);
  }

  // ---- The lifecycle protocol, seen from here ---------------------------------------------------

  /** What one step of the lifecycle protocol is to the guards: nothing, or one Update event. */
  ghost predicate SeenAs(spec: Spec, before: Protocol.World, after: Protocol.World)
    requires before.versions != [] && after.versions != []
  {
    || (&& Protocol.Last(after).status == Protocol.Last(before).status
        && after.log.completions == before.log.completions)
    || (&& RecordStep(spec, Protocol.Last(before).status, Protocol.Last(after).status, before.now)
        && (|| after.log.completions == before.log.completions
            || (&& Lifecycle.FeedsGuards(spec, Protocol.Last(after).status)
                && after.log.completions == before.log.completions + [before.now])))
  }

  /** Every step of every worker, in any interleaving, is one of the events the theorems quantify over. */
  lemma ProtocolStepsAreEvents(w: Protocol.World, a: Protocol.Action)
    requires ProtocolInvariant.Inv(w) && Protocol.Enabled(w, a)
    ensures Protocol.Apply(w, a).versions != [] && SeenAs(w.spec, w, Protocol.Apply(w, a))
  {
    if a.Start? {
      StartIsAnEvent(w, a.id, a.fate);
    } else if a.Write? {
      WriteIsAnEvent(w, a.id, a.fate);
    } else {
      OtherStepsAreSilent(w, a);
    }
  }

  lemma OtherStepsAreSilent(w: Protocol.World, a: Protocol.Action)
    requires w.versions != [] && Protocol.Enabled(w, a) && !a.Start? && !a.Write?
    ensures var x := Protocol.Apply(w, a);
      && x.versions != [] && Protocol.Last(x).status == Protocol.Last(w).status
      && x.log.completions == w.log.completions
  {
  }

  lemma StartIsAnEvent(w: Protocol.World, id: nat, fate: Protocol.Fate)
    requires ProtocolInvariant.Inv(w) && Protocol.Enabled(w, Protocol.Start(id, fate))
    ensures Protocol.ApplyStart(w, id, fate).versions != [] && SeenAs(w.spec, w, Protocol.ApplyStart(w, id, fate))
  {
    var v := Protocol.Pc(w, id).v;
    assert ProtocolInvariant.StatusOk(w.spec, w.versions[v].status, w.now);
    if fate != Protocol.Refused {
      ProtocolInvariant.BeginOk(w.spec, w.versions[v], w.now);
    }
  }

  lemma WriteIsAnEvent(w: Protocol.World, id: nat, fate: Protocol.Fate)
    requires ProtocolInvariant.Inv(w) && Protocol.Enabled(w, Protocol.Write(id, fate))
    ensures Protocol.ApplyWrite(w, id, fate).versions != [] && SeenAs(w.spec, w, Protocol.ApplyWrite(w, id, fate))
  {
    if fate != Protocol.Refused {
      var pc := Protocol.Pc(w, id);
      assert ProtocolInvariant.WorkerOk(w.spec, w.versions, w.log.started, w.now, w.workers[id]);
      assert ProtocolInvariant.NextOk(w.spec, w.versions[pc.v], pc.next, w.now);
      assert w.versions[pc.v] == Protocol.Last(w);
    }
  }
}
