/** Deleting records against replaying them: the guard floor of internal/engine/sweeper.go. */
module Retention {
  import opened Common
  import opened Records
  import opened Guards
  import opened Replay

  const FLOOR_MARGIN: Time := 7200

  /** When a record finished; its creation stands in for a completion time it lacks. */
  function CompletedAt(r: Stored): Time {
    if r.status.completedAt.Some? then r.status.completedAt.value else r.spec.created
  }

  /** What the floor lets go: finished work that completed at or before it. */
  predicate Deletable(r: Stored, floor: Time) {
    Terminal(r.status.state) && CompletedAt(r) <= floor
  }

  function Surviving(rs: seq<Stored>, gone: set<string>): seq<Stored> {
    if rs == [] then []
    else (if rs[0].name in gone then [] else [rs[0]]) + Surviving(rs[1..], gone)
  }

  /** A finished record did not start after it finished. */
  predicate StartsBeforeItEnds(r: Stored) {
    Terminal(r.status.state) ==> StartedAt(r) <= CompletedAt(r)
  }

  /** What every finished record of the lifecycle protocol satisfies, and a deletion that respects the floor. */
  ghost predicate FloorRespected(rs: seq<Stored>, gone: set<string>, floor: Time) {
    forall i :: 0 <= i < |rs| && rs[i].name in gone ==> Deletable(rs[i], floor) && StartsBeforeItEnds(rs[i])
  }

  /** A record whose replay holds no start, or no completion, at or after an instant. */
  predicate NoStartSince(r: Stored, cut: Time) {
    r.spec.gaveUp || StartedAt(r) < cut
  }

  predicate NoCompletionSince(r: Stored, cut: Time) {
    !ReplaysCompletion(r) || r.status.completedAt.value < cut
  }

  lemma {:induction false} SurvivorsStarts(rs: seq<Stored>, gone: set<string>, cut: Time, s: string)
    requires forall i :: 0 <= i < |rs| && rs[i].name in gone ==> NoStartSince(rs[i], cut)
    ensures Recent(StartsOf(Surviving(rs, gone), s), cut) == Recent(StartsOf(rs, s), cut)
  {
    if rs != [] {
      var rest := Surviving(rs[1..], gone);
      SurvivorsStarts(rs[1..], gone, cut, s);
      RecentAppend(StartOf(rs[0], s), StartsOf(rs[1..], s), cut);
      if rs[0].name in gone {
        assert NoStartSince(rs[0], cut) && Recent(StartOf(rs[0], s), cut) == [];
        assert Surviving(rs, gone) == rest;
      } else {
        RecentAppend(StartOf(rs[0], s), StartsOf(rest, s), cut);
        assert Surviving(rs, gone) == [rs[0]] + rest && ([rs[0]] + rest)[1..] == rest;
      }
    }
  }

  lemma {:induction false} SurvivorsCompletions(rs: seq<Stored>, gone: set<string>, cut: Time, k: Key)
    requires forall i :: 0 <= i < |rs| && rs[i].name in gone ==> NoCompletionSince(rs[i], cut)
    ensures Recent(CompletionsOf(Surviving(rs, gone), k), cut) == Recent(CompletionsOf(rs, k), cut)
  {
    if rs != [] {
      var rest := Surviving(rs[1..], gone);
      SurvivorsCompletions(rs[1..], gone, cut, k);
      RecentAppend(CompletionOf(rs[0], k), CompletionsOf(rs[1..], k), cut);
      if rs[0].name in gone {
        assert NoCompletionSince(rs[0], cut) && Recent(CompletionOf(rs[0], k), cut) == [];
        assert Surviving(rs, gone) == rest;
      } else {
        RecentAppend(CompletionOf(rs[0], k), CompletionsOf(rest, k), cut);
        assert Surviving(rs, gone) == [rs[0]] + rest && ([rs[0]] + rest)[1..] == rest;
      }
    }
  }

  /** What the floor lets go replays nothing after it. */
  lemma FloorLetsGoOldReplays(rs: seq<Stored>, gone: set<string>, floor: Time)
    requires FloorRespected(rs, gone, floor)
    ensures forall i :: 0 <= i < |rs| && rs[i].name in gone ==> NoStartSince(rs[i], floor + 1) && NoCompletionSince(rs[i], floor + 1)
  {
  }

  lemma {:induction false} RecentTwice(s: seq<Time>, a: Time, b: Time)
    ensures Recent(Recent(s, a), b) == Recent(s, Max(a, b))
  {
    if s != [] {
      RecentTwice(s[1..], a, b);
      RecentAppend(if s[0] >= a then [s[0]] else [], Recent(s[1..], a), b);
    }
  }

  /** Cutting at two points gives the same whichever comes first. */
  lemma RecentCommutes(s: seq<Time>, a: Time, b: Time)
    ensures Recent(Recent(s, a), b) == Recent(Recent(s, b), a)
  {
    RecentTwice(s, a, b);
    RecentTwice(s, b, a);
  }

  lemma SameRecent(x: seq<Time>, y: seq<Time>, a: seq<Time>, b: seq<Time>, cutoff: Time, cut: Time)
    requires Recent(x, cut) == Recent(y, cut)
    requires SameBag(a, Recent(x, cutoff)) && SameBag(b, Recent(y, cutoff))
    ensures SameBag(Recent(a, cut), Recent(b, cut))
  {
    RecentCommutes(x, cutoff, cut);
    RecentCommutes(y, cutoff, cut);
    assert Recent(Recent(x, cutoff), cut) == Recent(Recent(y, cutoff), cut);
    RecentOfEqualBags(a, Recent(x, cutoff), cut);
    RecentOfEqualBags(b, Recent(y, cutoff), cut);
    forall t: Time ensures AsOften(Recent(a, cut), Recent(b, cut), t) {
      assert AsOften(Recent(a, cut), Recent(Recent(x, cutoff), cut), t) && AsOften(Recent(b, cut), Recent(Recent(y, cutoff), cut), t);
    }
  }

  /** Records that replay nothing from a cut on can go: what is loaded without them is the same from there on. */
  lemma SurvivorsLoadSameStarts(rs: seq<Stored>, gone: set<string>, cut: Time, cutoff: Time, full: History, left: History, s: string)
    requires forall i :: 0 <= i < |rs| && rs[i].name in gone ==> NoStartSince(rs[i], cut)
    requires LoadedStarts(full, rs, cutoff, s) && LoadedStarts(left, Surviving(rs, gone), cutoff, s)
    ensures SameStarts(full, left, cut, s)
  {
    SurvivorsStarts(rs, gone, cut, s);
    SameRecent(StartsOf(rs, s), StartsOf(Surviving(rs, gone), s), Of(full.starts, s), Of(left.starts, s), cutoff, cut);
  }

  lemma SurvivorsLoadSameCompletions(rs: seq<Stored>, gone: set<string>, cut: Time, cutoff: Time, full: History, left: History, k: Key)
    requires forall i :: 0 <= i < |rs| && rs[i].name in gone ==> NoCompletionSince(rs[i], cut)
    requires LoadedCompletions(full, rs, cutoff, k) && LoadedCompletions(left, Surviving(rs, gone), cutoff, k)
    ensures SameCompletions(full, left, cut, k)
  {
    SurvivorsCompletions(rs, gone, cut, k);
    SameRecent(CompletionsOf(rs, k), CompletionsOf(Surviving(rs, gone), k), Of(full.completions, k), Of(left.completions, k), cutoff, cut);
  }

  lemma SurvivorsLoadTheSame(rs: seq<Stored>, gone: set<string>, floor: Time, cutoff: Time, full: History, swept: History)
    requires FloorRespected(rs, gone, floor)
    requires Loaded(full, rs, cutoff) && Loaded(swept, Surviving(rs, gone), cutoff)
    ensures SameSince(full, swept, floor + 1)
  {
    var cut := floor + 1;
    FloorLetsGoOldReplays(rs, gone, floor);
    forall s: string ensures SameStarts(full, swept, cut, s) {
      assert LoadedStarts(full, rs, cutoff, s) && LoadedStarts(swept, Surviving(rs, gone), cutoff, s);
      SurvivorsLoadSameStarts(rs, gone, cut, cutoff, full, swept, s);
    }
    forall k: Key ensures SameCompletions(full, swept, cut, k) {
      assert LoadedCompletions(full, rs, cutoff, k) && LoadedCompletions(swept, Surviving(rs, gone), cutoff, k);
      SurvivorsLoadSameCompletions(rs, gone, cut, cutoff, full, swept, k);
    }
  }

  lemma RecentCounts(s: seq<Time>, cutoff: Time, since: Time)
    ensures CountSince(Recent(s, cutoff), since) <= CountSince(s, since)
    ensures since >= cutoff ==> CountSince(Recent(s, cutoff), since) == CountSince(s, since)
  {
    RecentTwice(s, cutoff, since);
    CountShrinks(s, since, Max(cutoff, since));
  }

  /** A replay counts what the records do, from the retention cutoff onwards, and never more. */
  lemma LoadedStartCounts(h: History, rs: seq<Stored>, cutoff: Time, s: string, since: Time)
    requires LoadedStarts(h, rs, cutoff, s)
    ensures StartsSince(h, s, since) <= CountSince(StartsOf(rs, s), since)
    ensures since >= cutoff ==> StartsSince(h, s, since) == CountSince(StartsOf(rs, s), since)
  {
    RecentOfEqualBags(Of(h.starts, s), Recent(StartsOf(rs, s), cutoff), since);
    RecentCounts(StartsOf(rs, s), cutoff, since);
  }

  lemma LoadedCompletionCounts(h: History, rs: seq<Stored>, cutoff: Time, k: Key, since: Time)
    requires LoadedCompletions(h, rs, cutoff, k)
    ensures CompletionsSince(h, k, since) <= CountSince(CompletionsOf(rs, k), since)
    ensures since >= cutoff ==> CompletionsSince(h, k, since) == CountSince(CompletionsOf(rs, k), since)
  {
    RecentOfEqualBags(Of(h.completions, k), Recent(CompletionsOf(rs, k), cutoff), since);
    RecentCounts(CompletionsOf(rs, k), cutoff, since);
  }

  // ---- The theorem --------------------------------------------------------------------------

  /** Every window a configuration enforces is covered by a floor this far back. */
  predicate FitsFloor(cfg: Config, depth: Time) {
    && (cfg.cooldown > 0 ==> cfg.cooldown <= depth)
    && (cfg.maxPerHour > 0 ==> RATE_WINDOW < depth)
    && (cfg.giveUpCount > 0 && cfg.giveUpWithin > 0 ==> cfg.giveUpWithin < depth)
  }

  /** One sweep, one restart with and without it, and one later question. */
  datatype Scenario = Scenario(
    records: seq<Stored>, gone: set<string>, swept: Time,      // the sweep and when it happened
    cutoff: Time, full: History, left: History,                // the replay, without and with the sweep
    k: Key, later: Time)                                       // who asks, and when

  ghost predicate Plays(c: Scenario, depth: Time) {
    && FloorRespected(c.records, c.gone, c.swept - depth)
    && Loaded(c.full, c.records, c.cutoff)
    && Loaded(c.left, Surviving(c.records, c.gone), c.cutoff)
    && c.swept <= c.later
  }

  ghost predicate SweepIsInvisible(cfg: Config, depth: Time) {
    forall c: Scenario :: Plays(c, depth) ==> Evaluate(cfg, c.left, c.k, c.later) == Evaluate(cfg, c.full, c.k, c.later)
  }

  lemma WindowsFit(cfg: Config, depth: Time, swept: Time, later: Time)
    requires FitsFloor(cfg, depth) && swept <= later
    ensures WindowsWithin(cfg, later, swept - depth + 1)
  {
  }

  lemma SweepChangesNoAnswer(cfg: Config, depth: Time, c: Scenario)
    requires Plays(c, depth) && FitsFloor(cfg, depth)
    ensures Evaluate(cfg, c.left, c.k, c.later) == Evaluate(cfg, c.full, c.k, c.later)
  {
    SurvivorsLoadTheSame(c.records, c.gone, c.swept - depth, c.cutoff, c.full, c.left);
    WindowsFit(cfg, depth, c.swept, c.later);
    EvaluateForgets(cfg, c.full, c.left, c.k, c.later, c.swept - depth + 1);
  }

  // ---- Its converse: n records that finished exactly on the floor ---------------------------

  function Finished(i: nat): Stored {
    Stored(seq(i, _ => 'x'),
           Spec("s", "t", [], 0, [], false, Auto, None, false, false, 0),
           Status(Succeeded, 1, [], NoReason, NoMessage, Some(0), Some(0), None))
  }

  function FinishedMany(n: nat): seq<Stored> {
    if n == 0 then [] else [Finished(n)] + FinishedMany(n - 1)
  }

  function NamesOf(rs: seq<Stored>): set<string> {
    set r | r in rs :: r.name
  }

  lemma {:induction false} FinishedManyStarts(n: nat, s: string)
    ensures StartsOf(FinishedMany(n), s) == if s == "s" then seq(n, _ => 0) else []
  {
    if n > 0 {
      FinishedManyStarts(n - 1, s);
      assert FinishedMany(n)[1..] == FinishedMany(n - 1);
      assert StartOf(Finished(n), s) == if s == "s" then [0] else [];
      assert seq(n, _ => 0) == [0] + seq(n - 1, _ => 0);
    }
  }

  lemma {:induction false} FinishedManyCompletions(n: nat, k: Key)
    ensures CompletionsOf(FinishedMany(n), k) == if k == Key("s", "t") then seq(n, _ => 0) else []
  {
    if n > 0 {
      FinishedManyCompletions(n - 1, k);
      assert FinishedMany(n)[1..] == FinishedMany(n - 1);
      assert CompletionOf(Finished(n), k) == if k == Key("s", "t") then [0] else [];
      assert seq(n, _ => 0) == [0] + seq(n - 1, _ => 0);
    }
  }

  lemma {:induction false} FinishedManyOnFloor(n: nat)
    ensures forall i :: 0 <= i < |FinishedMany(n)| ==> Deletable(FinishedMany(n)[i], 0) && StartsBeforeItEnds(FinishedMany(n)[i])
  {
    if n > 0 { FinishedManyOnFloor(n - 1); }
  }

  lemma {:induction false} NoneSurvive(rs: seq<Stored>, gone: set<string>)
    requires forall r :: r in rs ==> r.name in gone
    ensures Surviving(rs, gone) == []
  {
    if rs != [] { NoneSurvive(rs[1..], gone); }
  }

  /** The scenario in which a sweep deletes n records on its floor and everything is asked at once. */
  function OnTheFloor(n: nat, depth: Time): Scenario {
    Scenario(FinishedMany(n), NamesOf(FinishedMany(n)), depth, -1,
             History(map["s" := seq(n, _ => 0)], map[Key("s", "t") := seq(n, _ => 0)]), NO_HISTORY,
             Key("s", "t"), depth)
  }

  lemma OnTheFloorPlays(n: nat, depth: Time)
    ensures Plays(OnTheFloor(n, depth), depth)
  {
    FinishedManyOnFloor(n);
    NoneSurvive(FinishedMany(n), NamesOf(FinishedMany(n)));
    OnTheFloorLoads(n, depth);
    assert Loaded(NO_HISTORY, [], -1);
  }

  lemma OnTheFloorLoads(n: nat, depth: Time)
    ensures Loaded(OnTheFloor(n, depth).full, FinishedMany(n), -1)
  {
    var full := OnTheFloor(n, depth).full;
    MH.RecentOfCopies(n, -1);
    forall s: string ensures LoadedStarts(full, FinishedMany(n), -1, s) {
      FinishedManyStarts(n, s);
    }
    forall k: Key ensures LoadedCompletions(full, FinishedMany(n), -1, k) {
      FinishedManyCompletions(n, k);
    }
  }

  /** How many records on the floor trip the guard whose window reaches past it. */
  function Enough(cfg: Config, depth: Time): nat {
    if cfg.maxPerHour > 0 && RATE_WINDOW >= depth then cfg.maxPerHour
    else if cfg.giveUpCount > 0 then cfg.giveUpCount
    else 1
  }

  lemma OnTheFloorRefuses(cfg: Config, depth: Time)
    requires depth > 0 && !FitsFloor(cfg, depth)
    ensures var c := OnTheFloor(Enough(cfg, depth), depth);
      Evaluate(cfg, c.full, c.k, c.later) != Allowed && Evaluate(cfg, c.left, c.k, c.later) == Allowed
  {
    var n := Enough(cfg, depth);
    var c := OnTheFloor(n, depth);
    AllowedByCounts(cfg, c.left, c.k, c.later);
    AllowedByCounts(cfg, c.full, c.k, c.later);
    MH.RecentOfCopies(n, c.later - RATE_WINDOW);
    MH.RecentOfCopies(n, c.later - cfg.cooldown + 1);
    MH.RecentOfCopies(n, c.later - cfg.giveUpWithin);
  }

  /**
    * Deleting below a floor is invisible to every guard decision after every later restart if and
    * only if the cooldown is at most, and the other windows shorter than, the depth of the floor.
    */
  lemma SweepIsInvisibleIff(cfg: Config, depth: Time)
    requires depth > 0
    ensures SweepIsInvisible(cfg, depth) <==> FitsFloor(cfg, depth)
  {
    if FitsFloor(cfg, depth) {
      forall c: Scenario | Plays(c, depth)
        ensures Evaluate(cfg, c.left, c.k, c.later) == Evaluate(cfg, c.full, c.k, c.later)
      {
        SweepChangesNoAnswer(cfg, depth, c);
      }
    } else {
      OnTheFloorPlays(Enough(cfg, depth), depth);
      OnTheFloorRefuses(cfg, depth);
    }
  }

  // ---- The floor the sweeper computes ---------------------------------------------------------

  /** The longest window any strategy declares; the rate window counts where a rate is set. */
  function LongestWindow(strategies: seq<Config>): Time {
    if strategies == [] then 0
    else
      var c := strategies[|strategies| - 1];
      var longest := LongestWindow(strategies[..|strategies| - 1]);
      Max(Max(Max(longest, c.cooldown), if c.maxPerHour > 0 then RATE_WINDOW else 0), c.giveUpWithin)
  }

  lemma {:induction false} LongestWindowCovers(strategies: seq<Config>, i: nat)
    requires i < |strategies|
    ensures LongestWindow(strategies) >= 0
    ensures strategies[i].cooldown <= LongestWindow(strategies) && strategies[i].giveUpWithin <= LongestWindow(strategies)
  {
    var n := |strategies| - 1;
    if i < n {
      LongestWindowCovers(strategies[..n], i);
      assert strategies[..n][i] == strategies[i];
    } else if n > 0 {
      LongestWindowCovers(strategies[..n], 0);
    }
  }

  lemma {:induction false} LongestWindowNonNegative(strategies: seq<Config>)
    ensures LongestWindow(strategies) >= 0
  {
    if strategies != [] { LongestWindowCovers(strategies, 0); }
  }

  predicate HasWindow(c: Config, w: Time) {
    c.cooldown == w || c.giveUpWithin == w || (c.maxPerHour > 0 && w == 3600)
  }

  /** Some strategy has that window, or none has any. */
  lemma {:induction false} LongestWindowIsAWindow(strategies: seq<Config>)
    ensures LongestWindow(strategies) == 0 || exists c :: c in strategies && HasWindow(c, LongestWindow(strategies))
  {
    if strategies != [] {
      var n := |strategies| - 1;
      LongestWindowIsAWindow(strategies[..n]);
      assert strategies[n] in strategies && forall c :: c in strategies[..n] ==> c in strategies;
    }
  }

  /** A configuration changed after the sweep, but by less than the margin. */
  predicate WithinMargin(cfg: Config, longest: Time) {
    cfg.cooldown < longest + 2 * 3600 && cfg.giveUpWithin < longest + 2 * 3600
  }

  /**
    * A sweep changes no later guard decision of any strategy: not of one unchanged since the sweep,
    * and not of one whose windows have been lengthened, or introduced, within the two-hour margin.
    */
  lemma SweepSparesEveryStrategy(strategies: seq<Config>, cfg: Config, c: Scenario)
    requires Plays(c, LongestWindow(strategies) + FLOOR_MARGIN)
    requires cfg in strategies || WithinMargin(cfg, LongestWindow(strategies))
    ensures Evaluate(cfg, c.left, c.k, c.later) == Evaluate(cfg, c.full, c.k, c.later)
  {
    LongestWindowNonNegative(strategies);
    if cfg in strategies {
      var i :| 0 <= i < |strategies| && strategies[i] == cfg;
      LongestWindowCovers(strategies, i);
    }
    SweepChangesNoAnswer(cfg, LongestWindow(strategies) + FLOOR_MARGIN, c);
  }
}
