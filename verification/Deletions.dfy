/**
  * When deleting records goes unnoticed: any deletion against the guards of internal/guards/guards.go,
  * across the replay of internal/engine/history.go.
  */
module Deletions {
  import opened Common
  import opened Guards
  import opened Replay
  import opened Retention

  /**
    * No guard whose window fits a depth can still count this record: it replays nothing, or it
    * completed at or before now - depth, and its start has left the rate window if the depth covers one.
    */
  predicate OutOfEveryWindow(r: Stored, now: Time, depth: Time) {
    r.spec.gaveUp ||
      (&& (ReplaysCompletion(r) ==> r.status.completedAt.value <= now - depth)
       && (RATE_WINDOW < depth ==> StartedAt(r) < now - RATE_WINDOW))
  }

  ghost predicate AllOut(rs: seq<Stored>, gone: set<string>, now: Time, depth: Time) {
    forall i :: 0 <= i < |rs| && rs[i].name in gone ==> OutOfEveryWindow(rs[i], now, depth)
  }

  /** A later replay: of all the records, and of those a deletion left. */
  datatype Replayed = Replayed(full: History, left: History)

  ghost predicate Replays(h: Replayed, rs: seq<Stored>, gone: set<string>, cutoff: Time) {
    match h
    case Replayed(full, left) => Loaded(full, rs, cutoff) && Loaded(left, Surviving(rs, gone), cutoff)
  }

  predicate SameAnswer(cfg: Config, h: Replayed, k: Key, later: Time) {
    Evaluate(cfg, h.left, k, later) == Evaluate(cfg, h.full, k, later)
  }

  ghost predicate UnnoticedAt(rs: seq<Stored>, gone: set<string>, cutoff: Time, cfg: Config, k: Key, later: Time) {
    forall h: Replayed :: Replays(h, rs, gone, cutoff) ==> SameAnswer(cfg, h, k, later)
  }

  /** No guard of any configuration that fits the depth, on any target, can tell after any later restart. */
  ghost predicate GoesUnnoticed(rs: seq<Stored>, gone: set<string>, now: Time, depth: Time, retention: Time) {
    forall cfg: Config, k: Key, cutoff: Time, later: Time ::
      FitsFloor(cfg, depth) && now <= cutoff + retention <= later ==> UnnoticedAt(rs, gone, cutoff, cfg, k, later)
  }

  // ---- Enough -----------------------------------------------------------------------------------

  lemma OldRecordsReplayNothing(rs: seq<Stored>, gone: set<string>, now: Time, depth: Time)
    requires AllOut(rs, gone, now, depth)
    ensures forall i :: 0 <= i < |rs| && rs[i].name in gone ==> NoCompletionSince(rs[i], now - depth + 1)
    ensures RATE_WINDOW < depth ==> forall i :: 0 <= i < |rs| && rs[i].name in gone ==> NoStartSince(rs[i], now - RATE_WINDOW)
  {
    forall i | 0 <= i < |rs| && rs[i].name in gone
      ensures NoCompletionSince(rs[i], now - depth + 1) && (RATE_WINDOW < depth ==> NoStartSince(rs[i], now - RATE_WINDOW))
    {
      assert OutOfEveryWindow(rs[i], now, depth);
    }
  }

  /** As far back as any window reaches, two histories hold the same. */
  ghost predicate SameInEveryWindow(h: Replayed, now: Time, depth: Time) {
    var hour, cut := now - RATE_WINDOW, now - depth + 1;
    && (forall k: Key :: SameCompletions(h.full, h.left, cut, k))
    && (RATE_WINDOW < depth ==> forall s: string :: SameStarts(h.full, h.left, hour, s))
  }

  lemma OldDeletionLoadsTheSame(rs: seq<Stored>, gone: set<string>, now: Time, depth: Time, cutoff: Time, h: Replayed)
    requires AllOut(rs, gone, now, depth) && Replays(h, rs, gone, cutoff)
    ensures SameInEveryWindow(h, now, depth)
  {
    OldRecordsReplayNothing(rs, gone, now, depth);
    var hour, cut := now - RATE_WINDOW, now - depth + 1;
    forall k: Key ensures SameCompletions(h.full, h.left, cut, k) {
      assert LoadedCompletions(h.full, rs, cutoff, k) && LoadedCompletions(h.left, Surviving(rs, gone), cutoff, k);
      SurvivorsLoadSameCompletions(rs, gone, cut, cutoff, h.full, h.left, k);
    }
    forall s: string | RATE_WINDOW < depth ensures SameStarts(h.full, h.left, hour, s) {
      assert LoadedStarts(h.full, rs, cutoff, s) && LoadedStarts(h.left, Surviving(rs, gone), cutoff, s);
      SurvivorsLoadSameStarts(rs, gone, hour, cutoff, h.full, h.left, s);
    }
  }

  /** Each guard looks no further back than what is the same. */
  lemma SameRecordsSameAnswer(cfg: Config, h: Replayed, k: Key, now: Time, depth: Time, later: Time)
    requires now <= later && FitsFloor(cfg, depth) && SameInEveryWindow(h, now, depth)
    ensures SameAnswer(cfg, h, k, later)
  {
    assert SameCompletions(h.full, h.left, now - depth + 1, k);
    assert RATE_WINDOW < depth ==> SameStarts(h.full, h.left, now - RATE_WINDOW, k.strategy);
    EvaluateForgetsOne(cfg, h.full, h.left, k, later, now - RATE_WINDOW, now - depth + 1);
  }

  lemma OldDeletionGoesUnnoticed(rs: seq<Stored>, gone: set<string>, now: Time, depth: Time, retention: Time)
    requires AllOut(rs, gone, now, depth)
    ensures GoesUnnoticed(rs, gone, now, depth, retention)
  {
    forall cfg: Config, k: Key, cutoff: Time, later: Time | FitsFloor(cfg, depth) && now <= cutoff + retention <= later
      ensures UnnoticedAt(rs, gone, cutoff, cfg, k, later)
    {
      forall h | Replays(h, rs, gone, cutoff) ensures SameAnswer(cfg, h, k, later) {
        OldDeletionLoadsTheSame(rs, gone, now, depth, cutoff, h);
        SameRecordsSameAnswer(cfg, h, k, now, depth, later);
      }
    }
  }

  // ---- Needed -----------------------------------------------------------------------------------

  lemma {:induction false} NoMoreSurvive(rs: seq<Stored>, gone: set<string>, s: string, k: Key, since: Time)
    ensures CountSince(StartsOf(Surviving(rs, gone), s), since) <= CountSince(StartsOf(rs, s), since)
    ensures CountSince(CompletionsOf(Surviving(rs, gone), k), since) <= CountSince(CompletionsOf(rs, k), since)
  {
    if rs != [] {
      NoMoreSurvive(rs[1..], gone, s, k, since);
      SurvivingCounts(rs, gone, s, k, since);
    }
  }

  /** The head of a list, counted apart. */
  lemma SurvivingCounts(rs: seq<Stored>, gone: set<string>, s: string, k: Key, since: Time)
    requires rs != []
    ensures CountSince(StartsOf(rs, s), since) == CountSince(StartOf(rs[0], s), since) + CountSince(StartsOf(rs[1..], s), since)
    ensures CountSince(CompletionsOf(rs, k), since) == CountSince(CompletionOf(rs[0], k), since) + CountSince(CompletionsOf(rs[1..], k), since)
    ensures var head := if rs[0].name in gone then 0 else 1; var left := Surviving(rs[1..], gone);
      && CountSince(StartsOf(Surviving(rs, gone), s), since) == head * CountSince(StartOf(rs[0], s), since) + CountSince(StartsOf(left, s), since)
      && CountSince(CompletionsOf(Surviving(rs, gone), k), since) == head * CountSince(CompletionOf(rs[0], k), since) + CountSince(CompletionsOf(left, k), since)
  {
    var left := Surviving(rs[1..], gone);
    RecentAppend(StartOf(rs[0], s), StartsOf(rs[1..], s), since);
    RecentAppend(CompletionOf(rs[0], k), CompletionsOf(rs[1..], k), since);
    if rs[0].name in gone {
      assert Surviving(rs, gone) == left;
    } else {
      assert Surviving(rs, gone) == [rs[0]] + left && ([rs[0]] + left)[1..] == left;
      RecentAppend(StartOf(rs[0], s), StartsOf(left, s), since);
      RecentAppend(CompletionOf(rs[0], k), CompletionsOf(left, k), since);
    }
  }

  /** A deleted record that would have counted is missed. */
  lemma {:induction false} FewerStartsSurvive(rs: seq<Stored>, gone: set<string>, i: nat, s: string, since: Time)
    requires i < |rs| && rs[i].name in gone && CountSince(StartOf(rs[i], s), since) > 0
    ensures CountSince(StartsOf(Surviving(rs, gone), s), since) < CountSince(StartsOf(rs, s), since)
  {
    SurvivingCounts(rs, gone, s, Key("", ""), since);
    if i == 0 {
      NoMoreSurvive(rs[1..], gone, s, Key("", ""), since);
    } else {
      FewerStartsSurvive(rs[1..], gone, i - 1, s, since);
    }
  }

  lemma {:induction false} FewerCompletionsSurvive(rs: seq<Stored>, gone: set<string>, i: nat, k: Key, since: Time)
    requires i < |rs| && rs[i].name in gone && CountSince(CompletionOf(rs[i], k), since) > 0
    ensures CountSince(CompletionsOf(Surviving(rs, gone), k), since) < CountSince(CompletionsOf(rs, k), since)
  {
    SurvivingCounts(rs, gone, "", k, since);
    if i == 0 {
      NoMoreSurvive(rs[1..], gone, "", k, since);
    } else {
      FewerCompletionsSurvive(rs[1..], gone, i - 1, k, since);
    }
  }

  /** The history a replay of some records leaves. */
  function ReplayOf(rs: seq<Stored>, cutoff: Time): History {
    History(map s | s in (set r | r in rs :: r.spec.strategy) :: Recent(StartsOf(rs, s), cutoff),
            map k | k in (set r | r in rs :: KeyOf(r)) :: Recent(CompletionsOf(rs, k), cutoff))
  }

  lemma {:induction false} NothingElsewhere(rs: seq<Stored>, s: string, k: Key)
    ensures (forall r :: r in rs ==> r.spec.strategy != s) ==> StartsOf(rs, s) == []
    ensures (forall r :: r in rs ==> KeyOf(r) != k) ==> CompletionsOf(rs, k) == []
  {
    if rs != [] {
      NothingElsewhere(rs[1..], s, k);
      assert rs[0] in rs && forall r :: r in rs[1..] ==> r in rs;
    }
  }

  /** Every list of records has a replay. */
  lemma SomeReplay(rs: seq<Stored>, cutoff: Time) returns (h: History)
    ensures Loaded(h, rs, cutoff)
  {
    h := ReplayOf(rs, cutoff);
    forall s: string ensures LoadedStarts(h, rs, cutoff, s) {
      NothingElsewhere(rs, s, Key("", ""));
    }
    forall k: Key ensures LoadedCompletions(h, rs, cutoff, k) {
      NothingElsewhere(rs, "", k);
    }
  }

  lemma SomeReplays(rs: seq<Stored>, gone: set<string>, cutoff: Time) returns (h: Replayed)
    ensures Replays(h, rs, gone, cutoff)
  {
    var full := SomeReplay(rs, cutoff);
    var left := SomeReplay(Surviving(rs, gone), cutoff);
    h := Replayed(full, left);
  }

  lemma FewerCompletionsLoaded(rs: seq<Stored>, gone: set<string>, cutoff: Time, h: Replayed, i: nat, since: Time)
    requires i < |rs| && rs[i].name in gone && ReplaysCompletion(rs[i]) && rs[i].status.completedAt.value >= since >= cutoff
    requires Replays(h, rs, gone, cutoff)
    ensures CompletionsSince(h.left, KeyOf(rs[i]), since) < CompletionsSince(h.full, KeyOf(rs[i]), since)
  {
    var k, at := KeyOf(rs[i]), rs[i].status.completedAt.value;
    assert CompletionOf(rs[i], k) == [at] && [at][1..] == [];
    FewerCompletionsSurvive(rs, gone, i, k, since);
    assert LoadedCompletions(h.full, rs, cutoff, k) && LoadedCompletions(h.left, Surviving(rs, gone), cutoff, k);
    LoadedCompletionCounts(h.full, rs, cutoff, k, since);
    LoadedCompletionCounts(h.left, Surviving(rs, gone), cutoff, k, since);
  }

  lemma FewerStartsLoaded(rs: seq<Stored>, gone: set<string>, cutoff: Time, h: Replayed, i: nat, since: Time)
    requires i < |rs| && rs[i].name in gone && !rs[i].spec.gaveUp && StartedAt(rs[i]) >= since >= cutoff
    requires Replays(h, rs, gone, cutoff)
    ensures StartsSince(h.left, rs[i].spec.strategy, since) < StartsSince(h.full, rs[i].spec.strategy, since)
  {
    var s, at := rs[i].spec.strategy, StartedAt(rs[i]);
    assert StartOf(rs[i], s) == [at] && [at][1..] == [];
    FewerStartsSurvive(rs, gone, i, s, since);
    assert LoadedStarts(h.full, rs, cutoff, s) && LoadedStarts(h.left, Surviving(rs, gone), cutoff, s);
    LoadedStartCounts(h.full, rs, cutoff, s, since);
    LoadedStartCounts(h.left, Surviving(rs, gone), cutoff, s, since);
  }

  /** Far enough to see an instant, and not before the moment of asking. */
  function LooksBackTo(now: Time, at: Time): Time {
    Min(at, Max(now, at) - 1)
  }

  /** Who can tell a completion is gone: a give-up guard that counts it, as late as it can. */
  function MissesCompletion(full: History, k: Key, now: Time, at: Time): Config {
    var since := LooksBackTo(now, at);
    Config(0, 0, CompletionsSince(full, k, since), Max(now, at) - since)
  }

  /** ... and who can tell a start is: a rate guard that counts it, at once. */
  function MissesStart(full: History, s: string, now: Time): Config {
    Config(0, StartsSince(full, s, now - RATE_WINDOW), 0, 0)
  }

  /** Both fit a depth that covers what they miss. */
  lemma TheyFit(full: History, k: Key, now: Time, at: Time, depth: Time)
    requires depth > 1
    ensures at > now - depth ==> FitsFloor(MissesCompletion(full, k, now, at), depth)
    ensures depth > RATE_WINDOW ==> FitsFloor(MissesStart(full, k.strategy, now), depth)
  {
  }

  lemma GiveUpTells(h: Replayed, k: Key, now: Time, at: Time)
    requires CompletionsSince(h.left, k, LooksBackTo(now, at)) < CompletionsSince(h.full, k, LooksBackTo(now, at))
    ensures !SameAnswer(MissesCompletion(h.full, k, now, at), h, k, Max(now, at))
  {
  }

  lemma RateTells(h: Replayed, k: Key, now: Time)
    requires StartsSince(h.left, k.strategy, now - RATE_WINDOW) < StartsSince(h.full, k.strategy, now - RATE_WINDOW)
    ensures !SameAnswer(MissesStart(h.full, k.strategy, now), h, k, now)
  {
  }

  lemma OneGuardTells(rs: seq<Stored>, gone: set<string>, now: Time, depth: Time, retention: Time, cutoff: Time, cfg: Config, h: Replayed, k: Key, later: Time)
    requires now == cutoff + retention <= later && FitsFloor(cfg, depth) && Replays(h, rs, gone, cutoff)
    requires !SameAnswer(cfg, h, k, later)
    ensures !GoesUnnoticed(rs, gone, now, depth, retention)
  {
    assert !UnnoticedAt(rs, gone, cutoff, cfg, k, later);
  }

  lemma RecentCompletionIsMissed(rs: seq<Stored>, gone: set<string>, now: Time, depth: Time, retention: Time, i: nat)
    requires 1 < depth <= retention && i < |rs| && rs[i].name in gone && ReplaysCompletion(rs[i])
    requires rs[i].status.completedAt.value > now - depth
    ensures !GoesUnnoticed(rs, gone, now, depth, retention)
  {
    var k, at, cutoff := KeyOf(rs[i]), rs[i].status.completedAt.value, now - retention;
    var since, later := LooksBackTo(now, at), Max(now, at);
    var h := SomeReplays(rs, gone, cutoff);
    FewerCompletionsLoaded(rs, gone, cutoff, h, i, since);
    GiveUpTells(h, k, now, at);
    TheyFit(h.full, k, now, at, depth);
    OneGuardTells(rs, gone, now, depth, retention, cutoff, MissesCompletion(h.full, k, now, at), h, k, later);
  }

  lemma RecentStartIsMissed(rs: seq<Stored>, gone: set<string>, now: Time, depth: Time, retention: Time, i: nat)
    requires RATE_WINDOW < depth <= retention && i < |rs| && rs[i].name in gone && !rs[i].spec.gaveUp
    requires StartedAt(rs[i]) >= now - RATE_WINDOW
    ensures !GoesUnnoticed(rs, gone, now, depth, retention)
  {
    var k, cutoff := KeyOf(rs[i]), now - retention;
    var since := now - RATE_WINDOW;
    var h := SomeReplays(rs, gone, cutoff);
    FewerStartsLoaded(rs, gone, cutoff, h, i, since);
    RateTells(h, k, now);
    TheyFit(h.full, k, now, now, depth);
    OneGuardTells(rs, gone, now, depth, retention, cutoff, MissesStart(h.full, k.strategy, now), h, k, now);
  }

  // ---- The theorem ------------------------------------------------------------------------------

  /**
    * A deletion changes no decision of any configuration whose windows fit a depth, on any target,
    * after any later restart, if and only if everything deleted is out of every such window.
    */
  lemma DeletionGoesUnnoticedIff(rs: seq<Stored>, gone: set<string>, now: Time, depth: Time, retention: Time)
    requires 1 < depth <= retention
    ensures GoesUnnoticed(rs, gone, now, depth, retention) <==> AllOut(rs, gone, now, depth)
  {
    if AllOut(rs, gone, now, depth) {
      OldDeletionGoesUnnoticed(rs, gone, now, depth, retention);
    } else {
      var i :| 0 <= i < |rs| && rs[i].name in gone && !OutOfEveryWindow(rs[i], now, depth);
      if ReplaysCompletion(rs[i]) && rs[i].status.completedAt.value > now - depth {
        RecentCompletionIsMissed(rs, gone, now, depth, retention, i);
      } else {
        RecentStartIsMissed(rs, gone, now, depth, retention, i);
      }
    }
  }
}
