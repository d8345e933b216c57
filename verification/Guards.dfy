/** The guards and the read model they decide over: internal/guards/guards.go. */
module Guards {
  import opened Common

  datatype Key = Key(strategy: string, target: string)

  /** What the guards may ask about: when each strategy started, and finished on each target. */
  datatype History = History(starts: map<string, seq<Time>>, completions: map<Key, seq<Time>>)

  const NO_HISTORY := History(map[], map[])

  function Of<K>(m: map<K, seq<Time>>, k: K): seq<Time> {
    if k in m then m[k] else []
  }

  /** The entries at or after an instant. */
  function Recent(s: seq<Time>, since: Time): seq<Time> {
    if s == [] then []
    else (if s[0] >= since then [s[0]] else []) + Recent(s[1..], since)
  }

  function CountSince(s: seq<Time>, since: Time): nat {
    |Recent(s, since)|
  }

  /** The largest entry. */
  function Latest(s: seq<Time>): Option<Time> {
    if s == [] then None
    else
      match Latest(s[1..])
      case None => Some(s[0])
      case Some(t) => Some(Max(s[0], t))
  }

  function LastCompletion(h: History, k: Key): Option<Time> {
    Latest(Of(h.completions, k))
  }

  function CompletionsSince(h: History, k: Key, since: Time): nat {
    CountSince(Of(h.completions, k), since)
  }

  function StartsSince(h: History, strategy: string, since: Time): nat {
    CountSince(Of(h.starts, strategy), since)
  }

  // ---- The decision -------------------------------------------------------------------------

  const RATE_WINDOW: Time := 3600

  /** A strategy's spec.guards; a zero value leaves that guard unenforced. */
  datatype Config = Config(cooldown: Time, maxPerHour: int, giveUpCount: int, giveUpWithin: Time)

  datatype Verdict =
    | Allowed
    | CoolingDown(elapsed: Time, retryAfter: Time)
    | RateLimited(started: nat, limit: int)
    | GivenUp(done: nat, within: Time)

  function EvaluateCooldown(cfg: Config, h: History, k: Key, now: Time): Verdict {
    if cfg.cooldown <= 0 then Allowed
    else
      match LastCompletion(h, k)
      case None => Allowed
      case Some(last) =>
        var elapsed := now - last;
        if elapsed >= cfg.cooldown then Allowed
        else
          var shown := if elapsed < 0 then 0 else elapsed;
          CoolingDown(shown, cfg.cooldown - shown)
  }

  function EvaluateRate(cfg: Config, h: History, strategy: string, now: Time): Verdict {
    if cfg.maxPerHour <= 0 then Allowed
    else
      var started := StartsSince(h, strategy, now - RATE_WINDOW);
      if started < cfg.maxPerHour then Allowed else RateLimited(started, cfg.maxPerHour)
  }

  function EvaluateGiveUp(cfg: Config, h: History, k: Key, now: Time): Verdict {
    if cfg.giveUpCount <= 0 || cfg.giveUpWithin <= 0 then Allowed
    else
      var done := CompletionsSince(h, k, now - cfg.giveUpWithin);
      if done < cfg.giveUpCount then Allowed else GivenUp(done, cfg.giveUpWithin)
  }

  /** Cooldown, then rate, then give-up: the first refusal is the answer. */
  function Evaluate(cfg: Config, h: History, k: Key, now: Time): Verdict {
    var cooldown := EvaluateCooldown(cfg, h, k, now);
    if cooldown != Allowed then cooldown
    else
      var rate := EvaluateRate(cfg, h, k.strategy, now);
      if rate != Allowed then rate else EvaluateGiveUp(cfg, h, k, now)
  }

  // ---- Facts about counting -----------------------------------------------------------------

  lemma {:induction false} RecentMembers(s: seq<Time>, since: Time, t: Time)
    ensures t in Recent(s, since) <==> t in s && t >= since
    ensures multiset(Recent(s, since))[t] == if t >= since then multiset(s)[t] else 0
  {
    if s != [] {
      RecentMembers(s[1..], since, t);
      assert s == [s[0]] + s[1..];
      assert multiset(s) == multiset{s[0]} + multiset(s[1..]);
    }
  }

  lemma {:induction false} RecentAppend(a: seq<Time>, b: seq<Time>, since: Time)
    ensures Recent(a + b, since) == Recent(a, since) + Recent(b, since)
  {
    if a == [] {
      assert a + b == b;
    } else {
      RecentAppend(a[1..], b, since);
      assert (a + b)[1..] == a[1..] + b;
      Associates(if a[0] >= since then [a[0]] else [], Recent(a[1..], since), Recent(b, since));
    }
  }

  /** The same instants, each as often; how they are arranged does not matter. */
  ghost predicate SameBag(a: seq<Time>, b: seq<Time>) {
    forall t: Time :: AsOften(a, b, t)
  }

  predicate AsOften(a: seq<Time>, b: seq<Time>, t: Time) {
    multiset(a)[t] == multiset(b)[t]
  }

  lemma SameBagIff(a: seq<Time>, b: seq<Time>)
    ensures SameBag(a, b) <==> multiset(a) == multiset(b)
    ensures SameBag(a, b) ==> |a| == |b|
  {
    if SameBag(a, b) {
      forall t: Time ensures multiset(a)[t] == multiset(b)[t] {
        assert AsOften(a, b, t);
      }
      assert |multiset(a)| == |a| && |multiset(b)| == |b|;
    }
  }

  lemma SameBagEitherWay(a: seq<Time>, b: seq<Time>)
    requires SameBag(a, b)
    ensures SameBag(b, a)
  {
    SameBagIff(a, b);
    SameBagIff(b, a);
  }

  lemma RecentOfEqualBags(a: seq<Time>, b: seq<Time>, since: Time)
    requires SameBag(a, b)
    ensures SameBag(Recent(a, since), Recent(b, since))
    ensures CountSince(a, since) == CountSince(b, since)
  {
    forall t: Time ensures AsOften(Recent(a, since), Recent(b, since), t) {
      assert AsOften(a, b, t);
      RecentMembers(a, since, t);
      RecentMembers(b, since, t);
    }
    SameBagIff(Recent(a, since), Recent(b, since));
  }

  lemma {:induction false} LatestIsMax(s: seq<Time>)
    ensures s == [] <==> Latest(s).None?
    ensures Latest(s).Some? ==> Latest(s).value in s && forall t :: t in s ==> t <= Latest(s).value
  {
    if s != [] {
      LatestIsMax(s[1..]);
      assert s == [s[0]] + s[1..];
    }
  }

  lemma {:induction false} RecentOfRecent(s: seq<Time>, cut: Time, since: Time)
    requires cut <= since
    ensures Recent(Recent(s, cut), since) == Recent(s, since)
  {
    if s != [] {
      RecentOfRecent(s[1..], cut, since);
      RecentAppend(if s[0] >= cut then [s[0]] else [], Recent(s[1..], cut), since);
    }
  }

  lemma CountShrinks(s: seq<Time>, early: Time, late: Time)
    requires early <= late
    ensures CountSince(s, late) <= CountSince(s, early)
  {
    RecentOfRecent(s, early, late);
    RecentNoLonger(Recent(s, early), late);
  }

  lemma {:induction false} RecentNoLonger(s: seq<Time>, since: Time)
    ensures |Recent(s, since)| <= |s|
  {
    if s != [] { RecentNoLonger(s[1..], since); }
  }

  /** Nothing counts from an instant onwards exactly when the latest entry, if any, is earlier. */
  lemma CountsNoneIff(s: seq<Time>, since: Time)
    ensures CountSince(s, since) == 0 <==> Latest(s).None? || Latest(s).value < since
  {
    LatestIsMax(s);
    if s != [] {
      RecentMembers(s, since, Latest(s).value);
    }
    if Recent(s, since) != [] {
      RecentMembers(s, since, Recent(s, since)[0]);
    }
  }

  /** The cooldown refuses exactly when some completion is younger than the cooldown. */
  lemma CooldownCounts(cfg: Config, h: History, k: Key, now: Time)
    requires cfg.cooldown > 0
    ensures EvaluateCooldown(cfg, h, k, now) == Allowed <==> CompletionsSince(h, k, now - cfg.cooldown + 1) == 0
  {
    CountsNoneIff(Of(h.completions, k), now - cfg.cooldown + 1);
  }

  /** Whether a strategy's guards may run at all, as counts over the history. */
  lemma AllowedByCounts(cfg: Config, h: History, k: Key, now: Time)
    ensures Evaluate(cfg, h, k, now) == Allowed <==>
      && (cfg.cooldown > 0 ==> CompletionsSince(h, k, now - cfg.cooldown + 1) == 0)
      && (cfg.maxPerHour > 0 ==> StartsSince(h, k.strategy, now - RATE_WINDOW) < cfg.maxPerHour)
      && (cfg.giveUpCount > 0 && cfg.giveUpWithin > 0 ==>
            CompletionsSince(h, k, now - cfg.giveUpWithin) < cfg.giveUpCount)
  {
    if cfg.cooldown > 0 { CooldownCounts(cfg, h, k, now); }
  }

  /** The refusal that is reported is the first in the order cooldown, rate, give-up. */
  lemma RefusalNamesTheFirstGuard(cfg: Config, h: History, k: Key, now: Time)
    ensures var cooling := cfg.cooldown > 0 && CompletionsSince(h, k, now - cfg.cooldown + 1) > 0;
      var limited := cfg.maxPerHour > 0 && StartsSince(h, k.strategy, now - RATE_WINDOW) >= cfg.maxPerHour;
      var given := cfg.giveUpCount > 0 && cfg.giveUpWithin > 0 && CompletionsSince(h, k, now - cfg.giveUpWithin) >= cfg.giveUpCount;
      && (Evaluate(cfg, h, k, now).CoolingDown? <==> cooling)
      && (Evaluate(cfg, h, k, now).RateLimited? <==> !cooling && limited)
      && (Evaluate(cfg, h, k, now).GivenUp? <==> !cooling && !limited && given)
  {
    if cfg.cooldown > 0 { CooldownCounts(cfg, h, k, now); }
  }

  /**
    * The figures of a refusal: how long ago the last completion was, never negative, and what is left of
    * the cooldown; how many started and how many may; how many were done and in what time.
    */
  lemma RefusalFigures(cfg: Config, h: History, k: Key, now: Time)
    ensures var v := Evaluate(cfg, h, k, now);
      && (v.CoolingDown? ==>
            && LastCompletion(h, k).Some? && v.elapsed + v.retryAfter == cfg.cooldown
            && v.elapsed == (if LastCompletion(h, k).value > now then 0 else now - LastCompletion(h, k).value))
      && (v.RateLimited? ==> v.started == StartsSince(h, k.strategy, now - 3600) && v.limit == cfg.maxPerHour)
      && (v.GivenUp? ==> v.done == CompletionsSince(h, k, now - cfg.giveUpWithin) && v.within == cfg.giveUpWithin)
  {
  }

  /** With this history, the cooldown lets go at one instant and not before. */
  ghost predicate LetsGoAt(cfg: Config, h: History, k: Key, now: Time, at: Time) {
    forall later: Time :: later >= now ==> (EvaluateCooldown(cfg, h, k, later) == Allowed <==> later >= at)
  }

  /**
    * The wait a cooldown reports is how long until it would permit the execution, exactly when the
    * last completion is not in the future; for one in the future the cooldown lasts longer than it says.
    */
  lemma RetryAfterIsExactIff(cfg: Config, h: History, k: Key, now: Time)
    requires EvaluateCooldown(cfg, h, k, now).CoolingDown?
    ensures var wait := EvaluateCooldown(cfg, h, k, now).retryAfter;
      && 0 < wait <= cfg.cooldown
      && (LetsGoAt(cfg, h, k, now, now + wait) <==> LastCompletion(h, k).value <= now)
  {
    var last := LastCompletion(h, k).value;
    var at := now + EvaluateCooldown(cfg, h, k, now).retryAfter;
    if last > now {
      assert EvaluateCooldown(cfg, h, k, at) != Allowed;
      assert !LetsGoAt(cfg, h, k, now, at);
    }
  }

  // ---- How a decision depends on the history ------------------------------------------------

  /** One history has seen at least as much as another, at every instant from a cut onwards. */
  ghost predicate SeesAtLeast(more: History, less: History, cut: Time) {
    && (forall s: string, since: Time :: since >= cut ==> StartsSince(less, s, since) <= StartsSince(more, s, since))
    && (forall k: Key, since: Time :: since >= cut ==> CompletionsSince(less, k, since) <= CompletionsSince(more, k, since))
  }

  /** No enforced window of a configuration, looking back from now, reaches past the cut. */
  predicate WindowsWithin(cfg: Config, now: Time, cut: Time) {
    && (cfg.cooldown > 0 ==> cut <= now - cfg.cooldown + 1)
    && (cfg.maxPerHour > 0 ==> cut <= now - RATE_WINDOW)
    && (cfg.giveUpCount > 0 && cfg.giveUpWithin > 0 ==> cut <= now - cfg.giveUpWithin)
  }

  /** A history that has seen more, wherever an enforced guard looks, never allows more. */
  lemma MoreNeverAllowsMore(cfg: Config, more: History, less: History, k: Key, now: Time)
    requires cfg.cooldown > 0 ==> CompletionsSince(less, k, now - cfg.cooldown + 1) <= CompletionsSince(more, k, now - cfg.cooldown + 1)
    requires cfg.maxPerHour > 0 ==> StartsSince(less, k.strategy, now - RATE_WINDOW) <= StartsSince(more, k.strategy, now - RATE_WINDOW)
    requires cfg.giveUpCount > 0 && cfg.giveUpWithin > 0 ==>
      CompletionsSince(less, k, now - cfg.giveUpWithin) <= CompletionsSince(more, k, now - cfg.giveUpWithin)
    ensures Evaluate(cfg, more, k, now) == Allowed ==> Evaluate(cfg, less, k, now) == Allowed
  {
    AllowedByCounts(cfg, more, k, now);
    AllowedByCounts(cfg, less, k, now);
  }

  lemma EvaluateIsMonotone(cfg: Config, more: History, less: History, k: Key, now: Time, cut: Time)
    requires SeesAtLeast(more, less, cut) && WindowsWithin(cfg, now, cut)
    ensures Evaluate(cfg, more, k, now) == Allowed ==> Evaluate(cfg, less, k, now) == Allowed
  {
    MoreNeverAllowsMore(cfg, more, less, k, now);
  }

  ghost predicate SameStarts(a: History, b: History, cut: Time, s: string) {
    SameBag(Recent(Of(a.starts, s), cut), Recent(Of(b.starts, s), cut))
  }

  ghost predicate SameCompletions(a: History, b: History, cut: Time, k: Key) {
    SameBag(Recent(Of(a.completions, k), cut), Recent(Of(b.completions, k), cut))
  }

  /** Two histories that hold the same entries from a cut onwards. */
  ghost predicate SameSince(a: History, b: History, cut: Time) {
    && (forall s: string :: SameStarts(a, b, cut, s))
    && (forall k: Key :: SameCompletions(a, b, cut, k))
  }

  lemma SameCounts(a: seq<Time>, b: seq<Time>, cut: Time, since: Time)
    requires SameBag(Recent(a, cut), Recent(b, cut)) && cut <= since
    ensures CountSince(a, since) == CountSince(b, since)
  {
    RecentOfRecent(a, cut, since);
    RecentOfRecent(b, cut, since);
    RecentOfEqualBags(Recent(a, cut), Recent(b, cut), since);
  }

  lemma SameMembers(a: seq<Time>, b: seq<Time>, cut: Time, t: Time)
    requires SameBag(Recent(a, cut), Recent(b, cut)) && t >= cut
    ensures t in a <==> t in b
  {
    RecentMembers(a, cut, t);
    RecentMembers(b, cut, t);
    SameBagIff(Recent(a, cut), Recent(b, cut));
    assert t in Recent(a, cut) <==> t in multiset(Recent(a, cut));
    assert t in Recent(b, cut) <==> t in multiset(Recent(b, cut));
  }

  lemma SameLatest(a: seq<Time>, b: seq<Time>, cut: Time)
    requires SameBag(Recent(a, cut), Recent(b, cut))
    requires Latest(a).Some? && Latest(a).value >= cut
    ensures Latest(b) == Latest(a)
  {
    forall t | t >= cut ensures t in a <==> t in b {
      SameMembers(a, b, cut, t);
    }
    LatestIsShared(a, b, cut);
  }

  lemma LatestIsShared(a: seq<Time>, b: seq<Time>, cut: Time)
    requires forall t :: t >= cut ==> (t in a <==> t in b)
    requires Latest(a).Some? && Latest(a).value >= cut
    ensures Latest(b) == Latest(a)
  {
    LatestIsMax(a);
    LatestIsMax(b);
  }

  lemma CooldownForgets(cfg: Config, a: History, b: History, k: Key, now: Time, cut: Time)
    requires SameCompletions(a, b, cut, k) && cut <= now - cfg.cooldown + 1
    ensures EvaluateCooldown(cfg, a, k, now) == EvaluateCooldown(cfg, b, k, now)
  {
    var x, y := LastCompletion(a, k), LastCompletion(b, k);
    if x.Some? && x.value >= cut {
      SameLatest(Of(a.completions, k), Of(b.completions, k), cut);
    } else if y.Some? && y.value >= cut {
      SameBagEitherWay(Recent(Of(a.completions, k), cut), Recent(Of(b.completions, k), cut));
      SameLatest(Of(b.completions, k), Of(a.completions, k), cut);
    }
  }

  lemma RateForgets(cfg: Config, a: History, b: History, strategy: string, now: Time, cut: Time)
    requires SameStarts(a, b, cut, strategy) && cut <= now - RATE_WINDOW
    ensures EvaluateRate(cfg, a, strategy, now) == EvaluateRate(cfg, b, strategy, now)
  {
    SameCounts(Of(a.starts, strategy), Of(b.starts, strategy), cut, now - RATE_WINDOW);
  }

  lemma GiveUpForgets(cfg: Config, a: History, b: History, k: Key, now: Time, cut: Time)
    requires SameCompletions(a, b, cut, k) && cut <= now - cfg.giveUpWithin
    ensures EvaluateGiveUp(cfg, a, k, now) == EvaluateGiveUp(cfg, b, k, now)
  {
    SameCounts(Of(a.completions, k), Of(b.completions, k), cut, now - cfg.giveUpWithin);
  }

  /** What an enforced guard looks at, and whether it is the same from the cut it needs. */
  lemma EvaluateForgetsOne(cfg: Config, a: History, b: History, k: Key, now: Time, starts: Time, completions: Time)
    requires SameCompletions(a, b, completions, k)
    requires cfg.cooldown > 0 ==> completions <= now - cfg.cooldown + 1
    requires cfg.giveUpCount > 0 && cfg.giveUpWithin > 0 ==> completions <= now - cfg.giveUpWithin
    requires cfg.maxPerHour > 0 ==> SameStarts(a, b, starts, k.strategy) && starts <= now - RATE_WINDOW
    ensures Evaluate(cfg, a, k, now) == Evaluate(cfg, b, k, now)
  {
    assert EvaluateCooldown(cfg, a, k, now) == EvaluateCooldown(cfg, b, k, now) by {
      if cfg.cooldown > 0 { CooldownForgets(cfg, a, b, k, now, completions); }
    }
    assert EvaluateRate(cfg, a, k.strategy, now) == EvaluateRate(cfg, b, k.strategy, now) by {
      if cfg.maxPerHour > 0 { RateForgets(cfg, a, b, k.strategy, now, starts); }
    }
    assert EvaluateGiveUp(cfg, a, k, now) == EvaluateGiveUp(cfg, b, k, now) by {
      if cfg.giveUpCount > 0 && cfg.giveUpWithin > 0 { GiveUpForgets(cfg, a, b, k, now, completions); }
    }
  }

  /** Entries older than every window make no difference to any part of the decision. */
  lemma EvaluateForgets(cfg: Config, a: History, b: History, k: Key, now: Time, cut: Time)
    requires SameSince(a, b, cut) && WindowsWithin(cfg, now, cut)
    ensures Evaluate(cfg, a, k, now) == Evaluate(cfg, b, k, now)
  {
    assert SameCompletions(a, b, cut, k) && SameStarts(a, b, cut, k.strategy);
    EvaluateForgetsOne(cfg, a, b, k, now, cut, cut);
  }
}
