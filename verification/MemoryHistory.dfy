/** The in-memory index behind the guards: internal/guards/memory.go. */
module MemoryHistory {
  import opened Common
  import opened Guards
  import opened Sorting

  const DEFAULT_RETENTION: Time := 86400

  ghost predicate Sorted(s: seq<Time>) {
    forall i, j :: 0 <= i < j < |s| ==> s[i] <= s[j]
  }

  predicate Before(a: Time, b: Time) {
    a < b
  }

  /** In a sorted list the recent entries are a suffix. */
  lemma {:induction false} RecentIsSuffix(s: seq<Time>, since: Time, i: nat)
    requires Sorted(s) && i <= |s|
    requires forall k :: 0 <= k < i ==> s[k] < since
    requires forall k :: i <= k < |s| ==> s[k] >= since
    ensures Recent(s, since) == s[i..]
  {
    if s != [] {
      RecentIsSuffix(s[1..], since, if i > 0 then i - 1 else 0);
    }
  }

  lemma {:induction false} LatestIsLast(s: seq<Time>)
    requires Sorted(s) && s != []
    ensures Latest(s) == Some(s[|s| - 1])
  {
    if |s| > 1 {
      LatestIsLast(s[1..]);
    }
  }

  /** sort.Search for the first entry at or after an instant, by bisection. */
  method Search(s: seq<Time>, since: Time) returns (i: nat)
    requires Sorted(s)
    ensures i <= |s| && Recent(s, since) == s[i..]
    ensures forall k :: 0 <= k < i ==> s[k] < since
    ensures forall k :: i <= k < |s| ==> s[k] >= since
  {
    var low, high := 0, |s|;
    while low < high
      invariant 0 <= low <= high <= |s|
      invariant forall k :: 0 <= k < low ==> s[k] < since
      invariant forall k :: high <= k < |s| ==> s[k] >= since
    {
      var mid := (low + high) / 2;
      if s[mid] < since {
        low := mid + 1;
      } else {
        high := mid;
      }
    }
    i := low;
    RecentIsSuffix(s, since, i);
  }

  /** Appending and then sorting only when the new entry is older than the one before it. */
  method Append(s: seq<Time>, t: Time) returns (r: seq<Time>)
    requires Sorted(s)
    ensures Sorted(r) && multiset(r) == multiset(s) + multiset{t} && r != []
  {
    r := s + [t];
    if |r| > 1 && t < r[|r| - 2] {
      SortSorts(Before, r);
      SortKeeps(Before, r);
      r := SortBy(Before, r);
      assert forall i, j :: 0 <= i < j < |r| ==> !Before(r[j], r[i]);
    }
  }

  /** What Prune leaves of one index: the entries at or after the cutoff, and no empty lists. */
  ghost predicate PrunedTo<K(!new)>(before: map<K, seq<Time>>, after: map<K, seq<Time>>, cutoff: Time) {
    && (forall k :: k in after ==> k in before && after[k] != [])
    && (forall k :: PrunedAt(before, after, cutoff, k))
  }

  predicate PrunedAt<K>(before: map<K, seq<Time>>, after: map<K, seq<Time>>, cutoff: Time, k: K) {
    Of(after, k) == Recent(Of(before, k), cutoff)
  }

  /** One list of an index, pruned; a list left with nothing is removed. */
  method PruneKey<K(!new, ==)>(m: map<K, seq<Time>>, k: K, cutoff: Time) returns (r: map<K, seq<Time>>)
    requires k in m && ListOk(m[k])
    ensures r.Keys <= m.Keys && (k in r ==> ListOk(r[k]))
    ensures forall x :: x in m && x != k ==> x in r && r[x] == m[x]
    ensures PrunedAt(m, r, cutoff, k)
  {
    r := m;
    var entries := m[k];
    var i := Search(entries, cutoff);
    if i == |entries| {
      r := map x | x in m && x != k :: m[x];
    } else if i > 0 {
      r := m[k := entries[i..]];
    }
  }

  /** Every list kept under some key is sorted and not empty. */
  ghost predicate EveryListOk<K(!new)>(m: map<K, seq<Time>>) {
    forall k :: k in m ==> ListOk(m[k])
  }

  ghost predicate ListOk(s: seq<Time>) {
    Sorted(s) && s != []
  }

  /** The keys already visited are pruned. */
  ghost predicate PrunedOutside<K(!new)>(m: map<K, seq<Time>>, r: map<K, seq<Time>>, cutoff: Time, todo: set<K>) {
    forall k :: k !in todo ==> PrunedAt(m, r, cutoff, k)
  }

  lemma PrunedOneMore<K(!new)>(m: map<K, seq<Time>>, before: map<K, seq<Time>>, r: map<K, seq<Time>>, cutoff: Time, todo: set<K>, k: K)
    requires PrunedOutside(m, before, cutoff, todo) && r.Keys <= before.Keys && k in before && k in m && before[k] == m[k]
    requires PrunedAt(before, r, cutoff, k)
    requires forall x :: x in before && x != k ==> x in r && r[x] == before[x]
    ensures PrunedOutside(m, r, cutoff, todo - {k})
  {
    forall x | x !in todo - {k} ensures PrunedAt(m, r, cutoff, x) {
      if x != k {
        assert PrunedAt(m, before, cutoff, x) && Of(r, x) == Of(before, x);
      }
    }
  }

  /** The loop of pruneLocked over every key of one index. */
  method PruneIndex<K(!new, ==)>(m: map<K, seq<Time>>, cutoff: Time) returns (r: map<K, seq<Time>>)
    requires EveryListOk(m)
    ensures EveryListOk(r) && PrunedTo(m, r, cutoff)
  {
    r := m;
    var todo := m.Keys;
    while todo != {}
      invariant todo <= m.Keys && r.Keys <= m.Keys && EveryListOk(r)
      invariant forall k :: k in todo ==> k in r && r[k] == m[k]
      invariant PrunedOutside(m, r, cutoff, todo)
      decreases |todo|
    {
      var k :| k in todo;
      ghost var before := r;
      r := PruneKey(r, k, cutoff);
      PrunedOneMore(m, before, r, cutoff, todo, k);
      todo := todo - {k};
    }
  }

  class MemoryHistory {
    const retention: Time
    var completions: map<Key, seq<Time>>
    var starts: map<string, seq<Time>>

    ghost predicate Valid()
      reads this
    {
      && retention > 0
      && EveryListOk(completions) && EveryListOk(starts)
    }

    /** The index as the value the guards decide over. */
    function View(): History
      reads this
    {
      History(starts, completions)
    }

    constructor (retention: Time)
      ensures Valid() && View() == NO_HISTORY
      ensures this.retention == if retention <= 0 then DEFAULT_RETENTION else retention
    {
      this.retention := if retention <= 0 then DEFAULT_RETENTION else retention;
      completions := map[];
      starts := map[];
    }

    method RecordStart(strategy: string, t: Time)
      requires Valid()
      modifies this`starts
      ensures Valid()
      ensures multiset(Of(starts, strategy)) == multiset(Of(old(starts), strategy)) + multiset{t}
      ensures forall s :: s != strategy ==> Of(starts, s) == Of(old(starts), s)
    {
      var entries := Append(Of(starts, strategy), t);
      starts := starts[strategy := entries];
    }

    method RecordCompletion(strategy: string, target: string, t: Time)
      requires Valid()
      modifies this`completions
      ensures Valid()
      ensures multiset(Of(completions, Key(strategy, target))) == multiset(Of(old(completions), Key(strategy, target))) + multiset{t}
      ensures forall k :: k != Key(strategy, target) ==> Of(completions, k) == Of(old(completions), k)
    {
      var key := Key(strategy, target);
      var entries := Append(Of(completions, key), t);
      completions := completions[key := entries];
    }

    method LastCompletion(strategy: string, target: string) returns (last: Option<Time>)
      requires Valid()
      ensures last == Guards.LastCompletion(View(), Key(strategy, target))
    {
      var entries := Of(completions, Key(strategy, target));
      if |entries| == 0 {
        return None;
      }
      LatestIsLast(entries);
      return Some(entries[|entries| - 1]);
    }

    method CompletionsSince(strategy: string, target: string, since: Time) returns (n: nat)
      requires Valid()
      ensures n == Guards.CompletionsSince(View(), Key(strategy, target), since)
    {
      var entries := Of(completions, Key(strategy, target));
      var i := Search(entries, since);
      return |entries| - i;
    }

    method StartsSince(strategy: string, since: Time) returns (n: nat)
      requires Valid()
      ensures n == Guards.StartsSince(View(), strategy, since)
    {
      var entries := Of(starts, strategy);
      var i := Search(entries, since);
      return |entries| - i;
    }

    method Prune(now: Time)
      requires Valid()
      modifies this`starts, this`completions
      ensures Valid()
      ensures PrunedHistory(old(View()), View(), now - retention)
    {
      starts := PruneIndex(starts, now - retention);
      completions := PruneIndex(completions, now - retention);
    }
  }

  // ---- When forgetting is invisible -------------------------------------------------------------

  /** Every enforced window of a configuration fits in the retention. */
  predicate FitsRetention(cfg: Config, retention: Time) {
    && (cfg.cooldown > 0 ==> cfg.cooldown <= retention + 1)
    && (cfg.maxPerHour > 0 ==> RATE_WINDOW <= retention)
    && (cfg.giveUpCount > 0 && cfg.giveUpWithin > 0 ==> cfg.giveUpWithin <= retention)
  }

  ghost predicate PrunedHistory(before: History, after: History, cutoff: Time) {
    PrunedTo(before.starts, after.starts, cutoff) && PrunedTo(before.completions, after.completions, cutoff)
  }

  /** No history, pruned at any time, answers differently at any later time. */
  ghost predicate PruneIsInvisible(cfg: Config, retention: Time) {
    forall before: History, after: History, pruned: Time, k: Key, now: Time ::
      PrunedEarlier(before, after, retention, pruned, now) ==>
        Evaluate(cfg, after, k, now) == Evaluate(cfg, before, k, now)
  }

  ghost predicate PrunedEarlier(before: History, after: History, retention: Time, pruned: Time, now: Time) {
    PrunedHistory(before, after, pruned - retention) && pruned <= now
  }

  lemma PrunedAnswersTheSame(before: History, after: History, retention: Time, pruned: Time,
                             cfg: Config, k: Key, now: Time)
    requires PrunedHistory(before, after, pruned - retention) && pruned <= now && FitsRetention(cfg, retention)
    ensures Evaluate(cfg, after, k, now) == Evaluate(cfg, before, k, now)
  {
    var cut := pruned - retention;
    forall s: string ensures SameStarts(after, before, cut, s) {
      assert PrunedAt(before.starts, after.starts, cut, s);
      RecentOfRecent(Of(before.starts, s), cut, cut);
    }
    forall x: Key ensures SameCompletions(after, before, cut, x) {
      assert PrunedAt(before.completions, after.completions, cut, x);
      RecentOfRecent(Of(before.completions, x), cut, cut);
    }
    EvaluateForgets(cfg, after, before, k, now, cut);
  }

  lemma {:induction false} RecentOfCopies(n: nat, since: Time)
    ensures Recent(seq(n, _ => 0), since) == if since <= 0 then seq(n, _ => 0) else []
  {
    if n > 0 {
      var s := seq(n, _ => 0);
      assert s[1..] == seq(n - 1, _ => 0);
      RecentOfCopies(n - 1, since);
      assert s == [0] + s[1..];
    }
  }

  /** n starts and m completions at instant 0 are all forgotten by a prune just after the retention. */
  lemma EverythingForgotten(n: nat, m: nat, retention: Time, s: string, k: Key)
    requires retention > 0
    ensures PrunedHistory(History(map[s := seq(n, _ => 0)], map[k := seq(m, _ => 0)]), NO_HISTORY, (retention + 1) - retention)
  {
    RecentOfCopies(n, 1);
    RecentOfCopies(m, 1);
  }

  /** Pruning never changes a decision if and only if every enforced window fits in the retention. */
  lemma PruneIsInvisibleIff(cfg: Config, retention: Time)
    requires retention > 0
    ensures PruneIsInvisible(cfg, retention) <==> FitsRetention(cfg, retention)
  {
    if FitsRetention(cfg, retention) {
      forall before: History, after: History, pruned: Time, k: Key, now: Time |
        PrunedEarlier(before, after, retention, pruned, now)
        ensures Evaluate(cfg, after, k, now) == Evaluate(cfg, before, k, now)
      {
        PrunedAnswersTheSame(before, after, retention, pruned, cfg, k, now);
      }
    } else {
      var k, now := Key("", ""), retention + 1;
      var n := if cfg.maxPerHour > 0 && RATE_WINDOW > retention then cfg.maxPerHour else 0;
      var m := if n > 0 then 0 else if cfg.giveUpCount > 0 then cfg.giveUpCount else 1;
      var before := History(map["" := seq(n, _ => 0)], map[k := seq(m, _ => 0)]);
      EverythingForgotten(n, m, retention, "", k);
      AllowedByCounts(cfg, NO_HISTORY, k, now);
      AllowedByCounts(cfg, before, k, now);
      RecentOfCopies(n, now - RATE_WINDOW);
      RecentOfCopies(m, now - cfg.cooldown + 1);
      RecentOfCopies(m, now - cfg.giveUpWithin);
      assert PrunedEarlier(before, NO_HISTORY, retention, retention + 1, now);
      assert Evaluate(cfg, before, k, now) != Evaluate(cfg, NO_HISTORY, k, now);
    }
  }
}
