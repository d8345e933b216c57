/** The count limit applied after every terminal write: prune in internal/engine/controller.go. */
module Pruner {
  import opened Common
  import opened Records
  import opened Guards
  import opened Sorting
  import opened Replay
  import opened Retention
  import opened Deletions
  import Sweeper

  const DEFAULT_HISTORY_LIMIT := 200

  /** By creation, the latest ahead; of two made in the same second, the greater name. */
  predicate CreatedLater(a: Stored, b: Stored) {
    if a.spec.created == b.spec.created then StringLess(b.name, a.name) else a.spec.created > b.spec.created
  }

  predicate Prunable(r: Stored, strategy: string, keep: string) {
    Terminal(r.status.state) && r.spec.strategy == strategy && r.name != keep
  }

  function Others(rs: seq<Stored>, strategy: string, keep: string): seq<Stored> {
    if rs == [] then []
    else (if Prunable(rs[0], strategy, keep) then [rs[0]] else []) + Others(rs[1..], strategy, keep)
  }

  lemma {:induction false} OthersMembers(rs: seq<Stored>, strategy: string, keep: string, r: Stored)
    ensures r in Others(rs, strategy, keep) <==> r in rs && Prunable(r, strategy, keep)
  {
    if rs != [] { OthersMembers(rs[1..], strategy, keep, r); }
  }

  lemma {:induction false} OthersSnoc(rs: seq<Stored>, r: Stored, strategy: string, keep: string)
    ensures Others(rs + [r], strategy, keep) == Others(rs, strategy, keep) + Others([r], strategy, keep)
  {
    if rs == [] {
      assert rs + [r] == [r];
    } else {
      assert (rs + [r])[1..] == rs[1..] + [r];
      OthersSnoc(rs[1..], r, strategy, keep);
      Associates(if Prunable(rs[0], strategy, keep) then [rs[0]] else [], Others(rs[1..], strategy, keep), Others([r], strategy, keep));
    }
  }

  lemma CreatedLaterIsWeakOrder()
    ensures WeakOrder(CreatedLater)
  {
    StringLessIsWeakOrder();
    forall a: Stored, b: Stored ensures CreatedLater(a, b) ==> !CreatedLater(b, a) {
      StringLessAsymmetric(a.name, b.name);
    }
    forall a: Stored, b: Stored, c: Stored | !CreatedLater(b, a) && !CreatedLater(c, b) ensures !CreatedLater(c, a) {
      assert !StringLess(a.name, b.name) && !StringLess(b.name, c.name) ==> !StringLess(a.name, c.name);
    }
  }

  /** With distinct names the order is total: pruning does not depend on the order records are listed in. */
  lemma PruneOrderIsTotal(rs: seq<Stored>, listed: seq<Stored>)
    requires Sweeper.DistinctNames(rs) && multiset(rs) == multiset(listed)
    ensures SortBy(CreatedLater, rs) == SortBy(CreatedLater, listed)
  {
    CreatedLaterIsWeakOrder();
    forall a, b | a in rs && b in rs && a != b ensures CreatedLater(a, b) || CreatedLater(b, a) {
      StringLessConnected(a.name, b.name);
    }
    SortIgnoresInputOrder(CreatedLater, rs, listed);
  }

  function Budget(limit: int): nat {
    (if limit <= 0 then DEFAULT_HISTORY_LIMIT else limit) - 1
  }

  /** The records past the limit, oldest created last; the one that just finished counts, but is never among them. */
  function Surplus(rs: seq<Stored>, strategy: string, keep: string, limit: int): seq<Stored> {
    var sorted := SortBy(CreatedLater, Others(rs, strategy, keep));
    if |sorted| <= Budget(limit) then [] else sorted[Budget(limit)..]
  }

  /** What is left once the first i of the surplus are gone. */
  function Pruned(rs: seq<Stored>, strategy: string, keep: string, limit: int, i: nat): seq<Stored>
    requires i <= |Surplus(rs, strategy, keep, limit)|
  {
    Surviving(rs, NamesOf(Surplus(rs, strategy, keep, limit)[..i]))
  }

  /** The loop that collects the candidates. */
  method CollectOthers(rs: seq<Stored>, strategy: string, keep: string) returns (terminal: seq<Stored>)
    ensures terminal == Others(rs, strategy, keep)
  {
    terminal := [];
    var i := 0;
    while i < |rs|
      invariant 0 <= i <= |rs| && terminal == Others(rs[..i], strategy, keep)
    {
      assert rs[..i + 1] == rs[..i] + [rs[i]] && [rs[i]][1..] == [];
      OthersSnoc(rs[..i], rs[i], strategy, keep);
      if Terminal(rs[i].status.state) && rs[i].spec.strategy == strategy && rs[i].name != keep {
        terminal := terminal + [rs[i]];
      }
      i := i + 1;
    }
    assert rs[..i] == rs;
  }

  /** The loop that deletes, until the API server refuses one; what is gone already needs no deleting. */
  method DeleteEach(rs: seq<Stored>, surplus: seq<Stored>, grants: nat) returns (left: seq<Stored>, err: bool)
    ensures left == Surviving(rs, NamesOf(surplus[..Min(grants, |surplus|)]))
    ensures err <==> grants < |surplus|
  {
    left := rs;
    ghost var gone := {};
    Sweeper.NothingGone(rs);
    var i := 0;
    while i < |surplus|
      invariant 0 <= i <= |surplus| && i <= grants
      invariant gone == NamesOf(surplus[..i]) && left == Surviving(rs, gone)
    {
      if i == grants {
        return left, true;
      }
      left := Surviving(left, {surplus[i].name});
      Sweeper.GoneTogether(rs, gone, {surplus[i].name});
      gone := gone + {surplus[i].name};
      assert surplus[..i + 1] == surplus[..i] + [surplus[i]];
      i := i + 1;
    }
    return left, false;
  }

  /** prune: the surplus goes, newest created first, as many as the API server grants. */
  method Prune(rs: seq<Stored>, strategy: string, keep: string, limit: int, grants: nat) returns (left: seq<Stored>, err: bool)
    ensures var n := |Surplus(rs, strategy, keep, limit)|;
      left == Pruned(rs, strategy, keep, limit, Min(grants, n)) && (err <==> grants < n)
  {
    var effective := limit;
    if effective <= 0 {
      effective := DEFAULT_HISTORY_LIMIT;
    }
    var terminal := CollectOthers(rs, strategy, keep);
    SortKeeps(CreatedLater, terminal);
    if |terminal| + 1 <= effective {
      Sweeper.NothingGone(rs);
      assert NamesOf([]) == {};
      return rs, false;
    }
    var sorted := SortBy(CreatedLater, terminal);
    left, err := DeleteEach(rs, sorted[effective - 1..], grants);
  }

  /** What comes after a surplus element in the order is surplus too. */
  lemma TailIsClosed(sorted: seq<Stored>, n: nat, r: Stored, x: Stored)
    requires n <= |sorted| && r in sorted[n..] && x in sorted && CreatedLater(r, x)
    requires SortedBy(CreatedLater, sorted)
    ensures x in sorted[n..]
  {
    var i :| n <= i < |sorted| && sorted[i] == r;
    var j :| 0 <= j < |sorted| && sorted[j] == x;
    assert CreatedLater(sorted[i], sorted[j]);
    if i == j {
      StringLessAsymmetric(r.name, x.name);
    }
    assert sorted[n..][j - n] == x;
  }

  /** What pruning takes is finished, of its strategy and not the record to keep, and with it goes everything older. */
  lemma PruneSparesTheNewest(rs: seq<Stored>, strategy: string, keep: string, limit: int, r: Stored)
    requires r in Surplus(rs, strategy, keep, limit)
    ensures r in rs && Terminal(r.status.state) && r.spec.strategy == strategy && r.name != keep
    ensures forall x :: x in Others(rs, strategy, keep) && CreatedLater(r, x) ==> x in Surplus(rs, strategy, keep, limit)
  {
    var all := Others(rs, strategy, keep);
    var sorted := SortBy(CreatedLater, all);
    CreatedLaterIsWeakOrder();
    SortKeeps(CreatedLater, all);
    SortSorts(CreatedLater, all);
    OthersMembers(rs, strategy, keep, r);
    assert r in sorted;
    forall x | x in all && CreatedLater(r, x) ensures x in Surplus(rs, strategy, keep, limit) {
      assert x in sorted;
      TailIsClosed(sorted, Budget(limit), r, x);
    }
  }

  // ---- Which records go, by counting ------------------------------------------------------------

  /** A finished record of the strategy, other than the one to keep, that was made later, or at once with a greater name. */
  predicate StaysBefore(x: Stored, r: Stored, strategy: string, keep: string) {
    && x.status.state in {Succeeded, Failed, Simulated} && x.spec.strategy == strategy && x.name != keep
    && (x.spec.created > r.spec.created || (x.spec.created == r.spec.created && StringLess(r.name, x.name)))
  }

  ghost predicate AllNamed(rs: seq<Stored>) {
    forall i, j :: 0 <= i < j < |rs| ==> rs[i].name != rs[j].name
  }

  ghost function Before(rs: seq<Stored>, r: Stored, strategy: string, keep: string): set<Stored> {
    set x | x in rs && StaysBefore(x, r, strategy, keep)
  }

  lemma {:induction false} OthersAllNamed(rs: seq<Stored>, strategy: string, keep: string)
    requires AllNamed(rs)
    ensures AllNamed(Others(rs, strategy, keep))
  {
    if rs != [] {
      var rest := Others(rs[1..], strategy, keep);
      assert forall i :: 0 <= i < |rs[1..]| ==> rs[1..][i] == rs[i + 1];
      OthersAllNamed(rs[1..], strategy, keep);
      forall i | 0 <= i < |rest| ensures rest[i].name != rs[0].name {
        OthersMembers(rs[1..], strategy, keep, rest[i]);
        assert rest[i] in rest;
        var j :| 0 <= j < |rs[1..]| && rs[1..][j] == rest[i];
        assert rs[j + 1] == rest[i];
      }
    }
  }

  /** Sorting keeps names apart. */
  lemma StillAllNamed(a: seq<Stored>, b: seq<Stored>)
    requires AllNamed(a) && multiset(a) == multiset(b)
    ensures AllNamed(b)
  {
    forall i, j | 0 <= i < j < |b| ensures b[i].name != b[j].name {
      TwiceInBag(b, i, j);
      assert b[i] in multiset(a) && b[j] in multiset(a);
      var m :| 0 <= m < |a| && a[m] == b[i];
      var n :| 0 <= n < |a| && a[n] == b[j];
      if m == n { OnceInBag(a, m); }
    }
  }

  lemma TwiceInBag(b: seq<Stored>, i: nat, j: nat)
    requires i < j < |b|
    ensures b[i] == b[j] ==> multiset(b)[b[i]] >= 2
  {
    assert b == b[..i] + [b[i]] + b[i + 1..j] + [b[j]] + b[j + 1..];
  }

  lemma OnceInBag(a: seq<Stored>, m: nat)
    requires AllNamed(a) && m < |a|
    ensures multiset(a)[a[m]] == 1
  {
    assert a == a[..m] + [a[m]] + a[m + 1..];
    assert a[m] !in a[..m] && a[m] !in a[m + 1..];
  }

  lemma {:induction false} DistinctSize(s: seq<Stored>)
    requires AllNamed(s)
    ensures |(set x | x in s)| == |s|
  {
    if s != [] {
      var n := |s| - 1;
      DistinctSize(s[..n]);
      assert (set x | x in s) == (set x | x in s[..n]) + {s[n]};
    }
  }

  /** What stands before a position of a sorted list is what the order puts there. */
  lemma StandsAfter(sorted: seq<Stored>, i: nat)
    requires i < |sorted| && SortedBy(CreatedLater, sorted) && AllNamed(sorted)
    ensures |(set x | x in sorted && CreatedLater(x, sorted[i]))| == i
  {
    var r := sorted[i];
    forall x ensures x in sorted && CreatedLater(x, r) <==> x in sorted[..i] {
      if x in sorted {
        var j :| 0 <= j < |sorted| && sorted[j] == x;
        if j < i {
          assert !CreatedLater(r, x);
          StringLessConnected(x.name, r.name);
        } else if j > i {
          assert !CreatedLater(x, r);
          assert x !in sorted[..i];
        } else {
          StringLessAsymmetric(x.name, r.name);
        }
      }
    }
    assert (set x | x in sorted && CreatedLater(x, r)) == (set x | x in sorted[..i]);
    DistinctSize(sorted[..i]);
  }

  /**
    * A finished record of the strategy, other than the one that just finished, is past the limit exactly
    * when as many as the limit allows beside that one were made later; zero or less stands for 200.
    */
  lemma SurplusIff(rs: seq<Stored>, strategy: string, keep: string, limit: int, r: Stored)
    requires AllNamed(rs)
    ensures r in Surplus(rs, strategy, keep, limit) <==>
      && r in rs && r.status.state in {Succeeded, Failed, Simulated} && r.spec.strategy == strategy && r.name != keep
      && |Before(rs, r, strategy, keep)| + 1 >= (if limit <= 0 then 200 else limit)
  {
    var all := Others(rs, strategy, keep);
    var sorted := SortBy(CreatedLater, all);
    CreatedLaterIsWeakOrder();
    SortKeeps(CreatedLater, all);
    SortSorts(CreatedLater, all);
    OthersAllNamed(rs, strategy, keep);
    StillAllNamed(all, sorted);
    OthersMembers(rs, strategy, keep, r);
    assert r in sorted <==> r in all;
    if r in sorted {
      var i :| 0 <= i < |sorted| && sorted[i] == r;
      StandsAfter(sorted, i);
      BeforeInOrder(rs, r, strategy, keep, sorted);
      PastTheBudget(sorted, i, Budget(limit));
    }
  }

  lemma BeforeInOrder(rs: seq<Stored>, r: Stored, strategy: string, keep: string, sorted: seq<Stored>)
    requires multiset(sorted) == multiset(Others(rs, strategy, keep))
    ensures Before(rs, r, strategy, keep) == (set x | x in sorted && CreatedLater(x, r))
  {
    forall x ensures x in sorted <==> x in rs && Prunable(x, strategy, keep) {
      OthersMembers(rs, strategy, keep, x);
      assert x in sorted <==> x in multiset(sorted);
    }
  }

  lemma PastTheBudget(sorted: seq<Stored>, i: nat, budget: nat)
    requires i < |sorted| && AllNamed(sorted)
    ensures sorted[i] in (if |sorted| <= budget then [] else sorted[budget..]) <==> i >= budget
  {
    if |sorted| > budget {
      if i >= budget { assert sorted[budget..][i - budget] == sorted[i]; }
      if sorted[i] in sorted[budget..] {
        var j :| 0 <= j < |sorted[budget..]| && sorted[budget..][j] == sorted[i];
        assert sorted[budget + j] == sorted[i];
      }
    }
  }

  /** The surplus goes newest first: what a refusal leaves is the oldest of it. */
  lemma SurplusIsNewestFirst(rs: seq<Stored>, strategy: string, keep: string, limit: int)
    ensures var s := Surplus(rs, strategy, keep, limit);
      forall i, j :: 0 <= i < j < |s| ==> s[i].spec.created >= s[j].spec.created
  {
    var all := Others(rs, strategy, keep);
    CreatedLaterIsWeakOrder();
    SortSorts(CreatedLater, all);
    var sorted, s := SortBy(CreatedLater, all), Surplus(rs, strategy, keep, limit);
    forall i, j | 0 <= i < j < |s| ensures s[i].spec.created >= s[j].spec.created {
      assert s[i] == sorted[Budget(limit) + i] && s[j] == sorted[Budget(limit) + j];
      assert !CreatedLater(s[j], s[i]);
    }
  }

  // ---- What the floor would have held ---------------------------------------------------------

  lemma SurplusIsListed(rs: seq<Stored>, strategy: string, keep: string, limit: int)
    ensures forall r :: r in Surplus(rs, strategy, keep, limit) ==> r in rs
  {
    forall r | r in Surplus(rs, strategy, keep, limit) ensures r in rs {
      PruneSparesTheNewest(rs, strategy, keep, limit, r);
    }
  }

  /** With distinct names, what is out of every window among the deleted is what is among their names. */
  lemma OutByName(rs: seq<Stored>, deleted: seq<Stored>, now: Time, depth: Time)
    requires Sweeper.DistinctNames(rs) && forall r :: r in deleted ==> r in rs
    ensures AllOut(rs, NamesOf(deleted), now, depth) <==> forall r :: r in deleted ==> OutOfEveryWindow(r, now, depth)
  {
    var gone := NamesOf(deleted);
    if AllOut(rs, gone, now, depth) {
      forall r | r in deleted ensures OutOfEveryWindow(r, now, depth) {
        var i :| 0 <= i < |rs| && rs[i] == r;
        assert rs[i].name in gone;
      }
    }
    if forall r :: r in deleted ==> OutOfEveryWindow(r, now, depth) {
      forall i | 0 <= i < |rs| && rs[i].name in gone ensures OutOfEveryWindow(rs[i], now, depth) {
        var r :| r in deleted && r.name == rs[i].name;
        assert rs[i] in rs;
      }
    }
  }

  /**
    * Pruning, wherever it stops, changes no later decision of any configuration whose windows fit a
    * depth, on any target, after any restart, if and only if every record it deleted is out of every
    * such window: a give-up record, or one that completed at or before now - depth (and, where the
    * depth covers the hour, started before the hour).
    */
  lemma PruneGoesUnnoticedIff(rs: seq<Stored>, strategy: string, keep: string, limit: int, i: nat, now: Time, depth: Time, retention: Time)
    requires Sweeper.DistinctNames(rs) && 1 < depth <= retention
    requires i <= |Surplus(rs, strategy, keep, limit)|
    ensures var deleted := Surplus(rs, strategy, keep, limit)[..i];
      GoesUnnoticed(rs, NamesOf(deleted), now, depth, retention) <==> forall r :: r in deleted ==> OutOfEveryWindow(r, now, depth)
  {
    var surplus := Surplus(rs, strategy, keep, limit);
    var deleted := surplus[..i];
    SurplusIsListed(rs, strategy, keep, limit);
    assert forall r :: r in deleted ==> r in surplus;
    OutByName(rs, deleted, now, depth);
    DeletionGoesUnnoticedIff(rs, NamesOf(deleted), now, depth, retention);
  }

  function Done(name: string, target: string, at: Time): Stored {
    Stored(name, Spec("s", target, [], 0, [], false, Auto, None, false, false, at),
           Status(Succeeded, 1, [], NoReason, NoMessage, Some(at), Some(at), None))
  }

  /**
    * Unlike the sweeper, prune does not ask the floor: keeping one record, the completion on target
    * "b" makes a restart forget the one on target "a" a second after it happened, inside any cooldown.
    */
  lemma PruneIgnoresTheFloor(cooldown: Time, full: History, left: History)
    requires cooldown > 2
    requires Loaded(full, TwoDone(), 0) && Loaded(left, Surviving(TwoDone(), NamesOf(Surplus(TwoDone(), "s", "r2", 1))), 0)
    ensures var cfg := Config(cooldown, 0, 0, 0);
      && Evaluate(cfg, full, Key("s", "a"), 101).CoolingDown?
      && Evaluate(cfg, left, Key("s", "a"), 101) == Allowed
  {
    OnlyTheSecondSurvives(Done("r1", "a", 100), Done("r2", "b", 101));
    var k := Key("s", "a");
    assert LoadedCompletions(full, TwoDone(), 0, k) && LoadedCompletions(left, [Done("r2", "b", 101)], 0, k);
    LoadedLatest(full, TwoDone(), k);
    LoadedLatest(left, [Done("r2", "b", 101)], k);
    CompletionsOnA();
  }

  function TwoDone(): seq<Stored> {
    [Done("r1", "a", 100), Done("r2", "b", 101)]
  }

  /** Of two finished records of a strategy, a limit of one keeps the one that just finished. */
  lemma OnlyTheSecondSurvives(a: Stored, b: Stored)
    requires Terminal(a.status.state) && Terminal(b.status.state) && a.spec.strategy == b.spec.strategy && a.name != b.name
    ensures Surplus([a, b], a.spec.strategy, b.name, 1) == [a]
    ensures Surviving([a, b], NamesOf([a])) == [b]
  {
    assert [a, b][1..] == [b] && [b][1..] == [] && [a][1..] == [];
    assert Others([b], a.spec.strategy, b.name) == [];
    assert Others([a, b], a.spec.strategy, b.name) == [a];
    assert SortBy(CreatedLater, [a]) == [a];
    assert NamesOf([a]) == {a.name};
    assert Surviving([b], {a.name}) == [b];
  }

  lemma CompletionsOnA()
    ensures CompletionsOf(TwoDone(), Key("s", "a")) == [100] && CompletionsOf([Done("r2", "b", 101)], Key("s", "a")) == []
  {
    var b := Done("r2", "b", 101);
    assert TwoDone()[1..] == [b] && [b][1..] == [];
    assert CompletionsOf([b], Key("s", "a")) == [];
  }

  /** A replay of at most one completion, not older than the cutoff. */
  lemma LoadedLatest(h: History, rs: seq<Stored>, k: Key)
    requires LoadedCompletions(h, rs, 0, k)
    ensures CompletionsOf(rs, k) == [100] ==> LastCompletion(h, k) == Some(100)
    ensures CompletionsOf(rs, k) == [] ==> LastCompletion(h, k) == None
  {
    var held := Of(h.completions, k);
    if CompletionsOf(rs, k) == [100] {
      assert [100][1..] == [];
      assert Recent([100], 0) == [100];
      SameBagIff(held, [100]);
      assert held[0] in multiset(held);
      LatestIsMax(held);
    } else if CompletionsOf(rs, k) == [] {
      SameBagIff(held, Recent([], 0));
    }
  }
}
