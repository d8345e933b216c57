/** Which records a sweep takes, by when they finished and how many finished later: internal/engine/sweeper.go. */
module SweepRule {
  import opened Common
  import opened Records
  import opened Guards
  import opened Sorting
  import opened Replay
  import opened Retention
  import opened Sweeper

  /** A finished record and when it finished; one that does not say counts from its creation. */
  predicate FinishedAt(r: Stored, at: Time) {
    && r.status.state in {Succeeded, Failed, Simulated}
    && match r.status.completedAt
       case Some(t) => at == t
       case None => at == r.spec.created
  }

  ghost predicate FinishedSince(r: Stored, s: string, since: Time) {
    r.spec.strategy == s && exists at :: FinishedAt(r, at) && at >= since
  }

  /** The records of a strategy that finished at or after an instant. */
  ghost function Since(items: seq<Stored>, s: string, since: Time): set<nat> {
    set i: nat | i < |items| && FinishedSince(items[i], s, since)
  }

  // ---- Counting in the sorted group -------------------------------------------------------------

  function Times(g: seq<Stored>): seq<Time> {
    if g == [] then [] else [CompletedAt(g[0])] + Times(g[1..])
  }

  lemma {:induction false} TimesAppend(a: seq<Stored>, b: seq<Stored>)
    ensures Times(a + b) == Times(a) + Times(b)
  {
    if a == [] {
      assert a + b == b;
    } else {
      TimesAppend(a[1..], b);
      assert (a + b)[1..] == a[1..] + b;
      Associates([CompletedAt(a[0])], Times(a[1..]), Times(b));
    }
  }

  /** How many records of a list finished at or after an instant. */
  function CountIn(g: seq<Stored>, since: Time): nat {
    CountSince(Times(g), since)
  }

  lemma CountInAppend(a: seq<Stored>, b: seq<Stored>, since: Time)
    ensures CountIn(a + b, since) == CountIn(a, since) + CountIn(b, since)
  {
    TimesAppend(a, b);
    RecentAppend(Times(a), Times(b), since);
  }

  lemma CountInOne(r: Stored, since: Time)
    ensures CountIn([r], since) == if CompletedAt(r) >= since then 1 else 0
  {
    assert [r][1..] == [] && [CompletedAt(r)][1..] == [];
    assert Times([r]) == [CompletedAt(r)];
    assert Recent([CompletedAt(r)][1..], since) == [];
  }

  /** Rearranging a list changes no count. */
  lemma {:induction false} CountInRearranged(a: seq<Stored>, b: seq<Stored>, since: Time)
    requires multiset(a) == multiset(b)
    ensures CountIn(a, since) == CountIn(b, since)
    decreases |a|
  {
    if a == [] {
      assert |multiset(b)| == |b| == 0;
    } else {
      assert a[0] in multiset(a);
      var i :| 0 <= i < |b| && b[i] == a[0];
      Removed(a, b, i);
      CountInRearranged(a[1..], b[..i] + b[i + 1..], since);
      assert a == [a[0]] + a[1..] && b == b[..i] + ([b[i]] + b[i + 1..]);
      CountInAppend([a[0]], a[1..], since);
      CountInAppend(b[..i], [b[i]] + b[i + 1..], since);
      CountInAppend([b[i]], b[i + 1..], since);
      CountInAppend(b[..i], b[i + 1..], since);
    }
  }

  lemma Removed(a: seq<Stored>, b: seq<Stored>, i: nat)
    requires a != [] && i < |b| && b[i] == a[0] && multiset(a) == multiset(b)
    ensures multiset(a[1..]) == multiset(b[..i] + b[i + 1..])
  {
    assert a == [a[0]] + a[1..] && b == b[..i] + [b[i]] + b[i + 1..];
    assert multiset(a[1..]) == multiset(a) - multiset{a[0]};
    assert multiset(b[..i] + b[i + 1..]) == multiset(b) - multiset{b[i]};
  }

  lemma {:induction false} CountsAll(g: seq<Stored>, since: Time)
    requires forall i :: 0 <= i < |g| ==> CompletedAt(g[i]) >= since
    ensures CountIn(g, since) == |g|
  {
    if g != [] {
      CountsAll(g[1..], since);
      assert g == [g[0]] + g[1..];
      CountInAppend([g[0]], g[1..], since);
      CountInOne(g[0], since);
    }
  }

  lemma {:induction false} CountsNone(g: seq<Stored>, since: Time)
    requires forall i :: 0 <= i < |g| ==> CompletedAt(g[i]) < since
    ensures CountIn(g, since) == 0
  {
    if g != [] {
      CountsNone(g[1..], since);
      assert g == [g[0]] + g[1..];
      CountInAppend([g[0]], g[1..], since);
      CountInOne(g[0], since);
    }
  }

  lemma CountInBounded(g: seq<Stored>, since: Time)
    ensures CountIn(g, since) <= |g|
  {
    TimesLength(g);
    RecentNoLonger(Times(g), since);
  }

  lemma {:induction false} TimesLength(g: seq<Stored>)
    ensures |Times(g)| == |g|
  {
    if g != [] { TimesLength(g[1..]); }
  }

  /** The position of a record in its sorted group, between how many finished later and how many no earlier. */
  lemma PositionByCounts(g: seq<Stored>, i: nat)
    requires i < |g| && SortedBy(FinishedLater, g)
    ensures CountIn(g, CompletedAt(g[i]) + 1) <= i < CountIn(g, CompletedAt(g[i]))
  {
    var at := CompletedAt(g[i]);
    var later := at + 1;
    assert g == g[..i] + ([g[i]] + g[i + 1..]);
    forall j | 0 <= j < |g| && j != i ensures if j < i then CompletedAt(g[j]) >= at else CompletedAt(g[j]) <= at {
      if j < i { assert !FinishedLater(g[i], g[j]); } else { assert !FinishedLater(g[j], g[i]); }
    }
    CountInAppend(g[..i], [g[i]] + g[i + 1..], at);
    CountInAppend([g[i]], g[i + 1..], at);
    CountInAppend(g[..i], [g[i]] + g[i + 1..], later);
    CountInAppend([g[i]], g[i + 1..], later);
    CountInOne(g[i], at);
    CountInOne(g[i], later);
    CountsAll(g[..i], at);
    CountsNone(g[i + 1..], later);
    CountInBounded(g[..i], later);
  }

  // ---- Counting in the list ---------------------------------------------------------------------

  lemma FinishedSinceIff(r: Stored, s: string, since: Time)
    ensures FinishedSince(r, s, since) <==> Terminal(r.status.state) && r.spec.strategy == s && CompletedAt(r) >= since
  {
    if Terminal(r.status.state) { assert FinishedAt(r, CompletedAt(r)); }
  }

  lemma SinceOneMore(init: seq<Stored>, last: Stored, s: string, since: Time)
    ensures |Since(init + [last], s, since)| == |Since(init, s, since)| + (if FinishedSince(last, s, since) then 1 else 0)
  {
    var n := |init|;
    assert forall i :: 0 <= i < n ==> (init + [last])[i] == init[i];
    assert Since(init + [last], s, since) == Since(init, s, since) + (if FinishedSince(last, s, since) then {n} else {});
    assert n !in Since(init, s, since);
  }

  lemma {:induction false} GroupCounts(items: seq<Stored>, s: string, since: Time)
    ensures CountIn(Group(items, s), since) == |Since(items, s, since)|
  {
    if items != [] {
      var n := |items| - 1;
      var init, last := items[..n], items[n];
      assert init + [last] == items && [last][1..] == [];
      GroupCounts(init, s, since);
      GroupSnoc(init, last, s);
      CountInAppend(Group(init, s), Group([last], s), since);
      CountInOne(last, since);
      FinishedSinceIff(last, s, since);
      SinceOneMore(init, last, s, since);
    }
  }

  lemma SortedCounts(items: seq<Stored>, s: string, since: Time)
    ensures CountIn(NewestFirst(items, s), since) == |Since(items, s, since)|
  {
    SortKeeps(FinishedLater, Group(items, s));
    CountInRearranged(NewestFirst(items, s), Group(items, s), since);
    GroupCounts(items, s, since);
  }

  // ---- The rule ---------------------------------------------------------------------------------

  predicate TooOld(p: Policy, now: Time, at: Time) {
    p.maxAge > 0 && at < now - p.maxAge
  }

  /** Where a finished record stands among its strategy's, newest first. */
  lemma StandsAt(items: seq<Stored>, r: Stored, at: Time) returns (i: nat)
    requires r in items && FinishedAt(r, at)
    ensures var g := NewestFirst(items, r.spec.strategy); i < |g| && g[i] == r
    ensures |Since(items, r.spec.strategy, at + 1)| <= i
  {
    var g, later := NewestFirst(items, r.spec.strategy), at + 1;
    InItsGroup(items, r);
    SortedCounts(items, r.spec.strategy, later);
    i := StandsIn(g, r, at);
  }

  lemma InItsGroup(items: seq<Stored>, r: Stored)
    requires r in items && Terminal(r.status.state)
    ensures r in NewestFirst(items, r.spec.strategy) && SortedBy(FinishedLater, NewestFirst(items, r.spec.strategy))
  {
    var all := Group(items, r.spec.strategy);
    FinishedLaterIsWeakOrder();
    SortSorts(FinishedLater, all);
    SortKeeps(FinishedLater, all);
    GroupMembers(items, r.spec.strategy, r);
    assert r in multiset(all);
  }

  lemma StandsIn(g: seq<Stored>, r: Stored, at: Time) returns (i: nat)
    requires r in g && SortedBy(FinishedLater, g) && at == CompletedAt(r)
    ensures i < |g| && g[i] == r && CountIn(g, at + 1) <= i
  {
    i :| 0 <= i < |g| && g[i] == r;
    PositionByCounts(g, i);
  }

  /**
    * A finished record at or before the floor is taken if it finished longer ago than the age limit, or if
    * at least the kept number of its strategy finished strictly later.
    */
  lemma TakenWhenDue(items: seq<Stored>, p: Policy, now: Time, floor: Time, r: Stored, at: Time)
    requires r in items && FinishedAt(r, at) && at <= floor
    requires TooOld(p, now, at) || 0 < p.keepPerStrategy <= |Since(items, r.spec.strategy, at + 1)|
    ensures Candidate(items, p, now, floor, r)
  {
    var i := StandsAt(items, r, at);
    assert ChosenAt(NewestFirst(items, r.spec.strategy), p, now, floor, r, i);
  }

  /**
    * And nothing else is: what is taken is a finished record of the list, at or before the floor, past the
    * age limit or with at least the kept number of others of its strategy that finished no earlier.
    */
  lemma TakenOnlyWhenDue(items: seq<Stored>, p: Policy, now: Time, floor: Time, r: Stored)
    requires Candidate(items, p, now, floor, r)
    ensures exists at ::
      && r in items && FinishedAt(r, at) && at <= floor
      && (TooOld(p, now, at) || 0 < p.keepPerStrategy < |Since(items, r.spec.strategy, at)|)
  {
    var g, at := NewestFirst(items, r.spec.strategy), CompletedAt(r);
    var i :| ChosenAt(g, p, now, floor, r, i);
    CandidatesRespectTheFloor(items, p, now, floor, r);
    FinishedLaterIsWeakOrder();
    SortSorts(FinishedLater, Group(items, r.spec.strategy));
    PositionByCounts(g, i);
    SortedCounts(items, r.spec.strategy, at);
    assert FinishedAt(r, at);
  }

  /** Where no other record of the strategy finished at the same instant, the two meet. */
  lemma TakenIff(items: seq<Stored>, p: Policy, now: Time, floor: Time, r: Stored, at: Time)
    requires r in items && FinishedAt(r, at)
    requires |Since(items, r.spec.strategy, at)| == |Since(items, r.spec.strategy, at + 1)| + 1
    ensures Candidate(items, p, now, floor, r) <==>
      at <= floor && (TooOld(p, now, at) || 0 < p.keepPerStrategy <= |Since(items, r.spec.strategy, at + 1)|)
  {
    if Candidate(items, p, now, floor, r) {
      TakenOnlyWhenDue(items, p, now, floor, r);
    } else if at <= floor && (TooOld(p, now, at) || 0 < p.keepPerStrategy <= |Since(items, r.spec.strategy, at + 1)|) {
      TakenWhenDue(items, p, now, floor, r, at);
    }
  }
}
