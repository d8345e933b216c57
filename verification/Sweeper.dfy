/** Retention on a schedule: internal/engine/sweeper.go. */
module Sweeper {
  import opened Common
  import opened Records
  import opened Guards
  import opened Sorting
  import opened Replay
  import opened Retention

  const MAX_DELETES_PER_SWEEP := 200

  predicate FinishedLater(a: Stored, b: Stored) {
    CompletedAt(a) > CompletedAt(b)
  }

  /** The finished records of one strategy, in list order. */
  function Group(items: seq<Stored>, strategy: string): seq<Stored> {
    if items == [] then []
    else (if Terminal(items[0].status.state) && items[0].spec.strategy == strategy then [items[0]] else [])
         + Group(items[1..], strategy)
  }

  function NewestFirst(items: seq<Stored>, strategy: string): seq<Stored> {
    SortBy(FinishedLater, Group(items, strategy))
  }

  datatype Policy = Policy(maxAge: Time, keepPerStrategy: int)

  /** The record at one position of its sorted group is past what the policy keeps. */
  predicate Excess(p: Policy, now: Time, r: Stored, position: nat) {
    || (p.maxAge > 0 && CompletedAt(r) < now - p.maxAge)
    || (p.keepPerStrategy > 0 && position >= p.keepPerStrategy)
  }

  /** What a sweep may delete: past the policy, and not past the floor. */
  ghost predicate Candidate(items: seq<Stored>, p: Policy, now: Time, floor: Time, r: Stored) {
    exists i :: ChosenAt(NewestFirst(items, r.spec.strategy), p, now, floor, r, i)
  }

  predicate ChosenAt(g: seq<Stored>, p: Policy, now: Time, floor: Time, r: Stored, i: int) {
    0 <= i < |g| && g[i] == r && Excess(p, now, r, i) && CompletedAt(r) <= floor
  }

  lemma {:induction false} GroupMembers(items: seq<Stored>, strategy: string, r: Stored)
    ensures r in Group(items, strategy) <==> r in items && Terminal(r.status.state) && r.spec.strategy == strategy
  {
    if items != [] { GroupMembers(items[1..], strategy, r); }
  }

  lemma {:induction false} GroupSnoc(items: seq<Stored>, r: Stored, strategy: string)
    ensures Group(items + [r], strategy) == Group(items, strategy) + Group([r], strategy)
  {
    if items == [] {
      assert items + [r] == [r];
    } else {
      assert (items + [r])[1..] == items[1..] + [r];
      GroupSnoc(items[1..], r, strategy);
    }
  }

  function GroupIn(groups: map<string, seq<Stored>>, s: string): seq<Stored> {
    if s in groups then groups[s] else []
  }

  predicate GroupedAt(groups: map<string, seq<Stored>>, items: seq<Stored>, s: string) {
    GroupIn(groups, s) == Group(items, s)
  }

  /** A map that holds each strategy's group. */
  ghost predicate Grouped(groups: map<string, seq<Stored>>, items: seq<Stored>) {
    forall s: string :: GroupedAt(groups, items, s)
  }

  lemma GroupedOneMore(groups: map<string, seq<Stored>>, items: seq<Stored>, rem: Stored)
    requires Grouped(groups, items)
    ensures Grouped(if Terminal(rem.status.state)
                    then groups[rem.spec.strategy := GroupIn(groups, rem.spec.strategy) + [rem]] else groups,
                    items + [rem])
  {
    var after := if Terminal(rem.status.state)
                 then groups[rem.spec.strategy := GroupIn(groups, rem.spec.strategy) + [rem]] else groups;
    forall s: string ensures GroupedAt(after, items + [rem], s) {
      assert GroupedAt(groups, items, s);
      GroupSnoc(items, rem, s);
      assert [rem][1..] == [];
    }
  }

  lemma FinishedLaterIsWeakOrder()
    ensures WeakOrder(FinishedLater)
  {
  }

  /** Every candidate is finished and at or before the floor. */
  lemma CandidatesRespectTheFloor(items: seq<Stored>, p: Policy, now: Time, floor: Time, r: Stored)
    requires Candidate(items, p, now, floor, r)
    ensures r in items && Deletable(r, floor)
  {
    var g := NewestFirst(items, r.spec.strategy);
    var i :| ChosenAt(g, p, now, floor, r, i);
    SortKeeps(FinishedLater, Group(items, r.spec.strategy));
    assert g[i] in g;
    GroupMembers(items, r.spec.strategy, r);
  }

  /** The count alone never takes a record that has fewer than the kept number at least as new. */
  lemma NewestAreKept(items: seq<Stored>, p: Policy, now: Time, floor: Time, r: Stored)
    requires Candidate(items, p, now, floor, r)
    requires p.maxAge <= 0 || CompletedAt(r) >= now - p.maxAge
    ensures var g := NewestFirst(items, r.spec.strategy);
      && 0 < p.keepPerStrategy < |g|
      && multiset(g) == multiset(Group(items, r.spec.strategy))
      && (forall j :: 0 <= j < p.keepPerStrategy ==> CompletedAt(g[j]) >= CompletedAt(r))
  {
    var g := NewestFirst(items, r.spec.strategy);
    var i :| ChosenAt(g, p, now, floor, r, i);
    FinishedLaterIsWeakOrder();
    SortSorts(FinishedLater, Group(items, r.spec.strategy));
    SortKeeps(FinishedLater, Group(items, r.spec.strategy));
    forall j | 0 <= j < p.keepPerStrategy ensures CompletedAt(g[j]) >= CompletedAt(r) {
      assert j < i ==> !FinishedLater(g[i], g[j]);
    }
  }

  /** A policy takes the oldest first: with a candidate, everything of its strategy that finished before it is one. */
  lemma CandidatesAreTheOldest(items: seq<Stored>, p: Policy, now: Time, floor: Time, r: Stored, older: Stored)
    requires Candidate(items, p, now, floor, r)
    requires older in items && Terminal(older.status.state) && older.spec.strategy == r.spec.strategy
    requires CompletedAt(older) < CompletedAt(r)
    ensures Candidate(items, p, now, floor, older)
  {
    var g := NewestFirst(items, r.spec.strategy);
    var i :| ChosenAt(g, p, now, floor, r, i);
    FinishedLaterIsWeakOrder();
    SortSorts(FinishedLater, Group(items, r.spec.strategy));
    SortKeeps(FinishedLater, Group(items, r.spec.strategy));
    GroupMembers(items, r.spec.strategy, older);
    assert older in g;
    var j :| 0 <= j < |g| && g[j] == older;
    assert i < j by {
      assert FinishedLater(g[i], g[j]);
    }
    assert ChosenAt(g, p, now, floor, older, j);
  }

  // ---- The sweep ------------------------------------------------------------------------------

  /** What the API server answers to a delete. */
  datatype Reply = Deleted | NotFound | Refused

  class Sweeper {
    var records: seq<Stored>
    const policy: Policy

    constructor (records: seq<Stored>, policy: Policy)
      ensures this.records == records && this.policy == policy
    {
      this.records := records;
      this.policy := policy;
    }

    /** guardFloor, for the configurations it is given. */
    method GuardFloor(strategies: seq<Config>, now: Time) returns (floor: Time)
      ensures floor == now - (LongestWindow(strategies) + FLOOR_MARGIN)
    {
      var longest := 0;
      var i := 0;
      while i < |strategies|
        invariant 0 <= i <= |strategies|
        invariant longest == LongestWindow(strategies[..i])
      {
        var guards := strategies[i];
        assert strategies[..i + 1][..i] == strategies[..i];
        LongestWindowNonNegative(strategies[..i]);
        if guards.cooldown > longest {
          longest := guards.cooldown;
        }
        if guards.maxPerHour > 0 && RATE_WINDOW > longest {
          longest := RATE_WINDOW;
        }
        if guards.giveUpWithin > longest {
          longest := guards.giveUpWithin;
        }
        i := i + 1;
      }
      assert strategies[..i] == strategies;
      return now - (longest + FLOOR_MARGIN);
    }

    /** The first loop of candidates: finished work, by strategy. */
    method ByStrategy(items: seq<Stored>) returns (groups: map<string, seq<Stored>>)
      ensures Grouped(groups, items)
    {
      groups := map[];
      var i := 0;
      while i < |items|
        invariant 0 <= i <= |items|
        invariant Grouped(groups, items[..i])
      {
        var rem := items[i];
        ghost var before := groups;
        if Terminal(rem.status.state) {
          groups := groups[rem.spec.strategy := GroupIn(groups, rem.spec.strategy) + [rem]];
        }
        assert items[..i + 1] == items[..i] + [rem];
        GroupedOneMore(before, items[..i], rem);
        i := i + 1;
      }
      assert items[..i] == items;
    }

    /** The inner loop of candidates over one sorted group. */
    method FromGroup(g: seq<Stored>, now: Time, floor: Time) returns (out: seq<Stored>)
      ensures forall r :: r in out <==> exists i :: ChosenAt(g, policy, now, floor, r, i)
    {
      out := [];
      var i := 0;
      while i < |g|
        invariant 0 <= i <= |g|
        invariant forall r :: r in out ==> exists j :: 0 <= j < i && ChosenAt(g, policy, now, floor, r, j)
        invariant forall j :: 0 <= j < i && ChosenAt(g, policy, now, floor, g[j], j) ==> g[j] in out
      {
        var rem := g[i];
        var tooOld := policy.maxAge > 0 && CompletedAt(rem) < now - policy.maxAge;
        var tooMany := policy.keepPerStrategy > 0 && i >= policy.keepPerStrategy;
        if tooOld || tooMany {
          // Past the floor nothing is chosen, whatever the policy says.
          if CompletedAt(rem) <= floor {
            assert ChosenAt(g, policy, now, floor, rem, i);
            out := out + [rem];
          }
        }
        i := i + 1;
      }
    }

    method Candidates(items: seq<Stored>, now: Time, floor: Time) returns (out: seq<Stored>)
      ensures forall r :: r in out <==> Candidate(items, policy, now, floor, r)
    {
      var groups := ByStrategy(items);
      out := [];
      var todo := groups.Keys;
      while todo != {}
        invariant todo <= groups.Keys
        invariant forall r :: r in out <==>
          r.spec.strategy in groups && r.spec.strategy !in todo && Candidate(items, policy, now, floor, r)
        decreases |todo|
      {
        var s :| s in todo;
        var g := SortBy(FinishedLater, groups[s]);
        var chosen := FromGroup(g, now, floor);
        assert GroupedAt(groups, items, s);
        assert g == NewestFirst(items, s);
        forall r ensures r in chosen <==> r.spec.strategy == s && Candidate(items, policy, now, floor, r) {
          if r in chosen {
            SortKeeps(FinishedLater, Group(items, s));
            var i :| ChosenAt(g, policy, now, floor, r, i);
            assert g[i] in g;
            GroupMembers(items, s, r);
          }
        }
        out := out + chosen;
        todo := todo - {s};
      }
      forall r | Candidate(items, policy, now, floor, r) ensures r in out {
        CandidatesRespectTheFloor(items, policy, now, floor, r);
        GroupMembers(items, r.spec.strategy, r);
        assert GroupedAt(groups, items, r.spec.strategy);
      }
    }

    /** A delete, with the answer the API server gives: refused, or the record does not exist afterwards. */
    method Delete(name: string, reply: Reply)
      modifies this`records
      ensures records == if reply == Refused then old(records) else Surviving(old(records), {name})
    {
      if reply != Refused {
        records := Surviving(records, {name});
      }
    }

    /** The loop that deletes, in the order given, up to the limit of one sweep or the first refusal. */
    method DeleteEach(candidates: seq<Stored>, replies: seq<Reply>) returns (err: bool, deleted: nat, ghost asked: nat)
      modifies this`records
      ensures asked <= |candidates| && records == Surviving(old(records), NamesOf(candidates[..asked]))
      ensures StopsWhere(replies, |candidates|, err, deleted, asked)
    {
      ghost var all := records;
      NothingGone(all);
      assert NamesOf(candidates[..0]) == {};
      deleted := 0;
      var n := 0;
      while n < |candidates|
        invariant 0 <= n <= |candidates| && WentOn(replies, deleted, n)
        invariant records == Surviving(all, NamesOf(candidates[..n]))
      {
        if deleted >= MAX_DELETES_PER_SWEEP {
          return false, deleted, n;
        }
        var reply := ReplyTo(replies, n);
        Delete(candidates[n].name, reply);
        if reply == Refused {
          return true, deleted, n;
        }
        OneMoreGone(all, candidates, n);
        WentOnOnce(replies, deleted, n);
        if reply == Deleted {
          deleted := deleted + 1;
        }
        n := n + 1;
      }
      return false, deleted, n;
    }

    /** Sweep once: everything deleted is a candidate, at most 200 of them, all of them if it got to the end. */
    method Sweep(strategies: seq<Config>, now: Time, replies: seq<Reply>)
      returns (err: bool, deleted: nat, ghost gone: set<string>, ghost asked: nat, ghost due: nat)
      requires DistinctNames(records)
      modifies this`records
      ensures var floor := now - (LongestWindow(strategies) + FLOOR_MARGIN);
        && (forall r :: r in old(records) && r.name in gone ==> Candidate(old(records), policy, now, floor, r))
        && (asked == due ==> forall r :: Candidate(old(records), policy, now, floor, r) ==> r.name in gone)
      ensures records == Surviving(old(records), gone)
      ensures asked <= due && StopsWhere(replies, due, err, deleted, asked)
    {
      ghost var all := records;
      var floor := GuardFloor(strategies, now);
      var candidates := Candidates(records, now, floor);
      due := |candidates|;
      err, deleted, asked := DeleteEach(candidates, replies);
      gone := NamesOf(candidates[..asked]);
      forall r | r in all && r.name in gone ensures Candidate(all, policy, now, floor, r) {
        var c :| c in candidates[..asked] && c.name == r.name;
        assert c in candidates;
        CandidatesRespectTheFloor(all, policy, now, floor, c);
      }
      if asked == due {
        assert candidates[..asked] == candidates;
      }
    }
  }

  lemma OneMoreGone(all: seq<Stored>, candidates: seq<Stored>, n: nat)
    requires n < |candidates|
    ensures Surviving(Surviving(all, NamesOf(candidates[..n])), {candidates[n].name}) == Surviving(all, NamesOf(candidates[..n + 1]))
  {
    GoneTogether(all, NamesOf(candidates[..n]), {candidates[n].name});
    assert candidates[..n + 1] == candidates[..n] + [candidates[n]];
    assert NamesOf(candidates[..n + 1]) == NamesOf(candidates[..n]) + {candidates[n].name};
  }

  /** The answer to one of the deletes, in order; what is not said is granted. */
  function ReplyTo(replies: seq<Reply>, n: nat): Reply {
    if n < |replies| then replies[n] else Deleted
  }

  /** How many of the first deletes found something to delete. */
  function Granted(replies: seq<Reply>, n: nat): nat {
    if n == 0 then 0 else Granted(replies, n - 1) + (if ReplyTo(replies, n - 1) == Deleted then 1 else 0)
  }

  /** So many deletes without a refusal, the last of them not past the limit. */
  ghost predicate WentOn(replies: seq<Reply>, deleted: nat, asked: nat) {
    && (forall n: nat :: n < asked ==> ReplyTo(replies, n) != Refused)
    && deleted == Granted(replies, asked) <= 200
    && (deleted == 200 && asked > 0 ==> Granted(replies, asked - 1) < 200)
  }

  lemma WentOnOnce(replies: seq<Reply>, deleted: nat, n: nat)
    requires WentOn(replies, deleted, n) && deleted < 200 && ReplyTo(replies, n) != Refused
    ensures WentOn(replies, deleted + (if ReplyTo(replies, n) == Deleted then 1 else 0), n + 1)
  {
  }

  /**
    * Where a sweep that has so many records to delete stops: with an error at the first delete that is
    * refused, or when it has deleted 200, or at the end, whichever comes first.
    */
  ghost predicate StopsWhere(replies: seq<Reply>, due: nat, err: bool, deleted: nat, asked: nat) {
    && WentOn(replies, deleted, asked)
    && (err <==> asked < due && deleted < 200 && ReplyTo(replies, asked) == Refused)
    && (asked < due ==> err || deleted == 200)
  }

  ghost predicate DistinctNames(rs: seq<Stored>) {
    forall a, b :: a in rs && b in rs && a.name == b.name ==> a == b
  }

  lemma {:induction false} NothingGone(rs: seq<Stored>)
    ensures Surviving(rs, {}) == rs
  {
    if rs != [] { NothingGone(rs[1..]); }
  }

  lemma {:induction false} GoneTogether(rs: seq<Stored>, a: set<string>, b: set<string>)
    ensures Surviving(Surviving(rs, a), b) == Surviving(rs, a + b)
  {
    if rs != [] {
      GoneTogether(rs[1..], a, b);
      if rs[0].name !in a {
        assert ([rs[0]] + Surviving(rs[1..], a))[1..] == Surviving(rs[1..], a);
      } else {
        assert [] + Surviving(rs[1..], a) == Surviving(rs[1..], a);
      }
    }
  }

  /** What Sweep deletes respects the floor, so no later decision of any strategy can notice. */
  lemma SweptRecordsRespectTheFloor(rs: seq<Stored>, gone: set<string>, p: Policy, now: Time, floor: Time)
    requires forall r :: r in rs && r.name in gone ==> Candidate(rs, p, now, floor, r)
    requires forall r :: r in rs ==> StartsBeforeItEnds(r)
    ensures FloorRespected(rs, gone, floor)
  {
    forall i | 0 <= i < |rs| && rs[i].name in gone ensures Deletable(rs[i], floor) && StartsBeforeItEnds(rs[i]) {
      CandidatesRespectTheFloor(rs, p, now, floor, rs[i]);
    }
  }

  /** A sweep, a restart and a replay: every later guard decision is what it would have been. */
  lemma SweepThenRestart(strategies: seq<Config>, cfg: Config, p: Policy, c: Scenario)
    requires forall r :: r in c.records ==> StartsBeforeItEnds(r)
    requires forall r :: r in c.records && r.name in c.gone ==>
      Candidate(c.records, p, c.swept, c.swept - (LongestWindow(strategies) + FLOOR_MARGIN), r)
    requires Loaded(c.full, c.records, c.cutoff) && Loaded(c.left, Surviving(c.records, c.gone), c.cutoff)
    requires c.swept <= c.later
    requires cfg in strategies || WithinMargin(cfg, LongestWindow(strategies))
    ensures Evaluate(cfg, c.left, c.k, c.later) == Evaluate(cfg, c.full, c.k, c.later)
  {
    var floor := c.swept - (LongestWindow(strategies) + FLOOR_MARGIN);
    SweptRecordsRespectTheFloor(c.records, c.gone, p, c.swept, floor);
    SweepSparesEveryStrategy(strategies, cfg, c);
  }
}
