/** Rebuilding the guard history from stored records: internal/engine/history.go. */
module Replay {
  import opened Common
  import opened Records
  import opened Guards
  import MH = MemoryHistory

  /** A record as a list call returns it. */
  datatype Stored = Stored(name: string, spec: Spec, status: Status)

  /** When an execution counts as started: a record that never ran counts from its creation. */
  function StartedAt(r: Stored): Time {
    if r.status.startedAt.Some? then r.status.startedAt.value else r.spec.created
  }

  function KeyOf(r: Stored): Key {
    Key(r.spec.strategy, r.spec.target)
  }

  predicate ReplaysCompletion(r: Stored) {
    !r.spec.gaveUp && Terminal(r.status.state) && r.spec.target != "" && r.status.completedAt.Some?
  }

  /** What one record replays: its start ... */
  function StartOf(r: Stored, strategy: string): seq<Time> {
    if !r.spec.gaveUp && r.spec.strategy == strategy then [StartedAt(r)] else []
  }

  /** ... and its completion. */
  function CompletionOf(r: Stored, k: Key): seq<Time> {
    if ReplaysCompletion(r) && KeyOf(r) == k then [r.status.completedAt.value] else []
  }

  /** The starts a list of records replays for one strategy, in list order. */
  function StartsOf(rs: seq<Stored>, strategy: string): seq<Time> {
    if rs == [] then [] else StartOf(rs[0], strategy) + StartsOf(rs[1..], strategy)
  }

  /** The completions it replays for one strategy on one target. */
  function CompletionsOf(rs: seq<Stored>, k: Key): seq<Time> {
    if rs == [] then [] else CompletionOf(rs[0], k) + CompletionsOf(rs[1..], k)
  }

  lemma {:induction false} StartsOfSnoc(rs: seq<Stored>, r: Stored, strategy: string)
    ensures StartsOf(rs + [r], strategy) == StartsOf(rs, strategy) + StartsOf([r], strategy)
  {
    if rs == [] {
      assert rs + [r] == [r];
    } else {
      assert (rs + [r])[1..] == rs[1..] + [r];
      StartsOfSnoc(rs[1..], r, strategy);
    }
  }

  lemma {:induction false} CompletionsOfSnoc(rs: seq<Stored>, r: Stored, k: Key)
    ensures CompletionsOf(rs + [r], k) == CompletionsOf(rs, k) + CompletionsOf([r], k)
  {
    if rs == [] {
      assert rs + [r] == [r];
    } else {
      assert (rs + [r])[1..] == rs[1..] + [r];
      CompletionsOfSnoc(rs[1..], r, k);
    }
  }

  ghost predicate HoldsStarts(h: History, rs: seq<Stored>, s: string) {
    SameBag(Of(h.starts, s), StartsOf(rs, s))
  }

  ghost predicate HoldsCompletions(h: History, rs: seq<Stored>, k: Key) {
    SameBag(Of(h.completions, k), CompletionsOf(rs, k))
  }

  /** A history that holds what the records replay, and nothing else. */
  ghost predicate Holds(h: History, rs: seq<Stored>) {
    && (forall s: string :: HoldsStarts(h, rs, s))
    && (forall k: Key :: HoldsCompletions(h, rs, k))
  }

  ghost predicate LoadedStarts(h: History, rs: seq<Stored>, cutoff: Time, s: string) {
    SameBag(Of(h.starts, s), Recent(StartsOf(rs, s), cutoff))
  }

  ghost predicate LoadedCompletions(h: History, rs: seq<Stored>, cutoff: Time, k: Key) {
    SameBag(Of(h.completions, k), Recent(CompletionsOf(rs, k), cutoff))
  }

  /** ... from a cutoff onwards, after the prune that ends the load. */
  ghost predicate Loaded(h: History, rs: seq<Stored>, cutoff: Time) {
    && (forall s: string :: LoadedStarts(h, rs, cutoff, s))
    && (forall k: Key :: LoadedCompletions(h, rs, cutoff, k))
  }

  /** One history holds what another does and one more record. */
  ghost predicate Adds(before: History, after: History, r: Stored) {
    && (forall s: string :: multiset(Of(after.starts, s)) == multiset(Of(before.starts, s)) + multiset(StartsOf([r], s)))
    && (forall k: Key ::
          multiset(Of(after.completions, k)) == multiset(Of(before.completions, k)) + multiset(CompletionsOf([r], k)))
  }

  lemma HoldsOneMore(before: History, after: History, rs: seq<Stored>, r: Stored)
    requires Holds(before, rs) && Adds(before, after, r)
    ensures Holds(after, rs + [r])
  {
    forall s: string ensures HoldsStarts(after, rs + [r], s) {
      assert HoldsStarts(before, rs, s);
      StartsOfSnoc(rs, r, s);
      SameBagIff(Of(before.starts, s), StartsOf(rs, s));
      SameBagIff(Of(after.starts, s), StartsOf(rs + [r], s));
    }
    forall k: Key ensures HoldsCompletions(after, rs + [r], k) {
      assert HoldsCompletions(before, rs, k);
      CompletionsOfSnoc(rs, r, k);
      SameBagIff(Of(before.completions, k), CompletionsOf(rs, k));
      SameBagIff(Of(after.completions, k), CompletionsOf(rs + [r], k));
    }
  }

  lemma PrunedIsLoaded(full: History, pruned: History, rs: seq<Stored>, cutoff: Time)
    requires Holds(full, rs) && MH.PrunedHistory(full, pruned, cutoff)
    ensures Loaded(pruned, rs, cutoff)
  {
    forall s: string ensures LoadedStarts(pruned, rs, cutoff, s) {
      assert HoldsStarts(full, rs, s) && MH.PrunedAt(full.starts, pruned.starts, cutoff, s);
      RecentOfEqualBags(Of(full.starts, s), StartsOf(rs, s), cutoff);
    }
    forall k: Key ensures LoadedCompletions(pruned, rs, cutoff, k) {
      assert HoldsCompletions(full, rs, k) && MH.PrunedAt(full.completions, pruned.completions, cutoff, k);
      RecentOfEqualBags(Of(full.completions, k), CompletionsOf(rs, k), cutoff);
    }
  }

  lemma AddsNothing(h: History, r: Stored)
    requires r.spec.gaveUp
    ensures Adds(h, h, r)
  {
    assert [r][1..] == [];
    assert forall s: string :: StartsOf([r], s) == [];
    assert forall k: Key :: CompletionsOf([r], k) == [];
  }

  lemma AddsStartAndCompletion(before: History, after: History, r: Stored)
    requires !r.spec.gaveUp
    requires multiset(Of(after.starts, r.spec.strategy)) == multiset(Of(before.starts, r.spec.strategy)) + multiset{StartedAt(r)}
    requires forall s: string :: s != r.spec.strategy ==> Of(after.starts, s) == Of(before.starts, s)
    requires forall k: Key :: k != KeyOf(r) || !ReplaysCompletion(r) ==> Of(after.completions, k) == Of(before.completions, k)
    requires ReplaysCompletion(r) ==>
      multiset(Of(after.completions, KeyOf(r))) == multiset(Of(before.completions, KeyOf(r))) + multiset{r.status.completedAt.value}
    ensures Adds(before, after, r)
  {
    assert [r][1..] == [];
    forall s: string
      ensures multiset(Of(after.starts, s)) == multiset(Of(before.starts, s)) + multiset(StartsOf([r], s))
    {
      assert StartsOf([r], s) == if s == r.spec.strategy then [StartedAt(r)] else [];
    }
    forall k: Key
      ensures multiset(Of(after.completions, k)) == multiset(Of(before.completions, k)) + multiset(CompletionsOf([r], k))
    {
      assert CompletionsOf([r], k) == if ReplaysCompletion(r) && k == KeyOf(r) then [r.status.completedAt.value] else [];
    }
  }

  /** The body of Load's loop, which passes over give-up records. */
  method LoadOne(history: MH.MemoryHistory, r: Stored)
    requires history.Valid()
    modifies history
    ensures history.Valid() && Adds(old(history.View()), history.View(), r)
    ensures r.spec.gaveUp ==> history.View() == old(history.View())
    ensures !r.spec.gaveUp ==>
      multiset(Of(history.starts, r.spec.strategy)) == multiset(old(Of(history.starts, r.spec.strategy)))
        + multiset{if r.status.startedAt.Some? then r.status.startedAt.value else r.spec.created}
  {
    ghost var before := history.View();
    if r.spec.gaveUp {
      AddsNothing(before, r);
      return;
    }
    history.RecordStart(r.spec.strategy, StartedAt(r));
    if Terminal(r.status.state) && r.spec.target != "" && r.status.completedAt.Some? {
      history.RecordCompletion(r.spec.strategy, r.spec.target, r.status.completedAt.value);
    }
    AddsStartAndCompletion(before, history.View(), r);
  }

  lemma NothingHeld()
    ensures Holds(NO_HISTORY, [])
  {
  }

  /** Load, into the empty history of a process that has just started. */
  method Load(history: MH.MemoryHistory, rs: seq<Stored>, now: Time)
    requires history.Valid() && history.View() == NO_HISTORY
    modifies history
    ensures history.Valid()
    ensures Loaded(history.View(), rs, now - history.retention)
  {
    ghost var full := LoadAll(history, rs);
    history.Prune(now);
    PrunedIsLoaded(full, history.View(), rs, now - history.retention);
  }

  method LoadAll(history: MH.MemoryHistory, rs: seq<Stored>) returns (ghost full: History)
    requires history.Valid() && history.View() == NO_HISTORY
    modifies history
    ensures history.Valid() && full == history.View() && Holds(full, rs)
  {
    var i := 0;
    full := history.View();
    assert rs[..0] == [];
    NothingHeld();
    while i < |rs|
      invariant 0 <= i <= |rs| && history.Valid()
      invariant full == history.View() && Holds(full, rs[..i])
    {
      LoadOne(history, rs[i]);
      HoldsOneMore(full, history.View(), rs[..i], rs[i]);
      full := history.View();
      assert rs[..i + 1] == rs[..i] + [rs[i]];
      i := i + 1;
    }
    assert rs[..i] == rs;
  }
}
