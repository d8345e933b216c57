/** What the guards decide after a restart, by what the stored records say: internal/engine/history.go. */
module Reload {
  import opened Common
  import opened Records
  import opened Guards
  import opened Replay
  import opened Retention

  /** An execution that began at or after an instant; one that never began counts from its creation. */
  predicate BeganSince(r: Stored, s: string, since: Time) {
    && !r.spec.gaveUp && r.spec.strategy == s
    && match r.status.startedAt
       case Some(began) => began >= since
       case None => r.spec.created >= since
  }

  /** An execution on a target that ended at or after an instant, however it ended. */
  predicate EndedSince(r: Stored, k: Key, since: Time) {
    && !r.spec.gaveUp && r.spec.strategy == k.strategy && r.spec.target == k.target && k.target != ""
    && r.status.state in {Succeeded, Failed, Simulated}
    && r.status.completedAt.Some? && r.status.completedAt.value >= since
  }

  ghost function Began(rs: seq<Stored>, s: string, since: Time): set<nat> {
    set i: nat | i < |rs| && BeganSince(rs[i], s, since)
  }

  ghost function Ended(rs: seq<Stored>, k: Key, since: Time): set<nat> {
    set i: nat | i < |rs| && EndedSince(rs[i], k, since)
  }

  lemma BeganOneMore(init: seq<Stored>, last: Stored, s: string, since: Time)
    ensures |Began(init + [last], s, since)| == |Began(init, s, since)| + (if BeganSince(last, s, since) then 1 else 0)
  {
    var n := |init|;
    assert forall i :: 0 <= i < n ==> (init + [last])[i] == init[i];
    assert Began(init + [last], s, since) == Began(init, s, since) + (if BeganSince(last, s, since) then {n} else {});
    assert n !in Began(init, s, since);
  }

  lemma EndedOneMore(init: seq<Stored>, last: Stored, k: Key, since: Time)
    ensures |Ended(init + [last], k, since)| == |Ended(init, k, since)| + (if EndedSince(last, k, since) then 1 else 0)
  {
    var n := |init|;
    assert forall i :: 0 <= i < n ==> (init + [last])[i] == init[i];
    assert Ended(init + [last], k, since) == Ended(init, k, since) + (if EndedSince(last, k, since) then {n} else {});
    assert n !in Ended(init, k, since);
  }

  lemma StartsOneMore(init: seq<Stored>, last: Stored, s: string, since: Time)
    ensures CountSince(StartsOf(init + [last], s), since) == CountSince(StartsOf(init, s), since) + (if BeganSince(last, s, since) then 1 else 0)
  {
    StartsOfSnoc(init, last, s);
    RecentAppend(StartsOf(init, s), StartsOf([last], s), since);
    OneStart(last, s, since);
  }

  lemma CompletionsOneMore(init: seq<Stored>, last: Stored, k: Key, since: Time)
    ensures CountSince(CompletionsOf(init + [last], k), since) ==
      CountSince(CompletionsOf(init, k), since) + (if EndedSince(last, k, since) then 1 else 0)
  {
    CompletionsOfSnoc(init, last, k);
    RecentAppend(CompletionsOf(init, k), CompletionsOf([last], k), since);
    OneCompletion(last, k, since);
  }

  lemma {:induction false} StartsAreCounted(rs: seq<Stored>, s: string, since: Time)
    ensures CountSince(StartsOf(rs, s), since) == |Began(rs, s, since)|
  {
    if rs != [] {
      var n := |rs| - 1;
      assert rs[..n] + [rs[n]] == rs;
      StartsAreCounted(rs[..n], s, since);
      StartsOneMore(rs[..n], rs[n], s, since);
      BeganOneMore(rs[..n], rs[n], s, since);
    }
  }

  lemma OneStart(r: Stored, s: string, since: Time)
    ensures CountSince(StartsOf([r], s), since) == if BeganSince(r, s, since) then 1 else 0
  {
    assert [r][1..] == [];
    assert StartsOf([r], s) == StartOf(r, s);
    var at := StartedAt(r);
    assert [at][1..] == [] && Recent([at][1..], since) == [];
  }

  lemma {:induction false} CompletionsAreCounted(rs: seq<Stored>, k: Key, since: Time)
    ensures CountSince(CompletionsOf(rs, k), since) == |Ended(rs, k, since)|
  {
    if rs != [] {
      var n := |rs| - 1;
      assert rs[..n] + [rs[n]] == rs;
      CompletionsAreCounted(rs[..n], k, since);
      CompletionsOneMore(rs[..n], rs[n], k, since);
      EndedOneMore(rs[..n], rs[n], k, since);
    }
  }

  lemma OneCompletion(r: Stored, k: Key, since: Time)
    ensures CountSince(CompletionsOf([r], k), since) == if EndedSince(r, k, since) then 1 else 0
  {
    assert [r][1..] == [];
    assert CompletionsOf([r], k) == CompletionOf(r, k);
    if r.status.completedAt.Some? {
      var at := r.status.completedAt.value;
      assert [at][1..] == [] && Recent([at][1..], since) == [];
    }
  }

  /**
    * After a load, the executions the index counts since any instant it remembers are those of the
    * stored records that began, or ended, at or after it.
    */
  lemma LoadedCounts(h: History, rs: seq<Stored>, cutoff: Time, k: Key, since: Time)
    requires Loaded(h, rs, cutoff) && since >= cutoff
    ensures StartsSince(h, k.strategy, since) == |Began(rs, k.strategy, since)|
    ensures CompletionsSince(h, k, since) == |Ended(rs, k, since)|
  {
    assert LoadedStarts(h, rs, cutoff, k.strategy) && LoadedCompletions(h, rs, cutoff, k);
    LoadedStartCounts(h, rs, cutoff, k.strategy, since);
    LoadedCompletionCounts(h, rs, cutoff, k, since);
    StartsAreCounted(rs, k.strategy, since);
    CompletionsAreCounted(rs, k, since);
  }

  /** Every window a configuration enforces lies in what the index remembers. */
  predicate Remembers(cfg: Config, now: Time, cutoff: Time) {
    && (cfg.cooldown > 0 ==> now - cfg.cooldown + 1 >= cutoff)
    && (cfg.maxPerHour > 0 ==> now - 3600 >= cutoff)
    && (cfg.giveUpCount > 0 && cfg.giveUpWithin > 0 ==> now - cfg.giveUpWithin >= cutoff)
  }

  /**
    * What the guards allow after a load, by the stored records alone: nothing ended on this target within
    * the cooldown, fewer than the limit began within the hour, and fewer than the count ended on this
    * target within the give-up window.
    */
  lemma LoadedGuardsAllowIff(cfg: Config, h: History, rs: seq<Stored>, cutoff: Time, k: Key, now: Time)
    requires Loaded(h, rs, cutoff) && Remembers(cfg, now, cutoff)
    ensures Evaluate(cfg, h, k, now) == Allowed <==>
      && (cfg.cooldown > 0 ==> forall i :: 0 <= i < |rs| ==> !EndedSince(rs[i], k, now - cfg.cooldown + 1))
      && (cfg.maxPerHour > 0 ==> |Began(rs, k.strategy, now - 3600)| < cfg.maxPerHour)
      && (cfg.giveUpCount > 0 && cfg.giveUpWithin > 0 ==> |Ended(rs, k, now - cfg.giveUpWithin)| < cfg.giveUpCount)
  {
    var cooling, hour, giving := now - cfg.cooldown + 1, now - 3600, now - cfg.giveUpWithin;
    AllowedByCounts(cfg, h, k, now);
    if cfg.cooldown > 0 {
      LoadedCounts(h, rs, cutoff, k, cooling);
      assert |Ended(rs, k, cooling)| == 0 <==> forall i :: 0 <= i < |rs| ==> !EndedSince(rs[i], k, cooling) by {
        if i :| 0 <= i < |rs| && EndedSince(rs[i], k, cooling) {
          assert i in Ended(rs, k, cooling);
        }
      }
    }
    if cfg.maxPerHour > 0 { LoadedCounts(h, rs, cutoff, k, hour); }
    if cfg.giveUpCount > 0 && cfg.giveUpWithin > 0 { LoadedCounts(h, rs, cutoff, k, giving); }
  }
}
