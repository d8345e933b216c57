/** From an alert to a record: internal/engine/sink.go. */
module Sink {
  import opened Common
  import opened Records
  import opened Guards
  import opened Replay
  import Matching

  const DEFAULT_APPROVAL_TIMEOUT: Time := 900

  datatype Strategy = Strategy(
    rule: Matching.Rule,
    guards: Config,
    mode: Mode,
    approvalTimeout: Option<Time>,
    steps: seq<string>,
    retries: nat,
    escalation: seq<string>,
    firstSuccess: bool)

  datatype Acting = Unset | Live | DryRun

  /** How the cluster is treated, and the namespaces that differ. */
  datatype Posture = Posture(everywhere: Acting, overrides: map<string, Acting>)

  /** Whether a target there is only simulated; what nobody configured is. */
  function DryRunFor(p: Posture, namespace: string): bool {
    if namespace != "" && namespace in p.overrides then p.overrides[namespace] == DryRun else p.everywhere != Live
  }

  /** One alert of a delivery, with everything about it that is decided elsewhere. */
  datatype Delivery = Delivery(
    firing: bool,
    labels: Matching.Labels,
    strategies: seq<Strategy>,    // one list, shared by all its alerts
    target: string,               // resolved from the chosen strategy's first step; "" when it cannot be
    namespace: string,            // the target's; "" when it has none
    posture: Posture,             // where remediations act, and where they are simulated
    paused: bool,                 // everything is simulated for the time being
    blastAllows: bool,            // the blast-radius guard, which reads the cluster
    creates: bool,                // whether the API server accepts a create
    name: string,                 // the name it generates
    now: Time)

  datatype Outcome =
    | Ignored
    | Unmatched
    | RefusedManual
    | RefusedByGuard(verdict: Verdict)
    | RefusedByBlastRadius
    | AlreadyGaveUp
    | GivesUp(s: Strategy)
    | Creates(s: Strategy)

  function Rules(strategies: seq<Strategy>): (r: seq<Matching.Rule>)
    ensures |r| == |strategies| && forall i :: 0 <= i < |r| ==> r[i] == strategies[i].rule
  {
    if strategies == [] then [] else [strategies[0].rule] + Rules(strategies[1..])
  }

  /** byName: the last strategy listed under a name. */
  function Named(strategies: seq<Strategy>, name: string): Option<Strategy> {
    if strategies == [] then None
    else
      var last := strategies[|strategies| - 1];
      if last.rule.name == name then Some(last) else Named(strategies[..|strategies| - 1], name)
  }

  lemma {:induction false} NamedFinds(strategies: seq<Strategy>, i: nat)
    requires i < |strategies|
    ensures Named(strategies, strategies[i].rule.name).Some?
  {
    var n := |strategies| - 1;
    if i < n && strategies[n].rule.name != strategies[i].rule.name {
      NamedFinds(strategies[..n], i);
      assert strategies[..n][i] == strategies[i];
    }
  }

  /** Some give-up record of this key was made at or after the cutoff. */
  predicate GaveUpSince(rs: seq<Stored>, k: Key, cutoff: Time) {
    exists i :: 0 <= i < |rs| && rs[i].spec.gaveUp && KeyOf(rs[i]) == k && rs[i].spec.created >= cutoff
  }

  /** Everything consumeOne decides, before anything is written. */
  function Decide(d: Delivery, h: History, rs: seq<Stored>): Outcome {
    if !d.firing then Ignored
    else
      match Matching.Selected(d.labels, Rules(d.strategies))
      case None => Unmatched
      case Some(rule) =>
        match Named(d.strategies, rule.name)
        case None => Unmatched
        case Some(s) =>
          var k := Key(rule.name, d.target);
          if s.mode == Manual then RefusedManual
          else
            match Evaluate(s.guards, h, k, d.now)
            case Allowed => if d.blastAllows then Creates(s) else RefusedByBlastRadius
            case GivenUp(_, _) =>
              if GaveUpSince(rs, k, d.now - s.guards.giveUpWithin) then AlreadyGaveUp else GivesUp(s)
            case verdict => RefusedByGuard(verdict)
  }

  /** The instant a gate closes, fixed when the record is made. */
  function ApprovalDeadline(s: Strategy, now: Time): Time {
    now + if s.approvalTimeout.Some? && s.approvalTimeout.value > 0 then s.approvalTimeout.value else DEFAULT_APPROVAL_TIMEOUT
  }

  function NewRecord(d: Delivery, s: Strategy): Stored {
    Stored(d.name,
           Spec(s.rule.name, d.target, s.steps, s.retries, s.escalation, s.firstSuccess, s.mode,
                if s.mode == Approval then Some(ApprovalDeadline(s, d.now)) else None,
                DryRunFor(d.posture, d.namespace) || d.paused, false, d.now),
           EMPTY_STATUS)
  }

  /** A record with nothing to execute but the fallback plan. */
  function GiveUpRecord(d: Delivery, s: Strategy): Stored {
    Stored(d.name,
           Spec(s.rule.name, d.target, [], 0, s.escalation, s.firstSuccess, s.mode, None, false, true, d.now),
           EMPTY_STATUS)
  }

  /** The records after one alert. */
  function Deliver(d: Delivery, h: History, rs: seq<Stored>): seq<Stored> {
    match Decide(d, h, rs)
    case Creates(s) => if d.creates then rs + [NewRecord(d, s)] else rs
    case GivesUp(s) => if d.creates then rs + [GiveUpRecord(d, s)] else rs
    case _ => rs
  }

  predicate RecordsStart(d: Delivery, o: Outcome) {
    o.Creates? && d.creates
  }

  /** The loop of gaveUpRecently. */
  method GaveUpRecently(rs: seq<Stored>, k: Key, cutoff: Time) returns (already: bool)
    ensures already == GaveUpSince(rs, k, cutoff)
  {
    var i := 0;
    while i < |rs|
      invariant 0 <= i <= |rs| && !GaveUpSince(rs[..i], k, cutoff)
    {
      if rs[i].spec.gaveUp && KeyOf(rs[i]) == k && rs[i].spec.created >= cutoff {
        return true;
      }
      assert rs[..i + 1] == rs[..i] + [rs[i]];
      i := i + 1;
    }
    assert rs[..i] == rs;
    return false;
  }

  /** One start more for one strategy, and nothing else. */
  ghost predicate StartRecorded(before: map<string, seq<Time>>, after: map<string, seq<Time>>, s: string, at: Time) {
    && multiset(Of(after, s)) == multiset(Of(before, s)) + multiset{at}
    && forall x: string :: x != s ==> Of(after, x) == Of(before, x)
  }

  class Sink {
    var records: seq<Stored>
    const history: MH.MemoryHistory

    constructor (records: seq<Stored>, history: MH.MemoryHistory)
      ensures this.records == records && this.history == history
    {
      this.records := records;
      this.history := history;
    }

    /** One alert: at most one record, and a start recorded only for one that will execute something. */
    method ConsumeOne(d: Delivery) returns (o: Outcome)
      requires history.Valid()
      modifies this`records, history
      ensures history.Valid() && o == Decide(d, old(history.View()), old(records))
      ensures records == Deliver(d, old(history.View()), old(records))
      ensures history.completions == old(history.completions)
      ensures if RecordsStart(d, o) then StartRecorded(old(history.starts), history.starts, o.s.rule.name, d.now)
              else history.starts == old(history.starts)
    {
      if !d.firing {
        return Ignored;
      }
      var rule := Matching.Select(d.labels, Rules(d.strategies));
      if rule.None? {
        return Unmatched;
      }
      var name := rule.value.name;
      var found := Named(d.strategies, name);
      if found.None? {
        return Unmatched;
      }
      var s := found.value;
      NamedIsNamed(d.strategies, name);
      if s.mode == Manual {
        return RefusedManual;
      }
      var verdict := Evaluate(s.guards, history.View(), Key(name, d.target), d.now);
      if verdict == Allowed && !d.blastAllows {
        return RefusedByBlastRadius;
      }
      if verdict != Allowed {
        if verdict.GivenUp? {
          o := RecordGiveUp(d, s, Key(name, d.target));
          return;
        }
        return RefusedByGuard(verdict);
      }
      Create(d, s);
      return Creates(s);
    }

    /** create: the record, and then its start. */
    method Create(d: Delivery, s: Strategy)
      requires history.Valid()
      modifies this`records, history
      ensures history.Valid() && history.completions == old(history.completions)
      ensures records == if d.creates then old(records) + [NewRecord(d, s)] else old(records)
      ensures if d.creates then StartRecorded(old(history.starts), history.starts, s.rule.name, d.now)
              else history.starts == old(history.starts)
    {
      if d.creates {
        records := records + [NewRecord(d, s)];
        history.RecordStart(s.rule.name, d.now);
      }
    }

    /** recordGiveUp: a record unless there is one inside the window, and no start either way. */
    method RecordGiveUp(d: Delivery, s: Strategy, k: Key) returns (o: Outcome)
      modifies this`records
      ensures var already := GaveUpSince(old(records), k, d.now - s.guards.giveUpWithin);
        && o == (if already then AlreadyGaveUp else GivesUp(s))
        && records == if !already && d.creates then old(records) + [GiveUpRecord(d, s)] else old(records)
    {
      var already := GaveUpRecently(records, k, d.now - s.guards.giveUpWithin);
      if already {
        return AlreadyGaveUp;
      }
      if d.creates {
        records := records + [GiveUpRecord(d, s)];
      }
      return GivesUp(s);
    }
  }

  lemma {:induction false} NamedIsNamed(strategies: seq<Strategy>, name: string)
    ensures Named(strategies, name).Some? ==> Named(strategies, name).value.rule.name == name
  {
    if strategies != [] { NamedIsNamed(strategies[..|strategies| - 1], name); }
  }

  lemma {:induction false} NamedMember(strategies: seq<Strategy>, name: string)
    ensures Named(strategies, name).Some? ==> Named(strategies, name).value in strategies
  {
    if strategies != [] {
      NamedMember(strategies[..|strategies| - 1], name);
    }
  }

  /** The strategy a record was made for: the best match for the alert, and one that may act. */
  ghost predicate AdmittedBy(d: Delivery, h: History, rs: seq<Stored>, r: Stored, s: Strategy) {
    && d.firing && s in d.strategies && r.spec.strategy == s.rule.name && s.mode != Manual
    && Matching.Fits(d.labels, s.rule)
    && (forall other :: other in d.strategies && Matching.Fits(d.labels, other.rule) ==> |other.rule.matchers| <= |s.rule.matchers|)
    && var verdict := Evaluate(s.guards, h, Key(s.rule.name, d.target), d.now);
       if r.spec.gaveUp then verdict.GivenUp? && !GaveUpSince(rs, KeyOf(r), d.now - s.guards.giveUpWithin)
       else verdict == Allowed && d.blastAllows
  }

  lemma NamedIsSelected(d: Delivery) returns (s: Strategy)
    requires Matching.DistinctNames(Rules(d.strategies))
    requires Matching.Selected(d.labels, Rules(d.strategies)).Some?
    ensures var rule := Matching.Selected(d.labels, Rules(d.strategies)).value;
      Named(d.strategies, rule.name) == Some(s) && s in d.strategies && s.rule == rule && Matching.Fits(d.labels, rule)
  {
    var rules := Rules(d.strategies);
    Matching.SelectedIsBest(d.labels, rules);
    var rule := Matching.Selected(d.labels, rules).value;
    var i :| 0 <= i < |rules| && rules[i] == rule;
    NamedFinds(d.strategies, i);
    NamedIsNamed(d.strategies, rule.name);
    NamedMember(d.strategies, rule.name);
    s := Named(d.strategies, rule.name).value;
    var j :| 0 <= j < |d.strategies| && d.strategies[j] == s;
    assert rules[j] == s.rule && rules[j] in rules && rule in rules;
  }

  lemma NoneMatchesBetter(d: Delivery, s: Strategy, other: Strategy)
    requires Matching.DistinctNames(Rules(d.strategies))
    requires Matching.Selected(d.labels, Rules(d.strategies)) == Some(s.rule)
    requires other in d.strategies && Matching.Fits(d.labels, other.rule)
    ensures |other.rule.matchers| <= |s.rule.matchers|
  {
    Matching.SelectedIsBest(d.labels, Rules(d.strategies));
    var i :| 0 <= i < |d.strategies| && d.strategies[i] == other;
    assert Rules(d.strategies)[i] == other.rule && other.rule in Rules(d.strategies);
  }

  /** The guards' part in a record that is made. */
  lemma GuardsAgreed(d: Delivery, h: History, rs: seq<Stored>, s: Strategy)
    requires Matching.Selected(d.labels, Rules(d.strategies)) == Some(s.rule) && Named(d.strategies, s.rule.name) == Some(s)
    requires Decide(d, h, rs).Creates? || Decide(d, h, rs).GivesUp?
    ensures d.firing && s.mode != Manual && Decide(d, h, rs).s == s
    ensures var verdict := Evaluate(s.guards, h, Key(s.rule.name, d.target), d.now);
      if Decide(d, h, rs).Creates? then verdict == Allowed && d.blastAllows
      else verdict.GivenUp? && !GaveUpSince(rs, Key(s.rule.name, d.target), d.now - s.guards.giveUpWithin)
  {
  }

  lemma SelectedAdmits(d: Delivery, h: History, rs: seq<Stored>, s: Strategy, r: Stored)
    requires Matching.DistinctNames(Rules(d.strategies)) && Matching.Selected(d.labels, Rules(d.strategies)) == Some(s.rule)
    requires d.firing && s in d.strategies && s.mode != Manual && Matching.Fits(d.labels, s.rule)
    requires r.spec.strategy == s.rule.name && r.spec.target == d.target
    requires var verdict := Evaluate(s.guards, h, Key(s.rule.name, d.target), d.now);
      if r.spec.gaveUp then verdict.GivenUp? && !GaveUpSince(rs, Key(s.rule.name, d.target), d.now - s.guards.giveUpWithin)
      else verdict == Allowed && d.blastAllows
    ensures AdmittedBy(d, h, rs, r, s)
  {
    forall other | other in d.strategies && Matching.Fits(d.labels, other.rule) ensures |other.rule.matchers| <= |s.rule.matchers| {
      NoneMatchesBetter(d, s, other);
    }
  }

  /**
    * One alert makes at most one record, and only for a firing alert, for the strategy with the most
    * matchers among those that match, never a manual one: an execution only when every guard allows
    * it, a give-up only when that guard refuses and has not said so within its window.
    */
  lemma CreatedRecordsWereAdmitted(d: Delivery, h: History, rs: seq<Stored>)
    requires Matching.DistinctNames(Rules(d.strategies))
    ensures Deliver(d, h, rs) == rs || exists r, s :: Deliver(d, h, rs) == rs + [r] && AdmittedBy(d, h, rs, r, s)
  {
    DeliverMakes(d, h, rs);
    if Makes(d, h, rs) {
      MakesForAMatch(d, h, rs);
      var s := NamedIsSelected(d);
      GuardsAgreed(d, h, rs, s);
      SelectedAdmits(d, h, rs, s, Made(d, Decide(d, h, rs)));
    }
  }

  predicate Makes(d: Delivery, h: History, rs: seq<Stored>) {
    d.creates && (Decide(d, h, rs).Creates? || Decide(d, h, rs).GivesUp?)
  }

  function Made(d: Delivery, o: Outcome): Stored
    requires o.Creates? || o.GivesUp?
  {
    if o.Creates? then NewRecord(d, o.s) else GiveUpRecord(d, o.s)
  }

  lemma DeliverMakes(d: Delivery, h: History, rs: seq<Stored>)
    ensures Deliver(d, h, rs) == if Makes(d, h, rs) then rs + [Made(d, Decide(d, h, rs))] else rs
  {
  }

  lemma MakesForAMatch(d: Delivery, h: History, rs: seq<Stored>)
    requires Makes(d, h, rs)
    ensures Matching.Selected(d.labels, Rules(d.strategies)).Some?
  {
  }

  // ---- The guard lets go ------------------------------------------------------------------------

  /**
    * Give-up records add nothing to the history, so the give-up guard clears itself: it refuses on
    * account of past completions exactly as long as enough of them are inside the window.
    */
  lemma GiveUpClearsItself(cfg: Config, h: History, k: Key, now: Time)
    requires cfg.giveUpCount > 0 && cfg.giveUpWithin > 0
    requires LastCompletion(h, k).Some? ==> LastCompletion(h, k).value + cfg.giveUpWithin < now
    ensures EvaluateGiveUp(cfg, h, k, now) == Allowed
  {
    var s := Of(h.completions, k);
    var r := Recent(s, now - cfg.giveUpWithin);
    LatestIsMax(s);
    if r != [] {
      RecentMembers(s, now - cfg.giveUpWithin, r[0]);
    }
  }

  /** Approval-mode records, and only those, are created with a deadline, and it lies ahead. */
  lemma DeadlineLiesAhead(d: Delivery, h: History, rs: seq<Stored>)
    ensures forall i :: |rs| <= i < |Deliver(d, h, rs)| ==>
      var spec := Deliver(d, h, rs)[i].spec;
      && (spec.deadline.Some? <==> spec.mode == Approval && !spec.gaveUp)
      && (spec.deadline.Some? ==> spec.deadline.value > d.now)
      && (spec.gaveUp ==> spec.steps == [] && spec.retries == 0 && !spec.dryRun)
      && spec.mode != Manual && spec.created == d.now
  {
  }
}
