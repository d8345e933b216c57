/**
  * What one alert does, by what the alert, the strategies and the history say: internal/engine/sink.go.
  * Nothing here is said through the functions that decide it or build the record.
  */
module Deliveries {
  import opened Common
  import opened Records
  import opened Guards
  import opened Replay
  import opened Sink
  import Sorting

  /** No two strategies share a name. */
  ghost predicate DistinctStrategies(ss: seq<Strategy>) {
    forall a, b :: a in ss && b in ss && a.rule.name == b.rule.name ==> a == b
  }

  /** A strategy an alert's labels ask for: enabled, and every one of its matchers equals a label. */
  predicate AskedFor(labels: Matching.Labels, s: Strategy) {
    && s.rule.enabled && s.rule.matchers != map[]
    && forall k :: k in s.rule.matchers ==> if k in labels then labels[k] == s.rule.matchers[k] else s.rule.matchers[k] == ""
  }

  /** The one that handles the alert: asked for, with the most matchers, and the least name among those. */
  ghost predicate Handles(d: Delivery, s: Strategy) {
    && s in d.strategies && AskedFor(d.labels, s)
    && forall other :: other in d.strategies && AskedFor(d.labels, other) && other != s ==>
         || |s.rule.matchers| > |other.rule.matchers|
         || (|s.rule.matchers| == |other.rule.matchers| && Sorting.StringLess(s.rule.name, other.rule.name))
  }

  lemma AskedForFits(labels: Matching.Labels, s: Strategy)
    ensures AskedFor(labels, s) <==> Matching.Fits(labels, s.rule)
  {
    assert s.rule.matchers == map[] <==> |s.rule.matchers| == 0;
  }

  lemma RulesMembers(ss: seq<Strategy>, r: Matching.Rule)
    ensures r in Rules(ss) <==> exists s :: s in ss && s.rule == r
  {
    if r in Rules(ss) {
      var i :| 0 <= i < |Rules(ss)| && Rules(ss)[i] == r;
      assert ss[i] in ss && ss[i].rule == r;
    }
    if s :| s in ss && s.rule == r {
      var i :| 0 <= i < |ss| && ss[i] == s;
      assert Rules(ss)[i] == r;
    }
  }

  lemma RulesAreDistinct(ss: seq<Strategy>)
    requires DistinctStrategies(ss)
    ensures Matching.DistinctNames(Rules(ss))
  {
    forall a, b | a in Rules(ss) && b in Rules(ss) && a.name == b.name ensures a == b {
      RulesMembers(ss, a);
      RulesMembers(ss, b);
    }
  }

  /** The strategy that handles an alert is the one that is selected, and found again by its name. */
  lemma HandlerIsSelected(d: Delivery, s: Strategy)
    requires DistinctStrategies(d.strategies) && Handles(d, s)
    ensures Matching.Selected(d.labels, Rules(d.strategies)) == Some(s.rule) && Named(d.strategies, s.rule.name) == Some(s)
  {
    var rules := Rules(d.strategies);
    RulesAreDistinct(d.strategies);
    Matching.SelectedIsBest(d.labels, rules);
    AskedForFits(d.labels, s);
    RulesMembers(d.strategies, s.rule);
    var best := Matching.Selected(d.labels, rules).value;
    RulesMembers(d.strategies, best);
    var other :| other in d.strategies && other.rule == best;
    AskedForFits(d.labels, other);
    if other != s { Sorting.StringLessAsymmetric(s.rule.name, best.name); }
    var i :| 0 <= i < |d.strategies| && d.strategies[i] == s;
    NamedFinds(d.strategies, i);
    NamedIsNamed(d.strategies, s.rule.name);
    NamedMember(d.strategies, s.rule.name);
  }

  /** An alert some strategy is asked for by has one that handles it. */
  lemma SomeoneHandles(d: Delivery, asked: Strategy) returns (s: Strategy)
    requires DistinctStrategies(d.strategies) && asked in d.strategies && AskedFor(d.labels, asked)
    ensures Handles(d, s)
  {
    var rules := Rules(d.strategies);
    RulesAreDistinct(d.strategies);
    Matching.SelectedIsBest(d.labels, rules);
    AskedForFits(d.labels, asked);
    RulesMembers(d.strategies, asked.rule);
    var best := Matching.Selected(d.labels, rules).value;
    RulesMembers(d.strategies, best);
    s :| s in d.strategies && s.rule == best;
    AskedForFits(d.labels, s);
    forall other | other in d.strategies && AskedFor(d.labels, other) && other != s
      ensures |s.rule.matchers| > |other.rule.matchers|
        || (|s.rule.matchers| == |other.rule.matchers| && Sorting.StringLess(s.rule.name, other.rule.name))
    {
      AskedForFits(d.labels, other);
      RulesMembers(d.strategies, other.rule);
    }
  }

  lemma NobodySelected(d: Delivery)
    requires DistinctStrategies(d.strategies) && forall s :: s in d.strategies ==> !AskedFor(d.labels, s)
    ensures Matching.Selected(d.labels, Rules(d.strategies)).None?
  {
    RulesAreDistinct(d.strategies);
    Matching.SelectedIsBest(d.labels, Rules(d.strategies));
    forall r | r in Rules(d.strategies) ensures !Matching.Fits(d.labels, r) {
      RulesMembers(d.strategies, r);
      var s :| s in d.strategies && s.rule == r;
      AskedForFits(d.labels, s);
    }
  }

  // ---- The records ------------------------------------------------------------------------------

  /** A record of this delivery, for this strategy, that nobody has touched. */
  predicate NewFor(d: Delivery, s: Strategy, r: Stored) {
    && r.name == d.name && r.spec.strategy == s.rule.name && r.spec.target == d.target && r.spec.created == d.now
    && r.spec.mode == s.mode && r.spec.escalation == s.escalation && r.spec.firstSuccess == s.firstSuccess
    && r.status.state == New && r.status.attempt == 0 && r.status.steps == [] && r.status.startedAt.None?
    && r.status.completedAt.None? && r.status.escalation.None?
  }

  /** A delivery whose remediation must not change anything: paused, or its namespace, or failing that the cluster, is not live. */
  predicate Simulated(d: Delivery) {
    || d.paused
    || (d.namespace in d.posture.overrides && d.namespace != "" && d.posture.overrides[d.namespace] == DryRun)
    || ((d.namespace !in d.posture.overrides || d.namespace == "") && d.posture.everywhere in {Unset, DryRun})
  }

  /** One that will execute: the strategy's plan, in the posture of the delivery, gated if the strategy is. */
  predicate Executes(d: Delivery, s: Strategy, r: Stored) {
    && NewFor(d, s, r) && !r.spec.gaveUp && (r.spec.dryRun <==> Simulated(d))
    && r.spec.steps == s.steps && r.spec.retries == s.retries
    && (s.mode != Approval ==> r.spec.deadline.None?)
    && (s.mode == Approval && (s.approvalTimeout.None? || s.approvalTimeout.value <= 0) ==> r.spec.deadline == Some(d.now + 15 * 60))
    && (s.mode == Approval && s.approvalTimeout.Some? && s.approvalTimeout.value > 0 ==>
          r.spec.deadline == Some(d.now + s.approvalTimeout.value))
  }

  /** One that only reports: nothing to execute, and never simulated. */
  predicate Reports(d: Delivery, s: Strategy, r: Stored) {
    NewFor(d, s, r) && r.spec.gaveUp && !r.spec.dryRun && r.spec.steps == [] && r.spec.retries == 0 && r.spec.deadline.None?
  }

  /** No give-up record of this strategy on this target was made inside the window. */
  ghost predicate NoneLately(rs: seq<Stored>, d: Delivery, s: Strategy) {
    forall r :: r in rs && r.spec.gaveUp && r.spec.strategy == s.rule.name && r.spec.target == d.target ==>
      r.spec.created < d.now - s.guards.giveUpWithin
  }

  lemma NoneLatelyIff(rs: seq<Stored>, d: Delivery, s: Strategy)
    ensures NoneLately(rs, d, s) <==> !GaveUpSince(rs, Key(s.rule.name, d.target), d.now - s.guards.giveUpWithin)
  {
    var k, since := Key(s.rule.name, d.target), d.now - s.guards.giveUpWithin;
    if !NoneLately(rs, d, s) {
      var r :| r in rs && r.spec.gaveUp && r.spec.strategy == s.rule.name && r.spec.target == d.target && r.spec.created >= since;
      var i :| 0 <= i < |rs| && rs[i] == r;
    }
    if GaveUpSince(rs, k, since) {
      var i :| 0 <= i < |rs| && rs[i].spec.gaveUp && KeyOf(rs[i]) == k && rs[i].spec.created >= since;
      assert rs[i] in rs;
    }
  }

  // ---- The theorems -----------------------------------------------------------------------------

  /** What is answered to an alert that a strategy handles. */
  lemma OutcomeOfAHandledAlert(d: Delivery, h: History, rs: seq<Stored>, s: Strategy)
    requires DistinctStrategies(d.strategies) && d.firing && Handles(d, s)
    ensures var o, v := Decide(d, h, rs), Evaluate(s.guards, h, Key(s.rule.name, d.target), d.now);
      && (o == RefusedManual <==> s.mode == Manual)
      && (o == Creates(s) <==> s.mode != Manual && v == Allowed && d.blastAllows)
      && (o == RefusedByBlastRadius <==> s.mode != Manual && v == Allowed && !d.blastAllows)
      && (o == RefusedByGuard(v) <==> s.mode != Manual && (v.CoolingDown? || v.RateLimited?))
      && (o == GivesUp(s) <==> s.mode != Manual && v.GivenUp? && NoneLately(rs, d, s))
      && (o == AlreadyGaveUp <==> s.mode != Manual && v.GivenUp? && !NoneLately(rs, d, s))
  {
    HandlerIsSelected(d, s);
    NoneLatelyIff(rs, d, s);
  }

  /** An alert that does not fire, or that no strategy is asked for by, leaves everything as it was. */
  lemma OtherAlertsDoNothing(d: Delivery, h: History, rs: seq<Stored>)
    requires DistinctStrategies(d.strategies)
    ensures !d.firing ==> Decide(d, h, rs) == Ignored
    ensures d.firing && (forall s :: s in d.strategies ==> !AskedFor(d.labels, s)) ==> Decide(d, h, rs) == Unmatched
    ensures !d.firing || (forall s :: s in d.strategies ==> !AskedFor(d.labels, s)) ==>
      Deliver(d, h, rs) == rs && !RecordsStart(d, Decide(d, h, rs))
  {
    if forall s :: s in d.strategies ==> !AskedFor(d.labels, s) { NobodySelected(d); }
  }

  /** One more record, and what it says. */
  ghost predicate AddsAnExecution(d: Delivery, s: Strategy, rs: seq<Stored>, after: seq<Stored>) {
    |after| == |rs| + 1 && after[..|rs|] == rs && Executes(d, s, after[|rs|])
  }

  ghost predicate AddsAReport(d: Delivery, s: Strategy, rs: seq<Stored>, after: seq<Stored>) {
    |after| == |rs| + 1 && after[..|rs|] == rs && Reports(d, s, after[|rs|])
  }

  /**
    * When a record appears for an alert that a strategy handles, and what it says: one that will execute,
    * with its start recorded, exactly when the strategy is not manual, its guards and the blast radius
    * allow it and the create is accepted; one that only reports exactly when the give-up guard refuses,
    * none was made inside its window and the create is accepted; none otherwise.
    */
  lemma RecordAppearsIff(d: Delivery, h: History, rs: seq<Stored>, s: Strategy)
    requires DistinctStrategies(d.strategies) && d.firing && Handles(d, s)
    ensures var v := Evaluate(s.guards, h, Key(s.rule.name, d.target), d.now);
      var may := s.mode != Manual && d.creates;
      var after, recorded := Deliver(d, h, rs), RecordsStart(d, Decide(d, h, rs));
      && (recorded <==> may && v == Allowed && d.blastAllows)
      && (AddsAnExecution(d, s, rs, after) <==> may && v == Allowed && d.blastAllows)
      && (AddsAReport(d, s, rs, after) <==> may && v.GivenUp? && NoneLately(rs, d, s))
      && (after == rs <==> !(may && v == Allowed && d.blastAllows) && !(may && v.GivenUp? && NoneLately(rs, d, s)))
  {
    OutcomeOfAHandledAlert(d, h, rs, s);
    var o := Decide(d, h, rs);
    DeliverMakes(d, h, rs);
    if Makes(d, h, rs) {
      MadeIs(d, o, s);
    }
  }

  lemma MadeIs(d: Delivery, o: Outcome, s: Strategy)
    ensures o == Creates(s) ==> Executes(d, s, Made(d, o)) && !Reports(d, s, Made(d, o))
    ensures o == GivesUp(s) ==> Reports(d, s, Made(d, o)) && !Executes(d, s, Made(d, o))
  {
  }
}
