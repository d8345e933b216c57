/** The list's filter, its controls and the counts beside them: internal/dashboard/filter.go. */
module DashboardFilter {
  import opened Common
  import opened Records
  import opened Sorting

  /** What the dashboard reads of a record. */
  datatype Record = Record(
    name: string,
    created: Time,
    strategy: string,
    target: string,
    alert: string,
    state: State,
    escalation: Option<Phase>,
    startedAt: Option<Time>,
    completedAt: Option<Time>)

  /** The word a state is shown as; a new record reads as pending. */
  function DisplayState(s: State): (word: string)
    ensures word != ""
    ensures word == "Failed" <==> s == Failed
  {
    match s
    case New => "Pending"
    case Pending => "Pending"
    case AwaitingApproval => "AwaitingApproval"
    case Running => "Running"
    case Succeeded => "Succeeded"
    case Failed => "Failed"
    case Simulated => "Simulated"
  }

  function EscalationOutcome(r: Record): (word: string)
    ensures word != ""
  {
    if r.escalation.None? then "none"
    else if r.escalation.value != PhaseSucceeded then "failed"
    else "succeeded"
  }

  // ---- The namespace of a target ----------------------------------------------------------------

  /** The position of the first slash, or the length when there is none. */
  function Slash(s: string): (i: nat)
    ensures i <= |s| && '/' !in s[..i] && (i < |s| ==> s[i] == '/')
  {
    if s == "" || s[0] == '/' then 0
    else
      var i := 1 + Slash(s[1..]);
      assert s[..i] == [s[0]] + s[1..][..i - 1];
      i
  }

  function TargetNamespace(target: string): string {
    var first := Slash(target);
    if first == |target| then ""
    else
      var rest := target[first + 1..];
      var second := Slash(rest);
      if second == |rest| then ""
      else if Slash(rest[second + 1..]) < |rest[second + 1..]| then ""
      else rest[..second]
  }

  /** A target is three parts joined by two slashes. */
  ghost predicate ThreeParts(target: string, kind: string, namespace: string, name: string) {
    && target == kind + "/" + namespace + "/" + name
    && '/' !in kind && '/' !in namespace && '/' !in name
  }

  lemma {:induction false} SlashIsWhereItStops(s: string, head: string, tail: string)
    requires s == head + "/" + tail && '/' !in head
    ensures Slash(s) == |head| && s[|head| + 1..] == tail
  {
    if head != "" {
      assert s[0] == head[0] && s[1..] == head[1..] + "/" + tail;
      SlashIsWhereItStops(s[1..], head[1..], tail);
    }
  }

  lemma SplitAt(s: string, i: nat)
    requires i < |s| && s[i] == '/'
    ensures s == s[..i] + "/" + s[i + 1..]
  {
    assert "/" == [s[i]];
  }

  lemma JoinThree(a: string, b: string, c: string)
    ensures a + "/" + (b + "/" + c) == a + "/" + b + "/" + c
  {
  }

  lemma NoSlash(s: string)
    ensures Slash(s) == |s| <==> '/' !in s
  {
    var i := Slash(s);
    if i == |s| { assert s[..i] == s; }
  }

  lemma MiddlePartIsNamespace(target: string, kind: string, namespace: string, name: string)
    requires ThreeParts(target, kind, namespace, name)
    ensures TargetNamespace(target) == namespace
  {
    assert target == kind + "/" + (namespace + "/" + name);
    SlashIsWhereItStops(target, kind, namespace + "/" + name);
    SlashIsWhereItStops(namespace + "/" + name, namespace, name);
    NoSlash(name);
  }

  lemma NamespaceHasParts(target: string) returns (kind: string, name: string)
    requires TargetNamespace(target) != ""
    ensures ThreeParts(target, kind, TargetNamespace(target), name)
  {
    var first := Slash(target);
    var rest := target[first + 1..];
    var second := Slash(rest);
    kind, name := target[..first], rest[second + 1..];
    NoSlash(name);
    SplitAt(target, first);
    SplitAt(rest, second);
    JoinThree(kind, rest[..second], name);
  }

  ghost predicate HasNamespace(target: string, namespace: string) {
    exists kind, name :: ThreeParts(target, kind, namespace, name)
  }

  /** A three-part target belongs to its middle part; any other target belongs to no namespace. */
  lemma NamespaceIsTheMiddlePart(target: string, namespace: string)
    ensures HasNamespace(target, namespace) ==> TargetNamespace(target) == namespace
    ensures TargetNamespace(target) == namespace != "" ==> HasNamespace(target, namespace)
  {
    if HasNamespace(target, namespace) {
      var kind, name :| ThreeParts(target, kind, namespace, name);
      MiddlePartIsNamespace(target, kind, namespace, name);
    } else if TargetNamespace(target) == namespace && namespace != "" {
      var kind, name := NamespaceHasParts(target);
    }
  }

  // ---- The filter -------------------------------------------------------------------------------

  datatype Filter = Filter(namespace: string, strategy: string, state: string, escalation: string, target: string, alert: string)

  predicate Active(f: Filter) {
    f != Filter("", "", "", "", "", "")
  }

  predicate Matches(f: Filter, r: Record) {
    && (f.namespace != "" ==> TargetNamespace(r.target) == f.namespace)
    && (f.strategy != "" ==> r.strategy == f.strategy)
    && (f.state != "" ==> DisplayState(r.state) == f.state)
    && (f.escalation != "" ==> EscalationOutcome(r) == f.escalation)
    && (f.target != "" ==> r.target == f.target)
    && (f.alert != "" ==> r.alert == f.alert)
  }

  function Kept(f: Filter, rs: seq<Record>): seq<Record> {
    if rs == [] then []
    else Kept(f, rs[..|rs| - 1]) + (if Matches(f, rs[|rs| - 1]) then [rs[|rs| - 1]] else [])
  }

  lemma {:induction false} InactiveKeepsAll(f: Filter, rs: seq<Record>)
    requires !Active(f)
    ensures Kept(f, rs) == rs
  {
    if rs != [] {
      InactiveKeepsAll(f, rs[..|rs| - 1]);
      assert rs == rs[..|rs| - 1] + [rs[|rs| - 1]];
    }
  }

  /** applyFilter; the first of its two passes only sizes the result. */
  method ApplyFilter(rs: seq<Record>, f: Filter) returns (kept: seq<Record>)
    ensures kept == Kept(f, rs)
  {
    if !Active(f) {
      InactiveKeepsAll(f, rs);
      return rs;
    }
    kept := [];
    for i := 0 to |rs|
      invariant kept == Kept(f, rs[..i])
    {
      assert rs[..i + 1][..i] == rs[..i];
      if Matches(f, rs[i]) {
        kept := kept + [rs[i]];
      }
    }
    assert rs[..|rs|] == rs;
  }

  lemma {:induction false} KeptBag(f: Filter, rs: seq<Record>, r: Record)
    ensures multiset(Kept(f, rs))[r] == if Matches(f, r) then multiset(rs)[r] else 0
  {
    if rs != [] {
      var n := |rs| - 1;
      KeptBag(f, rs[..n], r);
      assert rs == rs[..n] + [rs[n]];
      assert multiset(rs) == multiset(rs[..n]) + multiset{rs[n]};
      if Matches(f, rs[n]) {
        assert multiset(Kept(f, rs)) == multiset(Kept(f, rs[..n])) + multiset{rs[n]};
      } else {
        assert Kept(f, rs) == Kept(f, rs[..n]);
      }
    }
  }

  // ---- The controls -----------------------------------------------------------------------------

  datatype Dimension = ByNamespace | ByStrategy | ByState | ByEscalation

  function Key(d: Dimension, r: Record): string {
    match d
    case ByNamespace => TargetNamespace(r.target)
    case ByStrategy => r.strategy
    case ByState => DisplayState(r.state)
    case ByEscalation => EscalationOutcome(r)
  }

  function Chosen(d: Dimension, f: Filter): string {
    match d
    case ByNamespace => f.namespace
    case ByStrategy => f.strategy
    case ByState => f.state
    case ByEscalation => f.escalation
  }

  function With(d: Dimension, f: Filter, value: string): Filter {
    match d
    case ByNamespace => f.(namespace := value)
    case ByStrategy => f.(strategy := value)
    case ByState => f.(state := value)
    case ByEscalation => f.(escalation := value)
  }

  /** The escalation dimension asks for failures as well. */
  function Narrow(d: Dimension, f: Filter): Filter {
    if d == ByEscalation then f.(state := "Failed") else f
  }

  /** The filter with one dimension's own clause cleared. */
  function Rest(d: Dimension, f: Filter): Filter {
    With(d, f, "")
  }

  /** Where an option leads: to its value, or, from the one in force, to none. */
  function Link(d: Dimension, active: Filter, value: string): Filter {
    if value == Chosen(d, active) then Rest(d, active) else Narrow(d, With(d, active, value))
  }

  /** How many records match a filter and carry a value. */
  function Tally(rs: seq<Record>, f: Filter, d: Dimension, value: string): nat {
    if rs == [] then 0
    else
      var r := rs[|rs| - 1];
      Tally(rs[..|rs| - 1], f, d, value) + (if Matches(f, r) && Key(d, r) == value then 1 else 0)
  }

  function CountOf(counts: map<string, nat>, value: string): nat {
    if value in counts then counts[value] else 0
  }

  /** A single loop counts every value of a dimension. */
  method CountByValue(rs: seq<Record>, rest: Filter, d: Dimension) returns (counts: map<string, nat>)
    ensures forall v :: v != "" ==> CountOf(counts, v) == Tally(rs, rest, d, v)
    ensures "" !in counts
  {
    counts := map[];
    for i := 0 to |rs|
      invariant forall v :: v != "" ==> CountOf(counts, v) == Tally(rs[..i], rest, d, v)
      invariant "" !in counts
    {
      assert rs[..i + 1][..i] == rs[..i];
      if Matches(rest, rs[i]) {
        var value := Key(d, rs[i]);
        if value != "" {
          ghost var before := counts;
          counts := counts[value := CountOf(counts, value) + 1];
          assert forall v :: v != value ==> CountOf(counts, v) == CountOf(before, v);
        }
      }
    }
    assert rs[..|rs|] == rs;
  }

  datatype Choice = Choice(value: string, link: Filter, selected: bool, count: nat)

  /** The options of one dimension, as Groups draws them. */
  method Choices(d: Dimension, values: seq<string>, active: Filter, rs: seq<Record>) returns (choices: seq<Choice>)
    requires "" !in values
    ensures |choices| == |values|
    ensures forall i :: 0 <= i < |values| ==>
      choices[i] == Choice(values[i], Link(d, active, values[i]), values[i] == Chosen(d, active),
                           Tally(rs, Narrow(d, Rest(d, active)), d, values[i]))
  {
    var rest := Rest(d, active);
    var counts := CountByValue(rs, Narrow(d, rest), d);
    choices := [];
    for i := 0 to |values|
      invariant |choices| == i
      invariant forall j :: 0 <= j < i ==>
        choices[j] == Choice(values[j], Link(d, active, values[j]), values[j] == Chosen(d, active),
                             Tally(rs, Narrow(d, Rest(d, active)), d, values[j]))
    {
      var value := values[i];
      var target := rest;
      if value != Chosen(d, active) {
        target := Narrow(d, With(d, target, value));
      }
      assert value in values;
      choices := choices + [Choice(value, target, value == Chosen(d, active), CountOf(counts, value))];
    }
  }

  // ---- The counts agree with the links ----------------------------------------------------------

  /** A record survives an option's link exactly when it was counted for it. */
  lemma LinkMatchesWhatIsCounted(d: Dimension, active: Filter, value: string, r: Record)
    requires value != "" && value != Chosen(d, active)
    ensures Matches(Link(d, active, value), r) <==> Matches(Narrow(d, Rest(d, active)), r) && Key(d, r) == value
  {
  }

  lemma {:induction false} KeptCounts(rs: seq<Record>, link: Filter, rest: Filter, d: Dimension, value: string)
    requires forall r :: Matches(link, r) <==> Matches(rest, r) && Key(d, r) == value
    ensures |Kept(link, rs)| == Tally(rs, rest, d, value)
  {
    if rs != [] { KeptCounts(rs[..|rs| - 1], link, rest, d, value); }
  }

  /** The number beside an option that is not in force is the number of records its link shows. */
  lemma {:induction false} CountsAgreeWithLinks(d: Dimension, active: Filter, value: string, rs: seq<Record>)
    requires value != "" && value != Chosen(d, active)
    ensures Tally(rs, Narrow(d, Rest(d, active)), d, value) == |Kept(Link(d, active, value), rs)|
  {
    forall r ensures Matches(Link(d, active, value), r) <==> Matches(Narrow(d, Rest(d, active)), r) && Key(d, r) == value {
      LinkMatchesWhatIsCounted(d, active, value, r);
    }
    KeptCounts(rs, Link(d, active, value), Narrow(d, Rest(d, active)), d, value);
  }

  /** The link of the option in force asks for everything the filter does in every other dimension, and nothing in its own. */
  lemma LinkInForceLetsGo(d: Dimension, active: Filter, r: Record)
    ensures Matches(Link(d, active, Chosen(d, active)), r) <==>
      && (d == ByNamespace || active.namespace in {"", TargetNamespace(r.target)})
      && (d == ByStrategy || active.strategy in {"", r.strategy})
      && (d == ByState || active.state in {"", DisplayState(r.state)})
      && (d == ByEscalation || active.escalation in {"", EscalationOutcome(r)})
      && active.target in {"", r.target} && active.alert in {"", r.alert}
  {
  }

  /** What a filter asks of a record: that it agrees wherever the filter says anything. */
  lemma MatchesIff(f: Filter, r: Record)
    ensures Matches(f, r) <==>
      && f.namespace in {"", TargetNamespace(r.target)} && f.strategy in {"", r.strategy} && f.state in {"", DisplayState(r.state)}
      && f.escalation in {"", EscalationOutcome(r)} && f.target in {"", r.target} && f.alert in {"", r.alert}
  {
  }

  /** How an escalation reads: none was run, somebody was told, or nobody was. */
  lemma EscalationReads(r: Record)
    ensures EscalationOutcome(r) == "none" <==> r.escalation == None
    ensures EscalationOutcome(r) == "succeeded" <==> r.escalation == Some(PhaseSucceeded)
    ensures EscalationOutcome(r) == "failed" <==> r.escalation.Some? && r.escalation != Some(PhaseSucceeded)
  {
  }

  predicate AgreesInForce(d: Dimension, active: Filter, rs: seq<Record>) {
    Tally(rs, Narrow(d, Rest(d, active)), d, Chosen(d, active)) == |Kept(active, rs)|
  }

  lemma InForceCountsTheNarrowed(d: Dimension, active: Filter, rs: seq<Record>)
    requires Chosen(d, active) != ""
    ensures Tally(rs, Narrow(d, Rest(d, active)), d, Chosen(d, active)) == |Kept(Narrow(d, active), rs)|
  {
    KeptCounts(rs, Narrow(d, active), Narrow(d, Rest(d, active)), d, Chosen(d, active));
  }

  lemma KeptOfOne(f: Filter, r: Record)
    ensures |Kept(f, [r])| == if Matches(f, r) then 1 else 0
  {
    assert [r][..0] == [];
  }

  /**
    * The number beside the option in force is the number of records the page shows, on every list of
    * records, except in the escalation dimension: there the counts are of failures, so they agree
    * exactly when the filter in force also asks for failures. (The sample rules out a filter that
    * nothing at all could match.)
    */
  lemma CountInForceAgreesIff(d: Dimension, active: Filter, sample: Record)
    requires Chosen(d, active) != "" && Matches(Narrow(d, active), sample)
    ensures (forall rs: seq<Record> :: AgreesInForce(d, active, rs)) <==> d != ByEscalation || active.state == "Failed"
  {
    if d != ByEscalation || active.state == "Failed" {
      assert Narrow(d, active) == active;
      forall rs: seq<Record> ensures AgreesInForce(d, active, rs) {
        InForceCountsTheNarrowed(d, active, rs);
      }
    } else {
      var r := if active.state == "" then sample.(state := Succeeded) else sample;
      InForceCountsTheNarrowed(d, active, [r]);
      KeptOfOne(active, r);
      KeptOfOne(Narrow(d, active), r);
      assert !AgreesInForce(d, active, [r]);
    }
  }

  // ---- The values that are offered --------------------------------------------------------------

  /** A record that gives a dimension something to offer. */
  predicate Offers(d: Dimension, r: Record) {
    Key(d, r) != "" && (d == ByEscalation ==> r.state == Failed)
  }

  function Offered(d: Dimension, rs: seq<Record>): set<string> {
    set r | r in rs && Offers(d, r) :: Key(d, r)
  }

  /** BuildFilterOptions, one dimension of it. */
  method BuildOptions(d: Dimension, rs: seq<Record>) returns (values: seq<string>)
    ensures KeysInOrder(values, Offered(d, rs)) && "" !in values
  {
    var seen := {};
    for i := 0 to |rs|
      invariant seen == Offered(d, rs[..i])
    {
      assert rs[..i + 1] == rs[..i] + [rs[i]];
      if Offers(d, rs[i]) {
        seen := seen + {Key(d, rs[i])};
      }
      assert seen == Offered(d, rs[..i + 1]);
    }
    assert rs[..|rs|] == rs;
    values := SortedKeys(seen);
  }

  /** Nothing is offered in vain: without a filter, the link of every option offered shows a record. */
  lemma OfferedOptionsShowSomething(d: Dimension, rs: seq<Record>, value: string)
    requires value in Offered(d, rs)
    ensures var all := Filter("", "", "", "", "", "");
      value != "" && exists r :: r in rs && Matches(Link(d, all, value), r) && Key(d, r) == value
  {
    var all := Filter("", "", "", "", "", "");
    var r :| r in rs && Offers(d, r) && Key(d, r) == value;
    assert Matches(Link(d, all, value), r);
  }

  /** The counts a row shows, added up. */
  function RowTotal(rs: seq<Record>, rest: Filter, d: Dimension, values: seq<string>): nat {
    if values == [] then 0 else Tally(rs, rest, d, values[0]) + RowTotal(rs, rest, d, values[1..])
  }

  /** How many records match a filter and carry any value at all. */
  function Tellable(rs: seq<Record>, rest: Filter, d: Dimension): nat {
    if rs == [] then 0
    else
      var r := rs[|rs| - 1];
      Tellable(rs[..|rs| - 1], rest, d) + (if Matches(rest, r) && Key(d, r) != "" then 1 else 0)
  }

  predicate AllDifferent(values: seq<string>) {
    forall i, j :: 0 <= i < j < |values| ==> values[i] != values[j]
  }

  lemma {:induction false} RowTotalOfNothing(rest: Filter, d: Dimension, values: seq<string>)
    ensures RowTotal([], rest, d, values) == 0
  {
    if values != [] { RowTotalOfNothing(rest, d, values[1..]); }
  }

  /** One record more adds one to the row if it matches and its value is on it. */
  lemma {:induction false} RowTotalSnoc(rs: seq<Record>, r: Record, rest: Filter, d: Dimension, values: seq<string>)
    requires AllDifferent(values)
    ensures RowTotal(rs + [r], rest, d, values) ==
      RowTotal(rs, rest, d, values) + (if Matches(rest, r) && Key(d, r) in values then 1 else 0)
  {
    if values != [] {
      assert (rs + [r])[..|rs|] == rs;
      RowTotalSnoc(rs, r, rest, d, values[1..]);
      assert values == [values[0]] + values[1..];
      assert values[0] !in values[1..] by {
        forall i | 0 <= i < |values[1..]| ensures values[1..][i] != values[0] {
          assert values[1..][i] == values[i + 1];
        }
      }
    }
  }

  predicate OnRow(r: Record, rest: Filter, d: Dimension, values: seq<string>) {
    Matches(rest, r) && Key(d, r) != "" ==> Key(d, r) in values
  }

  lemma {:induction false} RowCountsEveryRecord(rs: seq<Record>, rest: Filter, d: Dimension, values: seq<string>)
    requires AllDifferent(values) && "" !in values
    requires forall i :: 0 <= i < |rs| ==> OnRow(rs[i], rest, d, values)
    ensures RowTotal(rs, rest, d, values) == Tellable(rs, rest, d)
  {
    if rs == [] {
      RowTotalOfNothing(rest, d, values);
    } else {
      var n := |rs| - 1;
      RowCountsEveryRecord(rs[..n], rest, d, values);
      RowTotalSnoc(rs[..n], rs[n], rest, d, values);
      assert rs == rs[..n] + [rs[n]];
      assert OnRow(rs[n], rest, d, values);
    }
  }

  /**
    * No record is missing from a row of controls and none is counted twice: its counts add up to the
    * records that the other clauses keep and that have a value in this dimension.
    */
  lemma RowsAddUp(d: Dimension, active: Filter, rs: seq<Record>, values: seq<string>)
    requires KeysInOrder(values, Offered(d, rs)) && "" !in values
    ensures RowTotal(rs, Narrow(d, Rest(d, active)), d, values) == Tellable(rs, Narrow(d, Rest(d, active)), d)
  {
    var rest := Narrow(d, Rest(d, active));
    forall i, j | 0 <= i < j < |values| ensures values[i] != values[j] {
      assert StringLess(values[i], values[j]);
      StringLessAsymmetric(values[i], values[j]);
    }
    forall i | 0 <= i < |rs| ensures OnRow(rs[i], rest, d, values) {
      assert Matches(rest, rs[i]) && Key(d, rs[i]) != "" ==> Offers(d, rs[i]) && rs[i] in rs;
    }
    RowCountsEveryRecord(rs, rest, d, values);
  }
}
