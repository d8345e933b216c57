/** Which strategy handles an alert, and why another did not: internal/matching/matching.go. */
module Matching {
  import opened Common
  import opened Sorting

  datatype Rule = Rule(name: string, enabled: bool, matchers: map<string, string>)

  type Labels = map<string, string>

  /** Go's map index: an absent label reads as the empty string. */
  function LabelOf(labels: Labels, key: string): string {
    if key in labels then labels[key] else ""
  }

  predicate Usable(r: Rule) {
    r.enabled && |r.matchers| > 0
  }

  predicate Fits(labels: Labels, r: Rule) {
    Usable(r) && forall k :: k in r.matchers ==> LabelOf(labels, k) == r.matchers[k]
  }

  method Matches(labels: Labels, r: Rule) returns (yes: bool)
    ensures yes <==> Fits(labels, r)
  {
    if !Usable(r) {
      return false;
    }
    var todo := r.matchers.Keys;
    while todo != {}
      invariant todo <= r.matchers.Keys
      invariant forall k :: k in r.matchers && k !in todo ==> LabelOf(labels, k) == r.matchers[k]
      decreases |todo|
    {
      var key :| key in todo;
      if LabelOf(labels, key) != r.matchers[key] {
        return false;
      }
      todo := todo - {key};
    }
    return true;
  }

  /** Most matchers first, then by name. */
  predicate Precedes(a: Rule, b: Rule) {
    if |a.matchers| != |b.matchers| then |a.matchers| > |b.matchers| else StringLess(a.name, b.name)
  }

  function Fitting(labels: Labels, rules: seq<Rule>): seq<Rule> {
    if rules == [] then [] else (if Fits(labels, rules[0]) then [rules[0]] else []) + Fitting(labels, rules[1..])
  }

  lemma {:induction false} FittingSnoc(labels: Labels, rules: seq<Rule>, r: Rule)
    ensures Fitting(labels, rules + [r]) == Fitting(labels, rules) + (if Fits(labels, r) then [r] else [])
  {
    if rules == [] {
      assert rules + [r] == [r] && [r][1..] == [];
    } else {
      assert (rules + [r])[1..] == rules[1..] + [r];
      FittingSnoc(labels, rules[1..], r);
      Associates(if Fits(labels, rules[0]) then [rules[0]] else [], Fitting(labels, rules[1..]), if Fits(labels, r) then [r] else []);
    }
  }

  method Candidates(labels: Labels, rules: seq<Rule>) returns (matched: seq<Rule>)
    ensures matched == SortBy(Precedes, Fitting(labels, rules))
  {
    matched := [];
    var i := 0;
    while i < |rules|
      invariant 0 <= i <= |rules| && matched == Fitting(labels, rules[..i])
    {
      assert rules[..i + 1] == rules[..i] + [rules[i]];
      FittingSnoc(labels, rules[..i], rules[i]);
      var fits := Matches(labels, rules[i]);
      if fits {
        matched := matched + [rules[i]];
      }
      i := i + 1;
    }
    assert rules[..i] == rules;
    matched := SortBy(Precedes, matched);
  }

  function Selected(labels: Labels, rules: seq<Rule>): Option<Rule> {
    var c := SortBy(Precedes, Fitting(labels, rules));
    if c == [] then None else Some(c[0])
  }

  method Select(labels: Labels, rules: seq<Rule>) returns (r: Option<Rule>)
    ensures r == Selected(labels, rules)
  {
    var candidates := Candidates(labels, rules);
    if |candidates| == 0 {
      return None;
    }
    return Some(candidates[0]);
  }

  // ---- What selection means -------------------------------------------------------------------

  ghost predicate DistinctNames(rules: seq<Rule>) {
    forall a, b :: a in rules && b in rules && a.name == b.name ==> a == b
  }

  lemma PrecedesIsWeakOrder()
    ensures WeakOrder(Precedes)
  {
    StringLessIsWeakOrder();
  }

  lemma {:induction false} FittingMembers(labels: Labels, rules: seq<Rule>, r: Rule)
    ensures r in Fitting(labels, rules) <==> r in rules && Fits(labels, r)
  {
    if rules != [] { FittingMembers(labels, rules[1..], r); }
  }

  lemma {:induction false} FittingBag(labels: Labels, rules: seq<Rule>, r: Rule)
    ensures multiset(Fitting(labels, rules))[r] == if Fits(labels, r) then multiset(rules)[r] else 0
  {
    if rules != [] {
      FittingBag(labels, rules[1..], r);
      assert rules == [rules[0]] + rules[1..];
    }
  }

  /** The selected rule fits and precedes every other rule that fits; none is selected when none fits. */
  lemma SelectedIsBest(labels: Labels, rules: seq<Rule>)
    requires DistinctNames(rules)
    ensures Selected(labels, rules).None? <==> forall r :: r in rules ==> !Fits(labels, r)
    ensures Selected(labels, rules).Some? ==>
      var best := Selected(labels, rules).value;
      && best in rules && Fits(labels, best)
      && forall r :: r in rules && Fits(labels, r) && r != best ==>
           |best.matchers| > |r.matchers| || (|best.matchers| == |r.matchers| && StringLess(best.name, r.name))
  {
    var all := Fitting(labels, rules);
    var c := SortBy(Precedes, all);
    PrecedesIsWeakOrder();
    SortKeeps(Precedes, all);
    SortSorts(Precedes, all);
    forall r ensures r in c <==> r in rules && Fits(labels, r) {
      FittingMembers(labels, rules, r);
    }
    if c != [] {
      assert c[0] in c;
      forall r | r in rules && Fits(labels, r) && r != c[0] ensures Precedes(c[0], r) {
        assert r in c;
        var i :| 0 <= i < |c| && c[i] == r;
        assert !Precedes(c[i], c[0]);
        StringLessConnected(c[0].name, r.name);
      }
    } else {
      forall r | r in rules ensures !Fits(labels, r) {
        assert r !in c;
      }
    }
  }

  /** Listing the strategies in another order changes nothing. */
  lemma SelectionIgnoresOrder(labels: Labels, rules: seq<Rule>, listed: seq<Rule>)
    requires DistinctNames(rules) && multiset(rules) == multiset(listed)
    ensures Selected(labels, rules) == Selected(labels, listed)
    ensures SortBy(Precedes, Fitting(labels, rules)) == SortBy(Precedes, Fitting(labels, listed))
  {
    var a, b := Fitting(labels, rules), Fitting(labels, listed);
    forall r ensures multiset(a)[r] == multiset(b)[r] {
      FittingBag(labels, rules, r);
      FittingBag(labels, listed, r);
    }
    PrecedesIsWeakOrder();
    forall x, y | x in a && y in a && x != y ensures Precedes(x, y) || Precedes(y, x) {
      FittingMembers(labels, rules, x);
      FittingMembers(labels, rules, y);
      StringLessConnected(x.name, y.name);
    }
    SortIgnoresInputOrder(Precedes, a, b);
  }

  // ---- Why not --------------------------------------------------------------------------------

  datatype Why =
    | NoReason
    | Disabled
    | NoMatchers
    | Absent(key: string, want: string)
    | Differs(key: string, got: string, want: string)

  predicate Mismatch(labels: Labels, r: Rule, key: string)
    requires key in r.matchers
  {
    key !in labels || labels[key] != r.matchers[key]
  }

  /** The mismatch that is explained: the first one in key order. */
  ghost predicate FirstMismatch(labels: Labels, r: Rule, key: string) {
    && key in r.matchers && Mismatch(labels, r, key)
    && forall k :: k in r.matchers && Mismatch(labels, r, k) ==> k == key || StringLess(key, k)
  }

  lemma MismatchIsFirst(labels: Labels, r: Rule, keys: seq<string>, i: nat)
    requires KeysInOrder(keys, r.matchers.Keys) && i < |keys| && keys[i] in r.matchers && Mismatch(labels, r, keys[i])
    requires forall j :: 0 <= j < i ==> keys[j] in r.matchers && !Mismatch(labels, r, keys[j])
    ensures FirstMismatch(labels, r, keys[i])
  {
    forall k | k in r.matchers && Mismatch(labels, r, k) ensures k == keys[i] || StringLess(keys[i], k) {
      assert k in keys;
      var j :| 0 <= j < |keys| && keys[j] == k;
    }
  }

  method WhyNot(labels: Labels, r: Rule) returns (why: Why)
    ensures why == Disabled <==> !r.enabled
    ensures why == NoMatchers <==> r.enabled && |r.matchers| == 0
    ensures why.Absent? ==> FirstMismatch(labels, r, why.key) && why.key !in labels && why.want == r.matchers[why.key]
    ensures why.Differs? ==>
      && FirstMismatch(labels, r, why.key) && why.key in labels
      && why.got == labels[why.key] && why.want == r.matchers[why.key]
    ensures why == NoReason <==> Usable(r) && forall k :: k in r.matchers ==> !Mismatch(labels, r, k)
  {
    if !r.enabled {
      return Disabled;
    }
    if |r.matchers| == 0 {
      return NoMatchers;
    }
    var keys := SortedKeys(r.matchers.Keys);
    var i := 0;
    while i < |keys|
      invariant 0 <= i <= |keys|
      invariant forall j :: 0 <= j < i ==> keys[j] in r.matchers && !Mismatch(labels, r, keys[j])
    {
      var key := keys[i];
      assert key in keys;
      if Mismatch(labels, r, key) {
        MismatchIsFirst(labels, r, keys, i);
        if key !in labels {
          return Absent(key, r.matchers[key]);
        }
        return Differs(key, labels[key], r.matchers[key]);
      }
      i := i + 1;
    }
    forall k | k in r.matchers ensures !Mismatch(labels, r, k) {
      assert k in keys;
    }
    return NoReason;
  }

  /**
    * The explanation and the decision disagree in one case only: a matcher that wants the empty value
    * of a label the alert does not carry is satisfied for the decision and missing for the explanation.
    */
  lemma ExplanationAgreesIff(labels: Labels, r: Rule)
    ensures (Usable(r) && forall k :: k in r.matchers ==> !Mismatch(labels, r, k)) ==> Fits(labels, r)
    ensures Fits(labels, r) ==>
      ((forall k :: k in r.matchers ==> !Mismatch(labels, r, k)) <==>
         !exists k :: k in r.matchers && r.matchers[k] == "" && k !in labels)
  {
    if Fits(labels, r) {
      forall k | k in r.matchers && Mismatch(labels, r, k) ensures r.matchers[k] == "" && k !in labels {
        assert LabelOf(labels, k) == r.matchers[k];
      }
    }
  }
}
