/** Ordering, paging and grouping the list: internal/dashboard/sort.go and remediations.go. */
module DashboardList {
  import opened Common
  import opened Records
  import opened Sorting
  import opened DashboardFilter

  // ---- The order --------------------------------------------------------------------------------

  datatype Column = Newest | ByAge | ByName | ByStrategyName | ByTarget | ByAlert | ByStateWord | ByTook

  datatype Order = Order(key: Column, desc: bool)

  /** How long an execution ran; one that never ran, or ended before it began, sorts as zero. */
  function Took(r: Record): Time {
    if r.startedAt.None? || r.completedAt.None? then 0
    else Max(r.completedAt.value - r.startedAt.value, 0)
  }

  /** Newest first, then by name: the default order, and the tie-break of every other. */
  predicate Newer(a: Record, b: Record) {
    if a.created == b.created then StringLess(a.name, b.name) else a.created > b.created
  }

  predicate Ahead(key: Column, a: Record, b: Record) {
    match key
    case ByName => StringLess(a.name, b.name)
    case ByStrategyName => StringLess(a.strategy, b.strategy)
    case ByTarget => StringLess(a.target, b.target)
    case ByAlert => StringLess(a.alert, b.alert)
    case ByStateWord => StringLess(DisplayState(a.state), DisplayState(b.state))
    case ByTook => Took(a) < Took(b)
    case _ => a.created < b.created
  }

  predicate Ties(key: Column, a: Record, b: Record) {
    match key
    case ByName => a.name == b.name
    case ByStrategyName => a.strategy == b.strategy
    case ByTarget => a.target == b.target
    case ByAlert => a.alert == b.alert
    case ByStateWord => DisplayState(a.state) == DisplayState(b.state)
    case ByTook => Took(a) == Took(b)
    case _ => a.created == b.created
  }

  /** The comparison Apply sorts with. */
  predicate Less(o: Order, a: Record, b: Record) {
    if o.key == Newest then Newer(a, b)
    else if Ties(o.key, a, b) then Newer(a, b)
    else if o.desc then !Ahead(o.key, a, b)
    else Ahead(o.key, a, b)
  }

  function Comparison(o: Order): (Record, Record) -> bool {
    (a, b) => Less(o, a, b)
  }

  /** What each column compares is totally ordered: two values tie, or one is ahead, never both. */
  lemma ColumnIsOrdered(key: Column, a: Record, b: Record, c: Record)
    ensures Ties(key, a, b) ==> !Ahead(key, a, b) && !Ahead(key, b, a)
    ensures !Ties(key, a, b) ==> (Ahead(key, a, b) <==> !Ahead(key, b, a))
    ensures Ahead(key, a, b) && Ahead(key, b, c) ==> Ahead(key, a, c)
    ensures Ties(key, a, b) <==> Ties(key, b, a)
    ensures Ties(key, a, b) ==> (Ahead(key, a, c) <==> Ahead(key, b, c)) && (Ahead(key, c, a) <==> Ahead(key, c, b))
    ensures Ties(key, a, b) && Ties(key, b, c) ==> Ties(key, a, c)
  {
    match key {
      case ByName => StringsAreOrdered(a.name, b.name, c.name);
      case ByStrategyName => StringsAreOrdered(a.strategy, b.strategy, c.strategy);
      case ByTarget => StringsAreOrdered(a.target, b.target, c.target);
      case ByAlert => StringsAreOrdered(a.alert, b.alert, c.alert);
      case ByStateWord => StringsAreOrdered(DisplayState(a.state), DisplayState(b.state), DisplayState(c.state));
      case _ =>
    }
  }

  lemma StringsAreOrdered(a: string, b: string, c: string)
    ensures !StringLess(a, a)
    ensures a != b ==> (StringLess(a, b) <==> !StringLess(b, a))
    ensures StringLess(a, b) && StringLess(b, c) ==> StringLess(a, c)
  {
    StringLessAsymmetric(a, a);
    StringLessAsymmetric(a, b);
    StringLessConnected(a, b);
    if StringLess(a, b) && StringLess(b, c) { StringLessTransitive(a, b, c); }
  }

  lemma NewerIsOrdered(a: Record, b: Record, c: Record)
    ensures !Newer(a, a) && (Newer(a, b) ==> !Newer(b, a))
    ensures a.name != b.name ==> Newer(a, b) || Newer(b, a)
    ensures !Newer(b, a) && !Newer(c, b) ==> !Newer(c, a)
  {
    StringsAreOrdered(a.name, b.name, c.name);
    StringsAreOrdered(b.name, c.name, a.name);
    StringsAreOrdered(c.name, b.name, a.name);
    StringLessAsymmetric(c.name, a.name);
  }

  /** Every column, in either direction, orders records strictly. */
  lemma LessIsOrdered(o: Order, a: Record, b: Record, c: Record)
    ensures Less(o, a, b) ==> !Less(o, b, a)
    ensures a.name != b.name ==> Less(o, a, b) || Less(o, b, a)
    ensures !Less(o, b, a) && !Less(o, c, b) ==> !Less(o, c, a)
  {
    ColumnIsOrdered(o.key, a, b, c);
    ColumnIsOrdered(o.key, b, c, a);
    ColumnIsOrdered(o.key, c, b, a);
    ColumnIsOrdered(o.key, c, a, b);
    NewerIsOrdered(a, b, c);
  }

  lemma OrderIsWeak(o: Order)
    ensures WeakOrder(Comparison(o))
  {
    forall a: Record, b: Record ensures Less(o, a, b) ==> !Less(o, b, a) {
      LessIsOrdered(o, a, b, a);
    }
    forall a: Record, b: Record, c: Record | !Less(o, b, a) && !Less(o, c, b) ensures !Less(o, c, a) {
      LessIsOrdered(o, a, b, c);
    }
  }

  ghost predicate DistinctNames(rs: seq<Record>) {
    forall a, b :: a in rs && b in rs && a.name == b.name ==> a == b
  }

  /** No column ties two records for good: by name if by nothing else, they are told apart. */
  lemma OrderSeparates(o: Order, rs: seq<Record>)
    requires DistinctNames(rs)
    ensures Separates(Comparison(o), rs)
  {
    forall a, b | a in rs && b in rs && a != b ensures Less(o, a, b) || Less(o, b, a) {
      LessIsOrdered(o, a, b, a);
    }
  }

  /** Sorting keeps the records and puts them in order. */
  lemma SortedList(o: Order, rs: seq<Record>)
    ensures var sorted := SortBy(Comparison(o), rs);
      SortedBy(Comparison(o), sorted) && multiset(sorted) == multiset(rs) && |sorted| == |rs|
  {
    OrderIsWeak(o);
    SortSorts(Comparison(o), rs);
    SortKeeps(Comparison(o), rs);
  }

  /** A column's values, one after another: rising, or falling when the order is reversed. */
  predicate Runs(desc: bool, a: int, b: int) {
    if desc then a >= b else a <= b
  }

  predicate RunsByWord(desc: bool, a: string, b: string) {
    a == b || (if desc then StringLess(b, a) else StringLess(a, b))
  }

  /** Of two that tie, the later made is ahead, and of two made at once, the lesser name. */
  predicate LaterAhead(a: Record, b: Record) {
    a.created > b.created || (a.created == b.created && (a.name == b.name || StringLess(a.name, b.name)))
  }

  /** How long an execution ran, from its own times. */
  predicate RanFor(r: Record, t: Time) {
    if r.startedAt.Some? && r.completedAt.Some? && r.completedAt.value > r.startedAt.value
    then t == r.completedAt.value - r.startedAt.value else t == 0
  }

  /** What the order in force puts one record before another for. */
  ghost predicate Stands(o: Order, a: Record, b: Record) {
    match o.key
    case Newest => LaterAhead(a, b)
    case ByAge => Runs(o.desc, a.created, b.created) && (a.created == b.created ==> LaterAhead(a, b))
    case ByName => RunsByWord(o.desc, a.name, b.name) && (a.name == b.name ==> LaterAhead(a, b))
    case ByStrategyName => RunsByWord(o.desc, a.strategy, b.strategy) && (a.strategy == b.strategy ==> LaterAhead(a, b))
    case ByTarget => RunsByWord(o.desc, a.target, b.target) && (a.target == b.target ==> LaterAhead(a, b))
    case ByAlert => RunsByWord(o.desc, a.alert, b.alert) && (a.alert == b.alert ==> LaterAhead(a, b))
    case ByStateWord =>
      var v, w := DisplayState(a.state), DisplayState(b.state);
      RunsByWord(o.desc, v, w) && (v == w ==> LaterAhead(a, b))
    case ByTook => exists s, t :: RanFor(a, s) && RanFor(b, t) && Runs(o.desc, s, t) && (s == t ==> LaterAhead(a, b))
  }

  lemma NotLessStands(o: Order, a: Record, b: Record)
    requires !Less(o, b, a)
    ensures Stands(o, a, b)
  {
    StringLessConnected(a.name, b.name);
    match o.key {
      case ByName => WordsStand(a.name, b.name);
      case ByStrategyName => WordsStand(a.strategy, b.strategy);
      case ByTarget => WordsStand(a.target, b.target);
      case ByAlert => WordsStand(a.alert, b.alert);
      case ByStateWord => WordsStand(DisplayState(a.state), DisplayState(b.state));
      case ByTook => assert RanFor(a, Took(a)) && RanFor(b, Took(b));
      case _ =>
    }
  }

  lemma WordsStand(v: string, w: string)
    ensures v == w || StringLess(v, w) || StringLess(w, v)
  {
    StringLessConnected(v, w);
  }

  /** The list, read down: by the column's values in the direction asked for, ties newest first and then by name. */
  lemma ReadsInOrder(o: Order, rs: seq<Record>, i: nat, j: nat)
    requires i < j < |rs|
    ensures var sorted := SortBy(Comparison(o), rs); |sorted| == |rs| && Stands(o, sorted[i], sorted[j])
  {
    SortedList(o, rs);
    var sorted := SortBy(Comparison(o), rs);
    assert !Comparison(o)(sorted[j], sorted[i]);
    NotLessStands(o, sorted[i], sorted[j]);
  }

  /** Apply, on a slice. */
  method Apply(o: Order, rs: array<Record>)
    modifies rs
    ensures rs[..] == SortBy(Comparison(o), old(rs[..]))
    ensures SortedBy(Comparison(o), rs[..]) && multiset(rs[..]) == multiset(old(rs[..]))
  {
    var sorted := SortBy(Comparison(o), rs[..]);
    SortedList(o, rs[..]);
    forall i | 0 <= i < rs.Length {
      rs[i] := sorted[i];
    }
    assert rs[..] == sorted;
  }

  /** A column in force has one result, whatever order the records come in. */
  lemma OrderIgnoresInput(o: Order, rs: seq<Record>, listed: seq<Record>)
    requires DistinctNames(rs) && multiset(rs) == multiset(listed)
    ensures SortBy(Comparison(o), rs) == SortBy(Comparison(o), listed)
  {
    OrderIsWeak(o);
    OrderSeparates(o, rs);
    SortIgnoresInputOrder(Comparison(o), rs, listed);
  }

  // ---- Pages ------------------------------------------------------------------------------------

  const PAGE_SIZE := 100

  function Pages(total: nat): (n: nat)
    ensures n >= 1
  {
    Max((total + PAGE_SIZE - 1) / PAGE_SIZE, 1)
  }

  /** A page that does not exist stands for the nearest one that does. */
  function Clamped(page: int, total: nat): (p: nat)
    ensures 1 <= p <= Pages(total)
  {
    Min(Max(page, 1), Pages(total))
  }

  datatype Paging = Paging(page: nat, pages: nat, first: nat, last: nat, prev: Option<nat>, next: Option<nat>)

  function PageOf(total: nat, page: int): Paging {
    var p := Clamped(page, total);
    Paging(p, Pages(total), if total == 0 then 0 else (p - 1) * PAGE_SIZE + 1, Min(p * PAGE_SIZE, total),
           if p > 1 then Some(p - 1) else None, if p < Pages(total) then Some(p + 1) else None)
  }

  function Drawn(kept: seq<Record>, page: int): seq<Record> {
    var start := Min((Clamped(page, |kept|) - 1) * PAGE_SIZE, |kept|);
    kept[start..Min(start + PAGE_SIZE, |kept|)]
  }

  /** A page that exists is itself; before the first is the first, past the last is the last. */
  lemma ClampedIs(page: int, total: nat)
    ensures 1 <= page <= Pages(total) ==> Clamped(page, total) == page
    ensures page < 1 ==> Clamped(page, total) == 1
    ensures page > Pages(total) ==> Clamped(page, total) == Pages(total)
    ensures (Pages(total) - 1) * 100 < Max(total, 1) <= Pages(total) * 100
  {
  }

  /** The first n pages, one after another. */
  function FirstPages(kept: seq<Record>, n: nat): seq<Record> {
    if n == 0 then [] else FirstPages(kept, n - 1) + Drawn(kept, n)
  }

  lemma {:induction false} FirstPagesAreAPrefix(kept: seq<Record>, n: nat)
    requires n <= Pages(|kept|)
    ensures FirstPages(kept, n) == kept[..Min(n * PAGE_SIZE, |kept|)]
  {
    if n > 0 {
      FirstPagesAreAPrefix(kept, n - 1);
      var start := Min((n - 1) * PAGE_SIZE, |kept|);
      assert kept[..start] + kept[start..Min(start + PAGE_SIZE, |kept|)] == kept[..Min(start + PAGE_SIZE, |kept|)];
    }
  }

  /** Turning every page shows every record once, in order. */
  lemma PagesAreTheWholeList(kept: seq<Record>)
    ensures FirstPages(kept, Pages(|kept|)) == kept
  {
    FirstPagesAreAPrefix(kept, Pages(|kept|));
    assert kept[..|kept|] == kept;
  }

  /** What a page says it shows is what it draws, and only the only page of an empty list is empty. */
  lemma PagingSaysWhatIsDrawn(kept: seq<Record>, page: int)
    ensures var paging := PageOf(|kept|, page);
      && |Drawn(kept, page)| <= PAGE_SIZE
      && (kept != [] ==> Drawn(kept, page) == kept[paging.first - 1..paging.last] && Drawn(kept, page) != [])
      && (paging.prev.None? <==> paging.page == 1) && (paging.next.None? <==> paging.last == |kept|)
      && (paging.prev.Some? ==> paging.prev.value == paging.page - 1) && (paging.next.Some? ==> paging.next.value == paging.page + 1)
      && paging.page == Clamped(page, |kept|) && paging.pages == Pages(|kept|) && (kept == [] ==> paging.first == paging.last == 0)
  {
    PageBounds(|kept|, Clamped(page, |kept|));
  }

  /** Each page begins inside the list, and the last one, no other, ends it. */
  lemma PageBounds(total: nat, p: nat)
    requires 1 <= p <= Pages(total)
    ensures total > 0 ==> (p - 1) * PAGE_SIZE < total
    ensures p * PAGE_SIZE == (p - 1) * PAGE_SIZE + PAGE_SIZE
    ensures p == Pages(total) <==> total <= p * PAGE_SIZE
  {
    var n := (total + PAGE_SIZE - 1) / PAGE_SIZE;
    assert n * PAGE_SIZE - PAGE_SIZE < total <= n * PAGE_SIZE;
  }

  // ---- Lines ------------------------------------------------------------------------------------

  datatype Line = Line(first: Record, count: nat)

  /** Two records that print the same line. */
  predicate SameFact(a: Record, b: Record) {
    a.strategy == b.strategy && a.target == b.target && a.alert == b.alert && a.state == b.state
  }

  /** How many records from the start of a page say what the first one says. */
  function RunLength(page: seq<Record>, first: Record): (n: nat)
    ensures n <= |page|
  {
    if page == [] || !SameFact(first, page[0]) then 0 else 1 + RunLength(page[1..], first)
  }

  function LineLength(page: seq<Record>, group: bool): (n: nat)
    requires page != []
    ensures 1 <= n <= |page|
  {
    if group then 1 + RunLength(page[1..], page[0]) else 1
  }

  function Lines(page: seq<Record>, group: bool): seq<Line>
    decreases |page|
  {
    if page == [] then []
    else
      var n := LineLength(page, group);
      [Line(page[0], n)] + Lines(page[n..], group)
  }

  lemma {:induction false} RunGrows(page: seq<Record>, first: Record, n: nat)
    requires n <= |page| && forall k :: 0 <= k < n ==> SameFact(first, page[k])
    requires n < |page| ==> !SameFact(first, page[n])
    ensures RunLength(page, first) == n
  {
    if n > 0 {
      RunGrows(page[1..], first, n - 1);
    }
  }

  /** The inner loop: how far the run of the record at i goes. */
  method RunEnd(page: seq<Record>, i: nat, group: bool) returns (run: nat)
    requires i < |page|
    ensures run == i + LineLength(page[i..], group)
  {
    run := i + 1;
    if group {
      while run < |page| && SameFact(page[i], page[run])
        invariant i < run <= |page|
        invariant forall k :: i < k < run ==> SameFact(page[i], page[k])
      {
        run := run + 1;
      }
      assert page[i..][1..] == page[i + 1..];
      RunGrows(page[i + 1..], page[i], run - i - 1);
    }
  }

  method BuildLines(page: seq<Record>, group: bool) returns (lines: seq<Line>)
    ensures lines == Lines(page, group)
  {
    lines := [];
    var i := 0;
    assert page[0..] == page;
    while i < |page|
      invariant 0 <= i <= |page| && lines + Lines(page[i..], group) == Lines(page, group)
    {
      var run := RunEnd(page, i, group);
      assert page[i..][run - i..] == page[run..];
      Associates(lines, [Line(page[i], run - i)], Lines(page[run..], group));
      lines := lines + [Line(page[i], run - i)];
      i := run;
    }
    assert page[i..] == [];
  }

  // ---- What the lines say -----------------------------------------------------------------------

  /** The records covered by the first n lines. */
  function Covered(lines: seq<Line>, n: nat): nat
    requires n <= |lines|
  {
    if n == 0 then 0 else Covered(lines, n - 1) + lines[n - 1].count
  }

  lemma {:induction false} CoveredTail(line: Line, rest: seq<Line>, n: nat)
    requires n <= |rest|
    ensures Covered([line] + rest, n + 1) == line.count + Covered(rest, n)
  {
    if n > 0 {
      CoveredTail(line, rest, n - 1);
      assert ([line] + rest)[n] == rest[n - 1];
    } else {
      assert ([line] + rest)[0] == line;
    }
  }

  lemma {:induction false} RunIsSame(page: seq<Record>, first: Record, k: nat)
    requires k < RunLength(page, first)
    ensures SameFact(first, page[k])
  {
    if k > 0 { RunIsSame(page[1..], first, k - 1); }
  }

  lemma {:induction false} RunStops(page: seq<Record>, first: Record)
    requires RunLength(page, first) < |page|
    ensures !SameFact(first, page[RunLength(page, first)])
  {
    if RunLength(page, first) > 0 { RunStops(page[1..], first); }
  }

  /** Line n stands for its own stretch of the page, and every record on it says what the line says. */
  ghost predicate StandsFor(page: seq<Record>, lines: seq<Line>, n: nat)
    requires n < |lines|
  {
    var from := Covered(lines, n);
    && lines[n].count >= 1 && from + lines[n].count <= |page|
    && lines[n].first == page[from]
    && forall k :: from <= k < from + lines[n].count ==> SameFact(page[from], page[k])
  }

  lemma FirstLine(page: seq<Record>, group: bool)
    requires page != []
    ensures StandsFor(page, Lines(page, group), 0)
    ensures group && LineLength(page, group) < |page| ==> !SameFact(page[0], page[LineLength(page, group)])
  {
    var n := LineLength(page, group);
    forall k | 0 <= k < n ensures SameFact(page[0], page[k]) {
      if k > 0 { RunIsSame(page[1..], page[0], k - 1); }
    }
    if group && n < |page| {
      RunStops(page[1..], page[0]);
    }
  }

  /**
    * The lines of a page are the page: their counts add up to the records drawn, line after line
    * stands for the next stretch of equal records, and grouped lines that follow one another differ.
    */
  lemma {:induction false} LinesAreThePage(page: seq<Record>, group: bool)
    ensures var lines := Lines(page, group);
      && Covered(lines, |lines|) == |page|
      && (forall n :: 0 <= n < |lines| ==> StandsFor(page, lines, n))
      && (group ==> forall n :: 0 < n < |lines| ==> !SameFact(lines[n - 1].first, lines[n].first))
      && (!group ==> |lines| == |page|)
    decreases |page|
  {
    if page != [] {
      var n := LineLength(page, group);
      var rest := Lines(page[n..], group);
      var lines := Lines(page, group);
      assert lines == [Line(page[0], n)] + rest;
      LinesAreThePage(page[n..], group);
      FirstLine(page, group);
      CoveredTail(Line(page[0], n), rest, |rest|);
      forall m | 0 < m < |lines| ensures StandsFor(page, lines, m) {
        LaterLine(page, n, rest, m);
      }
      forall m | group && 0 < m < |lines| ensures !SameFact(lines[m - 1].first, lines[m].first) {
        if m == 1 {
          assert StandsFor(page[n..], rest, 0);
        } else {
          assert lines[m - 1] == rest[m - 2] && lines[m] == rest[m - 1];
        }
      }
    }
  }

  lemma LaterLine(page: seq<Record>, n: nat, rest: seq<Line>, m: nat)
    requires 1 <= n <= |page| && 0 < m <= |rest| && StandsFor(page[n..], rest, m - 1)
    ensures StandsFor(page, [Line(page[0], n)] + rest, m)
  {
    var lines := [Line(page[0], n)] + rest;
    CoveredTail(Line(page[0], n), rest, m - 1);
    var from := Covered(rest, m - 1);
    assert lines[m] == rest[m - 1];
    forall k | n + from <= k < n + from + lines[m].count ensures SameFact(page[n + from], page[k]) {
      assert page[k] == page[n..][k - n];
    }
  }

  // ---- Where a group leads ----------------------------------------------------------------------

  /** The list narrowed to what a line says, on top of the filter in force. */
  function RunFilter(base: Filter, r: Record): Filter {
    base.(strategy := r.strategy, target := r.target, alert := r.alert, state := DisplayState(r.state))
  }

  /** The link of a group shows every record of its run. */
  lemma LinkShowsTheRun(base: Filter, rs: seq<Record>, group: bool, n: nat, k: nat)
    requires n < |Lines(rs, group)| && forall r :: r in rs ==> Matches(base, r)
    requires Covered(Lines(rs, group), n) <= k < Covered(Lines(rs, group), n) + Lines(rs, group)[n].count
    ensures k < |rs| && Matches(RunFilter(base, Lines(rs, group)[n].first), rs[k])
  {
    LinesAreThePage(rs, group);
    assert StandsFor(rs, Lines(rs, group), n);
    assert rs[k] in rs;
  }

  /** Two records whose lines read the same; it is the word of the state that is printed. */
  predicate PrintsTheSame(a: Record, b: Record) {
    a.strategy == b.strategy && a.target == b.target && a.alert == b.alert && DisplayState(a.state) == DisplayState(b.state)
  }

  /**
    * What the link of a group shows: of the records the filter in force kept, exactly those whose
    * line reads the same, provided the line names its strategy, target and alert. A line that leaves
    * one of them empty shows records of any value there.
    */
  lemma LinkShowsWhatReadsTheSame(base: Filter, first: Record, r: Record)
    requires Matches(base, first)
    ensures first.strategy != "" && first.target != "" && first.alert != "" ==>
      (Matches(RunFilter(base, first), r) <==> Matches(base, r) && PrintsTheSame(first, r))
    ensures Matches(RunFilter(base, first), r) <==>
      && (base.namespace != "" ==> TargetNamespace(r.target) == base.namespace)
      && (base.escalation != "" ==> EscalationOutcome(r) == base.escalation)
      && DisplayState(r.state) == DisplayState(first.state)
      && (first.strategy != "" ==> r.strategy == first.strategy)
      && (first.target != "" ==> r.target == first.target)
      && (first.alert != "" ==> r.alert == first.alert)
  {
  }

  /** Lines that follow one another read differently, unless one record is new and the other pending. */
  lemma AdjacentLinesReadDifferentlyIff(a: Record, b: Record)
    requires !SameFact(a, b)
    ensures PrintsTheSame(a, b) <==>
      a.strategy == b.strategy && a.target == b.target && a.alert == b.alert && {a.state, b.state} == {New, Pending}
  {
    if PrintsTheSame(a, b) {
      assert a.state != b.state;
      assert a.state in {New, Pending} && b.state in {New, Pending};
    }
    if {a.state, b.state} == {New, Pending} {
      assert a.state in {a.state, b.state} && b.state in {a.state, b.state};
    }
  }

  function Sample(name: string, created: Time, state: State): Record {
    Record(name, created, "s", "deployment/n/t", "a", state, None, None, None)
  }

  /** A group of two whose link, without any filter, shows three: a run is not all there is to say. */
  lemma LinkShowsMoreThanTheRun()
    ensures var page := [Sample("d", 4, Failed), Sample("c", 3, Failed), Sample("b", 2, Succeeded), Sample("a", 1, Failed)];
      var all := Filter("", "", "", "", "", "");
      && Lines(page, true) != [] && Lines(page, true)[0] == Line(page[0], 2)
      && |Kept(RunFilter(all, page[0]), page)| == 3
  {
    var d, c, b, a := Sample("d", 4, Failed), Sample("c", 3, Failed), Sample("b", 2, Succeeded), Sample("a", 1, Failed);
    var page := [d, c, b, a];
    assert page[1..] == [c, b, a] && [c, b, a][1..] == [b, a];
    assert RunLength([b, a], d) == 0;
    assert RunLength([c, b, a], d) == 1;
    var f := RunFilter(Filter("", "", "", "", "", ""), d);
    assert page[..3] == [d, c, b] && [d, c, b][..2] == [d, c] && [d, c][..1] == [d] && [d][..0] == [];
    assert Kept(f, [d]) == [d];
    assert Kept(f, [d, c]) == [d, c];
    assert Kept(f, [d, c, b]) == [d, c];
  }

  // ---- The whole list ---------------------------------------------------------------------------

  datatype View = View(total: nat, totalUnfiltered: nat, shown: nat, collapsed: nat, paging: Paging, rows: seq<Line>)

  function GroupsAdjacent(o: Order): bool {
    o.key == Newest || o.key == ByAge
  }

  const NEWEST_FIRST := Order(Newest, false)

  /** The records a list page is about: kept by the filter, in the order in force. */
  function Listed(rs: seq<Record>, f: Filter, o: Order): seq<Record> {
    SortBy(Comparison(o), Kept(f, SortBy(Comparison(NEWEST_FIRST), rs)))
  }

  /** The kept records in the order in force, sorted in a slice of their own. */
  method InOrder(kept: seq<Record>, o: Order) returns (listed: seq<Record>)
    ensures listed == SortBy(Comparison(o), kept) && |listed| == |kept|
  {
    var slice := new Record[|kept|](i requires 0 <= i < |kept| => kept[i]);
    assert slice[..] == kept;
    Apply(o, slice);
    listed := slice[..];
    SortKeeps(Comparison(o), kept);
  }

  method DrawPage(listed: seq<Record>, page: int) returns (drawn: seq<Record>, paging: Paging)
    ensures drawn == Drawn(listed, page) && paging == PageOf(|listed|, page)
  {
    paging := PageOf(|listed|, page);
    var start := Min((paging.page - 1) * PAGE_SIZE, |listed|);
    drawn := listed[start..Min(start + PAGE_SIZE, |listed|)];
  }

  method BuildRemediations(rs: seq<Record>, f: Filter, o: Order, page: int) returns (v: View)
    ensures var listed := Listed(rs, f, o);
      && v.rows == Lines(Drawn(listed, page), GroupsAdjacent(o))
      && v.total == |listed| == |Kept(f, SortBy(Comparison(NEWEST_FIRST), rs))| && v.totalUnfiltered == |rs|
      && v.paging == PageOf(v.total, page)
      && v.shown == |Drawn(listed, page)| == Covered(v.rows, |v.rows|)
      && v.collapsed + |v.rows| == v.shown
  {
    var ordered := InOrder(rs, NEWEST_FIRST);
    var kept := ApplyFilter(ordered, f);
    var listed := InOrder(kept, o);
    var drawn, paging := DrawPage(listed, page);
    var rows := BuildLines(drawn, GroupsAdjacent(o));
    LinesAreThePage(drawn, GroupsAdjacent(o));
    NoMoreLinesThanRecords(drawn, GroupsAdjacent(o));
    v := View(|listed|, |ordered|, |drawn|, |drawn| - |rows|, paging, rows);
  }

  lemma {:induction false} NoMoreLinesThanRecords(page: seq<Record>, group: bool)
    ensures |Lines(page, group)| <= |page|
    decreases |page|
  {
    if page != [] { NoMoreLinesThanRecords(page[LineLength(page, group)..], group); }
  }

  /** Records are grouped when the list runs by time, and only then. */
  lemma GroupsByTimeOnly(listed: seq<Record>, o: Order, n: nat)
    requires n < |Lines(listed, GroupsAdjacent(o))|
    ensures o.key != Newest && o.key != ByAge ==> Lines(listed, GroupsAdjacent(o))[n].count == 1
    ensures (o.key == Newest || o.key == ByAge) && n > 0 ==>
      !SameFact(Lines(listed, GroupsAdjacent(o))[n - 1].first, Lines(listed, GroupsAdjacent(o))[n].first)
  {
    LinesAreThePage(listed, GroupsAdjacent(o));
    if o.key != Newest && o.key != ByAge { UngroupedLines(listed, n); }
  }

  lemma {:induction false} UngroupedLines(page: seq<Record>, n: nat)
    requires n < |Lines(page, false)|
    ensures Lines(page, false)[n].count == 1
    decreases |page|
  {
    if n > 0 { UngroupedLines(page[LineLength(page, false)..], n - 1); }
  }

  /** The page drawn does not depend on the order the records were listed in. */
  lemma PageIgnoresListingOrder(rs: seq<Record>, listed: seq<Record>, f: Filter, o: Order, page: int)
    requires DistinctNames(rs) && multiset(rs) == multiset(listed)
    ensures Listed(rs, f, o) == Listed(listed, f, o)
    ensures Lines(Drawn(Listed(rs, f, o), page), GroupsAdjacent(o)) == Lines(Drawn(Listed(listed, f, o), page), GroupsAdjacent(o))
  {
    OrderIgnoresInput(NEWEST_FIRST, rs, listed);
  }

  // ---- Exactly the run --------------------------------------------------------------------------

  lemma {:induction false} KeptAppend(f: Filter, a: seq<Record>, b: seq<Record>)
    ensures Kept(f, a + b) == Kept(f, a) + Kept(f, b)
  {
    if b == [] {
      assert a + b == a && Kept(f, a) + [] == Kept(f, a);
    } else {
      var n := |b| - 1;
      KeptAppend(f, a, b[..n]);
      assert (a + b)[..|a + b| - 1] == a + b[..n];
      Associates(Kept(f, a), Kept(f, b[..n]), if Matches(f, b[n]) then [b[n]] else []);
    }
  }

  lemma {:induction false} KeptMembers(f: Filter, s: seq<Record>, r: Record)
    ensures r in Kept(f, s) <==> r in s && Matches(f, r)
  {
    if s != [] {
      KeptMembers(f, s[..|s| - 1], r);
      assert s == s[..|s| - 1] + [s[|s| - 1]];
    }
  }

  lemma {:induction false} KeptAll(f: Filter, s: seq<Record>)
    requires forall r :: r in s ==> Matches(f, r)
    ensures Kept(f, s) == s
  {
    if s != [] {
      var n := |s| - 1;
      KeptAll(f, s[..n]);
      assert s[n] in s && s[..n] + [s[n]] == s;
    }
  }

  lemma KeptNoneIff(f: Filter, s: seq<Record>)
    ensures Kept(f, s) == [] <==> forall r :: r in s ==> !Matches(f, r)
  {
    if Kept(f, s) == [] {
      forall r | r in s ensures !Matches(f, r) {
        KeptMembers(f, s, r);
      }
    } else {
      assert Kept(f, s)[0] in Kept(f, s);
      KeptMembers(f, s, Kept(f, s)[0]);
    }
  }

  /** What a filter keeps of a list, around a stretch that it matches throughout. */
  lemma KeptAround(f: Filter, s: seq<Record>, lo: nat, hi: nat)
    requires lo <= hi <= |s| && forall k :: lo <= k < hi ==> Matches(f, s[k])
    ensures Kept(f, s) == Kept(f, s[..lo]) + s[lo..hi] + Kept(f, s[hi..])
  {
    assert s == s[..lo] + s[lo..hi] + s[hi..];
    KeptAppend(f, s[..lo] + s[lo..hi], s[hi..]);
    KeptAppend(f, s[..lo], s[lo..hi]);
    forall r | r in s[lo..hi] ensures Matches(f, r) {
      var k :| lo <= k < hi && s[k] == r;
    }
    KeptAll(f, s[lo..hi]);
  }

  lemma NothingAround(a: seq<Record>, t: seq<Record>, b: seq<Record>)
    ensures a + t + b == t <==> a == [] && b == []
  {
    assert |a + t + b| == |a| + |t| + |b|;
  }

  predicate Outside(k: nat, lo: nat, hi: nat) {
    !(lo <= k < hi)
  }

  lemma NoneOutsideIff(f: Filter, s: seq<Record>, lo: nat, hi: nat)
    requires lo <= hi <= |s|
    ensures Kept(f, s[..lo]) == [] && Kept(f, s[hi..]) == [] <==> forall k :: 0 <= k < |s| && Outside(k, lo, hi) ==> !Matches(f, s[k])
  {
    KeptNoneIff(f, s[..lo]);
    KeptNoneIff(f, s[hi..]);
    if forall k :: 0 <= k < |s| && Outside(k, lo, hi) ==> !Matches(f, s[k]) {
      forall r | r in s[..lo] || r in s[hi..] ensures !Matches(f, r) {
        var k :| 0 <= k < |s| && Outside(k, lo, hi) && s[k] == r;
      }
    } else {
      var k :| 0 <= k < |s| && Outside(k, lo, hi) && Matches(f, s[k]);
      if k < lo { assert s[..lo][k] in s[..lo]; } else { assert s[hi..][k - hi] in s[hi..]; }
    }
  }

  /** A filter that a whole stretch of a list matches keeps exactly that stretch when nothing else matches it. */
  lemma KeptIsTheStretchIff(f: Filter, s: seq<Record>, lo: nat, hi: nat)
    requires lo <= hi <= |s| && forall k :: lo <= k < hi ==> Matches(f, s[k])
    ensures Kept(f, s) == s[lo..hi] <==> forall k :: 0 <= k < |s| && Outside(k, lo, hi) ==> !Matches(f, s[k])
  {
    KeptAround(f, s, lo, hi);
    NothingAround(Kept(f, s[..lo]), s[lo..hi], Kept(f, s[hi..]));
    NoneOutsideIff(f, s, lo, hi);
  }

  lemma {:induction false} KeptStaysSorted(f: Filter, o: Order, s: seq<Record>)
    requires SortedBy(Comparison(o), s)
    ensures SortedBy(Comparison(o), Kept(f, s))
  {
    if s != [] {
      var n := |s| - 1;
      KeptStaysSorted(f, o, s[..n]);
      forall i | 0 <= i < |Kept(f, s[..n])| ensures !Less(o, s[n], Kept(f, s[..n])[i]) {
        KeptMembers(f, s[..n], Kept(f, s[..n])[i]);
        var j :| 0 <= j < n && s[..n][j] == Kept(f, s[..n])[i];
        assert !Comparison(o)(s[n], s[j]);
      }
    }
  }

  lemma ListedOnce(rs: seq<Record>, f: Filter, o: Order, r: Record)
    ensures multiset(Listed(rs, f, o))[r] == if Matches(f, r) then multiset(rs)[r] else 0
  {
    var newest := SortBy(Comparison(NEWEST_FIRST), rs);
    SortedList(NEWEST_FIRST, rs);
    KeptBag(f, newest, r);
    SortedList(o, Kept(f, newest));
  }

  lemma ListedMembers(rs: seq<Record>, f: Filter, o: Order, r: Record)
    ensures r in Listed(rs, f, o) <==> r in rs && Matches(f, r)
  {
    ListedOnce(rs, f, o, r);
    assert r in Listed(rs, f, o) <==> r in multiset(Listed(rs, f, o));
    assert r in rs <==> r in multiset(rs);
  }

  /** Narrowing the filter keeps what matches of the list, in place. */
  lemma NarrowerListIsKept(rs: seq<Record>, base: Filter, f: Filter, o: Order)
    requires DistinctNames(rs) && forall r :: Matches(f, r) ==> Matches(base, r)
    ensures Listed(rs, f, o) == Kept(f, Listed(rs, base, o))
  {
    var narrow, wide := Listed(rs, f, o), Listed(rs, base, o);
    forall r ensures multiset(narrow)[r] == multiset(Kept(f, wide))[r] {
      ListedOnce(rs, f, o, r);
      ListedOnce(rs, base, o, r);
      KeptBag(f, wide, r);
    }
    SortedList(o, Kept(f, SortBy(Comparison(NEWEST_FIRST), rs)));
    SortedList(o, Kept(base, SortBy(Comparison(NEWEST_FIRST), rs)));
    KeptStaysSorted(f, o, wide);
    forall r ensures r in narrow ==> r in rs {
      ListedMembers(rs, f, o, r);
    }
    assert DistinctNames(narrow);
    OrderIsWeak(o);
    OrderSeparates(o, narrow);
    SortedIsUnique(Comparison(o), narrow, Kept(f, wide));
  }

  /** The stretch of the list a line of a drawn page stands for. */
  function StretchFrom(listed: seq<Record>, page: int, lines: seq<Line>, n: nat): nat
    requires n < |lines|
  {
    Min((Clamped(page, |listed|) - 1) * PAGE_SIZE, |listed|) + Covered(lines, n)
  }

  /** A line stands for the stretch of a list that begins here: all of it says what the line says. */
  ghost predicate Stretch(listed: seq<Record>, line: Line, lo: nat) {
    && line.count >= 1 && lo + line.count <= |listed| && line.first == listed[lo]
    && forall k :: lo <= k < lo + line.count ==> SameFact(line.first, listed[k])
  }

  /** A record that says what a line says, wherever the line says anything: an empty value asks for nothing. */
  predicate SaysAsMuch(first: Record, r: Record) {
    && DisplayState(r.state) == DisplayState(first.state)
    && (first.strategy != "" ==> r.strategy == first.strategy)
    && (first.target != "" ==> r.target == first.target)
    && (first.alert != "" ==> r.alert == first.alert)
  }

  /** No record of the list outside that stretch does. */
  ghost predicate NothingElseSaysAsMuch(listed: seq<Record>, line: Line, lo: nat) {
    forall k :: 0 <= k < |listed| && Outside(k, lo, lo + line.count) ==> !SaysAsMuch(line.first, listed[k])
  }

  lemma StretchInTheList(listed: seq<Record>, page: int, group: bool, n: nat)
    requires n < |Lines(Drawn(listed, page), group)|
    ensures var lines := Lines(Drawn(listed, page), group); Stretch(listed, lines[n], StretchFrom(listed, page, lines, n))
  {
    var drawn := Drawn(listed, page);
    var lines := Lines(drawn, group);
    LinesAreThePage(drawn, group);
    assert StandsFor(drawn, lines, n);
    var start := Min((Clamped(page, |listed|) - 1) * PAGE_SIZE, |listed|);
    ShiftedStretch(listed, start, drawn, Covered(lines, n), lines[n].count);
  }

  lemma ShiftedStretch(listed: seq<Record>, start: nat, drawn: seq<Record>, from: nat, count: nat)
    requires start + |drawn| <= |listed| && drawn == listed[start..start + |drawn|]
    requires count >= 1 && from + count <= |drawn| && forall k :: from <= k < from + count ==> SameFact(drawn[from], drawn[k])
    ensures drawn[from] == listed[start + from]
    ensures forall k :: start + from <= k < start + from + count ==> SameFact(drawn[from], listed[k])
  {
    forall k | start + from <= k < start + from + count ensures SameFact(drawn[from], listed[k]) {
      assert drawn[k - start] == listed[k];
    }
  }

  /** What the link keeps of a list that the filter in force has already narrowed. */
  lemma LinkKeepsTheStretchIff(base: Filter, listed: seq<Record>, line: Line, lo: nat)
    requires Stretch(listed, line, lo) && forall k :: 0 <= k < |listed| ==> Matches(base, listed[k])
    ensures Kept(RunFilter(base, line.first), listed) == listed[lo..lo + line.count] <==> NothingElseSaysAsMuch(listed, line, lo)
  {
    forall k | 0 <= k < |listed| ensures Matches(RunFilter(base, line.first), listed[k]) <==> SaysAsMuch(line.first, listed[k]) {
      LinkShowsWhatReadsTheSame(base, line.first, listed[k]);
    }
    KeptIsTheStretchIff(RunFilter(base, line.first), listed, lo, lo + line.count);
  }

  lemma EveryListedMatches(rs: seq<Record>, base: Filter, o: Order)
    ensures forall k :: 0 <= k < |Listed(rs, base, o)| ==> Matches(base, Listed(rs, base, o)[k])
  {
    var listed := Listed(rs, base, o);
    forall k | 0 <= k < |listed| ensures Matches(base, listed[k]) {
      assert listed[k] in listed;
      ListedMembers(rs, base, o, listed[k]);
    }
  }

  /** The list a link opens, in the order in force, is the one it was on, narrowed in place. */
  lemma LinkNarrows(rs: seq<Record>, base: Filter, o: Order, first: Record)
    requires DistinctNames(rs) && Matches(base, first)
    ensures Listed(rs, RunFilter(base, first), o) == Kept(RunFilter(base, first), Listed(rs, base, o))
  {
    forall r ensures Matches(RunFilter(base, first), r) ==> Matches(base, r) {
      NarrowerThanBase(base, first, r);
    }
    NarrowerListIsKept(rs, base, RunFilter(base, first), o);
  }

  lemma NarrowerThanBase(base: Filter, first: Record, r: Record)
    requires Matches(base, first)
    ensures Matches(RunFilter(base, first), r) ==> Matches(base, r)
  {
  }

  /** The page a group's link opens holds exactly the stretch its line stands for. */
  ghost predicate OpensTheRun(rs: seq<Record>, base: Filter, o: Order, line: Line, lo: nat)
    requires Stretch(Listed(rs, base, o), line, lo)
  {
    Listed(rs, RunFilter(base, line.first), o) == Listed(rs, base, o)[lo..lo + line.count]
  }

  /**
    * Whatever the filter, the order and the page: a group's link opens exactly the stretch of the list
    * its line stands for if and only if no listed record outside that stretch, on this page or
    * another, has the line's state and agrees with it on each of strategy, target and alert that the
    * line names.
    */
  lemma LinkIsExactlyTheRunIff(rs: seq<Record>, base: Filter, o: Order, page: int, group: bool, n: nat)
    requires DistinctNames(rs) && n < |Lines(Drawn(Listed(rs, base, o), page), group)|
    ensures var listed := Listed(rs, base, o);
      var lines := Lines(Drawn(listed, page), group);
      var lo := StretchFrom(listed, page, lines, n);
      && Stretch(listed, lines[n], lo)
      && (OpensTheRun(rs, base, o, lines[n], lo) <==> NothingElseSaysAsMuch(listed, lines[n], lo))
  {
    var listed := Listed(rs, base, o);
    var lines := Lines(Drawn(listed, page), group);
    var lo := StretchFrom(listed, page, lines, n);
    StretchInTheList(listed, page, group, n);
    EveryListedMatches(rs, base, o);
    OpensTheRunIff(rs, base, o, listed, lines[n], lo);
  }

  lemma OpensTheRunIff(rs: seq<Record>, base: Filter, o: Order, listed: seq<Record>, line: Line, lo: nat)
    requires DistinctNames(rs) && listed == Listed(rs, base, o) && Stretch(listed, line, lo)
    requires forall k :: 0 <= k < |listed| ==> Matches(base, listed[k])
    ensures OpensTheRun(rs, base, o, line, lo) <==> NothingElseSaysAsMuch(listed, line, lo)
  {
    LinkNarrows(rs, base, o, line.first);
    LinkKeepsTheStretchIff(base, listed, line, lo);
  }

  /** An execution whose target could not be resolved has a link that shows those of every target. */
  lemma UnresolvedTargetShowsEveryTarget()
    ensures var a, b := Sample("b", 2, Failed).(target := ""), Sample("a", 1, Failed);
      var all := Filter("", "", "", "", "", "");
      && Lines([a, b], true) == [Line(a, 1), Line(b, 1)] && !PrintsTheSame(a, b)
      && Kept(RunFilter(all, a), [a, b]) == [a, b]
  {
    var a, b := Sample("b", 2, Failed).(target := ""), Sample("a", 1, Failed);
    assert [a, b][1..] == [b] && [b][1..] == [] && [a, b][..1] == [a] && [a][..0] == [];
    assert RunLength([b], a) == 0 && RunLength([], b) == 0;
    assert Lines([b], true) == [Line(b, 1)];
    assert Kept(RunFilter(Filter("", "", "", "", "", ""), a), [a]) == [a];
  }
}
