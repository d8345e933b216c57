/**
  * The give-up records, and so the pages, of one trip of the give-up guard: internal/engine/sink.go,
  * with other deliveries, and everything that may happen to the records, in between.
  */
module GiveUps {
  import opened Common
  import opened Records
  import opened Guards
  import opened Replay
  import opened Retention
  import opened Restart
  import A = Admission

  predicate IsGiveUp(r: Stored, k: Key) {
    r.spec.gaveUp && KeyOf(r) == k
  }

  /** A give-up record inside the window: the one that keeps a second from being made. */
  predicate SaysSo(r: Stored, k: Key, since: Time) {
    IsGiveUp(r, k) && r.spec.created >= since
  }

  /** One strategy on one target, its give-up window, and how many deliveries may be in flight for it. */
  datatype Trip = Trip(k: Key, within: Time, atOnce: nat)

  /** A give-up record that was made. */
  datatype Mark = Mark(name: string, at: Time)

  /**
    * A delivery is in flight from its look at the list until its record shows in every later look: the
    * list comes from a cache, and the record is created after it was read.
    */
  datatype Desk = Desk(
    x: System,
    passed: nat,             // deliveries that looked, found none and have not created theirs
    hidden: set<string>,     // records created that the cache may not show yet
    made: seq<Mark>)         // every give-up record ever made

  datatype Act =
    | Look(d: Sink.Delivery, h: History, seen: seq<Stored>)    // with whatever history the guards have
    | Make(r: Stored)
    | Drop                                                     // the create is refused, or the process dies
    | Show(name: string)
    | Other(e: Event)                                          // anything else that happens to the records

  /** The cached list misses at most the hidden ones. */
  ghost predicate Shows(seen: seq<Stored>, rs: seq<Stored>, hidden: set<string>, k: Key) {
    forall r :: r in rs && IsGiveUp(r, k) && r.name !in hidden ==> exists q :: q in seen && q.spec == r.spec
  }

  /** A delivery that decides, from the list it sees, to give up. */
  predicate FindsNone(p: Trip, d: Sink.Delivery, h: History, seen: seq<Stored>) {
    var o := Sink.Decide(d, h, seen);
    o.GivesUp? && Key(o.s.rule.name, d.target) == p.k && o.s.guards.giveUpWithin == p.within
  }

  /** No deletion but a sweep's takes a give-up record inside the window. */
  predicate Spares(x: System, e: Event, p: Trip) {
    e.Delete? ==> forall r :: r in x.records && SaysSo(r, p.k, x.now - p.within) ==> r.name !in e.gone
  }

  ghost predicate Can(depths: Depths, p: Trip, g: Desk, a: Act) {
    match a
    case Look(d, h, seen) =>
      && g.passed + |g.hidden| < p.atOnce && d.now == g.x.now
      && FindsNone(p, d, h, seen) && Shows(seen, g.x.records, g.hidden, p.k)
    case Make(r) =>
      && g.passed > 0 && Restart.Enabled(depths, g.x, Create(r, false)) && IsGiveUp(r, p.k)
      && forall i :: 0 <= i < |g.made| ==> g.made[i].name != r.name
    case Drop => g.passed > 0
    case Show(_) => true
    case Other(e) =>
      Restart.Enabled(depths, g.x, e) && !(e.Create? && IsGiveUp(e.r, p.k)) && Spares(g.x, e, p)
  }

  ghost function Do(depths: Depths, p: Trip, g: Desk, a: Act): Desk
    requires Can(depths, p, g, a)
  {
    match a
    case Look(_, _, _) => g.(passed := g.passed + 1)
    case Make(r) =>
      Desk(Restart.Apply(depths, g.x, Create(r, false)), g.passed - 1, g.hidden + {r.name},
           g.made + [Mark(r.name, r.spec.created)])
    case Drop => g.(passed := g.passed - 1)
    case Show(name) => g.(hidden := g.hidden - {name})
    case Other(e) => g.(x := Restart.Apply(depths, g.x, e))
  }

  ghost predicate CanAll(depths: Depths, p: Trip, g: Desk, acts: seq<Act>)
    decreases |acts|
  {
    acts == [] || (Can(depths, p, g, acts[0]) && CanAll(depths, p, Do(depths, p, g, acts[0]), acts[1..]))
  }

  ghost function DoAll(depths: Depths, p: Trip, g: Desk, acts: seq<Act>): Desk
    requires CanAll(depths, p, g, acts)
    decreases |acts|
  {
    if acts == [] then g else DoAll(depths, p, Do(depths, p, g, acts[0]), acts[1..])
  }

  function NothingMade(began: Time): Desk {
    Desk(Empty(began), 0, {}, [])
  }

  function Instants(made: seq<Mark>): seq<Time> {
    if made == [] then [] else [made[0].at] + Instants(made[1..])
  }

  // ---- What every act keeps ---------------------------------------------------------------------

  predicate Listed(rs: seq<Stored>, k: Key, m: Mark) {
    exists r :: r in rs && IsGiveUp(r, k) && r.name == m.name && r.spec.created == m.at
  }

  predicate StillThere(x: System, p: Trip, m: Mark) {
    m.at <= x.now && (m.at >= x.now - p.within ==> Listed(x.records, p.k, m))
  }

  ghost predicate AllThere(x: System, p: Trip, made: seq<Mark>) {
    forall i :: 0 <= i < |made| ==> StillThere(x, p, made[i])
  }

  /** Names tell the records apart, and they were made one after another. */
  predicate InTurn(made: seq<Mark>) {
    forall i, j :: 0 <= i < j < |made| ==> made[i].name != made[j].name && made[i].at <= made[j].at
  }

  /** At most as many in one closed stretch as long as the window. */
  predicate WindowOk(p: Trip, at: seq<Time>, from: Time) {
    A.Within(at, from, from + p.within) <= p.atOnce
  }

  predicate RecentOk(p: Trip, at: seq<Time>, passed: nat, from: Time) {
    CountSince(at, from) + passed <= p.atOnce
  }

  /** The counts, apart from where the records are. */
  ghost predicate Counts(p: Trip, at: seq<Time>, passed: nat, now: Time) {
    && (forall t :: t in at ==> t <= now)
    && (forall from: Time :: from >= now - p.within ==> RecentOk(p, at, passed, from))
    && (forall from: Time :: WindowOk(p, at, from))
  }

  ghost predicate Inv(p: Trip, g: Desk) {
    && RecordsOk(g.x.records, g.x.now) && AllThere(g.x, p, g.made) && InTurn(g.made)
    && g.passed + |g.hidden| <= p.atOnce
    && Counts(p, Instants(g.made), g.passed, g.x.now)
  }

  lemma {:induction false} InstantsAppend(made: seq<Mark>, m: Mark)
    ensures Instants(made + [m]) == Instants(made) + [m.at]
  {
    if made == [] {
      assert made + [m] == [m] && [m][1..] == [];
    } else {
      assert (made + [m])[1..] == made[1..] + [m];
      InstantsAppend(made[1..], m);
    }
  }

  /** Marks with different names, all of them hidden, are no more than there are hidden names. */
  lemma {:induction false} HiddenCount(made: seq<Mark>, since: Time, hidden: set<string>)
    requires InTurn(made) && forall i :: 0 <= i < |made| && made[i].at >= since ==> made[i].name in hidden
    ensures CountSince(Instants(made), since) <= |hidden|
  {
    if made != [] {
      var m, rest := made[0], made[1..];
      assert forall i :: 0 <= i < |rest| ==> rest[i] == made[i + 1];
      assert Instants(made)[1..] == Instants(rest);
      if m.at >= since {
        HiddenCount(rest, since, hidden - {m.name});
      } else {
        HiddenCount(rest, since, hidden);
      }
    }
  }

  /** A delivery that gives up saw no such record inside the window. */
  lemma SawNone(p: Trip, d: Sink.Delivery, h: History, seen: seq<Stored>)
    requires FindsNone(p, d, h, seen)
    ensures !Sink.GaveUpSince(seen, p.k, d.now - p.within)
  {
    var rule := Sink.Matching.Selected(d.labels, Sink.Rules(d.strategies)).value;
    Sink.NamedIsNamed(d.strategies, rule.name);
  }

  lemma HiddenOrSeen(seen: seq<Stored>, rs: seq<Stored>, hidden: set<string>, k: Key, r: Stored, since: Time)
    requires Shows(seen, rs, hidden, k) && r in rs && SaysSo(r, k, since)
    ensures r.name in hidden || Sink.GaveUpSince(seen, k, since)
  {
    if r.name !in hidden {
      var q :| q in seen && q.spec == r.spec;
      var n :| 0 <= n < |seen| && seen[n] == q;
    }
  }

  /** So every record made inside the window is hidden from it, and they are few. */
  lemma LookedInTime(p: Trip, g: Desk, d: Sink.Delivery, h: History, seen: seq<Stored>)
    requires AllThere(g.x, p, g.made) && InTurn(g.made) && d.now == g.x.now
    requires FindsNone(p, d, h, seen) && Shows(seen, g.x.records, g.hidden, p.k)
    ensures CountSince(Instants(g.made), g.x.now - p.within) <= |g.hidden|
  {
    var since := g.x.now - p.within;
    SawNone(p, d, h, seen);
    forall i | 0 <= i < |g.made| && g.made[i].at >= since ensures g.made[i].name in g.hidden {
      assert StillThere(g.x, p, g.made[i]);
      var r :| r in g.x.records && IsGiveUp(r, p.k) && r.name == g.made[i].name && r.spec.created == g.made[i].at;
      HiddenOrSeen(seen, g.x.records, g.hidden, p.k, r, since);
    }
    HiddenCount(g.made, since, g.hidden);
  }

  lemma LookKeepsCounts(p: Trip, at: seq<Time>, passed: nat, now: Time, since: Time)
    requires Counts(p, at, passed, now) && since == now - p.within && CountSince(at, since) + passed < p.atOnce
    ensures Counts(p, at, passed + 1, now)
  {
    var more := passed + 1;
    forall from: Time | from >= since ensures RecentOk(p, at, more, from) {
      CountShrinks(at, since, from);
    }
  }

  lemma LookKeepsInv(depths: Depths, p: Trip, g: Desk, d: Sink.Delivery, h: History, seen: seq<Stored>)
    requires Inv(p, g) && Can(depths, p, g, Look(d, h, seen))
    ensures Inv(p, Do(depths, p, g, Look(d, h, seen)))
  {
    var since := g.x.now - p.within;
    LookedInTime(p, g, d, h, seen);
    LookKeepsCounts(p, Instants(g.made), g.passed, g.x.now, since);
  }

  lemma MakeKeepsCounts(p: Trip, at: seq<Time>, passed: nat, now: Time)
    requires Counts(p, at, passed, now) && passed > 0
    ensures Counts(p, at + [now], passed - 1, now)
  {
    assert [now][1..] == [];
    var after, left := at + [now], passed - 1;
    forall from: Time | from >= now - p.within ensures RecentOk(p, after, left, from) {
      assert RecentOk(p, at, passed, from);
      RecentAppend(at, [now], from);
    }
    forall from: Time ensures WindowOk(p, after, from) {
      assert WindowOk(p, at, from);
      A.WithinAppend(at, now, from, from + p.within);
      if from <= now <= from + p.within {
        assert RecentOk(p, at, passed, from);
        A.WithinIsRecent(at, from, from + p.within);
      }
    }
  }

  lemma MakeKeepsInv(depths: Depths, p: Trip, g: Desk, r: Stored)
    requires Inv(p, g) && Can(depths, p, g, Make(r))
    ensures Inv(p, Do(depths, p, g, Make(r)))
  {
    var x, m := Restart.Apply(depths, g.x, Create(r, false)), Mark(r.name, r.spec.created);
    EventKeepsRecords(depths, g.x, Create(r, false));
    InstantsAppend(g.made, m);
    MakeKeepsCounts(p, Instants(g.made), g.passed, g.x.now);
    forall i | 0 <= i < |g.made + [m]| ensures StillThere(x, p, (g.made + [m])[i]) {
      if i < |g.made| {
        assert StillThere(g.x, p, g.made[i]);
        ListedStays(g.x.records, x.records, p.k, g.made[i]);
      } else {
        assert x.records[|g.x.records|] == r;
      }
    }
    MadeInTurn(g.x, p, g.made, m);
  }

  lemma MadeInTurn(x: System, p: Trip, made: seq<Mark>, m: Mark)
    requires InTurn(made) && AllThere(x, p, made) && m.at == x.now
    requires forall i :: 0 <= i < |made| ==> made[i].name != m.name
    ensures InTurn(made + [m])
  {
    forall i | 0 <= i < |made| ensures made[i].at <= m.at {
      assert StillThere(x, p, made[i]);
    }
  }

  lemma ListedStays(rs: seq<Stored>, left: seq<Stored>, k: Key, m: Mark)
    requires forall r :: r in rs && IsGiveUp(r, k) && r.spec.created == m.at ==> Listed(left, k, Mark(r.name, m.at))
    ensures Listed(rs, k, m) ==> Listed(left, k, m)
  {
  }

  // ---- What happens to the records meanwhile ----------------------------------------------------

  lemma {:induction false} SurvivesIff(rs: seq<Stored>, gone: set<string>, r: Stored)
    ensures r in Surviving(rs, gone) <==> r in rs && r.name !in gone
  {
    if rs != [] { SurvivesIff(rs[1..], gone, r); }
  }

  /** A deletion that spares what is inside the window. */
  lemma DeletionKeepsThem(x: System, gone: set<string>, p: Trip, made: seq<Mark>)
    requires AllThere(x, p, made)
    requires forall r :: r in x.records && SaysSo(r, p.k, x.now - p.within) ==> r.name !in gone
    ensures AllThere(x.(records := Surviving(x.records, gone)), p, made)
  {
    var left := Surviving(x.records, gone);
    forall i | 0 <= i < |made| && made[i].at >= x.now - p.within ensures Listed(left, p.k, made[i]) {
      assert StillThere(x, p, made[i]);
      forall r | r in x.records && IsGiveUp(r, p.k) && r.spec.created == made[i].at ensures Listed(left, p.k, Mark(r.name, made[i].at)) {
        assert SaysSo(r, p.k, x.now - p.within);
        SurvivesIff(x.records, gone, r);
      }
      ListedStays(x.records, left, p.k, made[i]);
    }
  }

  /** A sweep spares it, when the floor is deeper than the window. */
  lemma SweepSparesTheWindow(depths: Depths, x: System, gone: set<string>, p: Trip)
    requires RecordsOk(x.records, x.now) && Restart.Enabled(depths, x, Event.Sweep(gone)) && p.within < depths.floor
    ensures forall r :: r in x.records && SaysSo(r, p.k, x.now - p.within) ==> r.name !in gone
  {
    forall r | r in x.records && SaysSo(r, p.k, x.now - p.within) ensures r.name !in gone {
      var i :| 0 <= i < |x.records| && x.records[i] == r;
      assert RecordOk(x.records[i], x.now);
    }
  }

  lemma UpdateKeepsThem(x: System, i: nat, status: Status, p: Trip, made: seq<Mark>)
    requires i < |x.records| && AllThere(x, p, made)
    ensures AllThere(x.(records := x.records[i := x.records[i].(status := status)]), p, made)
  {
    var after := x.records[i := x.records[i].(status := status)];
    forall n | 0 <= n < |made| && made[n].at >= x.now - p.within ensures Listed(after, p.k, made[n]) {
      assert StillThere(x, p, made[n]);
      var r :| r in x.records && IsGiveUp(r, p.k) && r.name == made[n].name && r.spec.created == made[n].at;
      var j :| 0 <= j < |x.records| && x.records[j] == r;
      assert after[j] in after && after[j].spec == r.spec && after[j].name == r.name;
    }
  }

  lemma EventKeepsThem(depths: Depths, x: System, e: Event, p: Trip, made: seq<Mark>)
    requires RecordsOk(x.records, x.now) && Restart.Enabled(depths, x, e) && Spares(x, e, p) && p.within < depths.floor
    requires AllThere(x, p, made)
    ensures AllThere(Restart.Apply(depths, x, e), p, made)
  {
    var y := Restart.Apply(depths, x, e);
    match e {
      case Update(i, status, fed) => UpdateKeepsThem(x, i, status, p, made);
      case Sweep(gone) =>
        SweepSparesTheWindow(depths, x, gone, p);
        DeletionKeepsThem(x, gone, p, made);
      case Delete(gone) => DeletionKeepsThem(x, gone, p, made);
      case _ =>
        forall i | 0 <= i < |made| ensures StillThere(y, p, made[i]) {
          assert StillThere(x, p, made[i]);
          ListedStays(x.records, y.records, p.k, made[i]);
        }
    }
  }

  lemma EventKeepsInv(depths: Depths, p: Trip, g: Desk, e: Event)
    requires Inv(p, g) && Can(depths, p, g, Other(e)) && p.within < depths.floor
    ensures Inv(p, Do(depths, p, g, Other(e)))
  {
    EventKeepsRecords(depths, g.x, e);
    EventKeepsThem(depths, g.x, e, p, g.made);
    assert Restart.Apply(depths, g.x, e).now >= g.x.now;
  }

  lemma {:induction false} RunKeepsInv(depths: Depths, p: Trip, g: Desk, acts: seq<Act>)
    requires Inv(p, g) && CanAll(depths, p, g, acts) && p.within < depths.floor
    ensures Inv(p, DoAll(depths, p, g, acts))
    decreases |acts|
  {
    if acts != [] {
      match acts[0] {
        case Look(d, h, seen) => LookKeepsInv(depths, p, g, d, h, seen);
        case Make(r) => MakeKeepsInv(depths, p, g, r);
        case Drop => DropKeepsInv(p, g);
        case Show(name) => ShowKeepsInv(p, g, name);
        case Other(e) => EventKeepsInv(depths, p, g, e);
      }
      RunKeepsInv(depths, p, Do(depths, p, g, acts[0]), acts[1..]);
    }
  }

  lemma DropKeepsInv(p: Trip, g: Desk)
    requires Inv(p, g) && g.passed > 0
    ensures Inv(p, g.(passed := g.passed - 1))
  {
    var at, left := Instants(g.made), g.passed - 1;
    forall from: Time | from >= g.x.now - p.within ensures RecentOk(p, at, left, from) {
      assert RecentOk(p, at, g.passed, from);
    }
  }

  lemma ShowKeepsInv(p: Trip, g: Desk, name: string)
    requires Inv(p, g)
    ensures Inv(p, g.(hidden := g.hidden - {name}))
  {
    assert |g.hidden - {name}| <= |g.hidden|;
  }

  lemma NothingIsFine(p: Trip, began: Time)
    ensures Inv(p, NothingMade(began))
  {
    forall from: Time ensures RecentOk(p, [], 0, from) && WindowOk(p, [], from) {}
  }

  // ---- The theorems -----------------------------------------------------------------------------

  /**
    * Over every run (deliveries that look at a cached list and create their records later, with whatever
    * history they see, lost replies, sweeps, restarts), every closed stretch as long as the give-up
    * window holds at most as many give-up records for one strategy and target as deliveries may be in
    * flight for it, as long as the floor is deeper than the window and no other deletion takes one
    * inside it.
    */
  lemma GiveUpsPerWindow(depths: Depths, p: Trip, began: Time, acts: seq<Act>, from: Time)
    requires CanAll(depths, p, NothingMade(began), acts) && p.within < depths.floor
    ensures WindowOk(p, Instants(DoAll(depths, p, NothingMade(began), acts).made), from)
  {
    NothingIsFine(p, began);
    RunKeepsInv(depths, p, NothingMade(began), acts);
  }

  predicate Spaced(made: seq<Mark>, within: Time) {
    forall i, j :: 0 <= i < j < |made| ==> made[i].at + within < made[j].at
  }

  /** With one delivery in flight at a time, two give-up records are more than the window apart. */
  lemma GiveUpsAreSpaced(depths: Depths, p: Trip, began: Time, acts: seq<Act>)
    requires CanAll(depths, p, NothingMade(began), acts) && p.within < depths.floor && p.atOnce == 1
    ensures Spaced(DoAll(depths, p, NothingMade(began), acts).made, p.within)
  {
    NothingIsFine(p, began);
    RunKeepsInv(depths, p, NothingMade(began), acts);
    SpacedByCounts(p, DoAll(depths, p, NothingMade(began), acts).made);
  }

  lemma SpacedByCounts(p: Trip, made: seq<Mark>)
    requires InTurn(made) && p.atOnce == 1 && forall from: Time :: WindowOk(p, Instants(made), from)
    ensures Spaced(made, p.within)
  {
    forall i, j | 0 <= i < j < |made| ensures made[i].at + p.within < made[j].at {
      assert made[i].at <= made[j].at;
      if made[j].at <= made[i].at + p.within {
        assert WindowOk(p, Instants(made), made[i].at);
        TwoWithin(made, i, j, made[i].at, made[i].at + p.within);
      }
    }
  }

  lemma {:induction false} OneWithin(made: seq<Mark>, i: nat, from: Time, to: Time)
    requires i < |made| && from <= made[i].at <= to
    ensures A.Within(Instants(made), from, to) >= 1
  {
    assert Instants(made)[1..] == Instants(made[1..]);
    if i > 0 { OneWithin(made[1..], i - 1, from, to); }
  }

  lemma {:induction false} TwoWithin(made: seq<Mark>, i: nat, j: nat, from: Time, to: Time)
    requires i < j < |made| && from <= made[i].at <= to && from <= made[j].at <= to
    ensures A.Within(Instants(made), from, to) >= 2
  {
    assert Instants(made)[1..] == Instants(made[1..]);
    if i > 0 { TwoWithin(made[1..], i - 1, j - 1, from, to); } else { OneWithin(made[1..], j - 1, from, to); }
  }

  /** A delivery nothing comes in between of, with a list that is up to date, is a look and then a make. */
  lemma DeliveryLooksThenMakes(depths: Depths, p: Trip, g: Desk, d: Sink.Delivery, h: History)
    requires FindsNone(p, d, h, g.x.records) && d.now == g.x.now && d.creates
    requires g.passed + |g.hidden| < p.atOnce && forall i :: 0 <= i < |g.made| ==> g.made[i].name != d.name
    ensures Can(depths, p, g, Look(d, h, g.x.records))
    ensures var r := Sink.GiveUpRecord(d, Sink.Decide(d, h, g.x.records).s);
      var looked := Do(depths, p, g, Look(d, h, g.x.records));
      && Can(depths, p, looked, Make(r))
      && Do(depths, p, looked, Make(r)).x.records == Sink.Deliver(d, h, g.x.records)
  {
  }

  // ---- The bound is reached -----------------------------------------------------------------------

  function Nth(p: Trip, n: nat, at: Time): Stored {
    Stored(seq(n, _ => 'x'), Spec(p.k.strategy, p.k.target, [], 0, [], false, Auto, None, false, true, at), EMPTY_STATUS)
  }

  /** Some deliveries look at an empty list, and only then do the records follow. */
  function Burst(p: Trip, d: Sink.Delivery, h: History, looks: nat, makes: nat): seq<Act> {
    if looks > 0 then [Look(d, h, [])] + Burst(p, d, h, looks - 1, makes)
    else if makes > 0 then [Make(Nth(p, makes, d.now))] + Burst(p, d, h, 0, makes - 1)
    else []
  }

  function Copies(n: nat, t: Time): seq<Time> {
    if n == 0 then [] else [t] + Copies(n - 1, t)
  }

  lemma {:induction false} BurstLeads(depths: Depths, p: Trip, d: Sink.Delivery, h: History, g: Desk, looks: nat, makes: nat)
    requires FindsNone(p, d, h, []) && d.now == g.x.now && g.passed + looks == makes
    requires looks > 0 ==> g.x.records == [] && g.hidden == {} && makes <= p.atOnce
    requires forall i :: 0 <= i < |g.made| ==> |g.made[i].name| > makes
    ensures CanAll(depths, p, g, Burst(p, d, h, looks, makes))
    ensures Instants(DoAll(depths, p, g, Burst(p, d, h, looks, makes)).made) == Instants(g.made) + Copies(makes, d.now)
    decreases looks, makes
  {
    var acts := Burst(p, d, h, looks, makes);
    if looks > 0 {
      assert acts[0] == Look(d, h, []) && acts[1..] == Burst(p, d, h, looks - 1, makes);
      BurstLeads(depths, p, d, h, Do(depths, p, g, acts[0]), looks - 1, makes);
    } else if makes > 0 {
      var m := Mark(Nth(p, makes, d.now).name, d.now);
      assert acts[0] == Make(Nth(p, makes, d.now)) && acts[1..] == Burst(p, d, h, 0, makes - 1);
      BurstLeads(depths, p, d, h, Do(depths, p, g, acts[0]), 0, makes - 1);
      InstantsAppend(g.made, m);
      Associates(Instants(g.made), [d.now], Copies(makes - 1, d.now));
    } else {
      assert Instants(g.made) + [] == Instants(g.made);
    }
  }

  lemma {:induction false} CopiesWithin(n: nat, t: Time, to: Time)
    requires t <= to
    ensures A.Within(Copies(n, t), t, to) == n
  {
    if n > 0 { CopiesWithin(n - 1, t, to); }
  }

  predicate WindowFull(p: Trip, at: seq<Time>, from: Time) {
    A.Within(at, from, from + p.within) == p.atOnce
  }

  lemma CopiesFill(p: Trip, t: Time)
    requires p.within >= 0
    ensures WindowFull(p, Copies(p.atOnce, t), t)
  {
    CopiesWithin(p.atOnce, t, t + p.within);
  }

  ghost predicate ReachesTheBound(depths: Depths, p: Trip, began: Time, acts: seq<Act>) {
    CanAll(depths, p, NothingMade(began), acts) && WindowFull(p, Instants(DoAll(depths, p, NothingMade(began), acts).made), began)
  }

  /** No smaller bound holds: as many deliveries as may be in flight, all looking before any of them creates. */
  lemma GiveUpsReachTheBound(depths: Depths, p: Trip, d: Sink.Delivery, h: History)
    requires FindsNone(p, d, h, []) && p.within >= 0
    ensures exists acts :: ReachesTheBound(depths, p, d.now, acts)
  {
    var acts := Burst(p, d, h, p.atOnce, p.atOnce);
    BurstLeads(depths, p, d, h, NothingMade(d.now), p.atOnce, p.atOnce);
    CopiesFill(p, d.now);
    var at := Copies(p.atOnce, d.now);
    assert [] + at == at;
    assert ReachesTheBound(depths, p, d.now, acts);
  }

  // ---- What the count limit does to it ----------------------------------------------------------

  /** Whether a delivery that trips the guard says so again, by the records that are listed. */
  lemma GivesUpAgainIff(d: Sink.Delivery, h: History, rs: seq<Stored>, s: Sink.Strategy)
    requires Sink.Decide(d, h, []) == Sink.GivesUp(s)
    ensures var already := exists r :: r in rs && SaysSo(r, Key(s.rule.name, d.target), d.now - s.guards.giveUpWithin);
      Sink.Decide(d, h, rs) == if already then Sink.AlreadyGaveUp else Sink.GivesUp(s)
  {
    var rule := Sink.Matching.Selected(d.labels, Sink.Rules(d.strategies)).value;
    Sink.NamedIsNamed(d.strategies, rule.name);
    var k, since := Key(s.rule.name, d.target), d.now - s.guards.giveUpWithin;
    assert Sink.GaveUpSince(rs, k, since) <==> exists r :: r in rs && SaysSo(r, k, since) by {
      if r :| r in rs && SaysSo(r, k, since) {
        var i :| 0 <= i < |rs| && rs[i] == r;
      }
      if Sink.GaveUpSince(rs, k, since) {
        var i :| 0 <= i < |rs| && rs[i].spec.gaveUp && KeyOf(rs[i]) == k && rs[i].spec.created >= since;
        assert SaysSo(rs[i], k, since);
      }
    }
  }

  /**
    * The count limit makes a trip page again exactly when every give-up record inside the window is
    * among what it deleted.
    */
  lemma PrunedGiveUpIsRepeatedIff(d: Sink.Delivery, h: History, rs: seq<Stored>, s: Sink.Strategy,
                                  strategy: string, keep: string, limit: int, i: nat)
    requires Sink.Decide(d, h, []) == Sink.GivesUp(s)
    requires Sweeper.DistinctNames(rs) && i <= |Pruner.Surplus(rs, strategy, keep, limit)|
    ensures var deleted := Pruner.Surplus(rs, strategy, keep, limit)[..i];
      Sink.Decide(d, h, Pruner.Pruned(rs, strategy, keep, limit, i)) == Sink.GivesUp(s) <==>
      forall r :: r in rs && SaysSo(r, Key(s.rule.name, d.target), d.now - s.guards.giveUpWithin) ==> r in deleted
  {
    var k, since := Key(s.rule.name, d.target), d.now - s.guards.giveUpWithin;
    var surplus := Pruner.Surplus(rs, strategy, keep, limit);
    var deleted, left := surplus[..i], Pruner.Pruned(rs, strategy, keep, limit, i);
    GivesUpAgainIff(d, h, left, s);
    Pruner.SurplusIsListed(rs, strategy, keep, limit);
    forall r | r in rs ensures r in left <==> r !in deleted {
      SurvivesIff(rs, NamesOf(deleted), r);
      if r.name in NamesOf(deleted) {
        var x :| x in deleted && x.name == r.name;
        assert x in surplus;
      }
    }
    forall r | r in left ensures r in rs {
      SurvivesIff(rs, NamesOf(deleted), r);
    }
  }

  function GaveUpAt(name: string, target: string, at: Time): Stored {
    Stored(name, Spec("s", target, [], 0, [], false, Auto, None, false, true, at),
           Status(Failed, 0, [], GaveUp, Explains(GaveUp), None, Some(at), None))
  }

  /** It can be: keeping one record, the next execution to finish takes the give-up record with it. */
  lemma PruneTakesAGiveUp(within: Time)
    requires within >= 1
    ensures var rs := [GaveUpAt("r1", "a", 100), Pruner.Done("r2", "b", 101)];
      && Sink.GaveUpSince(rs, Key("s", "a"), 101 - within)
      && |Pruner.Surplus(rs, "s", "r2", 1)| == 1
      && !Sink.GaveUpSince(Pruner.Pruned(rs, "s", "r2", 1, 1), Key("s", "a"), 101 - within)
  {
    var a, b := GaveUpAt("r1", "a", 100), Pruner.Done("r2", "b", 101);
    Pruner.OnlyTheSecondSurvives(a, b);
    assert [a, b][0].spec.gaveUp && KeyOf([a, b][0]) == Key("s", "a");
    assert Pruner.Surplus([a, b], "s", "r2", 1)[..1] == Pruner.Surplus([a, b], "s", "r2", 1);
  }
}
