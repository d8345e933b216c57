/**
  * The hourly rate under concurrent deliveries: consumeOne in internal/engine/sink.go checks the
  * guard, creates the record and only then records the start, with other deliveries in between.
  */
module Admission {
  import opened Common
  import opened Guards

  /** One strategy's starts: every one ever recorded, those the index still holds, those on their way. */
  datatype Gate = Gate(log: seq<Time>, memory: seq<Time>, inFlight: nat, now: Time)

  datatype Limits = Limits(maxPerHour: nat, concurrency: nat, retention: Time)

  predicate Sensible(l: Limits) {
    l.maxPerHour > 0 && l.concurrency > 0 && l.retention >= RATE_WINDOW
  }

  datatype Move =
    | Check              // a delivery passes the rate guard
    | Record             // a delivery that passed has created its record and records its start
    | Abandon            // ... or was refused by a later guard, or could not create it
    | Forget             // the index is pruned
    | Tick(seconds: nat)

  predicate Enabled(l: Limits, g: Gate, m: Move) {
    match m
    case Check => g.inFlight < l.concurrency && CountSince(g.memory, g.now - RATE_WINDOW) < l.maxPerHour
    case Record => g.inFlight > 0
    case Abandon => g.inFlight > 0
    case Forget => true
    case Tick(_) => true
  }

  function Apply(l: Limits, g: Gate, m: Move): Gate
    requires Enabled(l, g, m)
  {
    match m
    case Check => g.(inFlight := g.inFlight + 1)
    case Record => g.(log := g.log + [g.now], memory := g.memory + [g.now], inFlight := g.inFlight - 1)
    case Abandon => g.(inFlight := g.inFlight - 1)
    case Forget => g.(memory := Recent(g.memory, g.now - l.retention))
    case Tick(s) => g.(now := g.now + s)
  }

  predicate Legal(l: Limits, g: Gate, moves: seq<Move>)
    decreases |moves|
  {
    moves == [] || (Enabled(l, g, moves[0]) && Legal(l, Apply(l, g, moves[0]), moves[1..]))
  }

  function Run(l: Limits, g: Gate, moves: seq<Move>): Gate
    requires Legal(l, g, moves)
    decreases |moves|
  {
    if moves == [] then g else Run(l, Apply(l, g, moves[0]), moves[1..])
  }

  /** The starts inside one closed window. */
  function Within(s: seq<Time>, from: Time, to: Time): nat {
    if s == [] then 0 else (if from <= s[0] <= to then 1 else 0) + Within(s[1..], from, to)
  }

  lemma {:induction false} WithinAppend(s: seq<Time>, t: Time, from: Time, to: Time)
    ensures Within(s + [t], from, to) == Within(s, from, to) + (if from <= t <= to then 1 else 0)
  {
    if s == [] {
      assert s + [t] == [t];
    } else {
      assert (s + [t])[1..] == s[1..] + [t];
      WithinAppend(s[1..], t, from, to);
    }
  }

  lemma {:induction false} WithinIsRecent(s: seq<Time>, from: Time, to: Time)
    ensures Within(s, from, to) <= CountSince(s, from)
    ensures (forall t :: t in s ==> t <= to) ==> Within(s, from, to) == CountSince(s, from)
  {
    if s != [] {
      WithinIsRecent(s[1..], from, to);
      assert s[0] in s && forall t :: t in s[1..] ==> t in s;
    }
  }

  predicate WindowOk(l: Limits, g: Gate, from: Time) {
    Within(g.log, from, from + RATE_WINDOW) <= l.maxPerHour + l.concurrency - 1
  }

  predicate RecentOk(l: Limits, g: Gate, from: Time) {
    CountSince(g.log, from) + g.inFlight <= l.maxPerHour + l.concurrency - 1
  }

  ghost predicate EveryWindowOk(l: Limits, g: Gate) {
    forall from: Time :: WindowOk(l, g, from)
  }

  ghost predicate Inv(l: Limits, g: Gate) {
    && (forall t :: t in g.log ==> t <= g.now)
    && Recent(g.memory, g.now - l.retention) == Recent(g.log, g.now - l.retention)
    && g.inFlight <= l.concurrency
    && (forall from: Time :: from >= g.now - RATE_WINDOW ==> RecentOk(l, g, from))
    && EveryWindowOk(l, g)
  }

  /** The index answers the guard as the whole log would. */
  lemma MemoryAnswersForTheLog(l: Limits, g: Gate, since: Time)
    requires Inv(l, g) && Sensible(l) && since >= g.now - l.retention
    ensures CountSince(g.memory, since) == CountSince(g.log, since)
  {
    RecentOfRecent(g.memory, g.now - l.retention, since);
    RecentOfRecent(g.log, g.now - l.retention, since);
  }

  lemma CheckKeepsInv(l: Limits, g: Gate)
    requires Inv(l, g) && Sensible(l) && Enabled(l, g, Check)
    ensures Inv(l, Apply(l, g, Check))
  {
    var x := Apply(l, g, Check);
    MemoryAnswersForTheLog(l, g, g.now - RATE_WINDOW);
    forall from: Time | from >= x.now - RATE_WINDOW ensures RecentOk(l, x, from) {
      CountShrinks(g.log, g.now - RATE_WINDOW, from);
    }
    forall from: Time ensures WindowOk(l, x, from) {
      assert WindowOk(l, g, from);
    }
  }

  lemma RecordKeepsInv(l: Limits, g: Gate)
    requires Inv(l, g) && Sensible(l) && Enabled(l, g, Record)
    ensures Inv(l, Apply(l, g, Record))
  {
    var x := Apply(l, g, Record);
    RecentAppend(g.log, [g.now], g.now - l.retention);
    RecentAppend(g.memory, [g.now], g.now - l.retention);
    assert [g.now][1..] == [];
    forall from: Time | from >= x.now - RATE_WINDOW ensures RecentOk(l, x, from) {
      assert RecentOk(l, g, from);
      RecentAppend(g.log, [g.now], from);
    }
    forall from: Time ensures WindowOk(l, x, from) {
      assert WindowOk(l, g, from);
      WithinAppend(g.log, g.now, from, from + RATE_WINDOW);
      if from <= g.now <= from + RATE_WINDOW {
        assert RecentOk(l, g, from);
        WithinIsRecent(g.log, from, from + RATE_WINDOW);
      }
    }
  }

  lemma QuietKeepsInv(l: Limits, g: Gate, m: Move)
    requires Inv(l, g) && Sensible(l) && Enabled(l, g, m) && (m.Abandon? || m.Forget? || m.Tick?)
    ensures Inv(l, Apply(l, g, m))
  {
    var x := Apply(l, g, m);
    RecentOfRecent(g.memory, g.now - l.retention, x.now - l.retention);
    RecentOfRecent(g.log, g.now - l.retention, x.now - l.retention);
    if m == Forget { RecentOfRecent(g.memory, g.now - l.retention, g.now - l.retention); }
    forall from: Time | from >= x.now - RATE_WINDOW ensures RecentOk(l, x, from) {
      assert RecentOk(l, g, from);
    }
    forall from: Time ensures WindowOk(l, x, from) {
      assert WindowOk(l, g, from);
    }
  }

  lemma {:induction false} RunKeepsInv(l: Limits, g: Gate, moves: seq<Move>)
    requires Inv(l, g) && Sensible(l) && Legal(l, g, moves)
    ensures Inv(l, Run(l, g, moves))
    decreases |moves|
  {
    if moves != [] {
      match moves[0] {
        case Check => CheckKeepsInv(l, g);
        case Record => RecordKeepsInv(l, g);
        case _ => QuietKeepsInv(l, g, moves[0]);
      }
      RunKeepsInv(l, Apply(l, g, moves[0]), moves[1..]);
    }
  }

  /** A past that satisfies the bound, with nothing in flight. */
  ghost predicate GoodPast(l: Limits, g: Gate) {
    && g.inFlight == 0 && g.memory == g.log
    && (forall t :: t in g.log ==> t <= g.now)
    && EveryWindowOk(l, g)
  }

  /**
    * With at most k deliveries in flight, every closed hour of every run holds at most N + k - 1
    * recorded starts; so maxPerHour itself is the cap exactly when deliveries are serial.
    */
  lemma HourlyBound(l: Limits, g: Gate, moves: seq<Move>, from: Time)
    requires Sensible(l) && GoodPast(l, g) && Legal(l, g, moves)
    ensures Within(Run(l, g, moves).log, from, from + RATE_WINDOW) <= l.maxPerHour + l.concurrency - 1
    ensures l.concurrency == 1 ==> Within(Run(l, g, moves).log, from, from + RATE_WINDOW) <= l.maxPerHour
  {
    forall start: Time | start >= g.now - RATE_WINDOW ensures RecentOk(l, g, start) {
      assert WindowOk(l, g, start);
      WithinIsRecent(g.log, start, start + RATE_WINDOW);
    }
    RunKeepsInv(l, g, moves);
    assert WindowOk(l, Run(l, g, moves), from);
  }

  // ---- The bound is reached -------------------------------------------------------------------

  function Copies<T>(n: nat, m: T): (r: seq<T>)
    ensures |r| == n
  {
    if n == 0 then [] else [m] + Copies(n - 1, m)
  }

  /** N - 1 deliveries one after another, then k that all check before any of them records. */
  function Serial(n: nat): seq<Move> {
    if n == 0 then [] else [Check, Record] + Serial(n - 1)
  }

  lemma {:induction false} LegalAppend(l: Limits, g: Gate, a: seq<Move>, b: seq<Move>)
    requires Legal(l, g, a) && Legal(l, Run(l, g, a), b)
    ensures Legal(l, g, a + b) && Run(l, g, a + b) == Run(l, Run(l, g, a), b)
    decreases |a|
  {
    if a == [] {
      assert a + b == b;
    } else {
      assert (a + b)[0] == a[0] && (a + b)[1..] == a[1..] + b;
      LegalAppend(l, Apply(l, g, a[0]), a[1..], b);
    }
  }

  /** A gate that has recorded n starts, all at instant 0. */
  function AtZero(n: nat, inFlight: nat): Gate {
    Gate(Copies(n, 0), Copies(n, 0), inFlight, 0)
  }

  lemma {:induction false} CopiesCount(n: nat)
    ensures CountSince(Copies(n, 0), -RATE_WINDOW) == n && Within(Copies(n, 0), 0, RATE_WINDOW) == n
    ensures Copies(n, 0) + [0] == Copies(n + 1, 0)
  {
    if n > 0 {
      CopiesCount(n - 1);
      assert Copies(n, 0)[1..] == Copies(n - 1, 0);
    }
  }

  lemma {:induction false} SerialLeads(l: Limits, n: nat, m: nat)
    requires Sensible(l) && n + m < l.maxPerHour
    ensures Legal(l, AtZero(m, 0), Serial(n)) && Run(l, AtZero(m, 0), Serial(n)) == AtZero(m + n, 0)
    decreases n
  {
    if n > 0 {
      CopiesCount(m);
      var run := Serial(n);
      assert run[0] == Check && run[1..][0] == Record && run[1..][1..] == Serial(n - 1);
      assert Apply(l, AtZero(m, 0), Check) == AtZero(m, 1);
      assert Apply(l, AtZero(m, 1), Record) == AtZero(m + 1, 0);
      SerialLeads(l, n - 1, m + 1);
      assert Legal(l, AtZero(m, 1), run[1..]);
    }
  }

  lemma {:induction false} ChecksLead(l: Limits, n: nat, m: nat, passed: nat)
    requires Sensible(l) && m < l.maxPerHour && n + passed <= l.concurrency
    ensures Legal(l, AtZero(m, passed), Copies(n, Check)) && Run(l, AtZero(m, passed), Copies(n, Check)) == AtZero(m, passed + n)
    decreases n
  {
    if n > 0 {
      CopiesCount(m);
      assert Copies(n, Check)[1..] == Copies(n - 1, Check);
      ChecksLead(l, n - 1, m, passed + 1);
    }
  }

  lemma {:induction false} RecordsLead(l: Limits, n: nat, m: nat)
    ensures Legal(l, AtZero(m, n), Copies(n, Record)) && Run(l, AtZero(m, n), Copies(n, Record)) == AtZero(m + n, 0)
    decreases n
  {
    if n > 0 {
      CopiesCount(m);
      assert Copies(n, Record)[1..] == Copies(n - 1, Record);
      assert Apply(l, AtZero(m, n), Record) == AtZero(m + 1, n - 1);
      RecordsLead(l, n - 1, m + 1);
    }
  }

  ghost predicate ReachesTheBound(l: Limits, moves: seq<Move>) {
    && Legal(l, AtZero(0, 0), moves)
    && Within(Run(l, AtZero(0, 0), moves).log, 0, RATE_WINDOW) == l.maxPerHour + l.concurrency - 1
  }

  /** No smaller bound holds: from an empty history some run puts N + k - 1 starts into one hour. */
  lemma HourlyBoundIsReached(l: Limits)
    requires Sensible(l)
    ensures exists moves :: ReachesTheBound(l, moves)
  {
    var n, k := l.maxPerHour - 1, l.concurrency;
    SerialLeads(l, n, 0);
    ChecksLead(l, k, n, 0);
    RecordsLead(l, k, n);
    LegalAppend(l, AtZero(0, 0), Serial(n), Copies(k, Check));
    LegalAppend(l, AtZero(0, 0), Serial(n) + Copies(k, Check), Copies(k, Record));
    CopiesCount(n + k);
    assert ReachesTheBound(l, Serial(n) + Copies(k, Check) + Copies(k, Record));
  }
}
