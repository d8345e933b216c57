/** Emptying a node: classify, evictAll and Execute in internal/action/node/drain.go. */
module Drain {
  import opened Common
  import opened Numbers
  import opened Sorting

  datatype Pod = Pod(
    namespace: string,
    name: string,
    node: string,
    finished: bool,
    mirror: bool,
    owner: string,        // the kind of the controlling owner; "" for a bare pod
    emptyDir: bool)

  datatype Why = AlreadyFinished | Mirror | OwnedByDaemonSet | Bare | UsesEmptyDir

  datatype Skipped = Skipped(pod: string, why: Why)

  datatype Options = Options(node: string, allowEmptyDir: bool, allowBare: bool, maxPods: string)

  datatype Placement = Elsewhere | Left(why: Why) | Evictable

  function PodName(p: Pod): string {
    p.namespace + "/" + p.name
  }

  /** The switch of classify. */
  function Placed(o: Options, p: Pod): Placement {
    if p.node != o.node then Elsewhere
    else if p.finished then Left(AlreadyFinished)
    else if p.mirror then Left(Mirror)
    else if p.owner == "DaemonSet" then Left(OwnedByDaemonSet)
    else if p.owner == "" && !o.allowBare then Left(Bare)
    else if p.emptyDir && !o.allowEmptyDir then Left(UsesEmptyDir)
    else Evictable
  }

  predicate ByPodName(a: Pod, b: Pod) {
    StringLess(PodName(a), PodName(b))
  }

  predicate BySkippedName(a: Skipped, b: Skipped) {
    StringLess(a.pod, b.pod)
  }

  function EvictablePods(o: Options, pods: seq<Pod>): seq<Pod> {
    if pods == [] then []
    else EvictablePods(o, pods[..|pods| - 1]) + (if Placed(o, pods[|pods| - 1]).Evictable? then [pods[|pods| - 1]] else [])
  }

  function SkippedPods(o: Options, pods: seq<Pod>): seq<Skipped> {
    if pods == [] then []
    else
      var p := pods[|pods| - 1];
      SkippedPods(o, pods[..|pods| - 1]) + (if Placed(o, p).Left? then [Skipped(PodName(p), Placed(o, p).why)] else [])
  }

  datatype Refusal = NotAPositiveNumber | TooManyPods | Forbidden | Broken | StillRefused

  /** The limit a step may set on how many pods it moves; unset, it allows any number. */
  function OverLimit(o: Options, n: nat): Option<Refusal> {
    if o.maxPods == "" then None
    else
      match ParsePositive(o.maxPods, MAX64)
      case None => Some(NotAPositiveNumber)
      case Some(limit) => if n > limit then Some(TooManyPods) else None
  }

  method Classify(o: Options, pods: seq<Pod>) returns (evictable: seq<Pod>, skipped: seq<Skipped>, err: Option<Refusal>)
    ensures err == OverLimit(o, |EvictablePods(o, pods)|)
    ensures err.Some? ==> evictable == [] && skipped == []
    ensures err.None? ==>
      && evictable == SortBy(ByPodName, EvictablePods(o, pods))
      && skipped == SortBy(BySkippedName, SkippedPods(o, pods))
  {
    evictable, skipped, err := [], [], None;
    var i := 0;
    while i < |pods|
      invariant 0 <= i <= |pods|
      invariant evictable == EvictablePods(o, pods[..i]) && skipped == SkippedPods(o, pods[..i])
    {
      var p := pods[i];
      assert pods[..i + 1][..i] == pods[..i] && pods[..i + 1][i] == p;
      if p.node != o.node {
      } else if p.finished {
        skipped := skipped + [Skipped(PodName(p), AlreadyFinished)];
      } else if p.mirror {
        skipped := skipped + [Skipped(PodName(p), Mirror)];
      } else if p.owner == "DaemonSet" {
        skipped := skipped + [Skipped(PodName(p), OwnedByDaemonSet)];
      } else if p.owner == "" && !o.allowBare {
        skipped := skipped + [Skipped(PodName(p), Bare)];
      } else if p.emptyDir && !o.allowEmptyDir {
        skipped := skipped + [Skipped(PodName(p), UsesEmptyDir)];
      } else {
        evictable := evictable + [p];
      }
      i := i + 1;
    }
    assert pods[..i] == pods;
    SortKeeps(ByPodName, evictable);
    evictable := SortBy(ByPodName, evictable);
    skipped := SortBy(BySkippedName, skipped);
    err := OverLimit(o, |evictable|);
    if err.Some? {
      evictable, skipped := [], [];
    }
  }

  // ---- What classifying means -------------------------------------------------------------------

  function OnNode(o: Options, pods: seq<Pod>): nat {
    if pods == [] then 0
    else OnNode(o, pods[..|pods| - 1]) + (if pods[|pods| - 1].node == o.node then 1 else 0)
  }

  /** The pods that are left alone, as pods. */
  function LeftPods(o: Options, pods: seq<Pod>): seq<Pod> {
    if pods == [] then []
    else LeftPods(o, pods[..|pods| - 1]) + (if Placed(o, pods[|pods| - 1]).Left? then [pods[|pods| - 1]] else [])
  }

  /** A pod this drain may evict, said without the order of the checks. */
  predicate MayEvict(o: Options, p: Pod) {
    && p.node == o.node && !p.finished && !p.mirror && p.owner != "DaemonSet"
    && (p.owner == "" ==> o.allowBare) && (p.emptyDir ==> o.allowEmptyDir)
  }

  /**
    * Every pod of this node, and no other, ends up on exactly one of the two lists as often as it
    * was listed: among the evictable ones if it may be evicted, among the skipped ones otherwise.
    */
  lemma ClassifyLosesNothing(o: Options, pods: seq<Pod>, p: Pod)
    ensures multiset(EvictablePods(o, pods))[p] == if MayEvict(o, p) then multiset(pods)[p] else 0
    ensures multiset(LeftPods(o, pods))[p] == if p.node == o.node && !MayEvict(o, p) then multiset(pods)[p] else 0
    ensures |EvictablePods(o, pods)| + |SkippedPods(o, pods)| == OnNode(o, pods)
  {
    EvictableCount(o, pods, p);
    LeftCount(o, pods, p);
    ListedOnce(o, pods);
  }

  lemma CountOneMore(a: seq<Pod>, p: Pod, x: Pod)
    ensures multiset(a + [x])[p] == multiset(a)[p] + (if x == p then 1 else 0)
  {
  }

  lemma LastApart(pods: seq<Pod>, p: Pod)
    requires pods != []
    ensures multiset(pods)[p] == multiset(pods[..|pods| - 1])[p] + (if pods[|pods| - 1] == p then 1 else 0)
  {
    var n := |pods| - 1;
    assert pods == pods[..n] + [pods[n]];
    CountOneMore(pods[..n], p, pods[n]);
  }

  lemma {:induction false} EvictableCount(o: Options, pods: seq<Pod>, p: Pod)
    ensures multiset(EvictablePods(o, pods))[p] == if MayEvict(o, p) then multiset(pods)[p] else 0
  {
    if pods != [] {
      var n := |pods| - 1;
      EvictableCount(o, pods[..n], p);
      LastApart(pods, p);
      if MayEvict(o, pods[n]) {
        CountOneMore(EvictablePods(o, pods[..n]), p, pods[n]);
      } else {
        assert EvictablePods(o, pods) == EvictablePods(o, pods[..n]);
      }
    }
  }

  lemma {:induction false} LeftCount(o: Options, pods: seq<Pod>, p: Pod)
    ensures multiset(LeftPods(o, pods))[p] == if p.node == o.node && !MayEvict(o, p) then multiset(pods)[p] else 0
  {
    if pods != [] {
      var n := |pods| - 1;
      LeftCount(o, pods[..n], p);
      LastApart(pods, p);
      if pods[n].node == o.node && !MayEvict(o, pods[n]) {
        CountOneMore(LeftPods(o, pods[..n]), p, pods[n]);
      } else {
        assert LeftPods(o, pods) == LeftPods(o, pods[..n]);
      }
    }
  }

  lemma {:induction false} ListedOnce(o: Options, pods: seq<Pod>)
    ensures |EvictablePods(o, pods)| + |SkippedPods(o, pods)| == OnNode(o, pods)
  {
    if pods != [] { ListedOnce(o, pods[..|pods| - 1]); }
  }

  /** The skipped list names exactly the pods left alone, each with a reason that holds of it. */
  lemma {:induction false} SkippedNamesWhatIsLeft(o: Options, pods: seq<Pod>, i: nat)
    requires i < |SkippedPods(o, pods)|
    ensures |LeftPods(o, pods)| == |SkippedPods(o, pods)|
    ensures var p := LeftPods(o, pods)[i];
      SkippedPods(o, pods)[i].pod == PodName(p) && Placed(o, p) == Left(SkippedPods(o, pods)[i].why)
  {
    LeftAlongside(o, pods);
    var n := |pods| - 1;
    LeftAlongside(o, pods[..n]);
    if i < |SkippedPods(o, pods[..n])| {
      SkippedNamesWhatIsLeft(o, pods[..n], i);
    }
  }

  lemma {:induction false} LeftAlongside(o: Options, pods: seq<Pod>)
    ensures |LeftPods(o, pods)| == |SkippedPods(o, pods)|
  {
    if pods != [] { LeftAlongside(o, pods[..|pods| - 1]); }
  }

  // ---- Evicting ---------------------------------------------------------------------------------

  datatype Reply = Removed | NotFound | TooManyRequests | IsForbidden | Failed

  /** Nothing of the pod is left on the node. */
  predicate Gone(r: Reply) {
    r == Removed || r == NotFound
  }

  datatype Ask = Ask(pod: Pod, reply: Reply)

  /** The evictions that were asked for, in order: none for a pod that an earlier one found gone. */
  ghost predicate NeverAskedAgain(asks: seq<Ask>) {
    forall i, j :: 0 <= i < j < |asks| && Gone(asks[i].reply) ==> asks[j].pod != asks[i].pod
  }

  ghost predicate Distinct(pods: seq<Pod>) {
    forall i, j :: 0 <= i < j < |pods| ==> pods[i] != pods[j]
  }

  /** The pods some ask found gone. */
  ghost function GonePods(asks: seq<Ask>): seq<Pod> {
    if asks == [] then []
    else GonePods(asks[..|asks| - 1]) + (if Gone(asks[|asks| - 1].reply) then [asks[|asks| - 1].pod] else [])
  }

  lemma GonePodsSnoc(asks: seq<Ask>, a: Ask)
    ensures GonePods(asks + [a]) == GonePods(asks) + (if Gone(a.reply) then [a.pod] else [])
  {
    assert (asks + [a])[..|asks|] == asks;
  }

  lemma {:induction false} GonePodsMembers(asks: seq<Ask>, i: nat)
    requires i < |asks| && Gone(asks[i].reply)
    ensures asks[i].pod in GonePods(asks)
  {
    var n := |asks| - 1;
    if i < n {
      GonePodsMembers(asks[..n], i);
    }
  }

  /**
    * The middle of a drain that began with some pods: those gone, those refused this round and those
    * not asked yet are together the pods it began with.
    */
  ghost predicate Conserved(asks: seq<Ask>, pods: seq<Pod>, refused: seq<Pod>, rest: seq<Pod>) {
    && AddUp(GonePods(asks), refused, rest, pods)
    && OncePerGonePod(asks, pods)
  }

  ghost predicate AddUp(gone: seq<Pod>, refused: seq<Pod>, rest: seq<Pod>, pods: seq<Pod>) {
    multiset(gone) + multiset(refused) + multiset(rest) == multiset(pods)
  }

  ghost predicate OncePerGonePod(asks: seq<Ask>, pods: seq<Pod>) {
    && (forall a :: a in asks ==> a.pod in pods)
    && (Distinct(pods) ==> NeverAskedAgain(asks))
  }

  lemma MovePod(gone: seq<Pod>, refused: seq<Pod>, pod: Pod, rest: seq<Pod>, pods: seq<Pod>)
    requires AddUp(gone, refused, [pod] + rest, pods)
    ensures AddUp(gone + [pod], refused, rest, pods)
    ensures AddUp(gone, refused + [pod], rest, pods)
    ensures AddUp(gone, refused + ([pod] + rest), [], pods)
    ensures pod in pods
  {
    assert multiset([pod] + rest) == multiset{pod} + multiset(rest);
    assert multiset(refused + ([pod] + rest)) == multiset(refused) + multiset([pod] + rest);
    assert pod in multiset(pods);
  }

  lemma AskOnce(asks: seq<Ask>, pods: seq<Pod>, refused: seq<Pod>, pod: Pod, rest: seq<Pod>, reply: Reply)
    requires Conserved(asks, pods, refused, [pod] + rest)
    ensures OncePerGonePod(asks + [Ask(pod, reply)], pods)
  {
    NotGoneYet(pods, asks, refused, [pod] + rest);
    MovePod(GonePods(asks), refused, pod, rest, pods);
    forall a | a in asks + [Ask(pod, reply)] ensures a.pod in pods {
      assert a in asks || a == Ask(pod, reply);
    }
  }

  /** One more eviction: the pod is gone, or refused, or the drain stops with it and all that follow. */
  lemma AskingConserves(asks: seq<Ask>, pods: seq<Pod>, refused: seq<Pod>, pod: Pod, rest: seq<Pod>, reply: Reply)
    requires Conserved(asks, pods, refused, [pod] + rest)
    ensures var after := asks + [Ask(pod, reply)];
      && GonePods(after) == GonePods(asks) + (if Gone(reply) then [pod] else [])
      && (Gone(reply) ==> Conserved(after, pods, refused, rest))
      && (!Gone(reply) ==> Conserved(after, pods, refused + [pod], rest) && Conserved(after, pods, refused + ([pod] + rest), []))
  {
    GonePodsSnoc(asks, Ask(pod, reply));
    MovePod(GonePods(asks), refused, pod, rest, pods);
    AskOnce(asks, pods, refused, pod, rest, reply);
  }

  lemma NextRound(asks: seq<Ask>, pods: seq<Pod>, refused: seq<Pod>)
    requires Conserved(asks, pods, refused, [])
    ensures Conserved(asks, pods, [], refused)
  {
    assert multiset(refused) + multiset([]) == multiset([]) + multiset(refused);
  }

  /** How often a disruption budget has refused a pod. */
  function Noes(asks: seq<Ask>, p: Pod): nat {
    if asks == [] then 0
    else Noes(asks[..|asks| - 1], p) + (if asks[|asks| - 1] == Ask(p, TooManyRequests) then 1 else 0)
  }

  /** Every one of these pods has been refused so often. */
  ghost predicate BudgetSaidNo(asks: seq<Ask>, pods: seq<Pod>, times: nat) {
    forall p :: p in pods ==> Noes(asks, p) >= times
  }

  lemma StillSaidNo(asks: seq<Ask>, a: Ask, pods: seq<Pod>, times: nat)
    requires BudgetSaidNo(asks, pods, times)
    ensures BudgetSaidNo(asks + [a], pods, times)
    ensures a.reply == TooManyRequests && Noes(asks, a.pod) + 1 >= times ==> BudgetSaidNo(asks + [a], pods + [a.pod], times)
  {
    assert (asks + [a])[..|asks|] == asks;
    forall p | p in pods + [a.pod] ensures p in pods || p == a.pod {}
  }

  /** A reply that ends a drain at once. */
  predicate Fatal(r: Reply) {
    r == IsForbidden || r == Failed
  }

  ghost predicate NoneFatal(asks: seq<Ask>) {
    forall a :: a in asks ==> !Fatal(a.reply)
  }

  /** What an error of a drain says of the evictions that were asked for: the last one was answered so, or none was fatal. */
  ghost predicate Explained(asks: seq<Ask>, err: Option<Refusal>) {
    match err
    case Some(Forbidden) => asks != [] && NoneFatal(asks[..|asks| - 1]) && asks[|asks| - 1].reply == IsForbidden
    case Some(Broken) => asks != [] && NoneFatal(asks[..|asks| - 1]) && asks[|asks| - 1].reply == Failed
    case _ => NoneFatal(asks)
  }

  class NodeDrain {
    var cordoned: bool
    var asks: seq<Ask>

    constructor (cordoned: bool)
      ensures this.cordoned == cordoned && asks == []
    {
      this.cordoned := cordoned;
      asks := [];
    }

    /** One eviction, answered by the API server. */
    method Evict(p: Pod) returns (r: Reply)
      modifies this`asks
      ensures asks == old(asks) + [Ask(p, r)]
    {
      r := *;
      asks := asks + [Ask(p, r)];
    }

    /**
      * Asks for each pod in turn, then again for those a budget refused, for as many rounds as patience
      * lasts. On every exit what was evicted and what is handed back are together the pods that
      * came in; nothing found gone is asked again; and there is no error exactly when nothing is left.
      */
    method EvictAll(pods: seq<Pod>, patience: nat) returns (evicted: nat, refused: seq<Pod>, err: Option<Refusal>)
      requires asks == []
      modifies this`asks
      ensures Conserved(asks, pods, refused, [])
      ensures evicted == |GonePods(asks)| && evicted + |refused| == |pods|
      ensures err.None? <==> refused == []
      ensures err.Some? ==> err.value in {Forbidden, Broken, StillRefused}
      ensures Explained(asks, err) && (err == Some(StillRefused) ==> BudgetSaidNo(asks, refused, patience + 1))
    {
      evicted, err := 0, None;
      var remaining := pods;
      var round: nat := 0;
      while true
        invariant round <= patience && Conserved(asks, pods, [], remaining)
        invariant evicted == |GonePods(asks)| && err.None?
        invariant NoneFatal(asks) && BudgetSaidNo(asks, remaining, round)
        decreases patience - round
      {
        var stillRefused;
        evicted, stillRefused, err := EvictRound(pods, remaining, evicted, round);
        if err.Some? {
          BagSizes(pods, GonePods(asks), stillRefused);
          return evicted, stillRefused, err;
        }
        if |stillRefused| == 0 {
          BagSizes(pods, GonePods(asks), []);
          return evicted, [], None;
        }
        remaining := stillRefused;
        NextRound(asks, pods, remaining);
        if round == patience {
          BagSizes(pods, GonePods(asks), remaining);
          return evicted, remaining, Some(StillRefused);
        }
        round := round + 1;
      }
    }

    /** One pod of a round: gone, or kept for the next round, or the end of the drain. */
    method EvictOne(ghost pods: seq<Pod>, refused: seq<Pod>, pod: Pod, rest: seq<Pod>, before: nat, ghost times: nat)
      returns (evicted: nat, refused': seq<Pod>, err: Option<Refusal>)
      requires Conserved(asks, pods, refused, [pod] + rest) && before == |GonePods(asks)|
      requires NoneFatal(asks) && BudgetSaidNo(asks, refused, times + 1) && BudgetSaidNo(asks, [pod] + rest, times)
      modifies this`asks
      ensures evicted == |GonePods(asks)| && Explained(asks, err)
      ensures err.None? ==>
        Conserved(asks, pods, refused', rest) && BudgetSaidNo(asks, refused', times + 1) && BudgetSaidNo(asks, rest, times)
      ensures err.Some? ==> Conserved(asks, pods, refused', []) && refused' != [] && err.value in {Forbidden, Broken}
    {
      evicted, refused', err := before, refused, None;
      ghost var known := asks;
      var reply := Evict(pod);
      AskingConserves(known, pods, refused, pod, rest, reply);
      StillSaidNo(known, Ask(pod, reply), refused, times + 1);
      StillSaidNo(known, Ask(pod, reply), [pod] + rest, times);
      assert asks[..|asks| - 1] == known && pod in [pod] + rest;
      if reply == Removed || reply == NotFound {
        evicted := evicted + 1;
      } else if reply == TooManyRequests {
        refused' := refused + [pod];
      } else {
        refused' := refused + ([pod] + rest);
        err := Some(if reply == IsForbidden then Forbidden else Broken);
      }
    }

    /** One pass over the pods that remain. */
    method EvictRound(ghost pods: seq<Pod>, remaining: seq<Pod>, before: nat, ghost times: nat)
      returns (evicted: nat, refused: seq<Pod>, err: Option<Refusal>)
      requires Conserved(asks, pods, [], remaining) && before == |GonePods(asks)|
      requires NoneFatal(asks) && BudgetSaidNo(asks, remaining, times)
      modifies this`asks
      ensures Conserved(asks, pods, refused, []) && evicted == |GonePods(asks)| && Explained(asks, err)
      ensures err.Some? ==> err.value in {Forbidden, Broken} && refused != []
      ensures err.None? ==> BudgetSaidNo(asks, refused, times + 1)
    {
      evicted, refused, err := before, [], None;
      assert remaining[0..] == remaining;
      var i := 0;
      while i < |remaining|
        invariant 0 <= i <= |remaining| && err.None? && NoneFatal(asks)
        invariant Conserved(asks, pods, refused, remaining[i..]) && evicted == |GonePods(asks)|
        invariant BudgetSaidNo(asks, refused, times + 1) && BudgetSaidNo(asks, remaining[i..], times)
      {
        assert remaining[i..] == [remaining[i]] + remaining[i + 1..];
        evicted, refused, err := EvictOne(pods, refused, remaining[i], remaining[i + 1..], evicted, times);
        if err.Some? {
          return;
        }
        i := i + 1;
      }
      assert remaining[i..] == [];
    }

    /** Nothing is touched before every check has passed, and pods are evicted only from a cordoned node. */
    method Execute(o: Options, pods: seq<Pod>, cordons: bool, patience: nat)
      returns (evicted: nat, refused: seq<Pod>, skipped: seq<Skipped>, err: Option<Refusal>)
      requires asks == []
      modifies this
      ensures old(cordoned) ==> cordoned
      ensures forall a :: a in asks ==> MayEvict(o, a.pod)
      ensures var over := OverLimit(o, |EvictablePods(o, pods)|);
        if over.Some? then err == over && asks == [] && cordoned == old(cordoned)
        else if !old(cordoned) && !cordons then err == Some(Broken) && asks == [] && !cordoned
        else cordoned && Drained(asks, EvictablePods(o, pods), patience, evicted, refused, err)
      ensures OverLimit(o, |EvictablePods(o, pods)|).None? ==> skipped == SortBy(BySkippedName, SkippedPods(o, pods))
    {
      evicted, refused := 0, [];
      var evictable;
      evictable, skipped, err := Classify(o, pods);
      if err.Some? {
        return;
      }
      if !cordoned {
        if !cordons {
          err := Some(Broken);
          return;
        }
        cordoned := true;
      }
      evicted, refused, err := EvictAll(evictable, patience);
      SortKeeps(ByPodName, EvictablePods(o, pods));
      AsksOnlyEvictable(o, pods, asks);
    }
  }

  /** A drain that asked: every pod is gone or handed back, and the error, or that there is none, is explained. */
  ghost predicate Drained(asks: seq<Ask>, pods: seq<Pod>, patience: nat, evicted: nat, refused: seq<Pod>, err: Option<Refusal>) {
    && multiset(GonePods(asks)) + multiset(refused) == multiset(pods) && evicted == |GonePods(asks)|
    && (err.None? <==> refused == []) && Explained(asks, err)
    && (err.Some? ==> err.value in {Forbidden, Broken, StillRefused})
    && (err == Some(StillRefused) ==> BudgetSaidNo(asks, refused, patience + 1))
  }

  /** The limit a step sets on how many pods it moves: none, one that is kept, one that is not, or one that cannot be read. */
  lemma OverLimitIff(o: Options, n: nat)
    ensures var limit := ParsePositive(o.maxPods, 0x7FFF_FFFF_FFFF_FFFF);
      && (OverLimit(o, n) == None <==> o.maxPods == "" || (limit.Some? && n <= limit.value))
      && (OverLimit(o, n) == Some(TooManyPods) <==> o.maxPods != "" && limit.Some? && n > limit.value)
      && (OverLimit(o, n) == Some(NotAPositiveNumber) <==> o.maxPods != "" && limit.None?)
  {
  }

  /** Why a pod of this node is left alone: the first of the reasons that holds of it. */
  lemma WhyLeft(o: Options, p: Pod)
    requires p.node == o.node
    ensures Placed(o, p) == Left(AlreadyFinished) <==> p.finished
    ensures Placed(o, p) == Left(Mirror) <==> p.mirror && !p.finished
    ensures Placed(o, p) == Left(OwnedByDaemonSet) <==> p.owner == "DaemonSet" && !p.finished && !p.mirror
    ensures Placed(o, p) == Left(Bare) <==> p.owner == "" && !o.allowBare && !p.finished && !p.mirror
    ensures Placed(o, p) == Left(UsesEmptyDir) <==>
      p.emptyDir && !o.allowEmptyDir && !p.finished && !p.mirror && p.owner != "DaemonSet" && (p.owner == "" ==> o.allowBare)
    ensures Placed(o, p) == Evictable <==> MayEvict(o, p)
  {
  }

  /** Both lists read in the order of the names of the pods. */
  lemma ListsAreByName(o: Options, pods: seq<Pod>)
    ensures var e, s := SortBy(ByPodName, EvictablePods(o, pods)), SortBy(BySkippedName, SkippedPods(o, pods));
      && (forall i, j :: 0 <= i < j < |e| ==> !StringLess(e[j].namespace + "/" + e[j].name, e[i].namespace + "/" + e[i].name))
      && (forall i, j :: 0 <= i < j < |s| ==> !StringLess(s[j].pod, s[i].pod))
  {
    NamesAreWeakOrders();
    SortSorts(ByPodName, EvictablePods(o, pods));
    SortSorts(BySkippedName, SkippedPods(o, pods));
    var e, s := SortBy(ByPodName, EvictablePods(o, pods)), SortBy(BySkippedName, SkippedPods(o, pods));
    forall i, j | 0 <= i < j < |e| ensures !StringLess(e[j].namespace + "/" + e[j].name, e[i].namespace + "/" + e[i].name) {
      assert !ByPodName(e[j], e[i]);
    }
    forall i, j | 0 <= i < j < |s| ensures !StringLess(s[j].pod, s[i].pod) {
      assert !BySkippedName(s[j], s[i]);
    }
  }

  lemma NamesAreWeakOrders()
    ensures WeakOrder(ByPodName) && WeakOrder(BySkippedName)
  {
    StringLessIsWeakOrder();
    forall a: Pod, b: Pod ensures ByPodName(a, b) ==> !ByPodName(b, a) {
      StringLessAsymmetric(PodName(a), PodName(b));
    }
    forall a: Skipped, b: Skipped ensures BySkippedName(a, b) ==> !BySkippedName(b, a) {
      StringLessAsymmetric(a.pod, b.pod);
    }
    forall a: Pod, b: Pod, c: Pod | !ByPodName(b, a) && !ByPodName(c, b) ensures !ByPodName(c, a) {
      assert !StringLess(PodName(b), PodName(a)) && !StringLess(PodName(c), PodName(b)) ==> !StringLess(PodName(c), PodName(a));
    }
    forall a: Skipped, b: Skipped, c: Skipped | !BySkippedName(b, a) && !BySkippedName(c, b) ensures !BySkippedName(c, a) {
      assert !StringLess(b.pod, a.pod) && !StringLess(c.pod, b.pod) ==> !StringLess(c.pod, a.pod);
    }
  }

  lemma AsksOnlyEvictable(o: Options, pods: seq<Pod>, asks: seq<Ask>)
    requires forall a :: a in asks ==> a.pod in SortBy(ByPodName, EvictablePods(o, pods))
    ensures forall a :: a in asks ==> MayEvict(o, a.pod)
  {
    var evictable := EvictablePods(o, pods);
    SortKeeps(ByPodName, evictable);
    forall a | a in asks ensures MayEvict(o, a.pod) {
      ClassifyLosesNothing(o, pods, a.pod);
      assert a.pod in multiset(SortBy(ByPodName, evictable));
    }
  }

  lemma BagSizes(pods: seq<Pod>, gone: seq<Pod>, refused: seq<Pod>)
    requires multiset(gone) + multiset(refused) == multiset(pods)
    ensures |gone| + |refused| == |pods|
  {
    assert |multiset(gone) + multiset(refused)| == |gone| + |refused|;
    assert |multiset(pods)| == |pods|;
  }

  /** Among distinct pods, the one about to be asked has not been found gone. */
  lemma NotGoneYet(pods: seq<Pod>, asks: seq<Ask>, refused: seq<Pod>, rest: seq<Pod>)
    requires AddUp(GonePods(asks), refused, rest, pods) && rest != []
    ensures Distinct(pods) ==> forall i :: 0 <= i < |asks| && Gone(asks[i].reply) ==> asks[i].pod != rest[0]
  {
    if Distinct(pods) {
      OnceInBag(pods, rest[0]);
      assert rest[0] in multiset(rest);
      forall i | 0 <= i < |asks| && Gone(asks[i].reply) ensures asks[i].pod != rest[0] {
        GonePodsMembers(asks, i);
        assert asks[i].pod in multiset(GonePods(asks));
      }
    }
  }
}
