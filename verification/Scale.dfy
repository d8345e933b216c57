/** How many replicas a scaling step asks for: targetCount in internal/action/workload/scale.go. */
module Scale {
  import opened Common
  import opened Numbers

  datatype Params = Params(replicas: string, increaseBy: string, increasePercent: string, max: string)

  datatype Refusal = NothingSet | SeveralSet | NotPositive | NoCeiling | CeilingReached

  datatype Target = Accepted(want: int) | Refused(why: Refusal)

  datatype Growth = By(delta: int) | Percent(share: int)

  /** The number a relative change computes, in int32 arithmetic that wraps around at every operation. */
  function Grown(current: Int32, g: Growth): Int32 {
    match g
    case By(delta) => Wrap32(current + delta)
    case Percent(share) => Wrap32(current + Quotient(Wrap32(Wrap32(current * share) + 99), 100))
  }

  function Clip(want: int, current: int, ceiling: int): Target {
    var clipped := if want > ceiling then ceiling else want;
    if clipped <= current then Refused(CeilingReached) else Accepted(clipped)
  }

  /** The growth a step asks for, once it is known to be relative. */
  function Asked(p: Params): Option<Growth> {
    if p.increaseBy != "" then
      match ParsePositive(p.increaseBy, MAX32)
      case None => None
      case Some(delta) => Some(By(delta))
    else
      match ParsePositive(p.increasePercent, MAX32)
      case None => None
      case Some(share) => Some(Percent(share))
  }

  function SetCount(p: Params): nat {
    (if p.replicas != "" then 1 else 0) + (if p.increaseBy != "" then 1 else 0) + (if p.increasePercent != "" then 1 else 0)
  }

  function Outcome(p: Params, current: Int32): Target {
    if SetCount(p) == 0 then Refused(NothingSet)
    else if SetCount(p) > 1 then Refused(SeveralSet)
    else if p.replicas != "" then
      match ParsePositive(p.replicas, MAX32)
      case None => Refused(NotPositive)
      case Some(want) => Accepted(want)
    else
      match ParsePositive(p.max, MAX32)
      case None => Refused(NoCeiling)
      case Some(ceiling) =>
        match Asked(p)
        case None => Refused(NotPositive)
        case Some(g) => Clip(Grown(current, g), current, ceiling)
  }

  method TargetCount(p: Params, current: Int32) returns (t: Target)
    ensures t == Outcome(p, current)
  {
    var values := [p.replicas, p.increaseBy, p.increasePercent];
    var set_ := 0;
    for i := 0 to |values|
      invariant set_ == (if i > 0 && p.replicas != "" then 1 else 0) + (if i > 1 && p.increaseBy != "" then 1 else 0)
                        + (if i > 2 && p.increasePercent != "" then 1 else 0)
    {
      if values[i] != "" {
        set_ := set_ + 1;
      }
    }
    if set_ == 0 {
      return Refused(NothingSet);
    }
    if set_ != 1 {
      return Refused(SeveralSet);
    }
    if p.replicas != "" {
      var want := ParsePositive(p.replicas, MAX32);
      return if want.None? then Refused(NotPositive) else Accepted(want.value);
    }
    var ceiling := ParsePositive(p.max, MAX32);
    if ceiling.None? {
      return Refused(NoCeiling);
    }
    var want: Int32;
    if p.increaseBy != "" {
      var delta := ParsePositive(p.increaseBy, MAX32);
      if delta.None? {
        return Refused(NotPositive);
      }
      want := Wrap32(current + delta.value);
    } else {
      var share := ParsePositive(p.increasePercent, MAX32);
      if share.None? {
        return Refused(NotPositive);
      }
      want := Wrap32(current + Quotient(Wrap32(Wrap32(current * share.value) + 99), 100));
    }
    if want > ceiling.value {
      want := ceiling.value;
    }
    if want <= current {
      return Refused(CeilingReached);
    }
    return Accepted(want);
  }

  // ---- What a relative change is meant to do ---------------------------------------------------

  /** Current plus the delta, or plus the percentage rounded up, in unbounded arithmetic. */
  function Meant(current: int, g: Growth): int {
    match g
    case By(delta) => current + delta
    case Percent(share) => current + RoundedUp(current * share, 100)
  }

  /** The least number of whole units that covers x. */
  function RoundedUp(x: int, unit: int): (r: int)
    requires unit > 0
    ensures r * unit - unit < x <= r * unit
  {
    -((-x) / unit)
  }

  /** Whatever wraps around, an accepted relative change is above the current count and within the ceiling. */
  lemma AcceptedStaysWithinTheCeiling(p: Params, current: Int32)
    requires p.replicas == "" && Outcome(p, current).Accepted?
    ensures ParsePositive(p.max, MAX32).Some?
    ensures current < Outcome(p, current).want <= ParsePositive(p.max, MAX32).value
  {
  }

  /** Nothing wraps: every intermediate value fits in 32 bits. */
  predicate Fits(current: int, g: Growth) {
    match g
    case By(delta) => current + delta <= MAX32
    case Percent(share) => current * share + 99 <= MAX32 && Meant(current, g) <= MAX32
  }

  predicate Positive(g: Growth) {
    match g
    case By(delta) => 0 < delta <= MAX32
    case Percent(share) => 0 < share <= MAX32
  }

  /** The percentage arithmetic on an already multiplied product: exact if it fits, short if it does not. */
  lemma PercentNeverOvershoots(current: Int32, product: nat)
    requires current >= 0
    ensures var got := Wrap32(current + Quotient(Wrap32(Wrap32(product) + 99), 100));
      var meant := current + RoundedUp(product, 100);
      && got <= meant
      && (got == meant <==> product + 99 <= MAX32 && meant <= MAX32)
  {
    var x := Wrap32(Wrap32(product) + 99);
    if product + 99 <= MAX32 {
      assert Wrap32(product) == product && x == product + 99;
      assert RoundedUp(product, 100) == (product + 99) / 100;
    } else {
      assert x <= MAX32;
      TooBigIsShort(product, x);
    }
  }

  lemma TooBigIsShort(product: nat, x: Int32)
    requires product + 99 > MAX32 && x == Wrap32(Wrap32(product) + 99)
    ensures Quotient(x, 100) < RoundedUp(product, 100)
  {
    assert Wrap32(Wrap32(product) + 99) == Wrap32(product + 99);
    if product + 99 <= 2 * MAX32 + 1 {
      assert x == product + 99 - 0x1_0000_0000 < 0;
    } else {
      assert RoundedUp(product, 100) * 100 >= product > 2 * MAX32 - 99;
    }
  }

  lemma GrownNeverOvershoots(current: Int32, g: Growth)
    requires current >= 0 && Positive(g)
    ensures Grown(current, g) <= Meant(current, g)
    ensures Grown(current, g) == Meant(current, g) <==> Fits(current, g)
  {
    if g.Percent? {
      ProductIsNatural(current, g.share);
      PercentNeverOvershoots(current, current * g.share);
    }
  }

  lemma ProductIsNatural(a: int, b: int)
    requires a >= 0 && b >= 0
    ensures a * b >= 0
  {
  }

  /**
    * The computation wrapped around, but what is left of it still takes the count to the ceiling. For a
    * percentage that can be read off the product: its distance above a multiple of 2^32 covers what is
    * needed and overflows nothing further.
    */
  predicate StillReaches(current: Int32, g: Growth, ceiling: int) {
    match g
    case By(delta) => false
    case Percent(share) =>
      100 * (ceiling - current) <= (current * share + 99) % 0x1_0000_0000 <= Min(MAX32, 100 * (MAX32 - current) + 99)
  }

  /** The distance above a multiple of 2^32, and the number int32 arithmetic makes of it. */
  lemma WrappedProduct(product: nat, x: Int32)
    requires x == Wrap32(Wrap32(product) + 99)
    ensures x >= 0 <==> (product + 99) % 0x1_0000_0000 <= MAX32
    ensures x >= 0 ==> x == (product + 99) % 0x1_0000_0000
  {
  }

  lemma ReachesIff(current: Int32, product: nat, ceiling: int)
    requires current >= 0 && current < ceiling <= MAX32
    ensures ceiling <= Wrap32(current + Quotient(Wrap32(Wrap32(product) + 99), 100)) <==>
      100 * (ceiling - current) <= (product + 99) % 0x1_0000_0000 <= Min(MAX32, 100 * (MAX32 - current) + 99)
  {
    var x: Int32 := Wrap32(Wrap32(product) + 99);
    WrappedProduct(product, x);
    SumReachesIff(current, x, ceiling);
  }

  lemma SumReachesIff(current: Int32, x: Int32, ceiling: int)
    requires current >= 0 && current < ceiling <= MAX32
    ensures ceiling <= Wrap32(current + Quotient(x, 100)) <==>
      x >= 0 && 100 * (ceiling - current) <= x <= 100 * (MAX32 - current) + 99
  {
    if x >= 0 && current + x / 100 > MAX32 {
      assert Wrap32(current + x / 100) < 0;
    }
  }

  /**
    * A relative change gives min(ceiling, what was meant), or refuses when that is no increase, if
    * and only if nothing wraps around, or no ceiling could be exceeded anyway, or what is left of a
    * wrapped percentage still reaches the ceiling.
    */
  lemma RelativeIsExactIff(current: Int32, g: Growth, ceiling: int)
    requires current >= 0 && Positive(g) && 0 < ceiling <= MAX32
    ensures Clip(Grown(current, g), current, ceiling) == Clip(Meant(current, g), current, ceiling) <==>
      Fits(current, g) || ceiling <= current || StillReaches(current, g, ceiling)
  {
    GrownNeverOvershoots(current, g);
    if !Fits(current, g) {
      MeantGrows(current, g);
    }
    ClipsTheSameIff(Grown(current, g), Meant(current, g), current, ceiling);
    if ceiling > current {
      GrownReachesIff(current, g, ceiling);
    }
  }

  lemma ClipsTheSameIff(got: int, meant: int, current: int, ceiling: int)
    requires got <= meant && (got != meant ==> meant > current)
    ensures Clip(got, current, ceiling) == Clip(meant, current, ceiling) <==> got == meant || ceiling <= current || ceiling <= got
  {
  }

  lemma GrownReachesIff(current: Int32, g: Growth, ceiling: int)
    requires current >= 0 && Positive(g) && current < ceiling <= MAX32
    ensures Fits(current, g) || (ceiling <= Grown(current, g) <==> StillReaches(current, g, ceiling))
  {
    if g.Percent? {
      ProductIsNatural(current, g.share);
      ReachesIff(current, current * g.share, ceiling);
    }
  }

  /** Where the ceiling lies further above the current count than a wrapped percentage can reach, only fitting helps. */
  lemma PercentIsExactBeyondIff(current: Int32, share: int, ceiling: int)
    requires current >= 0 && 0 < share <= MAX32 && 0 < ceiling <= MAX32
    requires ceiling <= current || ceiling > current + MAX32 / 100
    ensures Clip(Grown(current, Percent(share)), current, ceiling) == Clip(Meant(current, Percent(share)), current, ceiling) <==>
      Fits(current, Percent(share)) || ceiling <= current
  {
    RelativeIsExactIff(current, Percent(share), ceiling);
  }

  /** A growth that does not fit is, as it was meant, an increase. */
  lemma MeantGrows(current: Int32, g: Growth)
    requires current >= 0 && Positive(g) && !Fits(current, g)
    ensures Meant(current, g) > current
  {
    if g.Percent? {
      if current == 0 {
        assert RoundedUp(0, 100) == 0;
      } else {
        ProductIsPositive(current, g.share);
      }
    }
  }

  lemma ProductIsPositive(a: int, b: int)
    requires a > 0 && b > 0
    ensures a * b > 0
  {
  }

  // ---- What a step asks for ---------------------------------------------------------------------

  /** min(ceiling, what was meant), or a refusal when that is no increase. */
  predicate MeetsTheCeiling(t: Target, meant: int, current: int, ceiling: int) {
    var want := Min(ceiling, meant);
    if want > current then t == Accepted(want) else t == Refused(CeilingReached)
  }

  /** Steps that say nothing, or too much. */
  lemma OneParameterIsSet(p: Params, current: Int32)
    ensures Outcome(p, current) == Refused(NothingSet) <==> p.replicas == "" && p.increaseBy == "" && p.increasePercent == ""
    ensures Outcome(p, current) == Refused(SeveralSet) <==>
      (p.replicas != "" && (p.increaseBy != "" || p.increasePercent != "")) || (p.increaseBy != "" && p.increasePercent != "")
  {
  }

  /** An absolute count is taken as it is said, whatever the current one. */
  lemma AbsoluteCount(p: Params, current: Int32)
    requires p.replicas != "" && p.increaseBy == "" && p.increasePercent == ""
    ensures var n := ParsePositive(p.replicas, 0x7FFF_FFFF);
      Outcome(p, current) == if n.Some? then Accepted(n.value) else Refused(NotPositive)
  {
  }

  /** An increase by a count under a ceiling: exact if and only if the sum fits or the ceiling is no increase. */
  lemma IncreaseByCount(p: Params, current: Int32)
    requires p.replicas == "" && p.increaseBy != "" && p.increasePercent == "" && current >= 0
    ensures var ceiling, delta := ParsePositive(p.max, 0x7FFF_FFFF), ParsePositive(p.increaseBy, 0x7FFF_FFFF);
      && (ceiling.None? ==> Outcome(p, current) == Refused(NoCeiling))
      && (ceiling.Some? && delta.None? ==> Outcome(p, current) == Refused(NotPositive))
      && (ceiling.Some? && delta.Some? ==>
            (MeetsTheCeiling(Outcome(p, current), current + delta.value, current, ceiling.value) <==>
               current + delta.value <= MAX32 || ceiling.value <= current))
  {
    var ceiling, delta := ParsePositive(p.max, MAX32), ParsePositive(p.increaseBy, MAX32);
    if ceiling.Some? && delta.Some? {
      IncreaseByIsExactIff(current, delta.value, ceiling.value);
    }
  }

  /** An increase by a percentage under a ceiling, rounded up, with the exact condition. */
  lemma IncreaseByPercent(p: Params, current: Int32)
    requires p.replicas == "" && p.increaseBy == "" && p.increasePercent != "" && current >= 0
    ensures var ceiling, share := ParsePositive(p.max, 0x7FFF_FFFF), ParsePositive(p.increasePercent, 0x7FFF_FFFF);
      && (ceiling.None? ==> Outcome(p, current) == Refused(NoCeiling))
      && (ceiling.Some? && share.None? ==> Outcome(p, current) == Refused(NotPositive))
      && (ceiling.Some? && share.Some? ==>
            (MeetsTheCeiling(Outcome(p, current), current + RoundedUp(current * share.value, 100), current, ceiling.value) <==>
               Fits(current, Percent(share.value)) || ceiling.value <= current || StillReaches(current, Percent(share.value), ceiling.value)))
  {
    var ceiling, share := ParsePositive(p.max, MAX32), ParsePositive(p.increasePercent, MAX32);
    if ceiling.Some? && share.Some? {
      RelativeIsExactIff(current, Percent(share.value), ceiling.value);
    }
  }

  /** An increase by a count that wraps around is always refused where it was meant to reach the ceiling. */
  lemma IncreaseByIsExactIff(current: Int32, delta: int, ceiling: int)
    requires current >= 0 && 0 < delta <= MAX32 && 0 < ceiling <= MAX32
    ensures Clip(Grown(current, By(delta)), current, ceiling) == Clip(current + delta, current, ceiling) <==>
      current + delta <= MAX32 || ceiling <= current
  {
  }

  /** 50,000 replicas grown by 100,000 per cent under a ceiling of 100 million: 7,100,328 instead of 50,050,000. */
  lemma PercentWrapsAround()
    ensures Clip(Grown(50_000, Percent(100_000)), 50_000, 100_000_000) == Accepted(7_100_328)
    ensures Clip(Meant(50_000, Percent(100_000)), 50_000, 100_000_000) == Accepted(50_050_000)
  {
  }
}
