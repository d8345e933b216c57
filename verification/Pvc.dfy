/** How large a volume claim should become: targetSize in internal/action/node/pvc.go. */
module Pvc {
  import opened Numbers

  /** A size as the API keeps it, exactly: a whole number of billionths of a byte, of either sign. */
  type Quantity = int

  const NANOS := 1_000_000_000
  const MEBIBYTE := 1_048_576

  /** A parameter that holds a quantity: left out, unreadable, or read. */
  datatype SizeParam = Unset | Garbled | Size(q: Quantity)

  datatype Params = Params(size: SizeParam, percent: string, maxSize: SizeParam)

  datatype Refusal = BothSet | NothingSet | NotAQuantity | NotAPercentage | NoCeiling | NoGrowth

  datatype Target = Accepted(want: Quantity) | Refused(why: Refusal)

  /** The bytes of a quantity, rounded away from zero to a whole number. */
  function Value(q: Quantity): (v: int)
    ensures q >= 0 ==> q <= v * NANOS < q + NANOS
    ensures q <= 0 ==> q - NANOS < v * NANOS <= q
  {
    if q >= 0 then (q + NANOS - 1) / NANOS else -((NANOS - 1 - q) / NANOS)
  }

  /** Bytes, growth in per cent and rounding to a whole mebibyte, in int64 arithmetic that wraps around. */
  function Grown(bytes: Int64, share: int): Int64 {
    var sum := Wrap64(bytes + Quotient(Wrap64(bytes * share), 100));
    Wrap64(Quotient(Wrap64(sum + MEBIBYTE - 1), MEBIBYTE) * MEBIBYTE)
  }

  function CheckGrowth(want: int, current: Quantity): Target {
    if want <= current then Refused(NoGrowth) else Accepted(want)
  }

  function Clip(want: int, current: Quantity, ceiling: Quantity): Target {
    CheckGrowth(if want > ceiling then ceiling else want, current)
  }

  /** The bytes are what the API machinery reports for the current size: exact when they fit, anything when not. */
  function Outcome(p: Params, current: Quantity, bytes: Int64): Target {
    if !p.size.Unset? && p.percent != "" then Refused(BothSet)
    else if p.size.Unset? && p.percent == "" then Refused(NothingSet)
    else if !p.size.Unset? then
      if p.size.Garbled? then Refused(NotAQuantity) else CheckGrowth(p.size.q, current)
    else
      match ParsePositive(p.percent, MAX64)
      case None => Refused(NotAPercentage)
      case Some(share) =>
        if !p.maxSize.Size? then Refused(NoCeiling)
        else Clip(Grown(bytes, share) * NANOS, current, p.maxSize.q)
  }

  method TargetSize(p: Params, current: Quantity, bytes: Int64) returns (t: Target)
    ensures t == Outcome(p, current, bytes)
  {
    if !p.size.Unset? && p.percent != "" {
      return Refused(BothSet);
    }
    if p.size.Unset? && p.percent == "" {
      return Refused(NothingSet);
    }
    if !p.size.Unset? {
      if p.size.Garbled? {
        return Refused(NotAQuantity);
      }
      return CheckGrowth(p.size.q, current);
    }
    var share := ParsePositive(p.percent, MAX64);
    if share.None? {
      return Refused(NotAPercentage);
    }
    if !p.maxSize.Size? {
      return Refused(NoCeiling);
    }
    var grown: Int64 := Wrap64(bytes + Quotient(Wrap64(bytes * share.value), 100));
    grown := Wrap64(Quotient(Wrap64(grown + MEBIBYTE - 1), MEBIBYTE) * MEBIBYTE);
    var want := grown * NANOS;
    if want > p.maxSize.q {
      want := p.maxSize.q;
    }
    return CheckGrowth(want, current);
  }

  // ---- What growth is meant to do ---------------------------------------------------------------

  /** The least number of whole mebibytes that covers the grown size, in bytes. */
  function Meant(bytes: nat, share: nat): (r: nat)
    ensures r % MEBIBYTE == 0
    ensures r - MEBIBYTE < bytes + bytes * share / 100 <= r
  {
    WholeMebibytes(bytes + bytes * share / 100)
  }

  function WholeMebibytes(x: nat): (r: nat)
    ensures r % MEBIBYTE == 0 && r - MEBIBYTE < x <= r
  {
    (x + MEBIBYTE - 1) / MEBIBYTE * MEBIBYTE
  }

  /** Whatever wraps around, an accepted growth is above the current size and within the ceiling. */
  lemma AcceptedStaysWithinTheCeiling(p: Params, current: Quantity, bytes: Int64)
    requires p.size.Unset? && Outcome(p, current, bytes).Accepted?
    ensures p.maxSize.Size? && current < Outcome(p, current, bytes).want <= p.maxSize.q
  {
  }

  /** Nothing wraps: the product, the grown size and its rounding up all fit in 64 bits. */
  predicate Fits(bytes: nat, share: nat) {
    && bytes * share <= MAX64
    && bytes + bytes * share / 100 + MEBIBYTE - 1 <= MAX64
  }

  lemma RoundedFits(t: Int64)
    ensures Wrap64(Quotient(t, MEBIBYTE) * MEBIBYTE) == Quotient(t, MEBIBYTE) * MEBIBYTE
    ensures t >= 0 ==> 0 <= t - Quotient(t, MEBIBYTE) * MEBIBYTE < MEBIBYTE
    ensures t < 0 ==> Quotient(t, MEBIBYTE) * MEBIBYTE <= 0
  {
    if t >= 0 {
      assert t == t / MEBIBYTE * MEBIBYTE + t % MEBIBYTE;
    } else {
      var n: int := 0 - t;
      assert n == n / MEBIBYTE * MEBIBYTE + n % MEBIBYTE;
    }
  }

  /** The growth arithmetic on an already multiplied product: exact if it fits, short if it does not. */
  lemma GrowthNeverOvershoots(bytes: nat, product: nat)
    requires bytes <= MAX64
    ensures var sum := Wrap64(bytes + Quotient(Wrap64(product), 100));
      var got := Wrap64(Quotient(Wrap64(sum + MEBIBYTE - 1), MEBIBYTE) * MEBIBYTE);
      var meant := WholeMebibytes(bytes + product / 100);
      && got <= meant
      && (got == meant <==> product <= MAX64 && bytes + product / 100 + MEBIBYTE - 1 <= MAX64)
  {
    var q := Quotient(Wrap64(product), 100);
    if product <= MAX64 {
      assert Wrap64(product) == product && q == product / 100;
    } else {
      TooBigIsShort(product);
    }
    RoundingNeverOvershoots(bytes + q);
    if q < product / 100 {
      RoundingIsMonotone(bytes + q, bytes + product / 100);
    }
  }

  /** The sum and its rounding, on a growth that is no bigger than meant. */
  lemma RoundingNeverOvershoots(grown: int)
    requires -MAX64 <= grown <= 2 * MAX64
    ensures var t := Wrap64(Wrap64(grown) + MEBIBYTE - 1);
      var got := Wrap64(Quotient(t, MEBIBYTE) * MEBIBYTE);
      && (0 <= grown <= MAX64 - MEBIBYTE + 1 ==> got == WholeMebibytes(grown))
      && (grown > MAX64 - MEBIBYTE + 1 ==> got <= 0)
      && (grown < 0 ==> got <= 0)
  {
    var t := Wrap64(Wrap64(grown) + MEBIBYTE - 1);
    RoundedFits(t);
    if grown > MAX64 {
      assert Wrap64(grown) == grown - 0x1_0000_0000_0000_0000 <= -2;
    }
  }

  lemma RoundingIsMonotone(x: int, y: nat)
    requires x + 1_000_000_000 <= y
    ensures x >= 0 ==> WholeMebibytes(x) < WholeMebibytes(y)
    ensures y > MEBIBYTE ==> WholeMebibytes(y) > MEBIBYTE
  {
  }

  /** A product that wraps around leaves the growth short by far more than any rounding. */
  lemma TooBigIsShort(product: nat)
    requires product > MAX64
    ensures Quotient(Wrap64(product), 100) <= product / 100 - 1_000_000_000
  {
    var x := Wrap64(product);
    if x < 0 {
      assert Quotient(x, 100) <= 0;
    } else {
      WrapsByAWholeTurn(product);
      assert x <= product - 0x1_0000_0000_0000_0000;
    }
  }

  lemma WrapsByAWholeTurn(product: nat)
    requires product > MAX64 && Wrap64(product) >= 0
    ensures Wrap64(product) <= product - 0x1_0000_0000_0000_0000
  {
    var turn := 0x1_0000_0000_0000_0000;
    var shifted := product + MAX64 + 1;
    assert shifted == shifted / turn * turn + shifted % turn;
    assert shifted / turn >= 1;
  }

  lemma GrownNeverOvershoots(bytes: nat, share: nat)
    requires bytes <= MAX64
    ensures Grown(bytes, share) <= Meant(bytes, share)
    ensures Grown(bytes, share) == Meant(bytes, share) <==> Fits(bytes, share)
  {
    GrowthNeverOvershoots(bytes, bytes * share);
  }

  /** The least growth, in bytes, whose rounding to whole mebibytes reaches a ceiling. */
  function Needed(ceiling: Quantity): int {
    var bytes := Value(ceiling);
    (bytes + MEBIBYTE - 1) / MEBIBYTE * MEBIBYTE - MEBIBYTE + 1
  }

  /**
    * The product wrapped around, but what is left of it still takes the size to the ceiling: a hundredth
    * of the product, counted from the nearest multiple of 2^64, covers what is needed and overflows
    * nothing further.
    */
  predicate StillReaches(bytes: int, share: int, ceiling: Quantity) {
    Needed(ceiling) - bytes <= Quotient(Wrap64(bytes * share), 100) <= MAX64 - MEBIBYTE + 1 - bytes
  }

  lemma ReachesIff(bytes: nat, product: int, ceiling: Quantity)
    requires bytes <= MAX64 && ceiling > 0
    ensures var sum := Wrap64(bytes + Quotient(Wrap64(product), 100));
      var got := Wrap64(Quotient(Wrap64(sum + MEBIBYTE - 1), MEBIBYTE) * MEBIBYTE);
      ceiling <= got * NANOS <==> Needed(ceiling) - bytes <= Quotient(Wrap64(product), 100) <= MAX64 - MEBIBYTE + 1 - bytes
  {
    var grown := bytes + Quotient(Wrap64(product), 100);
    RoundingNeverOvershoots(grown);
    if 0 <= grown <= MAX64 - MEBIBYTE + 1 {
      CoversIff(grown, ceiling);
    } else {
      NeededIsPositive(ceiling);
    }
  }

  lemma NeededIsPositive(ceiling: Quantity)
    requires ceiling > 0
    ensures Needed(ceiling) >= 1
  {
  }

  lemma CoversIff(grown: nat, ceiling: Quantity)
    requires ceiling > 0
    ensures ceiling <= WholeMebibytes(grown) * NANOS <==> Needed(ceiling) <= grown
  {
    var want := Value(ceiling);
    assert ceiling <= WholeMebibytes(grown) * NANOS <==> want <= WholeMebibytes(grown);
    WholeIff(grown, want);
  }

  lemma WholeIff(grown: nat, want: nat)
    ensures want <= WholeMebibytes(grown) <==> (want + MEBIBYTE - 1) / MEBIBYTE * MEBIBYTE - MEBIBYTE + 1 <= grown
  {
  }

  /**
    * A growth gives min(ceiling, the grown size in whole mebibytes), or refuses when that is no
    * increase, if and only if nothing wraps around, or the ceiling is no increase anyway, or what is
    * left of the wrapped product still reaches the ceiling. (A claim never requests less than nothing.)
    */
  lemma GrowthIsExactIff(current: Quantity, share: nat, ceiling: Quantity)
    requires 0 <= current && Value(current) <= MAX64 && share > 0
    ensures var bytes := Value(current);
      Clip(Grown(bytes, share) * NANOS, current, ceiling) == Clip(Meant(bytes, share) * NANOS, current, ceiling) <==>
        Fits(bytes, share) || ceiling <= current || StillReaches(bytes, share, ceiling)
  {
    var bytes := Value(current);
    GrownNeverOvershoots(bytes, share);
    if !Fits(bytes, share) {
      MeantGrows(bytes, share);
    }
    if ceiling > current {
      ReachesIff(bytes, bytes * share, ceiling);
    }
  }

  /** Where the ceiling lies further above the current size than what is left of a product can reach, only fitting helps. */
  lemma GrowthIsExactBeyondIff(current: Quantity, share: nat, ceiling: Quantity)
    requires 0 <= current && Value(current) <= MAX64 && share > 0
    requires ceiling <= current || ceiling > (Value(current) + MAX64 / 100 + MEBIBYTE) * NANOS
    ensures var bytes := Value(current);
      Clip(Grown(bytes, share) * NANOS, current, ceiling) == Clip(Meant(bytes, share) * NANOS, current, ceiling) <==>
        Fits(bytes, share) || ceiling <= current
  {
    GrowthIsExactIff(current, share, ceiling);
    if ceiling > current {
      HundredthIsSmall(Value(current) * share);
      NeededCovers(ceiling);
    }
  }

  lemma HundredthIsSmall(product: int)
    ensures Quotient(Wrap64(product), 100) <= MAX64 / 100
  {
  }

  lemma NeededCovers(ceiling: Quantity)
    requires ceiling > 0
    ensures (Needed(ceiling) + MEBIBYTE) * NANOS >= ceiling
  {
    var want := Value(ceiling);
    assert (want + MEBIBYTE - 1) / MEBIBYTE * MEBIBYTE >= want;
  }

  /** A growth that does not fit is, as it was meant, an increase. */
  lemma MeantGrows(bytes: nat, share: nat)
    requires bytes <= MAX64 && share > 0 && !Fits(bytes, share)
    ensures Meant(bytes, share) > bytes
  {
    if bytes * share < 100 {
      AtMostTheProduct(bytes, share);
    }
  }

  lemma AtMostTheProduct(a: nat, b: nat)
    requires b > 0
    ensures a <= a * b
  {
  }

  lemma ValueOfWholeBytes(bytes: nat)
    ensures Value(bytes * NANOS) == bytes
  {
  }

  // ---- What a step asks for ---------------------------------------------------------------------

  predicate MeetsTheCeiling(t: Target, meant: Quantity, current: Quantity, ceiling: Quantity) {
    var want := if meant < ceiling then meant else ceiling;
    if want > current then t == Accepted(want) else t == Refused(NoGrowth)
  }

  /** Steps that say nothing or both, and an absolute size: taken as it is said, if it is an increase. */
  lemma AbsoluteSize(p: Params, current: Quantity, bytes: Int64)
    ensures Outcome(p, current, bytes) == Refused(BothSet) <==> p.size != Unset && p.percent != ""
    ensures Outcome(p, current, bytes) == Refused(NothingSet) <==> p.size == Unset && p.percent == ""
    ensures p.size == Garbled && p.percent == "" ==> Outcome(p, current, bytes) == Refused(NotAQuantity)
    ensures p.size.Size? && p.percent == "" ==>
      Outcome(p, current, bytes) == if p.size.q > current then Accepted(p.size.q) else Refused(NoGrowth)
  {
  }

  /** A growth under a ceiling, of a claim whose size in bytes fits, with the exact condition. */
  lemma GrowthByPercent(p: Params, current: Quantity, bytes: Int64)
    requires p.size == Unset && p.percent != "" && 0 <= current && bytes == Value(current)
    ensures var share := ParsePositive(p.percent, 0x7FFF_FFFF_FFFF_FFFF);
      && (share.None? ==> Outcome(p, current, bytes) == Refused(NotAPercentage))
      && (share.Some? && !p.maxSize.Size? ==> Outcome(p, current, bytes) == Refused(NoCeiling))
      && (share.Some? && p.maxSize.Size? ==>
            (MeetsTheCeiling(Outcome(p, current, bytes), Meant(bytes, share.value) * 1_000_000_000, current, p.maxSize.q) <==>
               Fits(bytes, share.value) || p.maxSize.q <= current || StillReaches(bytes, share.value, p.maxSize.q)))
  {
    var share := ParsePositive(p.percent, MAX64);
    if share.Some? && p.maxSize.Size? {
      GrowthIsExactIff(current, share.value, p.maxSize.q);
    }
  }

  /** Four exbibytes grown by 300 per cent under a ceiling of six: refused, where six was meant. */
  lemma GrowthWrapsAround()
    ensures var four, six: nat := 0x4000_0000_0000_0000, 0x6000_0000_0000_0000;
      && Value(four * NANOS) == four
      && Clip(Grown(four, 300) * NANOS, four * NANOS, six * NANOS) == Refused(NoGrowth)
      && Clip(Meant(four, 300) * NANOS, four * NANOS, six * NANOS) == Accepted(six * NANOS)
  {
    var four: nat := 0x4000_0000_0000_0000;
    ValueOfWholeBytes(four);
    assert Wrap64(four * 300) == 0;
    assert Grown(four, 300) == four;
    assert Meant(four, 300) >= 4 * four;
  }
}
