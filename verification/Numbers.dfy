/** Go's fixed-width integers and its base-10 parser, written out where the model needs them. */
module Numbers {
  import opened Common

  const MAX32 := 0x7FFF_FFFF
  const MAX64 := 0x7FFF_FFFF_FFFF_FFFF

  type Int32 = x: int | -MAX32 - 1 <= x <= MAX32
  type Int64 = x: int | -MAX64 - 1 <= x <= MAX64

  /** Two's-complement wrap-around. */
  function Wrap32(x: int): Int32 {
    (x + MAX32 + 1) % 0x1_0000_0000 - MAX32 - 1
  }

  function Wrap64(x: int): Int64 {
    (x + MAX64 + 1) % 0x1_0000_0000_0000_0000 - MAX64 - 1
  }

  /** Integer division by a positive constant, truncated toward zero. */
  function Quotient(x: int, d: int): int
    requires d > 0
  {
    if x >= 0 then x / d else -((-x) / d)
  }

  lemma QuotientTruncates(x: int, d: int)
    requires d > 0
    ensures x >= 0 ==> Quotient(x, d) >= 0 && 0 <= x - Quotient(x, d) * d < d
    ensures x <= 0 ==> Quotient(x, d) <= 0 && -d < x - Quotient(x, d) * d <= 0
  {
    var n := if x >= 0 then x else -x;
    assert n == n / d * d + n % d;
    if x < 0 { assert Quotient(x, d) * d == -(n / d * d); }
  }

  function Digits(s: string, acc: nat): Option<nat> {
    if s == "" then Some(acc)
    else if '0' <= s[0] <= '9' then Digits(s[1..], 10 * acc + (s[0] - '0') as nat)
    else None
  }

  /** ParseInt in base 10: an optional sign, at least one digit, nothing else, and a value within the width. */
  function ParseInt(raw: string, max: int): (r: Option<int>)
    ensures r.Some? ==> -max - 1 <= r.value <= max
  {
    if raw == "" then None
    else
      var signed := raw[0] == '-' || raw[0] == '+';
      var digits := if signed then raw[1..] else raw;
      if digits == "" then None
      else
        match Digits(digits, 0)
        case None => None
        case Some(n) =>
          var v: int := if raw[0] == '-' then 0 - n else n;
          if -max - 1 <= v <= max then Some(v) else None
  }

  function ParsePositive(raw: string, max: int): (r: Option<int>)
    ensures r.Some? ==> 0 < r.value <= max
  {
    match ParseInt(raw, max)
    case None => None
    case Some(n) => if n <= 0 then None else Some(n)
  }
  // ---- What the parser reads --------------------------------------------------------------------

  predicate AllDigits(s: string) {
    forall i :: 0 <= i < |s| ==> '0' <= s[i] <= '9'
  }

  /** The number a row of digits stands for, the last one counting for ones. */
  function NumberOf(s: string): nat
    requires AllDigits(s)
  {
    if s == "" then 0 else 10 * NumberOf(s[..|s| - 1]) + (s[|s| - 1] - '0') as nat
  }

  lemma {:induction false} DigitsSnoc(s: string, c: char, acc: nat)
    requires '0' <= c <= '9'
    ensures Digits(s + [c], acc) ==
      match Digits(s, acc)
      case None => None
      case Some(n) => Some(10 * n + (c - '0') as nat)
  {
    if s == "" {
      assert s + [c] == [c] && [c][1..] == "";
    } else {
      assert (s + [c])[1..] == s[1..] + [c];
      if '0' <= s[0] <= '9' { DigitsSnoc(s[1..], c, 10 * acc + (s[0] - '0') as nat); }
    }
  }

  lemma {:induction false} DigitsAre(s: string)
    requires AllDigits(s)
    ensures Digits(s, 0) == Some(NumberOf(s))
  {
    if s != "" {
      var n := |s| - 1;
      DigitsAre(s[..n]);
      DigitsSnoc(s[..n], s[n], 0);
      assert s[..n] + [s[n]] == s;
    }
  }

  lemma {:induction false} NotDigits(s: string, acc: nat)
    requires !AllDigits(s)
    ensures Digits(s, acc).None?
  {
    if '0' <= s[0] <= '9' {
      assert !AllDigits(s[1..]) by {
        var i :| 0 <= i < |s| && !('0' <= s[i] <= '9');
        assert s[1..][i - 1] == s[i];
      }
      NotDigits(s[1..], 10 * acc + (s[0] - '0') as nat);
    }
  }

  /** A positive number of a width is read from nothing but its digits, with or without a plus sign in front. */
  lemma ParsePositiveIff(raw: string, max: nat, n: int)
    ensures var digits := if raw != "" && raw[0] == '+' then raw[1..] else raw;
      ParsePositive(raw, max) == Some(n) <==> digits != "" && AllDigits(digits) && n == NumberOf(digits) && 0 < n <= max
  {
    var digits := if raw != "" && raw[0] == '+' then raw[1..] else raw;
    if AllDigits(digits) { DigitsAre(digits); } else { NotDigits(digits, 0); }
    if raw != "" && raw[0] == '-' {
      assert !AllDigits(digits);
    }
  }
}
