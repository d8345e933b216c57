/** Retry timing: internal/engine/backoff.go. */
module Backoff {
  import opened Common

  const BASE_BACKOFF: Time := 30
  const MAX_BACKOFF: Time := 600

  function Pow2(n: nat): (r: nat)
    ensures r >= 1
  {
    if n == 0 then 1 else 2 * Pow2(n - 1)
  }

  /** The capped doubling sequence 30s, 1m, 2m, 4m, 8m, 10m, 10m, ... that starts at attempt 2. */
  function WaitBefore(attempt: int): Time {
    if attempt <= 1 then 0 else Min(BASE_BACKOFF * Pow2(attempt - 2), MAX_BACKOFF)
  }

  lemma {:induction false} Pow2Monotone(m: nat, n: nat)
    requires m <= n
    ensures Pow2(m) <= Pow2(n)
    decreases n
  {
    if m < n { Pow2Monotone(m, n - 1); }
  }

  /** The loop leaves at the cap exactly when the uncapped power would pass it. */
  method Backoff(attempt: int) returns (d: Time)
    ensures d == WaitBefore(attempt)
  {
    if attempt <= 1 {
      return 0;
    }
    d := BASE_BACKOFF;
    var i := 0;
    while i < attempt - 2
      invariant 0 <= i <= attempt - 2
      invariant d == BASE_BACKOFF * Pow2(i) && d < MAX_BACKOFF
    {
      d := d * 2;
      i := i + 1;
      if d >= MAX_BACKOFF {
        Pow2Monotone(i, attempt - 2);
        return MAX_BACKOFF;
      }
    }
  }

  /** Everything a record with this many failed attempts has been made to wait. */
  function TotalWait(failures: nat): Time {
    if failures == 0 then 0 else TotalWait(failures - 1) + WaitBefore(failures + 1)
  }

  lemma {:induction false} TotalWaitClosedForm(failures: nat)
    ensures TotalWait(failures) ==
            if failures <= 5 then 30 * (Pow2(failures) - 1) else 930 + 600 * (failures - 5)
  {
    if failures > 0 {
      TotalWaitClosedForm(failures - 1);
      if failures > 5 {
        Pow2Monotone(5, failures - 1);
        assert Pow2(5) == 2 * Pow2(4) == 4 * Pow2(3) == 8 * Pow2(2) == 32;
      } else {
        Pow2Monotone(failures - 1, 4);
        assert Pow2(4) == 2 * Pow2(3) == 4 * Pow2(2) == 8 * Pow2(1) == 16;
      }
      if failures == 6 {
        assert Pow2(5) == 32;
      }
    }
  }
}
