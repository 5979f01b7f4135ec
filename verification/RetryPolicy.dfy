/** Delays shared by the audit engine: how long a failing page or a tripped circuit waits. */
module RetryPolicy {
  const MINUTE_MS: nat := 60_000
  const MAX_DELAY_MS: nat := 15 * MINUTE_MS

  function Pow2(e: nat): (p: nat)
    ensures p >= 1
  {
    if e == 0 then 1 else 2 * Pow2(e - 1)
  }

  /** One minute, doubled per failure over at most four doublings and capped at fifteen minutes. */
  function CommonCrawlPageRetryDelay(failures: int): nat {
    var exponent := if failures - 1 < 0 then 0 else if failures - 1 > 4 then 4 else failures - 1;
    var delay := MINUTE_MS * Pow2(exponent);
    if delay < MAX_DELAY_MS then delay else MAX_DELAY_MS
  }

  /** Every delay is between one and fifteen minutes, a later failure never waits less,
      and the cap is reached exactly from the fifth failure on. */
  lemma DelayIsBoundedAndMonotone(a: int, b: int)
    requires a <= b
    ensures MINUTE_MS <= CommonCrawlPageRetryDelay(a) <= CommonCrawlPageRetryDelay(b) <= MAX_DELAY_MS
    ensures CommonCrawlPageRetryDelay(a) == MAX_DELAY_MS <==> a >= 5
  {
    assert Pow2(1) == 2 && Pow2(2) == 4 && Pow2(3) == 8 && Pow2(4) == 16;
  }

  function Capped(milliseconds: nat): nat {
    if milliseconds < 900_000 then milliseconds else 900_000
  }

  /** The delay is one minute up to the first failure, and every further failure doubles it up to fifteen minutes. */
  lemma DelayDoubles(n: int)
    ensures n <= 1 ==> CommonCrawlPageRetryDelay(n) == 60_000
    ensures n >= 1 ==> CommonCrawlPageRetryDelay(n + 1) == Capped(2 * CommonCrawlPageRetryDelay(n))
  {
    assert Pow2(1) == 2 && Pow2(2) == 4 && Pow2(3) == 8 && Pow2(4) == 16;
  }

  /** In closed form: after `k` failures before it, a failure waits two to the `k` minutes, and at most fifteen. */
  lemma {:induction false} DelayIsPower(k: nat)
    ensures CommonCrawlPageRetryDelay(k + 1) == Capped(60_000 * Pow2(k))
  {
    if k == 0 {
      DelayDoubles(1);
    } else {
      DelayIsPower(k - 1);
      DelayDoubles(k);
      assert Pow2(k) == 2 * Pow2(k - 1);
    }
  }
}
