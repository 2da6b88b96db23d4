/** Whole days left until a product expires, as both the reminder scheduler and
    the tracking page compute it: the millisecond difference between expiry and
    now, divided by the length of a day and rounded up. */
module Expiry {
  import opened Common

  /** 1000 * 3600 * 24: milliseconds in a day. */
  const MsPerDay: int := 1000 * 3600 * 24

  /** The number `Math.ceil` yields. An expiry date that does not parse makes
      `getTime()` return NaN, and NaN survives the division and the ceiling. */
  datatype DayCount = Days(n: int) | NotANumber

  /** Ceiling of `diffMs / MsPerDay`. Dafny's `/` floors for a positive
      divisor, so the ceiling is the negated floor of the negated difference. */
  function CeilDays(diffMs: int): (r: int)
    ensures (r - 1) * MsPerDay < diffMs <= r * MsPerDay
  {
    -((-diffMs) / MsPerDay)
  }

  /** Days until expiry, given the current time and the parsed expiry time
      (`None` when the date string does not parse), both in milliseconds. */
  function DaysUntilExpiry(nowMs: int, expiryMs: Option<int>): (r: DayCount)
    ensures r.NotANumber? <==> expiryMs.None?
    ensures expiryMs.Some? ==>
              r.Days? && (r.n - 1) * MsPerDay < expiryMs.value - nowMs <= r.n * MsPerDay
  {
    match expiryMs
    case None => NotANumber
    case Some(expiry) => Days(CeilDays(expiry - nowMs))
  }

  /** The ceiling is the only integer k with (k - 1) days < diff <= k days. */
  lemma CeilDaysUnique(diffMs: int, k: int)
    requires (k - 1) * MsPerDay < diffMs <= k * MsPerDay
    ensures CeilDays(diffMs) == k
  {
  }

  /** Expiry at exactly the current instant: zero days left. */
  lemma SameInstantIsZero(nowMs: int)
    ensures DaysUntilExpiry(nowMs, Some(nowMs)) == Days(0)
  {
    CeilDaysUnique(0, 0);
  }

  /** A difference of exactly k days (k of any sign) gives k. */
  lemma WholeDays(nowMs: int, k: int)
    ensures DaysUntilExpiry(nowMs, Some(nowMs + k * MsPerDay)) == Days(k)
  {
    CeilDaysUnique(k * MsPerDay, k);
  }

  /** Any positive difference of at most one day counts as one day left. */
  lemma WithinOneDay(nowMs: int, expiryMs: int)
    requires nowMs < expiryMs <= nowMs + MsPerDay
    ensures DaysUntilExpiry(nowMs, Some(expiryMs)) == Days(1)
  {
    CeilDaysUnique(expiryMs - nowMs, 1);
  }

  /** An expiry in the past never counts as days left. */
  lemma PastIsNotPositive(nowMs: int, expiryMs: int)
    requires expiryMs < nowMs
    ensures DaysUntilExpiry(nowMs, Some(expiryMs)).n <= 0
  {
  }

  /** A later expiry, an earlier now, or both, never gives fewer days left. */
  lemma Monotonic(now1: int, e1: int, now2: int, e2: int)
    requires e1 - now1 <= e2 - now2
    ensures DaysUntilExpiry(now1, Some(e1)).n <= DaysUntilExpiry(now2, Some(e2)).n
  {
  }
}
