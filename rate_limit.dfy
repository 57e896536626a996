/** The per-user throttle of `isRateLimited`: one accepted message per 5000 ms window. */
module RateLimit {
  import opened Wrappers

  /** Minimum spacing, in milliseconds, between two accepted messages of one user. */
  const Window: int := 5000

  /**
   * The value `isRateLimited` returns, given the user's stored timestamp (`None` when the
   * user has none) and the current time. A stored timestamp of 0 is falsy in JavaScript
   * and so counts as no timestamp. Zero means "accept"; a positive value is the wait.
   */
  function Wait(last: Option<int>, now: int): (w: int)
    ensures w >= 0
    ensures w == 0 <==> last.None? || last.value == 0 || now - last.value >= Window
    ensures w > 0 ==> now + w == last.value + Window
    ensures w > 0 && now >= last.value ==> 1 <= w <= Window
  {
    if last.Some? && last.value != 0 && now - last.value < Window then
      Window - (now - last.value)
    else
      0
  }

  /** Waiting exactly the returned delay is enough: at that moment the same stamp no longer throttles. */
  lemma WaitElapses(last: Option<int>, now: int, later: int)
    requires Wait(last, now) > 0
    requires later >= now + Wait(last, now)
    ensures Wait(last, later) == 0
  {
  }
}
