/**
 * The timeout budget of the bind handshake (`getSurplusTimeout`).
 * The wall clock `time()` and the handshake start `getStartBindTime()` are parameters.
 */
module Budget {

  /** What `getSurplusTimeout` returns: an integer timeout, or `false` once the budget is spent. */
  datatype Surplus = Remaining(timeout: int) | TimedOut

  /**
   * A non-positive timeout means "never expire" and is handed back unchanged;
   * otherwise the deadline is `start + timeout` and what is left of it is returned,
   * or `TimedOut` when nothing is left.
   */
  function SurplusTimeout(timeout: int, now: int, start: int): (r: Surplus)
    ensures timeout <= 0 ==> r == Remaining(timeout)
    ensures timeout > 0 ==> (r.TimedOut? <==> now >= start + timeout)
    ensures timeout > 0 && r.Remaining? ==> 0 < r.timeout && r.timeout == (start + timeout) - now
    ensures timeout > 0 && r.Remaining? && now >= start ==> r.timeout <= timeout
  {
    if timeout <= 0 then Remaining(timeout)
    else
      var left := timeout - now + start;
      if left <= 0 then TimedOut else Remaining(left)
  }

  /** Once the deadline has passed, a later reading of the clock never revives the budget. */
  lemma SurplusNeverRecovers(timeout: int, now: int, later: int, start: int)
    requires SurplusTimeout(timeout, now, start).TimedOut?
    requires now <= later
    ensures SurplusTimeout(timeout, later, start).TimedOut?
  {
  }
}
