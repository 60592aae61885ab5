/** The request spacer of src/lib/itunesApi.ts: one module-level timestamp of the last request,
    and a wait that keeps consecutive requests `RATE_LIMIT_DELAY` milliseconds apart. The clock
    reading before the wait is `now`; the timer may fire late, by `lateness` milliseconds. */
module RateLimit {

  const RATE_LIMIT_DELAY: int := 3000

  /** How long a request made at `now` has to wait after one recorded at `last`. */
  function Wait(last: int, now: int): (w: nat)
    ensures now + w >= last + RATE_LIMIT_DELAY
    ensures w == 0 || now + w == last + RATE_LIMIT_DELAY
    ensures w > 0 <==> now - last < RATE_LIMIT_DELAY
    ensures now >= last ==> w <= RATE_LIMIT_DELAY
  {
    var since := now - last;
    if since < RATE_LIMIT_DELAY then RATE_LIMIT_DELAY - since else 0
  }

  class RateLimiter {
    var lastRequestTime: int

    constructor()
      ensures lastRequestTime == 0
    {
      lastRequestTime := 0;
    }

    /** `rateLimit()`: wait if the last request was under the delay ago, then record the
        clock as it reads after the wait. */
    method RateLimit(now: int, lateness: nat) returns (wait: nat)
      modifies this
      ensures wait == Wait(old(lastRequestTime), now)
      ensures lastRequestTime == now + wait + lateness
      ensures lastRequestTime >= old(lastRequestTime) + RATE_LIMIT_DELAY
    {
      var since := now - lastRequestTime;
      wait := 0;
      if since < RATE_LIMIT_DELAY {
        wait := RATE_LIMIT_DELAY - since;
      }
      lastRequestTime := now + wait + lateness;
    }
  }

  /** Two requests passed through the limiter one after the other are recorded at least
      `RATE_LIMIT_DELAY` apart, whatever the clock reads when they ask. */
  method TwoRequestsAreSpaced(now1: int, late1: nat, now2: int, late2: nat) returns (first: int, second: int)
    ensures second >= first + RATE_LIMIT_DELAY
    ensures first >= RATE_LIMIT_DELAY
  {
    var limiter := new RateLimiter();
    var _ := limiter.RateLimit(now1, late1);
    first := limiter.lastRequestTime;
    var _ := limiter.RateLimit(now2, late2);
    second := limiter.lastRequestTime;
  }
}
