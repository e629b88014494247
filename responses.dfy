/** The verdict on one request: whether a limit was reached, and if so which period and which limit. */
module Responses {
  import opened Wrappers
  import opened Periods
  import opened ClientConfigs

  class RateLimitResponse {
    var rateLimitReached: bool
    var rateLimitPeriod: Option<RateLimitPeriod>
    var rateLimitViolationCause: Option<RateLimitViolationCause>

    /** The private constructor: every field at its Java default (false, null, null). */
    constructor ()
      ensures !rateLimitReached && rateLimitPeriod.None? && rateLimitViolationCause.None?
    {
      rateLimitReached, rateLimitPeriod, rateLimitViolationCause := false, None, None;
    }

    /** `withRateLimitReached`: a new verdict naming the period and the cause of the violation. */
    static method WithRateLimitReached(period: Option<RateLimitPeriod>, cause: Option<RateLimitViolationCause>)
      returns (response: RateLimitResponse)
      ensures fresh(response)
      ensures response.rateLimitReached
      ensures response.rateLimitPeriod == period && response.rateLimitViolationCause == cause
    {
      response := new RateLimitResponse();
      response.SetRateLimitReached(true);
      response.SetRateLimitPeriod(period);
      response.SetRateLimitViolationCause(cause);
    }

    /** `withRateLimitNotReached`: a new verdict letting the request through, period and cause unset. */
    static method WithRateLimitNotReached() returns (response: RateLimitResponse)
      ensures fresh(response)
      ensures !response.rateLimitReached
      ensures response.rateLimitPeriod.None? && response.rateLimitViolationCause.None?
    {
      response := new RateLimitResponse();
      response.SetRateLimitReached(false);
    }

    method SetRateLimitReached(rateLimitReached: bool)
      modifies this`rateLimitReached
      ensures this.rateLimitReached == rateLimitReached
    {
      this.rateLimitReached := rateLimitReached;
    }

    method SetRateLimitPeriod(rateLimitPeriod: Option<RateLimitPeriod>)
      modifies this`rateLimitPeriod
      ensures this.rateLimitPeriod == rateLimitPeriod
    {
      this.rateLimitPeriod := rateLimitPeriod;
    }

    method SetRateLimitViolationCause(rateLimitViolationCause: Option<RateLimitViolationCause>)
      modifies this`rateLimitViolationCause
      ensures this.rateLimitViolationCause == rateLimitViolationCause
    {
      this.rateLimitViolationCause := rateLimitViolationCause;
    }
  }
}
