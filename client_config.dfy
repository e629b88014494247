/**
 * The client configuration the throttler reads from the store: limits per period for the
 * client as a whole, per HTTP method and per endpoint, and the cause a verdict names.
 */
module ClientConfigs {
  import opened Wrappers
  import opened JavaLang
  import opened Periods

  /** Which of the client's limits a request broke. */
  datatype RateLimitViolationCause = CLIENT | ENDPOINT | METHOD

  /** An HTTP method, known by its name (GET, POST, ...). */
  datatype HttpMethod = HttpMethod(name: string)

  /**
   * The number of requests allowed per period. A period may have no limit, and the map
   * itself, like every Java field here, may be null.
   */
  datatype RateLimits = RateLimits(periodLimits: Option<map<RateLimitPeriod, int32>>)

  /** A client's configuration: its id and its three sets of limits. */
  datatype ClientConfig = ClientConfig(
    clientId: Option<string>,
    rateLimits: Option<RateLimits>,
    methodVsLimits: Option<map<HttpMethod, RateLimits>>,
    endpointVsLimits: Option<map<string, RateLimits>>)
}
