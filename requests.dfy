/** The details of one incoming request that the throttler looks at. */
module Requests {
  import opened Wrappers
  import opened JavaLang
  import opened ClientConfigs

  class RequestDetails {
    var requestTime: int64
    var httpMethod: Option<HttpMethod>
    var endpoint: Option<string>
    var clientId: Option<string>

    /** Stores the four details exactly as given. */
    constructor (requestTime: int64, httpMethod: Option<HttpMethod>, endpoint: Option<string>, clientId: Option<string>)
      ensures this.requestTime == requestTime && this.httpMethod == httpMethod
      ensures this.endpoint == endpoint && this.clientId == clientId
    {
      this.requestTime := requestTime;
      this.httpMethod := httpMethod;
      this.endpoint := endpoint;
      this.clientId := clientId;
    }

    method SetRequestTime(requestTime: int64)
      modifies this`requestTime
      ensures this.requestTime == requestTime
    {
      this.requestTime := requestTime;
    }

    method SetHttpMethod(httpMethod: Option<HttpMethod>)
      modifies this`httpMethod
      ensures this.httpMethod == httpMethod
    {
      this.httpMethod := httpMethod;
    }

    method SetEndpoint(endpoint: Option<string>)
      modifies this`endpoint
      ensures this.endpoint == endpoint
    {
      this.endpoint := endpoint;
    }

    method SetClientId(clientId: Option<string>)
      modifies this`clientId
      ensures this.clientId == clientId
    {
      this.clientId := clientId;
    }

    // The fluent forms: the same updates, returning this object for chaining.

    method RequestTime(requestTime: int64) returns (self: RequestDetails)
      modifies this`requestTime
      ensures self == this && this.requestTime == requestTime
    {
      this.requestTime := requestTime;
      self := this;
    }

    method HttpMethod(httpMethod: Option<HttpMethod>) returns (self: RequestDetails)
      modifies this`httpMethod
      ensures self == this && this.httpMethod == httpMethod
    {
      this.httpMethod := httpMethod;
      self := this;
    }

    method Endpoint(endpoint: Option<string>) returns (self: RequestDetails)
      modifies this`endpoint
      ensures self == this && this.endpoint == endpoint
    {
      this.endpoint := endpoint;
      self := this;
    }

    method ClientId(clientId: Option<string>) returns (self: RequestDetails)
      modifies this`clientId
      ensures self == this && this.clientId == clientId
    {
      this.clientId := clientId;
      self := this;
    }
  }

  /**
   * A chain of fluent calls on one object sets each field it names and leaves the rest as the
   * constructor stored them.
   */
  method BuildByChaining(time: int64, later: int64, endpoint: string) returns (details: RequestDetails)
    ensures fresh(details)
    ensures details.requestTime == later && details.endpoint == Some(endpoint)
    ensures details.httpMethod.None? && details.clientId.None?
  {
    details := new RequestDetails(time, None, None, None);
    var chained := details.RequestTime(later);
    chained := chained.Endpoint(Some(endpoint));
  }
}
