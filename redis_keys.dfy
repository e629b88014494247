/**
 * RedisKeyDetails: the description of one rate-limit counter — client, optional endpoint,
 * optional HTTP method and period — and the counter's Redis key, built by
 * `generateRedisKey` from those fields and a request time.
 *
 * The key joins its segments with '_' and carries no tag saying which dimension a segment
 * stands for and no escaping, so different descriptions can share a key (see KeyCollisions).
 */
module RedisKeys {
  import opened Wrappers
  import opened JavaLang
  import opened Periods

  /** The exception `generateRedisKey` throws: `new StringBuilder(null)` on a null client id. */
  datatype KeyError = NullClientId

  /** The text `StringBuilder.append(Object)` appends for the period: its name, or "null". */
  function PeriodText(period: Option<RateLimitPeriod>): string {
    match period
    case Some(p) => Name(p)
    case None => "null"
  }

  /** The '_'-prefixed segment of an optional field: empty when the field is null. */
  function Segment(field: Option<string>): string {
    match field
    case Some(s) => "_" + s
    case None => ""
  }

  /** The client id followed by the endpoint and HTTP method segments that are present. */
  function Scope(clientId: string, endpoint: Option<string>, httpMethod: Option<string>): string {
    clientId + Segment(endpoint) + Segment(httpMethod)
  }

  /** The key `generateRedisKey` builds from the four fields and the request time. */
  function Key(clientId: string, endpoint: Option<string>, httpMethod: Option<string>,
               period: Option<RateLimitPeriod>, requestTime: int): string
  {
    Scope(clientId, endpoint, httpMethod) + "_" + PeriodText(period) + "_" + LongToString(requestTime)
  }

  /** Taking a prefix no longer than `a` from `a + b` takes it from `a`. */
  lemma PrefixOfAppend(a: string, b: string, n: int)
    requires 0 <= n <= |a|
    ensures (a + b)[..n] == a[..n]
  {
  }

  /** A common prefix cancels. */
  lemma PrefixCancel(head: string, a: string, b: string)
    requires head + a == head + b
    ensures a == b
  {
    assert a == (head + a)[|head|..];
    assert b == (head + b)[|head|..];
  }

  /** The key as the scope and '_' followed by the period text and the time segment. */
  lemma KeyAroundPeriod(clientId: string, endpoint: Option<string>, httpMethod: Option<string>,
                        period: Option<RateLimitPeriod>, requestTime: int)
    ensures Key(clientId, endpoint, httpMethod, period, requestTime)
      == Scope(clientId, endpoint, httpMethod) + "_" + (PeriodText(period) + ("_" + LongToString(requestTime)))
  {
    var scope, pt, digits := Scope(clientId, endpoint, httpMethod), PeriodText(period), LongToString(requestTime);
    assert scope + "_" + pt + "_" + digits == scope + "_" + (pt + ("_" + digits));
  }

  /** The key as everything up to the last '_', then the digits of the request time. */
  lemma KeyAroundTime(clientId: string, endpoint: Option<string>, httpMethod: Option<string>,
                      period: Option<RateLimitPeriod>, requestTime: int)
    ensures var head := Scope(clientId, endpoint, httpMethod) + "_" + PeriodText(period);
      var key := Key(clientId, endpoint, httpMethod, period, requestTime);
      key == (head + "_") + LongToString(requestTime) && key == head + ("_" + LongToString(requestTime))
  {
    var scope, pt, digits := Scope(clientId, endpoint, httpMethod), PeriodText(period), LongToString(requestTime);
    assert scope + "_" + pt + "_" + digits == (scope + "_" + pt) + ("_" + digits);
  }

  /** The key starts with the client id. */
  lemma KeyStartsWithClientId(clientId: string, endpoint: Option<string>, httpMethod: Option<string>,
                              period: Option<RateLimitPeriod>, requestTime: int)
    ensures var key := Key(clientId, endpoint, httpMethod, period, requestTime);
      |clientId| <= |key| && key[..|clientId|] == clientId
  {
    var n := |clientId|;
    var e, m, pt, d := Segment(endpoint), Segment(httpMethod), PeriodText(period), LongToString(requestTime);
    PrefixOfAppend(clientId + e + m + "_" + pt + "_", d, n);
    PrefixOfAppend(clientId + e + m + "_" + pt, "_", n);
    PrefixOfAppend(clientId + e + m + "_", pt, n);
    PrefixOfAppend(clientId + e + m, "_", n);
    PrefixOfAppend(clientId + e, m, n);
    PrefixOfAppend(clientId, e, n);
  }

  /** The key ends with '_' and the decimal request time, which holds no '_'. */
  lemma KeyEndsWithRequestTime(clientId: string, endpoint: Option<string>, httpMethod: Option<string>,
                               period: Option<RateLimitPeriod>, requestTime: int)
    ensures var key := Key(clientId, endpoint, httpMethod, period, requestTime);
      var digits := LongToString(requestTime);
      |digits| < |key| && key[|key| - |digits| - 1..] == "_" + digits && '_' !in digits
  {
    KeyAroundTime(clientId, endpoint, httpMethod, period, requestTime);
  }

  /** Two keys that agree on everything but the request time differ: the time is recoverable. */
  lemma KeyDeterminesRequestTime(clientId: string, endpoint: Option<string>, httpMethod: Option<string>,
                                 period: Option<RateLimitPeriod>, t1: int, t2: int)
    requires Key(clientId, endpoint, httpMethod, period, t1) == Key(clientId, endpoint, httpMethod, period, t2)
    ensures t1 == t2
  {
    KeyAroundTime(clientId, endpoint, httpMethod, period, t1);
    KeyAroundTime(clientId, endpoint, httpMethod, period, t2);
    var head := Scope(clientId, endpoint, httpMethod) + "_" + PeriodText(period) + "_";
    PrefixCancel(head, LongToString(t1), LongToString(t2));
    LongToStringInjective(t1, t2);
  }

  /** Period names differ within their first two characters, and "null" from all of them. */
  lemma PeriodTextsDiffer(p: Option<RateLimitPeriod>, q: Option<RateLimitPeriod>, tail: string)
    requires p != q
    ensures PeriodText(p) + tail != PeriodText(q) + tail
  {
    var a, b := PeriodText(p) + tail, PeriodText(q) + tail;
    assert a[0] != b[0] || a[1] != b[1];
  }

  /** Keys that agree on everything but the period differ. */
  lemma KeyDistinguishesPeriod(clientId: string, endpoint: Option<string>, httpMethod: Option<string>,
                               p: Option<RateLimitPeriod>, q: Option<RateLimitPeriod>, requestTime: int)
    requires p != q
    ensures Key(clientId, endpoint, httpMethod, p, requestTime) != Key(clientId, endpoint, httpMethod, q, requestTime)
  {
    KeyAroundPeriod(clientId, endpoint, httpMethod, p, requestTime);
    KeyAroundPeriod(clientId, endpoint, httpMethod, q, requestTime);
    var head := Scope(clientId, endpoint, httpMethod) + "_";
    var tail := "_" + LongToString(requestTime);
    PeriodTextsDiffer(p, q, tail);
    if Key(clientId, endpoint, httpMethod, p, requestTime) == Key(clientId, endpoint, httpMethod, q, requestTime) {
      PrefixCancel(head, PeriodText(p) + tail, PeriodText(q) + tail);
    }
  }

  /**
   * No dimension tag: an endpoint-only key and a method-only key with the same text collide,
   * and so do a client id containing '_' and a shorter client id with an endpoint.
   */
  lemma KeyCollisions(clientId: string, x: string, period: Option<RateLimitPeriod>, requestTime: int)
    ensures Key(clientId, Some(x), None, period, requestTime) == Key(clientId, None, Some(x), period, requestTime)
    ensures Key(clientId + "_" + x, None, None, period, requestTime) == Key(clientId, Some(x), None, period, requestTime)
  {
  }

  /** A concrete collision: endpoint "GET" for client "acme" and method GET for client "acme". */
  lemma KeyCollisionExample()
    ensures Key("acme", Some("GET"), None, Some(SECOND), 1000) == "acme_GET_SECOND_1000"
    ensures Key("acme", None, Some("GET"), Some(SECOND), 1000) == "acme_GET_SECOND_1000"
  {
    assert LongToString(1000) == "1000" by {
      assert Digits(1) == "1";
      assert Digits(10) == "10";
      assert Digits(100) == "100";
    }
    assert PeriodText(Some(SECOND)) == "SECOND";
    assert Scope("acme", Some("GET"), None) == "acme_GET" == Scope("acme", None, Some("GET"));
  }

  /** The hash of a nullable field: the string's hash, or 0 for null. */
  function FieldHash<T>(field: Option<T>, hash: T -> int): int {
    match field
    case Some(v) => hash(v)
    case None => 0
  }

  /** The hash of four fields as one polynomial in 31, before any 32-bit wrap-around. */
  function PolynomialHash(e: int, m: int, c: int, p: int): int {
    29791 * e + 961 * m + 31 * c + p
  }

  /** `hashCode`'s fold `result = 31 * result + field`, each step cast to `int`. */
  function Fold31(e: int, m: int, c: int, p: int): int32 {
    ToInt32(31 * ToInt32(31 * ToInt32(31 * ToInt32(e) + m) + c) + p)
  }

  /** The folded hash agrees with the polynomial hash modulo 2^32. */
  lemma Fold31Congruent(e: int, m: int, c: int, p: int)
    ensures Congruent32(Fold31(e, m, c, p), PolynomialHash(e, m, c, p))
  {
    var r1 := ToInt32(e);
    var r2 := ToInt32(31 * r1 + m);
    var r3 := ToInt32(31 * r2 + c);
    var e2, e3 := 31 * e + m, 31 * (31 * e + m) + c;
    Congruent32Step(r1, e, m);
    Congruent32Trans(r2, 31 * r1 + m, e2);
    Congruent32Step(r2, e2, c);
    Congruent32Trans(r3, 31 * r2 + c, e3);
    Congruent32Step(r3, e3, p);
    Congruent32Trans(Fold31(e, m, c, p), 31 * r3 + p, 31 * e3 + p);
  }

  class RedisKeyDetails {
    var key: Option<string>
    const ttl: int64
    var endpoint: Option<string>
    var httpMethod: Option<string>
    var clientId: Option<string>
    var period: Option<RateLimitPeriod>

    /** The private constructor: fixes the ttl; every other field starts out null. */
    constructor (ttl: int64)
      ensures this.ttl == ttl
      ensures key.None? && endpoint.None? && httpMethod.None? && clientId.None? && period.None?
    {
      this.ttl := ttl;
      key, endpoint, httpMethod, clientId, period := None, None, None, None, None;
    }

    method SetEndpoint(endpoint: Option<string>)
      modifies this`endpoint
      ensures this.endpoint == endpoint
    {
      this.endpoint := endpoint;
    }

    method SetHttpMethod(httpMethod: Option<string>)
      modifies this`httpMethod
      ensures this.httpMethod == httpMethod
    {
      this.httpMethod := httpMethod;
    }

    method SetClientId(clientId: Option<string>)
      modifies this`clientId
      ensures this.clientId == clientId
    {
      this.clientId := clientId;
    }

    method SetPeriod(period: Option<RateLimitPeriod>)
      modifies this`period
      ensures this.period == period
    {
      this.period := period;
    }

    /**
     * Builds the key segment by segment and stores it in `key`; with a null client id the
     * builder's constructor throws before anything is stored. Only `key` changes.
     */
    method GenerateRedisKey(requestTime: int64) returns (outcome: Outcome<KeyError>)
      modifies this`key
      ensures clientId.None? ==> outcome == Fail(NullClientId) && key == old(key)
      ensures clientId.Some? ==>
                outcome == Pass && key == Some(Key(clientId.value, endpoint, httpMethod, period, requestTime))
    {
      if clientId.None? {
        return Fail(NullClientId);
      }
      var builder := clientId.value;
      if endpoint.Some? {
        builder := builder + "_" + endpoint.value;
      }
      assert builder == clientId.value + Segment(endpoint);
      if httpMethod.Some? {
        builder := builder + "_" + httpMethod.value;
      }
      assert builder == Scope(clientId.value, endpoint, httpMethod);
      builder := builder + "_" + PeriodText(period);
      builder := builder + "_" + LongToString(requestTime);
      key := Some(builder);
      return Pass;
    }

    /**
     * `equals`: the same object, or another one that agrees on endpoint, HTTP method,
     * client id and period (each compared null-safely); `key` and `ttl` play no part.
     */
    predicate Equals(that: RedisKeyDetails?)
      reads this, that
      ensures Equals(that) <==> that != null && endpoint == that.endpoint && httpMethod == that.httpMethod
                                && clientId == that.clientId && period == that.period
    {
      if this == that then true
      else if that == null then false
      else if (if endpoint.Some? then that.endpoint != endpoint else that.endpoint.Some?) then false
      else if (if httpMethod.Some? then that.httpMethod != httpMethod else that.httpMethod.Some?) then false
      else if (if clientId.Some? then that.clientId != clientId else that.clientId.Some?) then false
      else period == that.period
    }

    /**
     * `hashCode`: 31-fold over endpoint, HTTP method, client id and period in `int` arithmetic,
     * given the hash of a string and of a period.
     */
    function HashCode(stringHash: string -> int, periodHash: RateLimitPeriod -> int): (h: int32)
      reads this
      ensures Congruent32(h, PolynomialHash(FieldHash(endpoint, stringHash), FieldHash(httpMethod, stringHash),
                                            FieldHash(clientId, stringHash), FieldHash(period, periodHash)))
      ensures endpoint.None? && httpMethod.None? && clientId.None? && period.None? ==> h == 0
    {
      var e, m, c, p := FieldHash(endpoint, stringHash), FieldHash(httpMethod, stringHash),
                        FieldHash(clientId, stringHash), FieldHash(period, periodHash);
      Fold31Congruent(e, m, c, p);
      Fold31(e, m, c, p)
    }
  }

  /** `equals` is reflexive, symmetric and transitive. */
  lemma EqualsIsEquivalence(a: RedisKeyDetails, b: RedisKeyDetails, c: RedisKeyDetails)
    ensures a.Equals(a)
    ensures a.Equals(b) ==> b.Equals(a)
    ensures a.Equals(b) && b.Equals(c) ==> a.Equals(c)
  {
  }

  /** Objects that are `equals` have the same `hashCode`, whatever the string and period hashes. */
  lemma EqualsImpliesSameHash(a: RedisKeyDetails, b: RedisKeyDetails,
                              stringHash: string -> int, periodHash: RateLimitPeriod -> int)
    requires a.Equals(b)
    ensures a.HashCode(stringHash, periodHash) == b.HashCode(stringHash, periodHash)
  {
  }

  /** Equal details and an equal request time give equal keys, whatever `key` and `ttl` hold. */
  lemma EqualsImpliesSameKey(a: RedisKeyDetails, b: RedisKeyDetails, requestTime: int)
    requires a.Equals(b) && a.clientId.Some?
    ensures Key(a.clientId.value, a.endpoint, a.httpMethod, a.period, requestTime)
         == Key(b.clientId.value, b.endpoint, b.httpMethod, b.period, requestTime)
  {
  }
}
