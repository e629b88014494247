# client-throttle rate limiter, modelled in Dafny

The rate limiter counts a client's requests in fixed time windows. These windows are one second, minute or hour long, or a week or a calendar month. The counts live in Redis under keys derived from the request. The model covers:

- **`RateLimitPeriod`** (`periods.dfy`, with `calendar.dfy`): the five periods, and `wrap`, which floors a millisecond time to the start of its window.
  - The Java body of `wrap` is unfinished. The model follows the contract in its doc comment.
  - SECOND, MINUTE and HOUR use fixed lengths. WEEK windows start at Monday 00:00 UTC. MONTH windows start at 00:00 UTC on day 1 of the Gregorian month.
  - Every period is an instance of one structure: strictly increasing window bounds `Bound(p, k)`. `Wrap(p, t)` is the greatest bound at or below `t`.
- **`RedisKeyDetails`** (`redis_keys.dfy`):
  - the counter key `generateRedisKey` builds from the `_`-joined segments;
  - `equals` and `hashCode` over four of the fields (the string and enum hashes are parameters);
  - the setters, and the final `ttl`.
- **`RedisService`** (`redis_service.dfy`):
  - `getSeconds`, with Java's truncating division and its `(int)` cast;
  - the bounded retry loop of `get`, over a sequence of attempt outcomes;
  - `pipeline`, which queues INCR and EXPIRE per key on a `Pipeline` object. Its replies follow a reference model of the counter store.
- **`ClientConfigProvider`** (`config_provider.dfy`): the cache-aside lookup `getClientConfig` and `tryLockNoException`.
  - The Java class is static. The model makes it one object holding the cache as a `map` field and the 50 lock stripes as an `array<bool>` of held flags.
  - A lock attempt's outcome (granted, timed out, interrupted) is a parameter.
  - The second look at the cache after the lock attempt can see an entry another caller put while this one waited. That entry is the `winner` parameter.
  - The load path calls the model of `RedisService.get`.
- **`RateLimitResponse`** (`responses.dfy`) and **`RequestDetails`** (`requests.dfy`): the static factories, the constructor, the setters and the fluent setters.
- **Supporting types** (`client_config.dfy`):
  - `RateLimitViolationCause`;
  - `ClientConfig` and its nested `RateLimits`: client-wide limits, a method→limits map, an endpoint→limits map and a period→count map.
- **Java and Redis helpers:**
  - `java_lang.dfy` holds 32- and 64-bit integers, truncating division, `Long.toString` with its parse back, and `StringUtils.isBlank`;
  - `wrappers.dfy` holds `Option` (a nullable reference), `Result` (a value or a thrown exception) and `Outcome`.

Behaviour of the code that a reader of the rest of the system might not expect, and that the model keeps:

- **Periods.** The enum declares five periods and has no DAY.
- **Untagged keys.** `generateRedisKey` joins bare segments, with no dimension tag and no escaping. So an endpoint `X` and an HTTP method `X` give the same key, and so do client `c_x` and client `c` with endpoint `x`. `RedisKeys.KeyCollisions` proves both.
- **Request time in the key.** The key holds the `requestTime` as passed, not the start of its window.
- **Expiry of one second or less.** `getSeconds` raises only a zero quotient to 1. A ttl of −1000 ms or less gives a negative count of seconds, and a ttl of 2^32 seconds wraps to 0 in the `(int)` cast.

## Model

| member | source | states |
|---|---|---|
| Periods.PeriodValues | rate-limiter/src/com/ishan/base/RateLimitPeriod.java:9 | there are exactly five periods (SECOND, MINUTE, HOUR, WEEK, MONTH, in that order, no DAY); they are distinct and their names tell them apart |
| Periods.Name | rate-limiter/src/com/ishan/base/RedisKeyDetails.java:75 | the text a period appends to the key is 4 to 6 capital letters, so it holds no `_` and differs from the `null` of a missing period |
| Periods.Wrap | rate-limiter/src/com/ishan/base/RateLimitPeriod.java:11-17 | `wrap` floors: the result is a window bound of the period, at or below t, and no bound at or below t lies above it |
| Periods.WindowIndex | rate-limiter/src/com/ishan/base/RateLimitPeriod.java:11-17 | every time lies in a window: bound k at or below t and bound k+1 above it |
| Periods.WindowIndexUnique | rate-limiter/src/com/ishan/base/RateLimitPeriod.java:11-17 | that window is unique: any k with Bound(k) ≤ t < Bound(k+1) is the window index |
| Periods.BoundIncreasing | rate-limiter/src/com/ishan/base/RateLimitPeriod.java:11-17 | window bounds strictly increase with the window index, for every period (months of 28 to 31 days included) |
| Periods.WrapSecondExample | rate-limiter/src/com/ishan/base/RateLimitPeriod.java:12 | the documented example: 1.2 s wraps to 1 s (1200 ms to 1000 ms) |
| Periods.WrapFixedLength | rate-limiter/src/com/ishan/base/RateLimitPeriod.java:11-17 | for SECOND, MINUTE and HOUR, wrap is t − t mod 1000, 60000 or 3600000 ms |
| Periods.WrapIdempotent | rate-limiter/src/com/ishan/base/RateLimitPeriod.java:11-16 | wrapping a wrapped time changes nothing |
| Periods.WrapMonotone | rate-limiter/src/com/ishan/base/RateLimitPeriod.java:11-16 | t1 ≤ t2 implies wrap(t1) ≤ wrap(t2) |
| Periods.WrapIsWindowStart | rate-limiter/src/com/ishan/base/RateLimitPeriod.java:11-17 | wrap(t) is the start of the window that holds t |
| Periods.WrapSameWindow | rate-limiter/src/com/ishan/base/RateLimitPeriod.java:11-17 | two times wrap to the same value if and only if they lie in the same window |
| Periods.WrapWeekIsMonday | rate-limiter/src/com/ishan/base/RateLimitPeriod.java:11-17 | a WEEK wrap is midnight UTC of a Monday, less than seven days before t |
| Periods.WrapMonthIsFirstOfMonth | rate-limiter/src/com/ishan/base/RateLimitPeriod.java:11-17 | a MONTH wrap is midnight UTC on day 1 of a Gregorian month, and t falls no later than that month's last day |
| Periods.WrapLeapDayExample | rate-limiter/src/com/ishan/base/RateLimitPeriod.java:11-17 | 2024-02-29 10:00 UTC wraps to 2024-02-01 for MONTH and to Monday 2024-02-26 for WEEK |
| Calendar.MonthStartIsFirstOfMonth | rate-limiter/src/com/ishan/base/RateLimitPeriod.java:11-17 | the k-th month bound, counted by adding month lengths from 1970-01, is the day number of day 1 of that month |
| Calendar.MonthIndex | rate-limiter/src/com/ishan/base/RateLimitPeriod.java:11-17 | every day lies in exactly the month found: month start at or before it and the next month start after it |
| JavaLang.LongToString | rate-limiter/src/com/ishan/base/RedisKeyDetails.java:76 | `append(long)` writes a non-empty text with no '_', starting with a digit exactly when the number is not negative |
| JavaLang.LongToStringRoundTrip | rate-limiter/src/com/ishan/base/RedisKeyDetails.java:76 | the decimal text of a long parses back to the same long |
| JavaLang.LongToStringInjective | rate-limiter/src/com/ishan/base/RedisKeyDetails.java:76 | different longs give different texts |
| RedisKeys.RedisKeyDetails.constructor | rate-limiter/src/com/ishan/base/RedisKeyDetails.java:23-25 | fixes the final ttl; every other field starts out null |
| RedisKeys.RedisKeyDetails.SetEndpoint | rate-limiter/src/com/ishan/base/RedisKeyDetails.java:31-33 | sets the endpoint and nothing else |
| RedisKeys.RedisKeyDetails.SetHttpMethod | rate-limiter/src/com/ishan/base/RedisKeyDetails.java:39-41 | sets the HTTP method and nothing else |
| RedisKeys.RedisKeyDetails.SetClientId | rate-limiter/src/com/ishan/base/RedisKeyDetails.java:47-49 | sets the client id and nothing else |
| RedisKeys.RedisKeyDetails.SetPeriod | rate-limiter/src/com/ishan/base/RedisKeyDetails.java:63-65 | sets the period and nothing else |
| RedisKeys.RedisKeyDetails.GenerateRedisKey | rate-limiter/src/com/ishan/base/RedisKeyDetails.java:67-78 | assigns only `key`: the client id, then `_endpoint` and `_method` when present, then `_period` and `_requestTime`; with a null client id it throws and the key is unchanged |
| RedisKeys.KeyStartsWithClientId | rate-limiter/src/com/ishan/base/RedisKeyDetails.java:68 | the key starts with the client id |
| RedisKeys.KeyEndsWithRequestTime | rate-limiter/src/com/ishan/base/RedisKeyDetails.java:76 | the key ends with '_' and the decimal request time, which has no '_' in it |
| RedisKeys.KeyDeterminesRequestTime | rate-limiter/src/com/ishan/base/RedisKeyDetails.java:67-78 | keys that agree on everything else are equal only for equal request times |
| RedisKeys.KeyDistinguishesPeriod | rate-limiter/src/com/ishan/base/RedisKeyDetails.java:75 | keys that agree on everything else differ for different periods (a null period included) |
| RedisKeys.KeyCollisions | rate-limiter/src/com/ishan/base/RedisKeyDetails.java:69-74 | an endpoint X without a method and a method X without an endpoint give the same key, and so do client `c_x` and client `c` with endpoint `x`: segments carry no tag and no escaping |
| RedisKeys.KeyCollisionExample | rate-limiter/src/com/ishan/base/RedisKeyDetails.java:67-78 | client "acme" with endpoint "GET", and client "acme" with method "GET", both give "acme_GET_SECOND_1000" |
| RedisKeys.RedisKeyDetails.Equals | rate-limiter/src/com/ishan/base/RedisKeyDetails.java:81-91 | `equals` holds exactly when the other object is not null and agrees on endpoint, HTTP method, client id and period; `key` and `ttl` play no part |
| RedisKeys.EqualsIsEquivalence | rate-limiter/src/com/ishan/base/RedisKeyDetails.java:81-91 | `equals` is reflexive, symmetric and transitive |
| RedisKeys.RedisKeyDetails.HashCode | rate-limiter/src/com/ishan/base/RedisKeyDetails.java:94-100 | `hashCode` is the polynomial 31³·endpoint + 31²·method + 31·clientId + period of the field hashes (0 for null) modulo 2^32, and 0 when all four fields are null |
| RedisKeys.Fold31Congruent | rate-limiter/src/com/ishan/base/RedisKeyDetails.java:95-99 | the step-by-step `31 * result + field` fold with an `int` overflow at every step agrees with the unwrapped polynomial modulo 2^32 |
| RedisKeys.EqualsImpliesSameHash | rate-limiter/src/com/ishan/base/RedisKeyDetails.java:94-100 | objects that are `equals` have the same `hashCode`, whatever hash the strings and periods have |
| RedisKeys.EqualsImpliesSameKey | rate-limiter/src/com/ishan/base/RedisKeyDetails.java:67-91 | objects that are `equals` build the same key for the same request time |
| JavaLang.JavaDiv | rate-limiter/src/com/ishan/redis/RedisService.java:80 | long division truncates toward zero, for negative dividends too |
| JavaLang.ToInt32 | rate-limiter/src/com/ishan/redis/RedisService.java:85 | the `(int)` cast keeps the value modulo 2^32 and is the identity on the int range |
| JavaLang.IsBlank | rate-limiter/src/com/ishan/redis/RedisService.java:60 | null and the empty string are blank; a string with any character that is not whitespace is not |
| JavaLang.IsBlankExamples | rate-limiter/src/com/ishan/redis/RedisService.java:60 | null, "" and " \t\n" are blank; the text `null` and " a " are not |
| RedisService.GetSeconds | rate-limiter/src/com/ishan/redis/RedisService.java:79-86 | a ttl in (−1000, 1000) ms gives 1 s; otherwise the result is the ttl divided by 1000 and truncated toward zero, for positive and for negative ttls within the int range |
| RedisService.GetSecondsExamples | rate-limiter/src/com/ishan/redis/RedisService.java:79-86 | 1999 ms gives 1 s and not 2; 2000 ms gives 2; 0 and −999 ms give 1; −1000 ms gives −1 |
| RedisService.GetSecondsAtLeastOne | rate-limiter/src/com/ishan/redis/RedisService.java:79-86 | a non-negative ttl within the int range of seconds gives at least 1 s |
| RedisService.GetSecondsWrapsPastIntRange | rate-limiter/src/com/ishan/redis/RedisService.java:85 | a ttl of 2^32 s wraps to 0 s in the `(int)` cast |
| RedisService.Get | rate-limiter/src/com/ishan/redis/RedisService.java:44-68 | a null key throws before any attempt; at most 3 attempts; every attempt but the last was lost to the connection; a third lost attempt is rethrown; otherwise the ending reply is settled (blank gives null, JSON gives what the mapper gives, null included, bad JSON throws, another exception propagates); the result is the reference `Fetch` |
| RedisService.CommandsAt | rate-limiter/src/com/ishan/redis/RedisService.java:72-75 | the command list has 2n entries: INCR of key i at 2i and EXPIRE of key i for getSeconds(ttl) at 2i+1 |
| RedisService.Replay | rate-limiter/src/com/ishan/redis/RedisService.java:76 | the store answers every command with exactly one reply |
| RedisService.Pipeline.Incr | rate-limiter/src/com/ishan/redis/RedisService.java:73 | queues one INCR after those already queued |
| RedisService.Pipeline.Expire | rate-limiter/src/com/ishan/redis/RedisService.java:74 | queues one EXPIRE after those already queued |
| RedisService.RunPipeline | rate-limiter/src/com/ishan/redis/RedisService.java:70-77 | for n keys in iteration order, sends 2n commands, INCR of each key then its EXPIRE, and returns one reply per command |
| RedisService.PipelineSendsCommands | rate-limiter/src/com/ishan/redis/RedisService.java:72-75 | what the loop sends is exactly the reference command list |
| RedisService.ReplayIncrThenExpire | rate-limiter/src/com/ishan/redis/RedisService.java:72-76 | every INCR reply is a count of at least 1, and every EXPIRE reply is 1, since the key was just incremented |
| ConfigProvider.StripeFor | rate-limiter/src/com/ishan/base/ClientConfigProvider.java:19-34 | the stripe is a deterministic function of the client id, one of the 50 |
| ConfigProvider.Loaded | rate-limiter/src/com/ishan/base/ClientConfigProvider.java:40-42 | a loaded config is returned; an exception from `get` propagates; a null config is refused by the cache's `put` |
| ConfigProvider.Lookup | rate-limiter/src/com/ishan/base/ClientConfigProvider.java:31-51 | reference lookup: a hit returns the cached config and changes nothing; on a miss, an entry found on the second look is returned and kept without loading; otherwise the result is the loaded config, which is cached only when it is a config, and a failure leaves the cache as it was; no entry is ever removed or replaced and no other client's entry is touched |
| ConfigProvider.LookupAgainHits | rate-limiter/src/com/ishan/base/ClientConfigProvider.java:31-51 | after a successful lookup, the next one for the same client is a hit on the same config that changes nothing |
| ConfigProvider.StoredNullIsRefused | rate-limiter/src/com/ishan/base/ClientConfigProvider.java:39-42 | a stored JSON `null` is not blank, so `get` returns null, and the load fails with the refused null and leaves the cache as it was |
| ConfigProvider.ClientConfigProvider.constructor | rate-limiter/src/com/ishan/base/ClientConfigProvider.java:19-20 | an empty cache and 50 free stripes |
| ConfigProvider.ClientConfigProvider.TryLockNoException | rate-limiter/src/com/ishan/base/ClientConfigProvider.java:53-59 | true exactly when the lock was granted, and then only that stripe becomes held; a timeout or an interrupt gives false |
| ConfigProvider.ClientConfigProvider.Unlock | rate-limiter/src/com/ishan/base/ClientConfigProvider.java:46 | frees that stripe only |
| ConfigProvider.ClientConfigProvider.GetClientConfig | rate-limiter/src/com/ishan/base/ClientConfigProvider.java:31-51 | result and new cache are the reference `Lookup` of the old cache; the store is read once exactly on a miss that the second look also misses, whether or not the lock was granted; the lock is tried only on a miss; every stripe is as it was afterwards (released if and only if acquired) |
| Responses.RateLimitResponse.constructor | rate-limiter/src/com/ishan/base/RateLimitResponse.java:26-28 | false, null, null |
| Responses.RateLimitResponse.WithRateLimitReached | rate-limiter/src/com/ishan/base/RateLimitResponse.java:30-36 | a fresh response with reached = true and exactly the given period and cause |
| Responses.RateLimitResponse.WithRateLimitNotReached | rate-limiter/src/com/ishan/base/RateLimitResponse.java:38-42 | a fresh response with reached = false, period and cause null |
| Responses.RateLimitResponse.SetRateLimitReached | rate-limiter/src/com/ishan/base/RateLimitResponse.java:48-50 | sets that field and nothing else |
| Responses.RateLimitResponse.SetRateLimitPeriod | rate-limiter/src/com/ishan/base/RateLimitResponse.java:56-58 | sets that field and nothing else |
| Responses.RateLimitResponse.SetRateLimitViolationCause | rate-limiter/src/com/ishan/base/RateLimitResponse.java:64-66 | sets that field and nothing else |
| Requests.RequestDetails.constructor | rate-limiter/src/com/ishan/base/RequestDetails.java:19-24 | stores request time, HTTP method, endpoint and client id exactly as given |
| Requests.RequestDetails.SetRequestTime | rate-limiter/src/com/ishan/base/RequestDetails.java:30-32 | sets the request time and nothing else |
| Requests.RequestDetails.SetHttpMethod | rate-limiter/src/com/ishan/base/RequestDetails.java:38-40 | sets the HTTP method and nothing else |
| Requests.RequestDetails.SetEndpoint | rate-limiter/src/com/ishan/base/RequestDetails.java:46-48 | sets the endpoint and nothing else |
| Requests.RequestDetails.SetClientId | rate-limiter/src/com/ishan/base/RequestDetails.java:54-56 | sets the client id and nothing else |
| Requests.RequestDetails.RequestTime | rate-limiter/src/com/ishan/base/RequestDetails.java:58-61 | sets the request time only and returns the same object |
| Requests.RequestDetails.HttpMethod | rate-limiter/src/com/ishan/base/RequestDetails.java:63-66 | sets the HTTP method only and returns the same object |
| Requests.RequestDetails.Endpoint | rate-limiter/src/com/ishan/base/RequestDetails.java:68-71 | sets the endpoint only and returns the same object |
| Requests.RequestDetails.ClientId | rate-limiter/src/com/ishan/base/RequestDetails.java:73-76 | sets the client id only and returns the same object |
| Requests.BuildByChaining | rate-limiter/src/com/ishan/base/RequestDetails.java:58-76 | a chain of fluent calls on a new object sets the fields it names and keeps what the constructor stored in the others |

## Left out

- Getters: every getter of `RedisKeyDetails`, `RateLimitResponse`, `RequestDetails` and `ClientConfig` returns its field, so the model reads the field directly.
- Jedis: the connection pool, its settings, connections and their timeouts are not modelled. An attempt's outcome is a parameter of `Get`, and the counter store's state is a parameter of `RunPipeline`.
- JSON: deserialisation is a `decode` parameter; it yields a value, null (for the text `null`) or a failure.
- The pipeline's connection: it is never returned to the pool, and that leak is not modelled.
- Pipeline replies: they are modelled as integers. Jedis returns them as objects.
- RedisService.Pipeline.SyncAndReturnAll: a stand-in for Jedis' `syncAndReturnAll`, not program logic; its replies are those of the reference store `Replay`, whose properties `Replay` and `ReplayIncrThenExpire` state.
- `pipeline` key set: the keys are iterated as a sequence, in whatever order the set yields.
- `RateLimitValidator.RedisKeyWithTTL`: `RedisService` names this nested class, but the `RateLimitValidator` source defines no such class. The model uses `KeyWithTtl`, a key with a ttl read through `getKey` and `getTtl`.
- Concurrency: real locking, thread contention, the 60-second wait and interrupts are not modelled. So is the guarantee of at most one loader per client under concurrency, which is not a sequential property. A lock attempt's outcome and the entry a concurrent caller may have put are parameters.
- Guava's `Striped.lock(50)`: Guava rounds up to 64 stripes and smears the hash. The model picks one of 50 stripes as an abstract hash modulo 50.
- ConfigProvider.ClientConfigProvider.TryLockNoException: models a non-reentrant lock taken on a free stripe. Between calls no stripe is held.
- Guava's `Cache`: its internals are not modelled. A null client id is rejected by `getIfPresent` with an exception, and the model takes a non-null client id. A null value from the store is rejected by `put`, which is modelled as the `NullConfig` error.
- Hashing: `String.hashCode` and `Enum.hashCode` are parameters of `HashCode`.
- Periods.Wrap: the Java body is unfinished. WEEK and MONTH follow the UTC Gregorian calendar with ISO weeks starting on Monday. Time zones are not modelled.
- Periods.Wrap: works on unbounded integers; the 64-bit range of `long` is not modelled there.
- RedisKeys.RedisKeyDetails.GenerateRedisKey: `requestTime` is taken as a 64-bit value and printed in full.
- RedisService.GetSeconds: its contract states the truncated quotient only within the int range of seconds. Past that range, only the wrap-around example `GetSecondsWrapsPastIntRange` is stated.
- `HttpMethod.java` is not part of this model: an HTTP method is represented by its name.
- `ClientConfig` `toString`, and null values inside the period→count map, are not modelled.
- `RateLimitFilter` and `RateLimitValidator`: they are empty stubs, not modelled.
- `ExceptionUtils`: Java exception wrapping only, not modelled.
- `src/com/ishan/base/ClientConfig.java`: an earlier draft that does not compile, not modelled.
