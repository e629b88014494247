/**
 * The config lookup: a cache of client configs in front of the store, filled under a striped
 * lock with a second look at the cache once the lock attempt is over.
 */
module ConfigProvider {
  import opened Wrappers
  import opened ClientConfigs
  import RedisService

  /** The number of lock stripes requested. */
  const STRIPE_COUNT: nat := 50

  /** How long `tryLockNoException` waits for a stripe, in seconds. */
  const LOCK_WAIT_SECONDS: nat := 60

  /** How one attempt to take a stripe's lock ends. */
  datatype LockAttempt =
    | Granted        // the lock was taken within the wait
    | TimedOut       // the wait ran out
    | Interrupted    // the thread was interrupted while waiting

  /** The exceptions `getClientConfig` lets escape. */
  datatype ConfigError =
    | LoadFailed(cause: RedisService.GetError)   // `get` threw
    | NullConfig                                 // the store holds no config, and the cache refuses a null value

  /** The stripe guarding `clientId`: its hash reduced to one of the stripes. */
  function StripeFor(clientId: string, hash: string -> int): (i: nat)
    ensures i < STRIPE_COUNT
  {
    hash(clientId) % STRIPE_COUNT
  }

  /** What the load path makes of what `get` returned: the config to cache and return, or the exception. */
  function Loaded(fetched: Result<Option<ClientConfig>, RedisService.GetError>): (r: Result<ClientConfig, ConfigError>)
    ensures r.Ok? <==> fetched.Ok? && fetched.value.Some?
    ensures r.Ok? ==> fetched == Ok(Some(r.value))
    ensures fetched.Err? ==> r == Err(LoadFailed(fetched.error))
  {
    match fetched
    case Err(e) => Err(LoadFailed(e))
    case Ok(None) => Err(NullConfig)
    case Ok(Some(c)) => Ok(c)
  }

  /**
   * The reference behaviour of `getClientConfig` on a cache: the cached entry; else the entry
   * another caller put while this one waited for the stripe (`winner`); else the loaded config,
   * which is put. Yields the result and the cache afterwards. A lookup never removes an entry,
   * never replaces one, touches no other client's entry, and what it returns is what is cached.
   */
  function Lookup(cache: map<string, ClientConfig>, clientId: string, winner: Option<ClientConfig>,
                  fetched: Result<Option<ClientConfig>, RedisService.GetError>)
    : (out: (Result<ClientConfig, ConfigError>, map<string, ClientConfig>))
    ensures forall k :: k in cache ==> k in out.1 && out.1[k] == cache[k]
    ensures forall k :: k != clientId ==> (k in out.1 <==> k in cache)
    ensures out.0.Ok? ==> clientId in out.1 && out.1[clientId] == out.0.value
    ensures out.0.Err? ==> out.1 == cache && clientId !in cache && winner.None? && out.0 == Loaded(fetched)
    ensures clientId in cache ==> out == (Ok(cache[clientId]), cache)
    ensures clientId !in cache && winner.Some? ==> out == (Ok(winner.value), cache[clientId := winner.value])
    ensures clientId !in cache && winner.None? ==>
              out.0 == Loaded(fetched) && out.1 == (if out.0.Ok? then cache[clientId := out.0.value] else cache)
  {
    if clientId in cache then (Ok(cache[clientId]), cache)
    else if winner.Some? then (Ok(winner.value), cache[clientId := winner.value])
    else match Loaded(fetched)
      case Ok(c) => (Ok(c), cache[clientId := c])
      case Err(e) => (Err(e), cache)
  }

  /** Once a lookup has succeeded, the next one for the same client is a hit on the same config. */
  lemma LookupAgainHits(cache: map<string, ClientConfig>, clientId: string, winner: Option<ClientConfig>,
                        fetched: Result<Option<ClientConfig>, RedisService.GetError>,
                        winner': Option<ClientConfig>, fetched': Result<Option<ClientConfig>, RedisService.GetError>)
    requires Lookup(cache, clientId, winner, fetched).0.Ok?
    ensures var (res, after) := Lookup(cache, clientId, winner, fetched);
      Lookup(after, clientId, winner', fetched') == (res, after)
  {
  }

  /**
   * A stored JSON `null` is not blank, so `get` returns the mapper's null, and the load path
   * refuses to cache it: the lookup fails with NullConfig and the cache stays as it was.
   */
  lemma StoredNullIsRefused(cache: map<string, ClientConfig>, clientId: string,
                            attempt: nat -> RedisService.Attempt, decode: RedisService.Decoder<ClientConfig>)
    requires clientId !in cache
    requires attempt(0) == RedisService.Fetched(Some("null")) && decode("null") == Ok(None)
    ensures Lookup(cache, clientId, None, RedisService.Fetch(attempt, decode, 0)) == (Err(NullConfig), cache)
  {
    assert !JavaLang.IsWhitespace("null"[0]);
  }

  /** The cache and the lock stripes of the provider. */
  class ClientConfigProvider {
    var cache: map<string, ClientConfig>
    const stripes: array<bool>

    /** There are STRIPE_COUNT stripes, and between calls none is held. */
    ghost predicate Valid()
      reads stripes
    {
      stripes.Length == STRIPE_COUNT && forall i :: 0 <= i < stripes.Length ==> !stripes[i]
    }

    constructor ()
      ensures Valid() && cache == map[] && fresh(stripes)
    {
      cache := map[];
      stripes := new bool[STRIPE_COUNT](_ => false);
    }

    /**
     * `tryLockNoException`: waits up to LOCK_WAIT_SECONDS for stripe `i`; a timeout or an
     * interrupt gives false instead of an exception. Only a granted lock marks the stripe held.
     */
    method TryLockNoException(i: nat, lock: LockAttempt) returns (acquired: bool)
      requires i < stripes.Length && !stripes[i]
      modifies stripes
      ensures acquired <==> lock == Granted
      ensures stripes[..] == old(stripes[..])[i := acquired]
    {
      match lock
      case Granted =>
        stripes[i] := true;
        acquired := true;
      case TimedOut =>
        acquired := false;
      case Interrupted =>
        acquired := false;
    }

    /** Releases the held stripe `i`. */
    method Unlock(i: nat)
      requires i < stripes.Length && stripes[i]
      modifies stripes
      ensures stripes[..] == old(stripes[..])[i := false]
    {
      stripes[i] := false;
    }

    /**
     * `getClientConfig`: a cache hit is returned at once. On a miss the client's stripe is tried,
     * the cache is read again (`winner` is what another caller put there meanwhile), and if it is
     * still empty the config is read from the store with `get` (`attempt` and `decode` as there)
     * and put. The stripe is released if and only if it was taken. `loads` counts the reads.
     */
    method GetClientConfig(clientId: string, hash: string -> int, lock: LockAttempt, winner: Option<ClientConfig>,
                           attempt: nat -> RedisService.Attempt, decode: RedisService.Decoder<ClientConfig>)
      returns (res: Result<ClientConfig, ConfigError>, acquired: bool, loads: nat)
      requires Valid()
      modifies this, stripes
      ensures Valid() && stripes[..] == old(stripes[..])
      ensures (res, cache) == Lookup(old(cache), clientId, winner, RedisService.Fetch(attempt, decode, 0))
      ensures loads == if clientId in old(cache) || winner.Some? then 0 else 1
      ensures acquired <==> clientId !in old(cache) && lock == Granted
    {
      if clientId in cache {
        return Ok(cache[clientId]), false, 0;
      }
      var stripe := StripeFor(clientId, hash);
      acquired := TryLockNoException(stripe, lock);
      if winner.Some? {
        cache := cache[clientId := winner.value];
      }
      loads := 0;
      if clientId in cache {
        res := Ok(cache[clientId]);
      } else {
        var fetched, _ := RedisService.Get(Some(clientId), attempt, decode);
        loads := 1;
        match fetched
        case Err(e) =>
          res := Err(LoadFailed(e));
        case Ok(None) =>
          res := Err(NullConfig);
        case Ok(Some(c)) =>
          cache := cache[clientId := c];
          res := Ok(c);
      }
      if acquired {
        Unlock(stripe);
      }
    }
  }
}
