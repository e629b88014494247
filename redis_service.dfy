/**
 * RedisService: reading a value with bounded retries on connection failures, and one
 * pipelined round trip that increments every counter key and sets its expiry.
 *
 * The Redis server is not modelled as a connection. For `get`, what each successive
 * attempt meets is a parameter; for `pipeline`, the model emits the command list and
 * replays it against a counter map with the INCR/EXPIRE semantics the server gives.
 */
module RedisService {
  import opened Wrappers
  import opened JavaLang

  const MAX_RETRIES: nat := 3

  /**
   * `getSeconds`: a ttl in milliseconds as the whole seconds `EXPIRE` takes — the quotient
   * truncated toward zero, raised to 1 when it is 0, then cast to `int`.
   */
  function GetSeconds(ttl: int64): (r: int32)
    ensures -1000 < ttl < 1000 ==> r == 1
    ensures 1000 <= ttl <= 1000 * INT_MAX + 999 ==> 1 <= r && r * 1000 <= ttl < (r + 1) * 1000
    ensures 1000 * INT_MIN - 999 <= ttl <= -1000 ==> r <= -1 && (r - 1) * 1000 < ttl <= r * 1000
  {
    var seconds := JavaDiv(ttl, 1000);
    var seconds := if seconds == 0 then 1 else seconds;
    ToInt32(seconds)
  }

  /** 1999 ms is 1 s, not 2: the division truncates; 0 ms and -999 ms become 1 s. */
  lemma GetSecondsExamples()
    ensures GetSeconds(1999) == 1 && GetSeconds(2000) == 2
    ensures GetSeconds(0) == 1 && GetSeconds(-999) == 1 && GetSeconds(-1000) == -1
  {
  }

  /** A ttl that is not negative always becomes at least one second, up to the `int` range. */
  lemma GetSecondsAtLeastOne(ttl: int64)
    requires 0 <= ttl <= 1000 * INT_MAX + 999
    ensures GetSeconds(ttl) >= 1
  {
  }

  /** Past the `int` range the cast wraps: 2^32 seconds' worth of milliseconds becomes 0 s. */
  lemma GetSecondsWrapsPastIntRange()
    ensures GetSeconds(1000 * TWO_32) == 0
  {
  }

  // ----------------------------------------------------------------------------
  // get: bounded retries.

  /** What one attempt to read the key meets. */
  datatype Attempt =
    | Fetched(value: Option<string>)   // the reply: the stored string, or null if there is none
    | ConnectionLost(cause: nat)       // a JedisConnectionException (getting a connection or reading)
    | Failed(cause: nat)               // any other exception, which is not retried

  /** The exceptions `get` lets escape. */
  datatype GetError =
    | NullKey                          // checkNotNull on the key
    | Connection(cause: nat)           // the last connection failure, rethrown
    | Store(cause: nat)                // an exception the retry loop does not catch
    | Malformed                        // JSON deserialisation failed (an IOException, wrapped)

  /**
   * What the JSON mapper makes of a stored string: a value, or null (the text `null`), or an
   * `IOException` (`Err`).
   */
  type Decoder<T> = string -> Result<Option<T>, ()>

  /** What `get` makes of the reply that ended the retry loop. */
  function Settle<T>(reply: Attempt, decode: Decoder<T>): Result<Option<T>, GetError>
    requires !reply.ConnectionLost?
  {
    match reply
    case Failed(c) => Err(Store(c))
    case Fetched(v) =>
      if IsBlank(v) then Ok(None)
      else match decode(v.value)
        case Ok(x) => Ok(x)
        case Err(_) => Err(Malformed)
  }

  /**
   * What `get` yields for a non-null key from attempt `from` on: the first reply not lost to the
   * connection, settled; or, when the last permitted attempt is lost too, that connection failure.
   */
  function Fetch<T>(attempt: nat -> Attempt, decode: Decoder<T>, from: nat): Result<Option<T>, GetError>
    requires from < MAX_RETRIES
    decreases MAX_RETRIES - from
  {
    match attempt(from)
    case ConnectionLost(c) => if from + 1 == MAX_RETRIES then Err(Connection(c)) else Fetch(attempt, decode, from + 1)
    case _ => Settle(attempt(from), decode)
  }

  /**
   * `get`: reads `key`, retrying on connection failures only, for at most MAX_RETRIES attempts.
   * `attempt(i)` is what attempt i (from 0) meets; `decode` is the JSON mapper. `tries` is the
   * number of attempts made.
   */
  method Get<T>(key: Option<string>, attempt: nat -> Attempt, decode: Decoder<T>)
    returns (res: Result<Option<T>, GetError>, tries: nat)
    ensures key.None? ==> res == Err(NullKey) && tries == 0
    ensures key.Some? ==> 1 <= tries <= MAX_RETRIES
    ensures forall i :: 0 <= i < tries - 1 ==> attempt(i).ConnectionLost?
    ensures key.Some? && attempt(tries - 1).ConnectionLost? ==>
              tries == MAX_RETRIES && res == Err(Connection(attempt(tries - 1).cause))
    ensures key.Some? && !attempt(tries - 1).ConnectionLost? ==> res == Settle(attempt(tries - 1), decode)
    ensures key.Some? ==> res == Fetch(attempt, decode, 0)
  {
    if key.None? {
      return Err(NullKey), 0;
    }
    var s: Option<string> := None;
    var i := 1;
    tries := 0;
    while i <= MAX_RETRIES
      invariant 1 <= i <= MAX_RETRIES
      invariant tries == i - 1
      invariant forall j :: 0 <= j < i - 1 ==> attempt(j).ConnectionLost?
      invariant Fetch(attempt, decode, 0) == Fetch(attempt, decode, i - 1)
    {
      tries := i;
      match attempt(i - 1)
      case ConnectionLost(c) =>
        if i == MAX_RETRIES {
          return Err(Connection(c)), tries;
        }
        i := i + 1;
        continue;
      case Failed(c) =>
        return Err(Store(c)), tries;
      case Fetched(v) =>
        s := v;
      break;
    }
    assert attempt(tries - 1) == Fetched(s);
    if IsBlank(s) {
      return Ok(None), tries;
    }
    match decode(s.value)
    case Ok(x) => res := Ok(x);
    case Err(_) => res := Err(Malformed);
  }

  // ----------------------------------------------------------------------------
  // pipeline: one INCR and one EXPIRE per key, in iteration order.

  /** A counter key with its time to live in milliseconds. */
  datatype KeyWithTtl = KeyWithTtl(key: string, ttl: int64)

  datatype Command = Incr(key: string) | Expire(key: string, seconds: int)

  /** The commands queued for `keys`: for each key in order, INCR immediately followed by EXPIRE. */
  function Commands(keys: seq<KeyWithTtl>): seq<Command> {
    if keys == [] then []
    else [Incr(keys[0].key), Expire(keys[0].key, GetSeconds(keys[0].ttl))] + Commands(keys[1..])
  }

  lemma {:induction false} CommandsAt(keys: seq<KeyWithTtl>, i: nat)
    requires i < |keys|
    ensures |Commands(keys)| == 2 * |keys|
    ensures Commands(keys)[2 * i] == Incr(keys[i].key)
    ensures Commands(keys)[2 * i + 1] == Expire(keys[i].key, GetSeconds(keys[i].ttl))
  {
    if i > 0 {
      CommandsAt(keys[1..], i - 1);
    } else if |keys| > 1 {
      CommandsAt(keys[1..], 0);
    }
  }

  /** Replies of the counter store: INCR's new count, or EXPIRE's 1 (key exists) / 0 (it does not). */
  function Replay(counters: map<string, int>, commands: seq<Command>): (replies: seq<int>)
    ensures |replies| == |commands|
    decreases |commands|
  {
    if commands == [] then []
    else match commands[0]
      case Incr(k) =>
        var n := (if k in counters then counters[k] else 0) + 1;
        [n] + Replay(counters[k := n], commands[1..])
      case Expire(k, seconds) =>
        var present := k in counters;
        var next := if present && seconds <= 0 then counters - {k} else counters;
        [if present then 1 else 0] + Replay(next, commands[1..])
  }

  /** The pipeline being filled: the commands queued so far. */
  class Pipeline {
    var queued: seq<Command>

    constructor ()
      ensures queued == []
    {
      queued := [];
    }

    method Incr(key: string)
      modifies this
      ensures queued == old(queued) + [Command.Incr(key)]
    {
      queued := queued + [Command.Incr(key)];
    }

    method Expire(key: string, seconds: int)
      modifies this
      ensures queued == old(queued) + [Command.Expire(key, seconds)]
    {
      queued := queued + [Command.Expire(key, seconds)];
    }

    /** Sends the queued commands in one round trip and returns one reply per command. */
    method SyncAndReturnAll(counters: map<string, int>) returns (replies: seq<int>)
      ensures replies == Replay(counters, queued)
    {
      replies := Replay(counters, queued);
    }
  }

  /**
   * `pipeline`: queues INCR then EXPIRE (with the ttl in seconds) for every key in iteration
   * order and syncs; `counters` is the store's state before the round trip.
   */
  method RunPipeline(keys: seq<KeyWithTtl>, counters: map<string, int>)
    returns (sent: seq<Command>, replies: seq<int>)
    ensures |sent| == 2 * |keys| && |replies| == |sent|
    ensures forall i :: 0 <= i < |keys| ==>
              sent[2 * i] == Incr(keys[i].key) && sent[2 * i + 1] == Expire(keys[i].key, GetSeconds(keys[i].ttl))
    ensures replies == Replay(counters, sent)
  {
    var pipelined := new Pipeline();
    for i := 0 to |keys|
      invariant |pipelined.queued| == 2 * i
      invariant forall j :: 0 <= j < i ==>
                  pipelined.queued[2 * j] == Incr(keys[j].key)
                  && pipelined.queued[2 * j + 1] == Expire(keys[j].key, GetSeconds(keys[j].ttl))
    {
      pipelined.Incr(keys[i].key);
      pipelined.Expire(keys[i].key, GetSeconds(keys[i].ttl));
    }
    sent := pipelined.queued;
    replies := pipelined.SyncAndReturnAll(counters);
  }

  /** The emitted list is exactly `Commands(keys)`. */
  lemma {:induction false} PipelineSendsCommands(keys: seq<KeyWithTtl>, sent: seq<Command>)
    requires |sent| == 2 * |keys|
    requires forall i :: 0 <= i < |keys| ==>
               sent[2 * i] == Incr(keys[i].key) && sent[2 * i + 1] == Expire(keys[i].key, GetSeconds(keys[i].ttl))
    ensures sent == Commands(keys)
  {
    if keys != [] {
      var rest, restKeys := sent[2..], keys[1..];
      forall i | 0 <= i < |restKeys|
        ensures rest[2 * i] == Incr(restKeys[i].key)
        ensures rest[2 * i + 1] == Expire(restKeys[i].key, GetSeconds(restKeys[i].ttl))
      {
        assert rest[2 * i] == sent[2 * (i + 1)];
        assert rest[2 * i + 1] == sent[2 * (i + 1) + 1];
      }
      PipelineSendsCommands(restKeys, rest);
      assert sent == [sent[0], sent[1]] + rest;
    }
  }

  /** The store after an INCR and an EXPIRE of `k`: counted, and gone again when the seconds are not positive. */
  function AfterKey(counters: map<string, int>, k: string, seconds: int): map<string, int> {
    var n := (if k in counters then counters[k] else 0) + 1;
    if seconds <= 0 then counters[k := n] - {k} else counters[k := n]
  }

  /** Counting and expiring one key keeps every count in the store non-negative. */
  lemma AfterKeyNonNegative(counters: map<string, int>, key: string, seconds: int)
    requires forall k :: k in counters ==> counters[k] >= 0
    ensures forall k :: k in AfterKey(counters, key, seconds) ==> AfterKey(counters, key, seconds)[k] >= 0
  {
  }

  /** One INCR at the head of the commands: the new count, then the rest on the bumped store. */
  lemma ReplayIncr(counters: map<string, int>, k: string, tail: seq<Command>)
    ensures Replay(counters, [Incr(k)] + tail)
      == [(if k in counters then counters[k] else 0) + 1]
         + Replay(counters[k := (if k in counters then counters[k] else 0) + 1], tail)
  {
    assert ([Incr(k)] + tail)[1..] == tail;
  }

  /** One EXPIRE on a key present in the store: reply 1, and the key is dropped when seconds <= 0. */
  lemma ReplayExpire(counters: map<string, int>, k: string, seconds: int, tail: seq<Command>)
    requires k in counters
    ensures Replay(counters, [Expire(k, seconds)] + tail)
      == [1] + Replay(if seconds <= 0 then counters - {k} else counters, tail)
  {
    assert ([Expire(k, seconds)] + tail)[1..] == tail;
  }

  lemma ConsPair(a: int, b: int, rest: seq<int>)
    ensures [a] + ([b] + rest) == [a, b] + rest
  {
    assert ([a] + ([b] + rest))[..2] == [a, b];
  }

  /** An INCR and an EXPIRE of the same key: the new count, 1, then the rest on the updated store. */
  lemma ReplayPair(counters: map<string, int>, k: string, seconds: int, tail: seq<Command>)
    ensures var n := (if k in counters then counters[k] else 0) + 1;
      Replay(counters, [Incr(k), Expire(k, seconds)] + tail)
        == [n, 1] + Replay(AfterKey(counters, k, seconds), tail)
  {
    var n := (if k in counters then counters[k] else 0) + 1;
    var expiring := [Expire(k, seconds)] + tail;
    assert [Incr(k), Expire(k, seconds)] + tail == [Incr(k)] + expiring;
    ReplayIncr(counters, k, expiring);
    ReplayExpire(counters[k := n], k, seconds, tail);
    ConsPair(n, 1, Replay(AfterKey(counters, k, seconds), tail));
  }

  /** Replaying the commands of the first key: its INCR's count, EXPIRE's 1, then the rest. */
  lemma ReplayFirstKey(counters: map<string, int>, keys: seq<KeyWithTtl>)
    requires keys != []
    ensures var k := keys[0].key;
      Replay(counters, Commands(keys))
        == [(if k in counters then counters[k] else 0) + 1, 1] + Replay(AfterKey(counters, k, GetSeconds(keys[0].ttl)), Commands(keys[1..]))
  {
    var k, seconds, tail := keys[0].key, GetSeconds(keys[0].ttl), Commands(keys[1..]);
    assert Commands(keys) == [Incr(k), Expire(k, seconds)] + tail;
    ReplayPair(counters, k, seconds, tail);
  }

  /**
   * Each INCR reply is a count of at least 1 and each EXPIRE reply is 1: the expiry always
   * lands on the key the INCR just before it created or bumped.
   */
  lemma {:induction false} ReplayIncrThenExpire(counters: map<string, int>, keys: seq<KeyWithTtl>, i: nat)
    requires i < |keys|
    requires forall k :: k in counters ==> counters[k] >= 0
    ensures |Replay(counters, Commands(keys))| == 2 * |keys|
    ensures Replay(counters, Commands(keys))[2 * i] >= 1
    ensures Replay(counters, Commands(keys))[2 * i + 1] == 1
    decreases |keys|
  {
    var k := keys[0].key;
    var n := (if k in counters then counters[k] else 0) + 1;
    var next := AfterKey(counters, k, GetSeconds(keys[0].ttl));
    var rest := Replay(next, Commands(keys[1..]));
    var all := Replay(counters, Commands(keys));
    assert all == [n, 1] + rest by {
      ReplayFirstKey(counters, keys);
    }
    assert |all| == 2 * |keys| by {
      CommandsAt(keys, i);
    }
    if i > 0 {
      AfterKeyNonNegative(counters, k, GetSeconds(keys[0].ttl));
      ReplayIncrThenExpire(next, keys[1..], i - 1);
      assert all[2 * i] == rest[2 * (i - 1)];
      assert all[2 * i + 1] == rest[2 * (i - 1) + 1];
    }
  }
}
