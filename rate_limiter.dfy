/**
 * `RedisTokenBucketRateLimiter`: a per-token counter and last-reset time in
 * a key-value store. The store is a map from key to integer and the clock
 * reading `now` is a parameter.
 */
module RateLimiter {
  import opened Wrappers

  function CounterKey(token: string): string
  {
    "rate_limit:" + token + "_counter"
  }

  function LastResetKey(token: string): string
  {
    "rate_limit:" + token + "_last_reset"
  }

  /** The store refuses a non-positive expiry (`ex=interval`) and writes nothing. */
  datatype StoreError = InvalidExpireTime

  /** One call's answer and the store it leaves behind. */
  datatype Answer = Answer(allowed: Result<bool, StoreError>, store: map<string, int>)

  /** Both keys of two tokens are different keys unless the tokens are equal: no token can reach another's state. */
  lemma KeysSeparateTokens(t1: string, t2: string)
    ensures CounterKey(t1) != LastResetKey(t2)
    ensures CounterKey(t1) == CounterKey(t2) ==> t1 == t2
    ensures LastResetKey(t1) == LastResetKey(t2) ==> t1 == t2
  {
    var c1, l2 := CounterKey(t1), LastResetKey(t2);
    assert c1[|c1| - 1] == 'r' && l2[|l2| - 1] == 't';
    if CounterKey(t1) == CounterKey(t2) {
      assert t1 == CounterKey(t1)[11..|CounterKey(t1)| - 8];
      assert t2 == CounterKey(t2)[11..|CounterKey(t2)| - 8];
    }
    if LastResetKey(t1) == LastResetKey(t2) {
      assert t1 == LastResetKey(t1)[11..|LastResetKey(t1)| - 11];
      assert t2 == LastResetKey(t2)[11..|LastResetKey(t2)| - 11];
    }
  }

  /** `_get_last_reset_time` on a store: a missing time reads as 0. */
  function LastReset(store: map<string, int>, token: string): int
  {
    if LastResetKey(token) in store then store[LastResetKey(token)] else 0
  }

  /** Whether the key `k` holds the same thing in both stores. */
  predicate Same(before: map<string, int>, after: map<string, int>, k: string)
  {
    (k in before <==> k in after) && (k in before ==> after[k] == before[k])
  }

  /**
   * `rate_limit` on a store: a new window resets the counter to
   * `max_requests` and allows; inside a window a missing counter is a reset,
   * an exhausted one refuses, and any other is decremented and allows.
   */
  function Decide(store: map<string, int>, token: string, interval: int, maxRequests: int, now: int): (a: Answer)
    ensures forall k :: k != CounterKey(token) && k != LastResetKey(token) ==> Same(store, a.store, k)
    ensures a.allowed.Err? ==> a.store == store
    ensures a.allowed.Err? <==> interval <= 0 && (now - LastReset(store, token) >= interval || CounterKey(token) !in store)
    ensures now - LastReset(store, token) < interval && CounterKey(token) !in store && interval > 0
            ==> && a.allowed == Ok(maxRequests > 0)
                && LastResetKey(token) in a.store && a.store[LastResetKey(token)] == now
                && CounterKey(token) in a.store && a.store[CounterKey(token)] == (if maxRequests > 0 then maxRequests - 1 else maxRequests)
    ensures a.allowed == Ok(false) && CounterKey(token) in store ==> a.store == store
    ensures a.allowed == Ok(true) ==> CounterKey(token) in a.store
    ensures now - LastReset(store, token) >= interval && interval > 0
            ==> a.allowed == Ok(true) && LastResetKey(token) in a.store && a.store[LastResetKey(token)] == now && a.store[CounterKey(token)] == maxRequests - 1
    ensures now - LastReset(store, token) < interval && CounterKey(token) in store
            ==> a.allowed == Ok(store[CounterKey(token)] > 0)
                && (store[CounterKey(token)] > 0 ==> a.store == store[CounterKey(token) := store[CounterKey(token)] - 1])
  {
    var counterKey, lastKey := CounterKey(token), LastResetKey(token);
    KeysSeparateTokens(token, token);
    var renewed := store[counterKey := maxRequests][lastKey := now];
    if now - LastReset(store, token) >= interval then
      if interval <= 0 then Answer(Err(InvalidExpireTime), store)
      else Answer(Ok(true), renewed[counterKey := maxRequests - 1])
    else if counterKey !in store then
      if interval <= 0 then Answer(Err(InvalidExpireTime), store)
      else if maxRequests <= 0 then Answer(Ok(false), renewed)
      else Answer(Ok(true), renewed[counterKey := maxRequests - 1])
    else if store[counterKey] <= 0 then Answer(Ok(false), store)
    else Answer(Ok(true), store[counterKey := store[counterKey] - 1])
  }

  /** A call for one token leaves both keys of every other token as they were. */
  lemma OtherTokensUntouched(store: map<string, int>, token: string, other: string, interval: int, maxRequests: int, now: int)
    requires other != token
    ensures var a := Decide(store, token, interval, maxRequests, now);
            Same(store, a.store, CounterKey(other)) && Same(store, a.store, LastResetKey(other))
  {
    KeysSeparateTokens(other, token);
    KeysSeparateTokens(token, other);
  }

  /** The number of allowed calls among calls for one token at the given times, and the final store. */
  function AllowedCount(store: map<string, int>, token: string, interval: int, maxRequests: int, times: seq<int>): (nat, map<string, int>)
    decreases |times|
  {
    if times == [] then (0, store)
    else
      var a := Decide(store, token, interval, maxRequests, times[0]);
      var rest := AllowedCount(a.store, token, interval, maxRequests, times[1..]);
      (if a.allowed == Ok(true) then rest.0 + 1 else rest.0, rest.1)
  }

  function Max(a: int, b: int): int
  {
    if a < b then b else a
  }

  /** Inside a window whose counter holds c, at most max(c, 0) calls are allowed. */
  lemma {:induction false} AtMostCounterInWindow(store: map<string, int>, token: string, interval: int, maxRequests: int, times: seq<int>)
    requires CounterKey(token) in store
    requires forall i :: 0 <= i < |times| ==> times[i] - LastReset(store, token) < interval
    ensures AllowedCount(store, token, interval, maxRequests, times).0 <= Max(store[CounterKey(token)], 0)
    decreases |times|
  {
    if times != [] {
      var a := Decide(store, token, interval, maxRequests, times[0]);
      KeysSeparateTokens(token, token);
      assert LastReset(a.store, token) == LastReset(store, token);
      AtMostCounterInWindow(a.store, token, interval, maxRequests, times[1..]);
    }
  }

  /**
   * The first call of a window is allowed, and from that reset until the
   * window ends at most max(`max_requests`, 1) calls are allowed.
   */
  lemma AtMostMaxPerWindow(store: map<string, int>, token: string, interval: int, maxRequests: int, now: int, later: seq<int>)
    requires interval > 0 && now - LastReset(store, token) >= interval
    requires forall i :: 0 <= i < |later| ==> later[i] - now < interval
    ensures Decide(store, token, interval, maxRequests, now).allowed == Ok(true)
    ensures AllowedCount(store, token, interval, maxRequests, [now] + later).0 <= Max(maxRequests, 1)
  {
    var a := Decide(store, token, interval, maxRequests, now);
    assert ([now] + later)[1..] == later;
    assert LastReset(a.store, token) == now;
    AtMostCounterInWindow(a.store, token, interval, maxRequests, later);
  }

  /** The limiter over its store. */
  class TokenBucketLimiter {
    var store: map<string, int>

    constructor (store: map<string, int>)
      ensures this.store == store
    {
      this.store := store;
    }

    method GetLastResetTime(key: string) returns (t: int)
      ensures t == (if key in store then store[key] else 0)
    {
      t := if key in store then store[key] else 0;
    }

    method ResetCounter(counterKey: string, lastResetKey: string, maxRequests: int, interval: int, now: int)
      returns (r: Result<(), StoreError>)
      modifies this
      ensures interval <= 0 ==> r == Err(InvalidExpireTime) && store == old(store)
      ensures interval > 0 ==> r.Ok? && store == old(store)[counterKey := maxRequests][lastResetKey := now]
    {
      if interval <= 0 {
        return Err(InvalidExpireTime);
      }
      store := store[counterKey := maxRequests];
      store := store[lastResetKey := now];
      r := Ok(());
    }

    method RateLimit(token: string, interval: int, maxRequests: int, now: int) returns (r: Result<bool, StoreError>)
      modifies this
      ensures Answer(r, store) == Decide(old(store), token, interval, maxRequests, now)
    {
      var counterKey := "rate_limit:" + token + "_counter";
      var lastResetKey := "rate_limit:" + token + "_last_reset";
      KeysSeparateTokens(token, token);
      var lastResetTime := GetLastResetTime(lastResetKey);
      if now - lastResetTime >= interval {
        var reset := ResetCounter(counterKey, lastResetKey, maxRequests, interval, now);
        if reset.Err? {
          return Err(reset.error);
        }
      } else {
        var counter: int;
        if counterKey !in store {
          var reset := ResetCounter(counterKey, lastResetKey, maxRequests, interval, now);
          if reset.Err? {
            return Err(reset.error);
          }
          counter := maxRequests;
        } else {
          counter := store[counterKey];
        }
        if counter <= 0 {
          return Ok(false);
        }
      }
      store := store[counterKey := store[counterKey] - 1];
      r := Ok(true);
    }
  }
}
