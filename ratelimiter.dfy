/** The two rate limiters as objects: the in-memory limiter owns its map of windows and
    updates it in place; the shared limiter keeps its counters in an external store it
    holds a reference to. Each method is proved against the step function of
    RateLimitSpec; the clock reading `now` (ms) is a parameter. */
module RateLimit {
  import opened Wrappers
  import opened Errors
  import opened RateLimitSpec

  /** The in-memory fixed-window limiter. */
  class RateLimiter {
    const config: LimitConfig
    var store: map<string, Entry>
    /** Whether the periodic sweep is scheduled. */
    var cleanupScheduled: bool

    /** Every stored window holds between 1 and max(1, maxRequests) calls. */
    ghost predicate Valid()
      reads this
    {
      CountsBounded(config, store)
    }

    /** The prefix defaults to "mpesa"; the store starts empty and the sweep is scheduled. */
    constructor (maxRequests: int, windowMs: int, keyPrefix: Option<string>)
      ensures config == LimitConfig(maxRequests, windowMs, keyPrefix.GetOr("mpesa"))
      ensures store == map[] && cleanupScheduled
      ensures Valid()
    {
      config := LimitConfig(maxRequests, windowMs, keyPrefix.GetOr("mpesa"));
      store := map[];
      cleanupScheduled := true;
    }

    method CheckLimit(key: string, now: int) returns (r: Outcome<Exception>)
      requires Valid()
      modifies this
      ensures Valid()
      ensures var s := LocalCheck(config, old(store), FullKey(config.keyPrefix, key), now);
        r == s.verdict && store == s.store
      ensures cleanupScheduled == old(cleanupScheduled)
    {
      var fullKey := FullKey(config.keyPrefix, key);
      if fullKey !in store || now >= store[fullKey].resetAt {
        store := store[fullKey := Entry(1, now + config.windowMs)];
        return Pass;
      }
      var entry := store[fullKey];
      if entry.count >= config.maxRequests {
        var retryAfter := CeilSeconds(entry.resetAt - now);
        return Fail(Mpesa(RateLimitError(RejectMessage(retryAfter), Some(retryAfter),
                                         LimitInfo(config.maxRequests, config.windowMs, Some(entry.resetAt)))));
      }
      store := store[fullKey := entry.(count := entry.count + 1)];
      r := Pass;
    }

    method GetUsage(key: string, now: int) returns (u: Usage)
      ensures u == RateLimitSpec.GetUsage(config, store, FullKey(config.keyPrefix, key), now)
    {
      var fullKey := FullKey(config.keyPrefix, key);
      if fullKey !in store || now >= store[fullKey].resetAt {
        return Usage(0, config.maxRequests, now + config.windowMs);
      }
      var entry := store[fullKey];
      var remaining := config.maxRequests - entry.count;
      if remaining < 0 {
        remaining := 0;
      }
      u := Usage(entry.count, remaining, entry.resetAt);
    }

    method Reset(key: string)
      requires Valid()
      modifies this
      ensures Valid()
      ensures store == old(store) - {FullKey(config.keyPrefix, key)}
      ensures cleanupScheduled == old(cleanupScheduled)
    {
      store := store - {FullKey(config.keyPrefix, key)};
    }

    method ResetAll()
      modifies this
      ensures Valid()
      ensures store == map[] && cleanupScheduled == old(cleanupScheduled)
    {
      store := map[];
    }

    /** One pass of the periodic sweep at time `now`. */
    method Cleanup(now: int)
      requires Valid()
      modifies this
      ensures Valid()
      ensures store == Sweep(old(store), now)
      ensures cleanupScheduled == old(cleanupScheduled)
    {
      store := Sweep(store, now);
    }

    method Destroy()
      modifies this
      ensures Valid()
      ensures store == map[] && !cleanupScheduled
    {
      cleanupScheduled := false;
      store := map[];
    }
  }

  /** The external counter store the shared limiter talks to (GET, SET with EX, INCR,
      EXPIRE), with expiry checked lazily against `now`. */
  class CounterStore {
    var counters: map<string, Counter>

    constructor ()
      ensures counters == map[]
    {
      counters := map[];
    }

    method Get(k: string, now: int) returns (v: Option<int>)
      ensures v == RateLimitSpec.Get(counters, k, now)
    {
      if k in counters && (counters[k].expiresAt.None? || now < counters[k].expiresAt.value) {
        v := Some(counters[k].value);
      } else {
        v := None;
      }
    }

    method Incr(k: string, now: int) returns (v: int)
      modifies this
      ensures counters == RateLimitSpec.Incr(old(counters), k, now)
      ensures v == counters[k].value
    {
      if k in counters && (counters[k].expiresAt.None? || now < counters[k].expiresAt.value) {
        counters := counters[k := counters[k].(value := counters[k].value + 1)];
      } else {
        counters := counters[k := Counter(1, None)];
      }
      v := counters[k].value;
    }

    method Expire(k: string, seconds: int, now: int)
      modifies this
      ensures counters == RateLimitSpec.Expire(old(counters), k, seconds, now)
    {
      if k in counters && (counters[k].expiresAt.None? || now < counters[k].expiresAt.value) {
        counters := counters[k := counters[k].(expiresAt := Some(now + seconds * 1000))];
      }
    }

    method SetEx(k: string, value: int, seconds: int, now: int)
      modifies this
      ensures counters == RateLimitSpec.SetEx(old(counters), k, value, seconds, now)
    {
      counters := counters[k := Counter(value, Some(now + seconds * 1000))];
    }
  }

  /** The limiter shared between processes through a counter store. */
  class RedisRateLimiter {
    const redis: CounterStore
    const config: LimitConfig

    constructor (redis: CounterStore, maxRequests: int, windowMs: int, keyPrefix: Option<string>)
      ensures this.redis == redis
      ensures config == LimitConfig(maxRequests, windowMs, keyPrefix.GetOr("mpesa"))
    {
      this.redis := redis;
      config := LimitConfig(maxRequests, windowMs, keyPrefix.GetOr("mpesa"));
    }

    method CheckLimit(key: string, now: int) returns (r: Outcome<Exception>)
      modifies redis
      ensures var s := SharedCheck(config, old(redis.counters), FullKey(config.keyPrefix, key), now);
        r == s.verdict && redis.counters == s.store
    {
      var fullKey := FullKey(config.keyPrefix, key);
      var count := redis.Incr(fullKey, now);
      if count == 1 {
        redis.Expire(fullKey, CeilSeconds(config.windowMs), now);
      }
      if count > config.maxRequests {
        var ttl := redis.Get(TtlKey(fullKey), now);
        var retryAfter := if ttl.Some? then ttl.value else CeilSeconds(config.windowMs);
        r := Fail(Mpesa(RateLimitError(RejectMessage(retryAfter), Some(retryAfter),
                                       LimitInfo(config.maxRequests, config.windowMs, None))));
      } else {
        r := Pass;
      }
    }

    method Reset(key: string, now: int)
      modifies redis
      ensures redis.counters == SharedReset(old(redis.counters), FullKey(config.keyPrefix, key), now)
    {
      redis.SetEx(FullKey(config.keyPrefix, key), 0, 0, now);
    }
  }
}
