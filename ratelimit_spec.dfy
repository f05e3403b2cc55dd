/** The fixed-window rate limiters as functions of their store: one step of the
    in-memory limiter over its map of windows, one step of the shared limiter over an
    external store of expiring counters, and what follows from them. */
module RateLimitSpec {
  import opened Wrappers
  import opened Errors
  import opened Text

  /** A limiter's options after `{"keyPrefix": "mpesa", **options}`. */
  datatype LimitConfig = LimitConfig(maxRequests: int, windowMs: int, keyPrefix: string)

  /** The store key of a caller's key. */
  function FullKey(prefix: string, key: string): (k: string)
    ensures |k| == |prefix| + 1 + |key| && k[|prefix|] == ':'
  {
    prefix + ":" + key
  }

  /** `(ms + 999) // 1000`: milliseconds rounded up to whole seconds. */
  function CeilSeconds(ms: int): int {
    (ms + 999) / 1000
  }

  function Max(a: int, b: int): int {
    if a >= b then a else b
  }

  function Min(a: int, b: int): int {
    if a <= b then a else b
  }

  function RejectMessage(retryAfter: int): string {
    "Rate limit exceeded. Try again in " + IntToString(retryAfter) + " seconds."
  }

  /** The verdict of one check (pass, or the rate-limit error it raises) and the store
      after it. */
  datatype Step<S> = Step(verdict: Outcome<Exception>, store: S)

  // ---------------------------------------------------------------------------
  // In-memory limiter

  /** One window: the calls admitted in it and when it ends (ms). */
  datatype Entry = Entry(count: int, resetAt: int)

  predicate Live(store: map<string, Entry>, k: string, now: int) {
    k in store && now < store[k].resetAt
  }

  /** One `checkLimit` at time `now`. A missing or ended window is replaced by a fresh one
      holding this call; a live window below the limit counts this call; a full window
      rejects with the seconds left, rounded up, and changes nothing. */
  function LocalCheck(cfg: LimitConfig, store: map<string, Entry>, fk: string, now: int): (s: Step<map<string, Entry>>)
    ensures s.store.Keys == store.Keys + {fk}
    ensures forall k | k in store && k != fk :: s.store[k] == store[k]
    ensures s.verdict.Pass? <==> !Live(store, fk, now) || store[fk].count < cfg.maxRequests
    ensures !Live(store, fk, now) ==> s.store[fk] == Entry(1, now + cfg.windowMs)
    ensures Live(store, fk, now) && s.verdict.Pass? ==>
      s.store[fk] == Entry(store[fk].count + 1, store[fk].resetAt)
    ensures s.verdict.Fail? ==>
      var retryAfter := CeilSeconds(store[fk].resetAt - now);
      && s.store == store
      && retryAfter >= 1
      && s.verdict.error == Mpesa(RateLimitError(RejectMessage(retryAfter), Some(retryAfter),
                                   LimitInfo(cfg.maxRequests, cfg.windowMs, Some(store[fk].resetAt))))
  {
    if !Live(store, fk, now) then
      Step(Pass, store[fk := Entry(1, now + cfg.windowMs)])
    else
      var entry := store[fk];
      if entry.count >= cfg.maxRequests then
        var retryAfter := CeilSeconds(entry.resetAt - now);
        Step(Fail(Mpesa(RateLimitError(RejectMessage(retryAfter), Some(retryAfter),
                                       LimitInfo(cfg.maxRequests, cfg.windowMs, Some(entry.resetAt))))),
             store)
      else
        Step(Pass, store[fk := Entry(entry.count + 1, entry.resetAt)])
  }

  /** What `getUsage` reports. */
  datatype Usage = Usage(count: int, remaining: int, resetAt: int)

  /** Usage of a key; an ended window reads as a fresh, unused one. */
  function GetUsage(cfg: LimitConfig, store: map<string, Entry>, fk: string, now: int): (u: Usage)
    ensures !Live(store, fk, now) ==> u == Usage(0, cfg.maxRequests, now + cfg.windowMs)
    ensures Live(store, fk, now) ==>
      && u.count == store[fk].count
      && u.remaining == Max(0, cfg.maxRequests - store[fk].count)
      && u.resetAt == store[fk].resetAt
  {
    if !Live(store, fk, now) then Usage(0, cfg.maxRequests, now + cfg.windowMs)
    else
      var entry := store[fk];
      Usage(entry.count, Max(0, cfg.maxRequests - entry.count), entry.resetAt)
  }

  /** With a positive limit, usage reports room left exactly when the next check at the
      same instant would admit. */
  lemma UsagePredictsAdmission(cfg: LimitConfig, store: map<string, Entry>, fk: string, now: int)
    requires cfg.maxRequests >= 1
    ensures GetUsage(cfg, store, fk, now).remaining > 0 <==> LocalCheck(cfg, store, fk, now).verdict.Pass?
  {
  }

  /** The invariant on stored windows: every count is at least 1 and at most
      max(1, maxRequests). */
  predicate CountsBounded(cfg: LimitConfig, store: map<string, Entry>) {
    forall k | k in store :: 1 <= store[k].count <= Max(1, cfg.maxRequests)
  }

  lemma LocalCheckKeepsBounds(cfg: LimitConfig, store: map<string, Entry>, fk: string, now: int)
    requires CountsBounded(cfg, store)
    ensures CountsBounded(cfg, LocalCheck(cfg, store, fk, now).store)
  {
  }

  /** The periodic sweep: keep exactly the windows that have not ended. */
  function Sweep(store: map<string, Entry>, now: int): (s: map<string, Entry>)
    ensures forall k :: k in s <==> Live(store, k, now)
    ensures forall k | k in s :: k in store && s[k] == store[k]
  {
    map k | k in store && now < store[k].resetAt :: store[k]
  }

  /** Sweeping is invisible: at the sweep's time or later, a check and a usage report on
      any key behave the same on the swept store as on the original. */
  lemma SweepInvisible(cfg: LimitConfig, store: map<string, Entry>, now: int, fk: string, t: int)
    requires now <= t
    ensures LocalCheck(cfg, Sweep(store, now), fk, t).verdict == LocalCheck(cfg, store, fk, t).verdict
    ensures LocalCheck(cfg, Sweep(store, now), fk, t).store[fk] == LocalCheck(cfg, store, fk, t).store[fk]
    ensures GetUsage(cfg, Sweep(store, now), fk, t) == GetUsage(cfg, store, fk, t)
  {
    assert Live(Sweep(store, now), fk, t) <==> Live(store, fk, t);
  }

  /** After `reset`, the key's next check admits. */
  lemma ResetReopens(cfg: LimitConfig, store: map<string, Entry>, fk: string, now: int)
    ensures LocalCheck(cfg, store - {fk}, fk, now).verdict.Pass?
    ensures LocalCheck(cfg, store - {fk}, fk, now).store[fk] == Entry(1, now + cfg.windowMs)
  {
  }

  /** The admit decisions of successive checks of one key at the given times. */
  function RunLocal(cfg: LimitConfig, store: map<string, Entry>, fk: string, times: seq<int>): (d: seq<bool>)
    ensures |d| == |times|
    decreases |times|
  {
    if times == [] then []
    else
      var s := LocalCheck(cfg, store, fk, times[0]);
      [s.verdict.Pass?] + RunLocal(cfg, s.store, fk, times[1..])
  }

  /** Inside a live window that already holds c <= maxRequests calls, the i-th further
      call is admitted iff c + i < maxRequests. */
  lemma {:induction false} LiveWindowRun(cfg: LimitConfig, store: map<string, Entry>, fk: string, times: seq<int>, c: int, r: int)
    requires fk in store && store[fk] == Entry(c, r) && 1 <= c <= cfg.maxRequests
    requires forall i | 0 <= i < |times| :: times[i] < r
    ensures forall i | 0 <= i < |times| :: RunLocal(cfg, store, fk, times)[i] <==> c + i < cfg.maxRequests
    decreases |times|
  {
    if times != [] {
      var s := LocalCheck(cfg, store, fk, times[0]);
      var c' := if c < cfg.maxRequests then c + 1 else c;
      assert s.store[fk] == Entry(c', r);
      LiveWindowRun(cfg, s.store, fk, times[1..], c', r);
      var d := RunLocal(cfg, store, fk, times);
      forall i | 0 <= i < |times| ensures d[i] <==> c + i < cfg.maxRequests {
        if i > 0 {
          assert d[i] == RunLocal(cfg, s.store, fk, times[1..])[i - 1];
        }
      }
    }
  }

  /** With maxRequests = N >= 1, of the calls made within windowMs of a call that opened a
      window, exactly the first N are admitted. */
  lemma FirstNAdmitted(cfg: LimitConfig, store: map<string, Entry>, fk: string, times: seq<int>)
    requires cfg.maxRequests >= 1
    requires |times| >= 1 && !Live(store, fk, times[0])
    requires forall i | 0 <= i < |times| :: times[i] < times[0] + cfg.windowMs
    ensures forall i | 0 <= i < |times| :: RunLocal(cfg, store, fk, times)[i] <==> i < cfg.maxRequests
  {
    var s := LocalCheck(cfg, store, fk, times[0]);
    LiveWindowRun(cfg, s.store, fk, times[1..], 1, times[0] + cfg.windowMs);
    var d := RunLocal(cfg, store, fk, times);
    forall i | 0 <= i < |times| ensures d[i] <==> i < cfg.maxRequests {
      if i > 0 {
        assert d[i] == RunLocal(cfg, s.store, fk, times[1..])[i - 1];
      }
    }
  }

  /** Two calls admitted and the third rejected with 60 seconds to wait, for a limit of 2
      per minute and calls at 0, 10 and 20 ms. */
  lemma TwoPerMinuteExample()
    ensures var cfg := LimitConfig(2, 60000, "mpesa");
      var s0 := LocalCheck(cfg, map[], "mpesa:k", 0);
      var s1 := LocalCheck(cfg, s0.store, "mpesa:k", 10);
      var s2 := LocalCheck(cfg, s1.store, "mpesa:k", 20);
      s0.verdict.Pass? && s1.verdict.Pass? && s2.verdict.Fail? &&
      s2.verdict.error.err.retryAfter == Some(60)
  {
  }

  // ---------------------------------------------------------------------------
  // Shared limiter over an external counter store

  /** A counter in the external store and when it expires (ms), if ever. */
  datatype Counter = Counter(value: int, expiresAt: Option<int>)

  predicate Alive(counters: map<string, Counter>, k: string, now: int) {
    k in counters && (counters[k].expiresAt.None? || now < counters[k].expiresAt.value)
  }

  /** GET: the value of a live counter. */
  function Get(counters: map<string, Counter>, k: string, now: int): (v: Option<int>)
    ensures v.Some? <==> Alive(counters, k, now)
  {
    if Alive(counters, k, now) then Some(counters[k].value) else None
  }

  /** INCR: a live counter goes up by one and keeps its expiry; a missing or expired one
      restarts at 1 with no expiry. */
  function Incr(counters: map<string, Counter>, k: string, now: int): (c: map<string, Counter>)
    ensures c.Keys == counters.Keys + {k}
    ensures forall j | j in counters && j != k :: c[j] == counters[j]
    ensures Alive(counters, k, now) ==> c[k] == Counter(counters[k].value + 1, counters[k].expiresAt)
    ensures !Alive(counters, k, now) ==> c[k] == Counter(1, None)
  {
    if Alive(counters, k, now) then counters[k := Counter(counters[k].value + 1, counters[k].expiresAt)]
    else counters[k := Counter(1, None)]
  }

  /** EXPIRE: a live counter expires `seconds` from now (at once if seconds <= 0). */
  function Expire(counters: map<string, Counter>, k: string, seconds: int, now: int): (c: map<string, Counter>)
    ensures c.Keys == counters.Keys
    ensures forall j | j in counters && j != k :: c[j] == counters[j]
    ensures Alive(counters, k, now) ==> c[k] == Counter(counters[k].value, Some(now + seconds * 1000))
    ensures !Alive(counters, k, now) ==> c == counters
  {
    if Alive(counters, k, now) then counters[k := Counter(counters[k].value, Some(now + seconds * 1000))]
    else counters
  }

  /** SET with EX: the counter holds `value` and expires `seconds` from now. */
  function SetEx(counters: map<string, Counter>, k: string, value: int, seconds: int, now: int): (c: map<string, Counter>)
    ensures c.Keys == counters.Keys + {k}
    ensures forall j | j in counters && j != k :: c[j] == counters[j]
    ensures c[k] == Counter(value, Some(now + seconds * 1000))
  {
    counters[k := Counter(value, Some(now + seconds * 1000))]
  }

  /** The companion key the shared limiter reads its retry hint from. */
  function TtlKey(fk: string): string {
    fk + ":ttl"
  }

  /** One shared-mode `checkLimit`: increment; when the counter has just started, make
      it expire after the window rounded up to seconds; reject iff the new value exceeds
      the limit, taking the wait from the TTL key when present, else the whole window. */
  function SharedCheck(cfg: LimitConfig, counters: map<string, Counter>, fk: string, now: int): (s: Step<map<string, Counter>>)
    ensures s.store.Keys == counters.Keys + {fk}
    ensures forall k | k in counters && k != fk :: s.store[k] == counters[k]
    ensures var n := (if Alive(counters, fk, now) then counters[fk].value else 0) + 1;
      && s.store[fk].value == n
      && (s.verdict.Fail? <==> n > cfg.maxRequests)
      && (n == 1 ==> s.store[fk].expiresAt == Some(now + CeilSeconds(cfg.windowMs) * 1000))
      && (n != 1 ==> s.store[fk].expiresAt == counters[fk].expiresAt)
    ensures s.verdict.Fail? ==>
      var retryAfter := Get(s.store, TtlKey(fk), now).GetOr(CeilSeconds(cfg.windowMs));
      s.verdict.error == Mpesa(RateLimitError(RejectMessage(retryAfter), Some(retryAfter),
                                              LimitInfo(cfg.maxRequests, cfg.windowMs, None)))
  {
    var c1 := Incr(counters, fk, now);
    var count := c1[fk].value;
    var c2 := if count == 1 then Expire(c1, fk, CeilSeconds(cfg.windowMs), now) else c1;
    if count > cfg.maxRequests then
      var ttl := Get(c2, TtlKey(fk), now);
      var retryAfter := if ttl.Some? then ttl.value else CeilSeconds(cfg.windowMs);
      Step(Fail(Mpesa(RateLimitError(RejectMessage(retryAfter), Some(retryAfter),
                                     LimitInfo(cfg.maxRequests, cfg.windowMs, None)))), c2)
    else
      Step(Pass, c2)
  }

  /** Shared-mode `reset`: `SET key 0 EX 0`, a counter that has already expired. */
  function SharedReset(counters: map<string, Counter>, fk: string, now: int): map<string, Counter> {
    SetEx(counters, fk, 0, 0, now)
  }

  /** After a shared-mode reset, the key's next check admits (for a positive limit). */
  lemma SharedResetReopens(cfg: LimitConfig, counters: map<string, Counter>, fk: string, now: int, t: int)
    requires cfg.maxRequests >= 1 && now <= t
    ensures SharedCheck(cfg, SharedReset(counters, fk, now), fk, t).verdict.Pass?
  {
    assert !Alive(SharedReset(counters, fk, now), fk, t);
  }

  // ---------------------------------------------------------------------------
  // The two modes agree

  /** Admit decisions of the in-memory limiter for a sequence of (key, time) calls. */
  function RunLocalTrace(cfg: LimitConfig, store: map<string, Entry>, calls: seq<(string, int)>): (d: seq<bool>)
    ensures |d| == |calls|
    decreases |calls|
  {
    if calls == [] then []
    else
      var s := LocalCheck(cfg, store, FullKey(cfg.keyPrefix, calls[0].0), calls[0].1);
      [s.verdict.Pass?] + RunLocalTrace(cfg, s.store, calls[1..])
  }

  /** Admit decisions of the shared limiter for the same calls. */
  function RunSharedTrace(cfg: LimitConfig, counters: map<string, Counter>, calls: seq<(string, int)>): (d: seq<bool>)
    ensures |d| == |calls|
    decreases |calls|
  {
    if calls == [] then []
    else
      var s := SharedCheck(cfg, counters, FullKey(cfg.keyPrefix, calls[0].0), calls[0].1);
      [s.verdict.Pass?] + RunSharedTrace(cfg, s.store, calls[1..])
  }

  /** How a window map and a counter store correspond: same keys, a counter expires when
      its window ends, and a window's count is its counter capped at the limit. */
  predicate Corresponds(cfg: LimitConfig, store: map<string, Entry>, counters: map<string, Counter>) {
    && store.Keys == counters.Keys
    && forall k | k in store ::
         && counters[k].expiresAt == Some(store[k].resetAt)
         && counters[k].value >= 1
         && store[k].count == Min(counters[k].value, cfg.maxRequests)
  }

  lemma WholeSeconds(w: int)
    requires w % 1000 == 0
    ensures CeilSeconds(w) * 1000 == w
  {
    var q := w / 1000;
    assert w == 1000 * q;
    assert (w + 999) / 1000 == q;
  }

  lemma CorrespondingStep(cfg: LimitConfig, store: map<string, Entry>, counters: map<string, Counter>, fk: string, now: int)
    requires cfg.maxRequests >= 1 && cfg.windowMs % 1000 == 0
    requires Corresponds(cfg, store, counters)
    ensures LocalCheck(cfg, store, fk, now).verdict.Pass? == SharedCheck(cfg, counters, fk, now).verdict.Pass?
    ensures Corresponds(cfg, LocalCheck(cfg, store, fk, now).store, SharedCheck(cfg, counters, fk, now).store)
  {
    WholeSeconds(cfg.windowMs);
    assert Live(store, fk, now) <==> Alive(counters, fk, now);
  }

  lemma {:induction false} CorrespondingRuns(cfg: LimitConfig, store: map<string, Entry>, counters: map<string, Counter>, calls: seq<(string, int)>)
    requires cfg.maxRequests >= 1 && cfg.windowMs % 1000 == 0
    requires Corresponds(cfg, store, counters)
    ensures RunLocalTrace(cfg, store, calls) == RunSharedTrace(cfg, counters, calls)
    decreases |calls|
  {
    if calls != [] {
      var fk := FullKey(cfg.keyPrefix, calls[0].0);
      CorrespondingStep(cfg, store, counters, fk, calls[0].1);
      CorrespondingRuns(cfg, LocalCheck(cfg, store, fk, calls[0].1).store,
                        SharedCheck(cfg, counters, fk, calls[0].1).store, calls[1..]);
    }
  }

  /** Starting from empty stores, the two limiters admit and reject the same calls of any
      single-process call sequence, provided the limit is positive and the window is a
      whole number of seconds. */
  lemma LimitersAgree(cfg: LimitConfig, calls: seq<(string, int)>)
    requires cfg.maxRequests >= 1 && cfg.windowMs % 1000 == 0
    ensures RunLocalTrace(cfg, map[], calls) == RunSharedTrace(cfg, map[], calls)
  {
    CorrespondingRuns(cfg, map[], map[], calls);
  }

  /** Without a positive limit the modes differ: the in-memory limiter admits the first
      call of every window, the shared one rejects it. */
  lemma ZeroLimitDisagrees()
    ensures RunLocalTrace(LimitConfig(0, 60000, "mpesa"), map[], [("k", 0)]) == [true]
    ensures RunSharedTrace(LimitConfig(0, 60000, "mpesa"), map[], [("k", 0)]) == [false]
  {
  }

  /** With a window that is not a whole number of seconds the modes differ: the shared
      counter lives until the window rounded up to seconds has passed. */
  lemma FractionalWindowDisagrees()
    ensures RunLocalTrace(LimitConfig(1, 1500, "mpesa"), map[], [("k", 0), ("k", 1500)]) == [true, true]
    ensures RunSharedTrace(LimitConfig(1, 1500, "mpesa"), map[], [("k", 0), ("k", 1500)]) == [true, false]
  {
  }
}
