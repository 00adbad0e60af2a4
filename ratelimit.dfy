/** `ratelimit.py`: a fixed-window request counter per API key and a daily
    request counter. */
module RateLimit {
  import opened Common
  import opened KeyValueStore

  function RateKey(apiKey: string): string { "ratelimit:" + apiKey }

  function UsageKey(apiKey: string, date: string): string { "usage:" + apiKey + ":" + date }

  /** How `check_rate_limit` ends: a new window opened, the request counted
      in the current window, HTTP 429, or an exception from the store or
      from `int()`. */
  datatype Verdict = Created | Counted | Rejected | Failed(error: Error)
  {
    predicate Admitted() { Created? || Counted? }
  }

  /** The decision `check_rate_limit` takes from the counter slot it reads:
      a missing (or empty) value opens a window, a count at or above the
      limit rejects, anything lower is counted. */
  function Decide(current: Option<Value>, maxRequests: int, windowSeconds: int): Verdict
  {
    match current
    case None => Open(windowSeconds)
    case Some(Plain(s)) => if s == "" then Open(windowSeconds) else Failed(NotAnInteger)
    case Some(Int(n)) => if n >= maxRequests then Rejected else Counted
    case Some(List(_)) => Failed(WrongType)
    case Some(Hash(_)) => Failed(WrongType)
    case Some(_) => Failed(NotAnInteger)
  }

  /** `SET key 1 EX window` succeeds only for a positive window. */
  function Open(windowSeconds: int): Verdict
  {
    if windowSeconds > 0 then Created else Failed(InvalidExpireTime)
  }

  /** The counter slot after one call. */
  function Step(current: Option<Value>, maxRequests: int, windowSeconds: int): Option<Value>
  {
    match Decide(current, maxRequests, windowSeconds)
    case Created => Some(Int(1))
    case Counted => Some(Int(current.value.n + 1))
    case _ => current
  }

  /** `check_rate_limit(api_key, max_requests, window_seconds)` against the
      store `r`. Only `ratelimit:{api_key}` is written. */
  method CheckRateLimit(r: Store, apiKey: string, maxRequests: int, windowSeconds: int) returns (v: Verdict)
    requires r.Valid()
    modifies r
    ensures r.Valid() && r.now == old(r.now)
    ensures v == Decide(Lookup(old(r.data), RateKey(apiKey)), maxRequests, windowSeconds)
    ensures v == Created ==>
      r.data == old(r.data)[RateKey(apiKey) := Int(1)] &&
      r.expiry == old(r.expiry)[RateKey(apiKey) := old(r.now) + windowSeconds]
    ensures v == Counted ==>
      r.data == old(r.data)[RateKey(apiKey) := Int(old(r.data)[RateKey(apiKey)].n + 1)] &&
      r.expiry == old(r.expiry)
    ensures !v.Admitted() ==> r.data == old(r.data) && r.expiry == old(r.expiry)
    ensures Lookup(r.data, RateKey(apiKey)) == Step(Lookup(old(r.data), RateKey(apiKey)), maxRequests, windowSeconds)
  {
    var key := RateKey(apiKey);
    var current := r.Read(key);
    if current.Err? {
      return Failed(current.error);
    }
    var present := current.value.Some? && current.value.value != Plain("");
    if present {
      match current.value.value
      case Int(n) =>
        if n >= maxRequests {
          return Rejected;
        }
      case _ =>
        return Failed(NotAnInteger);
    }
    if !present {
      var put := r.PutEx(key, windowSeconds, Int(1));
      if put.Err? {
        return Failed(put.error);
      }
      v := Created;
    } else {
      var _ := r.IncrBy(key, 1);
      v := Counted;
    }
  }

  /** `track_usage(api_key)` for the day `date` (the source formats the
      wall clock as YYYY-MM-DD): adds one to `usage:{api_key}:{date}`. */
  method TrackUsage(r: Store, apiKey: string, date: string) returns (count: Result<int>)
    requires r.Valid()
    modifies r
    ensures r.Valid() && r.now == old(r.now) && r.expiry == old(r.expiry)
    ensures UsageKey(apiKey, date) !in old(r.data) ==>
      count == Ok(1) && r.data == old(r.data)[UsageKey(apiKey, date) := Int(1)]
    ensures UsageKey(apiKey, date) in old(r.data) && old(r.data)[UsageKey(apiKey, date)].Int? ==>
      var n := old(r.data)[UsageKey(apiKey, date)].n;
      count == Ok(n + 1) && r.data == old(r.data)[UsageKey(apiKey, date) := Int(n + 1)]
    ensures UsageKey(apiKey, date) in old(r.data) && !old(r.data)[UsageKey(apiKey, date)].Int? ==>
      count.Err? && r.data == old(r.data)
  {
    count := r.IncrBy(UsageKey(apiKey, date), 1);
  }

  // ---------------------------------------------------------------------
  // Sequences of calls within one window

  /** The verdicts of `k` consecutive calls starting from slot `current`,
      with no expiry in between. */
  function Run(current: Option<Value>, maxRequests: int, windowSeconds: int, k: nat): (vs: seq<Verdict>)
    ensures |vs| == k
    decreases k
  {
    if k == 0 then []
    else [Decide(current, maxRequests, windowSeconds)] + Run(Step(current, maxRequests, windowSeconds), maxRequests, windowSeconds, k - 1)
  }

  /** The counter slot after `k` consecutive calls. */
  function After(current: Option<Value>, maxRequests: int, windowSeconds: int, k: nat): Option<Value>
    decreases k
  {
    if k == 0 then current else After(Step(current, maxRequests, windowSeconds), maxRequests, windowSeconds, k - 1)
  }

  /** From a count of `j` below the limit, the next `k` calls are counted as
      long as they stay within the limit. */
  lemma {:induction false} CountedWhileBelowLimit(j: int, maxRequests: int, windowSeconds: int, k: nat)
    requires j + k <= maxRequests
    ensures forall i :: 0 <= i < k ==> Run(Some(Int(j)), maxRequests, windowSeconds, k)[i] == Counted
    ensures After(Some(Int(j)), maxRequests, windowSeconds, k) == Some(Int(j + k))
    decreases k
  {
    if k > 0 {
      CountedWhileBelowLimit(j + 1, maxRequests, windowSeconds, k - 1);
    }
  }

  /** With no counter and a limit of at least one, calls 1..max_requests are
      admitted and call max_requests + 1 is rejected. */
  lemma WindowAdmitsExactlyMax(maxRequests: int, windowSeconds: int)
    requires maxRequests >= 1 && windowSeconds > 0
    ensures var vs := Run(None, maxRequests, windowSeconds, maxRequests + 1);
      (forall i :: 0 <= i < maxRequests ==> vs[i].Admitted()) && vs[maxRequests] == Rejected
  {
    var vs := Run(None, maxRequests, windowSeconds, maxRequests + 1);
    var tail := Run(Some(Int(1)), maxRequests, windowSeconds, maxRequests);
    assert vs == [Created] + tail;
    CountedWhileBelowLimit(1, maxRequests, windowSeconds, maxRequests - 1);
    var front := Run(Some(Int(1)), maxRequests, windowSeconds, maxRequests - 1);
    RunSplit(Some(Int(1)), maxRequests, windowSeconds, maxRequests - 1);
    assert tail == front + [Decide(Some(Int(maxRequests)), maxRequests, windowSeconds)];
  }

  /** One more call appends the verdict taken on the slot left by the others. */
  lemma {:induction false} RunSplit(current: Option<Value>, maxRequests: int, windowSeconds: int, k: nat)
    ensures Run(current, maxRequests, windowSeconds, k + 1) ==
      Run(current, maxRequests, windowSeconds, k) + [Decide(After(current, maxRequests, windowSeconds, k), maxRequests, windowSeconds)]
    decreases k
  {
    if k > 0 {
      RunSplit(Step(current, maxRequests, windowSeconds), maxRequests, windowSeconds, k - 1);
    }
  }

  function Max(a: int, b: int): int { if a >= b then a else b }

  /** The slot holds no counter, or one no larger than max(max_requests, 1). */
  predicate WithinLimit(current: Option<Value>, maxRequests: int)
  {
    current.Some? && current.value.Int? ==> current.value.n <= Max(maxRequests, 1)
  }

  /** Under sequential calls with a fixed limit the count never exceeds
      max(max_requests, 1). */
  lemma {:induction false} CountNeverExceedsLimit(current: Option<Value>, maxRequests: int, windowSeconds: int, k: nat)
    requires WithinLimit(current, maxRequests)
    ensures WithinLimit(After(current, maxRequests, windowSeconds, k), maxRequests)
    decreases k
  {
    if k > 0 {
      CountNeverExceedsLimit(Step(current, maxRequests, windowSeconds), maxRequests, windowSeconds, k - 1);
    }
  }

  /** Once the window's expiry instant is reached the counter is gone, so
      the next call opens a new window with count 1. */
  lemma ExpiredWindowRestarts(data: map<string, Value>, expiry: map<string, int>, t: int,
                              apiKey: string, maxRequests: int, windowSeconds: int)
    requires RateKey(apiKey) in expiry && expiry[RateKey(apiKey)] <= t && windowSeconds > 0
    ensures Decide(Lookup(Purge(data, expiry, t), RateKey(apiKey)), maxRequests, windowSeconds) == Created
    ensures Step(Lookup(Purge(data, expiry, t), RateKey(apiKey)), maxRequests, windowSeconds) == Some(Int(1))
  {
  }

  /** Distinct API keys use distinct counters. */
  lemma RateKeysDistinct(a: string, b: string)
    requires a != b
    ensures RateKey(a) != RateKey(b)
  {
    assert RateKey(a)[10..] == a && RateKey(b)[10..] == b;
  }
}
