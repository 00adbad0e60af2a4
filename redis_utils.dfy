/** `app/redis_utils.py`: session timestamps, token accounting, feedback
    votes, the chat log, personas and per-client configuration, each a
    short sequence of commands against the store. */
module RedisUtils {
  import opened Common
  import opened Text
  import opened KeyValueStore
  import opened ClientConfig

  // ---------------------------------------------------------------------
  // Keys

  function LastSeenKey(clientId: string, chatId: string): string { "ls:" + clientId + ":" + chatId }
  function PersonaKey(clientId: string): string { "persona:" + clientId }
  function ChatKey(clientId: string, sessionId: string): string { "chat:" + clientId + ":" + sessionId }
  function FeedbackKey(clientId: string, messageId: string): string { "feedback:" + clientId + ":" + messageId }
  const ConfigPrefix: string := "client_config:"
  function ConfigKey(clientId: string): string { ConfigPrefix + clientId }

  // ---------------------------------------------------------------------
  // JSON as the code sees it

  /** Python truthiness of a decoded scalar. */
  function Truthy(f: Field): bool
  {
    match f
    case FStr(s) => s != ""
    case FInt(n) => n != 0
    case FBool(b) => b
    case FNull => false
    case FOther(t) => t
  }

  /** `json.loads` of a stored string: None when it raises JSONDecodeError
      (plain text and ISO timestamps are not JSON). */
  function Loads(v: Value): Option<Doc>
  {
    match v
    case Int(n) => Some(Scalar(IntToString(n), FInt(n)))
    case Json(d) => Some(d)
    case _ => None
  }

  // ---------------------------------------------------------------------
  // Client configuration

  /** `get_client_config`'s choice: the decoded stored config, else (absent
      or undecodable) the static entry. */
  function ConfigOf(raw: Result<Option<Value>>, clientId: string): Result<Option<Doc>>
  {
    match raw
    case Err(e) => Err(e)
    case Ok(None) => Ok(StaticDoc(clientId))
    case Ok(Some(v)) => if Loads(v).Some? then Ok(Loads(v)) else Ok(StaticDoc(clientId))
  }

  /** `get_client_config(client_id)`. */
  method GetClientConfig(r: Store, clientId: string) returns (cfg: Result<Option<Doc>>)
    ensures cfg == ConfigOf(Get(r.data, ConfigKey(clientId)), clientId)
  {
    var raw := r.Read(ConfigKey(clientId));
    cfg := ConfigOf(raw, clientId);
  }

  /** `set_client_config(client_id, config)`. */
  method SetClientConfig(r: Store, clientId: string, config: map<string, Field>)
    requires r.Valid()
    modifies r
    ensures r.Valid() && r.now == old(r.now)
    ensures r.data == old(r.data)[ConfigKey(clientId) := Json(Object(config))]
    ensures r.expiry == old(r.expiry) - {ConfigKey(clientId)}
  {
    r.Put(ConfigKey(clientId), Json(Object(config)));
  }

  /** A stored config wins over the static table; without one, or with an
      undecodable one, the static entry is returned. */
  lemma ConfigLookup(data: map<string, Value>, clientId: string, config: map<string, Field>, text: string)
    ensures ConfigOf(Get(data[ConfigKey(clientId) := Json(Object(config))], ConfigKey(clientId)), clientId) == Ok(Some(Object(config)))
    ensures ConfigOf(Get(data - {ConfigKey(clientId)}, ConfigKey(clientId)), clientId) == Ok(StaticDoc(clientId))
    ensures ConfigOf(Get(data[ConfigKey(clientId) := Plain(text)], ConfigKey(clientId)), clientId) == Ok(StaticDoc(clientId))
  {
  }

  // ---------------------------------------------------------------------
  // Session timeout

  /** DEFAULT_SESSION_TIMEOUT, in minutes. */
  const DefaultSessionTimeout: int := 30

  /** Python's `int(x)` on a decoded JSON value; None for TypeError and
      ValueError. */
  function IntOf(f: Field): Option<int>
  {
    match f
    case FInt(n) => Some(n)
    case FBool(b) => Some(if b then 1 else 0)
    case FStr(s) => ParseInt(s)
    case _ => None
  }

  /** `timedelta(minutes=m)` exists: its day count, `m // 1440` (Dafny's
      `/` floors for a positive divisor, as Python's `//` does), lies within
      +-999999999. */
  predicate TimedeltaMinutes(m: int)
  {
    -999999999 <= m / 1440 <= 999999999
  }

  /** `get_session_timeout` given the client's config: the configured
      `session_timeout_minutes` when present and integer-convertible, and
      the 30-minute default otherwise, also without a config. Minutes
      beyond timedelta's range raise OverflowError, which nothing catches. */
  function SessionTimeoutMinutes(cfg: Option<Doc>): (r: Result<int>)
    ensures cfg.None? ==> r == Ok(DefaultSessionTimeout)
    ensures cfg.Some? && cfg.value.Object? ==>
      var f := cfg.value.fields;
      r == if "session_timeout_minutes" in f && IntOf(f["session_timeout_minutes"]).Some?
           then (var m := IntOf(f["session_timeout_minutes"]).value;
                 if TimedeltaMinutes(m) then Ok(m) else Err(Overflow))
           else Ok(DefaultSessionTimeout)
    ensures cfg.Some? && cfg.value.Scalar? ==>
      (r.Err? <==> Truthy(cfg.value.value)) && (r.Ok? ==> r.value == DefaultSessionTimeout)
  {
    match cfg
    case None => Ok(DefaultSessionTimeout)
    case Some(Object(f)) =>
      if "session_timeout_minutes" in f && f["session_timeout_minutes"] != FNull then
        match IntOf(f["session_timeout_minutes"])
        case Some(m) => if TimedeltaMinutes(m) then Ok(m) else Err(Overflow)
        case None => Ok(DefaultSessionTimeout)
      else Ok(DefaultSessionTimeout)
    case Some(Scalar(_, v)) =>
      // a truthy non-object config fails at `cfg.get`
      if Truthy(v) then Err(NotAnObject) else Ok(DefaultSessionTimeout)
  }

  /** The bounds of timedelta's range, in minutes: 999999999 days and
      1439 minutes up, exactly 999999999 days down. */
  lemma TimedeltaRange()
    ensures TimedeltaMinutes(1439999999999) && !TimedeltaMinutes(1440000000000)
    ensures TimedeltaMinutes(-1439999998560) && !TimedeltaMinutes(-1439999998561)
  {
  }

  /** Minutes configured as the decimal string of `m` are read back as `m`,
      or raise OverflowError beyond timedelta's range. */
  lemma ConfiguredTimeoutReadBack(m: int, others: map<string, Field>)
    ensures SessionTimeoutMinutes(Some(Object(others["session_timeout_minutes" := FStr(IntToString(m))]))) ==
      if TimedeltaMinutes(m) then Ok(m) else Err(Overflow)
  {
    ParseIntOfString(m);
  }

  /** The session timeout of `clientId` as the store determines it. */
  function TimeoutFor(data: map<string, Value>, clientId: string): Result<int>
  {
    match ConfigOf(Get(data, ConfigKey(clientId)), clientId)
    case Err(e) => Err(e)
    case Ok(cfg) => SessionTimeoutMinutes(cfg)
  }

  /** `get_session_timeout(client_id)`, in minutes. */
  method GetSessionTimeout(r: Store, clientId: string) returns (minutes: Result<int>)
    ensures minutes == TimeoutFor(r.data, clientId)
  {
    var cfg := GetClientConfig(r, clientId);
    if cfg.Err? {
      return Err(cfg.error);
    }
    minutes := SessionTimeoutMinutes(cfg.value);
  }

  // ---------------------------------------------------------------------
  // Last seen

  /** `get_last_seen` given what GET answered: a stored timestamp, or None
      when the key is absent (or empty). */
  function LastSeenOf(raw: Result<Option<Value>>): Result<Option<int>>
  {
    match raw
    case Err(e) => Err(e)
    case Ok(None) => Ok(None)
    case Ok(Some(Instant(t))) => Ok(Some(t))
    case Ok(Some(Plain(s))) => if s == "" then Ok(None) else Err(Undecodable)
    case Ok(Some(_)) => Err(Undecodable)
  }

  /** `get_last_seen(client_id, chat_id)`. */
  method GetLastSeen(r: Store, clientId: string, chatId: string) returns (seen: Result<Option<int>>)
    ensures seen == LastSeenOf(Get(r.data, LastSeenKey(clientId, chatId)))
  {
    var raw := r.Read(LastSeenKey(clientId, chatId));
    seen := LastSeenOf(raw);
  }

  /** `set_last_seen(client_id, chat_id, when)`: SETEX with the client's
      session timeout in seconds. */
  method SetLastSeen(r: Store, clientId: string, chatId: string, when: int) returns (res: Result<()>)
    requires r.Valid()
    modifies r
    ensures r.Valid() && r.now == old(r.now)
    ensures var t := TimeoutFor(old(r.data), clientId);
      if t.Ok? && t.value * 60 > 0 then
        res.Ok? &&
        r.data == old(r.data)[LastSeenKey(clientId, chatId) := Instant(when)] &&
        r.expiry == old(r.expiry)[LastSeenKey(clientId, chatId) := old(r.now) + t.value * 60]
      else
        res.Err? && r.data == old(r.data) && r.expiry == old(r.expiry)
  {
    var minutes := GetSessionTimeout(r, clientId);
    if minutes.Err? {
      return Err(minutes.error);
    }
    res := r.PutEx(LastSeenKey(clientId, chatId), minutes.value * 60, Instant(when));
  }

  /** After `set_last_seen` at instant `now` with a positive TTL, the
      timestamp reads back until the TTL elapses and is absent from then on. */
  lemma LastSeenUntilTimeout(data: map<string, Value>, expiry: map<string, int>, key: string,
                             when: int, now: int, ttl: int, t: int)
    requires ttl > 0
    ensures var d := Purge(data[key := Instant(when)], expiry[key := now + ttl], t);
      LastSeenOf(Get(d, key)) == if t < now + ttl then Ok(Some(when)) else Ok(None)
  {
  }

  // ---------------------------------------------------------------------
  // Token accounting

  function TokenPrefix(apiKey: string): string { "token_usage:" + apiKey + ":" }
  function TotalKey(apiKey: string): string { TokenPrefix(apiKey) + "total" }
  function DailyKey(apiKey: string, today: string): string { TokenPrefix(apiKey) + "daily:" + today }
  function MonthlyKey(apiKey: string, month: string): string { TokenPrefix(apiKey) + "monthly:" + month }
  function ModelPrefix(apiKey: string): string { TokenPrefix(apiKey) + "model:" }
  function ModelKey(apiKey: string, model: string): string { ModelPrefix(apiKey) + model }

  /** Expiries `increment_token_usage` sets on the daily and monthly keys. */
  const DailyTtl: int := Day * 31
  const MonthlyTtl: int := Day * 365

  /** The four counters of one call never share a key, and per-model keys
      of different models differ. */
  lemma TokenKeysDistinct(apiKey: string, today: string, month: string, model: string, other: string)
    ensures TotalKey(apiKey) != DailyKey(apiKey, today)
    ensures TotalKey(apiKey) != MonthlyKey(apiKey, month)
    ensures TotalKey(apiKey) != ModelKey(apiKey, model)
    ensures DailyKey(apiKey, today) != MonthlyKey(apiKey, month)
    ensures DailyKey(apiKey, today) != ModelKey(apiKey, model)
    ensures MonthlyKey(apiKey, month) != ModelKey(apiKey, model)
    ensures model != other ==> ModelKey(apiKey, model) != ModelKey(apiKey, other)
    ensures ModelKey(apiKey, other) != TotalKey(apiKey)
    ensures ModelKey(apiKey, other) != DailyKey(apiKey, today)
    ensures ModelKey(apiKey, other) != MonthlyKey(apiKey, month)
  {
    var p := TokenPrefix(apiKey);
    var n := |p|;
    assert TotalKey(apiKey)[n] == 't';
    assert DailyKey(apiKey, today)[n] == 'd';
    assert MonthlyKey(apiKey, month)[n + 2] == 'n';
    assert ModelKey(apiKey, model)[n] == 'm' && ModelKey(apiKey, model)[n + 2] == 'd';
    assert ModelKey(apiKey, other)[n] == 'm' && ModelKey(apiKey, other)[n + 2] == 'd';
    if model != other {
      assert ModelKey(apiKey, model)[|ModelPrefix(apiKey)|..] == model;
      assert ModelKey(apiKey, other)[|ModelPrefix(apiKey)|..] == other;
    }
  }

  /** INCRBY's view of a key: an absent key counts as 0. */
  function CountOf(data: map<string, Value>, key: string): int
  {
    if key in data && data[key].Int? then data[key].n else 0
  }

  /** INCRBY on `key` succeeds: the key is absent or holds a counter. */
  predicate IsCounter(data: map<string, Value>, key: string)
  {
    key !in data || data[key].Int?
  }

  predicate TokenCountersOk(data: map<string, Value>, apiKey: string, today: string, month: string, model: string)
  {
    IsCounter(data, TotalKey(apiKey)) && IsCounter(data, DailyKey(apiKey, today)) &&
    IsCounter(data, MonthlyKey(apiKey, month)) && IsCounter(data, ModelKey(apiKey, model))
  }

  /** `amount` added to the counter at `key`. */
  function Bump(data: map<string, Value>, key: string, amount: int): map<string, Value>
  {
    data[key := Int(CountOf(data, key) + amount)]
  }

  /** The data after `tokens` are added to the four counters. */
  function AddTokens(data: map<string, Value>, apiKey: string, tokens: int, today: string, month: string, model: string): map<string, Value>
  {
    Bump(Bump(Bump(Bump(data, TotalKey(apiKey), tokens), DailyKey(apiKey, today), tokens),
              MonthlyKey(apiKey, month), tokens), ModelKey(apiKey, model), tokens)
  }

  /** One INCRBY, in terms of `Bump`. */
  method Increment(r: Store, key: string, amount: int) returns (res: Result<int>)
    requires r.Valid()
    modifies r
    ensures r.Valid() && r.now == old(r.now) && r.expiry == old(r.expiry)
    ensures res.Ok? <==> IsCounter(old(r.data), key)
    ensures res.Ok? ==> res.value == CountOf(old(r.data), key) + amount && r.data == Bump(old(r.data), key, amount)
    ensures res.Err? ==> r.data == old(r.data)
  {
    res := r.IncrBy(key, amount);
  }

  /** The four INCRBYs of `increment_token_usage`, in order; a counter
      holding another kind of value stops the sequence with an error. */
  method IncrementCounters(r: Store, apiKey: string, tokens: int, model: string, today: string, month: string)
    returns (res: Result<()>)
    requires r.Valid()
    modifies r
    ensures r.Valid() && r.now == old(r.now) && r.expiry == old(r.expiry)
    ensures res.Ok? <==> TokenCountersOk(old(r.data), apiKey, today, month, model)
    ensures res.Ok? ==> r.data == AddTokens(old(r.data), apiKey, tokens, today, month, model)
    ensures res.Err? ==>
      forall k :: k != TotalKey(apiKey) && k != DailyKey(apiKey, today) &&
                  k != MonthlyKey(apiKey, month) && k != ModelKey(apiKey, model) ==>
        Lookup(r.data, k) == Lookup(old(r.data), k)
  {
    TokenKeysDistinct(apiKey, today, month, model, model);
    var total, daily, monthly, perModel := TotalKey(apiKey), DailyKey(apiKey, today), MonthlyKey(apiKey, month), ModelKey(apiKey, model);
    ghost var d0 := r.data;
    var step := Increment(r, total, tokens);
    if step.Err? {
      return Err(step.error);
    }
    ghost var d1 := r.data;
    step := Increment(r, daily, tokens);
    if step.Err? {
      assert IsCounter(d1, daily) <==> IsCounter(d0, daily);
      return Err(step.error);
    }
    ghost var d2 := r.data;
    step := Increment(r, monthly, tokens);
    if step.Err? {
      assert IsCounter(d2, monthly) <==> IsCounter(d0, monthly);
      return Err(step.error);
    }
    ghost var d3 := r.data;
    step := Increment(r, perModel, tokens);
    if step.Err? {
      assert IsCounter(d3, perModel) <==> IsCounter(d0, perModel);
      return Err(step.error);
    }
    assert IsCounter(d1, daily) && IsCounter(d2, monthly) && IsCounter(d3, perModel);
    res := Ok(());
  }

  /** `increment_token_usage(api_key, token_count, model)` on day `today`
      and month `month`: four INCRBYs, then the daily key's expiry is set to
      31 days and the monthly key's to 365 days. A counter holding another
      kind of value stops the sequence with an error; no expiry is set then. */
  method IncrementTokenUsage(r: Store, apiKey: string, tokens: int, model: string, today: string, month: string)
    returns (res: Result<()>)
    requires r.Valid()
    modifies r
    ensures r.Valid() && r.now == old(r.now)
    ensures TokenCountersOk(old(r.data), apiKey, today, month, model) ==>
      res.Ok? &&
      r.data == AddTokens(old(r.data), apiKey, tokens, today, month, model) &&
      r.expiry == old(r.expiry)[DailyKey(apiKey, today) := old(r.now) + DailyTtl]
                               [MonthlyKey(apiKey, month) := old(r.now) + MonthlyTtl]
    ensures !TokenCountersOk(old(r.data), apiKey, today, month, model) ==>
      res.Err? && r.expiry == old(r.expiry) &&
      forall k :: k != TotalKey(apiKey) && k != DailyKey(apiKey, today) &&
                  k != MonthlyKey(apiKey, month) && k != ModelKey(apiKey, model) ==>
        Lookup(r.data, k) == Lookup(old(r.data), k)
  {
    res := IncrementCounters(r, apiKey, tokens, model, today, month);
    if res.Ok? {
      assert DailyKey(apiKey, today) in r.data && MonthlyKey(apiKey, month) in r.data;
      var _ := r.Expire(DailyKey(apiKey, today), DailyTtl);
      var _ := r.Expire(MonthlyKey(apiKey, month), MonthlyTtl);
    }
  }

  /** Adding tokens raises each of the four counters by `tokens` and
      leaves every other key as it was. */
  lemma AddTokensEffect(data: map<string, Value>, apiKey: string, tokens: int, today: string, month: string, model: string)
    ensures var d := AddTokens(data, apiKey, tokens, today, month, model);
      CountOf(d, TotalKey(apiKey)) == CountOf(data, TotalKey(apiKey)) + tokens &&
      CountOf(d, DailyKey(apiKey, today)) == CountOf(data, DailyKey(apiKey, today)) + tokens &&
      CountOf(d, MonthlyKey(apiKey, month)) == CountOf(data, MonthlyKey(apiKey, month)) + tokens &&
      CountOf(d, ModelKey(apiKey, model)) == CountOf(data, ModelKey(apiKey, model)) + tokens &&
      forall k :: k != TotalKey(apiKey) && k != DailyKey(apiKey, today) &&
                  k != MonthlyKey(apiKey, month) && k != ModelKey(apiKey, model) ==>
        Lookup(d, k) == Lookup(data, k)
  {
    TokenKeysDistinct(apiKey, today, month, model, model);
  }

  /** Two calls for the same day, month and model add up, and every other
      model's counter is left as it was. */
  lemma TokenUsageAccumulates(data: map<string, Value>, apiKey: string, k1: int, k2: int,
                              today: string, month: string, model: string, other: string)
    requires other != model
    ensures var d := AddTokens(AddTokens(data, apiKey, k1, today, month, model), apiKey, k2, today, month, model);
      CountOf(d, TotalKey(apiKey)) == CountOf(data, TotalKey(apiKey)) + k1 + k2 &&
      CountOf(d, DailyKey(apiKey, today)) == CountOf(data, DailyKey(apiKey, today)) + k1 + k2 &&
      CountOf(d, MonthlyKey(apiKey, month)) == CountOf(data, MonthlyKey(apiKey, month)) + k1 + k2 &&
      CountOf(d, ModelKey(apiKey, model)) == CountOf(data, ModelKey(apiKey, model)) + k1 + k2 &&
      Lookup(d, ModelKey(apiKey, other)) == Lookup(data, ModelKey(apiKey, other))
  {
    TokenKeysDistinct(apiKey, today, month, model, other);
    var d1 := AddTokens(data, apiKey, k1, today, month, model);
    AddTokensEffect(data, apiKey, k1, today, month, model);
    AddTokensEffect(d1, apiKey, k2, today, month, model);
  }

  /** Python `int(await r.get(key) or 0)`. */
  function CounterOf(raw: Result<Option<Value>>): Result<int>
  {
    match raw
    case Err(e) => Err(e)
    case Ok(None) => Ok(0)
    case Ok(Some(Int(n))) => Ok(n)
    case Ok(Some(Plain(s))) => if s == "" then Ok(0) else Err(NotAnInteger)
    case Ok(Some(_)) => Err(NotAnInteger)
  }

  /** The report `get_token_usage` returns. */
  datatype Usage = Usage(total: int, daily: int, monthly: int, perModel: map<string, int>)

  predicate Readable(data: map<string, Value>, key: string)
  {
    CounterOf(Get(data, key)).Ok?
  }

  /** `get_token_usage(api_key)` on day `today` and month `month`. */
  method GetTokenUsage(r: Store, apiKey: string, today: string, month: string) returns (u: Result<Usage>)
    ensures u.Ok? <==>
      Readable(r.data, TotalKey(apiKey)) && Readable(r.data, DailyKey(apiKey, today)) &&
      Readable(r.data, MonthlyKey(apiKey, month)) &&
      forall k :: k in KeysWithPrefix(r.data, ModelPrefix(apiKey)) ==> Readable(r.data, k)
    ensures u.Ok? ==>
      Ok(u.value.total) == CounterOf(Get(r.data, TotalKey(apiKey))) &&
      Ok(u.value.daily) == CounterOf(Get(r.data, DailyKey(apiKey, today))) &&
      Ok(u.value.monthly) == CounterOf(Get(r.data, MonthlyKey(apiKey, month)))
    ensures u.Ok? ==> forall name :: name in u.value.perModel <==> ModelKey(apiKey, name) in r.data
    ensures u.Ok? ==> forall name :: name in u.value.perModel ==>
      Ok(u.value.perModel[name]) == CounterOf(Get(r.data, ModelKey(apiKey, name)))
  {
    var rawTotal := r.Read(TotalKey(apiKey));
    var total := CounterOf(rawTotal);
    if total.Err? {
      return Err(total.error);
    }
    var rawDaily := r.Read(DailyKey(apiKey, today));
    var daily := CounterOf(rawDaily);
    if daily.Err? {
      return Err(daily.error);
    }
    var rawMonthly := r.Read(MonthlyKey(apiKey, month));
    var monthly := CounterOf(rawMonthly);
    if monthly.Err? {
      return Err(monthly.error);
    }
    var prefix := ModelPrefix(apiKey);
    var pending := KeysWithPrefix(r.data, prefix);
    ghost var seen: set<string> := {};
    var perModel: map<string, int> := map[];
    while pending != {}
      invariant pending + seen == KeysWithPrefix(r.data, prefix) && pending !! seen
      invariant forall k :: k in seen ==> Readable(r.data, k)
      invariant forall name :: name in perModel <==> prefix + name in seen
      invariant forall name :: name in perModel ==> Ok(perModel[name]) == CounterOf(Get(r.data, prefix + name))
      decreases pending
    {
      var key :| key in pending;
      var name := key[|prefix|..];
      assert prefix + name == key;
      var raw := r.Read(key);
      var count := CounterOf(raw);
      if count.Err? {
        return Err(count.error);
      }
      perModel := perModel[name := count.value];
      pending := pending - {key};
      seen := seen + {key};
    }
    u := Ok(Usage(total.value, daily.value, monthly.value, perModel));
  }

  /** For an API key without glob characters, the scan at line 129 selects
      exactly the keys under the literal model prefix, which is the
      selection `GetTokenUsage` makes. */
  lemma PlainKeyScansOwnModels(data: map<string, Value>, apiKey: string)
    requires NoGlob(apiKey)
    ensures ScanMatch(data, ModelPrefix(apiKey) + "*") == KeysWithPrefix(data, ModelPrefix(apiKey))
  {
    var prefix := ModelPrefix(apiKey);
    assert prefix == "token_usage:" + apiKey + ":model:";
    assert NoGlob(prefix) by {
      forall k | 0 <= k < |prefix|
        ensures !IsGlobChar(prefix[k])
      {
        if k >= 12 && k < 12 + |apiKey| {
          assert prefix[k] == apiKey[k - 12];
        }
      }
    }
    ScanIsPrefix(data, prefix);
  }

  /** `:model:*` matches `:model:gpt`. */
  lemma ModelTailMatches()
    ensures GlobMatch(":model:*", ":model:gpt")
  {
    assert ":model:gpt" == ":model:" + "gpt" && ":model:*" == ":model:" + "*";
    assert NoGlob(":model:");
    MatchLiteral(":model:", "*", "gpt");
    assert CollapseStars("*") == "*";
  }

  /** `*:model:*` matches `b:model:gpt`: the star takes the "b". */
  lemma StarTailMatches()
    ensures GlobMatch("*:model:*", "b:model:gpt")
  {
    ModelTailMatches();
    assert "b:model:gpt"[1..] == ":model:gpt";
    assert StarMatch(":model:*", ":model:gpt");
    assert StarMatch(":model:*", "b:model:gpt");
    assert CollapseStars("*:model:*") == "*:model:*";
    assert "*:model:*"[1..] == ":model:*";
  }

  /** As written, an API key holding `*` is a pattern: the scan for "a*"
      picks up the model counter of API key "ab", and the code reports it
      under the name "gpt", although no key of "a*" exists. */
  lemma ScanReadsOtherTenant()
    ensures var key := ModelKey("ab", "gpt");
      var data := map[key := Int(7)];
      key in ScanMatch(data, ModelPrefix("a*") + "*") &&
      KeysWithPrefix(data, ModelPrefix("a*")) == {} &&
      key[|ModelPrefix("a*")|..] == "gpt"
  {
    var key := ModelKey("ab", "gpt");
    var lit := "token_usage:a";
    assert key == lit + "b:model:gpt";
    assert ModelPrefix("a*") + "*" == lit + "*:model:*";
    assert NoGlob(lit);
    StarTailMatches();
    MatchLiteral(lit, "*:model:*", "b:model:gpt");
    assert !(ModelPrefix("a*") <= key) by {
      assert key[13] == 'b' && ModelPrefix("a*")[13] == '*';
    }
  }

  // ---------------------------------------------------------------------
  // Feedback votes

  /** The hash of votes on one message as HSETNX sees it. */
  function VotesAt(data: map<string, Value>, key: string): map<string, string>
  {
    if key in data && data[key].Hash? then data[key].fields else map[]
  }

  /** HSETNX's answer: `Ok(true)` when `user` has not voted yet. */
  function VoteOutcome(data: map<string, Value>, key: string, user: string): Result<bool>
  {
    if key in data && !data[key].Hash? then Err(WrongType) else Ok(user !in VotesAt(data, key))
  }

  /** The data after HSETNX: a first vote is recorded, a repeated one is not. */
  function AfterVote(data: map<string, Value>, key: string, user: string, vote: string): map<string, Value>
  {
    if VoteOutcome(data, key, user) == Ok(true) then data[key := Hash(VotesAt(data, key)[user := vote])] else data
  }

  /** `record_feedback_vote(client_id, message_id, user_id, vote)`. */
  method RecordFeedbackVote(r: Store, clientId: string, messageId: string, userId: string, vote: string)
    returns (recorded: Result<bool>)
    requires r.Valid()
    modifies r
    ensures r.Valid() && r.now == old(r.now) && r.expiry == old(r.expiry)
    ensures recorded == VoteOutcome(old(r.data), FeedbackKey(clientId, messageId), userId)
    ensures r.data == AfterVote(old(r.data), FeedbackKey(clientId, messageId), userId, vote)
  {
    recorded := r.HSetNX(FeedbackKey(clientId, messageId), userId, vote);
  }

  /** A user votes once per message: after a recorded vote a second one is
      refused and leaves the first in place, while other users can still
      vote. */
  lemma OneVotePerUser(data: map<string, Value>, key: string, user: string, other: string, v1: string, v2: string)
    requires VoteOutcome(data, key, user) == Ok(true)
    requires other != user
    ensures var once := AfterVote(data, key, user, v1);
      VotesAt(once, key)[user] == v1 &&
      VoteOutcome(once, key, user) == Ok(false) &&
      AfterVote(once, key, user, v2) == once &&
      VoteOutcome(once, key, other) == VoteOutcome(data, key, other)
  {
  }

  // ---------------------------------------------------------------------
  // Chat log

  /** One decoded entry of `chat:{client}:{session}`. */
  datatype ChatEntry = ChatEntry(role: string, content: string)

  function EntryItem(e: ChatEntry): Item { Record(e.role, e.content) }

  /** `[json.loads(entry) for entry in raw_history]`: a raw line that is not
      a record makes `json.loads` raise. */
  function DecodeRecords(items: seq<Item>): (r: Result<seq<ChatEntry>>)
    ensures r.Ok? <==> forall i :: 0 <= i < |items| ==> items[i].Record?
    ensures r.Ok? ==> (|r.value| == |items| &&
      forall i :: 0 <= i < |items| ==> EntryItem(r.value[i]) == items[i])
    ensures r.Err? ==> r.error == Undecodable
  {
    if items == [] then Ok([])
    else match items[0]
      case Line(_) => Err(Undecodable)
      case Record(role, content) =>
        var rest := DecodeRecords(items[1..]);
        if rest.Err? then rest else Ok([ChatEntry(role, content)] + rest.value)
  }

  /** The log held under `key`. */
  function ChatLogOf(data: map<string, Value>, key: string): Result<seq<ChatEntry>>
  {
    if key !in data then Ok([])
    else if data[key].List? then DecodeRecords(data[key].items)
    else Err(WrongType)
  }

  /** `get_chat_history(client_id, session_id)`. */
  method GetChatHistory(r: Store, clientId: string, sessionId: string) returns (log: Result<seq<ChatEntry>>)
    ensures log == ChatLogOf(r.data, ChatKey(clientId, sessionId))
  {
    var items := r.LRange(ChatKey(clientId, sessionId));
    if items.Err? {
      return Err(items.error);
    }
    log := DecodeRecords(items.value);
  }

  /** The data after one entry is appended to the log at `key`. */
  function Appended(data: map<string, Value>, key: string, e: ChatEntry): map<string, Value>
  {
    if key !in data then data[key := List([EntryItem(e)])]
    else if data[key].List? then data[key := List(data[key].items + [EntryItem(e)])]
    else data
  }

  /** `save_chat_message(client_id, session_id, role, content)`. */
  method SaveChatMessage(r: Store, clientId: string, sessionId: string, role: string, content: string)
    returns (res: Result<nat>)
    requires r.Valid()
    modifies r
    ensures r.Valid() && r.now == old(r.now) && r.expiry == old(r.expiry)
    ensures r.data == Appended(old(r.data), ChatKey(clientId, sessionId), ChatEntry(role, content))
    ensures res.Err? <==> ChatKey(clientId, sessionId) in old(r.data) && !old(r.data)[ChatKey(clientId, sessionId)].List?
  {
    res := r.RPush(ChatKey(clientId, sessionId), Record(role, content));
  }

  lemma {:induction false} DecodeRecordsAppend(items: seq<Item>, e: ChatEntry)
    requires DecodeRecords(items).Ok?
    ensures DecodeRecords(items + [EntryItem(e)]) == Ok(DecodeRecords(items).value + [e])
  {
    if items == [] {
      var one := [EntryItem(e)];
      assert items + one == one;
      assert one[1..] == [];
      assert ChatEntry(e.role, e.content) == e;
      assert DecodeRecords(one[1..]) == Ok([]);
      assert [e] + [] == [e];
      assert DecodeRecords(one) == Ok([e]);
      assert DecodeRecords(items) == Ok([]);
      assert DecodeRecords(items).value + [e] == [e];
    } else {
      var longer := items + [EntryItem(e)];
      assert longer[0] == items[0];
      assert longer[1..] == items[1..] + [EntryItem(e)];
      DecodeRecordsAppend(items[1..], e);
      var head := ChatEntry(items[0].role, items[0].content);
      var rest := DecodeRecords(items[1..]).value;
      assert DecodeRecords(items).value == [head] + rest;
      assert DecodeRecords(longer) == Ok([head] + (rest + [e]));
      assert [head] + (rest + [e]) == ([head] + rest) + [e];
    }
  }

  /** Saving an entry and reading the log back gives the old log followed
      by that entry. */
  lemma {:induction false} ChatLogRoundTrip(data: map<string, Value>, key: string, e: ChatEntry)
    requires ChatLogOf(data, key).Ok?
    ensures ChatLogOf(Appended(data, key, e), key) == Ok(ChatLogOf(data, key).value + [e])
  {
    if key in data {
      DecodeRecordsAppend(data[key].items, e);
    } else {
      DecodeRecordsAppend([], e);
    }
  }

  /** The data after `es` are saved one after another. */
  function AppendedAll(data: map<string, Value>, key: string, es: seq<ChatEntry>): map<string, Value>
    decreases |es|
  {
    if es == [] then data else Appended(AppendedAll(data, key, es[..|es| - 1]), key, es[|es| - 1])
  }

  /** A session whose log was empty reads back exactly the entries saved
      into it, in order. */
  lemma {:induction false} ChatLogOfSaves(data: map<string, Value>, key: string, es: seq<ChatEntry>)
    requires key !in data
    ensures ChatLogOf(AppendedAll(data, key, es), key) == Ok(es)
    decreases |es|
  {
    if es != [] {
      var init := es[..|es| - 1];
      ChatLogOfSaves(data, key, init);
      ChatLogRoundTrip(AppendedAll(data, key, init), key, es[|es| - 1]);
      assert init + [es[|es| - 1]] == es;
    }
  }

  // ---------------------------------------------------------------------
  // Persona

  /** The stored shape of a persona with only a prompt. */
  function PromptOnly(prompt: string): Doc
  {
    Object(map["prompt" := FStr(prompt)])
  }

  /** An existing prompt and the appended text, stripped and joined by a
      blank line. */
  function JoinPrompt(existing: string, extra: string): string
  {
    Strip(existing) + "\n\n" + Strip(extra)
  }

  /** `get_persona` on what GET answered: the decoded document, or for a
      legacy text that is not JSON a document holding it as the prompt. */
  function PersonaOf(raw: Result<Option<Value>>): (p: Result<Option<Doc>>)
    ensures p == Ok(None) <==> raw == Ok(None)
    ensures raw.Ok? && raw.value.Some? && Loads(raw.value.value).Some? ==> p == Ok(Loads(raw.value.value))
    ensures p.Err? ==> raw.Err? || RawText(raw.value.value).None?
  {
    match raw
    case Err(e) => Err(e)
    case Ok(None) => Ok(None)
    case Ok(Some(v)) =>
      if Loads(v).Some? then Ok(Loads(v))
      else if RawText(v).Some? then Ok(Some(PromptOnly(RawText(v).value)))
      else Err(Unsupported)
  }

  /** The value `append_to_persona` writes, given what GET answered. An
      object with a prompt keeps its other fields; anything else that has a
      text is replaced by a prompt-only document built from that text. */
  function AppendedPersona(raw: Result<Option<Value>>, extra: string): (next: Result<Value>)
    ensures next.Ok? ==>
      next.value.Json? && next.value.doc.Object? && Canonical(next.value) &&
      "prompt" in next.value.doc.fields && next.value.doc.fields["prompt"].FStr?
    ensures next.Ok? ==> var w := Words(next.value.doc.fields["prompt"].s);
      |Words(extra)| <= |w| && w[|w| - |Words(extra)|..] == Words(extra)
  {
    match raw
    case Err(e) => Err(e)
    case Ok(None) =>
      StripKeepsWords(extra);
      Ok(Json(PromptOnly(Strip(extra))))
    case Ok(Some(v)) =>
      if Loads(v).Some? && Loads(v).value.Object? && "prompt" in Loads(v).value.fields then
        var f := Loads(v).value.fields;
        if f["prompt"].FStr? then
          JoinPromptWords(f["prompt"].s, extra);
          Ok(Json(Object(f["prompt" := FStr(JoinPrompt(f["prompt"].s, extra))])))
        else Err(NotAString)
      else if RawText(v).Some? then
        JoinPromptWords(RawText(v).value, extra);
        Ok(Json(PromptOnly(JoinPrompt(RawText(v).value, extra))))
      else Err(Unsupported)
  }

  /** `get_persona(client_id)`. */
  method GetPersona(r: Store, clientId: string) returns (persona: Result<Option<Doc>>)
    ensures persona == PersonaOf(Get(r.data, PersonaKey(clientId)))
  {
    var raw := r.Read(PersonaKey(clientId));
    persona := PersonaOf(raw);
  }

  /** `set_persona(client_id, prompt)`: replaces the whole persona. */
  method SetPersona(r: Store, clientId: string, prompt: string)
    requires r.Valid()
    modifies r
    ensures r.Valid() && r.now == old(r.now)
    ensures r.data == old(r.data)[PersonaKey(clientId) := Json(PromptOnly(Strip(prompt)))]
    ensures r.expiry == old(r.expiry) - {PersonaKey(clientId)}
  {
    r.Put(PersonaKey(clientId), Json(PromptOnly(Strip(prompt))));
  }

  /** `append_to_persona(client_id, additional_text)`. */
  method AppendToPersona(r: Store, clientId: string, extra: string) returns (res: Result<()>)
    requires r.Valid()
    modifies r
    ensures r.Valid() && r.now == old(r.now)
    ensures var next := AppendedPersona(Get(old(r.data), PersonaKey(clientId)), extra);
      (res.Ok? <==> next.Ok?) &&
      (next.Ok? ==> r.data == old(r.data)[PersonaKey(clientId) := next.value] &&
                    r.expiry == old(r.expiry) - {PersonaKey(clientId)}) &&
      (next.Err? ==> r.data == old(r.data) && r.expiry == old(r.expiry))
  {
    var raw := r.Read(PersonaKey(clientId));
    var next := AppendedPersona(raw, extra);
    if next.Err? {
      return Err(next.error);
    }
    r.Put(PersonaKey(clientId), next.value);
    res := Ok(());
  }

  /** The joined prompt holds the words of the old prompt followed by the
      words of the appended text. */
  lemma {:induction false} JoinPromptWords(existing: string, extra: string)
    ensures Words(JoinPrompt(existing, extra)) == Words(existing) + Words(extra)
  {
    var a, tail := Strip(existing), "\n\n" + Strip(extra);
    assert JoinPrompt(existing, extra) == a + tail;
    BlankLineWords(Strip(extra));
    WordsConcat(a, tail);
    StripKeepsWords(existing);
    StripKeepsWords(extra);
  }

  /** A blank line in front of a text adds no word. */
  lemma BlankLineWords(b: string)
    ensures var tail := "\n\n" + b;
      IsSpace(tail[0]) && Words(tail) == Words(b)
  {
    var sep := "\n\n";
    assert IsSpace(sep[0]) && IsSpace(sep[1]);
    WordsConcat(sep, b);
    WordsOfSpaces(sep);
  }

  /** After `set_persona(p)`, `append_to_persona(x)` stores a prompt-only
      persona holding `p` and `x` stripped and joined by a blank line, and
      `get_persona` reads it back. */
  lemma {:induction false} AppendAfterSet(data: map<string, Value>, key: string, p: string, x: string)
    ensures var set1 := data[key := Json(PromptOnly(Strip(p)))];
      AppendedPersona(Get(set1, key), x) == Ok(Json(PromptOnly(JoinPrompt(p, x)))) &&
      PersonaOf(Get(set1[key := Json(PromptOnly(JoinPrompt(p, x)))], key)) == Ok(Some(PromptOnly(JoinPrompt(p, x))))
  {
    StrippedIsFixed(Strip(p));
    var f := map["prompt" := FStr(Strip(p))];
    assert f["prompt" := FStr(JoinPrompt(Strip(p), x))] == map["prompt" := FStr(JoinPrompt(p, x))];
  }

  /** Appending to an object persona changes only its prompt. */
  lemma AppendKeepsOtherFields(fields: map<string, Field>, p: string, x: string)
    requires "prompt" in fields && fields["prompt"] == FStr(p)
    ensures var next := AppendedPersona(Ok(Some(Json(Object(fields)))), x);
      next.Ok? && next.value.Json? && next.value.doc.Object? &&
      next.value.doc.fields.Keys == fields.Keys &&
      next.value.doc.fields["prompt"] == FStr(JoinPrompt(p, x)) &&
      forall k :: k in fields && k != "prompt" ==> next.value.doc.fields[k] == fields[k]
  {
    var v := Json(Object(fields));
    assert Loads(v) == Some(Object(fields));
    assert AppendedPersona(Ok(Some(v)), x) == Ok(Json(Object(fields["prompt" := FStr(JoinPrompt(p, x))])));
  }

  /** A legacy plain-text persona reads as a prompt-only document, and
      appending to it stores a prompt-only document. */
  lemma LegacyPersona(s: string, x: string)
    ensures PersonaOf(Ok(Some(Plain(s)))) == Ok(Some(PromptOnly(s)))
    ensures AppendedPersona(Ok(Some(Plain(s))), x) == Ok(Json(PromptOnly(JoinPrompt(s, x))))
  {
  }

  // ---------------------------------------------------------------------
  // All client configurations

  /** CLIENT_CONFIG as decoded documents. */
  function StaticConfigs(): (m: map<string, Doc>)
    ensures forall c :: c in m <==> c in Static
    ensures forall c :: c in m ==> m[c] == Object(Static[c])
  {
    map c | c in Static :: Object(Static[c])
  }

  /** The scan for `client_config:*` at line 173 selects exactly the keys
      under the literal prefix, which is the selection
      `GetAllClientConfigs` makes. */
  lemma ConfigScanIsPrefix(data: map<string, Value>)
    ensures ScanMatch(data, ConfigPrefix + "*") == KeysWithPrefix(data, ConfigPrefix)
  {
    assert NoGlob(ConfigPrefix);
    ScanIsPrefix(data, ConfigPrefix);
  }

  /** The decodable configuration stored for `clientId`, if any. */
  function StoredConfig(data: map<string, Value>, clientId: string): Option<Doc>
  {
    if ConfigKey(clientId) in data then Loads(data[ConfigKey(clientId)]) else None
  }

  /** The configuration `get_all_client_configs` reports for `clientId`. */
  function MergedConfig(data: map<string, Value>, clientId: string): Option<Doc>
  {
    if StoredConfig(data, clientId).Some? then StoredConfig(data, clientId) else StaticDoc(clientId)
  }

  lemma ConfigKeyInjective(c: string, d: string)
    requires ConfigKey(c) == ConfigKey(d)
    ensures c == d
  {
    assert ConfigKey(c)[|ConfigPrefix|..] == c;
    assert ConfigKey(d)[|ConfigPrefix|..] == d;
  }

  /** `configs` is the static table overlaid with the decodable stored
      configurations whose keys are in `seen`. */
  ghost predicate Overlaid(configs: map<string, Doc>, data: map<string, Value>, seen: set<string>)
  {
    (forall c :: c in configs <==> c in Static || (ConfigKey(c) in seen && StoredConfig(data, c).Some?)) &&
    (forall c :: c in configs ==> (configs[c] ==
      if ConfigKey(c) in seen && StoredConfig(data, c).Some? then StoredConfig(data, c).value
      else Object(Static[c])))
  }

  /** Reading one more `client_config:*` key extends the overlay. */
  lemma OverlaidStep(configs: map<string, Doc>, data: map<string, Value>, seen: set<string>, key: string)
    requires Overlaid(configs, data, seen)
    requires key in KeysWithPrefix(data, ConfigPrefix)
    ensures var cid := key[|ConfigPrefix|..];
      Overlaid(if StoredConfig(data, cid).Some? then configs[cid := StoredConfig(data, cid).value] else configs,
               data, seen + {key})
  {
    var cid := key[|ConfigPrefix|..];
    assert ConfigKey(cid) == key;
    forall c | ConfigKey(c) == key
      ensures c == cid
    {
      ConfigKeyInjective(c, cid);
    }
  }

  /** Once every key is read, the overlay is the merged table. */
  lemma OverlaidAll(configs: map<string, Doc>, data: map<string, Value>, seen: set<string>)
    requires Overlaid(configs, data, seen) && seen == KeysWithPrefix(data, ConfigPrefix)
    ensures forall c :: c in configs <==> MergedConfig(data, c).Some?
    ensures forall c :: c in configs ==> configs[c] == MergedConfig(data, c).value
  {
  }

  /** `get_all_client_configs()`: the static table overlaid with every
      decodable `client_config:*` entry; a key holding a list or a hash
      makes GET fail. */
  method GetAllClientConfigs(r: Store) returns (res: Result<map<string, Doc>>)
    ensures res.Ok? <==> forall k :: k in KeysWithPrefix(r.data, ConfigPrefix) ==> Get(r.data, k).Ok?
    ensures res.Ok? ==> forall c :: c in res.value <==> MergedConfig(r.data, c).Some?
    ensures res.Ok? ==> forall c :: c in res.value ==> res.value[c] == MergedConfig(r.data, c).value
  {
    var configs := StaticConfigs();
    var pending := KeysWithPrefix(r.data, ConfigPrefix);
    ghost var seen: set<string> := {};
    while pending != {}
      invariant pending + seen == KeysWithPrefix(r.data, ConfigPrefix) && pending !! seen
      invariant forall k :: k in seen ==> Get(r.data, k).Ok?
      invariant Overlaid(configs, r.data, seen)
      decreases pending
    {
      var key :| key in pending;
      var cid := key[|ConfigPrefix|..];
      var val := r.Read(key);
      if val.Err? {
        return Err(val.error);
      }
      OverlaidStep(configs, r.data, seen, key);
      assert ConfigKey(cid) == key;
      assert val.value.Some? && Loads(val.value.value).Some? <==> StoredConfig(r.data, cid).Some?;
      if val.value.Some? && Loads(val.value.value).Some? {
        configs := configs[cid := Loads(val.value.value).value];
      }
      pending := pending - {key};
      seen := seen + {key};
    }
    OverlaidAll(configs, r.data, seen);
    res := Ok(configs);
  }

  /** Every entry of the combined table is what `get_client_config` returns
      for that client. */
  lemma AllConfigsAgreeWithSingle(data: map<string, Value>, clientId: string)
    requires Get(data, ConfigKey(clientId)).Ok?
    ensures ConfigOf(Get(data, ConfigKey(clientId)), clientId) == Ok(MergedConfig(data, clientId))
  {
  }
}
