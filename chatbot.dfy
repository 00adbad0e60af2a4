/** The parts of `app/chatbot.py` that are state and rules rather than
    calls into the language model: the in-process session cache with idle
    expiry, the chat-memory switch, and how a persona adjusts a client's
    configuration before a request. */
module Chatbot {
  import opened Common
  import opened Text
  import opened KeyValueStore
  import opened ClientConfig
  import opened Messages
  import opened RedisUtils

  /** SESSION_TIMEOUT, in seconds. */
  const SessionTimeout: int := 30 * 60

  /** A session last used at `ts` has expired at `now`; the comparison is
      strict. */
  predicate IsExpired(ts: int, now: int)
  {
    now - ts > SessionTimeout
  }

  function SessionKey(clientId: string, chatId: string): string { clientId + ":" + chatId }

  /** The timestamps that survive pruning at `now`. */
  function PrunedStamps(stamps: map<string, int>, now: int): (m: map<string, int>)
    ensures forall k :: k in m <==> k in stamps && !IsExpired(stamps[k], now)
    ensures forall k :: k in m ==> m[k] == stamps[k]
  {
    map k | k in stamps && !IsExpired(stamps[k], now) :: stamps[k]
  }

  /** The histories that survive pruning at `now`. */
  function PrunedHistories(histories: map<string, seq<Message>>, stamps: map<string, int>, now: int): (m: map<string, seq<Message>>)
    ensures forall k :: k in m <==> k in histories && k in stamps && !IsExpired(stamps[k], now)
    ensures forall k :: k in m ==> m[k] == histories[k]
  {
    map k | k in histories && k in stamps && !IsExpired(stamps[k], now) :: histories[k]
  }

  /** `memory_store` and `memory_timestamps`. */
  class SessionCache {
    var histories: map<string, seq<Message>>
    var stamps: map<string, int>

    /** Every cached history has a timestamp and the other way round. */
    ghost predicate Valid()
      reads this
    {
      histories.Keys == stamps.Keys
    }

    constructor ()
      ensures Valid() && histories == map[] && stamps == map[]
    {
      histories := map[];
      stamps := map[];
    }

    /** `prune_memory_store()` at `now`: collects the expired keys, then
        removes each from both maps. */
    method Prune(now: int)
      requires Valid()
      modifies this
      ensures Valid()
      ensures stamps == PrunedStamps(old(stamps), now)
      ensures histories == PrunedHistories(old(histories), old(stamps), now)
    {
      var expired := set k | k in stamps && IsExpired(stamps[k], now);
      ghost var removed: set<string> := {};
      while expired != {}
        invariant Valid()
        invariant expired + removed == set k | k in old(stamps) && IsExpired(old(stamps)[k], now)
        invariant expired !! removed
        invariant forall k :: k in stamps <==> k in old(stamps) && k !in removed
        invariant forall k :: k in stamps ==> stamps[k] == old(stamps)[k] && histories[k] == old(histories)[k]
        decreases expired
      {
        var k :| k in expired;
        histories := histories - {k};
        stamps := stamps - {k};
        expired := expired - {k};
        removed := removed + {k};
      }
    }

    /** The in-memory branch of `get_memory(chat_id, client_id)` at `now`:
        prune, create an empty history for a session that has none, and
        stamp the session. */
    method GetLocal(chatId: string, clientId: string, now: int) returns (history: seq<Message>)
      requires Valid()
      modifies this
      ensures Valid()
      ensures var key := SessionKey(clientId, chatId);
        var kept := PrunedHistories(old(histories), old(stamps), now);
        history == (if key in kept then kept[key] else []) &&
        histories == kept[key := history] &&
        stamps == PrunedStamps(old(stamps), now)[key := now]
    {
      Prune(now);
      var key := SessionKey(clientId, chatId);
      if key !in histories {
        histories := histories[key := []];
      }
      stamps := stamps[key := now];
      history := histories[key];
    }

    /** `get_memory(chat_id, client_id)` at `now`. A client with chat memory
        reads its history from Firestore and leaves the cache alone. */
    method GetMemory(chatId: string, clientId: string, now: int) returns (h: Fetched)
      requires Valid()
      modifies this
      ensures Valid()
      ensures IsMemoryEnabled(clientId) ==> h == FromFirestore && histories == old(histories) && stamps == old(stamps)
      ensures !IsMemoryEnabled(clientId) ==>
        var key := SessionKey(clientId, chatId);
        var kept := PrunedHistories(old(histories), old(stamps), now);
        h == Local(if key in kept then kept[key] else []) &&
        histories == kept[key := h.history] &&
        stamps == PrunedStamps(old(stamps), now)[key := now]
    {
      if IsMemoryEnabled(clientId) {
        return FromFirestore;
      }
      var history := GetLocal(chatId, clientId, now);
      h := Local(history);
    }
  }

  /** Where `get_memory` takes a history from. */
  datatype Fetched = FromFirestore | Local(history: seq<Message>)

  /** A session idle for exactly the timeout survives pruning; one second
      more and it is removed. */
  lemma IdleForTimeoutSurvives(stamps: map<string, int>, key: string, now: int)
    requires key in stamps
    ensures stamps[key] == now - SessionTimeout ==> key in PrunedStamps(stamps, now)
    ensures stamps[key] == now - SessionTimeout - 1 ==> key !in PrunedStamps(stamps, now)
  {
  }

  /** Pruning twice at the same instant removes nothing more, and pruning
      at a later instant after an earlier one is the same as pruning once
      at the later instant. */
  lemma {:induction false} PruneTwice(stamps: map<string, int>, t1: int, t2: int)
    requires t1 <= t2
    ensures PrunedStamps(PrunedStamps(stamps, t1), t1) == PrunedStamps(stamps, t1)
    ensures PrunedStamps(PrunedStamps(stamps, t1), t2) == PrunedStamps(stamps, t2)
  {
    var once := PrunedStamps(stamps, t1);
    assert PrunedStamps(once, t1).Keys == once.Keys;
    assert PrunedStamps(once, t2).Keys == PrunedStamps(stamps, t2).Keys by {
      forall k | k in stamps && !IsExpired(stamps[k], t2)
        ensures k in once
      {
        assert !IsExpired(stamps[k], t1);
      }
    }
  }

  /** `is_memory_enabled(client_id)`: the static `has_chat_memory` flag,
      false for an unknown client or a missing flag. */
  function IsMemoryEnabled(clientId: string): (enabled: bool)
    ensures enabled ==> clientId in Static && "has_chat_memory" in Static[clientId]
  {
    clientId in Static && "has_chat_memory" in Static[clientId] && Truthy(Static[clientId]["has_chat_memory"])
  }

  /** Exactly the three clients configured with chat memory have it. */
  lemma {:induction false} MemoryEnabledClients(clientId: string)
    ensures IsMemoryEnabled(clientId) <==>
      clientId == "maximos" || clientId == "samuel" || clientId == "prairiepastorate"
  {
    if clientId in Static {
      assert clientId in {"maximos", "ordinance", "marketingasst", "samuel", "prairiepastorate"};
    }
  }

  // ---------------------------------------------------------------------
  // Persona applied to a request's configuration

  /** The placeholders a system prompt must hold. */
  const ContextSlot: string := "{context}"
  const QuestionSlot: string := "{question}"

  /** The default tail appended to a prompt lacking a placeholder. */
  const PlaceholderTail: string := ContextHeading + ContextSlot + QuestionHeading + QuestionSlot
  const ContextHeading: string := "\n\nContext:\n"
  const QuestionHeading: string := "\n\nQuestion:\n"

  /** A prompt missing either placeholder is stripped and given the default
      tail; a prompt with both is kept as it is. Either way the prompt's own
      words come first. */
  function RepairPrompt(p: string): (r: string)
    ensures Contains(p, ContextSlot) && Contains(p, QuestionSlot) ==> r == p
    ensures Words(p) <= Words(r)
  {
    if Contains(p, ContextSlot) && Contains(p, QuestionSlot) then p
    else
      assert IsSpace(PlaceholderTail[0]);
      WordsConcat(Strip(p), PlaceholderTail);
      StripKeepsWords(p);
      Strip(p) + PlaceholderTail
  }

  /** A repaired prompt always holds both placeholders, and one that held
      both already is unchanged. */
  lemma {:induction false} RepairedHasPlaceholders(p: string)
    ensures Contains(RepairPrompt(p), ContextSlot) && Contains(RepairPrompt(p), QuestionSlot)
    ensures Contains(p, ContextSlot) && Contains(p, QuestionSlot) ==> RepairPrompt(p) == p
  {
    if !(Contains(p, ContextSlot) && Contains(p, QuestionSlot)) {
      var atContext := |ContextHeading|;
      var atQuestion := |ContextHeading + ContextSlot + QuestionHeading|;
      assert PlaceholderTail[atContext..atContext + |ContextSlot|] == ContextSlot;
      assert PlaceholderTail[atQuestion..atQuestion + |QuestionSlot|] == QuestionSlot;
      ContainsAt(PlaceholderTail, ContextSlot, atContext);
      ContainsAt(PlaceholderTail, QuestionSlot, atQuestion);
      ContainsInSuffix(Strip(p), PlaceholderTail, ContextSlot);
      ContainsInSuffix(Strip(p), PlaceholderTail, QuestionSlot);
    }
  }

  /** Python truthiness of a decoded persona document. */
  predicate DocTruthy(d: Doc)
  {
    match d
    case Object(f) => f != map[]
    case Scalar(_, v) => Truthy(v)
  }

  /** The prompt text a truthy persona supplies
      (`redis_persona.get("prompt", "") or ""`, or the persona itself),
      and its `max_chunks` override. A prompt that is not a string makes
      the placeholder test raise. */
  function PersonaSettings(d: Doc): (r: Result<(string, Option<Field>)>)
    ensures r.Err? ==> r.error == NotAString
    ensures r.Ok? && r.value.0 != "" ==>
      if d.Object? then "prompt" in d.fields && d.fields["prompt"] == FStr(r.value.0)
      else d.value == FStr(r.value.0)
    ensures r.Ok? ==> (r.value.1.Some? <==> d.Object? && "max_chunks" in d.fields && !d.fields["max_chunks"].FNull?)
    ensures r.Ok? && r.value.1.Some? ==> r.value.1.value == d.fields["max_chunks"]
  {
    match d
    case Object(f) =>
      var maxChunks := if "max_chunks" in f && !f["max_chunks"].FNull? then Some(f["max_chunks"]) else None;
      if "prompt" !in f || !Truthy(f["prompt"]) then Ok(("", maxChunks))
      else if f["prompt"].FStr? then Ok((f["prompt"].s, maxChunks))
      else Err(NotAString)
    case Scalar(_, v) =>
      if v.FStr? then Ok((v.s, None)) else Err(NotAString)
  }

  /** Lines 164-187 of `get_response`: the configuration after the stored
      persona (if any) is applied and `max_chunks` is defaulted. */
  function ApplyPersona(config: map<string, Field>, persona: Option<Doc>): (r: Result<map<string, Field>>)
    ensures persona.None? ==> r.Ok?
    ensures r.Err? ==> r.error == NotAString
    ensures r.Ok? ==> "max_chunks" in r.value && config.Keys <= r.value.Keys
  {
    var base :=
      if persona.Some? && DocTruthy(persona.value) then
        match PersonaSettings(persona.value)
        case Err(e) => Err(e)
        case Ok((prompt, maxChunks)) =>
          var withPrompt := config["system_prompt" := FStr(RepairPrompt(prompt))];
          Ok(if maxChunks.Some? then withPrompt["max_chunks" := maxChunks.value] else withPrompt)
      else Ok(config);
    if base.Err? then base
    else if "max_chunks" in base.value then base
    else Ok(base.value["max_chunks" := FInt(5)])
  }

  /** `max_chunks` is the persona's when it sets one, else the configured
      one, else 5; the system prompt of a truthy persona is its own prompt,
      repaired, and holds both placeholders; no other entry changes. */
  lemma {:induction false} ApplyPersonaSettings(config: map<string, Field>, persona: Option<Doc>)
    requires ApplyPersona(config, persona).Ok?
    ensures var r := ApplyPersona(config, persona).value;
      var active := persona.Some? && DocTruthy(persona.value);
      var chosen := if active then PersonaSettings(persona.value).value.1 else None;
      "max_chunks" in r &&
      r["max_chunks"] == (if chosen.Some? then chosen.value
                          else if "max_chunks" in config then config["max_chunks"] else FInt(5)) &&
      (active ==> "system_prompt" in r &&
                  r["system_prompt"] == FStr(RepairPrompt(PersonaSettings(persona.value).value.0)) &&
                  Contains(r["system_prompt"].s, ContextSlot) && Contains(r["system_prompt"].s, QuestionSlot)) &&
      (!active ==> "system_prompt" !in config || r["system_prompt"] == config["system_prompt"]) &&
      forall k :: k in config && k != "max_chunks" && k != "system_prompt" ==> k in r && r[k] == config[k]
  {
    if persona.Some? && DocTruthy(persona.value) {
      RepairedHasPlaceholders(PersonaSettings(persona.value).value.0);
    }
  }

  /** Lines 150-187 of `get_response` for client `clientId` whose stored
      persona decoded to `persona`: an unknown client is refused first. */
  function RequestConfig(clientId: string, persona: Option<Doc>): (r: Result<map<string, Field>>)
    ensures clientId !in Static ==> r == Err(UnknownClient)
  {
    if clientId !in Static || Static[clientId] == map[] then Err(UnknownClient)
    else ApplyPersona(Static[clientId]["client_id" := FStr(clientId)], persona)
  }

  /** For a configured client without a persona the static settings are
      used, `max_chunks` included. */
  lemma StaticSettingsWithoutPersona(clientId: string)
    requires clientId in Static
    ensures RequestConfig(clientId, None) == Ok(Static[clientId]["client_id" := FStr(clientId)])
  {
    StaticEntry(clientId);
  }

  /** Lines 150-187 of `get_response` as written: `config` is the table's
      own entry, so every assignment to it is an assignment into the table.
      Returns the request's configuration (or its error) and the table
      afterwards; `client_id` is stored before the persona is looked at, so
      it stays in the table even when the persona step fails. */
  function RequestConfigInPlace(table: map<string, map<string, Field>>, clientId: string, persona: Option<Doc>)
    : (r: (Result<map<string, Field>>, map<string, map<string, Field>>))
    ensures clientId !in table ==> r == (Err(UnknownClient), table)
    ensures r.0.Ok? ==> clientId in table && r.1 == table[clientId := r.0.value]
  {
    if clientId !in table || table[clientId] == map[] then (Err(UnknownClient), table)
    else
      var tagged := table[clientId]["client_id" := FStr(clientId)];
      match ApplyPersona(tagged, persona)
      case Err(e) => (Err(e), table[clientId := tagged])
      case Ok(c) => (Ok(c), table[clientId := c])
  }

  /** A persona that sets only `max_chunks`. */
  const ChunksOnlyPersona: Doc := Object(map["max_chunks" := FInt(9)])

  /** What the un-awaited `get_persona(client_id)` at line 162 hands over:
      a coroutine, truthy and not a string. */
  const Unawaited: Doc := Scalar("", FOther(true))

  /** As literally written, every request for "maximos" fails on the
      coroutine, but only after its table entry has gained `client_id`. */
  lemma UnawaitedRequestChangesTable()
    ensures var r := RequestConfigInPlace(Static, "maximos", Some(Unawaited));
      r.0 == Err(NotAString) && "client_id" in r.1["maximos"] && "client_id" !in Static["maximos"]
  {
    var e := Static["maximos"];
    assert e == Entry(20, 3, true);
    var tagged := e["client_id" := FStr("maximos")];
    assert "client_id" in tagged;
    assert PersonaSettings(Unawaited) == Err(NotAString);
    assert ApplyPersona(tagged, Some(Unawaited)) == Err(NotAString);
    assert RequestConfigInPlace(Static, "maximos", Some(Unawaited)) == (Err(NotAString), Static["maximos" := tagged]);
  }

  /** As written, one request changes CLIENT_CONFIG: the entry of
      "maximos" gains `client_id`. */
  lemma InPlaceRequestChangesTable()
    ensures RequestConfigInPlace(Static, "maximos", None).1 != Static
  {
    var e := Static["maximos"];
    assert e == Entry(20, 3, true);
    var tagged := e["client_id" := FStr("maximos")];
    assert "max_chunks" in tagged && tagged != map[];
    assert ApplyPersona(tagged, None) == Ok(tagged);
    assert RequestConfigInPlace(Static, "maximos", None).1["maximos"] == tagged;
    assert "client_id" in tagged && "client_id" !in e;
  }

  /** As written, a persona's `max_chunks` outlives the persona: after a
      request for "maximos" with a persona setting `max_chunks` to 9, the
      next request without a persona still uses 9; with a fresh copy of the
      table it uses the configured 3. */
  lemma InPlaceRequestLeaks()
    ensures var after := RequestConfigInPlace(Static, "maximos", Some(ChunksOnlyPersona)).1;
      var next := RequestConfigInPlace(after, "maximos", None).0;
      next.Ok? && next.value["max_chunks"] == FInt(9)
    ensures RequestConfig("maximos", None).Ok? && RequestConfig("maximos", None).value["max_chunks"] == FInt(3)
  {
    var e := Static["maximos"];
    assert e == Entry(20, 3, true);
    var tagged := e["client_id" := FStr("maximos")];
    assert "max_chunks" in ChunksOnlyPersona.fields && DocTruthy(ChunksOnlyPersona);
    assert PersonaSettings(ChunksOnlyPersona) == Ok(("", Some(FInt(9))));
    var c := ApplyPersona(tagged, Some(ChunksOnlyPersona));
    ApplyPersonaSettings(tagged, Some(ChunksOnlyPersona));
    assert c.Ok? && c.value["max_chunks"] == FInt(9);
    var after := Static["maximos" := c.value];
    assert RequestConfigInPlace(Static, "maximos", Some(ChunksOnlyPersona)).1 == after;
    ApplyPersonaSettings(c.value["client_id" := FStr("maximos")], None);
    StaticSettingsWithoutPersona("maximos");
  }
}
