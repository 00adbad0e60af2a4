# Axios backend core, modelled in Dafny

The Axios backend is a multi-tenant chatbot service. Apart from the calls into
the language model, the vector store and Firestore, its core is bookkeeping
on a Redis store, plus one text chunker used when documents are prepared:

- a fixed-window rate limiter and a daily request counter per API key;
- per-session last-seen timestamps whose lifetime is the client's session
  timeout (30 minutes by default);
- four token counters per API key (total, daily, monthly, per model);
- at-most-once feedback votes;
- an append-only chat log;
- personas (a system prompt and options) that can be set or appended to;
- client configurations stored in Redis that override a static table;
- a conversation memory kept as a list of `role:content` lines;
- an in-process session cache with idle expiry;
- the rules that adapt a client's configuration to its persona before a
  request;
- the chunker, which packs a text's non-blank lines greedily into chunks
  of at most `max_words` words.

The model has one file per module:

- `store.dfy` (`KeyValueStore`): Redis as a `Store` class. It holds a map
  from keys to values, a map from keys to expiry instants and the clock
  `now`. Its methods are the commands the code issues: GET, SET, SETEX,
  INCRBY, EXPIRE, HSETNX, RPUSH, LRANGE and DEL. Each method's `ensures`
  gives the whole new state, and expiry is eager: `Advance` drops every
  key whose instant has passed, and the clock never runs backwards.
  `GlobMatch` is the pattern language of SCAN MATCH (`*`, `?`, `[...]`
  classes with ranges and `^`, and `\` escapes), following the server's
  own matcher, which is not part of this repository.
- `ratelimit.dfy`, `redis_utils.dfy`, `redis_memory.dfy`, `chatbot.dfy`
  and `chunk_texts.dfy` follow the source files of the same names.
- `text.dfy` holds the Python string operations the core relies on:
  `strip`, `split()`, `split('\n')`, `in`, `int()` and `str()`.
- `common.dfy` holds the shared result types, `messages.dfy` the chat
  message classes, and `client_config.dfy` the static client table.

Each operation that changes state is a method, proved against a pure
function of the old state. The properties the code promises are proved as
lemmas about those functions. The chunker is a loop method whose invariant
ties its variables to `Fold`, the same loop written as a function on the
lines seen so far. The chunking properties are proved about `Fold`.

Stored values have a kind:

- `Int`: a decimal integer string;
- `Instant`: an ISO timestamp;
- `Json`: a JSON document;
- `Plain`: any other text;
- `List`: a list;
- `Hash`: a hash.

`Store.Valid` holds every value to its canonical kind: a string that
`int()` accepts is always an `Int`, never JSON or plain text
(`Canonical`). So `int()` and INCRBY succeed exactly on `Int` values
(`CanonicalIntText`). That `Plain` text is never JSON and never an ISO
timestamp is an assumption about the stored values; the model has no JSON
or timestamp parser to check it. A value of a kind the code would choke on
yields an `Err` result rather than an exception.

## Model

| member | source | states |
|---|---|---|
| RateLimit.CheckRateLimit | ratelimit.py:9-19 | the call is judged from the value at `ratelimit:{api_key}` and only that key changes. With no counter (or an empty one) it is admitted and the counter becomes 1, expiring after the window, whatever `max_requests` is. A count at or above the limit is rejected and the store is unchanged. A lower count rises by exactly 1 with its expiry kept. A non-integer value is an error |
| RateLimit.TrackUsage | ratelimit.py:21-24 | `usage:{api_key}:{date}` rises by exactly 1, an absent key counting as 0. Nothing else changes, and a non-counter value is an error |
| RateLimit.CountedWhileBelowLimit | ratelimit.py:13-19 | from a count j, the next k calls are all counted and leave count j+k, as long as j+k ≤ max_requests |
| RateLimit.RunSplit | ratelimit.py:9-19 | k+1 consecutive calls give the verdicts of the first k, then the verdict taken on the counter they leave |
| RateLimit.WindowAdmitsExactlyMax | ratelimit.py:9-19 | starting without a counter, with max_requests ≥ 1 and no expiry in between, calls 1..max_requests are admitted and call max_requests+1 is rejected |
| RateLimit.CountNeverExceedsLimit | ratelimit.py:13-19 | under any number of sequential calls with a fixed limit, the stored count never exceeds max(max_requests, 1) |
| RateLimit.ExpiredWindowRestarts | ratelimit.py:16-17 | once the window's expiry instant is reached, the next call opens a new window with count 1 |
| RateLimit.RateKeysDistinct | ratelimit.py:10 | distinct API keys have distinct counters, so one tenant's calls never touch another's |
| RedisUtils.GetClientConfig | app/redis_utils.py:154-167 | the stored config when it decodes; otherwise (absent or not JSON) the static entry, which is empty for an unknown client |
| RedisUtils.SetClientConfig | app/redis_utils.py:149-151 | `client_config:{id}` holds the config as JSON, with no expiry, and nothing else changes |
| RedisUtils.ConfigLookup | app/redis_utils.py:154-167 | a config just stored is read back. After the key is deleted, or when it holds non-JSON text, the static entry is returned |
| RedisUtils.SessionTimeoutMinutes | app/redis_utils.py:28-39 | the configured `session_timeout_minutes` when present and integer-convertible, provided `timedelta` can hold it; beyond that range OverflowError, which the code does not catch. Otherwise 30, including when there is no config or a falsy non-object config. A truthy non-object config fails at `.get` |
| RedisUtils.TimedeltaRange | app/redis_utils.py:37 | a timeout of up to 999999999 days and 1439 minutes, and down to -999999999 days, exists; one minute further either way overflows |
| RedisUtils.ConfiguredTimeoutReadBack | app/redis_utils.py:33-37 | minutes configured as the decimal string of m give a timeout of m when a `timedelta` can hold it, and OverflowError otherwise |
| RedisUtils.GetSessionTimeout | app/redis_utils.py:28-39 | the timeout determined by the client's config, as `get_client_config` finds it |
| RedisUtils.GetLastSeen | app/redis_utils.py:20-24 | the stored timestamp, or None when the key is absent or empty |
| RedisUtils.SetLastSeen | app/redis_utils.py:41-43 | with a positive timeout, the timestamp is stored under `ls:{client}:{chat}` expiring after the timeout in seconds, and nothing else changes. Otherwise SETEX fails and the store is unchanged |
| RedisUtils.LastSeenUntilTimeout | app/redis_utils.py:20-43 | a timestamp stored with TTL t reads back before now+t and reads as None from then on |
| RedisUtils.TokenKeysDistinct | app/redis_utils.py:96-99 | the total, daily, monthly and per-model keys of one API key are pairwise distinct, and different models have different keys |
| RedisUtils.IncrementCounters | app/redis_utils.py:103-106 | when all four keys are counters, each rises by `token_count`. Otherwise an error, with expiries unchanged and every key other than the four unchanged |
| RedisUtils.IncrementTokenUsage | app/redis_utils.py:85-110 | the four counters rise by `token_count`. The daily key's expiry is then reset to 31 days and the monthly key's to 365 days; no other expiry changes, so the total and per-model keys never get one. A non-counter value fails with no expiry set |
| RedisUtils.AddTokensEffect | app/redis_utils.py:103-106 | each of the four counters rises by the token count, an absent one counting as 0, and every other key is unchanged |
| RedisUtils.TokenUsageAccumulates | app/redis_utils.py:96-106 | two calls for the same day, month and model add k1+k2 to each counter, and another model's counter is unchanged |
| RedisUtils.GetTokenUsage | app/redis_utils.py:112-139 | succeeds exactly when every counter read is readable. Absent total, daily and monthly keys report 0. There is one per-model entry per key under the literal prefix `token_usage:{key}:model:`, named by the key with that prefix stripped and holding its count; for a key with glob characters this is the corrected scan (see Findings) |
| RedisUtils.PlainKeyScansOwnModels | app/redis_utils.py:127-131 | for an API key without glob characters, `scan_iter(match=prefix + "*")` selects exactly the keys under the literal prefix, as `GetTokenUsage` does |
| RedisUtils.ScanReadsOtherTenant | app/redis_utils.py:127-131 | as written, the scan for API key "a*" matches `token_usage:ab:model:gpt`, a key of another API key, and the slice at the prefix length names it "gpt"; the literal prefix selects nothing |
| RedisUtils.RecordFeedbackVote | app/redis_utils.py:201-218 | returns true and records the vote exactly when the user has no field in `feedback:{client}:{message}`. Otherwise it returns false and changes nothing; a non-hash key is an error |
| RedisUtils.OneVotePerUser | app/redis_utils.py:216-218 | after a recorded vote, the same user's second vote is refused and leaves the first in place, while other users' votes are unaffected |
| RedisUtils.DecodeRecords | app/redis_utils.py:60-63 | decoding succeeds exactly when every entry is a JSON record, and then gives one entry per record, in order |
| RedisUtils.GetChatHistory | app/redis_utils.py:60-63 | all entries of `chat:{client}:{session}`, in insertion order; an absent log is empty |
| RedisUtils.SaveChatMessage | app/redis_utils.py:54-57 | exactly one record is appended at the end of the list (created if absent), there is no expiry and nothing else changes. A non-list key is an error |
| RedisUtils.DecodeRecordsAppend | app/redis_utils.py:54-63 | a record appended to a decodable list decodes as the old entries followed by the new one |
| RedisUtils.ChatLogRoundTrip | app/redis_utils.py:54-63 | saving an entry and reading the log gives the old log followed by that entry |
| RedisUtils.ChatLogOfSaves | app/redis_utils.py:54-63 | a new session's log reads back exactly the entries saved into it, in order |
| RedisUtils.PersonaOf | app/redis_utils.py:45-52 | None exactly when the key is absent; a value `json.loads` decodes is returned as decoded; it fails only on a read error or a value whose text the model does not keep |
| RedisUtils.GetPersona | app/redis_utils.py:45-52 | what `PersonaOf` makes of the stored value: the decoded persona, None when absent, or for non-JSON `Plain` text a prompt-only persona holding that text |
| RedisUtils.SetPersona | app/redis_utils.py:141-147 | the persona is overwritten with a prompt-only document holding strip(prompt) |
| RedisUtils.AppendedPersona | app/redis_utils.py:65-83 | the value written is always a JSON object with a string `prompt`, and that prompt's words end with the appended text's words |
| RedisUtils.AppendToPersona | app/redis_utils.py:65-83 | absent: the prompt becomes strip(text). An object with `prompt`: the prompt becomes strip(old) + blank line + strip(text), other fields kept. An integer, a JSON scalar or non-JSON `Plain` text: the prompt becomes strip(raw) + blank line + strip(text). On an error the store is unchanged |
| RedisUtils.JoinPromptWords | app/redis_utils.py:75 | the appended prompt holds the old prompt's words followed by the new text's words |
| RedisUtils.AppendAfterSet | app/redis_utils.py:65-83 | after `set_persona(p)`, `append_to_persona(x)` stores strip(p) + blank line + strip(x) as the prompt, and `get_persona` reads it back |
| RedisUtils.AppendKeepsOtherFields | app/redis_utils.py:74-76 | appending to an object persona changes only its prompt; every other field is kept |
| RedisUtils.LegacyPersona | app/redis_utils.py:45-83 | a legacy plain-text persona reads as a prompt-only persona holding that text, and appending to it stores a prompt-only persona |
| RedisUtils.ConfigScanIsPrefix | app/redis_utils.py:173 | `scan_iter(match="client_config:*")` selects exactly the keys starting with `client_config:`, the selection `GetAllClientConfigs` makes |
| RedisUtils.StaticConfigs | app/redis_utils.py:172 | the copy of the static table holds exactly the static clients, with their entries |
| RedisUtils.ConfigKeyInjective | app/redis_utils.py:176 | the client id taken after the first ':' of `client_config:{id}` is `id`, so distinct keys name distinct clients |
| RedisUtils.OverlaidStep | app/redis_utils.py:175-185 | reading one more key overlays its decodable config and leaves the other entries as they were |
| RedisUtils.OverlaidAll | app/redis_utils.py:170-198 | once every key is read, the overlay is the merged table |
| RedisUtils.GetAllClientConfigs | app/redis_utils.py:170-198 | a client is in the result exactly when it is static or has a decodable stored config. Its entry is the stored config when there is one and the static entry otherwise. GET failing on any key fails the call |
| RedisUtils.AllConfigsAgreeWithSingle | app/redis_utils.py:154-198 | each entry of the combined table is what `get_client_config` returns for that client |
| RedisMemory.MemoryKey | app/redis_memory.py:7-8 | the key `chatmem:{client_id}:{chat_id}` of one session's memory |
| RedisMemory.Encode | app/redis_memory.py:17-26 | the line is the role name, one ':' and the whole content |
| RedisMemory.DecodeLine | app/redis_memory.py:37-48 | a line `name:content` whose name has no ':' reads back with its whole content, as an AI message exactly when the name is "ai", a system message exactly when it is "system", and a human message otherwise |
| RedisMemory.ColonAt | app/redis_memory.py:37-38 | the position of the first ':'; no ':' comes before it, and it is the length exactly when there is no ':' |
| RedisMemory.SplitAfterName | app/redis_memory.py:26-38 | splitting `role:content` at the first ':' gives back the role and the whole content, whatever colons the content holds |
| RedisMemory.DecodeEncode | app/redis_memory.py:17-48 | human, AI and system messages decode to themselves after encoding |
| RedisMemory.DecodeEncodeOther | app/redis_memory.py:17-48 | another message class comes back as a human message with the same content |
| RedisMemory.DecodeRoles | app/redis_memory.py:41-48 | a loaded entry is always a human, AI or system message |
| RedisMemory.LineWithoutColon | app/redis_memory.py:39-40 | an entry without ':' is a human message holding the whole entry |
| RedisMemory.EncodeAll | app/redis_memory.py:17-26 | one `role:content` line per message, in order |
| RedisMemory.DecodeAll | app/redis_memory.py:36-48 | every line decodes, in order, one message per line; a JSON record in the list is refused |
| RedisMemory.SaveMemory | app/redis_memory.py:11-28 | the list is deleted and rebuilt, so the key holds exactly the new history (and is gone when it is empty), with a 30-minute expiry. No other key changes |
| RedisMemory.GetMemory | app/redis_memory.py:31-49 | the decoded history at `chatmem:{client}:{chat}`; an absent key is empty |
| RedisMemory.DeleteMemory | app/redis_memory.py:52-55 | only `chatmem:{client}:{chat}` is removed |
| RedisMemory.SaveThenLoad | app/redis_memory.py:11-49 | a history of human, AI and system messages loads back after a save with the same roles and contents in the same order |
| RedisMemory.OnlyItsKey | app/redis_memory.py:7-55 | saving or deleting one session leaves every other key as it was |
| RedisMemory.DeletedLoadsEmpty | app/redis_memory.py:31-55 | after `delete_memory` the history loads as empty |
| Chatbot.PrunedStamps | app/chatbot.py:35-41 | the timestamps kept are exactly those no more than SESSION_TIMEOUT old, unchanged |
| Chatbot.PrunedHistories | app/chatbot.py:35-41 | the histories kept are exactly those whose session was not pruned, unchanged |
| Chatbot.SessionCache.Prune | app/chatbot.py:35-41 | both maps lose exactly the expired keys and nothing else, and their key sets stay equal |
| Chatbot.SessionCache.GetLocal | app/chatbot.py:53-60 | after pruning, the surviving history for `{client}:{chat}` is returned, or a new empty one. Either way its timestamp becomes now and the two maps keep equal key sets |
| Chatbot.SessionCache.GetMemory | app/chatbot.py:48-60 | a chat-memory client is sent to Firestore and the cache is untouched; any other client takes the in-memory branch |
| Chatbot.IdleForTimeoutSurvives | app/chatbot.py:33-38 | a session idle for exactly 30 minutes survives pruning, and one idle a second longer is removed |
| Chatbot.PruneTwice | app/chatbot.py:35-41 | pruning twice at one instant equals pruning once, and an earlier prune does not change a later one |
| Chatbot.IsMemoryEnabled | app/chatbot.py:44-46 | memory is on only for a client in the static table whose entry has `has_chat_memory` |
| Chatbot.MemoryEnabledClients | app/chatbot.py:44-46 | chat memory is on exactly for the clients configured with it; it is off for unknown clients |
| Chatbot.RepairPrompt | app/chatbot.py:174-176 | a prompt holding both placeholders is kept verbatim; in every case the prompt's own words come first, unchanged |
| Chatbot.PersonaSettings | app/chatbot.py:166-172 | a non-empty prompt is the persona's own `prompt` string (or the persona itself when it is a string); the `max_chunks` override is present exactly when the persona object has a non-null `max_chunks`, and is that value; the only failure is a prompt that is not a string |
| Chatbot.ApplyPersona | app/chatbot.py:164-187 | without a persona it never fails; the only failure is a non-string prompt; the result keeps every configured key and always has `max_chunks` |
| Chatbot.RepairedHasPlaceholders | app/chatbot.py:174-176 | a repaired prompt holds both `{context}` and `{question}`, and a prompt that had both is kept verbatim |
| Chatbot.ApplyPersonaSettings | app/chatbot.py:164-187 | `max_chunks` is the persona's value when set, else the configured one, else 5. A truthy persona's system prompt is its own prompt after `RepairPrompt`, so one holding both placeholders is used verbatim, and it holds both placeholders. Without a persona the system prompt is the configured one, and no other entry changes |
| KeyValueStore.ScanMatch | app/redis_utils.py:129 | the keys SCAN MATCH yields are exactly the keys the glob pattern matches |
| KeyValueStore.MatchLiteral | app/redis_utils.py:129 | a pattern piece without glob characters matches only itself, character by character |
| KeyValueStore.GlobPrefix | app/redis_utils.py:129 | a non-empty literal followed by `*` matches a key exactly when the literal starts it |
| KeyValueStore.ScanIsPrefix | app/redis_utils.py:129 | for a non-empty prefix without glob characters, SCAN MATCH `prefix*` selects exactly the keys starting with the prefix |
| KeyValueStore.CanonicalIntText | ratelimit.py:11-19 | on any value a valid store holds, `int()` of the stored text succeeds exactly for an `Int`, and gives its number |
| Chatbot.RequestConfig | app/chatbot.py:150-152 | an unknown client is refused before anything else |
| Chatbot.StaticSettingsWithoutPersona | app/chatbot.py:150-187 | a configured client without a persona gets its static settings, tagged with its id |
| Chatbot.RequestConfigInPlace | app/chatbot.py:150-187 | as written, the request's configuration is written back into the table under the client's id |
| Chatbot.InPlaceRequestChangesTable | app/chatbot.py:150-154 | as written, one request changes CLIENT_CONFIG: the client's entry gains `client_id` |
| Chatbot.UnawaitedRequestChangesTable | app/chatbot.py:150-174 | as literally written, the un-awaited persona (a coroutine, truthy and not a string) makes the request fail, and the client's entry has still gained `client_id` |
| Chatbot.InPlaceRequestLeaks | app/chatbot.py:150-187 | as written, a persona's `max_chunks` survives into the next request without a persona; the fresh-copy model gives the configured value |
| ClientConfig.StaticEntry | app/client_config.py:3-245 | every configured client sets `max_chunks` and `has_chat_memory` |
| ChunkTexts.SplitIntoChunks | scripts/chunk_texts.py:12-35 | the chunks are those of the greedy fold over the text's lines, with the open chunk flushed at the end |
| ChunkTexts.ChunksChunk | scripts/chunk_texts.py:12-35 | the chunks' lines are exactly the stripped non-blank lines, in order. Their words are exactly the text's words, none lost or repeated. There are no chunks exactly when the text has no words. Every chunk is stripped, and only the first may be empty, exactly when the first line alone exceeds `max_words`. A chunk over the bound is a single line, and every cut was forced by the next line |
| ChunkTexts.ChunksKeepWords | scripts/chunk_texts.py:12-35 | concatenating the words of all chunks gives exactly the words of the text, in order, with none lost or duplicated |
| ChunkTexts.ChunksKeepLines | scripts/chunk_texts.py:18-33 | the lines of the chunks, in order, are exactly the text's non-blank lines, each stripped |
| ChunkTexts.NoChunksWithoutWords | scripts/chunk_texts.py:32-35 | a text with no words (only blank or whitespace lines) gives an empty list, and any other text at least one chunk |
| ChunkTexts.ChunksWithinBound | scripts/chunk_texts.py:24-30 | every chunk is stripped and only the first may be empty. A chunk over `max_words` is a single line. Each new chunk started because its first line, added to the previous chunk, would have passed `max_words` |
| ChunkTexts.EmptyFirstChunk | scripts/chunk_texts.py:15-25 | an empty-string chunk comes first exactly when the first non-blank line alone exceeds `max_words` |
| ChunkTexts.FoldPacked | scripts/chunk_texts.py:18-30 | after each line, `word_count` is the number of words in the open chunk, the open chunk is the stripped lines joined by "\n" with a trailing "\n", and the chunks so far cover the lines read |
| ChunkTexts.PackedStep | scripts/chunk_texts.py:23-30 | one non-blank line keeps the loop invariant, whether it starts a new chunk or joins the open one |
| ChunkTexts.PackedCut | scripts/chunk_texts.py:24-27 | a line that would take the count over `max_words` closes the open chunk and starts a new one holding that line |
| ChunkTexts.PackedAppend | scripts/chunk_texts.py:28-30 | a line that fits joins the open chunk and adds its words to the count |
| ChunkTexts.PackedFinish | scripts/chunk_texts.py:32-33 | flushing a non-empty open chunk gives chunks covering exactly the lines read |
| ChunkTexts.ChunksBounded | scripts/chunk_texts.py:24-30 | in any well-chunked result, for every index: the chunk is stripped; only the first may be empty; a chunk over the bound is one line; and each cut happened because the next line would have exceeded the bound |
| ChunkTexts.ParagraphsSnoc | scripts/chunk_texts.py:19-21 | a blank or whitespace-only line contributes nothing, and any other line contributes its stripped form |
| ChunkTexts.ParagraphWords | scripts/chunk_texts.py:19-23 | dropping blank lines and stripping the others keeps every word |
| ChunkTexts.NoParagraphsNoWords | scripts/chunk_texts.py:32-35 | a text has no non-blank line exactly when it has no words, so such a text gives an empty list |
| ChunkTexts.ChunksHoldTheWords | scripts/chunk_texts.py:12-35 | chunks made of the text's non-blank lines hold exactly the text's words in order |
| ChunkTexts.OpenChunk | scripts/chunk_texts.py:25-33 | `chunk.strip()` is exactly the joined lines of the open chunk, and the chunk is empty exactly when no line has joined it |

## Left out

- Concurrency: every store command is one atomic step. Pipeline atomicity
  and the race between the check and INCR in the rate limiter are not
  modelled.
- The missing `await` on `get_persona` (app/chatbot.py:162) is not
  modelled: the persona is taken as awaited. As literally written,
  `redis_persona` is a coroutine and line 174 raises `TypeError` on every
  request, after line 154 has already written `client_id` into the table.
- Clocks and dates are parameters (`now`, `today`, `month`, `date`);
  `strftime` and the ISO formatting of timestamps are not modelled.
- The in-memory `get_memory` reads the clock twice. The model uses one
  instant for both the pruning and the new timestamp.
- JSON is abstracted as an object of fields or a scalar. The text of a
  stored object is not kept.
- AppendToPersona: on a JSON object without `prompt`, and on an
  `Instant`, the model gives `Unsupported`. The code instead stores
  `{"prompt": strip(raw) + "\n\n" + strip(text)}`, dropping the object's
  other fields (app/redis_utils.py:77-83). The model keeps no raw text for
  those kinds.
- GetPersona: on an `Instant` the model gives `Unsupported`, where the code
  returns `{"prompt": raw}` (app/redis_utils.py:51-52). The model keeps no
  text for an `Instant`.
- Canonical: `Plain` text is assumed not to be JSON or an ISO timestamp,
  and an `Int` stands for the decimal form Redis writes. Text that `int()`
  accepts in another form (a leading `+`, zeros or spaces) is filed as an
  `Int` too, although Redis's INCRBY would refuse it.
- A scalar of another JSON type (a float or a list) is reduced to its
  truthiness.
- A prompt that is not a string gives `NotAString`; the code raises on
  `.strip()` or on `in`.
- SessionTimeoutMinutes: `int()` is modelled for integers, booleans and
  ASCII decimal strings with optional sign and surrounding whitespace. It
  does not cover floats, underscores or non-ASCII digits.
- Default arguments are not modelled: `max_words=350`
  (scripts/chunk_texts.py:12), `max_requests=20` and `window_seconds=60`
  (ratelimit.py:9) and `model="unknown"` (app/redis_utils.py:85). Every
  modelled operation takes these as explicit parameters.
- Integers are unbounded: Redis's 64-bit counter overflow is not
  modelled. The one Python range limit the modelled code meets,
  `timedelta`'s, is modelled (`TimedeltaMinutes`).
- GetTokenUsage: the per-model keys are selected by their literal prefix,
  which is what the code intends. As written, the code matches them with a
  glob, so an API key holding `*`, `?`, `[` or `\` also reads other API
  keys' model counters (`ScanReadsOtherTenant`, and see Findings). For API
  keys without those characters the two agree (`PlainKeyScansOwnModels`).
- SCAN's cursor, its batching and its possible repeats of a key are not
  modelled: a scan yields each matching key once.
- `app/redis_memory.py` imports a `SESSION_TIMEOUT` that
  `app/redis_utils.py` does not define. The model uses the 30-minute
  default at app/redis_utils.py:26 as the memory lifetime.
- The chat log and the conversation memory share one list kind. An entry
  of the other codec in a list is refused (`Undecodable`) where the code
  would raise or misread it.
- DecodeEncodeOther: only for type names without ':' that are not "ai",
  "human" or "system". A type name with ':' makes the split land inside
  it, and the model is weaker there.
- Two sessions whose `client:chat` concatenations coincide (an id
  containing ':') share one key. This follows the code and is not
  excluded.
- Firestore, the language model, Pinecone, embeddings and the web and UI
  layers are not part of this model. A chat-memory client's history is
  only marked as coming from Firestore (`FromFirestore`).
- `store_vote`, `append_event` and `append_feedback_event`
  (app/redis_utils.py:221-274) are left out. They are a plain overwrite
  and stream appends carrying wall-clock timestamps.
- The `monthly_limit` quota is configuration data that no modelled code
  checks.
- The static client table keeps only the fields the modelled code reads.
  Prompts, index names and API keys are not part of this model.
- Aliasing of `ChatMessageHistory` objects between the cache and its
  callers is not modelled; histories are values.
- Logging (`print`) is left out.
- Expiry is eager: time passes only through `Store.Advance`, which
  removes every key whose instant has passed. Redis's lazy expiry is
  indistinguishable to the modelled code.
- Some tests disagree with the code: vote validation
  (test/test_feedback.py:63-64) and the stream name and field names
  (test/test_feedback.py:73-77). The model follows the code. The
  summary-injection tests target a different `get_response`.

## Findings

| source | as written | input that shows it | evidently intended | confidence | as-written member | corrected member |
|---|---|---|---|---|---|---|
| app/redis_utils.py:127-131 | `r.scan_iter(match=f"{model_prefix}*")` puts the API key into a glob pattern unescaped, and `key[len(model_prefix):]` names whatever matched | API key "a*" while the store holds `token_usage:ab:model:gpt` = 7: `per_model_tokens` is `{"gpt": 7}`, another API key's usage | only this API key's model counters are reported, as for keys without glob characters | not executed; high | RedisUtils.ScanReadsOtherTenant | RedisUtils.GetTokenUsage |
| app/chatbot.py:150-187 | `config = CLIENT_CONFIG.get(client_id)` is the table's own entry, and lines 154, 178, 182 and 187 assign into it, so every request rewrites CLIENT_CONFIG | any request for "maximos": the table gains `client_id` (line 154), even as literally written, where line 174 then raises because `get_persona` is not awaited (Chatbot.InPlaceRequestChangesTable, Chatbot.UnawaitedRequestChangesTable). Taking the persona as awaited, a request with a persona `{"max_chunks": 9}` followed by one without a persona makes the second use `max_chunks` 9 (Chatbot.InPlaceRequestLeaks) | the static table stays unchanged across requests (test/test_config_copy.py:74-87 asserts this), so a request without a persona uses the configured `max_chunks` 3 | not executed; high | Chatbot.InPlaceRequestLeaks | Chatbot.StaticSettingsWithoutPersona |
