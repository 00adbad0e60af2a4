/** The static per-client table (`app/client_config.py`), reduced to the
    fields the modelled code reads. API keys, index names and prompts are
    left out. */
module ClientConfig {
  import opened Common
  import opened KeyValueStore

  function Entry(maxRequests: int, maxChunks: int, hasChatMemory: bool): map<string, Field>
  {
    map[
      "max_requests" := FInt(maxRequests),
      "window_seconds" := FInt(60),
      "monthly_limit" := FInt(1000),
      "max_chunks" := FInt(maxChunks),
      "has_chat_memory" := FBool(hasChatMemory)
    ]
  }

  /** CLIENT_CONFIG. */
  const Static: map<string, map<string, Field>> := map[
    "maximos" := Entry(20, 3, true),
    "ordinance" := Entry(30, 5, false),
    "marketingasst" := Entry(40, 5, false),
    "samuel" := Entry(50, 5, true),
    "prairiepastorate" := Entry(50, 5, true)
  ]

  /** `CLIENT_CONFIG.get(client_id)` as a decoded document. */
  function StaticDoc(clientId: string): (d: Option<Doc>)
    ensures d.Some? <==> clientId in Static
  {
    if clientId in Static then Some(Object(Static[clientId])) else None
  }

  /** Every configured client sets `max_chunks` and `has_chat_memory`. */
  lemma StaticEntry(clientId: string)
    requires clientId in Static
    ensures "max_chunks" in Static[clientId] && Static[clientId]["max_chunks"].FInt?
    ensures "has_chat_memory" in Static[clientId] && Static[clientId]["has_chat_memory"].FBool?
  {
    var e := Static[clientId];
    if clientId == "maximos" {
      assert e == Entry(20, 3, true);
    } else if clientId == "ordinance" {
      assert e == Entry(30, 5, false);
    } else if clientId == "marketingasst" {
      assert e == Entry(40, 5, false);
    } else if clientId == "samuel" {
      assert e == Entry(50, 5, true);
    } else {
      assert e == Entry(50, 5, true);
    }
  }
}
