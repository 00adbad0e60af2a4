/** `app/redis_memory.py`: a session's chat history kept in the store as a
    list of `role:content` lines that expires after the session timeout. */
module RedisMemory {
  import opened Common
  import opened KeyValueStore
  import opened Messages

  function MemoryKey(clientId: string, chatId: string): string { "chatmem:" + clientId + ":" + chatId }

  /** SESSION_TIMEOUT, in seconds: the lifetime of a saved history. */
  const MemoryTtl: int := 30 * 60

  /** The role name written in front of a message. */
  function RoleName(role: Role): string
  {
    match role
    case Ai => "ai"
    case Human => "human"
    case System => "system"
    case Other(t) => t
  }

  /** The line `save_memory` pushes for one message. */
  function Encode(m: Message): (e: string)
    ensures |e| == |RoleName(m.role)| + 1 + |m.content|
    ensures e[..|RoleName(m.role)|] == RoleName(m.role) && e[|RoleName(m.role)| + 1..] == m.content
  {
    RoleName(m.role) + ":" + m.content
  }

  /** Index of the first ':' in `s`, or `|s|` when there is none. */
  function ColonAt(s: string): (i: nat)
    ensures i <= |s|
    ensures ':' !in s[..i]
    ensures i < |s| ==> s[i] == ':'
    ensures i == |s| <==> ':' !in s
  {
    if s == [] then 0
    else if s[0] == ':' then 0
    else
      var j := ColonAt(s[1..]);
      assert s[1..][..j] == s[1..j + 1];
      assert s[..j + 1] == [s[0]] + s[1..j + 1];
      assert s == [s[0]] + s[1..];
      j + 1
  }

  /** `get_memory`'s reading of one line: split at the first ':' (a line
      without one is a human message), and any role other than "ai" and
      "system" read back as a human message. */
  function Decode(entry: string): Message
  {
    var i := ColonAt(entry);
    var name := if i < |entry| then entry[..i] else "human";
    var content := if i < |entry| then entry[i + 1..] else entry;
    if name == "ai" then Message(Ai, content)
    else if name == "human" then Message(Human, content)
    else if name == "system" then Message(System, content)
    else Message(Human, content)
  }

  /** A line split at the first ':' puts the whole content back together,
      whatever colons it holds, as long as the role name has none. */
  lemma {:induction false} SplitAfterName(name: string, content: string)
    requires ':' !in name
    ensures var e := name + ":" + content;
      ColonAt(e) == |name| && e[..|name|] == name && e[|name| + 1..] == content
  {
    var e := name + ":" + content;
    assert e[|name|] == ':';
    assert e[..|name|] == name;
    assert e[|name| + 1..] == content;
  }

  /** A line `name:content` whose name holds no ':' reads back as its whole
      content, as an AI message exactly when the name is "ai", a system
      message exactly when it is "system", and a human message otherwise. */
  lemma DecodeLine(name: string, content: string)
    requires ':' !in name
    ensures Decode(name + ":" + content) ==
      Message(if name == "ai" then Ai else if name == "system" then System else Human, content)
  {
    SplitAfterName(name, content);
  }

  /** Human, AI and system messages survive a save and a load unchanged. */
  lemma {:induction false} DecodeEncode(m: Message)
    requires !m.role.Other?
    ensures Decode(Encode(m)) == m
  {
    SplitAfterName(RoleName(m.role), m.content);
  }

  /** Any other message class comes back as a human message with the same
      content, when its type name has no ':' and is not a built-in name. */
  lemma {:induction false} DecodeEncodeOther(t: string, content: string)
    requires ':' !in t && t != "ai" && t != "human" && t != "system"
    ensures Decode(Encode(Message(Other(t), content))) == Message(Human, content)
  {
    SplitAfterName(t, content);
  }

  /** Loading never produces a message of another class. */
  lemma DecodeRoles(entry: string)
    ensures !Decode(entry).role.Other?
  {
  }

  /** A line without ':' is read as a human message holding all of it. */
  lemma LineWithoutColon(entry: string)
    requires ':' !in entry
    ensures Decode(entry) == Message(Human, entry)
  {
  }

  /** The list `save_memory` writes. */
  function EncodeAll(msgs: seq<Message>): (items: seq<Item>)
    ensures |items| == |msgs|
    ensures forall i :: 0 <= i < |msgs| ==> items[i] == Line(Encode(msgs[i]))
  {
    seq(|msgs|, i requires 0 <= i < |msgs| => Line(Encode(msgs[i])))
  }

  /** `get_memory` on a list: a JSON record pushed by `save_chat_message`
      under this key is not a line the codec reads. */
  function DecodeAll(items: seq<Item>): (r: Result<seq<Message>>)
    ensures r.Ok? <==> forall i :: 0 <= i < |items| ==> items[i].Line?
    ensures r.Ok? ==> (|r.value| == |items| &&
      forall i :: 0 <= i < |items| ==> r.value[i] == Decode(items[i].s))
    ensures r.Err? ==> r.error == Undecodable
  {
    if items == [] then Ok([])
    else if items[0].Record? then Err(Undecodable)
    else
      var rest := DecodeAll(items[1..]);
      if rest.Err? then rest else Ok([Decode(items[0].s)] + rest.value)
  }

  /** The history held under `key`; an absent key is an empty history. */
  function MemoryOf(data: map<string, Value>, key: string): Result<seq<Message>>
  {
    if key !in data then Ok([])
    else if data[key].List? then DecodeAll(data[key].items)
    else Err(WrongType)
  }

  /** The data after `save_memory`: the key holds exactly the encoded
      messages, and is gone when there are none. */
  function Saved(data: map<string, Value>, key: string, msgs: seq<Message>): map<string, Value>
  {
    if msgs == [] then data - {key} else data[key := List(EncodeAll(msgs))]
  }

  function SavedExpiry(expiry: map<string, int>, key: string, msgs: seq<Message>, now: int): map<string, int>
  {
    if msgs == [] then expiry - {key} else expiry[key := now + MemoryTtl]
  }

  /** `save_memory(client_id, chat_id, chat_history)`: DELETE, one RPUSH per
      message and EXPIRE, executed as one transaction. */
  method SaveMemory(r: Store, clientId: string, chatId: string, msgs: seq<Message>)
    requires r.Valid()
    modifies r
    ensures r.Valid() && r.now == old(r.now)
    ensures r.data == Saved(old(r.data), MemoryKey(clientId, chatId), msgs)
    ensures r.expiry == SavedExpiry(old(r.expiry), MemoryKey(clientId, chatId), msgs, old(r.now))
  {
    var key := MemoryKey(clientId, chatId);
    var _ := r.Delete(key);
    ghost var cleared := r.data;
    var i := 0;
    while i < |msgs|
      invariant 0 <= i <= |msgs|
      invariant r.Valid() && r.now == old(r.now)
      invariant r.expiry == old(r.expiry) - {key}
      invariant i == 0 ==> r.data == cleared
      invariant i > 0 ==> r.data == cleared[key := List(EncodeAll(msgs[..i]))]
      invariant cleared == old(r.data) - {key}
    {
      ghost var before := r.data;
      var _ := r.RPush(key, Line(Encode(msgs[i])));
      assert EncodeAll(msgs[..i + 1]) == EncodeAll(msgs[..i]) + [Line(Encode(msgs[i]))];
      if i == 0 {
        assert EncodeAll(msgs[..i]) == [];
        assert EncodeAll(msgs[..i + 1]) == [Line(Encode(msgs[i]))];
        assert r.data == cleared[key := List([Line(Encode(msgs[i]))])];
      } else {
        assert before[key].items == EncodeAll(msgs[..i]);
        assert r.data == cleared[key := List(EncodeAll(msgs[..i]) + [Line(Encode(msgs[i]))])];
      }
      assert r.data == cleared[key := List(EncodeAll(msgs[..i + 1]))];
      i := i + 1;
    }
    assert msgs[..|msgs|] == msgs;
    var _ := r.Expire(key, MemoryTtl);
  }

  /** Lines decoded one by one give what `DecodeAll` gives. */
  lemma DecodedAll(items: seq<Item>, msgs: seq<Message>)
    requires forall k :: 0 <= k < |items| ==> items[k].Line?
    requires |msgs| == |items| && forall k :: 0 <= k < |items| ==> msgs[k] == Decode(items[k].s)
    ensures DecodeAll(items) == Ok(msgs)
  {
    assert DecodeAll(items).value == msgs;
  }

  lemma RecordUndecodable(items: seq<Item>, i: nat)
    requires i < |items| && items[i].Record?
    ensures DecodeAll(items) == Err(Undecodable)
  {
  }

  /** `get_memory(client_id, chat_id)`, decoding the list line by line. */
  method GetMemory(r: Store, clientId: string, chatId: string) returns (history: Result<seq<Message>>)
    ensures history == MemoryOf(r.data, MemoryKey(clientId, chatId))
  {
    var entries := r.LRange(MemoryKey(clientId, chatId));
    if entries.Err? {
      return Err(entries.error);
    }
    var items := entries.value;
    var msgs: seq<Message> := [];
    for i := 0 to |items|
      invariant forall k :: 0 <= k < i ==> items[k].Line?
      invariant |msgs| == i && forall k :: 0 <= k < i ==> msgs[k] == Decode(items[k].s)
    {
      if items[i].Record? {
        RecordUndecodable(items, i);
        return Err(Undecodable);
      }
      msgs := msgs + [Decode(items[i].s)];
    }
    DecodedAll(items, msgs);
    history := Ok(msgs);
  }

  /** `delete_memory(client_id, chat_id)`. */
  method DeleteMemory(r: Store, clientId: string, chatId: string)
    requires r.Valid()
    modifies r
    ensures r.Valid() && r.now == old(r.now)
    ensures r.data == old(r.data) - {MemoryKey(clientId, chatId)}
    ensures r.expiry == old(r.expiry) - {MemoryKey(clientId, chatId)}
  {
    var _ := r.Delete(MemoryKey(clientId, chatId));
  }

  /** Saving a history and loading it back returns it unchanged when it
      holds only human, AI and system messages; an empty history loads as
      empty. */
  lemma {:induction false} SaveThenLoad(data: map<string, Value>, key: string, msgs: seq<Message>)
    requires forall i :: 0 <= i < |msgs| ==> !msgs[i].role.Other?
    ensures MemoryOf(Saved(data, key, msgs), key) == Ok(msgs)
  {
    if msgs != [] {
      var loaded := DecodeAll(EncodeAll(msgs));
      assert MemoryOf(Saved(data, key, msgs), key) == loaded;
      assert loaded.Ok?;
      forall i | 0 <= i < |msgs|
        ensures loaded.value[i] == msgs[i]
      {
        DecodeEncode(msgs[i]);
      }
      assert loaded.value == msgs;
    }
  }

  /** Saving or deleting one session's history leaves every other key of
      the store as it was. */
  lemma OnlyItsKey(data: map<string, Value>, clientId: string, chatId: string, msgs: seq<Message>, k: string)
    requires k != MemoryKey(clientId, chatId)
    ensures Lookup(Saved(data, MemoryKey(clientId, chatId), msgs), k) == Lookup(data, k)
    ensures Lookup(data - {MemoryKey(clientId, chatId)}, k) == Lookup(data, k)
  {
  }

  /** A deleted history loads as empty. */
  lemma DeletedLoadsEmpty(data: map<string, Value>, key: string)
    ensures MemoryOf(data - {key}, key) == Ok([])
  {
  }
}
