/** The Redis server the core talks to: a map from keys to values, an expiry
    instant per key that has one, and the server clock. Each method is one
    Redis command, executed atomically. */
module KeyValueStore {
  import opened Common
  import opened Text

  /** A decoded JSON value inside an object or as a whole document. `FOther`
      stands for floats, arrays and nested objects, of which only Python
      truthiness matters here. */
  datatype Field = FStr(s: string) | FInt(n: int) | FBool(b: bool) | FNull | FOther(truthy: bool)

  /** What `json.loads` makes of a stored text: an object, or another JSON
      value together with the text it was decoded from. */
  datatype Doc = Object(fields: map<string, Field>) | Scalar(text: string, value: Field)

  /** An element of a Redis list: a raw string, or the JSON text of a
      `{"role": ..., "content": ...}` record. */
  datatype Item = Line(s: string) | Record(role: string, content: string)

  /** A stored value. Redis keeps strings, lists and hashes; strings are
      split by what the reading code can make of them: a decimal integer,
      an ISO-8601 timestamp, the text of a JSON document, or any other text. */
  datatype Value =
    | Int(n: int)
    | Instant(t: int)
    | Json(doc: Doc)
    | Plain(s: string)
    | List(items: seq<Item>)
    | Hash(fields: map<string, string>)

  /** A stored string is filed under the kind its text determines: text that
      `int()` accepts is always an `Int`, never JSON or plain text. */
  predicate Canonical(v: Value)
  {
    match v
    case Json(Scalar(t, f)) => !f.FInt? && ParseInt(t).None?
    case Plain(s) => ParseInt(s).None?
    case _ => true
  }

  /** The stored text itself, where the model keeps it. */
  function RawText(v: Value): Option<string>
  {
    match v
    case Int(n) => Some(IntToString(n))
    case Json(Scalar(t, _)) => Some(t)
    case Plain(s) => Some(s)
    case _ => None
  }

  /** On a canonical value, `int()` of the stored text succeeds exactly for
      an `Int`, and gives its number. */
  lemma CanonicalIntText(v: Value)
    requires Canonical(v)
    ensures (RawText(v).Some? && ParseInt(RawText(v).value).Some?) <==> v.Int?
    ensures v.Int? ==> ParseInt(RawText(v).value) == Some(v.n)
  {
    if v.Int? {
      ParseIntOfString(v.n);
    }
  }

  /** Seconds in a day. */
  const Day: int := 60 * 60 * 24

  /** The value stored under `key`, if any. */
  function Lookup(data: map<string, Value>, key: string): (v: Option<Value>)
    ensures v.Some? <==> key in data
    ensures v.Some? ==> v.value == data[key]
  {
    if key in data then Some(data[key]) else None
  }

  /** What GET answers for `key`: nothing for an absent key, the string
      value otherwise, and a WRONGTYPE error for a list or a hash. */
  function Get(data: map<string, Value>, key: string): (v: Result<Option<Value>>)
    ensures v == Ok(None) <==> key !in data
    ensures v.Err? <==> key in data && (data[key].List? || data[key].Hash?)
    ensures v.Ok? && v.value.Some? ==> key in data && v.value.value == data[key]
  {
    if key !in data then Ok(None)
    else if data[key].List? || data[key].Hash? then Err(WrongType)
    else Ok(Some(data[key]))
  }

  /** The data that survives once the clock reads `t`: a key is gone as soon
      as its expiry instant is reached. */
  function Purge(data: map<string, Value>, expiry: map<string, int>, t: int): (d: map<string, Value>)
    ensures forall k :: k in d <==> k in data && (k !in expiry || expiry[k] > t)
    ensures forall k :: k in d ==> d[k] == data[k]
  {
    map k | k in data && (k !in expiry || expiry[k] > t) :: data[k]
  }

  function PurgeExpiry(expiry: map<string, int>, t: int): (e: map<string, int>)
    ensures forall k :: k in e <==> k in expiry && expiry[k] > t
    ensures forall k :: k in e ==> e[k] == expiry[k]
  {
    map k | k in expiry && expiry[k] > t :: expiry[k]
  }

  /** Keys of `data` that literally start with `prefix`. `SCAN MATCH
      prefix*` selects the same keys only when `prefix` holds no glob
      character (`ScanIsPrefix`). */
  function KeysWithPrefix(data: map<string, Value>, prefix: string): (ks: set<string>)
    ensures forall k :: k in ks <==> k in data && prefix <= k
  {
    set k | k in data && prefix <= k
  }

  // ---------------------------------------------------------------------
  // Glob patterns, as SCAN MATCH reads them

  /** The characters a glob pattern gives a meaning to. */
  predicate IsGlobChar(c: char) { c == '*' || c == '?' || c == '[' || c == '\\' }

  predicate NoGlob(p: string) { forall k :: 0 <= k < |p| ==> !IsGlobChar(p[k]) }

  predicate AllStars(p: string) { forall k :: 0 <= k < |p| ==> p[k] == '*' }

  /** The pattern after a run of leading stars, keeping one of them. */
  function CollapseStars(p: string): (q: string)
    requires |p| >= 1 && p[0] == '*'
    ensures |q| >= 1 && |q| <= |p| && q[0] == '*' && (|q| == 1 || q[1] != '*')
  {
    if |p| >= 2 && p[1] == '*' then CollapseStars(p[1..]) else p
  }

  /** A character class `[...]` after its `[` (and `^`), tested against `c`:
      whether `c` is in it, and the pattern after its `]`. An escaped
      character stands for itself, `a-z` is a range (either way round), and
      an unterminated class runs to the end of the pattern. */
  function Class(p: string, c: char): (r: (bool, string))
    ensures |r.1| <= |p|
  {
    if p == [] then (false, [])
    else if p[0] == '\\' && |p| >= 2 then
      var t := Class(p[2..], c); (t.0 || p[1] == c, t.1)
    else if p[0] == ']' then (false, p[1..])
    else if |p| >= 3 && p[1] == '-' then
      var lo := if p[0] <= p[2] then p[0] else p[2];
      var hi := if p[0] <= p[2] then p[2] else p[0];
      var t := Class(p[3..], c); (t.0 || lo <= c <= hi, t.1)
    else
      var t := Class(p[1..], c); (t.0 || p[0] == c, t.1)
  }

  /** Redis's glob match of key `s` against pattern `p`, step by step as
      the server's matcher walks them: `*` any run, `?` one character,
      `[...]` a class, `\\x` the character x. Once the key is used up only
      stars may remain; an empty key matches only the empty pattern. */
  predicate GlobMatch(p: string, s: string)
    decreases |p| + |s|, 1
  {
    if p == [] || s == [] then p == [] && s == []
    else if p[0] == '*' then
      var q := CollapseStars(p);
      |q| == 1 || StarMatch(q[1..], s)
    else
      var (ok, rest) :=
        if p[0] == '?' then (true, p[1..])
        else if p[0] == '[' then
          var neg := |p| >= 2 && p[1] == '^';
          var body := if neg then p[2..] else p[1..];
          var (inClass, after) := Class(body, s[0]);
          (inClass != neg, after)
        else if p[0] == '\\' && |p| >= 2 then (s[0] == p[1], p[2..])
        else (s[0] == p[0], p[1..]);
      ok && (if s[1..] == [] then AllStars(rest) else GlobMatch(rest, s[1..]))
  }

  /** The pattern after a star matches some non-empty suffix of `s`. */
  predicate StarMatch(q: string, s: string)
    decreases |q| + |s| + 1, 0
  {
    s != [] && (GlobMatch(q, s) || StarMatch(q, s[1..]))
  }

  /** `SCAN MATCH pattern`: the keys of `data` the pattern matches. */
  function ScanMatch(data: map<string, Value>, pattern: string): (ks: set<string>)
    ensures forall k :: k in ks <==> k in data && GlobMatch(pattern, k)
  {
    set k | k in data && GlobMatch(pattern, k)
  }

  /** A literal pattern piece is matched character by character. */
  lemma {:induction false} MatchLiteral(lit: string, q: string, t: string)
    requires NoGlob(lit) && t != []
    ensures GlobMatch(lit + q, lit + t) == GlobMatch(q, t)
    decreases |lit|
  {
    if lit != [] {
      var p, s := lit + q, lit + t;
      assert !IsGlobChar(lit[0]) && p[0] == lit[0] && s[0] == lit[0];
      assert p[1..] == lit[1..] + q;
      assert s[1..] == lit[1..] + t;
      assert s[1..] != [];
      assert GlobMatch(p, s) == GlobMatch(p[1..], s[1..]);
      MatchLiteral(lit[1..], q, t);
    } else {
      assert lit + q == q && lit + t == t;
    }
  }

  /** A non-empty literal followed by `*` matches exactly the keys it
      starts. */
  lemma {:induction false} GlobPrefix(lit: string, s: string)
    requires NoGlob(lit) && lit != []
    ensures GlobMatch(lit + "*", s) <==> lit <= s
    decreases |lit|
  {
    var p := lit + "*";
    assert !IsGlobChar(lit[0]);
    if s != [] {
      assert p[1..] == lit[1..] + "*";
      if lit[1..] == [] {
        assert p[1..] == "*";
        if s[1..] != [] {
          assert CollapseStars("*") == "*";
        }
      } else if s[1..] == [] {
        assert p[1..][0] == lit[1];
      } else {
        GlobPrefix(lit[1..], s[1..]);
        assert lit <= s <==> s[0] == lit[0] && lit[1..] <= s[1..];
      }
    }
  }

  /** For a prefix without glob characters, `SCAN MATCH prefix*` is the
      literal prefix selection. */
  lemma ScanIsPrefix(data: map<string, Value>, prefix: string)
    requires NoGlob(prefix) && prefix != []
    ensures ScanMatch(data, prefix + "*") == KeysWithPrefix(data, prefix)
  {
    forall k | k in data
      ensures GlobMatch(prefix + "*", k) <==> prefix <= k
    {
      GlobPrefix(prefix, k);
    }
  }

  class Store {
    var data: map<string, Value>
    var expiry: map<string, int>
    var now: int

    /** Every expiry belongs to a present key and lies in the future, and
        every value is filed under its canonical kind. */
    ghost predicate Valid()
      reads this
    {
      expiry.Keys <= data.Keys && (forall k :: k in expiry ==> expiry[k] > now) &&
      forall k :: k in data ==> Canonical(data[k])
    }

    constructor (start: int)
      ensures Valid()
      ensures data == map[] && expiry == map[] && now == start
    {
      data, expiry, now := map[], map[], start;
    }

    /** The clock moves forward to `t`; keys whose expiry is reached disappear. */
    method Advance(t: int)
      requires Valid() && t >= now
      modifies this
      ensures Valid() && now == t
      ensures data == Purge(old(data), old(expiry), t)
      ensures expiry == PurgeExpiry(old(expiry), t)
    {
      data := Purge(data, expiry, t);
      expiry := PurgeExpiry(expiry, t);
      now := t;
    }

    /** GET. */
    method Read(key: string) returns (v: Result<Option<Value>>)
      ensures v == Get(data, key)
    {
      v := Get(data, key);
    }

    /** SET without EX: stores the value and clears any expiry. */
    method Put(key: string, v: Value)
      requires Valid() && Canonical(v)
      modifies this
      ensures Valid() && now == old(now)
      ensures data == old(data)[key := v]
      ensures expiry == old(expiry) - {key}
    {
      data := data[key := v];
      expiry := expiry - {key};
    }

    /** SET key v EX ttl / SETEX: stores the value with expiry now + ttl;
        Redis refuses a non-positive ttl. */
    method PutEx(key: string, ttl: int, v: Value) returns (r: Result<()>)
      requires Valid() && Canonical(v)
      modifies this
      ensures Valid() && now == old(now)
      ensures r.Ok? <==> ttl > 0
      ensures r.Err? ==> r.error == InvalidExpireTime
      ensures data == if ttl > 0 then old(data)[key := v] else old(data)
      ensures expiry == if ttl > 0 then old(expiry)[key := old(now) + ttl] else old(expiry)
    {
      if ttl <= 0 {
        return Err(InvalidExpireTime);
      }
      data := data[key := v];
      expiry := expiry[key := now + ttl];
      r := Ok(());
    }

    /** INCRBY (INCR is `amount == 1`): an absent key counts as 0; the expiry is kept. */
    method IncrBy(key: string, amount: int) returns (r: Result<int>)
      requires Valid()
      modifies this
      ensures Valid() && now == old(now) && expiry == old(expiry)
      ensures key !in old(data) ==> r == Ok(amount) && data == old(data)[key := Int(amount)]
      ensures key in old(data) && old(data)[key].Int? ==>
        r == Ok(old(data)[key].n + amount) && data == old(data)[key := Int(old(data)[key].n + amount)]
      ensures key in old(data) && !old(data)[key].Int? ==> r.Err? && data == old(data)
    {
      if key !in data {
        data := data[key := Int(amount)];
        r := Ok(amount);
      } else {
        match data[key]
        case Int(n) =>
          data := data[key := Int(n + amount)];
          r := Ok(n + amount);
        case List(_) => r := Err(WrongType);
        case Hash(_) => r := Err(WrongType);
        case _ => r := Err(NotAnInteger);
      }
    }

    /** EXPIRE: on a present key, a positive ttl sets expiry now + ttl and a
        non-positive one deletes the key; an absent key is left alone. */
    method Expire(key: string, ttl: int) returns (applied: bool)
      requires Valid()
      modifies this
      ensures Valid() && now == old(now)
      ensures applied <==> key in old(data)
      ensures !applied ==> data == old(data) && expiry == old(expiry)
      ensures applied && ttl > 0 ==> data == old(data) && expiry == old(expiry)[key := old(now) + ttl]
      ensures applied && ttl <= 0 ==> data == old(data) - {key} && expiry == old(expiry) - {key}
    {
      applied := key in data;
      if applied {
        if ttl > 0 {
          expiry := expiry[key := now + ttl];
        } else {
          data := data - {key};
          expiry := expiry - {key};
        }
      }
    }

    /** HSETNX: sets `field` only if the hash does not have it yet. */
    method HSetNX(key: string, field: string, v: string) returns (r: Result<bool>)
      requires Valid()
      modifies this
      ensures Valid() && now == old(now) && expiry == old(expiry)
      ensures key !in old(data) ==> r == Ok(true) && data == old(data)[key := Hash(map[field := v])]
      ensures key in old(data) && old(data)[key].Hash? ==>
        var h := old(data)[key].fields;
        if field in h then r == Ok(false) && data == old(data)
        else r == Ok(true) && data == old(data)[key := Hash(h[field := v])]
      ensures key in old(data) && !old(data)[key].Hash? ==> r == Err(WrongType) && data == old(data)
    {
      if key !in data {
        data := data[key := Hash(map[field := v])];
        r := Ok(true);
      } else if data[key].Hash? {
        var h := data[key].fields;
        if field in h {
          r := Ok(false);
        } else {
          data := data[key := Hash(h[field := v])];
          r := Ok(true);
        }
      } else {
        r := Err(WrongType);
      }
    }

    /** RPUSH of one element; returns the new length. */
    method RPush(key: string, x: Item) returns (r: Result<nat>)
      requires Valid()
      modifies this
      ensures Valid() && now == old(now) && expiry == old(expiry)
      ensures key !in old(data) ==> r == Ok(1) && data == old(data)[key := List([x])]
      ensures key in old(data) && old(data)[key].List? ==>
        r == Ok(|old(data)[key].items| + 1) && data == old(data)[key := List(old(data)[key].items + [x])]
      ensures key in old(data) && !old(data)[key].List? ==> r == Err(WrongType) && data == old(data)
    {
      if key !in data {
        data := data[key := List([x])];
        r := Ok(1);
      } else if data[key].List? {
        var xs := data[key].items;
        data := data[key := List(xs + [x])];
        r := Ok(|xs| + 1);
      } else {
        r := Err(WrongType);
      }
    }

    /** LRANGE key 0 -1: the whole list; an absent key reads as empty. */
    method LRange(key: string) returns (r: Result<seq<Item>>)
      ensures key !in data ==> r == Ok([])
      ensures key in data && data[key].List? ==> r == Ok(data[key].items)
      ensures key in data && !data[key].List? ==> r == Err(WrongType)
    {
      if key !in data {
        r := Ok([]);
      } else if data[key].List? {
        r := Ok(data[key].items);
      } else {
        r := Err(WrongType);
      }
    }

    /** DEL: removes the key and its expiry; deleting an absent key is a no-op. */
    method Delete(key: string) returns (removed: bool)
      requires Valid()
      modifies this
      ensures Valid() && now == old(now)
      ensures removed <==> key in old(data)
      ensures data == old(data) - {key} && expiry == old(expiry) - {key}
    {
      removed := key in data;
      data := data - {key};
      expiry := expiry - {key};
    }
  }
}
