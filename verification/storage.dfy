/**
 * The renderer's persistent key-value store (`storage.ts`): JSON values kept
 * as text in local storage, with three protected keys whose values are
 * repaired on read, on write and on removal.
 *
 * The pure functions below give the value each operation returns and the
 * table it leaves behind; the `Store` class performs the same steps on the
 * shared `Browser.LocalStorage` and is proved against them.
 */
module Storage {
  import opened Wrappers
  import opened Json
  import Browser

  const SettingsKey := "settings"
  const ChatSessionsKey := "chat_sessions"
  const MyCopilotsKey := "my_copilots"

  /** The keys whose removal resets them to a default. */
  predicate Protected(key: string) {
    key == SettingsKey || key == ChatSessionsKey || key == MyCopilotsKey
  }

  /** What the store is built over: the JSON codec and `defaults.settings()`. */
  datatype Env = Env(codec: Codec, defaults: map<string, Value>)

  /** createDefaultSession, with `uuidv4()` and `Date.now()` supplied as `id` and `now`. */
  function DefaultSession(id: string, now: int): (r: Value)
    ensures Defined(r)
    ensures r.Obj? && r.fields.Keys == {"id", "name", "type", "messages", "model", "createdAt"}
    ensures r.fields["id"] == Str(id) && r.fields["messages"] == Arr([])
  {
    Obj(map[
      "id" := Str(id),
      "name" := Str("New Chat"),
      "type" := Str("chat"),
      "messages" := Arr([]),
      "model" := Str("gpt-3.5-turbo"),
      "createdAt" := Num(Integer(now))
    ])
  }

  /** `Object.assign({}, defaults.settings(), source)` */
  function MergeSettings(defaults: map<string, Value>, source: Value): (r: Value)
    ensures r.Obj?
    ensures r.fields.Keys == defaults.Keys + OwnProps(source).Keys
    ensures forall k :: k in OwnProps(source) ==> r.fields[k] == OwnProps(source)[k]
    ensures forall k :: k in defaults && k !in OwnProps(source) ==> r.fields[k] == defaults[k]
  {
    Obj(defaults + OwnProps(source))
  }

  /**
   * The per-key default: what a failed read returns and what removing a
   * protected key writes. Unprotected keys default to null.
   */
  function DefaultFor(env: Env, key: string, id: string, now: int): (r: Value)
    ensures key == SettingsKey ==> r == Obj(env.defaults)
    ensures key == ChatSessionsKey ==> r == Arr([DefaultSession(id, now)])
    ensures key == MyCopilotsKey ==> r == Arr([])
    ensures !Protected(key) ==> r == Null
  {
    match key
    case "settings" => Obj(env.defaults)
    case "chat_sessions" => Arr([DefaultSession(id, now)])
    case "my_copilots" => Arr([])
    case _ => Null
  }

  /** The stored value needs repair on read: missing, not an array, or an empty array. */
  predicate SessionsNeedRepair(v: Value) {
    !Truthy(v) || !v.Arr? || |v.elems| == 0
  }

  predicate CopilotsNeedRepair(v: Value) {
    !Truthy(v) || !v.Arr?
  }

  /** What `getItem` returns, and the table after it. */
  datatype Outcome = Outcome(value: Value, items: map<string, string>)

  /**
   * `storage.getItem(key)`. A parse failure is caught: the per-key default is
   * returned and nothing is written. Otherwise settings are merged with the
   * defaults, and a sessions or copilots entry that needs repair is replaced
   * by its default, which is also written back.
   */
  function ItemRead(env: Env, items: map<string, string>, key: string, id: string, now: int): (r: Outcome)
    ensures key == SettingsKey ==> r.value.Obj? && env.defaults.Keys <= r.value.fields.Keys
    ensures key == ChatSessionsKey ==> r.value.Arr? && |r.value.elems| >= 1
    ensures key == MyCopilotsKey ==> r.value.Arr?
    ensures key == SettingsKey && ParseOr(env.codec, Browser.Lookup(items, key), Null).Some? ==>
      r == Outcome(MergeSettings(env.defaults, ParseOr(env.codec, Browser.Lookup(items, key), Null).value), items)
    ensures !Protected(key) && ParseOr(env.codec, Browser.Lookup(items, key), Null).Some? ==>
      r == Outcome(ParseOr(env.codec, Browser.Lookup(items, key), Null).value, items)
    ensures r.items - {key} == items - {key}
    ensures r.items != items ==> key == ChatSessionsKey || key == MyCopilotsKey
  {
    match ParseOr(env.codec, Browser.Lookup(items, key), Null)
    case None => Outcome(DefaultFor(env, key, id, now), items)
    case Some(v) =>
      if key == SettingsKey then
        Outcome(MergeSettings(env.defaults, v), items)
      else if key == ChatSessionsKey && SessionsNeedRepair(v) then
        var sessions := Arr([DefaultSession(id, now)]);
        Outcome(sessions, items[key := env.codec.stringify(sessions)])
      else if key == MyCopilotsKey && CopilotsNeedRepair(v) then
        Outcome(Arr([]), items[key := env.codec.stringify(Arr([]))])
      else
        Outcome(v, items)
  }

  /**
   * The value `setItem(key, value)` serialises: settings merged onto the
   * defaults, an empty session list replaced by one default session, a
   * non-array copilot list replaced by [], anything else as given.
   */
  function StoredValue(env: Env, key: string, value: Value, id: string, now: int): (r: Value)
    ensures key == SettingsKey ==> r == MergeSettings(env.defaults, value)
    ensures key == SettingsKey ==> r.Obj? && env.defaults.Keys <= r.fields.Keys
    ensures key == ChatSessionsKey ==> r != Arr([])
    ensures key == ChatSessionsKey && value == Arr([]) ==> r == Arr([DefaultSession(id, now)])
    ensures key == ChatSessionsKey && value != Arr([]) ==> r == value
    ensures key == MyCopilotsKey ==> r.Arr? && (value.Arr? ==> r == value)
    ensures key == MyCopilotsKey && !value.Arr? ==> r == Arr([])
    ensures !Protected(key) ==> r == value
  {
    if key == SettingsKey then MergeSettings(env.defaults, value)
    else if key == ChatSessionsKey && value.Arr? && |value.elems| == 0 then Arr([DefaultSession(id, now)])
    else if key == MyCopilotsKey && !value.Arr? then Arr([])
    else value
  }

  /** The table after `setItem(key, value)`. */
  function ItemWritten(env: Env, items: map<string, string>, key: string, value: Value, id: string, now: int): (r: map<string, string>)
    ensures key in r && r - {key} == items - {key}
  {
    items[key := env.codec.stringify(StoredValue(env, key, value, id, now))]
  }

  /** The table after `removeItem(key)`: protected keys are reset, others deleted. */
  function ItemRemoved(env: Env, items: map<string, string>, key: string, id: string, now: int): (r: map<string, string>)
    ensures r - {key} == items - {key}
    ensures Protected(key) <==> key in r
  {
    if Protected(key) then items[key := env.codec.stringify(DefaultFor(env, key, id, now))]
    else items - {key}
  }

  /** The storage object, operating on the shared local storage. */
  class Store {
    const local: Browser.LocalStorage
    const env: Env

    constructor (local: Browser.LocalStorage, env: Env)
      ensures this.local == local && this.env == env
    {
      this.local := local;
      this.env := env;
    }

    method GetItem(key: string, id: string, now: int) returns (value: Value)
      modifies local
      ensures Outcome(value, local.items) == ItemRead(env, old(local.items), key, id, now)
    {
      var item := local.GetItem(key);
      var parsed := ParseOr(env.codec, item, Null);
      if parsed.None? {
        // the catch branch: fall back to the per-key default, write nothing
        value := DefaultFor(env, key, id, now);
        return;
      }
      var v := parsed.value;
      if key == SettingsKey {
        value := MergeSettings(env.defaults, v);
      } else if key == ChatSessionsKey {
        if SessionsNeedRepair(v) {
          var defaultSession := DefaultSession(id, now);
          local.SetItem(key, env.codec.stringify(Arr([defaultSession])));
          value := Arr([defaultSession]);
        } else {
          value := v;
        }
      } else if key == MyCopilotsKey {
        if CopilotsNeedRepair(v) {
          local.SetItem(key, env.codec.stringify(Arr([])));
          value := Arr([]);
        } else {
          value := v;
        }
      } else {
        value := v;
      }
    }

    method SetItem(key: string, value: Value, id: string, now: int)
      modifies local
      ensures local.items == ItemWritten(env, old(local.items), key, value, id, now)
    {
      if key == SettingsKey {
        local.SetItem(key, env.codec.stringify(MergeSettings(env.defaults, value)));
      } else if key == ChatSessionsKey {
        if value.Arr? && |value.elems| == 0 {
          local.SetItem(key, env.codec.stringify(Arr([DefaultSession(id, now)])));
        } else {
          local.SetItem(key, env.codec.stringify(value));
        }
      } else if key == MyCopilotsKey {
        if !value.Arr? {
          local.SetItem(key, env.codec.stringify(Arr([])));
        } else {
          local.SetItem(key, env.codec.stringify(value));
        }
      } else {
        local.SetItem(key, env.codec.stringify(value));
      }
    }

    method RemoveItem(key: string, id: string, now: int)
      modifies local
      ensures local.items == ItemRemoved(env, old(local.items), key, id, now)
    {
      if key == SettingsKey {
        local.SetItem(key, env.codec.stringify(Obj(env.defaults)));
      } else if key == ChatSessionsKey {
        local.SetItem(key, env.codec.stringify(Arr([DefaultSession(id, now)])));
      } else if key == MyCopilotsKey {
        local.SetItem(key, env.codec.stringify(Arr([])));
      } else {
        local.RemoveItem(key);
      }
    }
  }

  // ---------------------------------------------------------------------
  // Reads

  /** An absent sessions entry is created: one default session, persisted and returned. */
  lemma AbsentSessionsAreCreated(env: Env, items: map<string, string>, id: string, now: int)
    requires ChatSessionsKey !in items
    ensures var r := ItemRead(env, items, ChatSessionsKey, id, now);
      && r.value == Arr([DefaultSession(id, now)])
      && r.items == items[ChatSessionsKey := env.codec.stringify(r.value)]
  {
  }

  /** A stored non-array or empty-array sessions entry is repaired the same way. */
  lemma InvalidSessionsAreRepaired(env: Env, items: map<string, string>, v: Value, id: string, now: int)
    requires ParseOr(env.codec, Browser.Lookup(items, ChatSessionsKey), Null) == Some(v)
    requires !v.Arr? || v.elems == []
    ensures var r := ItemRead(env, items, ChatSessionsKey, id, now);
      && r.value == Arr([DefaultSession(id, now)])
      && r.items == items[ChatSessionsKey := env.codec.stringify(r.value)]
  {
  }

  /** A stored non-empty session array is returned as it is and nothing is written. */
  lemma StoredSessionsAreKept(env: Env, items: map<string, string>, sessions: seq<Value>, id: string, now: int)
    requires ParseOr(env.codec, Browser.Lookup(items, ChatSessionsKey), Null) == Some(Arr(sessions))
    requires sessions != []
    ensures ItemRead(env, items, ChatSessionsKey, id, now) == Outcome(Arr(sessions), items)
  {
  }

  /**
   * The self-healing write happens once: a second read after a successful
   * first one returns the same sessions (not a newly synthesised one) and
   * writes nothing.
   */
  lemma {:induction false} SessionsHealOnce(env: Env, items: map<string, string>, id1: string, now1: int, id2: string, now2: int)
    requires Lawful(env.codec)
    requires ParseOr(env.codec, Browser.Lookup(items, ChatSessionsKey), Null).Some?
    ensures var first := ItemRead(env, items, ChatSessionsKey, id1, now1);
      ItemRead(env, first.items, ChatSessionsKey, id2, now2) == Outcome(first.value, first.items)
  {
    var first := ItemRead(env, items, ChatSessionsKey, id1, now1);
    var v := ParseOr(env.codec, Browser.Lookup(items, ChatSessionsKey), Null).value;
    if SessionsNeedRepair(v) {
      ReadBack(env.codec, first.value, Null);
    }
  }

  /** Copilots: an absent or non-array entry is replaced by [] and persisted; a stored array, even [], is kept. */
  lemma CopilotsRead(env: Env, items: map<string, string>, v: Value, id: string, now: int)
    requires ParseOr(env.codec, Browser.Lookup(items, MyCopilotsKey), Null) == Some(v)
    ensures var r := ItemRead(env, items, MyCopilotsKey, id, now);
      && (v.Arr? ==> r == Outcome(v, items))
      && (!v.Arr? ==> r == Outcome(Arr([]), items[MyCopilotsKey := env.codec.stringify(Arr([]))]))
  {
  }

  /**
   * A parse failure never escapes: the per-key default is returned (the
   * plain defaults for settings, one fresh session, [], or null) and the
   * table is left as it was.
   */
  lemma FaultedReadFallsBack(env: Env, items: map<string, string>, key: string, id: string, now: int)
    requires key in items && items[key] != ""
    requires env.codec.parse(items[key]).None?
    ensures ItemRead(env, items, key, id, now) == Outcome(DefaultFor(env, key, id, now), items)
  {
  }

  /**
   * Because the fallback session is not written back, every read of a
   * corrupt sessions entry synthesises another session: two reads with
   * different ids return different sessions.
   */
  lemma FaultedSessionsAreNotPersisted(env: Env, items: map<string, string>, id1: string, now1: int, id2: string, now2: int)
    requires ChatSessionsKey in items && items[ChatSessionsKey] != ""
    requires env.codec.parse(items[ChatSessionsKey]).None?
    requires id1 != id2
    ensures var first := ItemRead(env, items, ChatSessionsKey, id1, now1);
      var second := ItemRead(env, first.items, ChatSessionsKey, id2, now2);
      first.items == items && second.items == items && first.value != second.value
  {
    assert DefaultSession(id1, now1).fields["id"] != DefaultSession(id2, now2).fields["id"];
  }

  // ---------------------------------------------------------------------
  // Writes followed by reads

  /**
   * For an unprotected key, `getItem` after `setItem` returns the value
   * written as JSON carries it: exactly the value when it holds no
   * `undefined`, and null (a caught parse failure) for a bare `undefined`.
   */
  lemma {:induction false} SetThenGet(env: Env, items: map<string, string>, key: string, value: Value, id: string, now: int, id2: string, now2: int)
    requires Lawful(env.codec)
    requires !Protected(key)
    ensures var written := ItemWritten(env, items, key, value, id, now);
      ItemRead(env, written, key, id2, now2) == Outcome(if value == Undefined then Null else Reparsed(value), written)
    ensures var written := ItemWritten(env, items, key, value, id, now);
      Defined(value) ==> ItemRead(env, written, key, id2, now2) == Outcome(value, written)
  {
    ReadBack(env.codec, value, Null);
  }

  /**
   * Settings written are read back merged with the defaults a second time.
   * When neither the value nor the defaults hold `undefined`, that is the
   * merge of the value onto the defaults: merging twice changes nothing.
   */
  lemma {:induction false} SetThenGetSettings(env: Env, items: map<string, string>, value: Value, id: string, now: int, id2: string, now2: int)
    requires Lawful(env.codec)
    ensures var written := ItemWritten(env, items, SettingsKey, value, id, now);
      ItemRead(env, written, SettingsKey, id2, now2)
        == Outcome(MergeSettings(env.defaults, Reparsed(MergeSettings(env.defaults, value))), written)
    ensures var written := ItemWritten(env, items, SettingsKey, value, id, now);
      Defined(value) && Defined(Obj(env.defaults)) ==>
        ItemRead(env, written, SettingsKey, id2, now2) == Outcome(MergeSettings(env.defaults, value), written)
  {
    var merged := MergeSettings(env.defaults, value);
    ReadBack(env.codec, merged, Null);
    if Defined(value) && Defined(Obj(env.defaults)) {
      assert Defined(merged);
      ReparsedDefined(merged);
      assert env.defaults + (env.defaults + OwnProps(value)) == env.defaults + OwnProps(value);
    }
  }

  /**
   * A settings field set to `undefined` is copied by the merge but dropped
   * by `JSON.stringify`: the stored settings then lack that default key, and
   * the next read puts the default value back.
   */
  lemma {:induction false} UndefinedSettingIsNotStored(env: Env, items: map<string, string>, k: string, id: string, now: int, id2: string, now2: int)
    requires Lawful(env.codec)
    requires k in env.defaults
    ensures var written := ItemWritten(env, items, SettingsKey, Obj(map[k := Undefined]), id, now);
      var stored := ParseOr(env.codec, Some(written[SettingsKey]), Null);
      && stored.Some? && stored.value.Obj? && k !in stored.value.fields
      && ItemRead(env, written, SettingsKey, id2, now2).value.fields[k] == env.defaults[k]
  {
    var merged := MergeSettings(env.defaults, Obj(map[k := Undefined]));
    assert merged.fields[k] == Undefined;
    ReadBack(env.codec, merged, Null);
  }

  /**
   * Sessions written are read back as written (less their `undefined`
   * parts), except that an empty list reads back as the default session
   * created by the write, and a non-array (stored as given) is repaired by
   * the read.
   */
  lemma {:induction false} SetThenGetSessions(env: Env, items: map<string, string>, value: Value, id: string, now: int, id2: string, now2: int)
    requires Lawful(env.codec)
    ensures var written := ItemWritten(env, items, ChatSessionsKey, value, id, now);
      var r := ItemRead(env, written, ChatSessionsKey, id2, now2);
      && (value.Arr? && value.elems != [] ==> r == Outcome(Reparsed(value), written))
      && (value.Arr? && value.elems != [] && Defined(value) ==> r == Outcome(value, written))
      && (value == Arr([]) ==> r == Outcome(Arr([DefaultSession(id, now)]), written))
      && (!value.Arr? ==> written[ChatSessionsKey] == env.codec.stringify(value)
                          && r.value == Arr([DefaultSession(id2, now2)]))
  {
    ReadBack(env.codec, StoredValue(env, ChatSessionsKey, value, id, now), Null);
  }

  /** Copilots written are read back as written when they form an array, and as [] otherwise. */
  lemma {:induction false} SetThenGetCopilots(env: Env, items: map<string, string>, value: Value, id: string, now: int, id2: string, now2: int)
    requires Lawful(env.codec)
    ensures var written := ItemWritten(env, items, MyCopilotsKey, value, id, now);
      ItemRead(env, written, MyCopilotsKey, id2, now2) == Outcome(if value.Arr? then Reparsed(value) else Arr([]), written)
    ensures var written := ItemWritten(env, items, MyCopilotsKey, value, id, now);
      value.Arr? && Defined(value) ==> ItemRead(env, written, MyCopilotsKey, id2, now2) == Outcome(value, written)
  {
    ReadBack(env.codec, StoredValue(env, MyCopilotsKey, value, id, now), Null);
  }

  // ---------------------------------------------------------------------
  // Removal followed by reads

  /**
   * After `removeItem`, the session and copilot keys read back as their
   * defaults (for sessions: the one session the removal wrote), any other
   * unprotected key as null, and settings as the defaults merged with their
   * own JSON copy, which is the defaults when they hold no `undefined`.
   */
  lemma {:induction false} RemoveThenGet(env: Env, items: map<string, string>, key: string, id: string, now: int, id2: string, now2: int)
    requires Lawful(env.codec)
    ensures var removed := ItemRemoved(env, items, key, id, now);
      key != SettingsKey ==> ItemRead(env, removed, key, id2, now2) == Outcome(DefaultFor(env, key, id, now), removed)
    ensures var removed := ItemRemoved(env, items, key, id, now);
      key == SettingsKey ==>
        ItemRead(env, removed, key, id2, now2) == Outcome(MergeSettings(env.defaults, Reparsed(Obj(env.defaults))), removed)
    ensures var removed := ItemRemoved(env, items, key, id, now);
      key == SettingsKey && Defined(Obj(env.defaults)) ==>
        ItemRead(env, removed, key, id2, now2) == Outcome(DefaultFor(env, key, id, now), removed)
  {
    if Protected(key) {
      ReadBack(env.codec, DefaultFor(env, key, id, now), Null);
      if key == SettingsKey {
        assert env.defaults + env.defaults == env.defaults;
      }
    }
  }

  // ---------------------------------------------------------------------
  // The persisted invariant

  /**
   * What the store keeps true of the table as long as only it writes the
   * protected keys: stored settings are an object, the stored session list
   * is never the empty array (it may be a non-array, which `setItem` stores
   * as given), and stored copilots are an array. Stored settings need not
   * hold every default key: `UndefinedSettingIsNotStored`.
   */
  ghost predicate Healthy(env: Env, items: map<string, string>) {
    && (SettingsKey in items ==>
          var d := ParseOr(env.codec, Some(items[SettingsKey]), Null);
          d.Some? && d.value.Obj?)
    && ParseOr(env.codec, Browser.Lookup(items, ChatSessionsKey), Null) != Some(Arr([]))
    && (MyCopilotsKey in items ==>
          var d := ParseOr(env.codec, Some(items[MyCopilotsKey]), Null);
          d.Some? && d.value.Arr?)
  }

  /** One call of the store, with the id and time it would draw. */
  datatype Op =
    | Get(key: string, id: string, now: int)
    | Set(key: string, value: Value, id: string, now: int)
    | Remove(key: string, id: string, now: int)

  function Apply(env: Env, items: map<string, string>, op: Op): map<string, string> {
    match op
    case Get(key, id, now) => ItemRead(env, items, key, id, now).items
    case Set(key, value, id, now) => ItemWritten(env, items, key, value, id, now)
    case Remove(key, id, now) => ItemRemoved(env, items, key, id, now)
  }

  /** The table after a sequence of calls. */
  function Run(env: Env, items: map<string, string>, ops: seq<Op>): map<string, string>
    decreases |ops|
  {
    if ops == [] then items else Run(env, Apply(env, items, ops[0]), ops[1..])
  }

  /** A read writes back only a repaired session list or copilot list, both healthy. */
  lemma {:induction false} ReadPreservesHealthy(env: Env, items: map<string, string>, key: string, id: string, now: int)
    requires Lawful(env.codec)
    requires Healthy(env, items)
    ensures Healthy(env, ItemRead(env, items, key, id, now).items)
  {
    if key == ChatSessionsKey {
      ReadBack(env.codec, Arr([DefaultSession(id, now)]), Null);
    } else if key == MyCopilotsKey {
      ReadBack(env.codec, Arr([]), Null);
    }
  }

  /** A write stores merged settings, a non-empty session list or a copilot array. */
  lemma {:induction false} WritePreservesHealthy(env: Env, items: map<string, string>, key: string, value: Value, id: string, now: int)
    requires Lawful(env.codec)
    requires Healthy(env, items)
    ensures Healthy(env, ItemWritten(env, items, key, value, id, now))
  {
    ReadBack(env.codec, StoredValue(env, key, value, id, now), Null);
  }

  /** A removal resets a protected key to its healthy default and deletes any other. */
  lemma {:induction false} RemovePreservesHealthy(env: Env, items: map<string, string>, key: string, id: string, now: int)
    requires Lawful(env.codec)
    requires Healthy(env, items)
    ensures Healthy(env, ItemRemoved(env, items, key, id, now))
  {
    if Protected(key) {
      ReadBack(env.codec, DefaultFor(env, key, id, now), Null);
    }
  }

  lemma {:induction false} ApplyPreservesHealthy(env: Env, items: map<string, string>, op: Op)
    requires Lawful(env.codec)
    requires Healthy(env, items)
    ensures Healthy(env, Apply(env, items, op))
  {
    match op
    case Get(key, id, now) => ReadPreservesHealthy(env, items, key, id, now);
    case Set(key, value, id, now) => WritePreservesHealthy(env, items, key, value, id, now);
    case Remove(key, id, now) => RemovePreservesHealthy(env, items, key, id, now);
  }

  /** Every sequence of `getItem`/`setItem`/`removeItem` calls keeps the table healthy. */
  lemma {:induction false} RunPreservesHealthy(env: Env, items: map<string, string>, ops: seq<Op>)
    requires Lawful(env.codec)
    requires Healthy(env, items)
    ensures Healthy(env, Run(env, items, ops))
    decreases |ops|
  {
    if ops != [] {
      ApplyPreservesHealthy(env, items, ops[0]);
      RunPreservesHealthy(env, Apply(env, items, ops[0]), ops[1..]);
    }
  }

  /** An empty table is healthy, so every history the store produces from scratch is. */
  lemma EmptyIsHealthy(env: Env)
    ensures Healthy(env, map[])
  {
  }
}
