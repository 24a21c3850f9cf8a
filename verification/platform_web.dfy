/**
 * The web build's platform object (`platform.web.ts`): configuration,
 * settings, a first-visit flag and an app key-value namespace, all kept in
 * the same local storage as the store. App keys live under the `store_`
 * prefix, and only those keys are touched by the namespace operations.
 *
 * Its methods are asynchronous in the source; a `JSON.parse` error inside
 * one rejects the returned promise, which the model returns as a Failure.
 */
module PlatformWeb {
  import opened Wrappers
  import opened Json
  import Strings
  import Browser
  import Storage

  const StorePrefix := "store_"
  const ConfigKey := "config"
  const HasVisitedKey := "has_visited"

  /** The rejection of the returned promise when the stored text does not parse. */
  datatype Fault = ParseError

  /** The backing key of app key `key`. */
  function StoreKey(key: string): string {
    StorePrefix + key
  }

  predicate IsStoreKey(k: string) {
    Strings.StartsWith(k, StorePrefix)
  }

  /** The configuration used when none is stored. */
  function DefaultConfig(): Value {
    Obj(map[
      "theme" := Str("system"),
      "locale" := Str("en"),
      "fontSize" := Num(Integer(14)),
      "disableQuickToggleShortcut" := Bool(false)
    ])
  }

  /** The settings used when none are stored: no merge with the application defaults. */
  function DefaultSettings(): Value {
    Obj(map["allowReportingAndTracking" := Bool(false)])
  }

  /** `stored ? JSON.parse(stored) : fallback`, with a parse error as a Failure. */
  function Parsed(codec: Codec, stored: Option<string>, fallback: Value): (r: Result<Value, Fault>)
    ensures stored.None? || stored == Some("") ==> r == Success(fallback)
    ensures stored.Some? && stored.value != "" && codec.parse(stored.value).Some? ==>
      r == Success(codec.parse(stored.value).value)
    ensures r.Failure? <==> stored.Some? && stored.value != "" && codec.parse(stored.value).None?
  {
    match ParseOr(codec, stored, fallback)
    case Some(v) => Success(v)
    case None => Failure(ParseError)
  }

  /** What `getConfig()` resolves to on a given table. */
  function ConfigIn(codec: Codec, items: map<string, string>): Result<Value, Fault> {
    Parsed(codec, Browser.Lookup(items, ConfigKey), DefaultConfig())
  }

  /** What `getSettings()` resolves to on a given table. */
  function SettingsIn(codec: Codec, items: map<string, string>): Result<Value, Fault> {
    Parsed(codec, Browser.Lookup(items, Storage.SettingsKey), DefaultSettings())
  }

  /** What `getStoreValue(key)` resolves to on a given table. */
  function StoreValueIn(codec: Codec, items: map<string, string>, key: string): Result<Value, Fault> {
    Parsed(codec, Browser.Lookup(items, StoreKey(key)), Null)
  }

  /** The app key names present in a table: the `store_` keys with the prefix stripped. */
  function StoreNames(items: map<string, string>): set<string> {
    set k | k in items && IsStoreKey(k) :: k[|StorePrefix|..]
  }

  /** The table with every `store_` key removed and every other entry kept. */
  function WithoutStore(items: map<string, string>): (r: map<string, string>)
    ensures forall k :: k in r <==> k in items && !IsStoreKey(k)
    ensures forall k :: k in r ==> r[k] == items[k]
  {
    map k | k in items && !IsStoreKey(k) :: items[k]
  }

  /** A first visit: `has_visited` is absent or empty. */
  predicate FirstVisit(items: map<string, string>) {
    Browser.Lookup(items, HasVisitedKey) == None || Browser.Lookup(items, HasVisitedKey) == Some("")
  }

  class WebPlatform {
    const local: Browser.LocalStorage
    const codec: Codec

    constructor (local: Browser.LocalStorage, codec: Codec)
      ensures this.local == local && this.codec == codec
    {
      this.local := local;
      this.codec := codec;
    }

    method GetConfig() returns (r: Result<Value, Fault>)
      ensures r == ConfigIn(codec, local.items)
    {
      var stored := local.GetItem(ConfigKey);
      r := Parsed(codec, stored, DefaultConfig());
    }

    method SetConfig(config: Value)
      modifies local
      ensures local.items == old(local.items)[ConfigKey := codec.stringify(config)]
    {
      local.SetItem(ConfigKey, codec.stringify(config));
    }

    method GetSettings() returns (r: Result<Value, Fault>)
      ensures r == SettingsIn(codec, local.items)
    {
      var stored := local.GetItem(Storage.SettingsKey);
      r := Parsed(codec, stored, DefaultSettings());
    }

    method SetSettings(settings: Value)
      modifies local
      ensures local.items == old(local.items)[Storage.SettingsKey := codec.stringify(settings)]
    {
      local.SetItem(Storage.SettingsKey, codec.stringify(settings));
    }

    method GetStoreValue(key: string) returns (r: Result<Value, Fault>)
      ensures r == StoreValueIn(codec, local.items, key)
    {
      var stored := local.GetItem(StoreKey(key));
      r := Parsed(codec, stored, Null);
    }

    method SetStoreValue(key: string, value: Value)
      modifies local
      ensures local.items == old(local.items)[StoreKey(key) := codec.stringify(value)]
    {
      local.SetItem(StoreKey(key), codec.stringify(value));
    }

    method DeleteStoreValue(key: string)
      modifies local
      ensures local.items == old(local.items) - {StoreKey(key)}
    {
      local.RemoveItem(StoreKey(key));
    }

    /** Removes, one by one, the keys that start with `store_`; nothing else. */
    method ClearStore()
      modifies local
      ensures local.items == WithoutStore(old(local.items))
    {
      var keys := local.Keys();
      var storeKeys := [];
      for i := 0 to |keys|
        invariant forall k :: k in storeKeys <==> k in keys[..i] && IsStoreKey(k)
      {
        if IsStoreKey(keys[i]) {
          storeKeys := storeKeys + [keys[i]];
        }
      }
      assert keys[..|keys|] == keys;
      ghost var removed: set<string> := {};
      for i := 0 to |storeKeys|
        invariant removed == set j | 0 <= j < i :: storeKeys[j]
        invariant local.items == old(local.items) - removed
      {
        local.RemoveItem(storeKeys[i]);
        removed := removed + {storeKeys[i]};
      }
      forall k ensures k in removed <==> k in old(local.items) && IsStoreKey(k) {
        if k in storeKeys {
          var j :| 0 <= j < |storeKeys| && storeKeys[j] == k;
          assert k in removed;
        }
      }
    }

    /** The app key names: the `store_` keys with the prefix replaced by "". */
    method GetStoreKeys() returns (names: seq<string>)
      ensures forall n :: n in names <==> n in StoreNames(local.items)
      ensures Browser.Distinct(names)
    {
      var keys := local.Keys();
      names := [];
      ghost var sources: seq<string> := [];
      for i := 0 to |keys|
        invariant |sources| == |names|
        invariant forall j :: 0 <= j < |names| ==> sources[j] == StorePrefix + names[j]
        invariant forall k :: k in sources <==> k in keys[..i] && IsStoreKey(k)
        invariant Browser.Distinct(sources)
      {
        if IsStoreKey(keys[i]) {
          assert keys[i] !in keys[..i];
          Strings.ReplacePrefix(keys[i], StorePrefix);
          assert keys[i] == StorePrefix + keys[i][|StorePrefix|..];
          names := names + [Strings.ReplaceFirst(keys[i], StorePrefix, "")];
          sources := sources + [keys[i]];
        }
      }
      assert keys[..|keys|] == keys;
      forall n | n in StoreNames(local.items) ensures n in names {
        var k :| k in local.items && IsStoreKey(k) && n == k[|StorePrefix|..];
        assert k in sources;
        var j :| 0 <= j < |sources| && sources[j] == k;
      }
      forall n | n in names ensures n in StoreNames(local.items) {
        var j :| 0 <= j < |names| && names[j] == n;
        assert sources[j] in local.items && (StorePrefix + n)[|StorePrefix|..] == n;
      }
    }

    /** True on the first visit, which it records by setting `has_visited`; false afterwards. */
    method ShouldShowAboutDialogWhenStartUp() returns (show: bool)
      modifies local
      ensures show == FirstVisit(old(local.items))
      ensures local.items == if show then old(local.items)[HasVisitedKey := "true"] else old(local.items)
    {
      var hasVisited := local.GetItem(HasVisitedKey);
      if hasVisited.None? || hasVisited.value == "" {
        local.SetItem(HasVisitedKey, "true");
        show := true;
      } else {
        show := false;
      }
    }
  }

  // ---------------------------------------------------------------------
  // The app key namespace

  /**
   * `getStoreValue` after `setStoreValue` returns the value set, less its
   * `undefined` parts; after storing a bare `undefined` the read rejects,
   * since the text "undefined" does not parse and nothing catches the error.
   */
  lemma StoreValueRoundTrip(codec: Codec, items: map<string, string>, key: string, value: Value)
    requires Lawful(codec)
    ensures value != Undefined ==>
      StoreValueIn(codec, items[StoreKey(key) := codec.stringify(value)], key) == Success(Reparsed(value))
    ensures Defined(value) ==>
      StoreValueIn(codec, items[StoreKey(key) := codec.stringify(value)], key) == Success(value)
    ensures value == Undefined ==>
      StoreValueIn(codec, items[StoreKey(key) := codec.stringify(value)], key) == Failure(ParseError)
  {
    ReadBack(codec, value, Null);
  }

  /** A key never set reads as null, and so does every key once deleted. */
  lemma MissingStoreValueIsNull(codec: Codec, items: map<string, string>, key: string)
    ensures StoreKey(key) !in items ==> StoreValueIn(codec, items, key) == Success(Null)
    ensures StoreValueIn(codec, items - {StoreKey(key)}, key) == Success(Null)
  {
  }

  /**
   * The namespace operations touch only `store_` keys: setting, deleting
   * and clearing leave every other entry (settings, config, has_visited,
   * the protected keys of the store) as it was.
   */
  lemma {:induction false} StoreOpsKeepOtherKeys(codec: Codec, items: map<string, string>, key: string, value: Value, k: string)
    requires !IsStoreKey(k)
    ensures Browser.Lookup(items[StoreKey(key) := codec.stringify(value)], k) == Browser.Lookup(items, k)
    ensures Browser.Lookup(items - {StoreKey(key)}, k) == Browser.Lookup(items, k)
    ensures Browser.Lookup(WithoutStore(items), k) == Browser.Lookup(items, k)
  {
    assert StoreKey(key)[..|StorePrefix|] == StorePrefix;
  }

  /** After `clearStore` no app key is left, and the named non-app keys survive. */
  lemma {:induction false} ClearedStoreHasNoNames(items: map<string, string>)
    ensures StoreNames(WithoutStore(items)) == {}
    ensures Browser.Lookup(WithoutStore(items), Storage.SettingsKey) == Browser.Lookup(items, Storage.SettingsKey)
    ensures Browser.Lookup(WithoutStore(items), ConfigKey) == Browser.Lookup(items, ConfigKey)
    ensures Browser.Lookup(WithoutStore(items), HasVisitedKey) == Browser.Lookup(items, HasVisitedKey)
    ensures Browser.Lookup(WithoutStore(items), Storage.ChatSessionsKey) == Browser.Lookup(items, Storage.ChatSessionsKey)
  {
    DiffersFromPrefix(Storage.SettingsKey, 1);
    DiffersFromPrefix(ConfigKey, 0);
    DiffersFromPrefix(HasVisitedKey, 0);
    DiffersFromPrefix(Storage.ChatSessionsKey, 0);
  }

  lemma DiffersFromPrefix(k: string, i: nat)
    requires i < |StorePrefix| && i < |k| && k[i] != StorePrefix[i]
    ensures !IsStoreKey(k)
  {
  }

  /** After `setStoreValue(key, v)`, `getStoreKeys` lists `key`. */
  lemma {:induction false} SetKeyIsListed(items: map<string, string>, key: string, text: string)
    ensures key in StoreNames(items[StoreKey(key) := text])
  {
    assert IsStoreKey(StoreKey(key)) && StoreKey(key)[|StorePrefix|..] == key;
  }

  // ---------------------------------------------------------------------
  // First visit, configuration and settings

  /** After any start-up check, whether it showed the dialog or not, the next one does not. */
  lemma OnlyFirstVisitShows(items: map<string, string>)
    ensures var after := if FirstVisit(items) then items[HasVisitedKey := "true"] else items;
      !FirstVisit(after)
  {
  }

  /**
   * Whatever the codec, a table with no config entry gives the default
   * config, and one with no settings entry gives only
   * `allowReportingAndTracking: false`; an empty entry counts as none.
   */
  lemma AbsentEntriesGiveDefaults(codec: Codec, items: map<string, string>)
    ensures ConfigKey !in items ==> ConfigIn(codec, items) == Success(DefaultConfig())
    ensures ConfigIn(codec, items[ConfigKey := ""]) == Success(DefaultConfig())
    ensures Storage.SettingsKey !in items ==> SettingsIn(codec, items) == Success(DefaultSettings())
    ensures SettingsIn(codec, items[Storage.SettingsKey := ""]) == Success(DefaultSettings())
  {
  }

  /**
   * After `setConfig(c)`, c is returned (less its `undefined` parts), and
   * after storing a bare `undefined` the read rejects.
   */
  lemma ConfigRoundTrip(codec: Codec, items: map<string, string>, config: Value)
    requires Lawful(codec)
    ensures config != Undefined ==>
      ConfigIn(codec, items[ConfigKey := codec.stringify(config)]) == Success(Reparsed(config))
    ensures Defined(config) ==> ConfigIn(codec, items[ConfigKey := codec.stringify(config)]) == Success(config)
    ensures config == Undefined ==> ConfigIn(codec, items[ConfigKey := codec.stringify(config)]) == Failure(ParseError)
  {
    ReadBack(codec, config, DefaultConfig());
  }

  /**
   * After `setSettings(s)`, s is returned as given (less its `undefined`
   * parts), with no merge; a bare `undefined` rejects.
   */
  lemma SettingsRoundTrip(codec: Codec, items: map<string, string>, settings: Value)
    requires Lawful(codec)
    ensures settings != Undefined ==>
      SettingsIn(codec, items[Storage.SettingsKey := codec.stringify(settings)]) == Success(Reparsed(settings))
    ensures Defined(settings) ==> SettingsIn(codec, items[Storage.SettingsKey := codec.stringify(settings)]) == Success(settings)
    ensures settings == Undefined ==> SettingsIn(codec, items[Storage.SettingsKey := codec.stringify(settings)]) == Failure(ParseError)
  {
    ReadBack(codec, settings, DefaultSettings());
  }

  /**
   * The platform reads and writes the store's `settings` entry without the
   * merge: after it writes {}, it reads {} back while the store reads the
   * defaults; and a non-object it writes leaves a table the store would
   * never produce.
   */
  lemma {:induction false} SetSettingsBypassesMerge(env: Storage.Env, items: map<string, string>, id: string, now: int)
    requires Lawful(env.codec)
    ensures var written := items[Storage.SettingsKey := env.codec.stringify(Obj(map[]))];
      && SettingsIn(env.codec, written) == Success(Obj(map[]))
      && Storage.ItemRead(env, written, Storage.SettingsKey, id, now).value == Obj(env.defaults)
    ensures !Storage.Healthy(env, items[Storage.SettingsKey := env.codec.stringify(Null)])
  {
    ReadBack(env.codec, Obj(map[]), Null);
    ReadBack(env.codec, Null, Null);
    assert env.defaults + map[] == env.defaults;
  }
}
