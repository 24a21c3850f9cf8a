# Chatbox renderer core in Dafny

This project models the renderer-side logic of the Chatbox web build. It
covers six parts:

- **Persistent store** (`storage.ts`). JSON values are kept as text in the
  browser's local storage. Three keys always read back a usable value:
  - `settings` is the defaults overlaid with the stored fields;
  - `chat_sessions` is never an empty list, because a "New Chat" session is
    synthesised and written back;
  - `my_copilots` is always an array.

  Removing one of these keys resets it to its default.
- **Web platform** (`platform.web.ts`). This covers:
  - the `store_` key namespace: get, set, delete, clear and list names;
  - the first-visit flag;
  - the config and settings entries with their fallback defaults.

  It shares the same local storage object with the persistent store.
- **Proxy routing** (`proxyBase.ts`). A request goes directly to its target
  when the hostname contains `localhost` or `127.0.0.1`. Otherwise it goes to
  the local proxy endpoint, with three `CHATBOX-*` headers added.
- **Message list** (`MessageList.tsx`). Edit, delete and regenerate act on
  the current session's messages, and the list decides each item's render
  props.
- **Settings actions** (`settingActions.ts`). `modify` shallow-merges the
  settings. When the update names a provider or a model, it also pushes the
  model fields onto the current session, provided that session holds at most
  one message.
  `needEditSetting` reports whether the settings are incomplete.
- **Conversation configuration dialog** (`ChatConfigWindow.tsx`). It fills
  missing model fields from the settings, extracts and rewrites the system
  prompt, picks the model list for each provider, and handles changing the
  provider.

## How the model is built

- **Modules.** Each source file is one module: `Storage`, `PlatformWeb`,
  `ProxyBase`, `MessageList`, `SettingActions` and `ChatConfigWindow`.
  Shared helper modules:
  - `Wrappers`: `Option`, `Result` and `First`;
  - `Strings`: prefix tests, substring search, `replace` and decimal index
    names;
  - `Json`: parsed values and an abstract codec;
  - `JsonEncoding`: one concrete codec, showing that what the model assumes
    of the codec can all hold at once;
  - `Browser`: the local storage as a class over `map<string, string>`;
  - `Chat`: the message, session and settings records, and `findIndex`.
- **Local storage.** `Storage.Store` and `PlatformWeb.WebPlatform` hold the
  same `Browser.LocalStorage` object, as the source's two modules share the
  global one.
  - Each class method is proved against a pure function of the old table,
    for example `Storage.ItemRead`, `Storage.ItemWritten` or
    `PlatformWeb.WithoutStore`.
  - The lemmas about those functions state the source's promises.
- **JSON.** JSON text is handled by a `Json.Codec` of two functions, with
  `parse` returning `None` where `JSON.parse` throws.
  - `Json.Value` includes `Undefined`, because `setItem(key, value: any)`
    can be handed `undefined`, or an object with `undefined` fields.
  - `Json.Reparsed` is what printing and parsing give back: properties whose
    value is `undefined` are dropped, and `undefined` array elements become
    null.
  - A bare `undefined` is stored as the text "undefined", which does not
    parse.
  - Numbers are finite decimals `mantissa × 10^exponent` in lowest terms
    (`Json.Number`), so each number has one form; `Date.now()` is an integer
    (`Json.Integer`).
  - The round-trip lemmas require only `Json.Lawful` of the codec: printing
    never yields "", parsing gives back `Reparsed` of what was printed, the
    text of a bare `undefined` does not parse, and no parse result holds
    `undefined`.
  - `JsonEncoding.EncodingIsLawful` proves that a codec meeting `Json.Lawful`
    exists, so those lemmas are not vacuous. Its text is a prefix code with
    lengths in unary, not JSON syntax; only its existence matters.
- **Inputs taken as parameters.** These are:
  - `uuidv4()` and `Date.now()` (`id`, `now`);
  - `defaults.settings()` (`Storage.Env.defaults`);
  - the hostname `new URL(...)` yields (`Option<string>`, where `None` means
    the constructor throws);
  - `countWord` and `estimateTokensFromMessages` (`MessageList.Counters`);
  - the current session, for `settingActions.modify`;
  - the model catalogues (`ChatConfigWindow.Catalog`).
- **Partial updates.** `Partial<Settings>` is `SettingActions.SettingsUpdate`.
  Each field is `Absent`, or `Present` with a possibly undefined value. An
  explicit `undefined` therefore overrides, as object spread does.
- **Invariant over histories.** `Storage.Healthy` is the invariant of the
  three protected keys. `Storage.RunPreservesHealthy` proves that it holds
  after any sequence of reads, writes and removals.
  - It states that stored settings are an object, stored sessions are never
    `[]`, and stored copilots are an array.
  - It does not state that stored settings hold every default key. A field
    set to `undefined` is dropped when printed
    (`Storage.UndefinedSettingIsNotStored`). Every read still merges the
    defaults back in (`Storage.ItemRead`).

The provider-change handler replaces the edited copy. That re-runs the effect
that reloads the system prompt from the copy's messages. As a result, a
prompt typed before changing the provider is discarded, and saving keeps the
stored system message (`ChatConfigWindow.TypedPromptLostOnProviderChange`).

## Model

| member | source | states |
|---|---|---|
| Storage.DefaultSession | src/renderer/storage.ts:13-22 | the synthesised session is an object with exactly id, name, type, messages, model and createdAt, carrying the given id and no messages |
| Storage.MergeSettings | src/renderer/storage.ts:31-35 | the merged settings hold every default key and every own property of the stored value; stored properties win, defaults fill the rest |
| Storage.DefaultFor | src/renderer/storage.ts:58-70 | the fallback per key: the defaults for settings, one fresh session for chat_sessions, [] for my_copilots, null for any other key |
| Storage.ItemRead | src/renderer/storage.ts:25-72 | getItem returns an object with every default key for settings, a non-empty array for chat_sessions and an array for my_copilots; a parsed settings entry is returned merged onto the defaults with its own fields winning, and a parsed entry of any other unprotected key as parsed, both with nothing written; it can rewrite only the key read, and only for sessions or copilots |
| Storage.StoredValue | src/renderer/storage.ts:73-105 | what setItem stores: the value merged onto the defaults for settings; one default session in place of [] and any other value as given for sessions; [] in place of a non-array and an array as given for copilots; other keys as given |
| Storage.ItemWritten | src/renderer/storage.ts:73-105 | setItem writes the key given and leaves every other entry as it was |
| Storage.ItemRemoved | src/renderer/storage.ts:106-128 | removeItem keeps the key exactly when it is protected and leaves every other entry as it was |
| Storage.Store.GetItem | src/renderer/storage.ts:25-72 | the returned value and the new table are those of ItemRead on the old table |
| Storage.Store.SetItem | src/renderer/storage.ts:73-105 | the new table is ItemWritten of the old one |
| Storage.Store.RemoveItem | src/renderer/storage.ts:106-128 | the new table is ItemRemoved of the old one |
| Storage.AbsentSessionsAreCreated | src/renderer/storage.ts:36-43 | with no sessions stored, getItem returns one default session and persists it |
| Storage.InvalidSessionsAreRepaired | src/renderer/storage.ts:36-43 | a stored non-array or empty array is replaced, in the result and in the table, by one default session |
| Storage.StoredSessionsAreKept | src/renderer/storage.ts:39-44 | a stored non-empty session array is returned as stored and nothing is written |
| Storage.SessionsHealOnce | src/renderer/storage.ts:36-44 | after a first read that parses, a second read, whatever fresh id and time it is given, returns what the first returned and writes nothing |
| Storage.CopilotsRead | src/renderer/storage.ts:46-53 | an absent or non-array copilots entry reads and persists as []; a stored array, [] included, is returned unchanged |
| Storage.FaultedReadFallsBack | src/renderer/storage.ts:58-70 | when the stored text does not parse, getItem returns the per-key default and leaves the table unchanged |
| Storage.FaultedSessionsAreNotPersisted | src/renderer/storage.ts:64-65 | reads of a sessions entry that does not parse write nothing, so two reads with different fresh ids return different sessions |
| Storage.SetThenGet | src/renderer/storage.ts:99-100 | for a key that is not protected, getItem after setItem returns the value set, less its undefined parts; exactly the value when it holds no undefined; null after storing a bare undefined |
| Storage.SetThenGetSettings | src/renderer/storage.ts:76-81 | getItem of settings after setItem returns the defaults merged with the printed merge; when neither holds undefined, that is the defaults overlaid with the value set |
| Storage.SetThenGetSessions | src/renderer/storage.ts:82-90 | after setItem of sessions, getItem returns a non-empty array as set (less its undefined parts) and, for [], the session the write created; a non-array is stored as given and repaired by the read |
| Storage.SetThenGetCopilots | src/renderer/storage.ts:91-98 | after setItem of copilots, getItem returns an array value as set (less its undefined parts) and [] for anything else |
| Storage.RemoveThenGet | src/renderer/storage.ts:106-124 | after removeItem, sessions and copilots read as their defaults, any other unprotected key as null, and settings as the defaults merged with their printed copy, which is the defaults when they hold no undefined |
| Storage.UndefinedSettingIsNotStored | src/renderer/storage.ts:79-80 | a settings field set to undefined is copied by the merge but dropped when printed, so the stored settings lack that default key, and the next read returns the default value for it |
| Storage.ReadPreservesHealthy | src/renderer/storage.ts:25-72 | a getItem on a healthy table leaves it healthy: the only write-backs are a default session list and [] for copilots |
| Storage.WritePreservesHealthy | src/renderer/storage.ts:73-105 | a setItem of any value, undefined included, on a healthy table leaves it healthy: settings are stored as an object, [] sessions are replaced, non-array copilots become [] |
| Storage.RemovePreservesHealthy | src/renderer/storage.ts:106-128 | a removeItem on a healthy table leaves it healthy: protected keys are reset to their defaults |
| Storage.ApplyPreservesHealthy | src/renderer/storage.ts:24-129 | one getItem, setItem or removeItem keeps the protected keys healthy: settings are an object, sessions are never [], copilots are an array |
| Storage.RunPreservesHealthy | src/renderer/storage.ts:24-129 | every sequence of store operations from a healthy table ends in a healthy table |
| Storage.EmptyIsHealthy | src/renderer/storage.ts:24-129 | the empty table is healthy, so every history from scratch stays healthy |
| Json.Reparsed | src/renderer/storage.ts:80 | what JSON.stringify then JSON.parse give back: no undefined anywhere, undefined properties dropped, arrays and objects kept with their length and remaining keys |
| Json.ReparsedDefined | src/renderer/storage.ts:99-100 | a value holding no undefined is printed and parsed back unchanged |
| Json.ReadBack | src/renderer/storage.ts:56 | an entry the codec wrote parses back as the value written less its undefined parts; a bare undefined does not parse |
| Json.Integer | src/renderer/storage.ts:20 | the whole number Date.now() gives, as a decimal in lowest terms whose value is that number |
| JsonEncoding.RoundTrip | src/renderer/storage.ts:99-100 | in the concrete codec, the text of any value holding no undefined decodes back to that value, whatever text follows it |
| JsonEncoding.EncodingIsLawful | src/renderer/storage.ts:56 | the concrete codec prints every value to non-empty text, parses it back to what JSON.stringify then JSON.parse give, fails on the text of a bare undefined and never parses to a value holding undefined |
| Json.ParseOr | src/renderer/storage.ts:56 | an absent or empty entry gives the fallback without parsing; any other text is parsed |
| PlatformWeb.Parsed | src/renderer/packages/platform.web.ts:93-99 | a missing or empty entry succeeds with the fallback; a stored text succeeds with its parse; it fails exactly when parsing throws |
| PlatformWeb.WithoutStore | src/renderer/packages/platform.web.ts:109-113 | clearing drops exactly the keys starting with store_ and keeps every other entry |
| PlatformWeb.WebPlatform.GetConfig | src/renderer/packages/platform.web.ts:62-73 | returns the parsed config entry, or the four defaults when none is stored |
| PlatformWeb.WebPlatform.SetConfig | src/renderer/packages/platform.web.ts:75-77 | the config entry becomes the printed config and nothing else changes |
| PlatformWeb.WebPlatform.GetSettings | src/renderer/packages/platform.web.ts:79-87 | returns the parsed settings entry unmerged, or allowReportingAndTracking false when none is stored |
| PlatformWeb.WebPlatform.SetSettings | src/renderer/packages/platform.web.ts:89-91 | the settings entry becomes the printed settings, with no merge, and nothing else changes |
| PlatformWeb.WebPlatform.GetStoreValue | src/renderer/packages/platform.web.ts:93-99 | returns the parsed store_ entry of the key, or null when there is none |
| PlatformWeb.WebPlatform.SetStoreValue | src/renderer/packages/platform.web.ts:101-103 | only the store_ entry of the key is written |
| PlatformWeb.WebPlatform.DeleteStoreValue | src/renderer/packages/platform.web.ts:105-107 | only the store_ entry of the key is removed |
| PlatformWeb.WebPlatform.ClearStore | src/renderer/packages/platform.web.ts:109-113 | removing the filtered keys one by one leaves exactly the table without its store_ keys |
| PlatformWeb.WebPlatform.GetStoreKeys | src/renderer/packages/platform.web.ts:115-119 | the names listed are exactly the prefix-stripped store_ keys, each once |
| PlatformWeb.WebPlatform.ShouldShowAboutDialogWhenStartUp | src/renderer/packages/platform.web.ts:136-144 | true exactly when has_visited is unset or empty, which it then sets to "true"; otherwise the table is unchanged |
| Strings.ReplacePrefix | src/renderer/packages/platform.web.ts:118 | replacing the first store_ in a key that starts with it strips the prefix |
| PlatformWeb.StoreValueRoundTrip | src/renderer/packages/platform.web.ts:93-103 | getStoreValue after setStoreValue returns the value set, less its undefined parts, and exactly the value when it holds none; after storing a bare undefined it rejects |
| PlatformWeb.MissingStoreValueIsNull | src/renderer/packages/platform.web.ts:93-107 | a key never set reads as null, and every key reads as null once deleted, whatever the table held |
| PlatformWeb.StoreOpsKeepOtherKeys | src/renderer/packages/platform.web.ts:101-113 | set, delete and clear leave every key outside the store_ namespace unchanged |
| PlatformWeb.ClearedStoreHasNoNames | src/renderer/packages/platform.web.ts:109-119 | after clearStore no name is listed, while settings, config, has_visited and chat_sessions survive |
| PlatformWeb.SetKeyIsListed | src/renderer/packages/platform.web.ts:101-119 | after setStoreValue of a key, getStoreKeys lists that key |
| PlatformWeb.OnlyFirstVisitShows | src/renderer/packages/platform.web.ts:136-144 | after any start-up check the next check answers false |
| PlatformWeb.AbsentEntriesGiveDefaults | src/renderer/packages/platform.web.ts:62-87 | whatever the codec, an absent or empty config entry gives the four config defaults, and an absent or empty settings entry gives only allowReportingAndTracking false |
| PlatformWeb.ConfigRoundTrip | src/renderer/packages/platform.web.ts:62-77 | after setConfig the config set is returned, less its undefined parts, and exactly the config when it holds none; a bare undefined rejects |
| PlatformWeb.SettingsRoundTrip | src/renderer/packages/platform.web.ts:79-91 | after setSettings the settings set are returned unmerged, less their undefined parts, and exactly the settings when they hold none; a bare undefined rejects |
| PlatformWeb.SetSettingsBypassesMerge | src/renderer/packages/platform.web.ts:89-91 | after the platform writes {}, it reads {} back while the store reads the defaults; a non-object it writes breaks the store's invariant |
| Strings.Includes | src/renderer/packages/models/proxyBase.ts:18 | true exactly when the substring occurs somewhere in the string |
| ProxyBase.ShouldUseProxy | src/renderer/packages/models/proxyBase.ts:15-22 | false exactly when the URL parses and its hostname contains localhost or 127.0.0.1; an unparsable URL is proxied |
| ProxyBase.ProxyHeaders | src/renderer/packages/models/proxyBase.ts:6-13 | the caller's headers plus the three CHATBOX headers, set to the target, "web" and "web"; every other header is kept |
| ProxyBase.Routed | src/renderer/packages/models/proxyBase.ts:31-35 | a direct call keeps the target and headers; a proxied one goes to the proxy URL with the proxy headers; body, signal and retry pass through unchanged |
| ProxyBase.ProxyClient.ProxyPost | src/renderer/packages/models/proxyBase.ts:24-36 | records exactly one post, routed by the rule |
| ProxyBase.ProxyClient.ProxyGet | src/renderer/packages/models/proxyBase.ts:38-49 | records exactly one get with no body, routed by the rule |
| ProxyBase.DefaultRetry | src/renderer/packages/models/proxyBase.ts:24-43 | with signal and retry omitted, both calls carry no signal and retry 3 |
| ProxyBase.RoutingExamples | src/renderer/packages/models/proxyBase.ts:15-22 | localhost and 127.0.0.1 hosts go direct; a public host and an unparsable URL go through the proxy |
| ProxyBase.ContainmentNotEquality | src/renderer/packages/models/proxyBase.ts:18 | hosts that merely contain localhost or 127.0.0.1 inside a longer name also go direct |
| Chat.FindIndex | src/renderer/components/MessageList.tsx:58-59 | the first index whose message satisfies the test, or -1 exactly when none does |
| MessageList.EditMessages | src/renderer/components/MessageList.tsx:30-36 | same length and order; messages with the id get the new content and recounted words and tokens; others are unchanged |
| MessageList.DeleteMessages | src/renderer/components/MessageList.tsx:49 | no message with the id is left, the rest keep their order, and exactly the matching ones are dropped |
| MessageList.UpdateCurrent | src/renderer/components/MessageList.tsx:26-41 | sessions other than the current one are unchanged; the current one has only its messages replaced |
| MessageList.HandleEdit | src/renderer/components/MessageList.tsx:25-42 | other sessions are unchanged; the current session's messages are edited as EditMessages says |
| MessageList.HandleDelete | src/renderer/components/MessageList.tsx:44-54 | other sessions are unchanged; the current session loses exactly the messages with the id |
| MessageList.Prefix | src/renderer/components/MessageList.tsx:78 | slice(0, end) is a prefix of length end, or the whole list when end is past the length |
| MessageList.HandleRegenerate | src/renderer/components/MessageList.tsx:56-88 | no change exactly when the id is absent; otherwise the current session keeps the messages before the found one, followed by its copy with a fresh id, empty content and generating set |
| MessageList.RegenerateTruncates | src/renderer/components/MessageList.tsx:58-81 | regenerating the message at index k leaves k + 1 messages: the first k unchanged, then the new one with the old role |
| MessageList.RenderedItems | src/renderer/components/MessageList.tsx:93-106 | one item per message; collapse at 150 exactly for system messages; key "msg-" + id; pt-4 exactly on the first |
| SettingActions.Merged | src/renderer/stores/settingActions.ts:11-14 | every field present in the update wins, undefined included; every absent field is kept |
| SettingActions.EmptyUpdateIsIdentity | src/renderer/stores/settingActions.ts:11-14 | an update with no fields leaves the settings unchanged |
| SettingActions.SessionUpdate | src/renderer/stores/settingActions.ts:17-28 | a session is modified exactly when the update's provider or model is truthy and the current session has at most one message; its five model fields come from the update and the rest is kept |
| SettingActions.SettingsAtom.Modify | src/renderer/stores/settingActions.ts:7-31 | the settings become the merge and the session handed on is SessionUpdate's |
| SettingActions.NeedEditSetting | src/renderer/stores/settingActions.ts:33-50 | true exactly for Chatbox AI without a license key, OpenAI with an empty key on the default host, or Ollama without a model; false for any other provider |
| ChatConfigWindow.Coalesce | src/renderer/pages/ChatConfigWindow.tsx:60-64 | `??`: the first value when defined, else the second |
| ChatConfigWindow.WithDefaults | src/renderer/pages/ChatConfigWindow.tsx:57-65 | each of the five model fields is kept when the session defines it and otherwise taken from the settings; all other fields are copied |
| ChatConfigWindow.FillTwice | src/renderer/pages/ChatConfigWindow.tsx:57-65 | filling a filled session changes nothing |
| ChatConfigWindow.SystemPrompt | src/renderer/pages/ChatConfigWindow.tsx:73-74 | the content of the first system message, or "" when there is none |
| ChatConfigWindow.RewriteSystemMessage | src/renderer/pages/ChatConfigWindow.tsx:88-92 | same length and order; only the first system message gets the new content; no system message means no change |
| ChatConfigWindow.ModelsForProvider | src/renderer/pages/ChatConfigWindow.tsx:116-129 | each known provider's catalogue, the three fixed Ollama models, and [] for any other provider |
| ChatConfigWindow.ConfigDialog.SyncSystemPrompt | src/renderer/pages/ChatConfigWindow.tsx:69-75 | the prompt is reloaded from the edited copy when there is one and is otherwise kept |
| ChatConfigWindow.ConfigDialog.Open | src/renderer/pages/ChatConfigWindow.tsx:53-75 | opening fills the copy from the settings and loads its system prompt; closing clears the copy |
| ChatConfigWindow.ConfigDialog.EditSystemPrompt | src/renderer/pages/ChatConfigWindow.tsx:155 | the prompt becomes the typed text |
| ChatConfigWindow.ConfigDialog.ChangeProvider | src/renderer/pages/ChatConfigWindow.tsx:178-186 | the copy gets the provider and the first model of its list, or none; the prompt is reloaded |
| ChatConfigWindow.ConfigDialog.OnCancel | src/renderer/pages/ChatConfigWindow.tsx:77-81 | the dialog session and the copy are both cleared |
| ChatConfigWindow.ConfigDialog.OnSave | src/renderer/pages/ChatConfigWindow.tsx:83-104 | does nothing without both the session and the copy; otherwise hands on the copy with its first system message rewritten and clears both |
| ChatConfigWindow.TypedPromptLostOnProviderChange | src/renderer/pages/ChatConfigWindow.tsx:178-186 | a prompt typed before changing the provider is lost: the saved messages are the copy's messages unchanged |

## Left out

- **Local storage faults.** Quota errors and other failures of
  `localStorage.setItem`, and `JSON.stringify` failures, are not modelled.
  Only the parse failure of `getItem` is modelled.
- **Real JSON and URL handling.** The model does not parse or print JSON
  syntax, and does not parse URLs. They are abstract functions, and
  `uuidv4`/`Date.now()` are parameters. The one concrete codec in
  `JsonEncoding` writes a prefix code, not JSON text.
- **Other values JSON handles specially.** Functions, symbols, `NaN`,
  `toJSON` methods and `BigInt` (which throws) are not modelled. Only
  `undefined` is.
- **Numbers** are exact finite decimals of any size. JavaScript's binary
  floating point, with its rounding and its limited range and precision,
  is not modelled, so the model does not capture a number that changes
  when printed and parsed.
- **Object key order.** The order of `Object.keys(localStorage)`, and so the
  order of `getStoreKeys`, is left open. Only membership and uniqueness are
  stated.
- **Transport.** `Base.post` and `Base.get` are not modelled: no fetch,
  retries, `AbortSignal` or responses. `proxyPost` and `proxyGet` record the
  one call they hand to the transport.
- **Browser and UI plumbing.** Not modelled:
  - `window.gtag`, `console` logging, `trackingEvent`, the clipboard,
    `matchMedia`, `window.open` and `location.reload`;
  - the other platform methods (version, platform, dark colours, links,
    language, proxy and licence queries), which have no state logic.
- **Runtime model.** React rendering, jotai atoms and async wrappers are not
  modelled. Every operation is a synchronous state transition.
- **Types outside the model.** `shared/types` is not part of this model. The
  `ModelProvider.SiliconFlow` value is taken as "silicon-flow". Settings and
  Message carry only the fields these operations read or write.
- **Current message list.** `MessageList.HandleRegenerate` takes the current
  message list as a parameter. It is not tied to the current session's
  messages, as it is not in the source; `MessageList.RegenerateTruncates`
  states the case where they coincide.
- SettingActions.NeedEditSetting: `None` stands for both `null` and
  `undefined`. So `apiHost === defaults.settings().apiHost`, with one side
  `null` and the other `undefined`, is false in the source but true in the
  model.
- **Message fields.** The optional chaining on `session.messages` is not
  modelled, because messages are always a list.
- **Config dialog input parsing.** The `parseFloat`/`parseInt` handling of
  temperature, topP and maxTokens input is not modelled, because it is
  floating point.
- **Other components.** The message component (`Message.tsx`) and the
  Electron bridge and mock are not part of this model. They are rendering
  and event dispatch.
