/**
 * Settings updates (`settingActions.ts`): `modify` merges a partial update
 * into the global settings and, when the provider or model changes, pushes
 * the new model parameters onto a session that has not really started;
 * `needEditSetting` says whether the chosen provider still lacks what it
 * needs.
 */
module SettingActions {
  import opened Wrappers
  import opened Chat

  /**
   * One field of a `Partial<Settings>`: absent, or present with a value
   * that may itself be `undefined` (None). A present field overrides even
   * when it is `undefined`, as object spread does.
   */
  datatype Patch<T> = Absent | Present(value: Option<T>)

  /** `{ ...current, ...update }` for one field. */
  function Override<T>(p: Patch<T>, current: Option<T>): Option<T> {
    if p.Present? then p.value else current
  }

  /** `update.field`: an absent field reads as `undefined`. */
  function Read<T>(p: Patch<T>): Option<T> {
    if p.Present? then p.value else None
  }

  datatype SettingsUpdate = SettingsUpdate(
    aiProvider: Patch<string>,
    model: Patch<string>,
    temperature: Patch<real>,
    topP: Patch<real>,
    maxTokens: Patch<int>,
    licenseKey: Patch<string>,
    openaiKey: Patch<string>,
    apiHost: Patch<string>,
    ollamaModel: Patch<string>)

  /** `{ ...settings, ...update }`: every field present in the update wins, every absent one is kept. */
  function Merged(s: Settings, u: SettingsUpdate): (r: Settings)
    ensures u.aiProvider.Present? ==> r.aiProvider == u.aiProvider.value
    ensures u.aiProvider.Absent? ==> r.aiProvider == s.aiProvider
    ensures u.model.Present? ==> r.model == u.model.value
    ensures u.model.Absent? ==> r.model == s.model
    ensures u.temperature.Present? ==> r.temperature == u.temperature.value
    ensures u.temperature.Absent? ==> r.temperature == s.temperature
    ensures u.topP.Present? ==> r.topP == u.topP.value
    ensures u.topP.Absent? ==> r.topP == s.topP
    ensures u.maxTokens.Present? ==> r.maxTokens == u.maxTokens.value
    ensures u.maxTokens.Absent? ==> r.maxTokens == s.maxTokens
    ensures u.licenseKey.Present? ==> r.licenseKey == u.licenseKey.value
    ensures u.licenseKey.Absent? ==> r.licenseKey == s.licenseKey
    ensures u.openaiKey.Present? ==> r.openaiKey == u.openaiKey.value
    ensures u.openaiKey.Absent? ==> r.openaiKey == s.openaiKey
    ensures u.apiHost.Present? ==> r.apiHost == u.apiHost.value
    ensures u.apiHost.Absent? ==> r.apiHost == s.apiHost
    ensures u.ollamaModel.Present? ==> r.ollamaModel == u.ollamaModel.value
    ensures u.ollamaModel.Absent? ==> r.ollamaModel == s.ollamaModel
  {
    Settings(
      Override(u.aiProvider, s.aiProvider),
      Override(u.model, s.model),
      Override(u.temperature, s.temperature),
      Override(u.topP, s.topP),
      Override(u.maxTokens, s.maxTokens),
      Override(u.licenseKey, s.licenseKey),
      Override(u.openaiKey, s.openaiKey),
      Override(u.apiHost, s.apiHost),
      Override(u.ollamaModel, s.ollamaModel))
  }

  /** The empty update leaves the settings as they were. */
  lemma EmptyUpdateIsIdentity(s: Settings)
    ensures Merged(s, SettingsUpdate(Absent, Absent, Absent, Absent, Absent, Absent, Absent, Absent, Absent)) == s
  {
  }

  /**
   * The session `modify` hands to `sessionActions.modify`, if any: only when
   * the update names a provider or a model (truthy), and the current session
   * exists and holds at most one message. Its five model fields are then
   * taken from the update, `undefined` included.
   */
  function SessionUpdate(u: SettingsUpdate, current: Option<Session>): (r: Option<Session>)
    ensures r.Some? <==>
      (Truthy(Read(u.aiProvider)) || Truthy(Read(u.model))) && current.Some? && |current.value.messages| <= 1
    ensures r.Some? ==>
      && r.value.(aiProvider := current.value.aiProvider, model := current.value.model,
                  temperature := current.value.temperature, topP := current.value.topP,
                  maxTokens := current.value.maxTokens) == current.value
      && r.value.aiProvider == Read(u.aiProvider) && r.value.model == Read(u.model)
      && r.value.temperature == Read(u.temperature) && r.value.topP == Read(u.topP)
      && r.value.maxTokens == Read(u.maxTokens)
  {
    if Truthy(Read(u.aiProvider)) || Truthy(Read(u.model)) then
      match current
      case Some(session) =>
        if |session.messages| <= 1 then
          Some(session.(aiProvider := Read(u.aiProvider), model := Read(u.model),
                        temperature := Read(u.temperature), topP := Read(u.topP),
                        maxTokens := Read(u.maxTokens)))
        else None
      case None => None
    else None
  }

  /** The global settings atom. */
  class SettingsAtom {
    var settings: Settings

    constructor (initial: Settings)
      ensures settings == initial
    {
      settings := initial;
    }

    /**
     * `modify(update)`, given what `getCurrentSession()` returns; the result
     * is the argument of the `sessionActions.modify` call, if one is made.
     */
    method Modify(update: SettingsUpdate, current: Option<Session>) returns (sessionModified: Option<Session>)
      modifies this
      ensures settings == Merged(old(settings), update)
      ensures sessionModified == SessionUpdate(update, current)
    {
      settings := Merged(settings, update);
      sessionModified := None;
      if Truthy(Read(update.aiProvider)) || Truthy(Read(update.model)) {
        if current.Some? && |current.value.messages| <= 1 {
          sessionModified := Some(current.value.(
            aiProvider := Read(update.aiProvider),
            model := Read(update.model),
            temperature := Read(update.temperature),
            topP := Read(update.topP),
            maxTokens := Read(update.maxTokens)));
        }
      }
    }
  }

  /**
   * `needEditSetting()`, given the settings and `defaults.settings()`:
   * Chatbox AI without a license key, OpenAI with an empty key on the
   * default host, or Ollama without a model. `defaults` is the record form
   * of the same `defaults.settings()` that `Storage.Env.defaults` holds as
   * JSON fields; only its `apiHost` is consulted.
   */
  function NeedEditSetting(s: Settings, defaults: Settings): (r: bool)
    ensures s.aiProvider == Some("chatbox-ai") ==> (r <==> !Truthy(s.licenseKey))
    ensures s.aiProvider == Some("openai") ==> (r <==> s.openaiKey == Some("") && s.apiHost == defaults.apiHost)
    ensures s.aiProvider == Some("ollama") ==> (r <==> !Truthy(s.ollamaModel))
    ensures r ==> s.aiProvider in {Some("chatbox-ai"), Some("openai"), Some("ollama")}
  {
    if s.aiProvider == Some("chatbox-ai") && !Truthy(s.licenseKey) then true
    else if s.aiProvider == Some("openai") && s.openaiKey == Some("") && s.apiHost == defaults.apiHost then true
    else if s.aiProvider == Some("ollama") && !Truthy(s.ollamaModel) then true
    else false
  }
}
