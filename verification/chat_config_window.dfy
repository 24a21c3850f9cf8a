/**
 * The conversation settings dialog (`ChatConfigWindow.tsx`), reduced to
 * the record logic behind it: filling the edited copy of a session from
 * the settings, reading and rewriting the system prompt, and the model
 * list offered for each provider. The React state the dialog keeps is the
 * `ConfigDialog` class; each handler is one of its methods.
 */
module ChatConfigWindow {
  import opened Wrappers
  import opened Chat

  const ChatboxAIProvider := "chatbox-ai"
  const OpenAIProvider := "openai"
  const OllamaProvider := "ollama"
  const SiliconFlowProvider := "silicon-flow"

  /** The built-in Ollama model names. */
  const OllamaModels := ["llama2", "codellama", "mistral"]

  /** The model catalogues defined in the provider packages, outside the model. */
  datatype Catalog = Catalog(chatboxAI: seq<string>, openAI: seq<string>, siliconFlow: seq<string>)

  /** `a ?? b` */
  function Coalesce<T>(a: Option<T>, b: Option<T>): (r: Option<T>)
    ensures a.Some? ==> r == a
    ensures a.None? ==> r == b
  {
    if a.Some? then a else b
  }

  /**
   * The edited copy made when the dialog opens: each of the five model
   * fields keeps the session's value when it has one and otherwise takes
   * the settings' value; every other field is copied.
   */
  function WithDefaults(session: Session, settings: Settings): (r: Session)
    ensures r.(aiProvider := session.aiProvider, model := session.model, temperature := session.temperature,
               topP := session.topP, maxTokens := session.maxTokens) == session
    ensures r.aiProvider == (if session.aiProvider.Some? then session.aiProvider else settings.aiProvider)
    ensures r.model == (if session.model.Some? then session.model else settings.model)
    ensures r.temperature == (if session.temperature.Some? then session.temperature else settings.temperature)
    ensures r.topP == (if session.topP.Some? then session.topP else settings.topP)
    ensures r.maxTokens == (if session.maxTokens.Some? then session.maxTokens else settings.maxTokens)
  {
    session.(
      aiProvider := Coalesce(session.aiProvider, settings.aiProvider),
      model := Coalesce(session.model, settings.model),
      temperature := Coalesce(session.temperature, settings.temperature),
      topP := Coalesce(session.topP, settings.topP),
      maxTokens := Coalesce(session.maxTokens, settings.maxTokens))
  }

  /** Filling is idempotent: a filled session is filled already. */
  lemma FillTwice(session: Session, settings: Settings)
    ensures WithDefaults(WithDefaults(session, settings), settings) == WithDefaults(session, settings)
  {
  }

  /** The test `msg => msg.role === 'system'`. */
  function IsSystem(): Message -> bool {
    (m: Message) => m.role == "system"
  }

  /**
   * The prompt shown on opening: the content of the first system message,
   * or "" when there is none.
   */
  function SystemPrompt(msgs: seq<Message>): (r: string)
    ensures (forall i :: 0 <= i < |msgs| ==> msgs[i].role != "system") ==> r == ""
    ensures forall i :: 0 <= i < |msgs| && msgs[i].role == "system" && (forall j :: 0 <= j < i ==> msgs[j].role != "system") ==>
      r == msgs[i].content
  {
    var k := FindIndex(msgs, IsSystem());
    if k < 0 then "" else msgs[k].content
  }

  /**
   * The message rewrite of `onSave`: copy the list, and if it has a system
   * message replace the content of the first one by the prompt. Length,
   * order and every other message stay as they were.
   */
  method RewriteSystemMessage(msgs: seq<Message>, systemPrompt: string) returns (r: seq<Message>)
    ensures |r| == |msgs|
    ensures (forall i :: 0 <= i < |msgs| ==> msgs[i].role != "system") ==> r == msgs
    ensures forall i :: 0 <= i < |msgs| ==>
      r[i] == if i == FindIndex(msgs, IsSystem()) then msgs[i].(content := systemPrompt) else msgs[i]
  {
    var messages := new Message[|msgs|](i requires 0 <= i < |msgs| => msgs[i]);
    var systemMessageIndex := FindIndex(messages[..], IsSystem());
    if systemMessageIndex >= 0 {
      messages[systemMessageIndex] := messages[systemMessageIndex].(content := systemPrompt);
    }
    r := messages[..];
  }

  /** `getModelsForProvider(provider)` */
  function ModelsForProvider(provider: string, catalog: Catalog): (r: seq<string>)
    ensures provider == ChatboxAIProvider ==> r == catalog.chatboxAI
    ensures provider == OpenAIProvider ==> r == catalog.openAI
    ensures provider == OllamaProvider ==> r == OllamaModels
    ensures provider == SiliconFlowProvider ==> r == catalog.siliconFlow
    ensures provider !in {ChatboxAIProvider, OpenAIProvider, OllamaProvider, SiliconFlowProvider} ==> r == []
  {
    match provider
    case "chatbox-ai" => catalog.chatboxAI
    case "openai" => catalog.openAI
    case "ollama" => OllamaModels
    case "silicon-flow" => catalog.siliconFlow
    case _ => []
  }

  /** The dialog's state: the session it was opened for, the edited copy, the prompt being edited. */
  class ConfigDialog {
    var dialogSession: Option<Session>
    var editingData: Option<Session>
    var systemPrompt: string

    constructor ()
      ensures dialogSession.None? && editingData.None? && systemPrompt == ""
    {
      dialogSession := None;
      editingData := None;
      systemPrompt := "";
    }

    /** The effect on `editingData`: reload the prompt from the edited copy, if there is one. */
    method SyncSystemPrompt()
      modifies this`systemPrompt
      ensures systemPrompt == if editingData.Some? then SystemPrompt(editingData.value.messages) else old(systemPrompt)
    {
      if editingData.None? {
        return;
      }
      systemPrompt := SystemPrompt(editingData.value.messages);
    }

    /** Setting the dialog atom, with the two effects that follow it. */
    method Open(session: Option<Session>, settings: Settings)
      modifies this
      ensures dialogSession == session
      ensures editingData == if session.None? then None else Some(WithDefaults(session.value, settings))
      ensures systemPrompt == if session.None? then old(systemPrompt) else SystemPrompt(editingData.value.messages)
    {
      dialogSession := session;
      if session.None? {
        editingData := None;
      } else {
        editingData := Some(WithDefaults(session.value, settings));
      }
      SyncSystemPrompt();
    }

    /** Typing in the system prompt field. */
    method EditSystemPrompt(text: string)
      modifies this`systemPrompt
      ensures systemPrompt == text
    {
      systemPrompt := text;
    }

    /**
     * The provider select's handler (rendered only while a copy is being
     * edited): set the provider and the first model it offers, `undefined`
     * when it offers none. Replacing the copy re-runs the prompt effect.
     */
    method ChangeProvider(provider: string, catalog: Catalog)
      requires editingData.Some?
      modifies this
      ensures dialogSession == old(dialogSession)
      ensures editingData == Some(old(editingData).value.(aiProvider := Some(provider),
                                                           model := First(ModelsForProvider(provider, catalog))))
      ensures systemPrompt == SystemPrompt(editingData.value.messages)
    {
      var models := ModelsForProvider(provider, catalog);
      editingData := Some(editingData.value.(aiProvider := Some(provider), model := First(models)));
      SyncSystemPrompt();
    }

    /** `onCancel`: both the dialog session and the copy are cleared. */
    method OnCancel()
      modifies this
      ensures dialogSession.None? && editingData.None?
      ensures systemPrompt == old(systemPrompt)
    {
      dialogSession := None;
      editingData := None;
      SyncSystemPrompt();
    }

    /**
     * `onSave`: nothing happens unless both the dialog session and the copy
     * exist; otherwise the copy, with its first system message rewritten, is
     * handed to `sessionActions.modify` and both are cleared.
     */
    method OnSave() returns (saved: Option<Session>)
      modifies this
      ensures old(dialogSession).None? || old(editingData).None? ==>
        saved.None? && dialogSession == old(dialogSession) && editingData == old(editingData)
        && systemPrompt == old(systemPrompt)
      ensures old(dialogSession).Some? && old(editingData).Some? ==>
        && saved.Some?
        && saved.value.(messages := old(editingData).value.messages) == old(editingData).value
        && |saved.value.messages| == |old(editingData).value.messages|
        && (forall i :: 0 <= i < |saved.value.messages| ==>
              saved.value.messages[i] ==
                if i == FindIndex(old(editingData).value.messages, IsSystem())
                then old(editingData).value.messages[i].(content := old(systemPrompt))
                else old(editingData).value.messages[i])
        && dialogSession.None? && editingData.None? && systemPrompt == old(systemPrompt)
    {
      if dialogSession.None? || editingData.None? {
        return None;
      }
      var messages := RewriteSystemMessage(editingData.value.messages, systemPrompt);
      saved := Some(editingData.value.(messages := messages));
      dialogSession := None;
      editingData := None;
      SyncSystemPrompt();
    }
  }

  /**
   * Because replacing the edited copy re-runs the prompt effect, a prompt
   * typed before a provider change is replaced by the stored one: a later
   * save writes the messages back unchanged, whatever was typed.
   */
  method TypedPromptLostOnProviderChange(dialog: ConfigDialog, text: string, provider: string, catalog: Catalog)
    returns (saved: Option<Session>)
    requires dialog.dialogSession.Some? && dialog.editingData.Some?
    modifies dialog
    ensures saved.Some?
    ensures saved.value.messages == old(dialog.editingData).value.messages
  {
    dialog.EditSystemPrompt(text);
    dialog.ChangeProvider(provider, catalog);
    saved := dialog.OnSave();
    ghost var before := old(dialog.editingData).value.messages;
    assert saved.value.messages == before by {
      var k := FindIndex(before, IsSystem());
      assert forall i :: 0 <= i < |before| ==> saved.value.messages[i] == before[i];
    }
  }
}
