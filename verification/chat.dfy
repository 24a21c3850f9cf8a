/**
 * The renderer's chat records, with the fields the modelled components
 * read or write. An optional field is an Option: None stands for both
 * `undefined` and `null`, which `??` and `||` treat alike.
 */
module Chat {
  import opened Wrappers

  datatype Message = Message(
    id: string,
    role: string,
    content: string,
    generating: Option<bool>,
    wordCount: Option<nat>,
    tokenCount: Option<nat>,
    timestamp: Option<int>)

  datatype Session = Session(
    id: string,
    name: string,
    sessionType: Option<string>,
    messages: seq<Message>,
    aiProvider: Option<string>,
    model: Option<string>,
    temperature: Option<real>,
    topP: Option<real>,
    maxTokens: Option<int>,
    openaiCustomModel: Option<string>)

  datatype Settings = Settings(
    aiProvider: Option<string>,
    model: Option<string>,
    temperature: Option<real>,
    topP: Option<real>,
    maxTokens: Option<int>,
    licenseKey: Option<string>,
    openaiKey: Option<string>,
    apiHost: Option<string>,
    ollamaModel: Option<string>)

  /** JavaScript truthiness of an optional string: present and not "". */
  predicate Truthy(s: Option<string>) {
    s.Some? && s.value != ""
  }

  /** `msgs.findIndex(p)`: the first index whose message satisfies `p`, or -1. */
  function FindIndex(msgs: seq<Message>, p: Message -> bool): (r: int)
    ensures -1 <= r < |msgs|
    ensures r == -1 <==> forall i :: 0 <= i < |msgs| ==> !p(msgs[i])
    ensures r >= 0 ==> p(msgs[r]) && forall i :: 0 <= i < r ==> !p(msgs[i])
    decreases |msgs|
  {
    if msgs == [] then -1
    else if p(msgs[0]) then 0
    else
      var r := FindIndex(msgs[1..], p);
      if r < 0 then -1 else r + 1
  }
}
