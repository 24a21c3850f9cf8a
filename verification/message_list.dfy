/**
 * The message list's edit, delete and regenerate handlers
 * (`MessageList.tsx`). Each builds a new session list with map, filter and
 * slice and hands it to `setSessions`; the functions below return that list.
 */
module MessageList {
  import opened Wrappers
  import opened Chat

  /** `countWord` and `estimateTokensFromMessages`, which lie outside the model. */
  datatype Counters = Counters(countWord: string -> nat, estimateTokens: seq<Message> -> nat)

  /** A message with new content and recounted words and tokens. */
  function Edited(m: Message, content: string, counters: Counters): Message {
    var withContent := m.(content := content);
    withContent.(wordCount := Some(counters.countWord(content)),
                 tokenCount := Some(counters.estimateTokens([withContent])))
  }

  /**
   * The messages of one session after an edit: same length and order, the
   * messages with the given id edited, all others unchanged.
   */
  function EditMessages(msgs: seq<Message>, messageId: string, content: string, counters: Counters): (r: seq<Message>)
    ensures |r| == |msgs|
    ensures forall i :: 0 <= i < |msgs| && msgs[i].id != messageId ==> r[i] == msgs[i]
    ensures forall i :: 0 <= i < |msgs| && msgs[i].id == messageId ==>
      r[i] == Edited(msgs[i], content, counters) && r[i].content == content
    decreases |msgs|
  {
    if msgs == [] then []
    else
      [if msgs[0].id == messageId then Edited(msgs[0], content, counters) else msgs[0]]
        + EditMessages(msgs[1..], messageId, content, counters)
  }

  /** How many messages carry the given id. */
  function Occurrences(msgs: seq<Message>, messageId: string): nat
    decreases |msgs|
  {
    if msgs == [] then 0
    else (if msgs[0].id == messageId then 1 else 0) + Occurrences(msgs[1..], messageId)
  }

  /** `a` is `b` with some elements left out, in the same order. */
  ghost predicate IsSubsequence(a: seq<Message>, b: seq<Message>)
    decreases |b|
  {
    if a == [] then true
    else if b == [] then false
    else if a[0] == b[0] then IsSubsequence(a[1..], b[1..])
    else IsSubsequence(a, b[1..])
  }

  /**
   * The messages of one session after a delete: every message with the
   * given id is gone, every other one stays, in the original order.
   */
  function DeleteMessages(msgs: seq<Message>, messageId: string): (r: seq<Message>)
    ensures forall i :: 0 <= i < |r| ==> r[i].id != messageId
    ensures IsSubsequence(r, msgs)
    ensures |r| == |msgs| - Occurrences(msgs, messageId)
    decreases |msgs|
  {
    if msgs == [] then []
    else if msgs[0].id == messageId then DeleteMessages(msgs[1..], messageId)
    else [msgs[0]] + DeleteMessages(msgs[1..], messageId)
  }

  /** `sessions.map(s => s.id === currentId ? { ...s, messages: f(s.messages) } : s)` */
  function UpdateCurrent(sessions: seq<Session>, currentId: string, f: seq<Message> -> seq<Message>): (r: seq<Session>)
    ensures |r| == |sessions|
    ensures forall i :: 0 <= i < |sessions| && sessions[i].id != currentId ==> r[i] == sessions[i]
    ensures forall i :: 0 <= i < |sessions| && sessions[i].id == currentId ==>
      r[i] == sessions[i].(messages := f(sessions[i].messages))
  {
    seq(|sessions|, i requires 0 <= i < |sessions| =>
      if sessions[i].id == currentId then sessions[i].(messages := f(sessions[i].messages)) else sessions[i])
  }

  /** `handleEdit(messageId, newContent)` */
  function HandleEdit(sessions: seq<Session>, currentId: string, messageId: string, content: string, counters: Counters): (r: seq<Session>)
    ensures |r| == |sessions|
    ensures forall i :: 0 <= i < |sessions| && sessions[i].id != currentId ==> r[i] == sessions[i]
    ensures forall i :: 0 <= i < |sessions| && sessions[i].id == currentId ==>
      r[i].(messages := sessions[i].messages) == sessions[i]
      && |r[i].messages| == |sessions[i].messages|
      && (forall j :: 0 <= j < |r[i].messages| ==>
            r[i].messages[j] == if sessions[i].messages[j].id == messageId
                                then Edited(sessions[i].messages[j], content, counters)
                                else sessions[i].messages[j])
  {
    UpdateCurrent(sessions, currentId, msgs => EditMessages(msgs, messageId, content, counters))
  }

  /** `handleDelete(messageId)` */
  function HandleDelete(sessions: seq<Session>, currentId: string, messageId: string): (r: seq<Session>)
    ensures |r| == |sessions|
    ensures forall i :: 0 <= i < |sessions| && sessions[i].id != currentId ==> r[i] == sessions[i]
    ensures forall i :: 0 <= i < |sessions| && sessions[i].id == currentId ==>
      r[i].(messages := sessions[i].messages) == sessions[i]
      && r[i].messages == DeleteMessages(sessions[i].messages, messageId)
  {
    UpdateCurrent(sessions, currentId, msgs => DeleteMessages(msgs, messageId))
  }

  /** `messages.slice(0, end)`: an end past the length takes the whole list. */
  function Prefix(msgs: seq<Message>, end: nat): (r: seq<Message>)
    ensures |r| == if end <= |msgs| then end else |msgs|
    ensures r <= msgs
  {
    if end <= |msgs| then msgs[..end] else msgs
  }

  /** The test `msg => msg.id === messageId`. */
  function HasId(messageId: string): Message -> bool {
    (m: Message) => m.id == messageId
  }

  /** What `handleRegenerate` does: nothing, or a new session list plus the message passed to `generate`. */
  datatype Regeneration =
    | NoChange
    | Regenerated(sessions: seq<Session>, generated: Message)

  /**
   * `handleRegenerate(messageId)`: find the message in the current message
   * list; if found, cut the current session's messages before it and append
   * a copy with a fresh id, empty content and `generating` set.
   */
  function HandleRegenerate(sessions: seq<Session>, currentId: string, currentList: seq<Message>, messageId: string, freshId: string): (r: Regeneration)
    ensures r.NoChange? <==> forall j :: 0 <= j < |currentList| ==> currentList[j].id != messageId
    ensures r.Regenerated? ==>
      var k := FindIndex(currentList, HasId(messageId));
      && 0 <= k < |currentList| && currentList[k].id == messageId
      && r.generated == currentList[k].(id := freshId, content := "", generating := Some(true))
      && |r.sessions| == |sessions|
      && (forall i :: 0 <= i < |sessions| && sessions[i].id != currentId ==> r.sessions[i] == sessions[i])
      && (forall i :: 0 <= i < |sessions| && sessions[i].id == currentId ==>
            r.sessions[i] == sessions[i].(messages := Prefix(sessions[i].messages, k) + [r.generated]))
  {
    var k := FindIndex(currentList, HasId(messageId));
    if k == -1 then NoChange
    else
      var generated := currentList[k].(id := freshId, content := "", generating := Some(true));
      Regenerated(UpdateCurrent(sessions, currentId, msgs => Prefix(msgs, k) + [generated]), generated)
  }

  /**
   * When the current message list is the current session's messages,
   * regenerating the message at index k leaves that session with its first
   * k messages followed by the new one, k + 1 in all.
   */
  lemma {:induction false} RegenerateTruncates(sessions: seq<Session>, i: nat, messageId: string, freshId: string)
    requires i < |sessions|
    requires exists j :: 0 <= j < |sessions[i].messages| && sessions[i].messages[j].id == messageId
    ensures var msgs := sessions[i].messages;
      var r := HandleRegenerate(sessions, sessions[i].id, msgs, messageId, freshId);
      var k := FindIndex(msgs, HasId(messageId));
      && r.Regenerated?
      && |r.sessions[i].messages| == k + 1
      && r.sessions[i].messages[..k] == msgs[..k]
      && r.sessions[i].messages[k] == r.generated
      && r.generated.id == freshId && r.generated.content == "" && r.generated.generating == Some(true)
      && r.generated.role == msgs[k].role
  {
    var msgs := sessions[i].messages;
    var r := HandleRegenerate(sessions, sessions[i].id, msgs, messageId, freshId);
    var k := FindIndex(msgs, HasId(messageId));
    assert HasId(messageId)(msgs[k]);
    assert r.sessions[i].messages == Prefix(msgs, k) + [r.generated];
  }

  /** The props each message is rendered with. */
  datatype ItemProps = ItemProps(key: string, className: string, collapseThreshold: Option<nat>)

  /** The list rendering: system messages collapse at 150, no other role collapses. */
  function RenderedItems(msgs: seq<Message>): (r: seq<ItemProps>)
    ensures |r| == |msgs|
    ensures forall i :: 0 <= i < |msgs| ==>
      && (r[i].collapseThreshold.Some? <==> msgs[i].role == "system")
      && (r[i].collapseThreshold.Some? ==> r[i].collapseThreshold.value == 150)
      && r[i].key == "msg-" + msgs[i].id
      && (r[i].className == "pt-4" <==> i == 0)
  {
    seq(|msgs|, i requires 0 <= i < |msgs| =>
      ItemProps("msg-" + msgs[i].id,
                if i == 0 then "pt-4" else "",
                if msgs[i].role == "system" then Some(150) else None))
  }
}
