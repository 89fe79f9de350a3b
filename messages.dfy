/**
 * Conversation history entries and their JSON form. The history is the array of
 * `{role, content}` objects that extension.js keeps, passes to the providers and
 * persists through lib/settings.js.
 */
module Messages {
  import opened Wrappers
  import opened Json

  /**
   * One history entry. `content` is None when the entry has no `content` property
   * (a history read back from storage may lack it).
   */
  datatype Message = Message(role: string, content: Option<string>)

  type History = seq<Message>

  /** The `content` member of an object, omitted when the content is absent (as JSON.stringify omits `undefined`). */
  function ContentMembers(content: Option<string>): seq<Member> {
    if content.Some? then [Member("content", JStr(content.value))] else []
  }

  function MessageToJson(m: Message): Json {
    JObj([Member("role", JStr(m.role))] + ContentMembers(m.content))
  }

  function HistoryToJson(h: History): Json {
    JArr(seq(|h|, i requires 0 <= i < |h| => MessageToJson(h[i])))
  }

  /** Reads a history entry back from JSON: an object with a string `role` and, optionally, a string `content`. */
  function MessageFromJson(j: Json): Option<Message> {
    if !j.JObj? then None
    else match (Field(j.members, "role"), Field(j.members, "content"))
      case (Some(JStr(r)), None) => Some(Message(r, None))
      case (Some(JStr(r)), Some(JStr(c))) => Some(Message(r, Some(c)))
      case _ => None
  }

  /** Reads a history back from JSON: an array whose every element is a history entry. */
  function HistoryFromJson(j: Json): Option<History> {
    if j.JArr? && forall i :: 0 <= i < |j.items| ==> MessageFromJson(j.items[i]).Some? then
      Some(seq(|j.items|, i requires 0 <= i < |j.items| && MessageFromJson(j.items[i]).Some? =>
        MessageFromJson(j.items[i]).value))
    else None
  }

  /** Every entry survives the trip through its JSON form. */
  lemma MessageRoundTrip(m: Message)
    ensures MessageFromJson(MessageToJson(m)) == Some(m)
  {
    var ms := [Member("role", JStr(m.role))] + ContentMembers(m.content);
    FieldOfUniqueKey(ms, 0, "role");
    if m.content.Some? {
      FieldOfUniqueKey(ms, 1, "content");
    }
  }

  /** A history survives the trip through its JSON form: what is persisted reads back unchanged. */
  lemma {:induction false} HistoryRoundTrip(h: History)
    ensures HistoryFromJson(HistoryToJson(h)) == Some(h)
  {
    var items := HistoryToJson(h).items;
    forall i | 0 <= i < |items| ensures MessageFromJson(items[i]) == Some(h[i]) {
      MessageRoundTrip(h[i]);
    }
    var back := seq(|items|, i requires 0 <= i < |items| && MessageFromJson(items[i]).Some? =>
      MessageFromJson(items[i]).value);
    assert HistoryFromJson(HistoryToJson(h)) == Some(back);
    assert back == h;
  }
}
