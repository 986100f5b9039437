/**
 * The library's error type and the typed records of the chat API, with the
 * shape checks that serde's derived `Deserialize` performs on a parsed value
 * and the value that its derived `Serialize` produces for a chat message.
 */
module Api {
  import opened Json

  /** yammer::Error, without the Io case, which belongs to file access. */
  datatype Error =
    | Message(text: string)  // a service error text, a non-200 body, or a chunk that is not UTF-8
    | RequestError           // the HTTP client failed while sending or reading
    | JsonError              // the JSON library failed

  /** The text of the Message that a UTF-8 decoding failure becomes (its debug detail left out). */
  const Utf8ErrorText := "could not parse utf8"

  datatype Result<+T> = Ok(value: T) | Err(error: Error)

  /** ChatMessage: role, content, and the two optional lists that are omitted when absent. */
  datatype ChatMessage = ChatMessage(
    role: string,
    content: string,
    images: Option<seq<string>>,
    toolCalls: Option<seq<Value>>)

  datatype ChatRequest = ChatRequest(
    model: string,
    messages: seq<ChatMessage>,
    tools: Option<Value>,
    format: Option<string>,
    stream: Option<bool>,
    keepAlive: Option<string>)

  datatype ChatResponse = ChatResponse(createdAt: string, message: ChatMessage, done: bool)

  /** A message typed in by the user at the shell prompt. */
  function UserMessage(line: string): ChatMessage {
    ChatMessage("user", line, None, None)
  }

  /** The message that folds an assistant's streamed reply. */
  function AssistantMessage(content: string): ChatMessage {
    ChatMessage("assistant", content, None, None)
  }

  /** A list of strings, or None when some element is not a string. */
  function DecodeStrings(items: seq<Value>): (r: Option<seq<string>>)
    ensures r.Some? <==> forall i :: 0 <= i < |items| ==> items[i].Str?
    ensures r.Some? ==> |r.value| == |items| && forall i :: 0 <= i < |items| ==> r.value[i] == items[i].s
  {
    if items == [] then Some([])
    else if !items[0].Str? then None
    else match DecodeStrings(items[1..])
      case None => None
      case Some(rest) => Some([items[0].s] + rest)
  }

  function EncodeStrings(ss: seq<string>): (r: seq<Value>)
    ensures |r| == |ss| && forall i :: 0 <= i < |ss| ==> r[i] == Str(ss[i])
  {
    seq(|ss|, i requires 0 <= i < |ss| => Str(ss[i]))
  }

  /** An `Option<T>` field: missing or null is None, otherwise it must decode as T. */
  function DecodeImages(fields: map<string, Value>): Option<Option<seq<string>>> {
    if "images" !in fields || fields["images"] == Null then Some(None)
    else if !fields["images"].Array? then None
    else match DecodeStrings(fields["images"].items)
      case None => None
      case Some(ss) => Some(Some(ss))
  }

  function DecodeToolCalls(fields: map<string, Value>): Option<Option<seq<Value>>> {
    if "tool_calls" !in fields || fields["tool_calls"] == Null then Some(None)
    else if !fields["tool_calls"].Array? then None
    else Some(Some(fields["tool_calls"].items))
  }

  /** A string field that must be present. */
  function StringField(fields: map<string, Value>, key: string): Option<string> {
    if key in fields && fields[key].Str? then Some(fields[key].s) else None
  }

  /** `from_value::<ChatMessage>` on an object; unknown fields are ignored. */
  function DecodeChatMessage(v: Value): Option<ChatMessage> {
    if !v.Object? then None
    else
      var role := StringField(v.fields, "role");
      var content := StringField(v.fields, "content");
      var images := DecodeImages(v.fields);
      var toolCalls := DecodeToolCalls(v.fields);
      if role.None? || content.None? || images.None? || toolCalls.None? then None
      else Some(ChatMessage(role.value, content.value, images.value, toolCalls.value))
  }

  /** `to_value(&ChatMessage)`: the optional lists are skipped when None. */
  function EncodeChatMessage(m: ChatMessage): Value {
    var base := map["role" := Str(m.role), "content" := Str(m.content)];
    var withImages := if m.images.Some? then base["images" := Array(EncodeStrings(m.images.value))] else base;
    Object(if m.toolCalls.Some? then withImages["tool_calls" := Array(m.toolCalls.value)] else withImages)
  }

  /** Decoding a string list undoes encoding it. */
  lemma {:induction false} StringsRoundTrip(ss: seq<string>)
    ensures DecodeStrings(EncodeStrings(ss)) == Some(ss)
  {
    var r := DecodeStrings(EncodeStrings(ss));
    assert r.Some?;
    assert r.value == ss;
  }

  /** What serialising a chat message writes, deserialising reads back unchanged. */
  lemma ChatMessageRoundTrip(m: ChatMessage)
    ensures DecodeChatMessage(EncodeChatMessage(m)) == Some(m)
  {
    if m.images.Some? {
      StringsRoundTrip(m.images.value);
    }
  }

  /** `from_value::<ChatResponse>` on an object. */
  function DecodeChatResponse(v: Value): Option<ChatResponse> {
    if !v.Object? then None
    else
      var createdAt := StringField(v.fields, "created_at");
      var message := if "message" in v.fields then DecodeChatMessage(v.fields["message"]) else None;
      var done := if "done" in v.fields && v.fields["done"].Bool? then Some(v.fields["done"].b) else None;
      if createdAt.None? || message.None? || done.None? then None
      else Some(ChatResponse(createdAt.value, message.value, done.value))
  }

  /** `from_str::<ErrorResponse>`: the text of a string field "error" of an object. */
  function DecodeErrorResponse(v: Value): Option<string> {
    if v.Object? then StringField(v.fields, "error") else None
  }

  /** The ErrorResponse that `text` parses as, if any. */
  function ServiceError(parse: Parser, text: string): (r: Option<string>)
    ensures r.Some? ==> parse(text).Some?
  {
    match parse(text)
    case None => None
    case Some(v) => DecodeErrorResponse(v)
  }
}
