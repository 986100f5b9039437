/**
 * The conversation transcript: an ordered list of chat messages that the shell
 * appends to, the fold of a streamed assistant reply into at most one message,
 * the accumulator that collects the reply and folds it when it is dropped, and
 * the request a transcript turns into.
 */
module Conversations {
  import opened Json
  import opened Api
  import opened Sinks

  /** What one streamed piece contributes to the reply: `message.content`, when `message`
      is an object whose `content` is a string.  The `response` field is not consulted. */
  function PieceContent(piece: Value): Option<string> {
    match Get(piece, "message")
    case Some(Object(fields)) => StringField(fields, "content")
    case _ => None
  }

  /** The contributions of all pieces, joined in arrival order. */
  function ResponseContent(pieces: seq<Value>): string
    decreases |pieces|
  {
    if pieces == [] then ""
    else
      (match PieceContent(pieces[0]) case Some(c) => c case None => "")
      + ResponseContent(pieces[1..])
  }

  /** Joining is compatible with splitting the pieces anywhere. */
  lemma {:induction false} ResponseContentAppend(a: seq<Value>, b: seq<Value>)
    ensures ResponseContent(a + b) == ResponseContent(a) + ResponseContent(b)
    decreases |a|
  {
    if a == [] {
      assert a + b == b;
    } else {
      assert (a + b)[1..] == a[1..] + b;
      ResponseContentAppend(a[1..], b);
    }
  }

  /** The reply is the in-order concatenation of the contents of exactly the pieces that have one. */
  lemma {:induction false} ResponseContentOfContents(pieces: seq<Value>, contents: seq<string>)
    requires |contents| == |pieces|
    requires forall i :: 0 <= i < |pieces| ==> PieceContent(pieces[i]) == Some(contents[i])
    ensures ResponseContent(pieces) == Concat(contents)
    decreases |pieces|
  {
    if pieces != [] {
      ResponseContentOfContents(pieces[1..], contents[1..]);
    }
  }

  function Concat(ss: seq<string>): string
    decreases |ss|
  {
    if ss == [] then "" else ss[0] + Concat(ss[1..])
  }

  /** Pieces without `message.content` (a generate-style `response`, tool calls, a status line)
      contribute nothing. */
  lemma {:induction false} NoContentNoReply(pieces: seq<Value>)
    requires forall i :: 0 <= i < |pieces| ==> PieceContent(pieces[i]).None?
    ensures ResponseContent(pieces) == ""
    decreases |pieces|
  {
    if pieces != [] {
      NoContentNoReply(pieces[1..]);
    }
  }

  /** The transcript after `add_assistant_response(pieces)`. */
  function Folded(messages: seq<ChatMessage>, pieces: seq<Value>): (r: seq<ChatMessage>)
    ensures |r| == |messages| || |r| == |messages| + 1
    ensures r[..|messages|] == messages
    ensures |r| == |messages| + 1 <==> ResponseContent(pieces) != ""
    ensures forall j :: |messages| <= j < |r| ==> r[j] == AssistantMessage(ResponseContent(pieces))
  {
    var content := ResponseContent(pieces);
    if content == "" then messages else messages + [AssistantMessage(content)]
  }

  class Conversation {
    var messages: seq<ChatMessage>

    /** `Conversation::new()`. */
    constructor ()
      ensures messages == []
    {
      messages := [];
    }

    method Push(message: ChatMessage)
      modifies this
      ensures messages == old(messages) + [message]
      ensures messages[..|old(messages)|] == old(messages)
    {
      messages := messages + [message];
    }

    /** `truncate(index)`: keep at most `index` messages. */
    method Truncate(index: nat)
      modifies this
      ensures |messages| == if index < |old(messages)| then index else |old(messages)|
      ensures messages == old(messages)[..|messages|]
    {
      if index < |messages| {
        messages := messages[..index];
      }
    }

    method AddAssistantResponse(pieces: seq<Value>)
      modifies this
      ensures messages == Folded(old(messages), pieces)
      ensures ResponseContent(pieces) == "" ==> messages == old(messages)
      ensures ResponseContent(pieces) != "" ==>
        messages == old(messages) + [ChatMessage("assistant", ResponseContent(pieces), None, None)]
    {
      var content := ResponseContent(pieces);
      if content != "" {
        Push(AssistantMessage(content));
      }
    }

    /** `request(model)`: the whole transcript, asking for a streamed reply. */
    function Request(model: string): (r: ChatRequest)
      reads this
      ensures r.model == model && r.messages == messages
      ensures r.stream == Some(true)
      ensures r.tools.None? && r.format.None? && r.keepAlive.None?
    {
      ChatRequest(model, messages, None, None, Some(true), None)
    }

    /** `command`: only the exact line "/exit" ends the shell; every other line is an
        unknown command.  Either way the transcript is left as it is. */
    function Command(line: string): (r: Flow)
      ensures r == Break <==> line == "/exit"
    {
      if line == "/exit" then Break else Continue
    }

    /** `accumulator()`: a collector bound to this transcript. */
    method Accumulator() returns (acc: ConversationAccumulator)
      ensures fresh(acc) && acc.convo == this && acc.pieces == []
    {
      acc := new ConversationAccumulator(this);
    }
  }

  class ConversationAccumulator {
    const convo: Conversation
    var pieces: seq<Value>

    function State(): SinkState
      reads this
    {
      Collect(pieces)
    }

    constructor (convo: Conversation)
      ensures this.convo == convo && pieces == []
    {
      this.convo := convo;
      pieces := [];
    }

    method Accumulate(message: Value) returns (flow: Flow)
      modifies this
      ensures (State(), flow) == SinkStep(old(State()), message)
      ensures pieces == old(pieces) + [message] && flow == Continue
    {
      pieces := pieces + [message];
      flow := Continue;
    }

    /** `Drop`: fold the collected pieces, in arrival order, into the transcript. */
    method Drop()
      modifies this, convo
      ensures convo.messages == Folded(old(convo.messages), old(pieces))
      ensures pieces == []
    {
      var taken := pieces;
      pieces := [];
      convo.AddAssistantResponse(taken);
    }
  }
}
