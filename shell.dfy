/**
 * The chat shell: reading lines, running commands, and for every other line one
 * turn of pushing the user message, logging it, sending the transcript, folding
 * the streamed reply into the transcript and logging the transcript's last
 * message.  The terminal, the reply's arrival and the serialiser are parameters.
 */
module Shell {
  import opened Json
  import opened Api
  import opened Requests
  import opened Sinks
  import opened Conversations
  import opened Members
  import opened Engine
  import opened EngineLaws
  import Replay

  /** The ndjson log: the messages written to it, in order. */
  class Log {
    var lines: seq<ChatMessage>

    constructor ()
      ensures lines == []
    {
      lines := [];
    }

    /** `writeln!(log, "{}", to_string(&message))`. */
    method Write(message: ChatMessage)
      modifies this
      ensures lines == old(lines) + [message]
    {
      lines := lines + [message];
    }
  }

  /** The accumulators of a turn before the reply: the conversation's collector, then the printer. */
  function Fresh(): seq<SinkState> {
    [Collect([]), ChatRender(false, [])]
  }

  /** What a turn did: the request could not be built, or it was sent and ended with `result`. */
  datatype TurnResult = NotSent(error: Error) | Sent(result: Result<()>)

  /** The request a transcript asks for, as the chat builder makes it from the serialised
      transcript. */
  function ChatFor(messages: seq<ChatMessage>, model: string, options: RequestOptions, ollamaHost: Option<string>,
                   encode: ChatRequest -> Option<string>): Result<Request>
  {
    Build(options, ollamaHost, Chat, encode(ChatRequest(model, messages, None, None, Some(true), None)))
  }

  /** The last message of a transcript that has one. */
  function Last(messages: seq<ChatMessage>): ChatMessage
    requires messages != []
  {
    messages[|messages| - 1]
  }

  /** One turn of the shell for a line that is not a command. */
  method Turn(convo: Conversation, log: Log?, line: string, model: string, options: RequestOptions,
              ollamaHost: Option<string>, encode: ChatRequest -> Option<string>, reply: Response, parse: Parser)
    returns (outcome: TurnResult)
    modifies convo, log
    ensures var asked := old(convo.messages) + [UserMessage(line)];
      var built := ChatFor(asked, model, options, ollamaHost, encode);
      && (built.Err? ==>
            && outcome == NotSent(built.error)
            && convo.messages == asked
            && (log != null ==> log.lines == old(log.lines) + [UserMessage(line)]))
      && (built.Ok? ==>
            var o := Run(built.value.streaming, reply, parse, Fresh());
            && outcome == Sent(o.result)
            && convo.messages == Folded(asked, o.delivered)
            && (log != null ==> log.lines == old(log.lines) + [UserMessage(line), Last(convo.messages)]))
  {
    convo.Push(UserMessage(line));
    if log != null {
      log.Write(convo.messages[|convo.messages| - 1]);
    }
    var built := Build(options, ollamaHost, Chat, encode(convo.Request(model)));
    if built.Err? {
      return NotSent(built.error);
    }
    var result := Exchange(convo, built.value, reply, parse);
    if log != null {
      log.Write(convo.messages[|convo.messages| - 1]);
    }
    outcome := Sent(result);
  }

  /** Sending the transcript and folding the reply: a fresh printer and a fresh collector
      on the transcript take the streamed values, and dropping the collector folds what it
      took, even when the call failed part way. */
  method Exchange(convo: Conversation, req: Request, reply: Response, parse: Parser) returns (result: Result<()>)
    modifies convo
    ensures var o := Run(req.streaming, reply, parse, Fresh());
      result == o.result && convo.messages == Folded(old(convo.messages), o.delivered)
  {
    var printer := new ChatAccumulator();
    var acc := convo.Accumulator();
    var group := [ConversationMember(acc), ChatMember(printer)];
    assert States(group) == Fresh();
    ghost var o := Run(req.streaming, reply, parse, Fresh());
    result := Accumulate(req, reply, parse, group);
    CollectorSeesEverything(req.streaming, reply, parse, Fresh(), 0);
    assert StateOf(group[0]) == Collect(acc.pieces) == o.sinks[0];
    assert acc.pieces == o.delivered;
    assert convo.messages == old(convo.messages);
    ghost var taken := acc.pieces;
    acc.Drop();
    assert convo.messages == Folded(old(convo.messages), taken);
  }

  /** After a turn that was sent, the log's second entry is the folded reply, or the user's
      message once more when the reply had no content. */
  lemma LoggedAfterReply(messages: seq<ChatMessage>, line: string, pieces: seq<Value>)
    ensures var folded := Folded(messages + [UserMessage(line)], pieces);
      Last(folded) == if ResponseContent(pieces) == "" then UserMessage(line) else AssistantMessage(ResponseContent(pieces))
  {
  }

  /** What the line editor returned. */
  datatype Input =
    | Line(text: string, reply: Response)  // a line, and the reply the server would send for it
    | Interrupted                          // Ctrl-C
    | Eof                                  // Ctrl-D
    | ReadFailed                           // any other read error

  /** A line that the shell treats as a command rather than a message. */
  predicate IsCommand(line: string) {
    var t := Trim(line);
    t != "" && t[0] == '/'
  }

  /** An input that ends the shell. */
  predicate Ends(input: Input) {
    input.Eof? || (input.Line? && IsCommand(input.text) && input.text == "/exit")
  }

  /** `s` starts with `prefix`. */
  predicate Extends(prefix: seq<ChatMessage>, s: seq<ChatMessage>) {
    |s| >= |prefix| && s[..|prefix|] == prefix
  }

  /** From position `n` on, no user message of the transcript is a command line. */
  predicate NoCommandsFrom(n: nat, messages: seq<ChatMessage>) {
    forall j :: n <= j < |messages| ==> messages[j].role == "user" ==> !IsCommand(messages[j].content)
  }

  /** From position `n` on, every logged message is in the transcript. */
  predicate LoggedFrom(n: nat, lines: seq<ChatMessage>, messages: seq<ChatMessage>) {
    forall j :: n <= j < |lines| ==> lines[j] in messages
  }

  /** What the shell was started with: the model, the request options, OLLAMA_HOST, the
      serialiser of chat requests and the JSON parser. */
  datatype Setting = Setting(model: string, options: RequestOptions, ollamaHost: Option<string>,
                             encode: ChatRequest -> Option<string>, parse: Parser)

  /** What the shell keeps between inputs: the transcript and what it has logged. */
  datatype ShellState = ShellState(messages: seq<ChatMessage>, logged: seq<ChatMessage>)

  /** What a log holds so far; nothing when there is no log. */
  function Logged(log: Log?): seq<ChatMessage>
    reads log
  {
    if log != null then log.lines else []
  }

  /** The state after a turn for `line` whose reply is `reply`. */
  function TurnStep(s: ShellState, line: string, reply: Response, setting: Setting): ShellState {
    var asked := s.messages + [UserMessage(line)];
    var built := ChatFor(asked, setting.model, setting.options, setting.ollamaHost, setting.encode);
    if built.Err? then ShellState(asked, s.logged + [UserMessage(line)])
    else
      var folded := Folded(asked, Run(built.value.streaming, reply, setting.parse, Fresh()).delivered);
      ShellState(folded, s.logged + [UserMessage(line), Last(folded)])
  }

  /** One input: a line that is not a command is a turn; a command, Ctrl-C, Ctrl-D and a
      failed read leave the transcript and the log as they are. */
  function Step(s: ShellState, input: Input, setting: Setting): ShellState {
    if input.Line? && !IsCommand(input.text) then TurnStep(s, input.text, input.reply, setting) else s
  }

  /** The shell over its inputs: each is handled in turn, and none after the first that
      ends the shell. */
  function Play(s: ShellState, inputs: seq<Input>, setting: Setting): ShellState
    decreases |inputs|
  {
    if inputs == [] || Ends(inputs[0]) then s
    else Play(Step(s, inputs[0], setting), inputs[1..], setting)
  }

  /** What the shell does with one input; true when the shell ends. */
  method Handle(convo: Conversation, log: Log?, input: Input, model: string, options: RequestOptions,
                ollamaHost: Option<string>, encode: ChatRequest -> Option<string>, parse: Parser)
    returns (ended: bool)
    modifies convo, log
    ensures ended <==> Ends(input)
    ensures var after := Step(ShellState(old(convo.messages), old(Logged(log))), input,
                              Setting(model, options, ollamaHost, encode, parse));
      convo.messages == after.messages && (log != null ==> log.lines == after.logged)
    ensures !(input.Line? && !IsCommand(input.text)) ==>
      convo.messages == old(convo.messages) && (log != null ==> log.lines == old(log.lines))
    ensures Extends(old(convo.messages), convo.messages)
    ensures NoCommandsFrom(|old(convo.messages)|, convo.messages)
    ensures log != null ==> Extends(old(log.lines), log.lines) && LoggedFrom(|old(log.lines)|, log.lines, convo.messages)
  {
    ghost var setting := Setting(model, options, ollamaHost, encode, parse);
    ghost var before := ShellState(convo.messages, Logged(log));
    ended := false;
    match input {
      case Line(text, reply) =>
        if IsCommand(text) {
          ended := convo.Command(text) == Break;
        } else {
          var _ := Turn(convo, log, text, model, options, ollamaHost, encode, reply, parse);
        }
      case Interrupted =>
      case Eof => ended := true;
      case ReadFailed =>
    }
    StepKeeps(before, input, setting);
  }

  /** A step keeps the transcript and the log it started from, adds no command line to the
      transcript and logs only messages of the transcript. */
  lemma StepKeeps(s: ShellState, input: Input, setting: Setting)
    ensures var t := Step(s, input, setting);
      && Extends(s.messages, t.messages) && NoCommandsFrom(|s.messages|, t.messages)
      && Extends(s.logged, t.logged) && LoggedFrom(|s.logged|, t.logged, t.messages)
  {
    var t := Step(s, input, setting);
    if input.Line? && !IsCommand(input.text) {
      var user := UserMessage(input.text);
      KeptPrefix(s.messages, user, t.messages);
      assert t.logged[..|s.logged|] == s.logged;
      forall j | |s.logged| <= j < |t.logged| ensures t.logged[j] in t.messages {
        assert t.logged[j] == user || t.logged[j] == Last(t.messages);
      }
    } else {
      assert t.messages[..|s.messages|] == s.messages;
      assert t.logged[..|s.logged|] == s.logged;
    }
  }

  /** Keeping prefixes, keeping command lines out and logging only transcript messages
      compose over two steps. */
  lemma KeepsCompose(start: ShellState, middle: ShellState, end: ShellState)
    requires Extends(start.messages, middle.messages) && NoCommandsFrom(|start.messages|, middle.messages)
    requires Extends(middle.messages, end.messages) && NoCommandsFrom(|middle.messages|, end.messages)
    requires Extends(start.logged, middle.logged) && LoggedFrom(|start.logged|, middle.logged, middle.messages)
    requires Extends(middle.logged, end.logged) && LoggedFrom(|middle.logged|, end.logged, end.messages)
    ensures Extends(start.messages, end.messages) && NoCommandsFrom(|start.messages|, end.messages)
    ensures Extends(start.logged, end.logged) && LoggedFrom(|start.logged|, end.logged, end.messages)
  {
    assert end.messages[..|start.messages|] == middle.messages[..|start.messages|];
    assert end.logged[..|start.logged|] == middle.logged[..|start.logged|];
    forall j | |start.messages| <= j < |end.messages| && end.messages[j].role == "user"
      ensures !IsCommand(end.messages[j].content)
    {
      if j < |middle.messages| {
        assert end.messages[j] == middle.messages[j];
      }
    }
    forall j | |start.logged| <= j < |end.logged| ensures end.logged[j] in end.messages {
      if j < |middle.logged| {
        assert end.logged[j] == middle.logged[j];
        var k :| 0 <= k < |middle.messages| && middle.messages[k] == end.logged[j];
        assert end.messages[k] == middle.messages[k];
      }
    }
  }

  /** The whole shell keeps what it started from, never turns a command line into a user
      message, and logs only messages of the transcript. */
  lemma {:induction false} PlayKeeps(s: ShellState, inputs: seq<Input>, setting: Setting)
    ensures var t := Play(s, inputs, setting);
      && Extends(s.messages, t.messages) && NoCommandsFrom(|s.messages|, t.messages)
      && Extends(s.logged, t.logged) && LoggedFrom(|s.logged|, t.logged, t.messages)
    decreases |inputs|
  {
    if inputs == [] || Ends(inputs[0]) {
      assert s.messages[..|s.messages|] == s.messages;
      assert s.logged[..|s.logged|] == s.logged;
    } else {
      var next := Step(s, inputs[0], setting);
      StepKeeps(s, inputs[0], setting);
      PlayKeeps(next, inputs[1..], setting);
      KeepsCompose(s, next, Play(next, inputs[1..], setting));
    }
  }

  /** Nothing after the input that ends the shell is handled. */
  lemma {:induction false} PlayStops(s: ShellState, inputs: seq<Input>, rest: seq<Input>, setting: Setting)
    requires exists i :: 0 <= i < |inputs| && Ends(inputs[i])
    ensures Play(s, inputs + rest, setting) == Play(s, inputs, setting)
    decreases |inputs|
  {
    assert (inputs + rest)[0] == inputs[0];
    if !Ends(inputs[0]) {
      var i :| 0 <= i < |inputs| && Ends(inputs[i]);
      assert Ends(inputs[1..][i - 1]);
      assert (inputs + rest)[1..] == inputs[1..] + rest;
      PlayStops(Step(s, inputs[0], setting), inputs[1..], rest, setting);
    }
  }

  /** Inputs that do not end the shell hand their state on to the inputs that follow. */
  lemma {:induction false} PlayAppend(s: ShellState, inputs: seq<Input>, rest: seq<Input>, setting: Setting)
    requires forall i :: 0 <= i < |inputs| ==> !Ends(inputs[i])
    ensures Play(s, inputs + rest, setting) == Play(Play(s, inputs, setting), rest, setting)
    decreases |inputs|
  {
    if inputs == [] {
      assert inputs + rest == rest;
    } else {
      assert (inputs + rest)[0] == inputs[0];
      assert (inputs + rest)[1..] == inputs[1..] + rest;
      PlayAppend(Step(s, inputs[0], setting), inputs[1..], rest, setting);
    }
  }

  /** Commands, Ctrl-C and failed reads change neither the transcript nor the log. */
  lemma {:induction false} PlayQuiet(s: ShellState, inputs: seq<Input>, setting: Setting)
    requires forall i :: 0 <= i < |inputs| ==> !(inputs[i].Line? && !IsCommand(inputs[i].text))
    ensures Play(s, inputs, setting) == s
    decreases |inputs|
  {
    if inputs != [] && !Ends(inputs[0]) {
      PlayQuiet(s, inputs[1..], setting);
    }
  }

  /** The shell's loop over the lines it reads, after pushing the messages of a loaded log.
      It returns whether it ended through Eof or "/exit" (true) or ran out of input. */
  method Session(convo: Conversation, log: Log?, loaded: seq<ChatMessage>, inputs: seq<Input>, model: string,
                 options: RequestOptions, ollamaHost: Option<string>, encode: ChatRequest -> Option<string>, parse: Parser)
    returns (ended: bool)
    modifies convo, log
    ensures var after := Play(ShellState(old(convo.messages) + loaded, old(Logged(log))), inputs,
                              Setting(model, options, ollamaHost, encode, parse));
      convo.messages == after.messages && (log != null ==> log.lines == after.logged)
    ensures Extends(old(convo.messages) + loaded, convo.messages)
    ensures NoCommandsFrom(|old(convo.messages) + loaded|, convo.messages)
    ensures log != null ==> Extends(old(log.lines), log.lines) && LoggedFrom(|old(log.lines)|, log.lines, convo.messages)
    ensures ended <==> exists i :: 0 <= i < |inputs| && Ends(inputs[i])
  {
    for k := 0 to |loaded|
      invariant convo.messages == old(convo.messages) + loaded[..k]
      invariant log != null ==> log.lines == old(log.lines)
    {
      convo.Push(loaded[k]);
      assert loaded[..k + 1] == loaded[..k] + [loaded[k]];
    }
    assert loaded[..|loaded|] == loaded;
    ghost var setting := Setting(model, options, ollamaHost, encode, parse);
    ghost var start := ShellState(convo.messages, Logged(log));
    ghost var now := start;
    PlayKeeps(start, inputs, setting);
    var i := 0;
    while i < |inputs|
      invariant 0 <= i <= |inputs|
      invariant convo.messages == now.messages && (log != null ==> log.lines == now.logged)
      invariant Play(start, inputs, setting) == Play(now, inputs[i..], setting)
      invariant forall j :: 0 <= j < i ==> !Ends(inputs[j])
    {
      ghost var next := Step(now, inputs[i], setting);
      assert Step(ShellState(now.messages, Logged(log)), inputs[i], setting).messages == next.messages;
      assert inputs[i..][0] == inputs[i] && inputs[i..][1..] == inputs[i + 1..];
      var ended := Handle(convo, log, inputs[i], model, options, ollamaHost, encode, parse);
      if ended {
        return true;
      }
      now := next;
      i := i + 1;
    }
    return false;
  }

  /** A turn keeps the transcript it started from and adds the user's message next, then
      at most the assistant's reply. */
  lemma KeptPrefix(before: seq<ChatMessage>, user: ChatMessage, after: seq<ChatMessage>)
    requires after == before + [user] || exists pieces :: after == Folded(before + [user], pieces)
    ensures |after| > |before| && after[..|before|] == before && after[|before|] == user
    ensures forall m :: m in before ==> m in after
    ensures user in after
    ensures forall j :: |before| < j < |after| ==> after[j].role == "assistant"
  {
    var asked := before + [user];
    assert after[..|asked|] == asked;
    assert after[..|before|] == asked[..|before|];
    forall m | m in before ensures m in after {
      var j :| 0 <= j < |before| && before[j] == m;
      assert after[j] == m;
    }
  }

  /** The two log entries of a turn that was sent load back as the user's message and the
      transcript's last message: the reply when it had content, and otherwise the user's
      message a second time, although the transcript holds it once. */
  lemma TurnReloads(messages: seq<ChatMessage>, line: string, pieces: seq<Value>, render: Value -> string, parse: Parser)
    requires Replay.ReadsBack(UserMessage(line), render, parse)
    requires ResponseContent(pieces) != "" ==> Replay.ReadsBack(AssistantMessage(ResponseContent(pieces)), render, parse)
    ensures var folded := Folded(messages + [UserMessage(line)], pieces);
      var reloaded := Replay.LoadLines(Replay.Rendered([UserMessage(line), Last(folded)], render), parse);
      && (ResponseContent(pieces) == "" ==>
            reloaded == [UserMessage(line), UserMessage(line)] && folded[|messages|..] == [UserMessage(line)])
      && (ResponseContent(pieces) != "" ==>
            reloaded == folded[|messages|..] == [UserMessage(line), AssistantMessage(ResponseContent(pieces))])
  {
    var folded := Folded(messages + [UserMessage(line)], pieces);
    LoggedAfterReply(messages, line, pieces);
    var entries := [UserMessage(line), Last(folded)];
    Replay.LoadRendered(entries, render, parse);
  }
}
