# yammer, modelled in Dafny

yammer is a command-line client for the ollama API. This project models its
sequential core and proves properties about it. The core has three parts:

- **The response engine.** `accumulate` turns an HTTP response into calls on an
  accumulator. A response is its status code plus the body chunks the client
  hands out. The engine has three paths:
  - the drain path for a status other than 200;
  - the streaming path, which appends each trimmed chunk to a `leftovers`
    buffer and parses that buffer after every non-empty chunk;
  - the whole-body path, which parses the body once.

  The accumulators it drives are modelled too:
  - the tuple fan-out, which stops at the first `Break`;
  - the field writer;
  - the vector collector;
  - the chat printer, with its `seen_non_ws` flag.

  Each request builder fixes its endpoint's streaming flag. `doit` picks the
  HTTP method from the api name.
- **The conversation.** A transcript of chat messages that the shell appends
  to. The fold turns a streamed reply into at most one assistant message. The
  collector gathers the reply and folds it when it is dropped. One shell turn
  runs in this order:
  1. push the user message;
  2. log it;
  3. build the request;
  4. run the engine;
  5. fold the reply;
  6. log the transcript's last message.

  `load` reads a log back. The log is not the transcript: each turn logs the
  user message and then the transcript's last message, which is the user
  message again when the reply had no content, and the messages loaded at the
  start are not logged again.
- **Log file names.** `file_for` expands `%s`, `%m` and `%%` in a template. The
  template comes from the command-line option or else from an environment
  variable.

## Layout

- `json.dfy` (`Json`):
  - the parsed JSON value;
  - `Parser`, the text parser passed in as a function;
  - Rust's `str::trim` over the Unicode White_Space set.
- `api.dfy` (`Api`):
  - the library's `Error` and `Result`;
  - the chat records;
  - the shape checks that serde's derived `Deserialize` applies to a parsed value;
  - the value that serde's derived `Serialize` produces for a chat message.
- `requests.dfy` (`Requests`):
  - the precedence of `RequestOptions::url`;
  - the seven builders;
  - the method dispatch of `doit`.
- `sinks.dfy` (`Sinks`):
  - one accumulator step as a function over sink states;
  - the tuple fan-out;
  - the three sink classes, each proved against the step function.
- `conversation.dfy` (`Conversations`): the transcript class, the reply fold and the collector class.
- `members.dfy` (`Members`): a group of sink objects, and the fan-out method that drives them.
- `engine.dfy` (`Engine`):
  - `Run` and `Stream`, the specification of `accumulate`;
  - the methods that implement it against a group of sinks.
- `laws.dfy` (`EngineLaws`): what `accumulate` promises, proved about `Run`.
- `replay.dfy` (`Replay`): `load`, and the round trip from a written log back to the transcript.
- `shell.dfy` (`Shell`): the log, one shell turn, and the shell loop.
- `filenames.dfy` (`FileNames`): `file_for`.

## Model

| member | source | states |
|---|---|---|
| Json.TrimStartShape | src/lib.rs:644 | `trim_start` keeps the longest suffix that does not start with whitespace; what it drops is all whitespace |
| Json.TrimEndShape | src/lib.rs:644 | `trim_end` keeps the longest prefix that does not end with whitespace; what it drops is all whitespace |
| Json.TrimSlice | src/lib.rs:644 | `trim()` gives a slice of its input with whitespace only on either side; the slice starts and ends with a non-whitespace character |
| Json.TrimEmptyIff | src/lib.rs:619 | `trim().is_empty()` holds exactly when the text is all whitespace |
| Json.TrimKeeps | src/lib.rs:681 | text that neither starts nor ends with whitespace is left as it is by `trim()` |
| Json.TrimIdempotent | src/lib.rs:681 | trimming twice is the same as trimming once |
| Json.Get | src/lib.rs:542 | `Value::get` gives a field exactly for an object that has the key, and then that field |
| Json.TrimStart | src/lib.rs:644 | `trim_start` never lengthens its input; `Json.TrimStartShape` gives what it keeps and drops |
| Json.TrimEnd | src/lib.rs:644 | `trim_end` never lengthens its input; `Json.TrimEndShape` gives what it keeps and drops |
| Json.Trim | src/lib.rs:644 | `trim` never lengthens its input; `Json.TrimSlice`, `Json.TrimEmptyIff`, `Json.TrimKeeps` and `Json.TrimIdempotent` state what it keeps |
| Api.DecodeStrings | src/lib.rs:296 | a list decodes as strings exactly when every element is a string, element for element |
| Api.StringsRoundTrip | src/lib.rs:296 | decoding an encoded string list gives the list back |
| Api.ChatMessageRoundTrip | src/lib.rs:291-300 | deserialising a serialised chat message gives the same message, whether or not the optional lists are present |
| Api.ServiceError | src/lib.rs:647 | a buffer is a service error only if it parses |
| Api.DecodeErrorResponse | src/lib.rs:49-52 | the derived deserialiser of `ErrorResponse`: an object whose `error` field is a string; `Api.ServiceError` and `EngineLaws.ReassembledError` use it |
| Api.DecodeChatMessage | src/lib.rs:291-300 | the derived deserialiser of `ChatMessage`: string `role` and `content`, and optional lists of images and tool calls; `Api.ChatMessageRoundTrip` proves it inverts `Api.EncodeChatMessage` |
| Api.EncodeChatMessage | src/lib.rs:291-300 | the derived serialiser of `ChatMessage`, which skips the lists that are None; its partner is `Api.DecodeChatMessage` |
| Api.DecodeChatResponse | src/lib.rs:319-326 | the derived deserialiser of `ChatResponse`; the chat printer breaks exactly when it fails (`Sinks.ChatAccumulator.Accumulate`) |
| Requests.Url | src/lib.rs:335-341 | the explicit URL wins; otherwise OLLAMA_HOST; otherwise `http://localhost:11434` |
| Requests.Build | src/lib.rs:354-435 | a builder fails with a JSON error exactly when serialising the payload failed; otherwise the request carries the URL, the endpoint's api name, the payload and the endpoint's streaming flag |
| Requests.BuiltRequestsDispatch | src/lib.rs:441-467 | every built request reaches a branch of `doit`, never the panic; it is sent with GET exactly for `tags`, to `{url}/api/{api}` |
| Requests.StreamingByApi | src/lib.rs:354-435 | the streamed endpoints are exactly pull, create, generate and chat |
| Requests.MethodFor | src/lib.rs:446-466 | the `match` of `doit`: POST for pull, create, generate, embed, chat and show, GET for tags, None for the panic; `Requests.BuiltRequestsDispatch` proves no built request panics |
| Sinks.SinkStepFacts | src/lib.rs:540-626 | one `accumulate` call: a sink keeps its kind; Break comes only from the chat printer, on a value that is not a chat response; the vector gains exactly that value; `seen_non_ws` never goes back to false; the printer prints iff the flag was set or the content is not all whitespace |
| Sinks.FirstBreak | src/lib.rs:491 | the position of the first member that answers Break; every member before it answers Continue |
| Sinks.FanOutShortCircuits | src/lib.rs:489-493 | members are called in order with the same value; the group answers Break iff some member does; members up to the first Break have taken the value; later members are untouched |
| Sinks.FanOutFromSteps | src/lib.rs:489-493 | stepping the members in order until one answers Break, and leaving the rest alone, gives exactly the states and the answer of `FanOut` |
| Sinks.FanOutKeepsKinds | src/lib.rs:489-493 | fan-out never changes the kind of any member |
| Sinks.CollectorSeesValue | src/lib.rs:489-493 | a collecting member with no chat printer before it always receives the value |
| Sinks.FieldWriteAccumulator.Accumulate | src/lib.rs:540-548 | writes the named field when it is a string; otherwise writes nothing; always answers Continue |
| Sinks.VecAccumulator.Accumulate | src/lib.rs:598-603 | appends exactly the value; always answers Continue |
| Sinks.ChatAccumulator.Accumulate | src/lib.rs:610-626 | Break iff the value is not a chat response; prints the content iff the flag was set or the content is not all whitespace; the flag only goes from false to true |
| Sinks.ChatAccumulator.constructor | src/lib.rs:605-608 | a fresh printer has not seen content and has printed nothing |
| Sinks.SinkStep | src/lib.rs:540-626 | one `accumulate` call on each sink kind; its properties are `Sinks.SinkStepFacts`, and each sink class is proved against it |
| Sinks.FanOut | src/lib.rs:486-494 | the tuple's `accumulate`: every member is kept, in order; `Sinks.FanOutShortCircuits` and `Sinks.FanOutFromSteps` state the short-circuit |
| Sinks.FieldWriteAccumulator.constructor | src/lib.rs:532-538 | a new field writer has written nothing |
| Sinks.VecAccumulator.constructor | src/lib.rs:593-596 | a new collector holds exactly the caller's vector |
| Members.Deliver | src/lib.rs:477-481 | a member reference forwards the call to its sink |
| Members.AccumulateAll | src/lib.rs:486-494 | driving the sink objects in order leaves exactly the states, and answers exactly the flow, that `FanOut` prescribes |
| Engine.ReadText | src/lib.rs:635-637 | the drain loops read the body's text, failing at the first broken read or non-UTF-8 chunk; skipping empty chunks changes nothing |
| Engine.RefusedBody | src/lib.rs:634-640 | a refused response yields its body text as the error, or the read error |
| Engine.FeedChunk | src/lib.rs:644-657 | one chunk of the streaming loop does what `Feed` prescribes to the buffer, the sinks and the loop's continuation |
| Engine.StreamChunks | src/lib.rs:641-659 | the streaming loop's result and the sinks' final states are those of `Stream` from an empty buffer |
| Engine.WholeBody | src/lib.rs:660-670 | the whole-body path's result and the sinks' final states are those of `Whole` |
| Engine.Accumulate | src/lib.rs:631-672 | `accumulate` returns the result, and leaves the sinks in the states, that `Run` gives for the request's streaming flag |
| Engine.Drain | src/lib.rs:635-637 | reading the body's text: the first failed read or non-UTF-8 chunk is the error; `EngineLaws.DrainAllText` gives the text |
| Engine.Feed | src/lib.rs:644-657 | one iteration of the streaming loop; every sink is kept; `EngineLaws.FeedFacts` states its rules |
| Engine.Stream | src/lib.rs:641-659 | the streaming loop from a buffer; every sink is kept; the `EngineLaws` stream lemmas state its behaviour |
| Engine.Refused | src/lib.rs:634-640 | a status other than 200: the body text becomes the error; `EngineLaws.RefusedResponse` states it |
| Engine.Whole | src/lib.rs:660-670 | the whole-body path; `EngineLaws.WholeBodyOnce` states it |
| Engine.Run | src/lib.rs:631-672 | `accumulate` as a function of the streaming flag, the response and the sinks; every sink is kept; `Engine.Accumulate` is proved against it |
| EngineLaws.DrainAllText | src/lib.rs:635-637 | reading a body whose chunks all decode appends their text in order |
| EngineLaws.RefusedResponse | src/lib.rs:634-640 | with a status other than 200 the call fails and the sinks are never called; when every chunk decodes, the error is `Message` of the concatenated body |
| EngineLaws.WholeBodyOnce | src/lib.rs:660-670 | without streaming, the sinks are called exactly once with the parse of the trimmed whole body, and their Break is ignored; an unparsable body is a JSON error with nothing delivered |
| EngineLaws.FeedFacts | src/lib.rs:644-657 | one chunk: the buffer grows by the trimmed chunk; an empty chunk changes nothing; a value is delivered only when the whole buffer parses and is not a service error; the buffer is then cleared unless the sinks stop; a service error ends the call with its text; a stop is a success |
| EngineLaws.StreamShape | src/lib.rs:641-659 | streaming appends deliveries: at most one per chunk, none of them a service error; it never fails with a JSON error; a stop is a success |
| EngineLaws.StreamIgnoresRest | src/lib.rs:653-655 | after an error or a Break, no further chunk is consumed: appending chunks changes nothing |
| EngineLaws.StreamSplit | src/lib.rs:642-659 | a body read in two parts continues from exactly the buffer, sinks and deliveries the first part left |
| EngineLaws.FeedUnparsed | src/lib.rs:644-651 | a chunk after which the buffer does not parse is only appended to the buffer |
| EngineLaws.StreamBuffers | src/lib.rs:644-651 | chunks that never complete a value are only buffered, trimmed and in order; the leftover is dropped and the call succeeds |
| EngineLaws.Reassembly | src/lib.rs:644-657 | a value split over chunks is delivered once, when its last non-empty piece arrives; the buffer is cleared unless the sinks stop |
| EngineLaws.ReassembledError | src/lib.rs:647-649 | a service error split over chunks ends the call with its text, and nothing is delivered |
| EngineLaws.FeedCollects | src/lib.rs:644-657 | one chunk: such a collector takes the value the chunk delivers, if any, and still has no chat printer before it |
| EngineLaws.StreamCollects | src/lib.rs:641-659 | a collecting member with no chat printer before it ends holding every value the stream delivered, in order |
| EngineLaws.CollectorSeesEverything | src/lib.rs:631-672 | on every path, such a collector ends holding exactly the delivered values after its old items |
| EngineLaws.BoundaryWhitespaceLost | src/lib.rs:644-645 | chunks are trimmed before buffering, so a body split as "a " and "b" buffers "ab", not "a b" |
| EngineLaws.CoalescedValuesLost | src/lib.rs:644-651 | the buffer is parsed as one value: a single chunk carrying two values delivers neither, and the call succeeds |
| EngineLaws.SeparateValuesDelivered | src/lib.rs:644-657 | the same two values in two chunks are both delivered, in order |
| Conversations.ResponseContentAppend | src/conversation.rs:89-103 | the reply content of pieces split anywhere is the concatenation of both parts' contents |
| Conversations.ResponseContentOfContents | src/conversation.rs:89-103 | when every piece has `message.content`, the reply is their in-order concatenation |
| Conversations.NoContentNoReply | src/conversation.rs:92-93 | pieces without `message.content` contribute nothing, even if they carry `response` |
| Conversations.Folded | src/conversation.rs:104-111 | the old transcript is kept; exactly one assistant message with the joined content is added iff that content is non-empty |
| Conversations.Conversation.constructor | src/conversation.rs:66-70 | a new conversation is empty |
| Conversations.Conversation.Push | src/conversation.rs:73-75 | appends exactly one message at the end; earlier messages are unchanged |
| Conversations.Conversation.Truncate | src/conversation.rs:83-85 | keeps the prefix of length min(index, old length) |
| Conversations.Conversation.AddAssistantResponse | src/conversation.rs:88-112 | the transcript becomes the fold of the pieces: unchanged for empty content, else one assistant message with no images or tool calls |
| Conversations.Conversation.Request | src/conversation.rs:123-132 | the request carries the model and the whole transcript, asks to stream, and sets no tools, format or keep-alive |
| Conversations.Conversation.Command | src/conversation.rs:245-253 | Break exactly for the line "/exit"; the transcript is untouched |
| Conversations.Conversation.Accumulator | src/conversation.rs:115-120 | a fresh collector bound to this transcript, holding no pieces |
| Conversations.ConversationAccumulator.Accumulate | src/conversation.rs:263-266 | appends the piece and answers Continue |
| Conversations.ConversationAccumulator.Drop | src/conversation.rs:269-273 | the transcript becomes the fold of all collected pieces in arrival order; the collector is emptied |
| Conversations.PieceContent | src/conversation.rs:91-95 | a piece's `message.content` when it is a string; `Conversations.NoContentNoReply` states what happens otherwise |
| Conversations.ResponseContent | src/conversation.rs:89-103 | the joined content of the pieces; `Conversations.ResponseContentAppend` and `Conversations.ResponseContentOfContents` state it |
| Replay.LoadLine | src/lib.rs:681-688 | a line gives a message only if its trimmed form is non-empty and parses |
| Replay.Load | src/lib.rs:676-691 | the messages of the trimmed, non-empty lines that read as chat messages, in line order |
| Replay.GatherAppend | src/lib.rs:679-690 | loading is line by line: the lines of two parts give the messages of both parts in order, so a bad line drops out alone |
| Replay.GatherSnoc | src/lib.rs:679-690 | one more line adds its message at the end, if it reads as one, and nothing otherwise |
| Replay.GatherBound | src/lib.rs:679-690 | never more messages than lines |
| Replay.GatherEvery | src/lib.rs:679-690 | lines that each read as a message give exactly those messages, in order |
| Replay.LoadLineRendered | src/lib.rs:681-688 | a serialised message on its own line, needing no trim, reads back as itself |
| Replay.HeaderSkipped | src/lib.rs:683-687 | a line that is not a JSON object gives no message |
| Replay.RenderedAt | src/conversation.rs:196-203 | each log line is its message, serialised |
| Replay.SplitLine | src/lib.rs:680 | `split` on a line that has no newline, followed by a newline, gives that line first |
| Replay.SplitLogText | src/lib.rs:680 | `split_terminator` on newline-terminated lines gives the lines back, blank ones included |
| Replay.LoadRendered | src/lib.rs:676-691 | loading the serialised messages gives the messages back |
| Replay.LoggedLines | src/conversation.rs:165-169 | the lines of a log read back as written: the command line, then one line per message |
| Replay.LoadLogged | src/conversation.rs:165-169 | a log whose lines are the command line and then the serialised messages loads back as those messages; the first line is skipped |
| Replay.Split | src/lib.rs:680 | `split('\n')`: never empty; `Replay.SplitLine` states how it peels lines |
| Replay.SplitTerminator | src/lib.rs:680 | `split_terminator('\n')`; `Replay.SplitLogText` states it on a log's text |
| Replay.Gather | src/lib.rs:680-689 | the loop of `load` over its lines with a line reader; the `Replay.Gather*` lemmas state it |
| Replay.LoadLines | src/lib.rs:676-691 | the messages `load` gives for the file's lines; `Replay.Load` is proved against it |
| Shell.Log.Write | src/conversation.rs:196-203 | a log write appends exactly one message |
| Shell.Turn | src/conversation.rs:190-232 | a turn pushes and logs the user message, then builds the request. If the build fails, the turn stops there. Otherwise the transcript becomes the fold of everything delivered, and the log receives the transcript's last message |
| Shell.Exchange | src/conversation.rs:212-223 | the conversation's collector sees every delivered value; the fold runs even when the call failed |
| Shell.LoggedAfterReply | src/conversation.rs:225-232 | the second log entry of a turn is the assistant reply, or the user message again when the reply had no content |
| Shell.Handle | src/conversation.rs:181-241 | one input does exactly what `Shell.Step` gives to the transcript and the log: a command, Ctrl-C, Eof and a read failure change neither; the shell ends exactly on Eof or the line "/exit"; the transcript and the log keep their prefixes; no command line becomes a user message; every logged message is in the transcript |
| Shell.Session | src/conversation.rs:175-242 | after pushing the loaded messages, the transcript and the log end as `Shell.Play` gives them, so nothing after the first ending input is handled; the loaded transcript stays a prefix; no command line becomes a user message; the log only grows, with messages of the transcript; it ends iff some input ends it |
| Shell.KeptPrefix | src/conversation.rs:190-223 | a turn keeps the transcript, adds the user message next, and then at most assistant messages |
| Shell.IsCommand | src/conversation.rs:184 | a line whose trimmed form starts with '/' is a command |
| Shell.Ends | src/conversation.rs:184-237 | Eof, or the command line "/exit", ends the shell |
| Shell.TurnStep | src/conversation.rs:190-232 | a turn on the shell's state: the transcript and the log entries `Shell.Turn` is proved to produce |
| Shell.Step | src/conversation.rs:181-241 | one input: a line that is not a command is a turn; a command, Ctrl-C, Eof and a read failure change nothing |
| Shell.Play | src/conversation.rs:181-242 | the inputs in order, none after the first that ends the shell; `Shell.Session` is proved against it |
| Shell.StepKeeps | src/conversation.rs:181-241 | one input keeps the transcript and the log as prefixes, adds no command line as a user message, and logs only messages of the transcript |
| Shell.PlayKeeps | src/conversation.rs:181-242 | the same over every input of a session |
| Shell.PlayStops | src/conversation.rs:186-237 | inputs after the first one that ends the shell are never handled |
| Shell.PlayAppend | src/conversation.rs:181-242 | inputs that do not end the shell hand their state on to the inputs after them |
| Shell.PlayQuiet | src/conversation.rs:184-240 | commands, Ctrl-C and read failures leave the transcript and the log as they were |
| Shell.TurnReloads | src/conversation.rs:196-231 | a sent turn's two log entries load back as the user message and then the reply, or the user message a second time when the reply had no content, although the transcript holds it once |
| FileNames.DecimalDigits | src/bin/yammer.rs:164-170 | the seconds are written as decimal digits only, so they never contain a '%' |
| FileNames.ExpandTemplate | src/bin/yammer.rs:159-186 | the character loop with its `prev` state computes `Expand` of the template |
| FileNames.FileFor | src/bin/yammer.rs:158-192 | the explicit option wins over the environment variable; neither gives None; otherwise the name is the expansion, or None when that is empty |
| FileNames.NameFrom | src/bin/yammer.rs:187-191 | an empty expansion gives None; a non-empty one gives it as the name |
| FileNames.ExpandPlain | src/bin/yammer.rs:180-184 | a template without '%' is copied unchanged |
| FileNames.ExpandQuote | src/bin/yammer.rs:173-179 | `%%` is a literal '%' and resets `prev`, so a name with every '%' doubled expands back to the name ("%%m" gives "%m") |
| FileNames.ExpandAppend | src/bin/yammer.rs:161-186 | expansion distributes over a split after a whole number of specifiers |
| FileNames.ExpandEmptyIff | src/bin/yammer.rs:175-191 | with a non-empty model, the expansion is empty exactly for "" and a lone "%": a trailing '%' is dropped |
| FileNames.ExpandSpecifier | src/bin/yammer.rs:162-179 | a '%' and the character after it expand as one specifier: the seconds, the model, a '%', or both characters kept |
| FileNames.ExpandLiteral | src/bin/yammer.rs:180-184 | a character other than '%' is copied and the rest expands on its own |
| FileNames.ExpandExample | src/bin/yammer.rs:162-172 | "%m-%s" followed by an extension without '%' expands to the model, a dash, the decimal seconds and the extension |
| FileNames.Decimal | src/bin/yammer.rs:164-170 | `format!("{}", secs)`: never empty; `FileNames.DecimalDigits` states that it is all digits |
| FileNames.Escape | src/bin/yammer.rs:163-179 | the text for one specifier: the seconds, the model, '%', or the '%' and the character kept |
| FileNames.Expand | src/bin/yammer.rs:161-186 | the expansion of a template; `FileNames.ExpandTemplate` proves the loop computes it, the other `FileNames.Expand*` lemmas state it |
| FileNames.AfterPercent | src/bin/yammer.rs:162-179 | the expansion after a '%': a trailing '%' gives nothing |

## Left out

- Network transport, async and the HTTP client are left out. A response is
  given as its status and its chunks. A chunk is text, bytes that are not UTF-8,
  or a failed read.
- JSON text is parsed by a function passed in as a parameter. It is not
  modelled. Payloads are serialised the same way, so each builder receives the
  serialisation's outcome.
- Numbers are integers. The `f64` fields of the generate response are data
  only.
- Typed decoding covers the object form only:
  - serde also accepts a JSON array for a struct; that sequence form is left out;
  - duplicate keys are left out.
- The text of a UTF-8 error is "could not parse utf8". Its debug detail is left
  out.
- `JsonAccumulator` is left out. It only prints the value, compact or pretty,
  and always answers Continue.
- The printer's and the field writer's output go to a list of strings. Write
  failures are ignored, as in the source.
- The Spinner is left out; its point is a background thread. In the shell's
  group it sits first and always answers Continue, so the model's group is
  [conversation collector, printer].
- rustyline, the history file and the `eprintln!`/`println!` diagnostics are
  left out.
- Log I/O is left out:
  - a write failure, which returns from the shell, is not modelled;
  - the args line is one line that is not an object (`Replay.LoadLogged`);
  - the log holds messages, and their text form is covered in `Replay`.
- `load` takes the file's text as a parameter. The failure to read the file is
  not modelled.
- The environment (`OLLAMA_HOST`, `YAMMER_LOG`, `YAMMER_HISTFILE`) and the
  clock are parameters.
- Command-line parsing, `main`'s dispatch and `usage` are left out.
- Groups are flat sequences of sinks. The source also allows tuples nested
  inside tuples; those are left out.
- Shell.Session: the line editor's input is a finite sequence. The loop also
  ends when that sequence runs out, which the source's loop does not do.
- FileNames.Expand: the template is expanded with one value of the seconds.
  The source reads the clock again at each `%s`, so two `%s` in one template can
  differ when a second passes between them; that is not modelled.
- Where the code and its documentation disagree, the model follows the code:
  - the usage text says the environment variable overrides `--log`, but
    `file_for` prefers the explicit option;
  - whitespace at a chunk boundary is lost (`EngineLaws.BoundaryWhitespaceLost`),
    so splitting a body differently can change what is delivered;
  - the streaming buffer is parsed as one value, so a chunk that ends one
    value and starts the next delivers neither, nor anything after it, and
    the call still succeeds (`EngineLaws.CoalescedValuesLost`).
