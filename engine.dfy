/**
 * `accumulate`: how a response body becomes calls on an accumulator.
 *
 * The response is its status code and the chunks the HTTP client hands out,
 * in order; a chunk is text, or bytes that are not UTF-8, or a failed read.
 * `Run` is the specification: the result, the sinks' states afterwards, the
 * values delivered, the buffer left over and whether the accumulator stopped
 * the stream.  The method `Accumulate` drives the sink objects and is proved
 * to do what `Run` says.
 */
module Engine {
  import opened Json
  import opened Api
  import opened Requests
  import opened Sinks
  import opened Members

  datatype Chunk =
    | Bytes(text: string)  // a chunk that decodes as UTF-8
    | BadUtf8              // a non-empty chunk that does not
    | Broken               // the client failed to read the next chunk

  datatype Response = Response(status: int, body: seq<Chunk>)

  datatype Outcome = Outcome(
    result: Result<()>,
    sinks: seq<SinkState>,
    delivered: seq<Value>,
    leftovers: string,
    stopped: bool)

  /** Reading the whole body as text, after `text`. */
  function Drain(body: seq<Chunk>, text: string): Result<string>
    decreases |body|
  {
    if body == [] then Ok(text)
    else match body[0]
      case Broken => Err(RequestError)
      case BadUtf8 => Err(Message(Utf8ErrorText))
      case Bytes(s) => Drain(body[1..], text + s)
  }

  predicate AllText(body: seq<Chunk>) {
    forall i :: 0 <= i < |body| ==> body[i].Bytes?
  }

  /** The text of a body whose chunks all decode. */
  function Texts(body: seq<Chunk>): string
    requires AllText(body)
    decreases |body|
  {
    if body == [] then "" else body[0].text + Texts(body[1..])
  }

  /** The same body with every chunk trimmed: what the streaming loop buffers. */
  function TrimmedTexts(body: seq<Chunk>): string
    requires AllText(body)
    decreases |body|
  {
    if body == [] then "" else Trim(body[0].text) + TrimmedTexts(body[1..])
  }

  /** What one decoded chunk does to the streaming loop: `halt` is the result when the loop
      ends here, `buffer` the leftovers it carries on with, and `message` the value given
      to the accumulator, if any. */
  datatype Fed = Fed(halt: Option<Result<()>>, buffer: string, sinks: seq<SinkState>, message: Option<Value>)

  /** One trimmed chunk: append it to the leftovers; a service error ends the stream;
      a complete value goes to the sinks and clears the buffer, unless they ask to stop. */
  function Feed(chunk: string, parse: Parser, leftovers: string, sinks: seq<SinkState>): (r: Fed)
    ensures |r.sinks| == |sinks|
  {
    var buffer := leftovers + chunk;
    if chunk == "" then Fed(None, buffer, sinks, None)
    else match ServiceError(parse, buffer)
      case Some(error) => Fed(Some(Err(Message(error))), buffer, sinks, None)
      case None =>
        match parse(buffer)
        case None => Fed(None, buffer, sinks, None)
        case Some(message) =>
          var (sinks', flow) := FanOut(sinks, message);
          if flow == Break then Fed(Some(Ok(())), buffer, sinks', Some(message))
          else Fed(None, "", sinks', Some(message))
  }

  function Given(f: Fed): seq<Value> {
    if f.message.Some? then [f.message.value] else []
  }

  /** The streaming loop, from the remaining chunks, the buffer, the sinks and what they were given. */
  function Stream(body: seq<Chunk>, parse: Parser, leftovers: string, sinks: seq<SinkState>, delivered: seq<Value>): (r: Outcome)
    ensures |r.sinks| == |sinks|
    decreases |body|
  {
    if body == [] then Outcome(Ok(()), sinks, delivered, leftovers, false)
    else match body[0]
      case Broken => Outcome(Err(RequestError), sinks, delivered, leftovers, false)
      case BadUtf8 => Outcome(Err(Message(Utf8ErrorText)), sinks, delivered, leftovers, false)
      case Bytes(s) =>
        var f := Feed(Trim(s), parse, leftovers, sinks);
        if f.halt.Some? then Outcome(f.halt.value, f.sinks, delivered + Given(f), f.buffer, f.halt.value.Ok?)
        else Stream(body[1..], parse, f.buffer, f.sinks, delivered + Given(f))
  }

  /** A response whose status is not 200: its text becomes the error; no value is delivered. */
  function Refused(body: seq<Chunk>, sinks: seq<SinkState>): Outcome {
    match Drain(body, "")
    case Ok(text) => Outcome(Err(Message(text)), sinks, [], "", false)
    case Err(e) => Outcome(Err(e), sinks, [], "", false)
  }

  /** The non-streaming path: the trimmed whole body is parsed once and delivered once;
      the accumulator's answer is ignored. */
  function Whole(body: seq<Chunk>, parse: Parser, sinks: seq<SinkState>): Outcome {
    match Drain(body, "")
    case Err(e) => Outcome(Err(e), sinks, [], "", false)
    case Ok(text) =>
      match parse(Trim(text))
      case None => Outcome(Err(JsonError), sinks, [], "", false)
      case Some(message) => Outcome(Ok(()), FanOut(sinks, message).0, [message], "", false)
  }

  /** The whole of `accumulate` for a request with the given streaming flag. */
  function Run(streaming: bool, resp: Response, parse: Parser, sinks: seq<SinkState>): (r: Outcome)
    ensures |r.sinks| == |sinks|
  {
    if resp.status != 200 then Refused(resp.body, sinks)
    else if streaming then Stream(resp.body, parse, "", sinks, [])
    else Whole(resp.body, parse, sinks)
  }

  /** A `while let Some(chunk) = resp.chunk().await?` loop that decodes each chunk and
      appends it to a text; the non-streaming path skips empty chunks before decoding. */
  method ReadText(body: seq<Chunk>, skipEmpty: bool) returns (r: Result<string>)
    ensures r == Drain(body, "")
  {
    var text := "";
    var i := 0;
    while i < |body|
      invariant 0 <= i <= |body|
      invariant Drain(body, "") == Drain(body[i..], text)
    {
      match body[i] {
        case Broken => return Err(RequestError);
        case BadUtf8 => return Err(Message(Utf8ErrorText));
        case Bytes(s) =>
          assert s == "" ==> text + s == text;
          if !skipEmpty || s != "" {
            text := text + s;
          }
      }
      i := i + 1;
    }
    r := Ok(text);
  }

  /** The body of the streaming loop for a chunk that decoded as `s`. */
  method FeedChunk(chunk: string, parse: Parser, acc: seq<Member>, leftovers: string) returns (halt: Option<Result<()>>, buffer: string)
    requires Distinct(acc)
    modifies Objects(acc)
    ensures var f := Feed(chunk, parse, leftovers, old(States(acc)));
      halt == f.halt && buffer == f.buffer && States(acc) == f.sinks
  {
    ghost var sinks := States(acc);
    buffer := leftovers + chunk;
    halt := None;
    if chunk != "" {
      var error := ServiceError(parse, buffer);
      if error.Some? {
        return Some(Err(Message(error.value))), buffer;
      }
      var message := parse(buffer);
      if message.Some? {
        var flow := AccumulateAll(acc, message.value);
        assert (States(acc), flow) == FanOut(sinks, message.value);
        if flow == Break {
          return Some(Ok(())), buffer;
        }
        buffer := "";
      }
    }
  }

  /** The streaming loop of `accumulate`. */
  method StreamChunks(body: seq<Chunk>, parse: Parser, acc: seq<Member>) returns (r: Result<()>)
    requires Distinct(acc)
    modifies Objects(acc)
    ensures var outcome := Stream(body, parse, "", old(States(acc)), []);
      r == outcome.result && States(acc) == outcome.sinks
  {
    ghost var spec := Stream(body, parse, "", States(acc), []);
    ghost var delivered: seq<Value> := [];
    var leftovers := "";
    var i := 0;
    while i < |body|
      invariant 0 <= i <= |body|
      invariant spec == Stream(body[i..], parse, leftovers, States(acc), delivered)
    {
      assert body[i..][0] == body[i] && body[i..][1..] == body[i + 1..];
      match body[i] {
        case Broken => return Err(RequestError);
        case BadUtf8 => return Err(Message(Utf8ErrorText));
        case Bytes(s) =>
          var chunk := Trim(s);
          ghost var f := Feed(chunk, parse, leftovers, States(acc));
          var halt;
          halt, leftovers := FeedChunk(chunk, parse, acc, leftovers);
          delivered := delivered + Given(f);
          if halt.Some? {
            return halt.value;
          }
      }
      i := i + 1;
    }
    r := Ok(());
  }

  /** `accumulate`: the status check, then the streaming or the whole-body path. */
  method Accumulate(req: Request, resp: Response, parse: Parser, acc: seq<Member>) returns (r: Result<()>)
    requires Distinct(acc)
    modifies Objects(acc)
    ensures var outcome := Run(req.streaming, resp, parse, old(States(acc)));
      r == outcome.result && States(acc) == outcome.sinks
  {
    if resp.status != 200 {
      r := RefusedBody(resp.body);
      assert Run(req.streaming, resp, parse, States(acc)) == Refused(resp.body, States(acc));
    } else if req.streaming {
      r := StreamChunks(resp.body, parse, acc);
    } else {
      r := WholeBody(resp.body, parse, acc);
    }
  }

  /** The body of a refused response, read as the error's text. */
  method RefusedBody(body: seq<Chunk>) returns (r: Result<()>)
    ensures r == Refused(body, []).result
  {
    var text := ReadText(body, false);
    if text.Err? {
      return Err(text.error);
    }
    return Err(Message(text.value));
  }

  /** The non-streaming path of `accumulate`. */
  method WholeBody(body: seq<Chunk>, parse: Parser, acc: seq<Member>) returns (r: Result<()>)
    requires Distinct(acc)
    modifies Objects(acc)
    ensures var outcome := Whole(body, parse, old(States(acc)));
      r == outcome.result && States(acc) == outcome.sinks
  {
    var text := ReadText(body, true);
    assert States(acc) == old(States(acc));
    if text.Err? {
      return Err(text.error);
    }
    var message := parse(Trim(text.value));
    if message.None? {
      return Err(JsonError);
    }
    var ignored := AccumulateAll(acc, message.value);
    r := Ok(());
  }
}
