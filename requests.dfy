/**
 * Request descriptors: the server URL precedence, the endpoint builders with
 * their api name and streaming flag, and the HTTP method `doit` picks per api.
 *
 * The payload is the serialised typed request.  Serialising is a foreign call,
 * so each builder receives its outcome: Some(text), or None when serde_json
 * failed, which the builder reports as a JSON error.
 */
module Requests {
  import opened Json
  import opened Api

  datatype RequestOptions = RequestOptions(url: Option<string>)

  const DefaultUrl := "http://localhost:11434"

  /** `RequestOptions::url`: the explicit option, else OLLAMA_HOST (passed in), else the default. */
  function Url(options: RequestOptions, ollamaHost: Option<string>): (r: string)
    ensures options.url.Some? ==> r == options.url.value
    ensures options.url.None? && ollamaHost.Some? ==> r == ollamaHost.value
    ensures options.url.None? && ollamaHost.None? ==> r == DefaultUrl
  {
    match options.url
    case Some(u) => u
    case None =>
      match ollamaHost
      case Some(h) => h
      case None => DefaultUrl
  }

  /** The seven builders of `Request`. */
  datatype Endpoint = Pull | Create | Generate | Embed | Chat | Tags | Show

  datatype Request = Request(url: string, api: string, payload: string, streaming: bool)

  function ApiName(e: Endpoint): string {
    match e
    case Pull => "pull"
    case Create => "create"
    case Generate => "generate"
    case Embed => "embed"
    case Chat => "chat"
    case Tags => "tags"
    case Show => "show"
  }

  /** The builders that set `streaming: true`. */
  predicate Streams(e: Endpoint) {
    e == Pull || e == Create || e == Generate || e == Chat
  }

  /** `Request::pull`, `create`, `generate`, `embed`, `chat`, `tags` and `show`. */
  function Build(options: RequestOptions, ollamaHost: Option<string>, e: Endpoint, payload: Option<string>): (r: Result<Request>)
    ensures r.Err? <==> payload.None?
    ensures r.Err? ==> r.error == JsonError
    ensures r.Ok? ==> r.value == Request(Url(options, ollamaHost), ApiName(e), payload.value, Streams(e))
  {
    match payload
    case None => Err(JsonError)
    case Some(p) => Ok(Request(Url(options, ollamaHost), ApiName(e), p, Streams(e)))
  }

  datatype Method = Post | Get

  /** The dispatch of `doit`: None is the panic on an unknown api. */
  function MethodFor(api: string): Option<Method> {
    if api in ["pull", "create", "generate", "embed", "chat", "show"] then Some(Post)
    else if api == "tags" then Some(Get)
    else None
  }

  /** The address `doit` sends to. */
  function Target(req: Request): string {
    req.url + "/api/" + req.api
  }

  /** Every request a builder produces is one `doit` can send: it never reaches the
      panic, uses GET exactly for the list of models, and targets `{url}/api/{api}`. */
  lemma BuiltRequestsDispatch(options: RequestOptions, ollamaHost: Option<string>, e: Endpoint, payload: Option<string>)
    requires Build(options, ollamaHost, e, payload).Ok?
    ensures var req := Build(options, ollamaHost, e, payload).value;
      && MethodFor(req.api).Some?
      && (MethodFor(req.api) == Some(Get) <==> e == Tags)
      && Target(req) == Url(options, ollamaHost) + "/api/" + ApiName(e)
  {
    var api := ApiName(e);
    if e == Tags {
      assert api[0] == 't';
      assert api !in ["pull", "create", "generate", "embed", "chat", "show"];
    }
  }

  /** The streaming flag is decided by the api name alone: the streamed endpoints are
      exactly pull, create, generate and chat. */
  lemma StreamingByApi(e: Endpoint)
    ensures Streams(e) <==> ApiName(e) in ["pull", "create", "generate", "chat"]
  {
    var api := ApiName(e);
    match e
    case Embed => assert api[0] == 'e' && api[1] == 'm';
    case Tags => assert api[0] == 't';
    case Show => assert api[0] == 's';
    case _ =>
  }
}
