/**
 * The discovery server of tokio-cdp (tokio-cdp/src/greeter/server.rs and
 * tokio-cdp/src/greeter/mod.rs): how a request path is routed, what each
 * routed outcome answers when it is polled, and the WebSocket endpoint URLs the
 * server advertises.
 */
module TokioGreeter {
  import opened Wrappers
  import opened Json
  import opened Paths

  // ---------------------------------------------------------------------------
  // Errors and requests

  /** `GreeterError`: an optional message. */
  datatype GreeterError = GreeterError(message: Option<string>)

  /** `GreeterError::default()`. */
  function DefaultError(): (e: GreeterError)
    ensures e.message.None?
  {
    GreeterError(None)
  }

  /** `From<T: Into<String>>`: the text becomes the message. */
  function ErrorFrom(text: string): (e: GreeterError)
    ensures e.message == Some(text)
  {
    GreeterError(Some(text))
  }

  const ERROR_DESCRIPTION: string := "tokio-cdp greeter error"

  /** `Display`: the description, then ": message" when there is one. */
  function DisplayError(e: GreeterError): (s: string)
    ensures e.message.None? ==> s == ERROR_DESCRIPTION
    ensures e.message.Some? ==> s == ERROR_DESCRIPTION + ": " + e.message.value
  {
    if e.message.Some? then ERROR_DESCRIPTION + ": " + e.message.value else ERROR_DESCRIPTION
  }

  /** The message can be read back off the display text. */
  lemma DisplayErrorInjective(a: GreeterError, b: GreeterError)
    requires DisplayError(a) == DisplayError(b)
    ensures a == b
  {
    var n := |ERROR_DESCRIPTION| + 2;
    if a.message.Some? && b.message.Some? {
      assert DisplayError(a)[n..] == a.message.value;
      assert DisplayError(b)[n..] == b.message.value;
    }
  }

  datatype Request =
    | Browser
    | Protocol
    | List
    | Open(maybeUrl: Option<string>)
    | Activate(id: string)
    | Close(id: string)

  /** `GreeterRequest::command_name`: the URL segment naming the request. */
  function CommandName(r: Request): (name: string)
    ensures NoSlash(name) && |name| > 0
  {
    match r
    case Browser => "version"
    case Protocol => "protocol"
    case List => "list"
    case Open(_) => "new"
    case Activate(_) => "activate"
    case Close(_) => "close"
  }

  /** The path segments of a request: the command name, and the id for activate and close. */
  function RequestCaptures(r: Request): Captures {
    Captures(Some(CommandName(r)), if r.Activate? || r.Close? then Some(r.id) else None)
  }

  /** The path a client uses for a request, "/json/<command>[/<id>]". */
  function RequestPath(r: Request): string {
    GREETER_ROOT + Group(RequestCaptures(r).slug) + Group(RequestCaptures(r).rest)
  }

  function RequestQuery(r: Request): Option<string> {
    if r.Open? then r.maybeUrl else None
  }

  // ---------------------------------------------------------------------------
  // WebSocket endpoints

  datatype WsEndpoint = BrowserEndpoint(maybeId: Option<string>) | PageEndpoint(id: string)

  /** `WsEndpoint::browser_endpoint_url`. */
  function BrowserEndpointUrl(addr: string, maybeId: Option<string>): string {
    if maybeId.Some? then "ws://" + addr + "/devtools/browser/" + maybeId.value
    else "ws://" + addr + "/devtools/browser"
  }

  /** `WsEndpoint::page_endpoint_url`. */
  function PageEndpointUrl(addr: string, id: string): string {
    "ws://" + addr + "/devtools/page/" + id
  }

  function EndpointCategory(e: WsEndpoint): string {
    if e.BrowserEndpoint? then "browser" else "page"
  }

  function EndpointId(e: WsEndpoint): Option<string> {
    if e.BrowserEndpoint? then e.maybeId else Some(e.id)
  }

  /** The path part of an endpoint's URL, "/devtools/<category>[/<id>]". */
  function EndpointPath(e: WsEndpoint): string {
    "/devtools/" + EndpointCategory(e) + Group(EndpointId(e))
  }

  /** `WsEndpoint::url`: the scheme, the server address, then the endpoint's path. */
  function EndpointUrl(e: WsEndpoint, addr: string): (url: string)
    ensures url == "ws://" + addr + EndpointPath(e)
  {
    match e
    case BrowserEndpoint(maybeId) => BrowserEndpointUrl(addr, maybeId)
    case PageEndpoint(id) => PageEndpointUrl(addr, id)
  }

  /** The endpoint the upgrade regex recognises: a browser id is optional, a page id is not. */
  function ParseEndpoint(path: string): (r: Option<WsEndpoint>)
    ensures r.Some? ==> path == EndpointPath(r.value)
    ensures r.Some? && r.value.PageEndpoint? ==> NoNewline(r.value.id)
  {
    match MatchEndpoint(path)
    case None => None
    case Some(g) =>
      if g.category == "browser" then Some(BrowserEndpoint(g.id))
      else if g.id.Some? then Some(PageEndpoint(g.id.value))
      else None
  }

  /** Every endpoint the server advertises is routed back to itself. */
  lemma EndpointRoundTrip(e: WsEndpoint)
    requires e.BrowserEndpoint? && e.maybeId.Some? ==> NoNewline(e.maybeId.value)
    requires e.PageEndpoint? ==> NoNewline(e.id)
    ensures ParseEndpoint(EndpointPath(e)) == Some(e)
  {
    MatchEndpointComplete(EndpointCategory(e), EndpointId(e));
  }

  /** A page endpoint without an id is refused. */
  lemma PageNeedsId()
    ensures ParseEndpoint("/devtools/page") == None
  {
    MatchEndpointComplete("page", None);
    assert "/devtools/" + "page" + Group(None) == "/devtools/page";
    assert forall e: WsEndpoint :: e.PageEndpoint? ==> |EndpointPath(e)| > |"/devtools/page"|;
  }

  // ---------------------------------------------------------------------------
  // Routing (`GreeterService::call`)

  datatype HttpMethod = Connect | Head | OtherMethod(name: string)

  /** hyper refuses a body in the answer to CONNECT and HEAD. */
  predicate CanSendBody(m: HttpMethod) {
    !m.Connect? && !m.Head?
  }

  /** The four futures `call` can return. */
  datatype Routed =
    | HttpRequest(request: Request, canSendBody: bool)
    | HttpNotFound(command: Option<string>)
    | WsHandshake(endpoint: WsEndpoint)
    | WsBadRequest

  const GREETER_ROOT: string := "/json"

  /** The request a matched path names, or the unknown command. */
  function RouteSlug(c: Captures, query: Option<string>): Result<Request, string> {
    if c.slug.None? then Ok(List)
    else
      var id := if c.rest.Some? then c.rest.value else "";
      match c.slug.value
      case "version" => Ok(Browser)
      case "protocol" => Ok(Protocol)
      case "list" => Ok(List)
      case "new" => Ok(Open(query))
      case "activate" => Ok(Activate(id))
      case "close" => Ok(Close(id))
      case other => Err(other)
  }

  /**
   * `GreeterService::call`: a WebSocket upgrade goes to its endpoint (or is refused);
   * any other request is routed by the discovery regex, the method only deciding
   * whether a body may be sent.
   */
  function Route(isUpgrade: bool, verb: HttpMethod, path: string, query: Option<string>): (r: Routed)
    ensures isUpgrade <==> r.WsHandshake? || r.WsBadRequest?
    ensures r.WsHandshake? ==> path == EndpointPath(r.endpoint)
    ensures r.HttpRequest? ==> r.canSendBody == CanSendBody(verb)
    ensures r.HttpNotFound? && r.command.Some? ==> !KnownCommand(r.command.value)
  {
    if isUpgrade then
      match ParseEndpoint(path)
      case None => WsBadRequest
      case Some(e) => WsHandshake(e)
    else
      match MatchRoot(GREETER_ROOT, path)
      case None => HttpNotFound(None)
      case Some(c) =>
        match RouteSlug(c, query)
        case Ok(req) => HttpRequest(req, CanSendBody(verb))
        case Err(command) => HttpNotFound(Some(command))
  }

  /** Each request is routed back from the path (and query) a client builds for it. */
  lemma RouteRequestPath(r: Request, verb: HttpMethod)
    requires r.Activate? || r.Close? ==> NoNewline(r.id)
    ensures Route(false, verb, RequestPath(r), RequestQuery(r)) == HttpRequest(r, CanSendBody(verb))
  {
    MatchPrefersSlug(GREETER_ROOT, RequestPath(r), RequestCaptures(r));
    RouteSlugOfRequest(r);
  }

  lemma RouteSlugOfRequest(r: Request)
    ensures RouteSlug(RequestCaptures(r), RequestQuery(r)) == Ok(r)
  {
    match r
    case Browser =>
    case Protocol =>
    case List =>
    case Open(_) =>
    case Activate(_) =>
    case Close(_) =>
  }

  /** The bare root lists the targets. */
  lemma BareRootLists(verb: HttpMethod, query: Option<string>)
    ensures Route(false, verb, "/json", query) == HttpRequest(List, CanSendBody(verb))
  {
    assert "/json" == GREETER_ROOT + Group(None) + Group(None);
    MatchComplete(GREETER_ROOT, "/json", Captures(None, None));
  }

  predicate KnownCommand(slug: string) {
    slug == "version" || slug == "protocol" || slug == "list" || slug == "new" || slug == "activate" || slug == "close"
  }

  /** Any other first segment is an unknown command, reported by name. */
  lemma UnknownCommandRouted(slug: string, rest: Option<string>, verb: HttpMethod, query: Option<string>)
    requires NoSlash(slug) && !KnownCommand(slug)
    requires rest.Some? ==> NoNewline(rest.value)
    ensures Route(false, verb, GREETER_ROOT + Group(Some(slug)) + Group(rest), query) == HttpNotFound(Some(slug))
  {
    var path := GREETER_ROOT + Group(Some(slug)) + Group(rest);
    MatchPrefersSlug(GREETER_ROOT, path, Captures(Some(slug), rest));
  }

  /** A path outside the discovery grammar is not found, without a command name. */
  lemma UnmatchedPathNotFound(path: string, verb: HttpMethod, query: Option<string>)
    requires forall c: Captures :: !Decomposes(GREETER_ROOT, path, c)
    ensures Route(false, verb, path, query) == HttpNotFound(None)
  {
  }

  // ---------------------------------------------------------------------------
  // Responses

  /** `GreeterResponse`: a status and an optional body. */
  datatype GreeterResponse = GreeterResponse(status: int, body: Option<string>)

  datatype ActivateResponse = Activated | ActivateNotFound
  datatype CloseResponse = Closed | CloseNotFound

  /** `GreeterResponse::activate`: no body, 200 or 404. */
  function ActivateReply(res: ActivateResponse): (g: GreeterResponse)
    ensures g.body.None?
    ensures g.status == 200 <==> res.Activated?
    ensures g.status != 200 ==> g.status == 404
  {
    GreeterResponse(if res.Activated? then 200 else 404, None)
  }

  /** `GreeterResponse::close`: no body, 200 or 404. */
  function CloseReply(res: CloseResponse): (g: GreeterResponse)
    ensures g.body.None?
    ensures g.status == 200 <==> res.Closed?
    ensures g.status != 200 ==> g.status == 404
  {
    GreeterResponse(if res.Closed? then 200 else 404, None)
  }

  const SERIALIZE_ERROR_PREFIX: string := "Error serializing response: "

  /** `GreeterResponse::from_result`: the serialized body with 200, or 500 explaining the failure. */
  function FromResult(result: Result<string, string>): (g: GreeterResponse)
    ensures g.status == 200 <==> result.Ok?
    ensures result.Ok? ==> g.body == Some(result.value)
    ensures result.Err? ==> g == GreeterResponse(500, Some(SERIALIZE_ERROR_PREFIX + result.error))
  {
    match result
    case Ok(body) => GreeterResponse(200, Some(body))
    case Err(message) => GreeterResponse(500, Some(SERIALIZE_ERROR_PREFIX + message))
  }

  /** `GreeterResponse::protocol`: the protocol text is already serialized, so it cannot fail as `from_result` can. */
  function ProtocolReply(json: string): (g: GreeterResponse)
    ensures g == FromResult(Ok(json))
    ensures g.status == 200 && g.body == Some(json)
  {
    GreeterResponse(200, Some(json))
  }

  // ---------------------------------------------------------------------------
  // Polling (`GreeterServiceFuture::poll`)

  /** What the inner service's future reports when it is polled. */
  datatype InnerPoll = NotReady | Ready(response: GreeterResponse) | Failed(error: GreeterError)

  /** The HTTP answer, or the upgrade decision with its refusal status. */
  datatype HttpReply =
    | Reply(status: int, body: Option<string>)
    | Upgrade(endpoint: Option<WsEndpoint>, refusal: Option<int>)

  datatype Poll = Pending | Done(reply: HttpReply)

  /** The state a `GreeterServiceFuture` holds between polls. */
  datatype FutureState =
    | AwaitingService(canSendBody: bool)
    | NotFound(command: Option<string>)
    | Handshake(info: Option<WsEndpoint>)
    | BadRequest

  function Start(r: Routed): FutureState {
    match r
    case HttpRequest(_, canSendBody) => AwaitingService(canSendBody)
    case HttpNotFound(command) => NotFound(command)
    case WsHandshake(e) => Handshake(Some(e))
    case WsBadRequest => BadRequest
  }

  const UNKNOWN_COMMAND_PREFIX: string := "Unknown command: "

  /** The answer to one poll. */
  function PollReply(s: FutureState, inner: InnerPoll): Poll {
    match s
    case AwaitingService(canSendBody) =>
      (match inner
       case NotReady => Pending
       case Ready(g) => Done(Reply(g.status, if canSendBody then g.body else None))
       case Failed(e) => Done(Reply(500, if canSendBody then e.message else None)))
    case NotFound(command) =>
      Done(Reply(404, if command.Some? then Some(UNKNOWN_COMMAND_PREFIX + command.value) else None))
    case Handshake(info) => Done(Upgrade(info, None))
    case BadRequest => Done(Upgrade(None, Some(400)))
  }

  /** The state after a poll: the command name and the handshake are taken out. */
  function AfterPoll(s: FutureState): FutureState {
    match s
    case NotFound(_) => NotFound(None)
    case Handshake(_) => Handshake(None)
    case _ => s
  }

  class GreeterServiceFuture {
    var state: FutureState

    constructor(routed: Routed)
      ensures state == Start(routed)
    {
      state := Start(routed);
    }

    method Poll(inner: InnerPoll) returns (p: Poll)
      modifies this
      ensures p == PollReply(old(state), inner)
      ensures state == AfterPoll(old(state))
    {
      match state
      case AwaitingService(canSendBody) =>
        match inner {
          case NotReady =>
            p := Pending;
          case Ready(g) =>
            var body := None;
            if canSendBody {
              body := g.body;
            }
            p := Done(Reply(g.status, body));
          case Failed(e) =>
            var body := None;
            if canSendBody {
              body := e.message;
            }
            p := Done(Reply(500, body));
        }
      case NotFound(command) =>
        var body := None;
        if command.Some? {
          body := Some(UNKNOWN_COMMAND_PREFIX + command.value);
        }
        state := NotFound(None);
        p := Done(Reply(404, body));
      case Handshake(info) =>
        state := Handshake(None);
        p := Done(Upgrade(info, None));
      case BadRequest =>
        p := Done(Upgrade(None, Some(400)));
    }
  }

  /** HEAD and CONNECT never get a body back, whatever the service answers. */
  lemma NoBodyWithoutPermission(verb: HttpMethod, path: string, query: Option<string>, inner: InnerPoll)
    requires !CanSendBody(verb)
    requires Route(false, verb, path, query).HttpRequest?
    ensures var p := PollReply(Start(Route(false, verb, path, query)), inner);
      p.Done? ==> p.reply.Reply? && p.reply.body.None?
  {
  }

  /** A failing service answers 500, with its message as the body when a body may be sent. */
  lemma ServiceErrorIs500(canSendBody: bool, e: GreeterError)
    ensures PollReply(AwaitingService(canSendBody), Failed(e)) == Done(Reply(500, if canSendBody then e.message else None))
    ensures canSendBody ==> PollReply(AwaitingService(true), Failed(ErrorFrom(DisplayError(e)))).reply.body == Some(DisplayError(e))
  {
  }

  /** An unknown command is answered 404 "Unknown command: <name>", once; a second poll has no body. */
  lemma UnknownCommandAnswer(slug: string, verb: HttpMethod, query: Option<string>)
    requires NoSlash(slug) && !KnownCommand(slug)
    ensures var s := Start(Route(false, verb, GREETER_ROOT + Group(Some(slug)), query));
      && PollReply(s, NotReady) == Done(Reply(404, Some(UNKNOWN_COMMAND_PREFIX + slug)))
      && PollReply(AfterPoll(s), NotReady) == Done(Reply(404, None))
  {
    UnknownCommandRouted(slug, None, verb, query);
    assert GREETER_ROOT + Group(Some(slug)) + Group(None) == GREETER_ROOT + Group(Some(slug));
  }

  /** A handshake on an advertised endpoint upgrades to it; a refused one answers 400. */
  lemma UpgradeAnswer(e: WsEndpoint, path: string)
    requires e.BrowserEndpoint? && e.maybeId.Some? ==> NoNewline(e.maybeId.value)
    requires e.PageEndpoint? ==> NoNewline(e.id)
    ensures PollReply(Start(Route(true, OtherMethod("GET"), EndpointPath(e), None)), NotReady) == Done(Upgrade(Some(e), None))
    ensures ParseEndpoint(path).None? ==> PollReply(Start(Route(true, OtherMethod("GET"), path, None)), NotReady) == Done(Upgrade(None, Some(400)))
  {
    EndpointRoundTrip(e);
  }

  // ---------------------------------------------------------------------------
  // TargetKind

  datatype TargetKind = PageTarget | BackgroundPage | ServiceWorker | App | IFrame | WebView | Worker | OtherTarget

  /** The serde names. */
  function TargetKindName(k: TargetKind): string {
    match k
    case PageTarget => "page"
    case BackgroundPage => "background_page"
    case ServiceWorker => "service_worker"
    case App => "app"
    case IFrame => "iframe"
    case WebView => "webview"
    case Worker => "worker"
    case OtherTarget => "other"
  }

  /** The variant a serde name stands for; any other name is an unknown variant. */
  function TargetKindNamed(name: string): (r: Result<TargetKind, DeError>)
    ensures r.Ok? ==> TargetKindName(r.value) == name
    ensures r.Err? ==> r.error == UnknownVariant(name)
  {
    match name
    case "page" => Ok(PageTarget)
    case "background_page" => Ok(BackgroundPage)
    case "service_worker" => Ok(ServiceWorker)
    case "app" => Ok(App)
    case "iframe" => Ok(IFrame)
    case "webview" => Ok(WebView)
    case "worker" => Ok(Worker)
    case "other" => Ok(OtherTarget)
    case other => Err(UnknownVariant(other))
  }

  /** The derived `Deserialize`: the name as a string, or as the one key of a map whose value is null. */
  function DecodeTargetKind(v: Json): (r: Result<TargetKind, DeError>)
    ensures r.Ok? ==> NamesUnitVariant(v, TargetKindName(r.value))
    ensures v.Str? && r.Err? ==> r.error == UnknownVariant(v.s)
    ensures !v.Str? && !v.Obj? ==> r.Err?
  {
    var tag :- EnumTag(v);
    var k :- TargetKindNamed(tag.0);
    var _ :- UnitContent(tag.1);
    assert v.Obj? ==> v.fields == map[tag.0 := Null];
    Ok(k)
  }

  lemma TargetKindRoundTrip(k: TargetKind)
    ensures DecodeTargetKind(Str(TargetKindName(k))) == Ok(k)
  {
  }

  /** The map form `{"<name>": null}` reads as the same kind. */
  lemma TargetKindMapForm(k: TargetKind)
    ensures DecodeTargetKind(Obj(map[TargetKindName(k) := Null])) == Ok(k)
  {
    assert |map[TargetKindName(k) := Null]| == 1;
  }

  /** The `Display` text. */
  function TargetKindDisplay(k: TargetKind): string {
    match k
    case PageTarget => "page"
    case BackgroundPage => "background page"
    case ServiceWorker => "service worker"
    case App => "app"
    case IFrame => "iframe"
    case WebView => "webview"
    case Worker => "worker"
    case OtherTarget => "other"
  }

  /** Display text and serde name agree except for the two names that use '_'. */
  lemma TargetKindDisplayMatchesName(k: TargetKind)
    ensures TargetKindDisplay(k) == TargetKindName(k) <==> !(k.BackgroundPage? || k.ServiceWorker?)
  {
  }

  /** Distinct kinds display differently. */
  lemma TargetKindDisplayInjective(a: TargetKind, b: TargetKind)
    requires TargetKindDisplay(a) == TargetKindDisplay(b)
    ensures a == b
  {
    var da, db := TargetKindDisplay(a), TargetKindDisplay(b);
    assert |da| == |db| && da[0] == db[0] && da[|da| - 1] == db[|db| - 1];
  }
}
