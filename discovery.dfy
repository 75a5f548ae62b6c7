/**
 * The HTTP discovery endpoint of src/greeter.rs (and of its older copy,
 * src/http.rs, whose `HttpCommand`, `VersionInfo` and component-version codec
 * are the same): which request a path names, which status each response
 * carries, and the `VersionInfo` body. The older `HttpResponse` differs: it is
 * serialized untagged, and its `ActivatePage(bool)` writes a JSON boolean body
 * where the greeter's `Activated` writes none.
 */
module Discovery {
  import opened Wrappers
  import opened Json
  import opened Paths
  import opened Pages

  // ---------------------------------------------------------------------------
  // Requests

  /** `GreeterRequest` / `HttpCommand` (the borrowed and owned forms coincide here). */
  datatype Command =
    | VersionInfoCommand
    | PageListCommand
    | NewPageCommand(query: Option<string>)
    | ActivatePageCommand(pageId: string)

  const ROOT: string := "json"

  /**
   * `GreeterRequest::parse`: the path must match `^json(/([^/]*))?(/(.*))?$`; no
   * first segment lists the pages, and the first segment otherwise picks the
   * request, the activated page being whatever follows the next '/'.
   */
  function ParseCommand(path: string, query: Option<string>): (r: Option<Command>)
    ensures r.Some? ==> StartsWith(path, ROOT)
    ensures r.Some? && r.value.NewPageCommand? ==> r.value.query == query
  {
    match MatchRoot(ROOT, path)
    case None => None
    case Some(c) =>
      if c.slug.None? then Some(PageListCommand)
      else if c.slug.value == "version" then Some(VersionInfoCommand)
      else if c.slug.value == "list" then Some(PageListCommand)
      else if c.slug.value == "new" then Some(NewPageCommand(query))
      else if c.slug.value == "activate" then
        Some(ActivatePageCommand(if c.rest.Some? then c.rest.value else ""))
      else None
  }

  /** `parse_with_slash`: only a path that starts with '/' is parsed, without it. */
  function ParseCommandWithSlash(path: string, query: Option<string>): (r: Option<Command>)
    ensures (|path| == 0 || path[0] != '/') ==> r.None?
    ensures r.Some? ==> r == ParseCommand(path[1..], query)
  {
    if |path| > 0 && path[0] == '/' then ParseCommand(path[1..], query) else None
  }

  lemma CommandWithSlash(path: string, query: Option<string>)
    ensures ParseCommandWithSlash("/" + path, query) == ParseCommand(path, query)
  {
    assert ("/" + path)[1..] == path;
  }

  /** The path of each request, from the `cdp_greeter_*_path` templates. */
  function CommandPath(c: Command): string {
    match c
    case VersionInfoCommand => "json/version"
    case PageListCommand => "json/list"
    case NewPageCommand(_) => "json/new"
    case ActivatePageCommand(id) => "json/activate/" + id
  }

  /** The query the "new page and navigate" template adds. */
  function CommandQuery(c: Command): Option<string> {
    if c.NewPageCommand? then c.query else None
  }

  /** Every request is parsed back from the path its template produces. */
  lemma CommandPathRoundTrip(c: Command)
    requires c.ActivatePageCommand? ==> NoNewline(c.pageId)
    ensures ParseCommand(CommandPath(c), CommandQuery(c)) == Some(c)
  {
    match c
    case VersionInfoCommand => VersionPathParsed(CommandQuery(c));
    case PageListCommand => ListPathParsed(CommandQuery(c));
    case NewPageCommand(q) => NewPathParsed(q);
    case ActivatePageCommand(id) => ActivatePathParsed(id, CommandQuery(c));
  }

  /** The path of each request parses back to it. */
  lemma VersionPathParsed(query: Option<string>)
    ensures ParseCommand(CommandPath(VersionInfoCommand), query) == Some(VersionInfoCommand)
  {
    var path := CommandPath(VersionInfoCommand);
    var caps := Captures(Some("version"), None);
    assert Decomposes(ROOT, path, caps) by {
      assert path == ROOT + Group(Some("version")) + Group(None);
      assert NoSlash("version");
    }
    MatchPrefersSlug(ROOT, path, caps);
  }

  lemma ListPathParsed(query: Option<string>)
    ensures ParseCommand(CommandPath(PageListCommand), query) == Some(PageListCommand)
  {
    var path := CommandPath(PageListCommand);
    var caps := Captures(Some("list"), None);
    assert Decomposes(ROOT, path, caps) by {
      assert path == ROOT + Group(Some("list")) + Group(None);
      assert NoSlash("list");
    }
    MatchPrefersSlug(ROOT, path, caps);
  }

  lemma NewPathParsed(query: Option<string>)
    ensures ParseCommand(CommandPath(NewPageCommand(query)), query) == Some(NewPageCommand(query))
  {
    var path := CommandPath(NewPageCommand(query));
    var caps := Captures(Some("new"), None);
    assert Decomposes(ROOT, path, caps) by {
      assert path == ROOT + Group(Some("new")) + Group(None);
      assert NoSlash("new");
    }
    MatchPrefersSlug(ROOT, path, caps);
  }

  lemma ActivatePathParsed(id: string, query: Option<string>)
    requires NoNewline(id)
    ensures ParseCommand(CommandPath(ActivatePageCommand(id)), query) == Some(ActivatePageCommand(id))
  {
    var path := CommandPath(ActivatePageCommand(id));
    var caps := Captures(Some("activate"), Some(id));
    assert Decomposes(ROOT, path, caps) by {
      assert path == ROOT + Group(Some("activate")) + Group(Some(id));
      assert NoSlash("activate");
    }
    MatchPrefersSlug(ROOT, path, caps);
  }

  predicate KnownSlug(slug: string) {
    slug == "version" || slug == "list" || slug == "new" || slug == "activate"
  }

  /** Any other first segment, the empty one included, names no request. */
  lemma UnknownSlugRejected(slug: string, rest: Option<string>, query: Option<string>)
    requires NoSlash(slug) && !KnownSlug(slug)
    requires rest.Some? ==> NoNewline(rest.value)
    ensures ParseCommand(ROOT + "/" + slug + Group(rest), query) == None
  {
    var path := ROOT + "/" + slug + Group(rest);
    assert path == ROOT + Group(Some(slug)) + Group(rest);
    MatchPrefersSlug(ROOT, path, Captures(Some(slug), rest));
  }

  /** The bare root lists the pages; a path the regex does not match names nothing. */
  lemma BareRootListsPages(query: Option<string>)
    ensures ParseCommand(ROOT, query) == Some(PageListCommand)
  {
    assert ROOT == ROOT + Group(None) + Group(None);
    MatchComplete(ROOT, ROOT, Captures(None, None));
  }

  lemma UnmatchedPathRejected(path: string, query: Option<string>)
    requires forall c: Captures :: !Decomposes(ROOT, path, c)
    ensures ParseCommand(path, query) == None
  {
  }

  /** The unknown-request cases of the greeter and HTTP tests, on the model. */
  lemma UnknownCommandExamples()
    ensures ParseCommand("foo", None) == None
    ensures ParseCommand("json/", None) == None
    ensures ParseCommand("json/foo", None) == None
    ensures ParseCommandWithSlash("", None) == None && ParseCommandWithSlash("foo", None) == None
  {
    assert !StartsWith("foo", ROOT) by {
      assert "foo"[0] != ROOT[0];
    }
    UnknownSlugRejected("", None, None);
    assert ROOT + "/" + "" + Group(None) == "json/";
    UnknownSlugRejected("foo", None, None);
    assert ROOT + "/" + "foo" + Group(None) == "json/foo";
  }

  /** The activation paths of the greeter tests, plain and with a leading slash: everything after "activate/" is the page id. */
  lemma ActivatePageExample()
    ensures forall id | id in ["0", "0/", "0/foo"] ::
      && ParseCommand("json/activate/" + id, None) == Some(ActivatePageCommand(id))
      && ParseCommandWithSlash("/json/activate/" + id, None) == Some(ActivatePageCommand(id))
  {
    forall id | id in ["0", "0/", "0/foo"]
      ensures ParseCommand("json/activate/" + id, None) == Some(ActivatePageCommand(id))
      ensures ParseCommandWithSlash("/json/activate/" + id, None) == Some(ActivatePageCommand(id))
    {
      ActivateExample(id);
    }
  }

  lemma ActivateExample(id: string)
    requires NoNewline(id)
    ensures ParseCommand("json/activate/" + id, None) == Some(ActivatePageCommand(id))
    ensures ParseCommandWithSlash("/json/activate/" + id, None) == Some(ActivatePageCommand(id))
  {
    var p := CommandPath(ActivatePageCommand(id));
    assert p == "json/activate/" + id;
    ActivatePathParsed(id, None);
    assert "/json/activate/" + id == "/" + p;
    CommandWithSlash(p, None);
  }

  /** "json/new" opens a blank page without a query and a page at the query's URL with one, plain and with a leading slash. */
  lemma NewPageExample()
    ensures ParseCommand("json/new", None) == Some(NewPageCommand(None))
    ensures ParseCommandWithSlash("/json/new", None) == Some(NewPageCommand(None))
    ensures ParseCommand("json/new", Some("https://www.mozilla.org")) == Some(NewPageCommand(Some("https://www.mozilla.org")))
    ensures ParseCommandWithSlash("/json/new", Some("https://www.mozilla.org"))
      == Some(NewPageCommand(Some("https://www.mozilla.org")))
  {
    NewPathParsed(None);
    NewPathParsed(Some("https://www.mozilla.org"));
    CommandWithSlash("json/new", None);
    CommandWithSlash("json/new", Some("https://www.mozilla.org"));
    assert "/" + "json/new" == "/json/new";
  }

  // ---------------------------------------------------------------------------
  // Component versions: "0" on the wire stands for "unknown"

  function EncodeComponentVersion(v: Option<string>): Json {
    Str(if v.Some? then v.value else "0")
  }

  /** `Option<String>` followed by mapping "0" to None. */
  function DecodeComponentVersion(j: Json): (r: Result<Option<string>, DeError>)
    ensures r == Ok(None) <==> j == Null || j == Str("0")
    ensures r.Ok? && r.value.Some? ==> j == Str(r.value.value) && r.value.value != "0"
    ensures r.Err? <==> !(j.Null? || j.Str?)
  {
    match j
    case Null => Ok(None)
    case Str(s) => if s == "0" then Ok(None) else Ok(Some(s))
    case _ => Err(InvalidType("a string"))
  }

  /** A known version survives the trip; an unknown one is written as "0". */
  lemma ComponentVersionRoundTrip(v: Option<string>)
    requires v != Some("0")
    ensures DecodeComponentVersion(EncodeComponentVersion(v)) == Ok(v)
    ensures v.None? ==> EncodeComponentVersion(v) == Str("0")
  {
  }

  /** The one version the codec cannot carry: "0" itself reads back as unknown. */
  lemma ZeroVersionReadsAsUnknown()
    ensures DecodeComponentVersion(EncodeComponentVersion(Some("0"))) == Ok(None)
  {
  }

  // ---------------------------------------------------------------------------
  // VersionInfo

  datatype VersionInfo = VersionInfo(
    browser: string,
    protocolVersion: string,
    userAgent: string,
    v8Version: Option<string>,
    webkitVersion: Option<string>)

  function EncodeVersionInfo(v: VersionInfo): map<string, Json> {
    map["Browser" := Str(v.browser),
        "Protocol-Version" := Str(v.protocolVersion),
        "User-Agent" := Str(v.userAgent),
        "V8-Version" := EncodeComponentVersion(v.v8Version),
        "WebKit-Version" := EncodeComponentVersion(v.webkitVersion)]
  }

  function RequiredString(fields: map<string, Json>, key: string): (r: Result<string, DeError>)
    ensures r.Ok? <==> key in fields && fields[key].Str?
  {
    if key !in fields then Err(MissingField(key))
    else if fields[key].Str? then Ok(fields[key].s)
    else Err(InvalidType("a string"))
  }

  /** A component version is required too: a field with its own decoder has no default. */
  function RequiredComponentVersion(fields: map<string, Json>, key: string): (r: Result<Option<string>, DeError>)
    ensures r.Ok? <==> key in fields && DecodeComponentVersion(fields[key]).Ok?
  {
    if key !in fields then Err(MissingField(key)) else DecodeComponentVersion(fields[key])
  }

  /** The derived decoder: the five renamed fields, other keys ignored. */
  function DecodeVersionInfo(fields: map<string, Json>): (r: Result<VersionInfo, DeError>)
    ensures r.Ok? <==>
      && (forall key :: key in {"Browser", "Protocol-Version", "User-Agent"} ==> key in fields && fields[key].Str?)
      && (forall key :: key in {"V8-Version", "WebKit-Version"} ==> key in fields && DecodeComponentVersion(fields[key]).Ok?)
    ensures r.Ok? ==> && fields["Browser"] == Str(r.value.browser)
                      && fields["Protocol-Version"] == Str(r.value.protocolVersion)
                      && fields["User-Agent"] == Str(r.value.userAgent)
                      && DecodeComponentVersion(fields["V8-Version"]) == Ok(r.value.v8Version)
                      && DecodeComponentVersion(fields["WebKit-Version"]) == Ok(r.value.webkitVersion)
  {
    var browser :- RequiredString(fields, "Browser");
    var protocolVersion :- RequiredString(fields, "Protocol-Version");
    var userAgent :- RequiredString(fields, "User-Agent");
    var v8Version :- RequiredComponentVersion(fields, "V8-Version");
    var webkitVersion :- RequiredComponentVersion(fields, "WebKit-Version");
    Ok(VersionInfo(browser, protocolVersion, userAgent, v8Version, webkitVersion))
  }

  lemma VersionInfoRoundTrip(v: VersionInfo)
    requires v.v8Version != Some("0") && v.webkitVersion != Some("0")
    ensures DecodeVersionInfo(EncodeVersionInfo(v)) == Ok(v)
  {
    ComponentVersionRoundTrip(v.v8Version);
    ComponentVersionRoundTrip(v.webkitVersion);
  }

  // ---------------------------------------------------------------------------
  // Responses and their status codes

  /** The response types of src/greeter.rs, each with its `SerializeGreeterResponse` impl. */
  datatype GreeterResponse =
    | ErrorResponse
    | VersionInfoResponse(info: VersionInfo)
    | PageListResponse(pages: seq<Page>)
    | NewPageResponse(page: Page)
    | Activated
    | PageNotFound

  function GreeterStatus(r: GreeterResponse): (code: int)
    ensures code == 500 <==> r.ErrorResponse?
    ensures code == 404 <==> r.PageNotFound?
    ensures code == 200 <==> !(r.ErrorResponse? || r.PageNotFound?)
  {
    match r
    case ErrorResponse => 500
    case PageNotFound => 404
    case _ => 200
  }

  /** Turns the ordered entries the serializer writes into the object they denote. */
  function EntriesToObject(entries: seq<Entry>): map<string, Json> {
    if entries == [] then map[] else EntriesToObject(entries[..|entries| - 1])[entries[|entries| - 1].0 := entries[|entries| - 1].1]
  }

  /** The JSON body, when the response has one. */
  function GreeterBody(r: GreeterResponse): (body: Option<Json>)
    ensures body.Some? <==> r.VersionInfoResponse? || r.PageListResponse? || r.NewPageResponse?
    ensures r.PageListResponse? ==> body.Some? && body.value.Arr? && |body.value.items| == |r.pages|
    ensures r.VersionInfoResponse? || r.NewPageResponse? ==> body.Some? && body.value.Obj?
  {
    match r
    case VersionInfoResponse(info) => Some(Obj(EncodeVersionInfo(info)))
    case PageListResponse(pages) => Some(Arr(seq(|pages|, i requires 0 <= i < |pages| => Obj(EntriesToObject(SerializePage(pages[i]))))))
    case NewPageResponse(page) => Some(Obj(EntriesToObject(SerializePage(page))))
    case _ => None
  }

  /** The version body reads back as the version information it was written from. */
  lemma VersionBodyReadsBack(info: VersionInfo)
    requires info.v8Version != Some("0") && info.webkitVersion != Some("0")
    ensures GreeterBody(VersionInfoResponse(info)).Some?
    ensures DecodeVersionInfo(GreeterBody(VersionInfoResponse(info)).value.fields) == Ok(info)
  {
    VersionInfoRoundTrip(info);
  }

  /** Every response without status 200 has an empty body, and so does `Activated`. */
  lemma GreeterBodyOnlyWithContent(r: GreeterResponse)
    ensures GreeterBody(r).Some? <==> GreeterStatus(r) == 200 && !r.Activated?
  {
  }

  /** `HttpResponse` of src/http.rs. */
  datatype HttpResponse =
    | VersionInfoReply(info: VersionInfo)
    | PageListReply(pages: seq<Page>)
    | NewPageReply(page: Page)
    | ActivatePageReply(activated: bool)

  function HttpStatus(r: HttpResponse): (code: int)
    ensures code == 404 <==> r == ActivatePageReply(false)
    ensures code != 404 ==> code == 200
  {
    match r
    case ActivatePageReply(activated) => if activated then 200 else 404
    case _ => 200
  }

  /** The same response in the later greeter vocabulary. */
  function AsGreeterResponse(r: HttpResponse): GreeterResponse {
    match r
    case VersionInfoReply(info) => VersionInfoResponse(info)
    case PageListReply(pages) => PageListResponse(pages)
    case NewPageReply(page) => NewPageResponse(page)
    case ActivatePageReply(activated) => if activated then Activated else PageNotFound
  }

  /** The two status tables agree. */
  lemma StatusTablesAgree(r: HttpResponse)
    ensures HttpStatus(r) == GreeterStatus(AsGreeterResponse(r))
  {
  }
}
