/**
 * The `Page` entry of the discovery endpoint's page list (src/greeter.rs and
 * its identical copy in src/http.rs): its hand-written serializer, its map and
 * sequence decoders, and the small types it is made of.
 */
module Pages {
  import opened Wrappers
  import opened Json
  import opened Paths

  // ---------------------------------------------------------------------------
  // PageType

  datatype PageType = Tab | Background | ServiceWorker | App | Other

  /** The serde names (`#[serde(rename = ...)]`). */
  function PageTypeName(t: PageType): string {
    match t
    case Tab => "page"
    case Background => "background_page"
    case ServiceWorker => "service_worker"
    case App => "app"
    case Other => "other"
  }

  /** The variant a serde name stands for; any other name is an unknown variant. */
  function PageTypeNamed(name: string): (r: Result<PageType, DeError>)
    ensures r.Ok? ==> PageTypeName(r.value) == name
    ensures r.Err? ==> r.error == UnknownVariant(name)
  {
    if name == "page" then Ok(Tab)
    else if name == "background_page" then Ok(Background)
    else if name == "service_worker" then Ok(ServiceWorker)
    else if name == "app" then Ok(App)
    else if name == "other" then Ok(Other)
    else Err(UnknownVariant(name))
  }

  /**
   * The derived `Deserialize` of the unit-only enum: the variant's name as a
   * string, or as the one key of a map whose value is null.
   */
  function DecodePageType(v: Json): (r: Result<PageType, DeError>)
    ensures r.Ok? ==> NamesUnitVariant(v, PageTypeName(r.value))
    ensures v.Str? && r.Err? ==> r.error == UnknownVariant(v.s)
    ensures !v.Str? && !v.Obj? ==> r.Err?
  {
    var tag :- EnumTag(v);
    var t :- PageTypeNamed(tag.0);
    var _ :- UnitContent(tag.1);
    assert v.Obj? ==> v.fields == map[tag.0 := Null];
    Ok(t)
  }

  lemma PageTypeRoundTrip(t: PageType)
    ensures DecodePageType(Str(PageTypeName(t))) == Ok(t)
  {
  }

  /** The map form `{"<name>": null}` reads as the same variant. */
  lemma PageTypeMapForm(t: PageType)
    ensures DecodePageType(Obj(map[PageTypeName(t) := Null])) == Ok(t)
  {
    assert |map[PageTypeName(t) := Null]| == 1;
  }

  /** The `Display` text. */
  function PageTypeDisplay(t: PageType): string {
    match t
    case Tab => "tab"
    case Background => "background page"
    case ServiceWorker => "service worker"
    case App => "app"
    case Other => "other page"
  }

  /** Distinct page types display differently. */
  lemma PageTypeDisplayInjective(a: PageType, b: PageType)
    requires PageTypeDisplay(a) == PageTypeDisplay(b)
    ensures a == b
  {
    var da, db := PageTypeDisplay(a), PageTypeDisplay(b);
    assert da[0] == db[0] && |da| == |db|;
  }

  // ---------------------------------------------------------------------------
  // DevToolsUrls

  datatype DevToolsUrls = DevToolsUrls(wsUrl: string, frontendUrl: string)

  const WS_SCHEME: string := "ws://"
  const FRONTEND_PREFIX: string := "chrome-devtools://devtools/bundled/inspector.html?ws="

  /**
   * `DevToolsUrls::new`: the WebSocket URL and the front-end URL of a page, from
   * the `cdp_ws_url_format!` and `cdp_frontend_url_format!` templates.
   */
  function NewDevToolsUrls(addr: string, pageId: string): (u: DevToolsUrls)
    ensures u.wsUrl == WS_SCHEME + addr + "/" + PagePath(pageId)
    ensures u.frontendUrl == FRONTEND_PREFIX + addr + "/" + PagePath(pageId)
  {
    DevToolsUrls(WS_SCHEME + addr + "/" + PagePath(pageId), FRONTEND_PREFIX + addr + "/" + PagePath(pageId))
  }

  /**
   * The path of the advertised WebSocket URL is one the WebSocket endpoint accepts,
   * and it names the same page.
   */
  lemma WsUrlNamesPage(addr: string, pageId: string)
    requires NoNewline(pageId)
    ensures var u := NewDevToolsUrls(addr, pageId).wsUrl;
      ParsePagePathWithSlash(u[|WS_SCHEME + addr|..]) == Some(pageId)
  {
    var u := NewDevToolsUrls(addr, pageId).wsUrl;
    assert u[|WS_SCHEME + addr|..] == "/" + PagePath(pageId);
    WithSlashStripsSlash(PagePath(pageId));
    PagePathRoundTrip(pageId);
  }

  // ---------------------------------------------------------------------------
  // Page and its serializer

  datatype Page = Page(
    id: string,
    ty: PageType,
    url: string,
    title: string,
    description: Option<string>,
    faviconUrl: Option<string>,
    devtoolsUrls: Option<DevToolsUrls>)

  function OptionalEntry(key: string, v: Option<string>): seq<Entry> {
    if v.Some? then [(key, Str(v.value))] else []
  }

  function FrontendOf(u: Option<DevToolsUrls>): Option<string> {
    if u.Some? then Some(u.value.frontendUrl) else None
  }

  function WsOf(u: Option<DevToolsUrls>): Option<string> {
    if u.Some? then Some(u.value.wsUrl) else None
  }

  /**
   * `Serialize for Page`: the fields in the written order; a missing description is
   * written as "", the two DevTools URLs and the favicon only when present.
   */
  function SerializePage(p: Page): (entries: seq<Entry>)
    ensures |entries| == 5 + (if p.faviconUrl.Some? then 1 else 0) + (if p.devtoolsUrls.Some? then 2 else 0)
    ensures entries[0] == ("description", Str(if p.description.Some? then p.description.value else ""))
  {
    [("description", Str(if p.description.Some? then p.description.value else ""))]
    + OptionalEntry("devtoolsFrontendUrl", FrontendOf(p.devtoolsUrls))
    + OptionalEntry("faviconUrl", p.faviconUrl)
    + RequiredEntries(p)
    + OptionalEntry("webSocketDebuggerUrl", WsOf(p.devtoolsUrls))
  }

  // ---------------------------------------------------------------------------
  // Field decoders

  /** `Option<String>`: null is None. */
  function DecodeOptionalString(v: Json): (r: Result<Option<string>, DeError>)
    ensures r.Ok? <==> v.Null? || v.Str?
    ensures r == Ok(None) <==> v.Null?
  {
    if v.Null? then Ok(None)
    else if v.Str? then Ok(Some(v.s))
    else Err(InvalidType("a string"))
  }

  /** `String`. */
  function DecodeString(v: Json): (r: Result<string, DeError>)
    ensures r.Ok? <==> v.Str?
    ensures r.Ok? ==> v == Str(r.value)
  {
    if v.Str? then Ok(v.s) else Err(InvalidType("a string"))
  }

  /** An empty description reads as no description. */
  function NonEmpty(d: Option<string>): (r: Option<string>)
    ensures r.Some? <==> d.Some? && d.value != ""
    ensures r.Some? ==> r == d
  {
    if d == Some("") then None else d
  }

  // ---------------------------------------------------------------------------
  // `visit_map`: the eight slots, one entry at a time

  datatype Slots = Slots(
    description: Option<string>,
    frontendUrl: Option<string>,
    faviconUrl: Option<string>,
    id: Option<string>,
    title: Option<string>,
    ty: Option<PageType>,
    url: Option<string>,
    wsUrl: Option<string>)

  const EMPTY_SLOTS: Slots := Slots(None, None, None, None, None, None, None, None)

  /** Whether the slot a key writes to already holds a value (the duplicate test). */
  predicate IsSet(s: Slots, key: string) {
    if key == "description" then s.description.Some?
    else if key == "devtoolsFrontendUrl" then s.frontendUrl.Some?
    else if key == "faviconUrl" then s.faviconUrl.Some?
    else if key == "id" then s.id.Some?
    else if key == "title" then s.title.Some?
    else if key == "type" then s.ty.Some?
    else if key == "url" then s.url.Some?
    else if key == "webSocketDebuggerUrl" then s.wsUrl.Some?
    else false
  }

  /**
   * Whether an entry, when it decodes, leaves its slot holding a value: the four
   * required fields always do; the optional ones unless their value is null (or,
   * for the description, the empty string).
   */
  predicate Fills(e: Entry) {
    if e.0 == "description" then e.1.Str? && e.1.s != ""
    else if e.0 == "devtoolsFrontendUrl" || e.0 == "faviconUrl" || e.0 == "webSocketDebuggerUrl" then
      e.1 != Null
    else e.0 == "id" || e.0 == "title" || e.0 == "type" || e.0 == "url"
  }

  /** The keys the map decoder reads; every other key is skipped. */
  const PAGE_KEYS: set<string> := {"description", "devtoolsFrontendUrl", "faviconUrl", "id", "title", "type", "url", "webSocketDebuggerUrl"}

  /** One turn of the `while let Some(key) = map.next_key()` loop. */
  function VisitEntry(s: Slots, e: Entry): (r: Result<Slots, DeError>)
    ensures IsSet(s, e.0) ==> r == Err(DuplicateField(e.0))
    ensures e.0 !in PAGE_KEYS ==> r == Ok(s)
    ensures r.Err? ==> !r.error.MissingField?
    ensures r.Ok? ==> forall k :: IsSet(s, k) ==> IsSet(r.value, k)
  {
    var key := e.0;
    var v := e.1;
    if IsSet(s, key) then Err(DuplicateField(key))
    else if key == "description" then
      match DecodeOptionalString(v)
      case Err(err) => Err(err)
      case Ok(d) => Ok(s.(description := NonEmpty(d)))
    else if key == "devtoolsFrontendUrl" then
      match DecodeOptionalString(v)
      case Err(err) => Err(err)
      case Ok(u) => Ok(s.(frontendUrl := u))
    else if key == "faviconUrl" then
      match DecodeOptionalString(v)
      case Err(err) => Err(err)
      case Ok(u) => Ok(s.(faviconUrl := u))
    else if key == "id" then
      match DecodeString(v)
      case Err(err) => Err(err)
      case Ok(x) => Ok(s.(id := Some(x)))
    else if key == "title" then
      match DecodeString(v)
      case Err(err) => Err(err)
      case Ok(x) => Ok(s.(title := Some(x)))
    else if key == "type" then
      match DecodePageType(v)
      case Err(err) => Err(err)
      case Ok(t) => Ok(s.(ty := Some(t)))
    else if key == "url" then
      match DecodeString(v)
      case Err(err) => Err(err)
      case Ok(x) => Ok(s.(url := Some(x)))
    else if key == "webSocketDebuggerUrl" then
      match DecodeOptionalString(v)
      case Err(err) => Err(err)
      case Ok(u) => Ok(s.(wsUrl := u))
    else
      Ok(s)
  }

  /** The whole loop: the first failing entry ends it. */
  function VisitEntries(s: Slots, entries: seq<Entry>): (r: Result<Slots, DeError>)
    ensures entries == [] ==> r == Ok(s)
    ensures r.Ok? ==> forall k :: IsSet(s, k) ==> IsSet(r.value, k)
    decreases |entries|
  {
    if entries == [] then Ok(s)
    else
      match VisitEntry(s, entries[0])
      case Err(err) => Err(err)
      case Ok(s') => VisitEntries(s', entries[1..])
  }

  /**
   * The URL pair as the decoder should check it: both or neither, and when only one
   * is there, the missing one is named.
   */
  function PairUrls(wsUrl: Option<string>, frontendUrl: Option<string>): (r: Result<Option<DevToolsUrls>, DeError>)
    ensures r.Ok? <==> wsUrl.Some? == frontendUrl.Some?
    ensures r.Ok? ==> WsOf(r.value) == wsUrl && FrontendOf(r.value) == frontendUrl
    ensures r == Err(MissingField("webSocketDebuggerUrl")) <==> wsUrl.None? && frontendUrl.Some?
    ensures r == Err(MissingField("devtoolsFrontendUrl")) <==> wsUrl.Some? && frontendUrl.None?
  {
    match (wsUrl, frontendUrl)
    case (None, None) => Ok(None)
    case (Some(w), Some(f)) => Ok(Some(DevToolsUrls(w, f)))
    case (None, Some(_)) => Err(MissingField("webSocketDebuggerUrl"))
    case (Some(_), None) => Err(MissingField("devtoolsFrontendUrl"))
  }

  /** The URL pair check as src/greeter.rs and src/http.rs write it, with the two names exchanged. */
  function PairUrlsAsWritten(wsUrl: Option<string>, frontendUrl: Option<string>): (r: Result<Option<DevToolsUrls>, DeError>)
    ensures r.Ok? <==> PairUrls(wsUrl, frontendUrl).Ok?
    ensures r.Ok? ==> r == PairUrls(wsUrl, frontendUrl)
    ensures r.Err? ==> r.error.MissingField? && r != PairUrls(wsUrl, frontendUrl)
  {
    match (wsUrl, frontendUrl)
    case (None, None) => Ok(None)
    case (Some(w), Some(f)) => Ok(Some(DevToolsUrls(w, f)))
    case (None, Some(_)) => Err(MissingField("devtoolsFrontendUrl"))
    case (Some(_), None) => Err(MissingField("webSocketDebuggerUrl"))
  }

  /** The error as written names exactly the URL that is present. */
  lemma PairUrlsAsWrittenNamesPresentField(wsUrl: Option<string>, frontendUrl: Option<string>)
    requires wsUrl.Some? != frontendUrl.Some?
    ensures PairUrlsAsWritten(wsUrl, frontendUrl) == Err(MissingField(if wsUrl.Some? then "webSocketDebuggerUrl" else "devtoolsFrontendUrl"))
    ensures PairUrls(wsUrl, frontendUrl) == Err(MissingField(if wsUrl.Some? then "devtoolsFrontendUrl" else "webSocketDebuggerUrl"))
  {
  }

  /** The required fields, checked in the order of the struct expression. */
  function Assemble(s: Slots, urls: Option<DevToolsUrls>): (r: Result<Page, DeError>)
    ensures r.Ok? <==> s.id.Some? && s.title.Some? && s.ty.Some? && s.url.Some?
  {
    if s.id.None? then Err(MissingField("id"))
    else if s.title.None? then Err(MissingField("title"))
    else if s.ty.None? then Err(MissingField("type"))
    else if s.url.None? then Err(MissingField("url"))
    else Ok(Page(s.id.value, s.ty.value, s.url.value, s.title.value, s.description, s.faviconUrl, urls))
  }

  /** After the loop: the URL pair, then the required fields; the page holds what the slots hold. */
  function Finish(s: Slots): (r: Result<Page, DeError>)
    ensures r.Ok? <==> (s.wsUrl.Some? <==> s.frontendUrl.Some?) && s.id.Some? && s.title.Some? && s.ty.Some? && s.url.Some?
    ensures r.Ok? ==>
      && r.value.id == s.id.value && r.value.title == s.title.value && r.value.ty == s.ty.value && r.value.url == s.url.value
      && r.value.description == s.description && r.value.faviconUrl == s.faviconUrl
      && WsOf(r.value.devtoolsUrls) == s.wsUrl && FrontendOf(r.value.devtoolsUrls) == s.frontendUrl
  {
    match PairUrls(s.wsUrl, s.frontendUrl)
    case Err(err) => Err(err)
    case Ok(urls) => Assemble(s, urls)
  }

  /** Some entry has key `k`. */
  predicate HasKey(entries: seq<Entry>, k: string) {
    exists i :: 0 <= i < |entries| && entries[i].0 == k
  }

  /** `visit_map` with the URL names as intended: a decoded page had all four required keys. */
  function DecodePageMap(entries: seq<Entry>): (r: Result<Page, DeError>)
    ensures r.Ok? ==> HasKey(entries, "id") && HasKey(entries, "title") && HasKey(entries, "type") && HasKey(entries, "url")
  {
    match VisitEntries(EMPTY_SLOTS, entries)
    case Err(err) => Err(err)
    case Ok(s) =>
      SlotSetByEntry(EMPTY_SLOTS, entries, "id");
      SlotSetByEntry(EMPTY_SLOTS, entries, "title");
      SlotSetByEntry(EMPTY_SLOTS, entries, "type");
      SlotSetByEntry(EMPTY_SLOTS, entries, "url");
      Finish(s)
  }

  /** `visit_map` as written: it accepts the same maps and decodes them alike. */
  function DecodePageMapAsWritten(entries: seq<Entry>): (r: Result<Page, DeError>)
    ensures r.Ok? <==> DecodePageMap(entries).Ok?
    ensures r.Ok? ==> r == DecodePageMap(entries)
  {
    match VisitEntries(EMPTY_SLOTS, entries)
    case Err(err) => Err(err)
    case Ok(s) =>
      match PairUrlsAsWritten(s.wsUrl, s.frontendUrl)
      case Err(err) => Err(err)
      case Ok(urls) => Assemble(s, urls)
  }

  /**
   * The two agree on every input except one where exactly one URL is supplied;
   * there both fail with a missing field, the version as written naming the URL
   * that is present and the intended one the URL that is absent.
   */
  lemma AsWrittenAgreesUnlessOneUrl(entries: seq<Entry>)
    ensures var v := VisitEntries(EMPTY_SLOTS, entries);
      (v.Err? || (v.value.wsUrl.Some? <==> v.value.frontendUrl.Some?)) ==>
        DecodePageMapAsWritten(entries) == DecodePageMap(entries)
    ensures var v := VisitEntries(EMPTY_SLOTS, entries);
      v.Ok? && v.value.wsUrl.Some? && v.value.frontendUrl.None? ==>
        && DecodePageMapAsWritten(entries) == Err(MissingField("webSocketDebuggerUrl"))
        && DecodePageMap(entries) == Err(MissingField("devtoolsFrontendUrl"))
    ensures var v := VisitEntries(EMPTY_SLOTS, entries);
      v.Ok? && v.value.wsUrl.None? && v.value.frontendUrl.Some? ==>
        && DecodePageMapAsWritten(entries) == Err(MissingField("devtoolsFrontendUrl"))
        && DecodePageMap(entries) == Err(MissingField("webSocketDebuggerUrl"))
  {
  }

  /**
   * The decoding loop as written, over the entries of the JSON object in text
   * order, with one local slot per field.
   */
  method VisitMap(entries: seq<Entry>) returns (r: Result<Page, DeError>)
    ensures r == DecodePageMapAsWritten(entries)
  {
    var description: Option<string> := None;
    var frontendUrl: Option<string> := None;
    var faviconUrl: Option<string> := None;
    var id: Option<string> := None;
    var title: Option<string> := None;
    var ty: Option<PageType> := None;
    var url: Option<string> := None;
    var wsUrl: Option<string> := None;
    var i := 0;
    while i < |entries|
      invariant 0 <= i <= |entries|
      invariant VisitEntries(EMPTY_SLOTS, entries)
        == VisitEntries(Slots(description, frontendUrl, faviconUrl, id, title, ty, url, wsUrl), entries[i..])
    {
      var key := entries[i].0;
      var value := entries[i].1;
      assert entries[i..][0] == entries[i] && entries[i..][1..] == entries[i + 1..];
      if key == "description" {
        if description.Some? {
          return Err(DuplicateField("description"));
        }
        var d := DecodeOptionalString(value);
        if d.Err? {
          return Err(d.error);
        }
        description := NonEmpty(d.value);
      } else if key == "devtoolsFrontendUrl" {
        if frontendUrl.Some? {
          return Err(DuplicateField("devtoolsFrontendUrl"));
        }
        var u := DecodeOptionalString(value);
        if u.Err? {
          return Err(u.error);
        }
        frontendUrl := u.value;
      } else if key == "faviconUrl" {
        if faviconUrl.Some? {
          return Err(DuplicateField("faviconUrl"));
        }
        var u := DecodeOptionalString(value);
        if u.Err? {
          return Err(u.error);
        }
        faviconUrl := u.value;
      } else if key == "id" {
        if id.Some? {
          return Err(DuplicateField("id"));
        }
        var x := DecodeString(value);
        if x.Err? {
          return Err(x.error);
        }
        id := Some(x.value);
      } else if key == "title" {
        if title.Some? {
          return Err(DuplicateField("title"));
        }
        var x := DecodeString(value);
        if x.Err? {
          return Err(x.error);
        }
        title := Some(x.value);
      } else if key == "type" {
        if ty.Some? {
          return Err(DuplicateField("type"));
        }
        var t := DecodePageType(value);
        if t.Err? {
          return Err(t.error);
        }
        ty := Some(t.value);
      } else if key == "url" {
        if url.Some? {
          return Err(DuplicateField("url"));
        }
        var x := DecodeString(value);
        if x.Err? {
          return Err(x.error);
        }
        url := Some(x.value);
      } else if key == "webSocketDebuggerUrl" {
        if wsUrl.Some? {
          return Err(DuplicateField("webSocketDebuggerUrl"));
        }
        var u := DecodeOptionalString(value);
        if u.Err? {
          return Err(u.error);
        }
        wsUrl := u.value;
      }
      i := i + 1;
    }
    assert entries[i..] == [];
    var urls := PairUrlsAsWritten(wsUrl, frontendUrl);
    if urls.Err? {
      return Err(urls.error);
    }
    if id.None? {
      return Err(MissingField("id"));
    }
    if title.None? {
      return Err(MissingField("title"));
    }
    if ty.None? {
      return Err(MissingField("type"));
    }
    if url.None? {
      return Err(MissingField("url"));
    }
    r := Ok(Page(id.value, ty.value, url.value, title.value, description, faviconUrl, urls.value));
  }

  // ---------------------------------------------------------------------------
  // Properties of the map decoder

  lemma VisitEntryEffect(s: Slots, e: Entry)
    ensures VisitEntry(s, e).Err? ==> !VisitEntry(s, e).error.MissingField?
    ensures IsSet(s, e.0) ==> VisitEntry(s, e) == Err(DuplicateField(e.0))
    ensures VisitEntry(s, e).Ok? ==>
      var s' := VisitEntry(s, e).value;
      && (forall k :: IsSet(s, k) ==> IsSet(s', k))
      && (forall k :: IsSet(s', k) ==> IsSet(s, k) || k == e.0)
      && (Fills(e) <==> IsSet(s', e.0))
  {
  }

  lemma {:induction false} VisitEntriesEffect(s: Slots, entries: seq<Entry>)
    ensures VisitEntries(s, entries).Err? ==> !VisitEntries(s, entries).error.MissingField?
    ensures VisitEntries(s, entries).Ok? ==>
      var s' := VisitEntries(s, entries).value;
      && (forall k :: IsSet(s, k) ==> IsSet(s', k))
      && (forall i :: 0 <= i < |entries| && Fills(entries[i]) ==> IsSet(s', entries[i].0))
    decreases |entries|
  {
    if entries != [] {
      VisitEntryEffect(s, entries[0]);
      if VisitEntry(s, entries[0]).Ok? {
        var s1 := VisitEntry(s, entries[0]).value;
        VisitEntriesEffect(s1, entries[1..]);
        if VisitEntries(s, entries).Ok? {
          var s' := VisitEntries(s, entries).value;
          forall i | 0 <= i < |entries| && Fills(entries[i])
            ensures IsSet(s', entries[i].0)
          {
            if i > 0 {
              assert entries[i] == entries[1..][i - 1];
            }
          }
        }
      }
    }
  }

  /** A slot the loop leaves set was set before it or is the key of some entry. */
  lemma {:induction false} SlotSetByEntry(s: Slots, entries: seq<Entry>, k: string)
    ensures VisitEntries(s, entries).Ok? && IsSet(VisitEntries(s, entries).value, k) && !IsSet(s, k) ==> HasKey(entries, k)
    decreases |entries|
  {
    if entries != [] && VisitEntries(s, entries).Ok? && IsSet(VisitEntries(s, entries).value, k) && !IsSet(s, k) {
      VisitEntryEffect(s, entries[0]);
      var s1 := VisitEntry(s, entries[0]).value;
      if entries[0].0 != k {
        SlotSetByEntry(s1, entries[1..], k);
        var i :| 0 <= i < |entries[1..]| && entries[1..][i].0 == k;
        assert entries[i + 1].0 == k;
      }
    }
  }

  /** Running the loop over two pieces is running it over their concatenation. */
  lemma {:induction false} VisitEntriesAppend(s: Slots, a: seq<Entry>, b: seq<Entry>)
    ensures VisitEntries(s, a + b) ==
      match VisitEntries(s, a)
      case Err(err) => Err(err)
      case Ok(s') => VisitEntries(s', b)
    decreases |a|
  {
    if a == [] {
      assert a + b == b;
    } else {
      assert (a + b)[0] == a[0] && (a + b)[1..] == a[1..] + b;
      if VisitEntry(s, a[0]).Ok? {
        VisitEntriesAppend(VisitEntry(s, a[0]).value, a[1..], b);
      }
    }
  }

  /**
   * A field given twice with a value the first time is refused: the first
   * occurrence fills the slot, and the second finds it filled.
   */
  lemma RepeatedFieldRejected(entries: seq<Entry>, i: nat, j: nat)
    requires i < j < |entries|
    requires entries[i].0 == entries[j].0 && Fills(entries[i])
    ensures DecodePageMap(entries).Err?
  {
    var before := entries[..j];
    assert entries == before + entries[j..];
    VisitEntriesAppend(EMPTY_SLOTS, before, entries[j..]);
    VisitEntriesEffect(EMPTY_SLOTS, before);
    if VisitEntries(EMPTY_SLOTS, before).Ok? {
      var s := VisitEntries(EMPTY_SLOTS, before).value;
      assert before[i] == entries[i];
      VisitEntryEffect(s, entries[j]);
      assert entries[j..][0] == entries[j];
    }
  }

  /**
   * With the URL names as intended, a `missing_field` error names a field the
   * object does not supply: every entry under that key is null (and for the four
   * required fields, there is none).
   */
  lemma MissingFieldIsAbsent(entries: seq<Entry>, field: string)
    requires DecodePageMap(entries) == Err(MissingField(field))
    ensures forall i :: 0 <= i < |entries| && entries[i].0 == field ==> entries[i].1 == Null
    ensures field == "id" || field == "title" || field == "type" || field == "url" ==>
      forall i :: 0 <= i < |entries| ==> entries[i].0 != field
  {
    VisitEntriesEffect(EMPTY_SLOTS, entries);
    var s := VisitEntries(EMPTY_SLOTS, entries).value;
    assert !IsSet(s, field);
    forall i | 0 <= i < |entries| && entries[i].0 == field
      ensures entries[i].1 == Null
    {
      assert !Fills(entries[i]);
    }
  }

  /** The discrepancy as written: only the WebSocket URL is given, and the error names it. */
  lemma AsWrittenBlamesPresentUrl()
    ensures var entries := [
        ("id", Str("0")), ("title", Str("t")), ("type", Str("page")), ("url", Str("u")),
        ("webSocketDebuggerUrl", Str("ws://h/devtools/page/0"))];
      && DecodePageMapAsWritten(entries) == Err(MissingField("webSocketDebuggerUrl"))
      && DecodePageMap(entries) == Err(MissingField("devtoolsFrontendUrl"))
  {
    var entries := [
      ("id", Str("0")), ("title", Str("t")), ("type", Str("page")), ("url", Str("u")),
      ("webSocketDebuggerUrl", Str("ws://h/devtools/page/0"))];
    var s := Slots(None, None, None, Some("0"), Some("t"), Some(Tab), Some("u"), Some("ws://h/devtools/page/0"));
    assert VisitEntries(EMPTY_SLOTS, entries) == Ok(s) by {
      var s1 := EMPTY_SLOTS.(id := Some("0"));
      var s2 := s1.(title := Some("t"));
      var s3 := s2.(ty := Some(Tab));
      var s4 := s3.(url := Some("u"));
      assert VisitEntry(EMPTY_SLOTS, entries[0]) == Ok(s1);
      assert VisitEntry(s1, entries[1]) == Ok(s2);
      assert VisitEntry(s2, entries[2]) == Ok(s3);
      assert VisitEntry(s3, entries[3]) == Ok(s4);
      assert VisitEntry(s4, entries[4]) == Ok(s);
      assert VisitEntries(s, entries[5..]) == Ok(s);
      assert VisitEntries(s4, entries[4..]) == Ok(s);
      assert VisitEntries(s3, entries[3..]) == Ok(s);
      assert VisitEntries(s2, entries[2..]) == Ok(s);
      assert VisitEntries(s1, entries[1..]) == Ok(s);
    }
  }

  /** Unknown keys are skipped wherever they appear, whatever their value. */
  lemma UnknownKeyIgnored(entries: seq<Entry>, i: nat, key: string, value: Json)
    requires i <= |entries|
    requires key !in PAGE_KEYS
    ensures DecodePageMap(entries[..i] + [(key, value)] + entries[i..]) == DecodePageMap(entries)
  {
    var a, b := entries[..i], entries[i..];
    assert entries == a + b;
    VisitEntriesAppend(EMPTY_SLOTS, a, [(key, value)] + b);
    VisitEntriesAppend(EMPTY_SLOTS, a, b);
    assert a + [(key, value)] + b == a + ([(key, value)] + b);
    if VisitEntries(EMPTY_SLOTS, a).Ok? {
      var s := VisitEntries(EMPTY_SLOTS, a).value;
      assert ([(key, value)] + b)[0] == (key, value) && ([(key, value)] + b)[1..] == b;
      assert VisitEntry(s, (key, value)) == Ok(s);
    }
  }

  /** Slots a page fills when it is serialized. */
  function SlotsOf(p: Page): Slots {
    Slots(NonEmpty(p.description), FrontendOf(p.devtoolsUrls), p.faviconUrl,
          Some(p.id), Some(p.title), Some(p.ty), Some(p.url), WsOf(p.devtoolsUrls))
  }

  lemma VisitOptional(s: Slots, key: string, v: Option<string>, s': Slots)
    requires v.None? ==> s' == s
    requires v.Some? ==> VisitEntry(s, (key, Str(v.value))) == Ok(s')
    ensures VisitEntries(s, OptionalEntry(key, v)) == Ok(s')
  {
    if v.Some? {
      assert OptionalEntry(key, v)[1..] == [];
    }
  }

  function RequiredEntries(p: Page): seq<Entry> {
    [("id", Str(p.id)), ("title", Str(p.title)), ("type", Str(PageTypeName(p.ty))), ("url", Str(p.url))]
  }

  lemma VisitRequired(s: Slots, p: Page)
    requires s.id.None? && s.title.None? && s.ty.None? && s.url.None?
    ensures VisitEntries(s, RequiredEntries(p)) == Ok(s.(id := Some(p.id), title := Some(p.title), ty := Some(p.ty), url := Some(p.url)))
  {
    var mid := RequiredEntries(p);
    PageTypeRoundTrip(p.ty);
    var t1 := s.(id := Some(p.id));
    var t2 := t1.(title := Some(p.title));
    var t3 := t2.(ty := Some(p.ty));
    var t4 := t3.(url := Some(p.url));
    assert VisitEntry(s, mid[0]) == Ok(t1);
    assert VisitEntry(t1, mid[1]) == Ok(t2);
    assert VisitEntry(t2, mid[2]) == Ok(t3);
    assert VisitEntry(t3, mid[3]) == Ok(t4);
    assert VisitEntries(t4, mid[4..]) == Ok(t4);
    assert VisitEntries(t3, mid[3..]) == Ok(t4);
    assert VisitEntries(t2, mid[2..]) == Ok(t4);
    assert VisitEntries(t1, mid[1..]) == Ok(t4);
  }

  /** The decoding loop over a serialized page fills the slots from the page. */
  lemma VisitSerialized(p: Page)
    requires p.description != Some("")
    ensures VisitEntries(EMPTY_SLOTS, SerializePage(p)) == Ok(SlotsOf(p))
  {
    var d := [("description", Str(if p.description.Some? then p.description.value else ""))];
    var fe := OptionalEntry("devtoolsFrontendUrl", FrontendOf(p.devtoolsUrls));
    var fa := OptionalEntry("faviconUrl", p.faviconUrl);
    var mid := RequiredEntries(p);
    var ws := OptionalEntry("webSocketDebuggerUrl", WsOf(p.devtoolsUrls));
    assert SerializePage(p) == d + (fe + (fa + (mid + ws)));
    var s0 := EMPTY_SLOTS;
    var s1 := s0.(description := p.description);
    var s2 := s1.(frontendUrl := FrontendOf(p.devtoolsUrls));
    var s3 := s2.(faviconUrl := p.faviconUrl);
    var s4 := s3.(id := Some(p.id), title := Some(p.title), ty := Some(p.ty), url := Some(p.url));
    var s5 := s4.(wsUrl := WsOf(p.devtoolsUrls));
    assert s5 == SlotsOf(p);
    VisitEntriesAppend(s0, d, fe + (fa + (mid + ws)));
    VisitEntriesAppend(s1, fe, fa + (mid + ws));
    VisitEntriesAppend(s2, fa, mid + ws);
    VisitEntriesAppend(s3, mid, ws);
    assert VisitEntries(s0, d) == Ok(s1) by {
      assert VisitEntry(s0, d[0]) == Ok(s1);
      assert d[1..] == [];
    }
    VisitOptional(s1, "devtoolsFrontendUrl", FrontendOf(p.devtoolsUrls), s2);
    VisitOptional(s2, "faviconUrl", p.faviconUrl, s3);
    VisitRequired(s3, p);
    VisitOptional(s4, "webSocketDebuggerUrl", WsOf(p.devtoolsUrls), s5);
  }

  /** Decoding what the serializer writes gives the page back, an empty description aside. */
  lemma PageRoundTrip(p: Page)
    requires p.description != Some("")
    ensures DecodePageMap(SerializePage(p)) == Ok(p)
  {
    VisitSerialized(p);
    assert Finish(SlotsOf(p)) == Ok(p);
  }

  /** The decoder as written round-trips too: a serialized page has both URLs or neither. */
  lemma PageRoundTripAsWritten(p: Page)
    requires p.description != Some("")
    ensures DecodePageMapAsWritten(SerializePage(p)) == Ok(p)
  {
    PageRoundTrip(p);
  }

  /** A missing and an empty description serialize alike, so both decode as missing. */
  lemma EmptyDescriptionReadsAsNone(p: Page)
    requires p.description == Some("")
    ensures SerializePage(p) == SerializePage(p.(description := None))
    ensures DecodePageMap(SerializePage(p)) == Ok(p.(description := None))
  {
    PageRoundTrip(p.(description := None));
  }

  // ---------------------------------------------------------------------------
  // `visit_seq`: the eight values in field order

  function Element(elems: seq<Json>, i: nat): (r: Result<Json, DeError>)
    ensures r.Ok? <==> i < |elems|
  {
    if i < |elems| then Ok(elems[i]) else Err(InvalidLength(i))
  }

  /** `visit_seq` with the URL names as intended; values past the eighth are not read. */
  function DecodePageSeq(elems: seq<Json>): (r: Result<Page, DeError>)
    ensures |elems| < 8 ==> r.Err?
    ensures r.Ok? ==>
      && elems[3] == Str(r.value.id) && elems[4] == Str(r.value.title)
      && NamesUnitVariant(elems[5], PageTypeName(r.value.ty)) && elems[6] == Str(r.value.url)
      && (WsOf(r.value.devtoolsUrls).Some? <==> elems[7].Str?)
  {
    var description :- Element(elems, 0);
    var description :- DecodeOptionalString(description);
    var frontendUrl :- Element(elems, 1);
    var frontendUrl :- DecodeOptionalString(frontendUrl);
    var faviconUrl :- Element(elems, 2);
    var faviconUrl :- DecodeOptionalString(faviconUrl);
    var id :- Element(elems, 3);
    var id :- DecodeString(id);
    var title :- Element(elems, 4);
    var title :- DecodeString(title);
    var ty :- Element(elems, 5);
    var ty :- DecodePageType(ty);
    var url :- Element(elems, 6);
    var url :- DecodeString(url);
    var wsUrl :- Element(elems, 7);
    var wsUrl :- DecodeOptionalString(wsUrl);
    var urls :- PairUrls(wsUrl, frontendUrl);
    Ok(Page(id, ty, url, title, NonEmpty(description), faviconUrl, urls))
  }

  /** `visit_seq` as written: the same reads, and the URL pair checked with the names exchanged. */
  function DecodePageSeqAsWritten(elems: seq<Json>): (r: Result<Page, DeError>)
    ensures r.Ok? <==> DecodePageSeq(elems).Ok?
    ensures r.Ok? ==> r == DecodePageSeq(elems)
  {
    var description :- Element(elems, 0);
    var description :- DecodeOptionalString(description);
    var frontendUrl :- Element(elems, 1);
    var frontendUrl :- DecodeOptionalString(frontendUrl);
    var faviconUrl :- Element(elems, 2);
    var faviconUrl :- DecodeOptionalString(faviconUrl);
    var id :- Element(elems, 3);
    var id :- DecodeString(id);
    var title :- Element(elems, 4);
    var title :- DecodeString(title);
    var ty :- Element(elems, 5);
    var ty :- DecodePageType(ty);
    var url :- Element(elems, 6);
    var url :- DecodeString(url);
    var wsUrl :- Element(elems, 7);
    var wsUrl :- DecodeOptionalString(wsUrl);
    var urls :- PairUrlsAsWritten(wsUrl, frontendUrl);
    Ok(Page(id, ty, url, title, NonEmpty(description), faviconUrl, urls))
  }

  /** The sequence form shows the same discrepancy: only the WebSocket URL is given, and the error names it. */
  lemma SeqAsWrittenBlamesPresentUrl()
    ensures var elems := [Null, Null, Null, Str("0"), Str("t"), Str("page"), Str("u"), Str("ws://h/devtools/page/0")];
      && DecodePageSeqAsWritten(elems) == Err(MissingField("webSocketDebuggerUrl"))
      && DecodePageSeq(elems) == Err(MissingField("devtoolsFrontendUrl"))
  {
  }

  function OrNull(v: Option<string>): Json {
    if v.Some? then Str(v.value) else Null
  }

  /** A page as the eight-element array `visit_seq` reads. */
  function PageAsArray(p: Page): seq<Json> {
    [OrNull(p.description), OrNull(FrontendOf(p.devtoolsUrls)), OrNull(p.faviconUrl),
     Str(p.id), Str(p.title), Str(PageTypeName(p.ty)), Str(p.url), OrNull(WsOf(p.devtoolsUrls))]
  }

  lemma PageSeqRoundTrip(p: Page)
    requires p.description != Some("")
    ensures DecodePageSeq(PageAsArray(p)) == Ok(p)
  {
    PageTypeRoundTrip(p.ty);
  }

  /** The sequence decoder as written reads the array form back as well. */
  lemma PageSeqRoundTripAsWritten(p: Page)
    requires p.description != Some("")
    ensures DecodePageSeqAsWritten(PageAsArray(p)) == Ok(p)
  {
    PageSeqRoundTrip(p);
  }

  /** A well-formed array cut short fails at the first missing position. */
  lemma ShortPageSeqRejected(p: Page, n: nat)
    requires n < 8
    ensures DecodePageSeq(PageAsArray(p)[..n]) == Err(InvalidLength(n))
  {
    PageTypeRoundTrip(p.ty);
  }
}
