/**
 * The URL paths the discovery endpoints and the DevTools WebSocket endpoint
 * accept, with each path regex written out as a string decomposition.
 *
 * Regex semantics follow Rust's `regex` crate: `.` matches any character except
 * '\n', while a negated class such as `[^/]` does match '\n'. Matching is
 * leftmost-first, so an optional group is taken whenever the rest can still match.
 */
module Paths {
  import opened Wrappers

  predicate NoNewline(s: string) {
    forall i :: 0 <= i < |s| ==> s[i] != '\n'
  }

  predicate NoSlash(s: string) {
    forall i :: 0 <= i < |s| ==> s[i] != '/'
  }

  predicate StartsWith(s: string, prefix: string) {
    |prefix| <= |s| && s[..|prefix|] == prefix
  }

  // ---------------------------------------------------------------------------
  // `^devtools/page/(.*)$`: the page WebSocket path

  const DEVTOOLS_PAGE_PREFIX: string := "devtools/page/"

  /** `cdp_ws_path_format!` (and `cdp_websocket_devtools_path_format!`) with the id filled in. */
  function PagePath(pageId: string): string {
    DEVTOOLS_PAGE_PREFIX + pageId
  }

  /**
   * `parse_path` / `parse_websocket_path`: the page id is everything after
   * "devtools/page/", which the regex's `.*` only accepts without a newline.
   */
  function ParsePagePath(path: string): (r: Option<string>)
    ensures r.Some? ==> path == PagePath(r.value) && NoNewline(r.value)
    ensures r.None? ==> forall id :: NoNewline(id) ==> path != PagePath(id)
  {
    if StartsWith(path, DEVTOOLS_PAGE_PREFIX) && NoNewline(path[|DEVTOOLS_PAGE_PREFIX|..]) then
      assert path == PagePath(path[|DEVTOOLS_PAGE_PREFIX|..]);
      Some(path[|DEVTOOLS_PAGE_PREFIX|..])
    else
      assert forall id :: path == PagePath(id) ==> path[|DEVTOOLS_PAGE_PREFIX|..] == id;
      None
  }

  /** Every id without a newline survives the trip through the path template. */
  lemma PagePathRoundTrip(pageId: string)
    requires NoNewline(pageId)
    ensures ParsePagePath(PagePath(pageId)) == Some(pageId)
  {
    var p := PagePath(pageId);
    assert p[..|DEVTOOLS_PAGE_PREFIX|] == DEVTOOLS_PAGE_PREFIX;
    assert p[|DEVTOOLS_PAGE_PREFIX|..] == pageId;
  }

  /** The anchored regex has no leading '/', so an absolute path is refused. */
  lemma ParsePagePathRejectsLeadingSlash(path: string)
    requires |path| > 0 && path[0] == '/'
    ensures ParsePagePath(path) == None
  {
    if |path| >= |DEVTOOLS_PAGE_PREFIX| {
      assert path[..|DEVTOOLS_PAGE_PREFIX|][0] == '/';
    }
  }

  /** `parse_path_with_slash`: demands a leading '/' and parses what follows it. */
  function ParsePagePathWithSlash(path: string): (r: Option<string>)
    ensures (|path| == 0 || path[0] != '/') ==> r.None?
    ensures r.Some? ==> path == "/" + PagePath(r.value) && NoNewline(r.value)
  {
    if |path| > 0 && path[0] == '/' then
      var r := ParsePagePath(path[1..]);
      assert r.Some? ==> path == [path[0]] + path[1..];
      r
    else None
  }

  lemma WithSlashStripsSlash(path: string)
    ensures ParsePagePathWithSlash("/" + path) == ParsePagePath(path)
  {
    assert ("/" + path)[1..] == path;
  }

  /** The cases of the path tests without a leading slash, on the model. */
  lemma PagePathExamples()
    ensures ParsePagePath("") == None && ParsePagePath("devtools/page") == None
    ensures ParsePagePath("devtools/page/") == Some("")
    ensures ParsePagePath("devtools/page/0/1") == Some("0/1")
  {
    PagePathRoundTrip("");
    PagePathRoundTrip("0/1");
    assert PagePath("0/1") == "devtools/page/0/1";
  }

  /** The cases of the path tests with a leading slash, on the model. */
  lemma PagePathWithSlashExamples()
    ensures ParsePagePath("/devtools/page/0") == None
    ensures ParsePagePathWithSlash("/devtools/page/0/") == Some("0/")
    ensures ParsePagePathWithSlash("devtools/page/0") == None
  {
    ParsePagePathRejectsLeadingSlash("/devtools/page/0");
    WithSlashStripsSlash("devtools/page/0/");
    PagePathRoundTrip("0/");
    assert "/" + "devtools/page/0/" == "/devtools/page/0/";
  }

  // ---------------------------------------------------------------------------
  // `^ROOT(/([^/]*))?(/(.*))?$`: the discovery paths

  /** Capture groups 2 and 4 of the discovery regex. */
  datatype Captures = Captures(slug: Option<string>, rest: Option<string>)

  /** What an optional `(/x)` group contributes to the text. */
  function Group(g: Option<string>): string {
    if g.Some? then "/" + g.value else ""
  }

  /** `path` is ROOT followed by the two optional groups, each within its class. */
  predicate Decomposes(root: string, path: string, c: Captures) {
    && path == root + Group(c.slug) + Group(c.rest)
    && (c.slug.Some? ==> NoSlash(c.slug.value))
    && (c.rest.Some? ==> NoNewline(c.rest.value))
  }

  /** The position of the first '/' in `s`, or `|s|` when there is none. */
  function FirstSlash(s: string): (k: nat)
    ensures k <= |s|
    ensures NoSlash(s[..k])
    ensures k < |s| ==> s[k] == '/'
  {
    if |s| == 0 || s[0] == '/' then 0
    else
      var k := 1 + FirstSlash(s[1..]);
      assert s[..k] == [s[0]] + s[1..][..k - 1];
      k
  }

  lemma {:induction false} FirstSlashAt(s: string, k: nat)
    requires k <= |s| && NoSlash(s[..k])
    requires k < |s| ==> s[k] == '/'
    ensures FirstSlash(s) == k
  {
    if k > 0 {
      assert s[..k][0] == s[0];
      assert s[1..][..k - 1] == s[..k][1..];
      FirstSlashAt(s[1..], k - 1);
    }
  }

  /**
   * Leftmost-first matching of `^ROOT(/([^/]*))?(/(.*))?$`: the first group takes
   * the segment up to the next '/', and the rest after that '/' must be free of
   * newlines for the second group to match.
   */
  function MatchRoot(root: string, path: string): (r: Option<Captures>)
    ensures r.Some? ==> Decomposes(root, path, r.value)
  {
    if !StartsWith(path, root) then None
    else
      var tail := path[|root|..];
      assert path == root + tail;
      if tail == [] then Some(Captures(None, None))
      else if tail[0] != '/' then None
      else
        var t := tail[1..];
        assert tail == "/" + t;
        var k := FirstSlash(t);
        if k == |t| then
          assert t[..k] == t;
          Some(Captures(Some(t), None))
        else if NoNewline(t[k + 1..]) then
          assert t == t[..k] + "/" + t[k + 1..];
          Some(Captures(Some(t[..k]), Some(t[k + 1..])))
        else None
  }

  /** Whenever some decomposition exists, the regex matches. */
  lemma MatchComplete(root: string, path: string, c: Captures)
    requires Decomposes(root, path, c)
    ensures MatchRoot(root, path).Some?
  {
    assert path[..|root|] == root;
    var tail := path[|root|..];
    assert tail == Group(c.slug) + Group(c.rest);
    if c.slug.Some? {
      MatchPrefersSlug(root, path, c);
    } else if c.rest.Some? {
      var t := tail[1..];
      assert t == c.rest.value;
      var k := FirstSlash(t);
      if k < |t| {
        var u := t[k + 1..];
        forall i | 0 <= i < |u|
          ensures u[i] != '\n'
        {
          assert u[i] == t[k + 1 + i];
        }
      }
    }
  }

  /**
   * A decomposition that uses the first group is the one the regex picks: the
   * segment cannot stop before a '/' nor run past one.
   */
  lemma MatchPrefersSlug(root: string, path: string, c: Captures)
    requires Decomposes(root, path, c) && c.slug.Some?
    ensures MatchRoot(root, path) == Some(c)
  {
    var s := c.slug.value;
    assert path[..|root|] == root;
    var tail := path[|root|..];
    assert tail == "/" + s + Group(c.rest);
    var t := tail[1..];
    assert t == s + Group(c.rest);
    assert t[..|s|] == s;
    FirstSlashAt(t, |s|);
    if c.rest.Some? {
      assert t[|s|] == '/';
      assert t[|s| + 1..] == c.rest.value;
      assert MatchRoot(root, path) == Some(Captures(Some(t[..|s|]), Some(t[|s| + 1..])));
    } else {
      assert t == s;
    }
  }

  // ---------------------------------------------------------------------------
  // `^/devtools/(browser|page)(/(.*))?$`: the WebSocket endpoints of tokio-cdp

  /** The category (group 1) and the optional id (group 3). */
  datatype EndpointGroups = EndpointGroups(category: string, id: Option<string>)

  predicate IsCategory(c: string) {
    c == "browser" || c == "page"
  }

  /** The text after a category: nothing, or '/' and an id without newline. */
  function OptionalId(t: string): (r: Option<Option<string>>)
    ensures r.Some? ==> t == Group(r.value) && (r.value.Some? ==> NoNewline(r.value.value))
    ensures r.None? ==> forall g: Option<string> :: (g.Some? ==> NoNewline(g.value)) ==> t != Group(g)
  {
    if t == [] then Some(None)
    else if t[0] == '/' && NoNewline(t[1..]) then
      assert t == "/" + t[1..];
      Some(Some(t[1..]))
    else
      assert forall x :: t == "/" + x ==> t[1..] == x;
      None
  }

  function MatchEndpoint(path: string): (r: Option<EndpointGroups>)
    ensures r.Some? ==> IsCategory(r.value.category)
    ensures r.Some? ==> path == "/devtools/" + r.value.category + Group(r.value.id)
    ensures r.Some? && r.value.id.Some? ==> NoNewline(r.value.id.value)
  {
    var prefix := "/devtools/";
    if !StartsWith(path, prefix) then None
    else
      var after := path[|prefix|..];
      assert path == prefix + after;
      if StartsWith(after, "browser") then
        assert after == "browser" + after[7..];
        match OptionalId(after[7..])
        case Some(id) => Some(EndpointGroups("browser", id))
        case None => None
      else if StartsWith(after, "page") then
        assert after == "page" + after[4..];
        match OptionalId(after[4..])
        case Some(id) => Some(EndpointGroups("page", id))
        case None => None
      else None
  }

  /** The endpoint regex matches every path it describes, with those groups. */
  lemma MatchEndpointComplete(category: string, id: Option<string>)
    requires IsCategory(category)
    requires id.Some? ==> NoNewline(id.value)
    ensures MatchEndpoint("/devtools/" + category + Group(id)) == Some(EndpointGroups(category, id))
  {
    var path := "/devtools/" + category + Group(id);
    assert path[..10] == "/devtools/";
    var after := path[10..];
    assert after == category + Group(id);
    assert after[..|category|] == category;
    assert after[|category|..] == Group(id);
    if id.Some? {
      assert Group(id)[1..] == id.value;
    }
    if category == "page" {
      assert after[0] == 'p';
      assert !StartsWith(after, "browser");
    }
  }
}
