/**
 * The deprecation status the generator in cdp/src/generate.rs attaches to every
 * domain, type, method and field: whether it is deprecated, and which warning (if
 * any) the `#[deprecated(note = …)]` attribute carries.
 */
module Deprecation {
  import opened Wrappers

  // ---------------------------------------------------------------------------
  // Markdown escaping

  /** The characters of the regex class `[*\[\]()]`. */
  predicate IsHazard(c: char) {
    c == '*' || c == '[' || c == ']' || c == '(' || c == ')'
  }

  predicate NoHazard(s: string) {
    forall i :: 0 <= i < |s| ==> !IsHazard(s[i])
  }

  /** `escape_for_markdown`: a backslash goes before every hazard; every other character is kept. */
  function EscapeForMarkdown(s: string): (r: string)
    ensures |r| >= |s|
    ensures NoHazard(s) ==> r == s
    ensures forall i :: 0 <= i < |r| && IsHazard(r[i]) ==> 0 < i && r[i - 1] == '\\'
  {
    if |s| == 0 then ""
    else
      var head := if IsHazard(s[0]) then ['\\', s[0]] else [s[0]];
      var tail := EscapeForMarkdown(s[1..]);
      assert forall i :: |head| <= i < |head + tail| ==> (head + tail)[i] == tail[i - |head|];
      head + tail
  }

  /** Reads escaped text back, left to right: a backslash before a hazard is dropped. */
  function Unescape(r: string): string {
    if |r| == 0 then ""
    else if |r| >= 2 && r[0] == '\\' && IsHazard(r[1]) then [r[1]] + Unescape(r[2..])
    else [r[0]] + Unescape(r[1..])
  }

  /** Escaping loses nothing: the original text is recovered from the escaped one. */
  lemma {:induction false} UnescapeEscape(s: string)
    ensures Unescape(EscapeForMarkdown(s)) == s
  {
    if |s| > 0 {
      var tail := EscapeForMarkdown(s[1..]);
      UnescapeEscape(s[1..]);
      if IsHazard(s[0]) {
        assert EscapeForMarkdown(s) == ['\\', s[0]] + tail;
        assert (['\\', s[0]] + tail)[2..] == tail;
      } else {
        assert EscapeForMarkdown(s) == [s[0]] + tail;
        assert ([s[0]] + tail)[1..] == tail;
        // A backslash of the original is followed by an escaped character, never a bare hazard.
        if s[0] == '\\' && |tail| > 0 {
          assert !IsHazard(tail[0]);
        }
      }
    }
  }

  /** Different texts escape differently. */
  lemma EscapeInjective(a: string, b: string)
    requires EscapeForMarkdown(a) == EscapeForMarkdown(b)
    ensures a == b
  {
    UnescapeEscape(a);
    UnescapeEscape(b);
  }

  // ---------------------------------------------------------------------------
  // Extracting the warning

  /** ASCII lower case; `(?i)` folds no other character onto the letters of "deprecat". */
  function LowerAscii(c: char): char {
    if 'A' <= c <= 'Z' then (c as int + 32) as char else c
  }

  const DEPRECAT: string := "deprecat"

  /** `(?i)deprecat` matches at position `i` of `s`. */
  predicate MatchesAt(s: string, i: nat) {
    i + |DEPRECAT| <= |s| && forall k :: 0 <= k < |DEPRECAT| ==> LowerAscii(s[i + k]) == DEPRECAT[k]
  }

  /** `(?i)deprecat` matches somewhere in `s`. */
  predicate MentionsDeprecation(s: string) {
    exists i: nat | i <= |s| :: MatchesAt(s, i)
  }

  const BARE_DEPRECATED: string := "Deprecated."
  const DEPRECATED_PREFIX: string := "Deprecated, "

  /** `^Deprecated, ` removed, when present. */
  function StripDeprecatedPrefix(s: string): (r: string)
    ensures s == r || s == DEPRECATED_PREFIX + r
    ensures |s| >= |DEPRECATED_PREFIX| && s[..|DEPRECATED_PREFIX|] == DEPRECATED_PREFIX ==> s == DEPRECATED_PREFIX + r
  {
    if |s| >= |DEPRECATED_PREFIX| && s[..|DEPRECATED_PREFIX|] == DEPRECATED_PREFIX then
      assert s == DEPRECATED_PREFIX + s[|DEPRECATED_PREFIX|..];
      s[|DEPRECATED_PREFIX|..]
    else s
  }

  /**
   * The warning of a deprecated item: its description, when that exists, is not
   * the bare "Deprecated." and mentions deprecation; without the "Deprecated, "
   * prefix and markdown-escaped.
   */
  function ExtractWarning(description: Option<string>): (w: Option<string>)
    ensures w.Some? <==> description.Some? && description.value != BARE_DEPRECATED && MentionsDeprecation(description.value)
    ensures w.Some? ==> Unescape(w.value) == StripDeprecatedPrefix(description.value)
  {
    match description
    case None => None
    case Some(desc) =>
      if desc == BARE_DEPRECATED || !MentionsDeprecation(desc) then None
      else
        UnescapeEscape(StripDeprecatedPrefix(desc));
        Some(EscapeForMarkdown(StripDeprecatedPrefix(desc)))
  }

  /** The usual phrasing, "Deprecated, use X instead.", mentions deprecation and loses its prefix. */
  lemma PrefixedDescriptionWarns(rest: string)
    ensures ExtractWarning(Some(DEPRECATED_PREFIX + rest)) == Some(EscapeForMarkdown(rest))
  {
    var desc := DEPRECATED_PREFIX + rest;
    assert MentionsDeprecation(desc) by {
      assert forall k :: 0 <= k < |DEPRECAT| ==> desc[k] == DEPRECATED_PREFIX[k];
      assert MatchesAt(desc, 0);
    }
    assert StripDeprecatedPrefix(desc) == rest by {
      assert desc[..|DEPRECATED_PREFIX|] == DEPRECATED_PREFIX;
      assert desc[|DEPRECATED_PREFIX|..] == rest;
    }
    assert desc != BARE_DEPRECATED by {
      assert |desc| > |BARE_DEPRECATED|;
    }
  }

  /** A description that never mentions deprecation gives no warning. */
  lemma UnrelatedDescriptionIsSilent(desc: string)
    requires !MentionsDeprecation(desc)
    ensures ExtractWarning(Some(desc)) == None
  {
  }

  // ---------------------------------------------------------------------------
  // Status

  datatype Status =
    | NotDeprecated
    | Deprecated
    | DeprecatedWithWarning(warning: string)
    | DeprecatedWithWarningFromParent(warning: string)

  /** `DeprecationStatus::new`. */
  function New(deprecated: bool, description: Option<string>): (s: Status)
    ensures !deprecated <==> s == NotDeprecated
    ensures s.DeprecatedWithWarning? <==> deprecated && ExtractWarning(description).Some?
    ensures s.DeprecatedWithWarning? ==> s.warning == ExtractWarning(description).value
    ensures !s.DeprecatedWithWarningFromParent?
  {
    if !deprecated then NotDeprecated
    else
      match ExtractWarning(description)
      case None => Deprecated
      case Some(w) => DeprecatedWithWarning(w)
  }

  predicate IsDeprecated(s: Status) {
    !s.NotDeprecated?
  }

  predicate HasOwnWarning(s: Status) {
    s.DeprecatedWithWarning?
  }

  function Warning(s: Status): Option<string> {
    match s
    case DeprecatedWithWarning(w) => Some(w)
    case DeprecatedWithWarningFromParent(w) => Some(w)
    case _ => None
  }

  /** `add_parent`: a deprecated parent passes on its deprecation and warning unless the item has its own warning. */
  function AddParent(s: Status, parent: Status): (r: Status)
    ensures !IsDeprecated(parent) || HasOwnWarning(s) ==> r == s
    ensures IsDeprecated(parent) && !HasOwnWarning(s) ==>
      r == (match Warning(parent) case None => Deprecated case Some(w) => DeprecatedWithWarningFromParent(w))
  {
    if !IsDeprecated(parent) || HasOwnWarning(s) then s
    else
      match Warning(parent)
      case None => Deprecated
      case Some(w) => DeprecatedWithWarningFromParent(w)
  }

  /** Inheriting twice from the same parent is inheriting once. */
  lemma AddParentIdempotent(s: Status, parent: Status)
    ensures AddParent(AddParent(s, parent), parent) == AddParent(s, parent)
  {
  }

  /** An item is deprecated after inheriting exactly when it or its parent is. */
  lemma AddParentDeprecated(s: Status, parent: Status)
    ensures IsDeprecated(AddParent(s, parent)) <==> IsDeprecated(s) || IsDeprecated(parent)
  {
  }

  /** An item's own warning survives any parent; otherwise a deprecated parent's warning (or none) replaces the item's. */
  lemma AddParentWarning(s: Status, parent: Status)
    ensures HasOwnWarning(AddParent(s, parent)) <==> HasOwnWarning(s)
    ensures HasOwnWarning(s) ==> Warning(AddParent(s, parent)) == Warning(s)
    ensures !HasOwnWarning(s) && IsDeprecated(parent) ==> Warning(AddParent(s, parent)) == Warning(parent)
  {
  }

  /** A parent's own warning reaches its children marked as inherited. */
  lemma InheritedWarning(deprecated: bool, description: Option<string>, parentDescription: Option<string>)
    requires ExtractWarning(parentDescription).Some?
    requires !(deprecated && ExtractWarning(description).Some?)
    ensures AddParent(New(deprecated, description), New(true, parentDescription))
      == DeprecatedWithWarningFromParent(ExtractWarning(parentDescription).value)
  {
  }

  // ---------------------------------------------------------------------------
  // Attributes

  /** The description that goes into an item's doc string: none when the item has its own warning. */
  function DocDescription(s: Status, description: Option<string>): (d: Option<string>)
    ensures HasOwnWarning(s) ==> d == None
    ensures !HasOwnWarning(s) && description.Some? ==> d.Some? && Unescape(d.value) == description.value
    ensures description.None? ==> d == None
  {
    if HasOwnWarning(s) then None
    else
      match description
      case None => None
      case Some(desc) =>
        UnescapeEscape(desc);
        Some(EscapeForMarkdown(desc))
  }

  /** The `#[deprecated]` attribute: absent, bare (`Some(None)`), or carrying a note. */
  function DeprecatedAttr(s: Status): (a: Option<Option<string>>)
    ensures a.Some? <==> IsDeprecated(s)
    ensures a.Some? ==> a.value == Warning(s)
  {
    if IsDeprecated(s) then Some(Warning(s)) else None
  }

  /** A description that became the item's warning is written once, in the attribute note, and not in the doc string. */
  lemma WarningMovesToAttr(description: Option<string>)
    requires ExtractWarning(description).Some?
    ensures DocDescription(New(true, description), description) == None
    ensures DeprecatedAttr(New(true, description)) == Some(ExtractWarning(description))
  {
  }
}

/** The two-variant status of the older generator, src/generate.rs. */
module LegacyDeprecation {
  import opened Wrappers
  import Deprecation

  datatype Status = NotDeprecated | Deprecated(warning: Option<string>)

  /** `DeprecationStatus::new` of src/generate.rs, with the same warning heuristic as the newer generator. */
  function New(deprecated: bool, description: Option<string>): (s: Status)
    ensures !deprecated <==> s == NotDeprecated
    ensures s.Deprecated? ==> s.warning == Deprecation.ExtractWarning(description)
  {
    if !deprecated then NotDeprecated else Deprecated(Deprecation.ExtractWarning(description))
  }

  /** `has_warning`. */
  predicate HasWarning(s: Status) {
    s.Deprecated? && s.warning.Some?
  }

  /** The older status is the newer one before any parent is added. */
  lemma AgreesWithNewer(deprecated: bool, description: Option<string>)
    ensures var legacy := New(deprecated, description);
      var newer := Deprecation.New(deprecated, description);
      && (legacy.NotDeprecated? <==> !Deprecation.IsDeprecated(newer))
      && (HasWarning(legacy) <==> Deprecation.HasOwnWarning(newer))
      && (legacy.Deprecated? ==> legacy.warning == Deprecation.Warning(newer))
  {
  }
}
