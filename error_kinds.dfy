/**
 * The error-kind/code table shared by `CdpErrorKind`, `JsonCdpErrorKind` and
 * `DevToolsErrorKind`: the six codes of section 5.1 ("Error object") of the
 * JSON-RPC 2.0 specification plus `Other(code)` for everything else.
 * Kinds are compared by their code, not by constructor.
 */
module ErrorKinds {
  import opened Json
  import Decimal

  datatype Kind =
    | ParseError
    | InvalidRequest
    | MethodNotFound
    | InvalidParams
    | InternalError
    | ServerError
    | Other(code: i32)

  const PARSE_ERROR_CODE: i32 := -32700
  const INVALID_REQUEST_CODE: i32 := -32600
  const METHOD_NOT_FOUND_CODE: i32 := -32601
  const INVALID_PARAMS_CODE: i32 := -32602
  const INTERNAL_ERROR_CODE: i32 := -32603
  const SERVER_ERROR_CODE: i32 := -32000

  /** The codes that have a named kind. */
  predicate IsNamedCode(c: int) {
    c == PARSE_ERROR_CODE || c == INVALID_REQUEST_CODE || c == METHOD_NOT_FOUND_CODE
    || c == INVALID_PARAMS_CODE || c == INTERNAL_ERROR_CODE || c == SERVER_ERROR_CODE
  }

  /** `From<Kind> for i32`. */
  function ToCode(k: Kind): (c: i32)
    ensures k.Other? ==> c == k.code
    ensures !k.Other? ==> IsNamedCode(c)
  {
    match k
    case ParseError => PARSE_ERROR_CODE
    case InvalidRequest => INVALID_REQUEST_CODE
    case MethodNotFound => METHOD_NOT_FOUND_CODE
    case InvalidParams => INVALID_PARAMS_CODE
    case InternalError => INTERNAL_ERROR_CODE
    case ServerError => SERVER_ERROR_CODE
    case Other(c) => c
  }

  /** `From<i32> for Kind`: i32 -> kind -> i32 is the identity for every code. */
  function FromCode(c: i32): (k: Kind)
    ensures ToCode(k) == c
    ensures k.Other? <==> !IsNamedCode(c)
  {
    if c == PARSE_ERROR_CODE then ParseError
    else if c == INVALID_REQUEST_CODE then InvalidRequest
    else if c == METHOD_NOT_FOUND_CODE then MethodNotFound
    else if c == INVALID_PARAMS_CODE then InvalidParams
    else if c == INTERNAL_ERROR_CODE then InternalError
    else if c == SERVER_ERROR_CODE then ServerError
    else Other(c)
  }

  /** The hand-written `PartialEq`: equal iff the codes are equal. */
  predicate Equal(a: Kind, b: Kind) {
    ToCode(a) == ToCode(b)
  }

  /** A kind as `FromCode` produces it: `Other` only for codes without a name. */
  predicate Canonical(k: Kind) {
    k.Other? ==> !IsNamedCode(k.code)
  }

  /** `ToCode` is injective on canonical kinds, so kind -> i32 -> kind restores exactly those. */
  lemma KindCodeRoundTrip(k: Kind)
    ensures Equal(FromCode(ToCode(k)), k)
    ensures Canonical(FromCode(ToCode(k)))
    ensures FromCode(ToCode(k)) == k <==> Canonical(k)
  {
  }

  /** Kind equality is an equivalence that identifies an `Other` with the named kind of the same code. */
  lemma EqualIsEquivalence(a: Kind, b: Kind, c: Kind)
    ensures Equal(a, a)
    ensures Equal(a, b) ==> Equal(b, a)
    ensures Equal(a, b) && Equal(b, c) ==> Equal(a, c)
    ensures Equal(a, b) && Canonical(a) && Canonical(b) ==> a == b
  {
  }

  lemma OtherEqualsNamed()
    ensures Equal(Other(-32601), MethodNotFound)
    ensures Other(-32601) != MethodNotFound
  {
  }

  /** The kinds' `Display`. */
  function Describe(k: Kind): (s: string)
    ensures k.Other? ==> s == "code " + Decimal.IntToString(k.code)
  {
    match k
    case ParseError => "parse error"
    case InvalidRequest => "invalid request"
    case MethodNotFound => "method not found"
    case InvalidParams => "invalid parameters"
    case InternalError => "internal error"
    case ServerError => "server error"
    case Other(c) => "code " + Decimal.IntToString(c)
  }

  /** Only the `Other` display starts with 'c' (for "code"). */
  lemma DescribeInitial(k: Kind)
    ensures |Describe(k)| > 0 && (Describe(k)[0] == 'c' <==> k.Other?)
  {
  }

  /** Distinct canonical kinds display differently. */
  lemma DescribeInjective(a: Kind, b: Kind)
    requires Canonical(a) && Canonical(b)
    requires Describe(a) == Describe(b)
    ensures a == b
  {
    DescribeInitial(a);
    DescribeInitial(b);
    if a.Other? && b.Other? {
      assert Decimal.IntToString(a.code) == Describe(a)[5..];
      assert Decimal.IntToString(b.code) == Describe(b)[5..];
      Decimal.IntToStringInjective(a.code, b.code);
    }
  }
}
