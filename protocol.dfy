/**
 * The message envelope of the `cdp` crate (cdp/src/lib.rs) and of its older
 * JSON-only twin (src/json.rs): protocol errors, the staged parser for incoming
 * commands, the outgoing result/event/error shapes and their untagged decoding,
 * and the catch-all `(String, Map)` command/event decoders.
 * The two files differ only in the error description used by `Display` and in
 * `internal_error`, which are modelled side by side below.
 */
module Protocol {
  import opened Wrappers
  import opened Json
  import opened ErrorKinds
  import Decimal
  import Text

  // ---------------------------------------------------------------------------
  // Protocol errors

  /** `CdpError` / `JsonCdpError`: a kind (serialized as "code"), a message and optional data. */
  datatype Error = Error(kind: Kind, message: string, data: Option<Json>)

  const MSG_INVALID_JSON := "Message must be a valid JSON"
  const MSG_MUST_BE_OBJECT := "Message must be an object"
  const MSG_MUST_HAVE_ID := "Message must have integer 'id' porperty"
  const MSG_MUST_HAVE_METHOD := "Message must have string 'method' porperty"

  function InvalidMessage(): Error { Error(ParseError, MSG_INVALID_JSON, None) }
  function MustBeObject(): Error { Error(InvalidRequest, MSG_MUST_BE_OBJECT, None) }
  function MustHaveId(): Error { Error(InvalidRequest, MSG_MUST_HAVE_ID, None) }
  function MustHaveMethod(): Error { Error(InvalidRequest, MSG_MUST_HAVE_METHOD, None) }

  function MethodNotFound(name: string): Error {
    Error(Kind.MethodNotFound, "'" + name + "' wasn't found", None)
  }

  function InvalidParams(message: string): Error {
    Error(Kind.InvalidParams, "Invalid parameters", Some(Str(message)))
  }

  function ServerError(message: string): Error {
    Error(Kind.ServerError, message, None)
  }

  /** cdp/src/lib.rs: `internal_error(s)` carries `s` as data. */
  function CdpInternalError(message: string): Error {
    Error(InternalError, "Internal error", Some(Str(message)))
  }

  /** src/json.rs: `internal_error()` takes nothing and carries no data. */
  function JsonInternalError(): Error {
    Error(InternalError, "Internal error", None)
  }

  /** The derived `PartialEq`: kinds compare by code, message and data structurally. */
  predicate SameError(a: Error, b: Error) {
    Equal(a.kind, b.kind) && a.message == b.message && a.data == b.data
  }

  /** An error as decoding produces it: the kind rebuilt from its code. */
  function Canonicalize(e: Error): Error {
    e.(kind := FromCode(ToCode(e.kind)))
  }

  /** The serialized error object: "code", "message", and "data" only when present. */
  function EncodeError(e: Error): (j: Json)
    ensures j.Obj? && "code" in j.fields && "message" in j.fields
    ensures "data" in j.fields <==> e.data.Some?
    ensures j.fields.Keys <= {"code", "message", "data"}
  {
    var base := map["code" := Int(ToCode(e.kind)), "message" := Str(e.message)];
    Obj(if e.data.Some? then base["data" := e.data.value] else base)
  }

  /** `Option<Value>` decoding of "data": a missing key and an explicit null both give `None`. */
  function DecodeData(fields: map<string, Json>): Option<Json> {
    if "data" in fields && fields["data"] != Null then Some(fields["data"]) else None
  }

  /** Derived `Deserialize` of an error; keys other than code/message/data are ignored. */
  function DecodeError(j: Json): (r: Option<Error>)
    ensures r.Some? ==> j.Obj? && Canonical(r.value.kind)
  {
    if !j.Obj? then None
    else
      var f := j.fields;
      if "code" !in f || AsI32(f["code"]).None? || "message" !in f || !f["message"].Str? then None
      else Some(Error(FromCode(AsI32(f["code"]).value), f["message"].s, DecodeData(f)))
  }

  /** Encoding then decoding an error gives it back up to the code-based kind equality (data must not be `null`). */
  lemma ErrorRoundTrip(e: Error)
    requires e.data != Some(Null)
    ensures DecodeError(EncodeError(e)) == Some(Canonicalize(e))
    ensures SameError(Canonicalize(e), e)
  {
    KindCodeRoundTrip(e.kind);
  }

  /** An explicit `null` data does not survive the round trip. */
  lemma NullDataIsDropped(k: Kind, message: string)
    ensures DecodeError(EncodeError(Error(k, message, Some(Null)))) == Some(Error(FromCode(ToCode(k)), message, None))
  {
  }

  /** The wire form of `method_not_found("Foo.bar")`, as the outgoing error test writes it. */
  lemma MethodNotFoundWire()
    ensures EncodeError(MethodNotFound("Foo.bar"))
         == Obj(map["code" := Int(-32601), "message" := Str("'Foo.bar' wasn't found")])
  {
    assert "'" + "Foo.bar" + "' wasn't found" == "'Foo.bar' wasn't found";
  }

  /** `Display`: "<description> (code N): message", plus "; <data>" when data is present.
      The text form of a JSON value is serde_json's and is taken as `render`. */
  function Display(description: string, e: Error, render: Json -> string): (s: string)
    ensures s == description + " (code " + Decimal.IntToString(ToCode(e.kind)) + ")" + DisplayTail(e, render)
  {
    description + " (code " + Decimal.IntToString(ToCode(e.kind)) + "): " + e.message
      + (if e.data.Some? then "; " + render(e.data.value) else "")
  }

  /** What follows the code: ": message", then "; data" exactly when data is present. */
  function DisplayTail(e: Error, render: Json -> string): (s: string)
    ensures e.data.None? ==> s == ": " + e.message
    ensures e.data.Some? ==> s == ": " + e.message + "; " + render(e.data.value)
  {
    ": " + e.message + (if e.data.Some? then "; " + render(e.data.value) else "")
  }

  function CdpDisplay(e: Error, render: Json -> string): string { Display("cdp error", e, render) }
  function JsonDisplay(e: Error, render: Json -> string): string { Display("DevTools error", e, render) }

  /** The display regrouped as the fixed prefix, then the code, the closing parenthesis and the tail. */
  lemma DisplaySplit(description: string, e: Error, render: Json -> string)
    ensures Display(description, e, render)
         == (description + " (code ") + (Decimal.IntToString(ToCode(e.kind)) + [')'] + DisplayTail(e, render))
  {
    var c := Decimal.IntToString(ToCode(e.kind));
    var t := DisplayTail(e, render);
    assert description + " (code " + c + ")" + t == (description + " (code ") + (c + [')'] + t);
  }

  /** The displayed text determines the error's code: equal displays mean equal kinds. */
  lemma DisplayDeterminesKind(description: string, e1: Error, e2: Error, render: Json -> string)
    requires Display(description, e1, render) == Display(description, e2, render)
    ensures Equal(e1.kind, e2.kind)
  {
    var c1 := Decimal.IntToString(ToCode(e1.kind));
    var c2 := Decimal.IntToString(ToCode(e2.kind));
    var p := description + " (code ";
    var t1 := DisplayTail(e1, render);
    var t2 := DisplayTail(e2, render);
    DisplaySplit(description, e1, render);
    DisplaySplit(description, e2, render);
    Text.DropPrefix(p, c1 + [')'] + t1, c2 + [')'] + t2);
    Text.SplitAtMarker(c1, t1, c2, t2, ')');
    Decimal.IntToStringInjective(ToCode(e1.kind), ToCode(e2.kind));
  }

  // ---------------------------------------------------------------------------
  // Incoming commands

  /** `CdpIncoming` / `JsonCdpIncoming`. */
  datatype Incoming = Incoming(id: u64, commandName: string, params: map<string, Json>)

  /** The parse failure: an error and, once the id is known, the id. */
  type ParseFailure = (Error, Option<u64>)

  /**
   * `CdpIncoming::parse` (and `JsonCdpIncoming::parse`). `raw` is `None` when the
   * text is not JSON at all. The checks run in a fixed order and the first one
   * that fails decides the error; only the last one knows the id.
   */
  function ParseIncoming(raw: Option<Json>): (r: Result<Incoming, ParseFailure>)
    ensures raw.None? ==> r == Err((InvalidMessage(), None))
    ensures raw.Some? && !raw.value.Obj? ==> r == Err((MustBeObject(), None))
    ensures raw.Some? && raw.value.Obj? && !HasId(raw.value.fields) ==> r == Err((MustHaveId(), None))
    ensures raw.Some? && raw.value.Obj? && HasId(raw.value.fields) && !HasMethod(raw.value.fields)
            ==> r == Err((MustHaveMethod(), Some(raw.value.fields["id"].i)))
    ensures r.Ok? <==> raw.Some? && raw.value.Obj? && HasId(raw.value.fields) && HasMethod(raw.value.fields)
    ensures r.Ok? ==> var f := raw.value.fields;
      f["id"] == Int(r.value.id) && f["method"] == Str(r.value.commandName)
      && r.value.params == (if "params" in f && f["params"].Obj? then f["params"].fields else map[])
  {
    if raw.None? then Err((InvalidMessage(), None))
    else if !raw.value.Obj? then Err((MustBeObject(), None))
    else
      var obj := raw.value.fields;
      var id := if "id" in obj then AsU64(obj["id"]) else None;
      if id.None? then Err((MustHaveId(), None))
      else
        var name := if "method" in obj then AsStr(obj["method"]) else None;
        if name.None? then Err((MustHaveMethod(), Some(id.value)))
        else
          var params := if "params" in obj && obj["params"].Obj? then obj["params"].fields else map[];
          Ok(Incoming(id.value, name.value, params))
  }

  predicate HasId(f: map<string, Json>) { "id" in f && AsU64(f["id"]).Some? }
  predicate HasMethod(f: map<string, Json>) { "method" in f && f["method"].Str? }

  /** `serialize_command`: the object {"id", "method", "params"}. */
  function SerializeCommand(id: u64, name: string, params: map<string, Json>): Json {
    Obj(map["id" := Int(id), "method" := Str(name), "params" := Obj(params)])
  }

  /** Parsing a serialized command gives the command back. */
  lemma IncomingRoundTrip(id: u64, name: string, params: map<string, Json>)
    ensures ParseIncoming(Some(SerializeCommand(id, name, params))) == Ok(Incoming(id, name, params))
  {
  }

  /** Keys other than "id", "method" and "params" play no part in parsing. */
  lemma UnknownKeysIgnored(fields: map<string, Json>, extra: map<string, Json>)
    requires extra.Keys !! {"id", "method", "params"}
    ensures ParseIncoming(Some(Obj(fields + extra))) == ParseIncoming(Some(Obj(fields - extra.Keys)))
  {
    var f1 := fields + extra;
    var f2 := fields - extra.Keys;
    forall k | k in {"id", "method", "params"}
      ensures (k in f1 <==> k in f2) && (k in f1 ==> f1[k] == f2[k])
    {
    }
  }

  // ---------------------------------------------------------------------------
  // Command and event decoders

  /**
   * What `DeserializeCdpCommand::deserialize_command` / `DeserializeCdpEvent::deserialize_event`
   * return: `Declined` (the outer `Err`) hands the params deserializer back untouched,
   * `Claimed` carries the decoding outcome.
   */
  datatype Decoded<T, P> = Declined(handedBack: P) | Claimed(result: Result<T, string>)

  /** The `(String, Map)` implementations for commands and events: they never decline. */
  function DecodeCatchAll(name: string, params: Json): (r: Decoded<(string, map<string, Json>), Json>)
    ensures r.Claimed?
    ensures r.result.Ok? <==> params.Obj?
    ensures r.result.Ok? ==> r.result.value == (name, params.fields)
  {
    if params.Obj? then Claimed(Ok((name, params.fields)))
    else Claimed(Err("invalid type: expected a map"))
  }

  /** src/json.rs `JsonCdpServerCommand`: a command name with its params map. */
  datatype ServerCommand = ServerCommand(name: string, params: map<string, Json>)

  /** A decoder that, when it declines, hands back exactly the params it was given. */
  ghost predicate HandsBack<T>(decode: (string, map<string, Json>) -> Decoded<T, map<string, Json>>) {
    forall name, params :: decode(name, params).Declined? ==> decode(name, params).handedBack == params
  }

  /** `JsonCdpServerCommand::deserialize_command`: on decline, the command is rebuilt from the handed-back params. */
  function DeserializeServerCommand<T>(cmd: ServerCommand, decode: (string, map<string, Json>) -> Decoded<T, map<string, Json>>)
    : (r: Result<Result<T, string>, ServerCommand>)
    ensures r.Ok? <==> decode(cmd.name, cmd.params).Claimed?
    ensures r.Err? ==> r.error.name == cmd.name
  {
    match decode(cmd.name, cmd.params)
    case Claimed(res) => Ok(res)
    case Declined(params) => Err(ServerCommand(cmd.name, params))
  }

  /** A declined command comes back with the same name and params as it went in. */
  lemma DeclinedCommandUnchanged<T>(cmd: ServerCommand, decode: (string, map<string, Json>) -> Decoded<T, map<string, Json>>)
    requires HandsBack(decode)
    requires decode(cmd.name, cmd.params).Declined?
    ensures DeserializeServerCommand(cmd, decode) == Err(cmd)
  {
  }

  // ---------------------------------------------------------------------------
  // Outgoing messages

  /** `CdpOutgoing` / `JsonCdpOutgoing`. */
  datatype Outgoing =
    | Response(id: u64, result: Result<map<string, Json>, Error>)
    | Event(name: string, params: map<string, Json>)
    | GeneralError(error: Error)

  /** `serialize_response`: {"id", "result"}. */
  function SerializeResponse(id: u64, response: map<string, Json>): Json {
    Obj(map["id" := Int(id), "result" := Obj(response)])
  }

  /** `serialize_error`: "id" is written exactly when one is given, then "error". */
  function SerializeError(maybeId: Option<u64>, e: Error): (j: Json)
    ensures j.Obj? && "error" in j.fields && j.fields["error"] == EncodeError(e)
    ensures "id" in j.fields <==> maybeId.Some?
    ensures maybeId.Some? ==> j.fields["id"] == Int(maybeId.value)
    ensures |j.fields| == (if maybeId.Some? then 2 else 1)
  {
    if maybeId.Some? then Obj(map["id" := Int(maybeId.value), "error" := EncodeError(e)])
    else Obj(map["error" := EncodeError(e)])
  }

  /** `serialize_result`: a success is a response, a failure an error carrying the id. */
  function SerializeResult(id: u64, result: Result<map<string, Json>, Error>): (j: Json)
    ensures result.Ok? ==> j == SerializeResponse(id, result.value)
    ensures result.Err? ==> j == SerializeError(Some(id), result.error)
  {
    match result
    case Ok(response) => SerializeResponse(id, response)
    case Err(e) => SerializeError(Some(id), e)
  }

  /** `serialize_event`: {"method", "params"}. */
  function SerializeEvent(name: string, params: map<string, Json>): Json {
    Obj(map["method" := Str(name), "params" := Obj(params)])
  }

  /** `Serialize for CdpOutgoing`: a general error is written without an id. */
  function Serialize(o: Outgoing): (j: Json)
    ensures o.GeneralError? ==> j == SerializeError(None, o.error)
  {
    match o
    case Response(id, result) => SerializeResult(id, result)
    case Event(name, params) => SerializeEvent(name, params)
    case GeneralError(e) => SerializeError(None, e)
  }

  /** `CdpOutgoingImpl`, the untagged shape used for decoding. */
  datatype OutgoingImpl =
    | CommandSuccess(id: u64, result: map<string, Json>)
    | CommandFailure(id: u64, error: Error)
    | GeneralFailure(error: Error)
    | EventImpl(eventName: string, params: map<string, Json>)

  function DecodeCommandSuccess(f: map<string, Json>): Option<OutgoingImpl> {
    if HasId(f) && "result" in f && f["result"].Obj? then Some(CommandSuccess(f["id"].i, f["result"].fields)) else None
  }

  function DecodeCommandFailure(f: map<string, Json>): Option<OutgoingImpl> {
    if HasId(f) && "error" in f && DecodeError(f["error"]).Some? then Some(CommandFailure(f["id"].i, DecodeError(f["error"]).value)) else None
  }

  function DecodeGeneralFailure(f: map<string, Json>): Option<OutgoingImpl> {
    if "error" in f && DecodeError(f["error"]).Some? then Some(GeneralFailure(DecodeError(f["error"]).value)) else None
  }

  function DecodeEvent(f: map<string, Json>): Option<OutgoingImpl> {
    if HasMethod(f) && "params" in f && f["params"].Obj? then Some(EventImpl(f["method"].s, f["params"].fields)) else None
  }

  /** Untagged decoding: the variants are tried in declaration order and the first that fits wins. */
  function DecodeImpl(j: Json): (r: Option<OutgoingImpl>)
    ensures r.Some? ==> j.Obj?
    ensures j.Obj? && DecodeCommandSuccess(j.fields).Some? ==> r == DecodeCommandSuccess(j.fields)
  {
    if !j.Obj? then None
    else if DecodeCommandSuccess(j.fields).Some? then DecodeCommandSuccess(j.fields)
    else if DecodeCommandFailure(j.fields).Some? then DecodeCommandFailure(j.fields)
    else if DecodeGeneralFailure(j.fields).Some? then DecodeGeneralFailure(j.fields)
    else DecodeEvent(j.fields)
  }

  /** `From<CdpOutgoingImpl> for CdpOutgoing`. */
  function FromImpl(m: OutgoingImpl): (o: Outgoing)
    ensures m.CommandSuccess? <==> o.Response? && o.result.Ok?
    ensures m.CommandFailure? <==> o.Response? && o.result.Err?
    ensures m.GeneralFailure? <==> o.GeneralError?
    ensures m.EventImpl? <==> o.Event?
  {
    match m
    case CommandSuccess(id, result) => Response(id, Ok(result))
    case CommandFailure(id, e) => Response(id, Err(e))
    case GeneralFailure(e) => GeneralError(e)
    case EventImpl(name, params) => Event(name, params)
  }

  /** `Deserialize for CdpOutgoing`. */
  function Deserialize(j: Json): Option<Outgoing> {
    match DecodeImpl(j)
    case None => None
    case Some(m) => Some(FromImpl(m))
  }

  /** The outgoing message as decoding rebuilds it: every error kind canonical. */
  function CanonicalOutgoing(o: Outgoing): Outgoing {
    match o
    case Response(id, Ok(r)) => o
    case Response(id, Err(e)) => Response(id, Err(Canonicalize(e)))
    case Event(_, _) => o
    case GeneralError(e) => GeneralError(Canonicalize(e))
  }

  predicate DataNotNull(o: Outgoing) {
    match o
    case Response(_, Err(e)) => e.data != Some(Null)
    case GeneralError(e) => e.data != Some(Null)
    case _ => true
  }

  /** Deserializing what `Serialize` writes gives the message back (kinds up to their code). */
  lemma OutgoingRoundTrip(o: Outgoing)
    requires DataNotNull(o)
    ensures Deserialize(Serialize(o)) == Some(CanonicalOutgoing(o))
  {
    match o
    case Response(id, Ok(r)) =>
    case Response(id, Err(e)) =>
      ErrorRoundTrip(e);
      assert DecodeCommandSuccess(Serialize(o).fields).None?;
    case Event(name, params) =>
      assert DecodeCommandSuccess(Serialize(o).fields).None?;
      assert DecodeCommandFailure(Serialize(o).fields).None?;
      assert DecodeGeneralFailure(Serialize(o).fields).None?;
    case GeneralError(e) =>
      ErrorRoundTrip(e);
      assert DecodeCommandSuccess(Serialize(o).fields).None?;
      assert DecodeCommandFailure(Serialize(o).fields).None?;
  }
}
