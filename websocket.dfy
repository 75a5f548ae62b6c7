/**
 * The envelope of the older WebSocket binding (src/websocket.rs): the staged
 * client-message parser that hands method and params to the generated
 * `Command::parse_command`, the id extraction performed while a client message is
 * decoded field by field, and the server-message shapes with their untagged form.
 * Errors are `DevToolsError`, which has the same fields as the protocol errors of
 * the `Protocol` module.
 */
module WebSocket {
  import opened Wrappers
  import opened Json
  import opened ErrorKinds
  import P = Protocol

  // ---------------------------------------------------------------------------
  // Errors

  /** `DevToolsError::server_error(message, data)`. */
  function ServerErrorWithData(message: string, data: Option<Json>): P.Error {
    P.Error(Kind.ServerError, message, data)
  }

  /** `DevToolsError::internal_error(data)`. */
  function InternalErrorWithData(data: Option<Json>): P.Error {
    P.Error(InternalError, "Internal error", data)
  }

  /** `Display for DevToolsError`. */
  function DisplayError(e: P.Error, render: Json -> string): string {
    P.Display("DevTools error", e, render)
  }

  // ---------------------------------------------------------------------------
  // Incoming client messages

  /** `OwnedClientMessage`, over the generated command type `C`. */
  datatype ClientMessage<C> = ClientMessage(id: u64, command: C)

  /**
   * `OwnedClientMessage::parse_incoming`. The first four stages are those of
   * `Protocol.ParseIncoming`, except that a missing "params" is passed on as `null`
   * (and anything else as it is). `parseCommand` stands for the generated
   * `Command::parse_command`: `None` for an unknown method, `Some(Err(text))` for
   * params that do not decode.
   */
  function ParseIncoming<C>(raw: Option<Json>, parseCommand: (string, Json) -> Option<Result<C, string>>)
    : (r: Result<ClientMessage<C>, P.ParseFailure>)
    ensures raw.None? ==> r == Err((P.InvalidMessage(), None))
    ensures raw.Some? && !raw.value.Obj? ==> r == Err((P.MustBeObject(), None))
    ensures raw.Some? && raw.value.Obj? && !P.HasId(raw.value.fields) ==> r == Err((P.MustHaveId(), None))
    ensures raw.Some? && raw.value.Obj? && P.HasId(raw.value.fields) && !P.HasMethod(raw.value.fields)
            ==> r == Err((P.MustHaveMethod(), Some(raw.value.fields["id"].i)))
    ensures r.Err? && r.error.1.None? ==> r.error.0.kind != Kind.MethodNotFound && r.error.0.kind != Kind.InvalidParams
    ensures r.Ok? ==>
      raw.Some? && raw.value.Obj? && P.HasId(raw.value.fields) && P.HasMethod(raw.value.fields)
      && r.value.id == raw.value.fields["id"].i
  {
    if raw.None? then Err((P.InvalidMessage(), None))
    else if !raw.value.Obj? then Err((P.MustBeObject(), None))
    else
      var obj := raw.value.fields;
      var id := if "id" in obj then AsU64(obj["id"]) else None;
      if id.None? then Err((P.MustHaveId(), None))
      else
        var name := if "method" in obj then AsStr(obj["method"]) else None;
        if name.None? then Err((P.MustHaveMethod(), Some(id.value)))
        else
          var params := if "params" in obj then obj["params"] else Null;
          match parseCommand(name.value, params)
          case None => Err((P.MethodNotFound(name.value), Some(id.value)))
          case Some(Err(text)) => Err((P.InvalidParams(text), Some(id.value)))
          case Some(Ok(command)) => Ok(ClientMessage(id.value, command))
  }

  /** The last two stages: which method and params the command parser sees, and what its verdict becomes. */
  lemma ParseIncomingDispatch<C>(fields: map<string, Json>, parseCommand: (string, Json) -> Option<Result<C, string>>)
    requires P.HasId(fields) && P.HasMethod(fields)
    ensures var id := fields["id"].i;
      var name := fields["method"].s;
      var params := if "params" in fields then fields["params"] else Null;
      var r := ParseIncoming(Some(Obj(fields)), parseCommand);
      && (parseCommand(name, params).None? ==> r == Err((P.MethodNotFound(name), Some(id))))
      && (parseCommand(name, params).Some? && parseCommand(name, params).value.Err? ==>
            r == Err((P.InvalidParams(parseCommand(name, params).value.error), Some(id))))
      && (parseCommand(name, params).Some? && parseCommand(name, params).value.Ok? ==>
            r == Ok(ClientMessage(id, parseCommand(name, params).value.value)))
  {
  }

  /** Unlike the `cdp` parser, a message without "params" reaches the command parser with `null`. */
  lemma MissingParamsIsNull<C>(id: u64, name: string, parseCommand: (string, Json) -> Option<Result<C, string>>)
    requires parseCommand(name, Null).Some? && parseCommand(name, Null).value.Ok?
    ensures ParseIncoming(Some(Obj(map["id" := Int(id), "method" := Str(name)])), parseCommand)
         == Ok(ClientMessage(id, parseCommand(name, Null).value.value))
  {
  }

  // ---------------------------------------------------------------------------
  // Id extraction while a client message is decoded field by field

  /**
   * One `next_key_seed` call (with the value that goes with the key it returns):
   * "id" entries are taken off into the slot, a second "id" is a duplicate, and the
   * first other entry is forwarded. Returns the answer, the new position and the slot.
   */
  function Step(entries: seq<Entry>, pos: nat, slot: Option<u64>): (Result<Option<Entry>, DeError>, nat, Option<u64>)
    requires pos <= |entries|
    decreases |entries| - pos
  {
    if pos == |entries| then (Ok(None), pos, slot)
    else if entries[pos].0 == "id" then
      if slot.Some? then (Err(DuplicateField("id")), pos + 1, slot)
      else if AsU64(entries[pos].1).None? then (Err(InvalidType("u64")), pos + 1, slot)
      else Step(entries, pos + 1, AsU64(entries[pos].1))
    else (Ok(Some(entries[pos])), pos + 1, slot)
  }

  /** `ClientMessageMapAccess`: the inner map's entries, how far they have been read, and the shared id slot. */
  class ClientMessageMapAccess {
    const entries: seq<Entry>
    var pos: nat
    var id: Option<u64>

    ghost predicate Valid()
      reads this
    {
      pos <= |entries|
    }

    constructor (entries: seq<Entry>)
      ensures Valid()
      ensures this.entries == entries && pos == 0 && id == None
    {
      this.entries := entries;
      pos := 0;
      id := None;
    }

    /** `next_key_seed` followed by `next_value_seed` for the key it returns. */
    method NextEntry() returns (r: Result<Option<Entry>, DeError>)
      requires Valid()
      modifies this
      ensures Valid()
      ensures (r, pos, id) == Step(entries, old(pos), old(id))
    {
      while pos < |entries| && entries[pos].0 == "id"
        invariant pos <= |entries|
        invariant Step(entries, pos, id) == Step(entries, old(pos), old(id))
        decreases |entries| - pos
      {
        if id.Some? {
          pos := pos + 1;
          return Err(DuplicateField("id"));
        }
        var value := AsU64(entries[pos].1);
        if value.None? {
          pos := pos + 1;
          return Err(InvalidType("u64"));
        }
        id := value;
        pos := pos + 1;
      }
      if pos == |entries| {
        return Ok(None);
      }
      r := Ok(Some(entries[pos]));
      pos := pos + 1;
    }
  }

  /** The entries that are not "id", in order. */
  function Forwarded(entries: seq<Entry>): (r: seq<Entry>)
    ensures |r| <= |entries|
    ensures forall i :: 0 <= i < |r| ==> r[i].0 != "id"
  {
    if |entries| == 0 then []
    else
      var last := entries[|entries| - 1];
      Forwarded(entries[..|entries| - 1]) + (if last.0 == "id" then [] else [last])
  }

  function IdCount(entries: seq<Entry>): nat {
    if |entries| == 0 then 0
    else IdCount(entries[..|entries| - 1]) + (if entries[|entries| - 1].0 == "id" then 1 else 0)
  }

  /** Where the first "id" entry is. */
  function FirstId(entries: seq<Entry>): (i: nat)
    requires IdCount(entries) > 0
    ensures i < |entries| && entries[i].0 == "id"
    ensures IdCount(entries[..i]) == 0
  {
    var n := |entries| - 1;
    assert entries[..n][..n] == entries[..n];
    if IdCount(entries[..n]) > 0 then
      var i := FirstId(entries[..n]);
      assert entries[..i] == entries[..n][..i];
      i
    else n
  }

  /**
   * The decoding of an `OwnedClientMessage` as far as the id is concerned:
   * exactly one "id" entry, holding a u64, is required; the other entries reach the
   * command decoder in order.
   */
  function DecodeSpec(entries: seq<Entry>): Result<(u64, seq<Entry>), DeError> {
    if IdCount(entries) == 0 then Err(MissingField("id"))
    else
      var value := AsU64(entries[FirstId(entries)].1);
      if value.None? then Err(InvalidType("u64"))
      else if IdCount(entries) > 1 then Err(DuplicateField("id"))
      else Ok((value.value, Forwarded(entries)))
  }

  /** The slot after reading a prefix: empty until the first id, then that id's value. */
  ghost predicate SlotAgrees(entries: seq<Entry>, pos: nat, slot: Option<u64>)
    requires pos <= |entries|
  {
    if IdCount(entries[..pos]) == 0 then slot == None
    else IdCount(entries[..pos]) == 1 && slot.Some? && AsU64(entries[FirstId(entries[..pos])].1) == slot
  }

  lemma {:induction false} IdCountPrefix(entries: seq<Entry>, i: nat, j: nat)
    requires i <= j <= |entries|
    ensures IdCount(entries[..i]) <= IdCount(entries[..j])
    ensures IdCount(entries[..i]) > 0 ==> FirstId(entries[..i]) == FirstId(entries[..j])
    decreases j - i
  {
    if i < j {
      IdCountPrefix(entries, i, j - 1);
      assert entries[..j][..j - 1] == entries[..j - 1];
    }
  }

  lemma PrefixStep(entries: seq<Entry>, pos: nat)
    requires pos < |entries|
    ensures entries[..pos + 1][..pos] == entries[..pos]
    ensures IdCount(entries[..pos + 1]) == IdCount(entries[..pos]) + (if entries[pos].0 == "id" then 1 else 0)
    ensures Forwarded(entries[..pos + 1]) == Forwarded(entries[..pos]) + (if entries[pos].0 == "id" then [] else [entries[pos]])
  {
    assert entries[..pos + 1][..pos] == entries[..pos];
  }

  /** One `Step` from a consistent state either forwards the next non-id entry, ends, or fails as the whole decoding does. */
  lemma {:induction false} StepKeepsAgreement(entries: seq<Entry>, pos: nat, slot: Option<u64>)
    requires pos <= |entries|
    requires SlotAgrees(entries, pos, slot)
    ensures var (r, pos', slot') := Step(entries, pos, slot);
      pos < pos' <= |entries| || (pos == pos' == |entries|)
    ensures var (r, pos', slot') := Step(entries, pos, slot);
      r.Ok? ==> pos' <= |entries| && SlotAgrees(entries, pos', slot')
    ensures var (r, pos', slot') := Step(entries, pos, slot);
      r.Ok? && r.value.Some? ==> Forwarded(entries[..pos']) == Forwarded(entries[..pos]) + [r.value.value]
    ensures var (r, pos', slot') := Step(entries, pos, slot);
      r.Ok? && r.value.None? ==> pos' == |entries| && Forwarded(entries[..pos']) == Forwarded(entries[..pos])
    ensures var (r, pos', slot') := Step(entries, pos, slot);
      r.Err? ==> DecodeSpec(entries) == Err(r.error)
    decreases |entries| - pos
  {
    if pos < |entries| {
      PrefixStep(entries, pos);
      IdCountPrefix(entries, pos, pos + 1);
      IdCountPrefix(entries, pos + 1, |entries|);
      IdCountPrefix(entries, pos, |entries|);
      assert entries[..|entries|] == entries;
      if entries[pos].0 == "id" {
        if slot.None? {
          assert FirstId(entries[..pos + 1]) == pos;
          if AsU64(entries[pos].1).Some? {
            StepKeepsAgreement(entries, pos + 1, AsU64(entries[pos].1));
            var (r, p1, s1) := Step(entries, pos + 1, AsU64(entries[pos].1));
            if r.Ok? && r.value.None? {
              assert Forwarded(entries[..p1]) == Forwarded(entries[..pos + 1]);
            }
          }
        }
      }
    }
  }

  /** `Deserialize for OwnedClientMessage`: read every entry through the map access, then require the id. */
  method DecodeClientMessage(entries: seq<Entry>) returns (r: Result<(u64, seq<Entry>), DeError>)
    ensures r == DecodeSpec(entries)
  {
    var access := new ClientMessageMapAccess(entries);
    var forwarded: seq<Entry> := [];
    while true
      invariant access.Valid() && access.entries == entries
      invariant SlotAgrees(entries, access.pos, access.id)
      invariant forwarded == Forwarded(entries[..access.pos])
      decreases |entries| - access.pos
    {
      ghost var pos0 := access.pos;
      ghost var slot0 := access.id;
      StepKeepsAgreement(entries, pos0, slot0);
      var next := access.NextEntry();
      match next
      case Err(e) =>
        return Err(e);
      case Ok(None) =>
        break;
      case Ok(Some(entry)) =>
        forwarded := forwarded + [entry];
    }
    assert entries[..|entries|] == entries;
    if access.id.None? {
      return Err(MissingField("id"));
    }
    return Ok((access.id.value, forwarded));
  }

  /** The first "id" entry follows a prefix without one. */
  lemma FirstIdAfter(before: seq<Entry>, x: Entry, after: seq<Entry>)
    requires IdCount(before) == 0 && x.0 == "id"
    ensures IdCount(before + [x] + after) == 1 + IdCount(after)
    ensures FirstId(before + [x] + after) == |before|
  {
    var all := before + [x] + after;
    assert all == (before + [x]) + after;
    CountAppend(before + [x], after);
    CountAppend(before, [x]);
    assert [x][..0] == [];
    assert all[..|before|] == before;
    assert all[..|before| + 1] == before + [x];
    assert (before + [x])[..|before|] == before;
    IdCountPrefix(all, |before| + 1, |all|);
    assert all[..|all|] == all;
  }

  /** With exactly one well-formed "id", decoding succeeds, takes that id, and forwards all other entries. */
  lemma SingleIdDecodes(before: seq<Entry>, id: u64, after: seq<Entry>)
    requires IdCount(before) == 0 && IdCount(after) == 0
    ensures DecodeSpec(before + [("id", Int(id))] + after) == Ok((id, Forwarded(before + after)))
  {
    var x: Entry := ("id", Int(id));
    var all := before + [x] + after;
    FirstIdAfter(before, x, after);
    assert all[|before|] == x;
    assert DecodeSpec(all) == Ok((id, Forwarded(all)));
    ForwardedSkipsId(before, x, after);
  }

  lemma ForwardedSkipsId(before: seq<Entry>, x: Entry, after: seq<Entry>)
    requires x.0 == "id"
    ensures Forwarded(before + [x] + after) == Forwarded(before + after)
  {
    var fx := Forwarded([x]);
    assert fx == [] by {
      assert [x][..0] == [];
    }
    ForwardedAppend(before + [x], after);
    ForwardedAppend(before, [x]);
    ForwardedAppend(before, after);
  }

  /** A second "id" after a well-formed first one is reported as a duplicate. */
  lemma SecondIdIsDuplicate(before: seq<Entry>, id: u64, middle: seq<Entry>, again: Json, after: seq<Entry>)
    requires IdCount(before) == 0
    ensures DecodeSpec(before + [("id", Int(id))] + middle + [("id", again)] + after) == Err(DuplicateField("id"))
  {
    var x: Entry := ("id", Int(id));
    var rest := middle + [("id", again)] + after;
    assert before + [x] + middle + [("id", again)] + after == before + [x] + rest;
    FirstIdAfter(before, x, rest);
    CountAppend(middle + [("id", again)], after);
    CountAppend(middle, [("id", again)]);
    assert [("id", again)][..0] == [];
  }

  lemma {:induction false} CountAppend(a: seq<Entry>, b: seq<Entry>)
    ensures IdCount(a + b) == IdCount(a) + IdCount(b)
    decreases |b|
  {
    if |b| > 0 {
      assert (a + b)[..|a + b| - 1] == a + b[..|b| - 1];
      CountAppend(a, b[..|b| - 1]);
    } else {
      assert a + b == a;
    }
  }

  lemma {:induction false} ForwardedAppend(a: seq<Entry>, b: seq<Entry>)
    ensures Forwarded(a + b) == Forwarded(a) + Forwarded(b)
    decreases |b|
  {
    if |b| > 0 {
      assert (a + b)[..|a + b| - 1] == a + b[..|b| - 1];
      ForwardedAppend(a, b[..|b| - 1]);
    } else {
      assert a + b == a;
    }
  }

  /** `ClientMessageSeqAccess`: the tuple form, whose first element is the id. */
  class ClientMessageSeqAccess {
    const elements: seq<Json>
    var pos: nat
    var id: Option<u64>

    ghost predicate Valid()
      reads this
    {
      pos <= |elements|
    }

    constructor (elements: seq<Json>)
      ensures Valid()
      ensures this.elements == elements && pos == 0 && id == None
    {
      this.elements := elements;
      pos := 0;
      id := None;
    }

    /** `next_element_seed`: while the slot is empty the next element is taken as the id first. */
    method NextElement() returns (r: Result<Option<Json>, DeError>)
      requires Valid()
      modifies this
      ensures Valid()
      ensures old(id).None? && old(pos) == |elements| ==> r == Err(InvalidLength(0))
      ensures old(id).None? && old(pos) < |elements| && AsU64(elements[old(pos)]).None? ==> r == Err(InvalidType("u64"))
      ensures old(id).None? && old(pos) < |elements| && AsU64(elements[old(pos)]).Some?
              ==> id == AsU64(elements[old(pos)]) && r == (if old(pos) + 1 < |elements| then Ok(Some(elements[old(pos) + 1])) else Ok(None))
      ensures old(id).Some? ==> id == old(id) && r == (if old(pos) < |elements| then Ok(Some(elements[old(pos)])) else Ok(None))
    {
      if id.None? {
        if pos == |elements| {
          return Err(InvalidLength(0));
        }
        var value := AsU64(elements[pos]);
        if value.None? {
          pos := pos + 1;
          return Err(InvalidType("u64"));
        }
        id := value;
        pos := pos + 1;
      }
      if pos == |elements| {
        return Ok(None);
      }
      r := Ok(Some(elements[pos]));
      pos := pos + 1;
    }
  }

  // ---------------------------------------------------------------------------
  // Server messages

  /** An event of the generated `Event` enum, kept as its method name and params. */
  datatype Event = Event(name: string, params: Json)

  /** `OwnedServerMessage` (and the borrowed `ServerMessage`, which has the same shape). */
  datatype ServerMessage =
    | Response(id: u64, result: Result<Json, P.Error>)
    | EventMessage(event: Event)
    | ErrorMessage(error: P.Error)

  /** `ServerMessageImpl`, the untagged shape, with its variants in declaration order. */
  datatype ServerMessageImpl =
    | GeneralFailure(error: P.Error)
    | CommandSuccess(id: u64, response: Json)
    | CommandFailure(id: u64, error: P.Error)
    | EventImpl(event: Event)

  /** `From<&ServerMessage> for ServerMessageImpl`. */
  function ToImpl(m: ServerMessage): (r: ServerMessageImpl)
    ensures m.Response? && m.result.Ok? <==> r.CommandSuccess?
    ensures m.Response? && m.result.Err? <==> r.CommandFailure?
    ensures m.EventMessage? <==> r.EventImpl?
    ensures m.ErrorMessage? <==> r.GeneralFailure?
  {
    match m
    case Response(id, Ok(response)) => CommandSuccess(id, response)
    case Response(id, Err(e)) => CommandFailure(id, e)
    case EventMessage(event) => EventImpl(event)
    case ErrorMessage(e) => GeneralFailure(e)
  }

  /** `From<ServerMessageImpl> for OwnedServerMessage`. */
  function FromImpl(m: ServerMessageImpl): ServerMessage {
    match m
    case GeneralFailure(e) => ErrorMessage(e)
    case CommandSuccess(id, response) => Response(id, Ok(response))
    case CommandFailure(id, e) => Response(id, Err(e))
    case EventImpl(event) => EventMessage(event)
  }

  /** The two conversions are mutual inverses. */
  lemma ImplConversionsInverse(m: ServerMessage, i: ServerMessageImpl)
    ensures FromImpl(ToImpl(m)) == m
    ensures ToImpl(FromImpl(i)) == i
  {
  }

  function EncodeEvent(e: Event): Json {
    Obj(map["method" := Str(e.name), "params" := e.params])
  }

  function DecodeEvent(j: Json): Option<Event> {
    if j.Obj? && P.HasMethod(j.fields) && "params" in j.fields then Some(Event(j.fields["method"].s, j.fields["params"])) else None
  }

  /** Untagged serialization of each variant. */
  function SerializeImpl(m: ServerMessageImpl): (j: Json)
    ensures j.Obj?
  {
    match m
    case GeneralFailure(e) => Obj(map["error" := P.EncodeError(e)])
    case CommandSuccess(id, response) => Obj(map["id" := Int(id), "result" := response])
    case CommandFailure(id, e) => Obj(map["id" := Int(id), "error" := P.EncodeError(e)])
    case EventImpl(event) => EncodeEvent(event)
  }

  function Serialize(m: ServerMessage): Json {
    SerializeImpl(ToImpl(m))
  }

  function TryGeneralFailure(f: map<string, Json>): Option<ServerMessageImpl> {
    if "error" in f && P.DecodeError(f["error"]).Some? then Some(GeneralFailure(P.DecodeError(f["error"]).value)) else None
  }

  function TryCommandSuccess(f: map<string, Json>): Option<ServerMessageImpl> {
    if P.HasId(f) && "result" in f then Some(CommandSuccess(f["id"].i, f["result"])) else None
  }

  function TryCommandFailure(f: map<string, Json>): Option<ServerMessageImpl> {
    if P.HasId(f) && "error" in f && P.DecodeError(f["error"]).Some? then Some(CommandFailure(f["id"].i, P.DecodeError(f["error"]).value)) else None
  }

  function TryEvent(j: Json): Option<ServerMessageImpl> {
    if DecodeEvent(j).Some? then Some(EventImpl(DecodeEvent(j).value)) else None
  }

  /**
   * Untagged `Deserialize for ServerMessageImpl` as declared: the variants are tried in
   * declaration order, `GeneralFailure` first, and unknown keys are ignored.
   */
  function DeserializeAsWritten(j: Json): Option<ServerMessage> {
    if !j.Obj? then None
    else
      var m :=
        if TryGeneralFailure(j.fields).Some? then TryGeneralFailure(j.fields)
        else if TryCommandSuccess(j.fields).Some? then TryCommandSuccess(j.fields)
        else if TryCommandFailure(j.fields).Some? then TryCommandFailure(j.fields)
        else TryEvent(j);
      if m.Some? then Some(FromImpl(m.value)) else None
  }

  /** A failed command response comes back as a general error: its id is lost. */
  lemma FailedResponseLosesId(id: u64, e: P.Error)
    requires e.data != Some(Null)
    ensures DeserializeAsWritten(Serialize(Response(id, Err(e)))) == Some(ErrorMessage(P.Canonicalize(e)))
  {
    P.ErrorRoundTrip(e);
  }

  /** The same decoding with the command variants tried before the general failure, as src/json.rs orders them. */
  function Deserialize(j: Json): Option<ServerMessage> {
    if !j.Obj? then None
    else
      var m :=
        if TryCommandSuccess(j.fields).Some? then TryCommandSuccess(j.fields)
        else if TryCommandFailure(j.fields).Some? then TryCommandFailure(j.fields)
        else if TryGeneralFailure(j.fields).Some? then TryGeneralFailure(j.fields)
        else TryEvent(j);
      if m.Some? then Some(FromImpl(m.value)) else None
  }

  function CanonicalMessage(m: ServerMessage): ServerMessage {
    match m
    case Response(id, Err(e)) => Response(id, Err(P.Canonicalize(e)))
    case ErrorMessage(e) => ErrorMessage(P.Canonicalize(e))
    case _ => m
  }

  predicate DataNotNull(m: ServerMessage) {
    match m
    case Response(_, Err(e)) => e.data != Some(Null)
    case ErrorMessage(e) => e.data != Some(Null)
    case _ => true
  }

  /** Every server message survives serialization followed by the reordered decoding (kinds up to their code). */
  lemma ServerMessageRoundTrip(m: ServerMessage)
    requires DataNotNull(m)
    ensures Deserialize(Serialize(m)) == Some(CanonicalMessage(m))
  {
    match m
    case Response(id, Ok(r)) =>
    case Response(id, Err(e)) =>
      P.ErrorRoundTrip(e);
      assert TryCommandSuccess(Serialize(m).fields).None?;
    case EventMessage(event) =>
      assert TryCommandSuccess(Serialize(m).fields).None?;
      assert TryCommandFailure(Serialize(m).fields).None?;
      assert TryGeneralFailure(Serialize(m).fields).None?;
    case ErrorMessage(e) =>
      P.ErrorRoundTrip(e);
      assert TryCommandSuccess(Serialize(m).fields).None?;
      assert TryCommandFailure(Serialize(m).fields).None?;
  }
}
