# rust-cdp in Dafny

This project models the core of rust-cdp, a Rust implementation of the Chrome
DevTools Protocol (CDP).

It covers the following parts:

- **The `cdp` crate's message layer.** This includes:
  - the JSON-RPC error kinds and their numeric codes;
  - the `CdpError` wire object and its display text;
  - parsing of incoming client messages, stage by stage;
  - the outgoing server messages (responses, errors and events) and the way they are decoded again.
- **The older crate's message layers.** The JSON variant in `src/json.rs` and the
  WebSocket variant in `src/websocket.rs` cover:
  - the client-message visitors that take the `id` first and forward every other entry;
  - the untagged server-message decoder.
- **The discovery ("greeter") HTTP interface.** This includes:
  - the `/json/...` paths and their commands;
  - the WebSocket endpoint paths;
  - version information;
  - the `Page` record, with its hand-written map and sequence visitors;
  - the status table.
  - It also covers the tokio-cdp greeter service: its router, its response
    builders and the state machine of its response future.
- **The protocol schema of `src/definition.rs`.** This covers the conversion from a
  JSON type descriptor (`TypeImpl` and friends) into the schema types, and back again.
  It also covers the serde layer of those records over JSON values: which keys each
  record accepts (`deny_unknown_fields`), the defaults of absent keys, what each record
  writes, and the round trip of a whole protocol definition through JSON.
- **The two code generators.** They are `cdp/src/generate.rs` (the newer build script) and
  `src/generate.rs` (the older one). The model covers:
  - identifier naming and reference resolution;
  - deprecation status;
  - the lifetime reference graph and its depth-first search;
  - the declarations emitted for each type, field, method and domain;
  - the `Command`/`Response`/`Event` dispatch tables.
- **The `cdp-derive` procedural macro.** This covers the name extraction from
  `#[cdp = "..."]` attributes, the generated match arms and the dispatch they perform.

Generated Rust code is modelled by its shape: declarations, types and match arms
as datatypes, not token text. JSON is modelled as an abstract value (`Json.Json`).
The inflector crate's snake-case and Pascal-case conversions are an uninterpreted
parameter (`Naming.Inflector`).

Several parts of the source change state step by step, and the model keeps that
form. They are:

- the generators' output vectors (`Generator.TypeDefs`, `LegacyGenerator.WsOutput`);
- the macro's arm list (`Derive.ArmSink`);
- the reference graph (`Lifetimes.ReferenceGraph`);
- the two serde access objects of `src/websocket.rs`;
- the `Page` map visitor;
- the greeter response future (`TokioGreeter.GreeterServiceFuture`).

Each of these is a class or a loop method proved against a specification function.

## Model

| member | source | states |
|---|---|---|
| ErrorKinds.ToCode | cdp/src/lib.rs:1015-1028 | an `Other` kind gives its own code; every named kind gives a code of the named table |
| ErrorKinds.FromCode | cdp/src/lib.rs:1000-1013 | converting back gives the same code; the kind is `Other` exactly for codes outside the named table |
| ErrorKinds.KindCodeRoundTrip | cdp/src/lib.rs:1000-1028 | kind → code → kind gives a canonical kind equal to the original, and the identical kind exactly when the original is canonical |
| ErrorKinds.EqualIsEquivalence | cdp/src/lib.rs:980-984 | equality by code is reflexive, symmetric and transitive, and on canonical kinds it is structural equality |
| ErrorKinds.OtherEqualsNamed | cdp/src/lib.rs:980-984 | `Other(-32601)` equals `MethodNotFound` under `PartialEq` although the two values differ |
| ErrorKinds.Describe | cdp/src/lib.rs:986-998 | an `Other` kind displays as `code N` |
| ErrorKinds.DescribeInitial | cdp/src/lib.rs:986-998 | a description starts with `c` exactly when the kind is `Other` |
| ErrorKinds.DescribeInjective | cdp/src/lib.rs:986-998 | distinct canonical kinds have distinct descriptions |
| Protocol.EncodeError | cdp/src/lib.rs:857-864 | the error object has `code` and `message`, has `data` exactly when data is present, and has no other key |
| Protocol.DecodeError | cdp/src/lib.rs:1039-1046 | a decoded error comes from an object and carries a canonical kind |
| Protocol.ErrorRoundTrip | cdp/src/lib.rs:857-864 | encoding then decoding gives the canonical form of the error, which is the same error by code |
| Protocol.NullDataIsDropped | cdp/src/lib.rs:857-864 | a present `data` of JSON null decodes as no data |
| Protocol.MethodNotFoundWire | cdp/src/lib.rs:904-911 | the method-not-found error for `Foo.bar` goes on the wire as code -32601 with the message `'Foo.bar' wasn't found` and no data |
| Protocol.Display | cdp/src/lib.rs:946-966 | the display is the error type's fixed description (`cdp error` for this crate's error, the DevTools text for the older JSON error), then ` (code N)` with the kind's code, then the tail |
| Protocol.DisplayTail | cdp/src/lib.rs:946-966 | the tail is `: message`, followed by `; data` exactly when data is present |
| Protocol.DisplayDeterminesKind | cdp/src/lib.rs:946-966 | two errors with the same display have kinds that are equal by code |
| Protocol.ParseIncoming | cdp/src/lib.rs:222-249 | the stages in order, with their errors and the id known at each stage; `Ok` exactly when the input is a JSON object with a u64 `id` and a string `method` |
| Protocol.IncomingRoundTrip | cdp/src/lib.rs:266-290 | parsing a serialized command gives back its id, method and params |
| Protocol.UnknownKeysIgnored | cdp/src/lib.rs:222-249 | keys other than `id`, `method` and `params` do not change the parse |
| Protocol.DecodeCatchAll | cdp/src/lib.rs:129-140 | the catch-all decoder always claims the command; it succeeds exactly when params is an object, and gives back the name and the fields |
| Protocol.DeserializeServerCommand | src/json.rs:118-129 | `Ok` exactly when the command decoder claims the name; a declined command keeps its name |
| Protocol.DeclinedCommandUnchanged | src/json.rs:118-129 | a declined command is handed back unchanged |
| Protocol.SerializeError | cdp/src/lib.rs:711-726 | `id` is present exactly when one is given; `error` holds the encoded error; nothing else is written |
| Protocol.SerializeResult | cdp/src/lib.rs:613-626 | a success is written as a response with its id; a failure is written as an error carrying the id |
| Protocol.Serialize | cdp/src/lib.rs:795-811 | a general error is written as an error object without an id |
| Protocol.DecodeImpl | cdp/src/lib.rs:822-832 | only an object decodes, and a successful command response is recognised before any other variant |
| Protocol.FromImpl | cdp/src/lib.rs:834-853 | each decoded variant corresponds to exactly one outgoing message kind |
| Protocol.OutgoingRoundTrip | cdp/src/lib.rs:795-853 | decoding a serialized message gives its canonical form back, whenever its data is not JSON null |
| WebSocket.ParseIncoming | src/websocket.rs:99-121 | the parse stages and their errors; an error reported without an id is never method-not-found or invalid-params |
| WebSocket.ParseIncomingDispatch | src/websocket.rs:99-121 | a well-formed message reaches the command parser with its method and params, and the parser's answer decides the result |
| WebSocket.MissingParamsIsNull | src/websocket.rs:99-121 | a message without `params` reaches the command parser with null params |
| WebSocket.ClientMessageMapAccess.NextEntry | src/websocket.rs:677-707 | one entry is taken: the first `id` is stored, a second `id` is a duplicate-field error, and other entries are forwarded |
| WebSocket.StepKeepsAgreement | src/websocket.rs:677-700 | each step keeps the stored id in agreement with the first id of the entries consumed so far |
| WebSocket.DecodeClientMessage | src/websocket.rs:167-181 | the visitor loop computes the specification decoder of the entry list |
| WebSocket.SingleIdDecodes | src/websocket.rs:167-181 | entries with exactly one u64 `id` decode to that id and all the other entries, in order |
| WebSocket.SecondIdIsDuplicate | src/websocket.rs:677-700 | a second `id` entry is rejected as `duplicate field "id"` |
| WebSocket.ClientMessageSeqAccess.NextElement | src/websocket.rs:719-733 | an empty sequence is `invalid length 0`; a first element that is not a u64 is `invalid type`; otherwise the id is taken first and later elements pass through |
| WebSocket.ToImpl | src/websocket.rs:903-956 | each server message maps to its variant of the untagged enumeration |
| WebSocket.ImplConversionsInverse | src/websocket.rs:903-979 | the two conversions between server messages and their untagged form are mutual inverses |
| WebSocket.FailedResponseLosesId | src/websocket.rs:891-901 | with the variant order as written, a failed response decodes as a general error without its id |
| WebSocket.ServerMessageRoundTrip | src/websocket.rs:891-979 | with the response variants tried before the general failure, decoding a serialized message gives its canonical form back |
| Paths.ParsePagePath | src/ws.rs:27-35 | a page path parses exactly when it is the endpoint template around an id without a newline, and it yields that id |
| Paths.PagePathRoundTrip | src/ws.rs:13-35 | parsing the formatted path of such an id gives the id back |
| Paths.ParsePagePathRejectsLeadingSlash | src/ws.rs:27-35 | a path with an extra leading slash does not parse |
| Paths.ParsePagePathWithSlash | src/ws.rs:37-43 | a path not starting with `/` is refused; a parsed path is `/` followed by the template of a newline-free id |
| Paths.WithSlashStripsSlash | src/ws.rs:37-43 | with a leading `/`, the slash form parses exactly as the plain form parses the rest |
| Paths.PagePathExamples | tests/ws.rs:30-46 | the accepted and rejected paths of the crate's tests |
| Paths.PagePathWithSlashExamples | tests/ws.rs:49-64 | the accepted and rejected slash paths of the crate's tests |
| Paths.MatchRoot | src/greeter.rs:26-48 | a match of the `/json` root pattern is a decomposition of the path into slug and argument |
| Paths.MatchComplete | src/greeter.rs:29 | every path that decomposes is matched |
| Paths.MatchPrefersSlug | src/greeter.rs:29 | when the path decomposes with a slug, the match is that decomposition |
| Paths.MatchEndpoint | tokio-cdp/src/greeter/server.rs:230-247 | a match is `/devtools/`, a known category and an optional newline-free id, and rebuilds the path |
| Paths.MatchEndpointComplete | tokio-cdp/src/greeter/server.rs:230-231 | every endpoint path of that form is matched |
| Discovery.ParseCommand | src/greeter.rs:26-48 | a parsed command comes from a path under the `/json` root, and a new-page command carries the request's query |
| Discovery.ParseCommandWithSlash | src/greeter.rs:50-56 | a path not starting with `/` is refused; otherwise the result is that of the path without its slash |
| Discovery.CommandWithSlash | src/greeter.rs:50-56 | `/` followed by a path parses as the path does |
| Discovery.CommandPathRoundTrip | src/macros.rs:33-111 | parsing the path and query formatted for a command gives the command back |
| Discovery.UnknownSlugRejected | src/greeter.rs:33-46 | a slug not in the command table is rejected |
| Discovery.BareRootListsPages | src/greeter.rs:33-34 | the bare `/json` root lists the pages |
| Discovery.UnmatchedPathRejected | src/greeter.rs:26-48 | a path outside the root pattern is rejected |
| Discovery.UnknownCommandExamples | tests/greeter.rs:68-94 | the unknown-command paths of the crate's tests are rejected |
| Discovery.ActivatePageExample | tests/greeter.rs:117-125 | `json/activate/0`, `json/activate/0/` and `json/activate/0/foo`, with and without a leading slash, activate pages `0`, `0/` and `0/foo` |
| Discovery.ActivateExample | tests/greeter.rs:126-150 | for any newline-free id, `json/activate/<id>` and `/json/activate/<id>` both parse to activating that id |
| Discovery.NewPageExample | tests/greeter.rs:107-115 | `json/new` without a query opens a blank page and with a query opens that URL, with and without a leading slash |
| Discovery.DecodeComponentVersion | src/greeter.rs:277-283 | null or the text `0` reads as unknown, any other string as that version, and any other value is an error |
| Discovery.ComponentVersionRoundTrip | src/greeter.rs:267-283 | an unknown version is written as `0`; writing then reading gives any version other than `0` back |
| Discovery.ZeroVersionReadsAsUnknown | src/greeter.rs:267-283 | a known version `0` comes back as unknown |
| Discovery.RequiredString | src/greeter.rs:249-265 | `Ok` exactly when the key is present with a string value |
| Discovery.RequiredComponentVersion | src/greeter.rs:249-265 | `Ok` exactly when the key is present with a readable version |
| Discovery.DecodeVersionInfo | src/greeter.rs:249-265 | `Ok` exactly when the three string fields are strings and the two version fields are readable; the record holds those values |
| Discovery.VersionInfoRoundTrip | src/greeter.rs:249-283 | decoding the encoded version information gives it back |
| Discovery.GreeterStatus | src/greeter.rs:133-236 | 500 exactly for the error response, 404 exactly for page-not-found, 200 for every other response |
| Discovery.GreeterBody | src/greeter.rs:133-236 | only the version, page-list and new-page responses have a body; the page list is an array of one value per page, the others an object |
| Discovery.VersionBodyReadsBack | src/greeter.rs:153-170 | the version body decodes back to the version information, provided neither component version is the text `0` |
| Discovery.GreeterBodyOnlyWithContent | src/greeter.rs:133-236 | a response has a body exactly when its status is 200 and it is not an activation |
| Discovery.HttpStatus | src/http.rs:580-589 | 404 exactly for a failed activation, 200 otherwise |
| Discovery.StatusTablesAgree | src/http.rs:580-589 | the two variants' status tables agree on every response |
| Json.EnumTag | src/greeter.rs:610-621 | a derived enumeration is named by a string, or by the one key of a map together with its value; a map with any other number of keys is an invalid value, and anything else an invalid type |
| Json.UnitContent | src/greeter.rs:610-621 | a unit variant accepts no content or a null one, and nothing else |
| Pages.PageTypeNamed | src/greeter.rs:610-622 | the variant a name stands for has that name; any other name is an unknown variant naming it |
| Pages.DecodePageType | src/greeter.rs:610-622 | a decoded type was written as its own name, either as a string or as the one key of a map whose value is null; any other string is an unknown variant; a value that is neither string nor map is an error |
| Pages.PageTypeRoundTrip | src/greeter.rs:610-622 | decoding the name of a page type gives it back |
| Pages.PageTypeMapForm | src/greeter.rs:610-622 | the map form `{"<name>": null}` decodes to the same page type |
| Pages.PageTypeDisplayInjective | src/greeter.rs:624-638 | distinct page types display differently |
| Pages.NewDevToolsUrls | src/greeter.rs:597-608 | both URLs are the scheme or front-end prefix, the address, `/` and the page path of the id |
| Pages.WsUrlNamesPage | src/greeter.rs:597-608 | the WebSocket URL, with scheme and address removed, parses back to the page's id |
| Pages.SerializePage | src/greeter.rs:296-327 | five entries plus the favicon URL when present and both DevTools URLs when present; the description comes first, empty when absent |
| Pages.DecodeOptionalString | src/greeter.rs:480-548 | null reads as none, a string as that string, anything else is an invalid type |
| Pages.DecodeString | src/greeter.rs:480-548 | a string reads as itself, anything else is an invalid type |
| Pages.NonEmpty | src/greeter.rs:496-501 | an empty description reads as none |
| Pages.PairUrls | src/greeter.rs:550-560 | both URLs or neither are accepted; with only one, the error names the URL that is missing |
| Pages.PairUrlsAsWrittenNamesPresentField | src/greeter.rs:550-560 | as written, with only one URL, the error names the URL that is present |
| Pages.Assemble | src/greeter.rs:562-570 | `Ok` exactly when id, title, type and URL have all been read |
| Pages.VisitEntry | src/greeter.rs:486-548 | a key whose slot is already set is a duplicate; an unknown key leaves the slots alone; a visit never reports a missing field and keeps every set slot |
| Pages.VisitEntries | src/greeter.rs:486-548 | no entries leave the slots as they are, and a successful loop keeps every set slot |
| Pages.Finish | src/greeter.rs:550-570 | `Ok` exactly when both URLs or neither are set and id, title, type and URL are set; the page holds what the slots hold |
| Pages.DecodePageMap | src/greeter.rs:480-572 | the map decoder with the URL names as intended: a decoded page came from a map that has the keys `id`, `title`, `type` and `url` |
| Pages.SlotSetByEntry | src/greeter.rs:486-548 | a slot the loop leaves set was set before it or is the key of some entry |
| Pages.PairUrlsAsWritten | src/greeter.rs:550-560 | the URL check as written accepts exactly what the intended check accepts, with the same result, and otherwise reports a missing field other than the intended one |
| Pages.DecodePageMapAsWritten | src/greeter.rs:480-572 | the map decoder as written accepts exactly the maps the intended decoder accepts, and decodes them alike |
| Pages.AsWrittenAgreesUnlessOneUrl | src/greeter.rs:550-560 | the decoders as written and as intended agree on every map except one that gives exactly one URL; there the one as written names the URL that is present, the intended one the URL that is absent |
| Pages.VisitMap | src/greeter.rs:480-572 | the visitor loop as written, with one local slot per field, computes the map decoder as written |
| Pages.VisitEntryEffect | src/greeter.rs:486-548 | a visit never reports a missing field; a key whose slot is set is a duplicate; a successful visit keeps every set slot and sets at most the entry's own slot, exactly when the entry fills it |
| Pages.VisitEntriesEffect | src/greeter.rs:486-548 | visiting entries never reports a missing field, keeps set slots and sets the slot of every filling entry |
| Pages.RepeatedFieldRejected | src/greeter.rs:494-543 | a key seen again after an entry that filled its slot makes the decode fail |
| Pages.MissingFieldIsAbsent | src/greeter.rs:550-570 | a field reported missing has only null entries in the map, and a required field reported missing has none at all |
| Pages.AsWrittenBlamesPresentUrl | src/greeter.rs:550-560 | with only `webSocketDebuggerUrl` present, the decoder as written reports that very field as missing |
| Pages.UnknownKeyIgnored | src/greeter.rs:544-546 | inserting an entry with an unknown key anywhere leaves the decode unchanged |
| Pages.VisitSerialized | src/greeter.rs:296-327 | visiting the entries of a serialized page fills every slot with the page's values |
| Pages.PageRoundTrip | src/greeter.rs:296-572 | decoding a serialized page gives the page back, provided its description is not empty |
| Pages.PageRoundTripAsWritten | src/greeter.rs:296-572 | the map decoder as written also gives a serialized page back, provided its description is not empty |
| Pages.EmptyDescriptionReadsAsNone | src/greeter.rs:303-306 | a page with an empty description comes back without one |
| Pages.DecodePageSeq | src/greeter.rs:410-475 | fewer than eight values are refused; a decoded page holds the id, title, type (its name, or its one-key map form) and URL at positions 3 to 6, and has DevTools URLs exactly when position 7 is a string |
| Pages.DecodePageSeqAsWritten | src/greeter.rs:410-475 | the sequence decoder as written accepts exactly the arrays the intended one accepts, and decodes them alike |
| Pages.SeqAsWrittenBlamesPresentUrl | src/greeter.rs:455-465 | an eight-value array with only the WebSocket URL reports that URL missing as written, and the front-end URL as intended |
| Pages.PageSeqRoundTrip | src/greeter.rs:410-475 | the sequence visitor decodes the array form of a page back to the page, provided its description is not empty |
| Pages.PageSeqRoundTripAsWritten | src/greeter.rs:410-475 | the sequence decoder as written also reads the array form of a page back to the page, provided its description is not empty |
| Pages.ShortPageSeqRejected | src/greeter.rs:410-455 | a sequence cut after n < 8 elements is rejected as `invalid length n` |
| TokioGreeter.DefaultError | tokio-cdp/src/greeter/server.rs:28-32 | the default greeter error has no message |
| TokioGreeter.ErrorFrom | tokio-cdp/src/greeter/server.rs:34-43 | converting an error keeps its text as the message |
| TokioGreeter.DisplayError | tokio-cdp/src/greeter/server.rs:45-59 | the display is the fixed description, followed by `: message` when there is a message |
| TokioGreeter.DisplayErrorInjective | tokio-cdp/src/greeter/server.rs:45-59 | distinct errors display differently |
| TokioGreeter.CommandName | tokio-cdp/src/greeter/server.rs:71-81 | each request's command name is a non-empty slug without a slash |
| TokioGreeter.EndpointUrl | tokio-cdp/src/greeter/mod.rs:18-43 | the URL is `ws://`, the address and the endpoint's path |
| TokioGreeter.ParseEndpoint | tokio-cdp/src/greeter/server.rs:236-247 | a parsed endpoint rebuilds the path, and a page endpoint's id has no newline |
| TokioGreeter.EndpointRoundTrip | tokio-cdp/src/greeter/mod.rs:18-43 | parsing the path of an endpoint gives the endpoint back |
| TokioGreeter.PageNeedsId | tokio-cdp/src/greeter/server.rs:243-245 | `/devtools/page` without an id is not an endpoint |
| TokioGreeter.Route | tokio-cdp/src/greeter/server.rs:225-299 | upgrades and only upgrades go to the WebSocket handshake, with the endpoint the path names; a request keeps the verb's body permission; a not-found command slug is unknown |
| TokioGreeter.RouteRequestPath | tokio-cdp/src/greeter/server.rs:260-299 | the path and query of a request route back to that request |
| TokioGreeter.RouteSlugOfRequest | tokio-cdp/src/greeter/server.rs:262-288 | the slug and arguments of a request give back that request |
| TokioGreeter.BareRootLists | tokio-cdp/src/greeter/server.rs:263 | the bare root is routed to the page list |
| TokioGreeter.UnknownCommandRouted | tokio-cdp/src/greeter/server.rs:285-287 | an unknown slug is answered as an unknown command |
| TokioGreeter.UnmatchedPathNotFound | tokio-cdp/src/greeter/server.rs:293 | any other path is not found |
| TokioGreeter.ActivateReply | tokio-cdp/src/greeter/server.rs:152-157 | no body; 200 exactly when the page was activated, 404 otherwise |
| TokioGreeter.CloseReply | tokio-cdp/src/greeter/server.rs:159-164 | no body; 200 exactly when the page was closed, 404 otherwise |
| TokioGreeter.FromResult | tokio-cdp/src/greeter/server.rs:108-118 | 200 with the value exactly on success; a failure is 500 with the serialization error text |
| TokioGreeter.ProtocolReply | tokio-cdp/src/greeter/server.rs:131-136 | the protocol text is answered with 200 and that text as body |
| TokioGreeter.GreeterServiceFuture.constructor | tokio-cdp/src/greeter/server.rs:302-307 | the future starts in the state that the routing result selects |
| TokioGreeter.GreeterServiceFuture.Poll | tokio-cdp/src/greeter/server.rs:316-360 | the poll's answer and the next state are those of the state machine |
| TokioGreeter.NoBodyWithoutPermission | tokio-cdp/src/greeter/server.rs:318-341 | when the verb may not carry a body, no reply of a routed request carries one |
| TokioGreeter.ServiceErrorIs500 | tokio-cdp/src/greeter/server.rs:331-340 | a service failure is answered with 500, with the error's message as body when allowed |
| TokioGreeter.UnknownCommandAnswer | tokio-cdp/src/greeter/server.rs:344-350 | an unknown command is answered 404 with the unknown-command text and the slug as body, whatever the verb; a later poll answers 404 without a body |
| TokioGreeter.UpgradeAnswer | tokio-cdp/src/greeter/server.rs:351-358 | a handshake on an endpoint's path upgrades to that endpoint; on any other path it answers 400 |
| TokioGreeter.TargetKindNamed | tokio-cdp/src/greeter/mod.rs:45-64 | the variant a name stands for has that name; any other name is an unknown variant naming it |
| TokioGreeter.DecodeTargetKind | tokio-cdp/src/greeter/mod.rs:45-64 | a decoded kind was written as its own name, either as a string or as the one key of a map whose value is null; any other string is an unknown variant; a value that is neither string nor map is an error |
| TokioGreeter.TargetKindRoundTrip | tokio-cdp/src/greeter/mod.rs:45-64 | decoding the name of a target kind gives it back |
| TokioGreeter.TargetKindMapForm | tokio-cdp/src/greeter/mod.rs:45-64 | the map form `{"<name>": null}` decodes to the same target kind |
| TokioGreeter.TargetKindDisplayMatchesName | tokio-cdp/src/greeter/mod.rs:66-83 | a target kind displays as its name, except the background page and the service worker |
| TokioGreeter.TargetKindDisplayInjective | tokio-cdp/src/greeter/mod.rs:66-83 | distinct target kinds display differently |
| Schema.VersionText | src/definition.rs:42-46 | the version displays as major, a dot, then minor |
| Schema.VersionTextInjective | src/definition.rs:42-46 | with a dot-free major part, the text determines the version |
| Schema.IntoType | src/definition.rs:597-640 | `$ref` wins; without `$ref` or `type` the descriptor is refused with its name; boolean, integer, number and any always convert; a string is an enumeration exactly when `enum` is given; an array without `items` is refused with the name, otherwise it converts exactly when its item does and keeps its bounds, failing with the item's error; an object without `properties` has no fields, otherwise it converts exactly when its fields do, failing with their error |
| Schema.IntoItem | src/definition.rs:529-549 | an array item keeps its description and its type is its descriptor's type converted under the name `array item`, whose errors are the item's |
| Schema.IntoField | src/definition.rs:462-486 | a field keeps its name and optionality and its type is its descriptor's type converted under the field's name, whose errors are the field's |
| Schema.IntoFields | src/definition.rs:625-631 | all fields convert in order, or the error is that of the first field that fails |
| Schema.Collect | src/definition.rs:277-286 | a sequence converts exactly when every element does, then element by element in order; otherwise the error is that of the first element that fails |
| Schema.IntoTypeDef | src/definition.rs:333-356 | a type definition converts exactly when its type does under the definition's name, keeping name, description and flags; otherwise it fails with that type's error |
| Schema.IntoMethod | src/definition.rs:397-417 | a method converts exactly when its parameters and its results do; it keeps name, description, flags, handlers and redirect, each parameter and result is its field's conversion, and an error is that of the parameters first, then of the results |
| Schema.IntoDomain | src/definition.rs:266-289 | a domain converts exactly when all its type definitions, commands and events do; it keeps name, description, flags and dependencies, converts each element in place, and an error is the first failure among the types, else the commands, else the events |
| Schema.IntoDefinition | src/definition.rs:221-234 | a definition converts exactly when all its domains do; it keeps its version and converts each domain in place; otherwise the error is that of the first domain that fails |
| Schema.FromType | src/definition.rs:642-732 | the descriptor's `type` is that of the schema type, and it has `$ref` exactly for a reference |
| Schema.FromFields | src/definition.rs:712-720 | one descriptor per field |
| Schema.TypeRoundTrip | src/definition.rs:597-732 | converting a type's descriptor gives the type back under any name |
| Schema.ItemRoundTrip | src/definition.rs:529-566 | an array item survives the trip through its descriptor |
| Schema.FieldsRoundTrip | src/definition.rs:462-507 | a field list survives the trip through its descriptors |
| Schema.MethodRoundTrip | src/definition.rs:397-433 | a method survives the trip through its descriptor |
| Schema.DomainRoundTrip | src/definition.rs:266-305 | a domain survives the trip through its descriptor |
| Schema.DefinitionRoundTrip | src/definition.rs:221-244 | a whole definition survives the trip through its descriptor |
| Schema.OtherKeysIgnored | src/definition.rs:597-639 | keys that the descriptor's `type` does not use have no effect on the conversion |
| Schema.NestedMissingItems | src/definition.rs:529-549 | an array item that is itself an array without `items` is refused under the name `array item` |
| Schema.FieldErrorNamesField | src/definition.rs:462-486 | an object whose first field lacks both `type` and `$ref` is refused with that field's name |
| SchemaJson.PrimitiveNamed | src/definition.rs:567-584 | every one of the seven names stands for the primitive of that name; any other name is an unknown variant naming it |
| SchemaJson.DecodePrimitive | src/definition.rs:567-584 | a primitive reads from each of its seven names, and what it reads was written as its name, either as a string or as the one key of a map whose value is null; any other string is an unknown variant naming that string; a value that is neither string nor map is an error |
| SchemaJson.PrimitiveMapForm | src/definition.rs:567-584 | the map form `{"<name>": null}` decodes to the same primitive |
| SchemaJson.DecodeList | src/definition.rs:216-218 | a JSON array reads as a list exactly when every element reads, element by element in order |
| SchemaJson.KnownKeysOnly | src/definition.rs:435 | an object is accepted exactly when all its keys are declared; otherwise the error names the undeclared keys |
| SchemaJson.DecodeItem | src/definition.rs:508-527 | an item object with an undeclared key is refused naming it; a read item has a description exactly when the key holds a string, and its type is what the type keys read as |
| SchemaJson.DecodeField | src/definition.rs:434-460 | a field object with an undeclared key is refused naming it; one without `name` is refused; a read field carries the `name` string and the type the type keys read as |
| SchemaJson.DecodeTypeDef | src/definition.rs:306-331 | a type definition object with an undeclared key is refused naming it; one without `id` is refused; a read definition carries the `id` string and the type the type keys read as |
| SchemaJson.DecodeMethod | src/definition.rs:377-395 | a method object with an undeclared key is refused naming it; one without `name` is refused; a read method carries the `name` string |
| SchemaJson.DecodeDomain | src/definition.rs:245-263 | a domain object with an undeclared key is refused naming it; one without `domain` is refused; a read domain carries the `domain` string |
| SchemaJson.DecodeVersion | src/definition.rs:35-40 | a version reads exactly from an object whose keys are `major` and `minor`, both strings, and holds those strings |
| SchemaJson.DecodeDefinition | src/definition.rs:214-219 | a definition reads only from an object with exactly `version` and `domains`, holding what those read as |
| SchemaJson.FieldListIsList | src/definition.rs:458-459 | the field list under `properties`, `parameters` and `returns` reads as the generic list of fields |
| SchemaJson.FieldDefaults | src/definition.rs:436-445 | in a read field, each flag is set exactly when its key holds `true`, and the description is present exactly when its key holds a string |
| SchemaJson.TypeDefDefaults | src/definition.rs:308-316 | in a read type definition, each flag is set exactly when its key holds `true`, and the description is present exactly when its key holds a string |
| SchemaJson.MethodDefaults | src/definition.rs:379-394 | in a read method, each flag is set exactly when its key holds `true`, absent lists are empty, and `returns` holds the results |
| SchemaJson.DomainDefaults | src/definition.rs:247-263 | in a read domain, each flag is set exactly when its key holds `true`, and absent dependencies, types, commands and events are empty |
| SchemaJson.TypeKeysJsonRoundTrip | src/definition.rs:446-459 | an object holding what a type descriptor writes under the seven type keys reads back as that descriptor, whatever else it holds |
| SchemaJson.ItemJsonRoundTrip | src/definition.rs:508-527 | an item descriptor reads back from the object it writes |
| SchemaJson.FieldJsonRoundTrip | src/definition.rs:434-460 | a field descriptor reads back from the object it writes |
| SchemaJson.FieldListJsonRoundTrip | src/definition.rs:458-459 | a field list reads back from the array it writes |
| SchemaJson.TypeDefJsonRoundTrip | src/definition.rs:306-331 | a type definition descriptor reads back from the object it writes |
| SchemaJson.MethodJsonRoundTrip | src/definition.rs:377-395 | a method descriptor reads back from the object it writes, its results under `returns` |
| SchemaJson.DomainJsonRoundTrip | src/definition.rs:245-263 | a domain descriptor reads back from the object it writes, its type definitions under `types` |
| SchemaJson.VersionJsonRoundTrip | src/definition.rs:35-40 | a version reads back from the object it writes |
| SchemaJson.DefinitionDescriptorJsonRoundTrip | src/definition.rs:214-219 | a definition descriptor reads back from the object it writes |
| SchemaJson.DeserializeDefinition | src/definition.rs:25-33 | a definition is read as its descriptor and then converted; a read error is returned as is, a conversion error as a custom error carrying the message |
| SchemaJson.DefinitionJsonRoundTrip | src/definition.rs:15-33 | every protocol definition deserializes back from what it serializes to |
| SchemaJson.NameOnlyMethod | src/definition.rs:377-395 | a method object holding only `name` reads with no description, both flags false, every list empty and no redirect |
| SchemaJson.UnknownKeyRefused | src/definition.rs:434-436 | a field object with an undeclared key `kind` is refused with an error naming exactly `kind` |
| Naming.ReplaceUnsafeChars | cdp/src/generate.rs:1038-1046 | a leading `-` becomes `Negative`; any other text is kept; the result never starts with `-` |
| Naming.SnakeCase | cdp/src/generate.rs:1017-1027 | the inflector's snake case of the safe text, with `type` renamed `ty` and `override` renamed `overridden`, so neither keyword is produced |
| Naming.LeadingDashReadsNegative | cdp/src/generate.rs:1017-1046 | both case conversions of `-x` see `Negativex` |
| Naming.SplitQualified | cdp/src/generate.rs:1053-1056 | a split reference is domain, dot, item, both alphanumeric words |
| Naming.SplitQualifiedComplete | cdp/src/generate.rs:1053-1056 | every `Domain.Item` of alphanumeric words is split |
| Naming.SplitQualifiedNeedsDot | cdp/src/generate.rs:1053-1056 | a reference without a dot is not split |
| Naming.ResolveReference | cdp/src/generate.rs:1048-1066 | a qualified reference names the item in its own domain's module, any other the item of the current domain |
| Naming.ResolveQualified | cdp/src/generate.rs:1048-1066 | `Domain.Item` resolves to `::domain::Item` |
| Naming.ResolveReferenceLegacy | src/generate.rs:830-853 | a reference whose Pascal case is the parent's is boxed as `Self`; any other is a module path |
| Naming.LegacyResolvesAlike | src/generate.rs:830-853 | outside self-references, the older resolution gives the path the newer one gives |
| Naming.LegacySelfReferenceFirst | src/generate.rs:841-844 | the self-reference check comes first, even for a qualified reference |
| Naming.CombineParentFieldIdents | cdp/src/generate.rs:1080-1087 | the name is the parent's, followed by the field's Pascal case when there is a field |
| Naming.CombinedNamesDetermineField | cdp/src/generate.rs:1080-1087 | equal combined names under one parent mean equal Pascal-cased fields |
| Deprecation.EscapeForMarkdown | cdp/src/generate.rs:1089-1101 | the result is never shorter, is unchanged on hazard-free text, and puts a backslash before every hazard |
| Deprecation.UnescapeEscape | cdp/src/generate.rs:1089-1101 | unescaping gives the original text back |
| Deprecation.EscapeInjective | cdp/src/generate.rs:1089-1101 | distinct texts escape differently |
| Deprecation.StripDeprecatedPrefix | cdp/src/generate.rs:1112-1136 | the `Deprecated, ` prefix is removed exactly when present |
| Deprecation.ExtractWarning | cdp/src/generate.rs:1112-1136 | a warning exists exactly when the description mentions deprecation (any case) and is not bare `Deprecated.`; it is the escaped text without the prefix |
| Deprecation.PrefixedDescriptionWarns | cdp/src/generate.rs:1112-1136 | `Deprecated, rest` warns with the escaped rest |
| Deprecation.UnrelatedDescriptionIsSilent | cdp/src/generate.rs:1112-1136 | a description that does not mention deprecation gives no warning |
| Deprecation.New | cdp/src/generate.rs:1112-1136 | not deprecated exactly when the flag is off; a warning exactly when deprecated with an extracted warning; never inherited |
| Deprecation.AddParent | cdp/src/generate.rs:1162-1174 | a deprecated parent passes on its deprecation and its warning unless the item has its own warning |
| Deprecation.AddParentIdempotent | cdp/src/generate.rs:1162-1174 | adding the same parent twice changes nothing more |
| Deprecation.AddParentDeprecated | cdp/src/generate.rs:1162-1174 | the result is deprecated exactly when the item or its parent is |
| Deprecation.AddParentWarning | cdp/src/generate.rs:1162-1174 | an own warning is kept; otherwise a deprecated parent's warning is inherited |
| Deprecation.InheritedWarning | cdp/src/generate.rs:1162-1174 | an item without its own warning inherits the warning of a deprecated parent |
| Deprecation.DocDescription | cdp/src/generate.rs:922-930 | the doc text is dropped when the item has its own warning, and otherwise is the escaped description |
| Deprecation.DeprecatedAttr | cdp/src/generate.rs:945-952 | a `deprecated` attribute exactly for deprecated items, with the warning as its note |
| Deprecation.WarningMovesToAttr | cdp/src/generate.rs:910-958 | a warning moves from the doc text into the `deprecated` attribute |
| LegacyDeprecation.New | src/generate.rs:889-910 | not deprecated exactly when the flag is off; a deprecated status carries the extracted warning |
| LegacyDeprecation.AgreesWithNewer | src/generate.rs:883-918 | the older status agrees with the newer one on deprecation and warning |
| Lifetimes.ReferenceGraph.constructor | cdp/src/generate.rs:121-124 | the graph starts with the string node and no edges |
| Lifetimes.ReferenceGraph.ItemIndex | cdp/src/generate.rs:126-138 | the node is added if new, and the edges are unchanged |
| Lifetimes.ReferenceGraph.AddEdge | cdp/src/generate.rs:171-192 | one edge is appended, and the nodes are unchanged |
| Lifetimes.ReferenceGraph.TraverseType | cdp/src/generate.rs:162-214 | the edges of one type are appended: string → parent, referenced item → parent, arrays and objects looked into |
| Lifetimes.ReferenceGraph.TraverseFields | cdp/src/generate.rs:140-160 | the edges of each field are appended in order |
| Lifetimes.ReferenceGraph.TraverseMethods | cdp/src/generate.rs:219-230 | the edges of each method's parameters and results are appended under the method's name |
| Lifetimes.ReferenceGraph.TraverseTypeDefs | cdp/src/generate.rs:231-241 | the edges of each type definition are appended under its name |
| Lifetimes.ReferenceGraph.TraverseDomain | cdp/src/generate.rs:216-242 | the edges of a domain's commands, events and types are appended |
| Lifetimes.ReferenceGraph.UsesLifetimeSet | cdp/src/generate.rs:245-259 | the set holds exactly the items reachable from the string node |
| Lifetimes.GenerateUsesLifetimeSet | cdp/src/generate.rs:120-260 | the set holds exactly the items reachable from the string node in the protocol's reference graph |
| Lifetimes.EdgesEndAtParent | cdp/src/generate.rs:162-214 | every edge of a type ends at its parent's node |
| Lifetimes.ClosedHoldsReachable | cdp/src/generate.rs:247-256 | a node set closed under the edges holds everything reachable from its members |
| LifetimeAgreement.FlagFromEdge | cdp/src/generate.rs:437-461 | an edge of a type from a node in the set means the type expression needs a lifetime |
| LifetimeAgreement.ReachableFromFlag | cdp/src/generate.rs:437-461 | a type expression that needs a lifetime has its parent reachable from the string node |
| LifetimeAgreement.TypeDefLifetimeAgreement | cdp/src/generate.rs:120-260 | for a protocol whose units have distinct fully qualified names and whose same-named references point home, a type definition's expression needs a lifetime exactly when its fully qualified name is in the set reachable from the string node |
| LifetimeAgreement.GeneratedSetAgrees | cdp/src/generate.rs:120-260 | for a protocol whose units have distinct fully qualified names and whose same-named references point home, the set the search builds agrees with a type definition's lifetime flag |
| Generator.TypeExprImplOf | cdp/src/generate.rs:437-603 | the lifetime flag is that of the type; a type without an inline expression declares its combined name last |
| Generator.TypeExprOf | cdp/src/generate.rs:404-435 | the lifetime flag is that of the type |
| Generator.FieldOf | cdp/src/generate.rs:865-908 | the field keeps its JSON name and optionality, gets its snake-case name and its own deprecation, and needs a lifetime exactly when its type does |
| Generator.FieldsOf | cdp/src/generate.rs:564-600 | one field per input field; a lifetime exactly when some field needs one |
| Generator.EnumOf | cdp/src/generate.rs:466-537 | one variant per value, each the value's Pascal case |
| Generator.ReferenceShape | cdp/src/generate.rs:449-461 | a reference is its resolved path, declares nothing, is boxed exactly when it names the parent, and needs a lifetime exactly when its path is in the lifetime set |
| Generator.ScalarShapes | cdp/src/generate.rs:462-465 | boolean, integer, number and any are `bool`, `i32`, `f64` and `Value`; a string is a borrowed string that needs a lifetime |
| Generator.ArrayShape | cdp/src/generate.rs:539-562 | an array is fixed-size exactly when both bounds are given and equal, with that length, otherwise a vector; the item is the item type's expression and the lifetime is the item's |
| Generator.ObjectShape | cdp/src/generate.rs:564-600 | an object without properties is the shared `Empty`; any other object declares one struct of its fields last, under the combined name, with a lifetime exactly when a field needs one |
| Generator.EnumShape | cdp/src/generate.rs:466-537 | an enumeration declares one enum under the combined name with the schema's values in order, and no lifetime |
| Generator.OptionalFieldShape | cdp/src/generate.rs:865-908 | an optional field's type is wrapped in `Option`, any other field's is not |
| Generator.EnumFromStr | cdp/src/generate.rs:514-537 | parsing finds the first variant with that name, and fails exactly for an unknown name, carrying the values and the name |
| Generator.EnumDisplayFromStr | cdp/src/generate.rs:514-537 | a parsed variant displays as the parsed text |
| Generator.EnumFromStrDisplay | cdp/src/generate.rs:514-537 | with distinct values, parsing a variant's display gives the variant back |
| Generator.ResponseName | cdp/src/generate.rs:644-653 | only commands have a response struct |
| Generator.MethodNames | cdp/src/generate.rs:644-653 | a command is `{Name}Command` with `{Name}Response`; an event is `{Name}Event` without a response |
| Generator.MethodStructOf | cdp/src/generate.rs:784-863 | a lifetime exactly when some field needs one; without fields, a unit struct and its impl |
| Generator.DeserializerClaimsOwnName | cdp/src/generate.rs:720-739 | a method's declarations include a deserializer that claims exactly its qualified name `Domain.method` |
| Generator.NoParametersUnitRequest | cdp/src/generate.rs:784-863 | a method without parameters gets a unit request struct and a serializer without lifetime |
| Generator.TypeDefDeclaresItself | cdp/src/generate.rs:351-402 | a type definition's last declaration is under its own name and is deprecated exactly when the type or its domain is |
| Generator.TypeDefs.constructor | cdp/src/generate.rs:282 | the declaration list starts empty |
| Generator.TypeDefs.Push | cdp/src/generate.rs:591-597 | one declaration is appended |
| Generator.GenerateTypeExprImpl | cdp/src/generate.rs:437-603 | appends the declarations of the type's shape and returns its expression and lifetime flag |
| Generator.GenerateTypeExpr | cdp/src/generate.rs:404-435 | appends the declarations and returns the expression and lifetime flag of the type's shape |
| Generator.GenerateField | cdp/src/generate.rs:865-908 | returns the field's shape, appends its declarations and updates the lifetime flag |
| Generator.GenerateFields | cdp/src/generate.rs:573-588 | the loop over the fields gives their shapes and lifetime flag |
| Generator.GenerateMethodStruct | cdp/src/generate.rs:784-863 | appends the method struct's declarations and returns its lifetime flag |
| Generator.GenerateRequest | cdp/src/generate.rs:678-739 | appends the request declarations; the lifetime flag is that of the parameters |
| Generator.GenerateResponse | cdp/src/generate.rs:741-781 | appends the response declarations |
| Generator.GenerateMethod | cdp/src/generate.rs:634-782 | appends the method's declarations |
| Generator.GenerateTypeDef | cdp/src/generate.rs:351-402 | appends the type definition's declarations |
| Generator.GenerateMethods | cdp/src/generate.rs:277-349 | the loop appends every method's declarations in order |
| Generator.GenerateTypeDefs | cdp/src/generate.rs:277-349 | the loop appends every type definition's declarations in order |
| Generator.GenerateDomain | cdp/src/generate.rs:277-349 | builds the domain's module |
| Generator.MethodsDeclsInclude | cdp/src/generate.rs:277-349 | every declaration of every method is in the domain's list |
| Generator.DomainDeserializesEveryMethod | cdp/src/generate.rs:634-782 | the domain module holds, for each command and event, a deserializer that claims exactly its qualified name |
| Generator.MergeProtocols | cdp/src/generate.rs:53-59 | protocols with different versions are refused; otherwise the browser domains are followed by the JavaScript domains |
| LegacyGenerator.TypeExprImplOf | src/generate.rs:332-436 | a declaration is needed exactly for an enumeration or an object with fields, and it is declared last under the combined name |
| LegacyGenerator.TypeExprOf | src/generate.rs:300-330 | the declarations are those of the type's shape |
| LegacyGenerator.FieldOf | src/generate.rs:689-734 | the field keeps its JSON name and optionality, gets its snake-case name and deprecation, and is public exactly outside an event variant |
| LegacyGenerator.FieldsOf | src/generate.rs:409-423 | one field per input field, each that field's shape |
| LegacyGenerator.SameShapeAsNewer | src/generate.rs:332-436 | apart from owned strings, the older generator gives every type the newer shape |
| LegacyGenerator.StringsAreOwned | src/generate.rs:350 | a string field is an owned `String` |
| LegacyGenerator.ParamsStruct | src/generate.rs:500-505 | a params struct exactly for a command with parameters |
| LegacyGenerator.ResponseStruct | src/generate.rs:506-511 | a response struct exactly for a command with results |
| LegacyGenerator.ParseCommand | src/generate.rs:129-137 | the first arm whose name matches, and none exactly when no arm has that name |
| LegacyGenerator.JoinWellFormed | src/generate.rs:80-171 | joining two well-formed tables keeps every variant matched with its name arm |
| LegacyGenerator.MethodsWellFormed | src/generate.rs:478-687 | the tables of a domain's methods are well formed |
| LegacyGenerator.GeneratedTablesWellFormed | src/generate.rs:80-171 | the generated tables are well formed |
| LegacyGenerator.CommandTables | src/generate.rs:590-615 | a command adds its parse arm and name arm under its qualified name, and no event |
| LegacyGenerator.EventTables | src/generate.rs:556-599 | an event adds one variant with non-public fields exactly when it has parameters, and nothing to the command tables |
| LegacyGenerator.CommandVariants | src/generate.rs:556-637 | a command's variant and response carry a tuple exactly when it has parameters or results |
| LegacyGenerator.DomainParseArms | src/generate.rs:173-254 | a domain's parse arms are those of its commands |
| LegacyGenerator.WsOfParseArms | src/generate.rs:80-171 | the parse arms are those of the domains in order |
| LegacyGenerator.ParseArmForEveryCommand | src/generate.rs:80-171 | every command of every domain has a parse arm |
| LegacyGenerator.ParseArmsAreCommands | src/generate.rs:600-615 | every parse arm is a command of some domain |
| LegacyGenerator.ParseCommandRecognisesCommands | src/generate.rs:129-137 | `parse_command` recognises exactly the qualified command names |
| LegacyGenerator.WsOutput.constructor | src/generate.rs:84-94 | all the tables start empty |
| LegacyGenerator.WsOutput.AddMethod | src/generate.rs:590-636 | the method's table entries are appended |
| LegacyGenerator.WsOutput.AddModule | src/generate.rs:248-253 | the domain's module is appended |
| LegacyGenerator.GenerateMethod | src/generate.rs:478-687 | appends the method's table entries and returns its declarations |
| LegacyGenerator.GenerateMethods | src/generate.rs:192-224 | the loop appends every method's entries and declarations in order |
| LegacyGenerator.GenerateDomain | src/generate.rs:173-254 | appends the domain's commands, events and module |
| LegacyGenerator.GenerateWs | src/generate.rs:80-171 | the tables of all domains, and they are well formed |
| Derive.CdpAttrs | cdp-derive/src/lib.rs:264-286 | exactly the `cdp` attributes |
| Derive.MethodNameFromSpec | cdp-derive/src/lib.rs:264-286 | name extraction succeeds exactly when every `cdp` attribute has the `#[cdp = "..."]` form and at most one name is given in all; the name is that attribute's text, else the one already found |
| Derive.ExtractMethodName | cdp-derive/src/lib.rs:264-286 | the attribute loop computes the name extraction |
| Derive.MaxLength | cdp-derive/src/lib.rs:121-126 | the longest lifetime name's length, 0 for none |
| Derive.GenericsOf | cdp-derive/src/lib.rs:118-137 | the new `'<prefix>de` and `'<prefix>a` lifetimes (the prefix is underscores, one fewer than the longest existing lifetime name) are longer than every existing one, so they never clash; `'<prefix>de` is quantified first, before the existing lifetimes in order |
| Derive.ArmSink.constructor | cdp-derive/src/lib.rs:57-59 | no arms, no wildcard and no bounds yet |
| Derive.GenerateArm | cdp-derive/src/lib.rs:140-262 | one variant adds its arm or wildcard and bounds, or fails with its error and changes nothing |
| Derive.GenerateImpl | cdp-derive/src/lib.rs:40-116 | the variant loop computes the derived impl |
| Derive.DeriveAccepts | cdp-derive/src/lib.rs:52-71 | the derive succeeds exactly for an enum whose variants are all accepted and whose only wildcard is last |
| Derive.ArmsFromArms | cdp-derive/src/lib.rs:140-262 | one arm per variant in order, except a last wildcard variant, which becomes the fallback |
| Derive.FirstMatch | cdp-derive/src/lib.rs:108-111 | the first arm whose pattern matches the name |
| Derive.Dispatch | cdp-derive/src/lib.rs:108-111 | a claiming arm matches the name; the impl declines exactly without a wildcard and without a matching arm; the params are passed on |
| Derive.DerivedArms | cdp-derive/src/lib.rs:57-71 | a derived impl has one arm per non-wildcard variant, in order, with the last wildcard as fallback |
| Derive.DerivedDispatch | cdp-derive/src/lib.rs:83-111 | the derived impl builds the first variant that answers the name, else the wildcard, else it declines |

## Left out

- The borrowed and owned forms of messages and their conversions (`Cow`, `into_owned`). The model has one form of each value.
- JSON text is not parsed or printed. JSON is an abstract value; numbers are integers and floating point is not modelled.
- I/O is left out: sockets, files, futures, the tokio event loop, hyper's connection handling and the WebSocket handshake itself.
- Serde's derived decoders visit an object's keys in input order and stop at the first error; the model reads a map, which has no order. So when several keys are wrong at once, the model does not say which error is reported. In the model an undeclared key is reported before any other error.
- Duplicate keys in the records of `src/definition.rs` (serde's `duplicate_field` error) are not modelled, because a JSON object there is a map. The page and client-message decoders read entry lists and do model them.
- Key order in serialized output is not modelled; an object is the map of the keys written.
- SchemaJson.DecodeU64: an integer outside the u64 range is reported as a type error. Serde reports an invalid value.
- Pages.DecodePageType, TokioGreeter.DecodeTargetKind, SchemaJson.DecodePrimitive: the errors are those serde_json gives when it decodes an already parsed value. Decoding straight from text reports a map without exactly one key as a syntax error instead, and that error kind is not modelled.
- Discovery.DecodeVersionInfo: when several fields are missing, the model does not say which one serde reports first.
- Pages.PageSeqRoundTrip: extra trailing elements in the sequence form are not modelled.
- Lifetimes.ReferenceGraph: petgraph node indices are replaced by the nodes' fully qualified paths. Its depth-first search is modelled as a worklist search, which visits the same set.
- The generated documentation: the index markdown, usage notes and method notes.
- The `Target` and `BrowserInfo` records of the discovery interface are not modelled.
- Naming.SnakeCase: the inflector crate's conversions are an uninterpreted parameter, so only what the generator adds around them is stated.
- LifetimeAgreement.TypeDefLifetimeAgreement: proved under two hypotheses. First, no two units may share a fully qualified name. Second, a reference whose Pascal case equals its parent's must resolve to the parent's own path. The second excludes protocols the generator accepts. Take a type `BFoo` in domain `A` whose field is `$ref: "B.Foo"`. The reference's Pascal case is `BFoo`, so the graph traversal adds no edge for it (cdp/src/generate.rs:178-192). The flag side still looks up `b::Foo` in the set (cdp/src/generate.rs:449-461). So when `b::Foo` needs `'a`, `a::BFoo`'s expression needs it too, yet `a::BFoo` is not in the set. The agreement is not claimed for such protocols.
- LifetimeAgreement.GeneratedSetAgrees: proved under the same two hypotheses as LifetimeAgreement.TypeDefLifetimeAgreement, so the same cross-domain case is excluded.
- Derive.GenerateImpl: the token text, spacing and hygiene of the generated impl, and the decoding of params by the generated arms.
- Generator.GenerateDomain: emitted code is modelled by its shape (declarations, arms, types), not its text.
- WebSocket.ClientMessageMapAccess.NextEntry: a forwarded key and its value are handed on as they are. The errors the inner command parser's seeds could raise on them are not modelled. An `id` that is not a u64 gives one error kind, a type error, where serde would separate a wrong type from an out-of-range number.
- Protocol.MethodNotFoundWire: the other error constructors (`invalid_message` and friends) are plain functions without a stated contract.
- TokioGreeter.UnknownCommandAnswer: the not-found reply carries a body even for a HEAD request, because the source does not consult `can_send_body` there. It is modelled as written.

## Findings

| source | as written | input that shows it | evidently intended | confidence | as-written member | corrected member |
|---|---|---|---|---|---|---|
| src/websocket.rs:891-901 | the untagged `ServerMessageImpl` lists the general failure before the failed response, so `{"id", "error"}` decodes as a general error | the serialized response `Err` with id 7, i.e. `{"id": 7, "error": {...}}` | try the responses first, as the JSON variant does, so that a failed response keeps its id | not executed | WebSocket.FailedResponseLosesId | WebSocket.ServerMessageRoundTrip |
| src/greeter.rs:550-560, src/greeter.rs:462-464, src/http.rs:214-215, src/http.rs:307-308 | with only one of the two URLs present, `missing_field` names the URL that is present, in the map and the sequence decoders of both copies | a page map with `webSocketDebuggerUrl` and no `devtoolsFrontendUrl` reports `missing field "webSocketDebuggerUrl"`; so does the array `[null, null, null, "0", "t", "page", "u", "ws://h/devtools/page/0"]` | name the URL that is absent | not executed | Pages.AsWrittenBlamesPresentUrl, Pages.SeqAsWrittenBlamesPresentUrl | Pages.MissingFieldIsAbsent |
