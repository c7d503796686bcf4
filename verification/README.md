# decentralized-lambda-runtime, modelled in Dafny

The runtime is a local stand-in for a function-as-a-service harness. It reads
one JSON event from a fixed input file and decodes it into the handler's
request type. It calls the handler with the decoded event and an (empty)
invocation context. It then turns the handler's outcome into one of two
response envelopes:

- a success, status 200, whose body is the handler's value encoded as it is;
- a failure, status 500, whose body is `{"errorType": …, "errorMsg": …}`.

A read or decode failure skips the handler and is reported with a failure
envelope. `run_handler` still returns `Ok(())` in that case.

The model is pure and functional:

- `results.dfy`: `Result` and `Option`.
- `json.dfy`: JSON values, `serde_json::Error`, `from_slice`, and what
  serde's derived `Serialize`/`Deserialize` do for structs whose fields are
  all strings.
- `types.dfy`: `Context`, `LambdaEvent`, the boxed `Error` and `std::io::Error`.
- `response.rs` is modelled by `response.dfy`: `Diagnostics`, `EventSuccess`,
  `EventError`, their `into_rsp`, and the `Envelope` sum of the two.
- `lib.dfy`: `Config`, `run_handler` (`RunHandler`), `run` (`RunDefault`),
  `build_event_error_request`.
- `lifecycle.dfy`: the dispatcher as a step-by-step state machine, proved
  to agree with `RunHandler`.
- `example.dfy`: the example's `Request`, `Response` and `my_handler`, and
  the end-to-end "Hello, world" run.

Collaborators outside the runtime are fields of a `Host` record of total
functions that every lemma quantifies over:

- `fs::read` of a path;
- `serde_json::from_slice` for the request type;
- the response type's `Serialize`;
- `type_name_of_val` for each of the three error types.

A run returns a `Run` record. It holds the envelope built, the event the
handler was invoked with (if it was), the result of `into_rsp`, and what
`run_handler` returns.

Notes on the source:

- `src/lib.rs:10` re-exports `EventError`, `EventSuccess` and `IntoResponse`
  from `types`. They are defined in `src/response.rs`, which no `mod`
  declaration brings in. The model takes `src/response.rs` as their definition.
- The example's header comment asks for an input with key `"command"`, but
  the request struct's field is `name`. The model follows the struct.
- Serializing `Diagnostics` (two strings) cannot fail, and the response
  builder with the literal status 200 or 500 cannot fail either. So
  `EventError::into_rsp` always succeeds. The `?` after
  `build_event_error_request` (`src/lib.rs:39`, `src/lib.rs:48`) is modelled,
  but `RunHandlerNeverFails` proves it never passes an error on: every run
  returns `Ok(())`.
- A handler error is reported with the fixed message `"Panic"`, not with the
  error's own text. A read or decode error is reported with its `Display`
  rendering. The model keeps this difference as written.

## Model

| member | source | states |
|---|---|---|
| Runtime.DefaultConfig | src/lib.rs:18-24 | the default configuration reads `/input/inputs.json` and names `/output/outputs.json` as output, two different paths |
| Runtime.RunDefault | src/lib.rs:74-83 | `run` is `run_handler` applied to the default configuration |
| Runtime.RunDefaultReadsOnlyDefaultInput | src/lib.rs:81-82 | `run` depends on the file system only through what is read at `/input/inputs.json` |
| Runtime.OutputPathIsUnused | src/lib.rs:68-71 | the output path has no effect on a run: the response is never persisted |
| Runtime.RunHandler | src/lib.rs:27-72 | the handler is invoked iff read and decode succeed, and then with the decoded payload and a new context; the envelope is the classified handler result, or a failure otherwise; the response is that envelope's `into_rsp`; `Err` is returned only from a short-circuit whose report failed |
| Runtime.AfterReport | src/lib.rs:39-41 | after a read or decode failure the run returns `Err` exactly when building the report failed, with that error, and `Ok(())` otherwise |
| Runtime.Classify | src/lib.rs:54-65 | handler `Ok(t)` becomes a success carrying exactly `t`; `Err(e)` becomes a failure with `e`'s type name and the message "Panic" |
| Runtime.ErrorEventOf | src/lib.rs:93-96 | the report of an early error carries the error's type name and its `Display` rendering |
| Runtime.BuildEventErrorRequest | src/lib.rs:89-97 | building the error response always succeeds, with status 500 and as body exactly the `{"errorType", "errorMsg"}` object of the error's type name and rendering, which decodes back to them |
| Runtime.ReadFailureShortCircuits | src/lib.rs:36-42 | on a read failure the handler is not invoked, the response is exactly a 500 whose body is the `{"errorType", "errorMsg"}` object of the I/O error's type name and rendering, and the run returns `Ok(())` |
| Runtime.DecodeFailureShortCircuits | src/lib.rs:45-52 | on a decode failure the handler is not invoked, the response is exactly a 500 whose body is the `{"errorType", "errorMsg"}` object of the decode error's type name and rendering, and the run returns `Ok(())` |
| Runtime.HandlerOkIsSuccess | src/lib.rs:54-55 | a handler `Ok(t)` gives a success envelope with body `t`, a 200 response with `t`'s encoding when it serializes, the serialization error otherwise, and `Ok(())` in both cases |
| Runtime.HandlerErrIsPanic | src/lib.rs:56-64 | a handler `Err(e)` gives exactly a 500 response whose body is the `{"errorType", "errorMsg"}` object of `e`'s type name and the message "Panic", and the run returns `Ok(())` |
| Runtime.HandlerErrorContentsAreDropped | src/lib.rs:56-64 | two handler errors with the same type name give identical runs: nothing of the error's contents is reported |
| Runtime.HandlerConsultedOnlyAtEvent | src/lib.rs:34-54 | the handler is consulted only at the event built from the decoded payload and the new context: handlers that agree there give the same run, and when reading or decoding fails any two handlers give the same run |
| Runtime.RunHandlerNeverFails | src/lib.rs:36-71 | every run returns `Ok(())`; when the handler is not invoked a response always exists |
| Lifecycle.Step | src/lib.rs:34-71 | every phase but `Done` moves on |
| Lifecycle.ExecuteTerminates | src/lib.rs:27-72 | from any phase the machine reaches `Done` within the bound of steps it is given: no loop and no retry |
| Lifecycle.ExecuteAgreesWithRunHandler | src/lib.rs:27-72 | running the state machine read → decode → invoke → respond from `Idle` ends in exactly the run `RunHandler` computes |
| Json.FromSlice | src/lib.rs:45 | decoding fails with the parser's error when the text does not parse, and is otherwise the request type's deserialization of the parsed value |
| Json.Collect | src/response.rs:28-33 | a derived struct decoder succeeds iff every field was seen, returning the seen values in declaration order; otherwise it reports the first missing field in declaration order |
| Json.VisitSeq | src/response.rs:28-33 | the array form of a struct decodes iff it has exactly one string per field, and yields those strings in order |
| Json.SerializeStruct | src/response.rs:28-33 | a struct of strings encodes as an object whose keys are exactly the field names in declaration order, each holding its field's string |
| Json.DeserializeStruct | src/response.rs:28-33 | a struct decodes from an object by visiting its entries with no field seen yet, or from an array by the positional visitor (iff it holds exactly one string per field); any other value is rejected; the result has one value per field |
| Json.VisitMap | src/response.rs:28-33 | an object decodes only when every entry naming a field holds a string, no field is given twice, and every field is seen or named (a missing field fails); each field takes the string of the entry that names it |
| Json.VisitMapAccepts | src/response.rs:28-33 | an object decodes whenever each field is named at most once, by an entry holding a string, and every field is seen or named, in any key order and with unknown keys anywhere |
| Json.VisitMapSkipsUnknownKey | src/response.rs:28-33 | an entry whose key is not a field is skipped, whatever value it holds |
| Responses.DeserializeDiagnostics | src/response.rs:28-33 | diagnostics decode iff the derived decoder for the keys `errorType` and `errorMsg` succeeds, taking the two strings in that order |
| Json.StructRoundTrip | src/response.rs:28-33 | deserializing a serialized struct of strings gives its field values back |
| Responses.SerializeDiagnostics | src/response.rs:28-33 | diagnostics encode as an object with exactly the keys `errorType`, `errorMsg`, holding the two strings |
| Responses.DiagnosticsRoundTrip | src/response.rs:28-33 | encoding diagnostics and decoding them again recovers both strings |
| Responses.EventError.New | src/response.rs:41-48 | `EventError::new` stores the type and message unchanged |
| Responses.EventSuccess.IntoRsp | src/response.rs:20-24 | a success responds iff its body serializes: status 200 and the body's own encoding with no wrapper key, or the serialization error |
| Responses.EventError.IntoRsp | src/response.rs:52-56 | a failure always responds with status 500 and a body holding only the keys `errorType` and `errorMsg`, which decodes back to the diagnostics |
| Responses.Envelope.IntoRsp | src/response.rs:16-56 | a failure always responds, with status 500 and as body exactly the `{"errorType", "errorMsg"}` object of its diagnostics, which decodes back to them; a success responds iff its body serializes, with status 200 and exactly the body's encoding (the envelope `src/lib.rs:54-66` prints) |
| Responses.StatusIsDeterminedByVariant | src/response.rs:16-56 | the status is 200 iff the envelope is a success and 500 iff it is a failure; no other status occurs |
| Responses.SuccessBodyRoundTrip | src/response.rs:20-24 | when the response type's codec round-trips, decoding a success body gives back the handler's value |
| Types.ContextsAreEqual | src/types.rs:1-7 | any two contexts are equal, and equal to `Context::new()` |
| Types.NewLambdaEvent | src/types.rs:15-19 | `LambdaEvent::new` keeps the payload and the context unchanged |
| Types.LambdaEventFromParts | src/types.rs:16-18 | rebuilding an event from its payload and context gives the same event |
| Example.DeserializeRequest | example/src/main.rs:10-13 | a request decodes iff the derived struct decoder for the single field `name` succeeds, and carries that string |
| Example.SerializeResponse | example/src/main.rs:19-22 | a response always encodes, as an object with the single key `msg` holding its message |
| Example.MyHandler | example/src/main.rs:29-40 | `my_handler` always returns `Ok`, with a message that is "Hello, " followed by the payload's name |
| Example.MyHandlerReadsOnlyName | example/src/main.rs:29-36 | events with the same name get the same answer, whatever their context |
| Example.MyHandlerIsInjective | example/src/main.rs:31-35 | equal answers come from equal names: the name can be read back from the greeting |
| Example.HelloWorld | example/src/main.rs:31-35 | with input `{"name": "world"}`, `run` with `my_handler` invokes it once and responds 200 with exactly `{"msg": "Hello, world"}`, returning `Ok(())` |

## Left out

- File and console I/O: `fs::read` is the host's `read`, and the `println!`
  calls (`src/lib.rs:40`, `src/lib.rs:49`, `src/lib.rs:69`) are not modelled.
- Writing the response to the output path: the source never does it.
- JSON text: the body is the JSON value that `serde_json::to_vec` would
  write, and parsing is the host's `parse`/`fromSlice`. String escaping,
  number formats and the line and column serde_json attaches to its error
  messages are not modelled. Borrowed `&str` fields, which fail to decode
  from a string containing escapes, are decoded like owned strings.
- JsonError.Display: the wording approximates serde's messages. An
  invalid-type message names only the expected kind, not the unexpected value.
- Json.VisitSeq: the error for surplus array elements carries the wording of
  `serde_json::Value`'s deserializer ("fewer elements in array"); reading
  from bytes, serde_json reports them through its end-of-value check instead.
- `http::Response` and `hyper::Body`: a response is a status and a body.
  The builder's own failure cannot occur with the literal statuses used.
- `std::any::type_name`: the host supplies a name for each error. In Rust
  the name depends only on the error's type (a reference type, `&E`); the
  model lets it depend on the value, which only makes the lemmas more general.
- `Box<dyn Error + Send + Sync>` trait objects: an error is a value with a
  display string.
- The commented-out panic-message code at `src/lib.rs:59-63`.
- The handler is a total function that always returns. In Rust a handler
  that panics unwinds out of `run_handler` and `run`, because nothing catches
  the unwind at `src/lib.rs:54`; the message "Panic" is attached only to a
  returned `Err`. A handler that never returns blocks the run forever.
- Runtime.RunHandlerNeverFails: holds only for handlers that return; a
  panicking handler ends the run by unwinding, without any result.
- Lifecycle.ExecuteTerminates: holds only for handlers that return; the
  invoking step stands for a call that comes back.
- The example's `main` (`example/src/main.rs:24-27`): it only calls `run`.
- Types.NewContext: carries no contract, because a `Context` has a single
  value and nothing about it can be stated; `Types.ContextsAreEqual` states
  the property instead.
