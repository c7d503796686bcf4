/**
  The dispatcher (src/lib.rs): read the input, decode it, invoke the handler,
  and turn the outcome into a response envelope.
*/
module Runtime {
  import opened Results
  import opened Json
  import opened Types
  import opened Responses

  /** Where the event is read from and where the result would be written. */
  datatype Config = Config(inputPath: string, outputPath: string)

  const DefaultInputPath: string := "/input/inputs.json"
  const DefaultOutputPath: string := "/output/outputs.json"

  /** `Config::default`: the fixed input and output locations. */
  function DefaultConfig(): (c: Config)
    ensures c.inputPath == DefaultInputPath && c.outputPath == DefaultOutputPath
    ensures c.inputPath != c.outputPath
  {
    Config(DefaultInputPath, DefaultOutputPath)
  }

  /** The message a handler error is reported with, whatever the error is. */
  const PanicMessage: string := "Panic"

  /**
    What a run reaches outside the runtime's own code, for a handler taking an
    `A`, returning a `T` or failing with an `E`:
    - `read`: `fs::read` of a path;
    - `fromSlice`: `serde_json::from_slice::<A>`;
    - `serialize`: `T`'s `Serialize`, as used by `serde_json::to_vec`;
    - `ioTypeName`, `jsonTypeName`, `errorTypeName`: `type_name_of_val` of a
      reference to an I/O error, a decode error and a handler error.
  */
  datatype Host<A, -T, -E> = Host(
    read: string -> Result<Bytes, IoError>,
    fromSlice: Bytes -> Result<A, JsonError>,
    serialize: T -> Result<Json, JsonError>,
    ioTypeName: IoError -> string,
    jsonTypeName: JsonError -> string,
    errorTypeName: E -> string)

  /**
    Everything one run does: the envelope it builds, the event the handler was
    invoked with (`None` when it was not invoked), the response `into_rsp`
    produced for that envelope, and what `run_handler` returns.
  */
  datatype Run<A, T> = Run(
    envelope: Envelope<T>,
    invocation: Option<LambdaEvent<A>>,
    response: Result<HttpResponse, JsonError>,
    result: Result<(), JsonError>)
  {
    /** The status of the response, when one was produced. */
    function Status(): (status: Option<int>) {
      match response
      case Ok(rsp) => Some(rsp.status)
      case Err(_) => None
    }
  }

  /** The failure envelope for an error met before the handler runs: its type
      name and its `Display` rendering. */
  function ErrorEventOf<X>(err: X, typeName: X -> string, display: X -> string): (e: EventError)
    ensures e.diagnostic == Diagnostics(typeName(err), display(err))
  {
    EventError.New(typeName(err), display(err))
  }

  /** `build_event_error_request`: the response reporting `err`, a status 500
      whose body decodes to the error's type name and rendering. */
  function BuildEventErrorRequest<X>(err: X, typeName: X -> string, display: X -> string)
    : (r: Result<HttpResponse, JsonError>)
    ensures r.Ok? && r.value.status == ErrorStatus
    ensures DeserializeDiagnostics(r.value.body) == Ok(Diagnostics(typeName(err), display(err)))
    ensures r.value.body == SerializeDiagnostics(Diagnostics(typeName(err), display(err)))
  {
    ErrorEventOf(err, typeName, display).IntoRsp()
  }

  /** What `run_handler` returns once reading or decoding failed: the `?`
      after `build_event_error_request` passes its error on, and otherwise the
      run ends with `Ok(())`. */
  function AfterReport(response: Result<HttpResponse, JsonError>): (result: Result<(), JsonError>)
    ensures result.Err? <==> response.Err?
    ensures response.Err? ==> result.error == response.error
  {
    match response
    case Err(e) => Err(e)
    case Ok(_) => Ok(())
  }

  /** A read or decode failure: the report `build_event_error_request`
      builds, recorded with the envelope it encodes; the handler is not
      invoked. */
  function ReportEarlyError<A, T, X>(err: X, typeName: X -> string, display: X -> string): (run: Run<A, T>)
    ensures run.invocation.None? && run.envelope.Failure?
    ensures run.envelope.failure.diagnostic == Diagnostics(typeName(err), display(err))
    ensures run.response == run.envelope.failure.IntoRsp() && run.result == Ok(())
  {
    var failure := ErrorEventOf(err, typeName, display);
    var response := BuildEventErrorRequest(err, typeName, display);
    Run(Failure(failure), None, response, AfterReport(response))
  }

  /** The envelope a handler's result becomes: `Ok(t)` a success carrying
      `t`, `Err(e)` a failure naming `e`'s type with the fixed message. */
  function Classify<T, E>(outcome: Result<T, E>, errorTypeName: E -> string): (env: Envelope<T>)
    ensures outcome.Ok? <==> env.Success?
    ensures outcome.Ok? ==> env.success.body == outcome.value
    ensures outcome.Err? ==> env.failure.diagnostic == Diagnostics(errorTypeName(outcome.error), PanicMessage)
  {
    match outcome
    case Ok(t) => Success(EventSuccess(t))
    case Err(e) => Failure(EventError.New(errorTypeName(e), PanicMessage))
  }

  /**
    `run_handler`. The handler is invoked exactly when the input was read and
    decoded, and then with the decoded payload and a fresh context. A handler
    result is never propagated: the run returns `Err` only when the report of
    a read or decode failure could not be built.
  */
  function RunHandler<A, T, E>(handler: LambdaEvent<A> -> Result<T, E>, config: Config,
                               host: Host<A, T, E>): (run: Run<A, T>)
    ensures run.invocation.Some? <==>
              host.read(config.inputPath).Ok? && host.fromSlice(host.read(config.inputPath).value).Ok?
    ensures run.invocation.Some? ==>
              run.invocation.value == LambdaEvent(host.fromSlice(host.read(config.inputPath).value).value, NewContext())
    ensures run.invocation.Some? ==> run.envelope == Classify(handler(run.invocation.value), host.errorTypeName)
    ensures run.invocation.None? ==> run.envelope.Failure?
    ensures run.response == run.envelope.IntoRsp(host.serialize)
    ensures run.result.Err? ==> run.invocation.None? && run.response.Err?
  {
    var ctx := NewContext();
    match host.read(config.inputPath)
    case Err(err) =>
      ReportEarlyError(err, host.ioTypeName, (e: IoError) => e.display)
    case Ok(bytes) =>
      match host.fromSlice(bytes)
      case Err(err) =>
        ReportEarlyError(err, host.jsonTypeName, (e: JsonError) => e.Display())
      case Ok(payload) =>
        var event := NewLambdaEvent(payload, ctx);
        var envelope := Classify(handler(event), host.errorTypeName);
        Run(envelope, Some(event), envelope.IntoRsp(host.serialize), Ok(()))
  }

  /** `run`: the dispatcher with the default configuration. */
  function RunDefault<A, T, E>(handler: LambdaEvent<A> -> Result<T, E>, host: Host<A, T, E>): (run: Run<A, T>)
    ensures run == RunHandler(handler, DefaultConfig(), host)
  {
    RunHandler(handler, DefaultConfig(), host)
  }

  /** `run` looks at no file but the default input: two hosts that read the
      same there, and agree otherwise, give the same run. */
  lemma RunDefaultReadsOnlyDefaultInput<A, T, E>(handler: LambdaEvent<A> -> Result<T, E>,
                                                 host1: Host<A, T, E>, host2: Host<A, T, E>)
    requires host1.read(DefaultInputPath) == host2.read(DefaultInputPath)
    requires host1.fromSlice == host2.fromSlice && host1.serialize == host2.serialize
    requires host1.ioTypeName == host2.ioTypeName && host1.jsonTypeName == host2.jsonTypeName
    requires host1.errorTypeName == host2.errorTypeName
    ensures RunDefault(handler, host1) == RunDefault(handler, host2)
  {
  }

  /** The output path is never used: nothing is persisted. */
  lemma OutputPathIsUnused<A, T, E>(handler: LambdaEvent<A> -> Result<T, E>, inputPath: string,
                                    out1: string, out2: string, host: Host<A, T, E>)
    ensures RunHandler(handler, Config(inputPath, out1), host) == RunHandler(handler, Config(inputPath, out2), host)
  {
  }

  /** A read failure: no invocation, a status-500 report naming the I/O
      error's type and carrying its rendering, and `Ok(())`. */
  lemma ReadFailureShortCircuits<A, T, E>(handler: LambdaEvent<A> -> Result<T, E>, config: Config,
                                          host: Host<A, T, E>, err: IoError)
    requires host.read(config.inputPath) == Err(err)
    ensures var run := RunHandler(handler, config, host);
      && run.invocation == None
      && run.envelope == Failure(EventError(Diagnostics(host.ioTypeName(err), err.display)))
      && run.Status() == Some(ErrorStatus)
      && run.response == Ok(HttpResponse(ErrorStatus, SerializeDiagnostics(Diagnostics(host.ioTypeName(err), err.display))))
      && DeserializeDiagnostics(run.response.value.body) == Ok(Diagnostics(host.ioTypeName(err), err.display))
      && run.result == Ok(())
  {
  }

  /** A decode failure: no invocation, a status-500 report naming the decode
      error's type and carrying its rendering, and `Ok(())`. */
  lemma DecodeFailureShortCircuits<A, T, E>(handler: LambdaEvent<A> -> Result<T, E>, config: Config,
                                            host: Host<A, T, E>, bytes: Bytes, err: JsonError)
    requires host.read(config.inputPath) == Ok(bytes)
    requires host.fromSlice(bytes) == Err(err)
    ensures var run := RunHandler(handler, config, host);
      && run.invocation == None
      && run.envelope == Failure(EventError(Diagnostics(host.jsonTypeName(err), err.Display())))
      && run.Status() == Some(ErrorStatus)
      && run.response == Ok(HttpResponse(ErrorStatus, SerializeDiagnostics(Diagnostics(host.jsonTypeName(err), err.Display()))))
      && DeserializeDiagnostics(run.response.value.body) == Ok(Diagnostics(host.jsonTypeName(err), err.Display()))
      && run.result == Ok(())
  {
  }

  /** A handler `Ok(t)`: a success whose response, when `t` serializes, is
      status 200 with exactly `t`'s encoding; when it does not, the failure is
      in the response and the run still returns `Ok(())`. */
  lemma HandlerOkIsSuccess<A, T, E>(handler: LambdaEvent<A> -> Result<T, E>, config: Config,
                                    host: Host<A, T, E>, bytes: Bytes, payload: A, t: T)
    requires host.read(config.inputPath) == Ok(bytes)
    requires host.fromSlice(bytes) == Ok(payload)
    requires handler(LambdaEvent(payload, Context)) == Ok(t)
    ensures var run := RunHandler(handler, config, host);
      && run.invocation == Some(LambdaEvent(payload, Context))
      && run.envelope == Success(EventSuccess(t))
      && (host.serialize(t).Ok? ==> run.response == Ok(HttpResponse(SuccessStatus, host.serialize(t).value)))
      && (host.serialize(t).Err? ==> run.response == Err(host.serialize(t).error))
      && run.result == Ok(())
  {
  }

  /** A handler `Err(e)`: a status-500 report whose type is `e`'s type name and
      whose message is "Panic", whatever `e` renders as. */
  lemma HandlerErrIsPanic<A, T, E>(handler: LambdaEvent<A> -> Result<T, E>, config: Config,
                                   host: Host<A, T, E>, bytes: Bytes, payload: A, e: E)
    requires host.read(config.inputPath) == Ok(bytes)
    requires host.fromSlice(bytes) == Ok(payload)
    requires handler(LambdaEvent(payload, Context)) == Err(e)
    ensures var run := RunHandler(handler, config, host);
      && run.invocation == Some(LambdaEvent(payload, Context))
      && run.envelope == Failure(EventError(Diagnostics(host.errorTypeName(e), PanicMessage)))
      && run.Status() == Some(ErrorStatus)
      && run.response == Ok(HttpResponse(ErrorStatus, SerializeDiagnostics(Diagnostics(host.errorTypeName(e), PanicMessage))))
      && DeserializeDiagnostics(run.response.value.body) == Ok(Diagnostics(host.errorTypeName(e), PanicMessage))
      && run.result == Ok(())
  {
  }

  /** Two handler errors with the same type name are reported identically:
      the error's own contents never reach the report. */
  lemma HandlerErrorContentsAreDropped<A, T, E>(handler1: LambdaEvent<A> -> Result<T, E>,
                                                handler2: LambdaEvent<A> -> Result<T, E>,
                                                config: Config, host: Host<A, T, E>,
                                                bytes: Bytes, payload: A, e1: E, e2: E)
    requires host.read(config.inputPath) == Ok(bytes)
    requires host.fromSlice(bytes) == Ok(payload)
    requires handler1(LambdaEvent(payload, Context)) == Err(e1)
    requires handler2(LambdaEvent(payload, Context)) == Err(e2)
    requires host.errorTypeName(e1) == host.errorTypeName(e2)
    ensures RunHandler(handler1, config, host) == RunHandler(handler2, config, host)
  {
  }

  /** The event a decoded payload is delivered in. */
  function FreshEvent<A>(payload: A): (event: LambdaEvent<A>) {
    NewLambdaEvent(payload, NewContext())
  }

  /** The handler is consulted only at the event built from the decoded
      payload: handlers that agree there give the same run, and when reading
      or decoding fails any two handlers do. */
  lemma HandlerConsultedOnlyAtEvent<A, T, E>(handler1: LambdaEvent<A> -> Result<T, E>,
                                             handler2: LambdaEvent<A> -> Result<T, E>,
                                             config: Config, host: Host<A, T, E>)
    requires var read := host.read(config.inputPath);
             read.Ok? && host.fromSlice(read.value).Ok? ==>
               handler1(FreshEvent(host.fromSlice(read.value).value))
                 == handler2(FreshEvent(host.fromSlice(read.value).value))
    ensures RunHandler(handler1, config, host) == RunHandler(handler2, config, host)
  {
  }

  /** No error escapes `run_handler`: building a failure report cannot fail, so
      the `?` after `build_event_error_request` never passes an error on, and a
      handler-path response is never propagated. */
  lemma RunHandlerNeverFails<A, T, E>(handler: LambdaEvent<A> -> Result<T, E>, config: Config,
                                      host: Host<A, T, E>)
    ensures RunHandler(handler, config, host).result == Ok(())
    ensures RunHandler(handler, config, host).invocation.None? ==> RunHandler(handler, config, host).response.Ok?
  {
  }
}
