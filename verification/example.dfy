/**
  The example function (example/src/main.rs): it greets the name it is sent.
  It instantiates the dispatcher with a concrete request, response and
  handler.
*/
module Example {
  import opened Results
  import opened Json
  import opened Types
  import opened Responses
  import opened Runtime

  /** The request: derived `Deserialize`, one field `name`. */
  datatype Request = Request(name: string)

  /** The response: derived `Serialize`, one field `msg`. */
  datatype Response = Response(msg: string)

  const RequestFields: seq<string> := ["name"]
  const ResponseFields: seq<string> := ["msg"]
  const Greeting: string := "Hello, "

  /** Derived `Deserialize` for `Request`. */
  function DeserializeRequest(j: Json): (r: Result<Request, JsonError>)
    ensures r.Ok? <==> DeserializeStruct(j, RequestFields).Ok?
    ensures r.Ok? ==> DeserializeStruct(j, RequestFields).value == [r.value.name]
  {
    match DeserializeStruct(j, RequestFields)
    case Ok(vs) => Ok(Request(vs[0]))
    case Err(e) => Err(e)
  }

  /** Derived `Serialize` for `Response`; it cannot fail. */
  function SerializeResponse(rsp: Response): (r: Result<Json, JsonError>)
    ensures r.Ok? && r.value.Object? && Keys(r.value.entries) == ResponseFields
    ensures r.value.entries[0].1 == Str(rsp.msg)
  {
    Ok(SerializeStruct(ResponseFields, [rsp.msg]))
  }

  /** `my_handler`: always succeeds, with the greeting followed by the name. */
  function MyHandler(event: LambdaEvent<Request>): (r: Result<Response, Error>)
    ensures r.Ok?
    ensures |r.value.msg| == |Greeting| + |event.payload.name|
    ensures r.value.msg[..|Greeting|] == Greeting
    ensures r.value.msg[|Greeting|..] == event.payload.name
  {
    var command := event.payload.name;
    Ok(Response(Greeting + command))
  }

  /** `my_handler` reads only the payload's name: the context, and anything
      else, make no difference. */
  lemma MyHandlerReadsOnlyName(e1: LambdaEvent<Request>, e2: LambdaEvent<Request>)
    requires e1.payload.name == e2.payload.name
    ensures MyHandler(e1) == MyHandler(e2)
  {
  }

  /** Different names get different greetings: the name can be read back. */
  lemma MyHandlerIsInjective(e1: LambdaEvent<Request>, e2: LambdaEvent<Request>)
    requires MyHandler(e1) == MyHandler(e2)
    ensures e1.payload.name == e2.payload.name
  {
  }

  /** The example's collaborators: its file reader, a JSON parser, the
      derived codecs of `Request` and `Response`, and the type names. */
  function ExampleHost(read: string -> Result<Bytes, IoError>, parse: Bytes -> Result<Json, JsonError>,
                       ioTypeName: IoError -> string, jsonTypeName: JsonError -> string,
                       errorTypeName: Error -> string): (host: Host<Request, Response, Error>)
    ensures host.read == read && host.serialize == SerializeResponse
    ensures forall b :: host.fromSlice(b) == FromSlice(parse, DeserializeRequest, b)
  {
    Host(read, b => FromSlice(parse, DeserializeRequest, b), SerializeResponse,
         ioTypeName, jsonTypeName, errorTypeName)
  }

  /** End to end: when the input parses to `{"name": "world"}`, `run` with
      `my_handler` invokes it once and responds 200 with exactly
      `{"msg": "Hello, world"}`. */
  lemma HelloWorld(read: string -> Result<Bytes, IoError>, parse: Bytes -> Result<Json, JsonError>,
                   ioTypeName: IoError -> string, jsonTypeName: JsonError -> string,
                   errorTypeName: Error -> string, bytes: Bytes)
    requires read(DefaultInputPath) == Ok(bytes)
    requires parse(bytes) == Ok(Object([("name", Str("world"))]))
    ensures var run := RunDefault(MyHandler, ExampleHost(read, parse, ioTypeName, jsonTypeName, errorTypeName));
      && run.invocation == Some(LambdaEvent(Request("world"), Context))
      && run.envelope == Success(EventSuccess(Response("Hello, world")))
      && run.response == Ok(HttpResponse(SuccessStatus, Object([("msg", Str("Hello, world"))])))
      && run.result == Ok(())
  {
    var host := ExampleHost(read, parse, ioTypeName, jsonTypeName, errorTypeName);
    StructRoundTrip(RequestFields, ["world"]);
    assert SerializeStruct(RequestFields, ["world"]) == Object([("name", Str("world"))]);
    assert host.fromSlice(bytes) == Ok(Request("world"));
    assert Greeting + "world" == "Hello, world";
    var body := SerializeStruct(ResponseFields, ["Hello, world"]);
    assert body == Object([("msg", Str("Hello, world"))]);
  }
}
