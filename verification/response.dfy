/**
  The two response envelopes and how each becomes an HTTP-shaped response
  (src/response.rs): a success carries the handler's value, a failure a pair
  of diagnostics strings.
*/
module Responses {
  import opened Results
  import opened Json

  const SuccessStatus: int := 200
  const ErrorStatus: int := 500

  /** `serde(rename_all = "camelCase")` renames `error_type` and `error_msg`. */
  const ErrorTypeKey: string := "errorType"
  const ErrorMsgKey: string := "errorMsg"
  const DiagnosticsKeys: seq<string> := [ErrorTypeKey, ErrorMsgKey]

  /** The parts of `http::Response<Vec<u8>>` the runtime sets: the status code
      and the body, kept as the JSON value the body bytes encode. */
  datatype HttpResponse = HttpResponse(status: int, body: Json)

  /** The error report a failed invocation produces. */
  datatype Diagnostics = Diagnostics(errorType: string, errorMsg: string)

  /** Derived `Serialize` for `Diagnostics`. */
  function SerializeDiagnostics(d: Diagnostics): (j: Json)
    ensures j.Object? && Keys(j.entries) == DiagnosticsKeys
    ensures j.entries[0].1 == Str(d.errorType) && j.entries[1].1 == Str(d.errorMsg)
  {
    SerializeStruct(DiagnosticsKeys, [d.errorType, d.errorMsg])
  }

  /** Derived `Deserialize` for `Diagnostics`. */
  function DeserializeDiagnostics(j: Json): (r: Result<Diagnostics, JsonError>)
    ensures r.Ok? <==> DeserializeStruct(j, DiagnosticsKeys).Ok?
    ensures r.Ok? ==> DeserializeStruct(j, DiagnosticsKeys).value == [r.value.errorType, r.value.errorMsg]
  {
    match DeserializeStruct(j, DiagnosticsKeys)
    case Ok(vs) => Ok(Diagnostics(vs[0], vs[1]))
    case Err(e) => Err(e)
  }

  /** Encoding diagnostics and decoding them again recovers both strings. */
  lemma DiagnosticsRoundTrip(d: Diagnostics)
    ensures DeserializeDiagnostics(SerializeDiagnostics(d)) == Ok(d)
  {
    StructRoundTrip(DiagnosticsKeys, [d.errorType, d.errorMsg]);
  }

  /** `EventSuccess<T>`: the handler's value. */
  datatype EventSuccess<T> = EventSuccess(body: T)
  {
    /** `into_rsp`: status 200 and the encoding of `body` itself, with no
        wrapping key; a failure to serialize `body` is returned instead of a
        response. */
    function IntoRsp(serialize: T -> Result<Json, JsonError>): (r: Result<HttpResponse, JsonError>)
      ensures r.Ok? <==> serialize(body).Ok?
      ensures r.Ok? ==> r.value.status == SuccessStatus && r.value.body == serialize(body).value
      ensures r.Err? ==> r.error == serialize(body).error
    {
      match serialize(body)
      case Err(e) => Err(e)
      case Ok(j) => Ok(HttpResponse(SuccessStatus, j))
    }
  }

  /** `EventError`: a failure report. */
  datatype EventError = EventError(diagnostic: Diagnostics)
  {
    /** `EventError::new`: stores the type and message unchanged. */
    static function New(errorType: string, errorMsg: string): (e: EventError)
      ensures e.diagnostic.errorType == errorType
      ensures e.diagnostic.errorMsg == errorMsg
    {
      EventError(Diagnostics(errorType, errorMsg))
    }

    /** `into_rsp`: status 500 and the encoding of `diagnostic` alone, an
        object holding exactly the keys `errorType` and `errorMsg` (the key
        `diagnostic` does not appear) from which the diagnostics decode back.
        Serializing two strings cannot fail, so this never returns `Err`. */
    function IntoRsp(): (r: Result<HttpResponse, JsonError>)
      ensures r.Ok? && r.value.status == ErrorStatus
      ensures r.value.body.Object? && Keys(r.value.body.entries) == DiagnosticsKeys
      ensures DeserializeDiagnostics(r.value.body) == Ok(diagnostic)
    {
      DiagnosticsRoundTrip(diagnostic);
      Ok(HttpResponse(ErrorStatus, SerializeDiagnostics(diagnostic)))
    }
  }

  /** The outcome of an invocation: exactly one of the two envelopes. */
  datatype Envelope<T> = Success(success: EventSuccess<T>) | Failure(failure: EventError)
  {
    /** The `into_rsp` of whichever envelope this is. */
    function IntoRsp(serialize: T -> Result<Json, JsonError>): (r: Result<HttpResponse, JsonError>)
      ensures Failure? ==> r.Ok?
      ensures Success? ==> (r.Ok? <==> serialize(success.body).Ok?)
      ensures r.Ok? ==> r.value.status == (if Success? then SuccessStatus else ErrorStatus)
      ensures Success? && r.Ok? ==> r.value.body == serialize(success.body).value
      ensures Failure? ==> DeserializeDiagnostics(r.value.body) == Ok(failure.diagnostic)
      ensures Failure? ==> r.value.body == SerializeDiagnostics(failure.diagnostic)
    {
      match this
      case Success(s) => s.IntoRsp(serialize)
      case Failure(f) => f.IntoRsp()
    }
  }

  /** The status depends only on the variant, and no status other than 200 and
      500 is ever produced. */
  lemma StatusIsDeterminedByVariant<T>(env: Envelope<T>, serialize: T -> Result<Json, JsonError>)
    requires env.IntoRsp(serialize).Ok?
    ensures env.IntoRsp(serialize).value.status in {SuccessStatus, ErrorStatus}
    ensures env.IntoRsp(serialize).value.status == SuccessStatus <==> env.Success?
    ensures env.IntoRsp(serialize).value.status == ErrorStatus <==> env.Failure?
  {
  }

  /** When `T`'s codec round-trips, decoding a success response's body gives
      back the handler's value: the body is not wrapped. */
  lemma SuccessBodyRoundTrip<T>(s: EventSuccess<T>, serialize: T -> Result<Json, JsonError>,
                                deserialize: Json -> Result<T, JsonError>)
    requires serialize(s.body).Ok? && deserialize(serialize(s.body).value) == Ok(s.body)
    ensures s.IntoRsp(serialize).Ok?
    ensures deserialize(s.IntoRsp(serialize).value.body) == Ok(s.body)
  {
  }
}
