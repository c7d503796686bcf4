/** The values a handler receives (src/types.rs). */
module Types {

  /** Per-invocation metadata. The struct has no fields yet; it is the place a
      deadline or a request id would go. */
  datatype Context = Context

  /** `Context::new`: takes no argument, so it depends on no request state. */
  function NewContext(): (ctx: Context) {
    Context
  }

  /** Every two contexts are equal under the derived `PartialEq`: the struct is empty. */
  lemma ContextsAreEqual(a: Context, b: Context)
    ensures a == b
    ensures a == NewContext()
  {
  }

  /** The single argument a handler accepts: the decoded payload and its context. */
  datatype LambdaEvent<T> = LambdaEvent(payload: T, context: Context)

  /** `LambdaEvent::new`: stores both arguments unchanged. */
  function NewLambdaEvent<T>(payload: T, context: Context): (e: LambdaEvent<T>)
    ensures e.payload == payload
    ensures e.context == context
  {
    LambdaEvent(payload, context)
  }

  /** Taking an event apart and building it again gives the same event. */
  lemma LambdaEventFromParts<T>(e: LambdaEvent<T>)
    ensures NewLambdaEvent(e.payload, e.context) == e
  {
  }

  /** `Box<dyn std::error::Error + Send + Sync>`: only its rendering is observable. */
  datatype Error = Error(display: string)

  /** `std::io::Error`, the failure of reading the input file. */
  datatype IoError = IoError(display: string)
}
