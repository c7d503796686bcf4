/**
  One invocation as a state machine, step by step: Idle, reading the input,
  decoding it, invoking the handler, building the response, Done. A read or
  decode failure jumps straight to reporting it; there is no retry and no
  way back. This is an independent statement of the control flow of
  `run_handler` (src/lib.rs), and `ExecuteAgreesWithRunHandler` proves the two agree.
*/
module Lifecycle {
  import opened Results
  import opened Json
  import opened Types
  import opened Responses
  import opened Runtime

  datatype Phase<A, T> =
    | Idle
    | ReadingInput(ctx: Context)
    | Decoding(ctx: Context, bytes: Bytes)
    | Invoking(event: LambdaEvent<A>)
    | Reporting(failure: EventError)                          // a read or decode failure
    | Responding(event: LambdaEvent<A>, envelope: Envelope<T>) // the handler has returned
    | Done(run: Run<A, T>)

  /** One transition. `Done` is the only phase that does not move. */
  function Step<A, T, E>(handler: LambdaEvent<A> -> Result<T, E>, config: Config,
                         host: Host<A, T, E>, phase: Phase<A, T>): (next: Phase<A, T>)
    ensures next == phase <==> phase.Done?
  {
    match phase
    case Idle => ReadingInput(Context)
    case ReadingInput(ctx) =>
      (match host.read(config.inputPath)
       case Err(e) => Reporting(EventError(Diagnostics(host.ioTypeName(e), e.display)))
       case Ok(bytes) => Decoding(ctx, bytes))
    case Decoding(ctx, bytes) =>
      (match host.fromSlice(bytes)
       case Err(e) => Reporting(EventError(Diagnostics(host.jsonTypeName(e), e.Display())))
       case Ok(payload) => Invoking(LambdaEvent(payload, ctx)))
    case Invoking(event) =>
      (match handler(event)
       case Ok(t) => Responding(event, Success(EventSuccess(t)))
       case Err(e) => Responding(event, Failure(EventError(Diagnostics(host.errorTypeName(e), PanicMessage)))))
    case Reporting(failure) =>
      var rsp := failure.IntoRsp();
      var result := match rsp case Ok(_) => Ok(()) case Err(e) => Err(e);
      Done(Run(Failure(failure), None, rsp, result))
    case Responding(event, envelope) =>
      Done(Run(envelope, Some(event), envelope.IntoRsp(host.serialize), Ok(())))
    case Done(_) => phase
  }

  /** At most `steps` transitions from `phase`. */
  function Execute<A, T, E>(handler: LambdaEvent<A> -> Result<T, E>, config: Config,
                            host: Host<A, T, E>, phase: Phase<A, T>, steps: nat): (last: Phase<A, T>)
    ensures phase.Done? ==> last == phase
    decreases steps
  {
    if steps == 0 || phase.Done? then phase
    else Execute(handler, config, host, Step(handler, config, host, phase), steps - 1)
  }

  /** How many transitions a phase is from `Done`, at most. */
  function Remaining<A, T>(phase: Phase<A, T>): (steps: nat) {
    match phase
    case Idle => 5
    case ReadingInput(_) => 4
    case Decoding(_, _) => 3
    case Invoking(_) => 2
    case Reporting(_) => 1
    case Responding(_, _) => 1
    case Done(_) => 0
  }

  /** Every transition short of `Done` brings the run one step closer to it. */
  lemma StepProgresses<A, T, E>(handler: LambdaEvent<A> -> Result<T, E>, config: Config,
                                host: Host<A, T, E>, phase: Phase<A, T>)
    requires !phase.Done?
    ensures Remaining(Step(handler, config, host, phase)) < Remaining(phase)
  {
  }

  /** Whatever the inputs, a run reaches `Done` within `Remaining` steps and
      stays there. */
  lemma {:induction false} ExecuteTerminates<A, T, E>(handler: LambdaEvent<A> -> Result<T, E>, config: Config,
                                                      host: Host<A, T, E>, phase: Phase<A, T>, steps: nat)
    requires steps >= Remaining(phase)
    ensures Execute(handler, config, host, phase, steps).Done?
    decreases steps
  {
    if !phase.Done? {
      StepProgresses(handler, config, host, phase);
      ExecuteTerminates(handler, config, host, Step(handler, config, host, phase), steps - 1);
    }
  }

  /** Running the machine from `Idle` to the end gives exactly what
      `RunHandler` computes. */
  lemma ExecuteAgreesWithRunHandler<A, T, E>(handler: LambdaEvent<A> -> Result<T, E>, config: Config,
                                             host: Host<A, T, E>)
    ensures Execute(handler, config, host, Idle, Remaining<A, T>(Idle)) == Done(RunHandler(handler, config, host))
  {
    var p1 := Step(handler, config, host, Idle);
    var p2 := Step(handler, config, host, p1);
    assert Execute(handler, config, host, Idle, 5) == Execute(handler, config, host, p2, 3);
    if p2.Decoding? {
      var p3 := Step(handler, config, host, p2);
      assert Execute(handler, config, host, p2, 3) == Execute(handler, config, host, p3, 2);
      if p3.Invoking? {
        var p4 := Step(handler, config, host, p3);
        assert Execute(handler, config, host, p3, 2) == Execute(handler, config, host, p4, 1);
      }
    }
  }
}
