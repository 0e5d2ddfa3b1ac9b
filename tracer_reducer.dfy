/**
 * The tracer reducer: the state of one trace request and its response.
 *
 * The response and step types are reduced to what the reducers read: a
 * response's steps, and a step's error and print.
 */
module TracerReducer {
  import opened Wrappers

  datatype ExceptionInfo = ExceptionInfo(traceback: Option<string>)

  datatype StepError = StepError(exception: Option<ExceptionInfo>, cause: Option<string>)

  /** One traced step, as far as the output is concerned. */
  datatype Step = Step(error: Option<StepError>, printed: Option<string>)

  datatype Response = Response(steps: seq<Step>)

  datatype TracerState = TracerState(
    fetching: bool,
    response: Option<Response>,
    steps: Option<seq<Step>>,
    available: bool)

  datatype TracerAction =
    | Trace(payload: Option<Response>, error: Option<string>)
    | Available
    | OtherAction(actionType: string)

  const InitialState: TracerState := TracerState(false, None, None, false)

  /** JavaScript truthiness of an optional string: present and not empty. */
  predicate Truthy(s: Option<string>)
  {
    s.Some? && s.value != ""
  }

  function StateOrInitial(state: Option<TracerState>): TracerState
  {
    if state.Some? then state.value else InitialState
  }

  /**
   * The reducer. `tracer/trace` rebuilds the state from the initial one: with
   * a payload it holds the response and its steps, with an error it is the
   * initial state, with neither it is fetching. `tracer/available` sets only
   * `available`; other actions return the state.
   */
  function Reduce(state: Option<TracerState>, action: TracerAction): (r: TracerState)
    ensures action.Trace? && action.payload.Some? ==>
      r == TracerState(false, action.payload, Some(action.payload.value.steps), false)
    ensures action.Trace? && action.payload.None? && Truthy(action.error) ==> r == InitialState
    ensures action.Trace? && action.payload.None? && !Truthy(action.error) ==>
      r == TracerState(true, None, None, false)
    ensures action.Available? ==> r == StateOrInitial(state).(available := true)
    ensures action.OtherAction? ==> r == StateOrInitial(state)
  {
    match action
    case Trace(payload, error) =>
      if payload.Some? then InitialState.(response := payload, steps := Some(payload.value.steps))
      else if Truthy(error) then InitialState
      else InitialState.(fetching := true)
    case Available => StateOrInitial(state).(available := true)
    case OtherAction(_) => StateOrInitial(state)
  }

  /**
   * A trace action forgets the previous state entirely, a payload wins over an
   * error, and the result is never available until `tracer/available`.
   */
  lemma TraceForgetsState(a: Option<TracerState>, b: Option<TracerState>, payload: Option<Response>, error: Option<string>)
    ensures Reduce(a, Trace(payload, error)) == Reduce(b, Trace(payload, error))
    ensures payload.Some? ==> Reduce(a, Trace(payload, error)) == Reduce(a, Trace(payload, None))
    ensures !Reduce(a, Trace(payload, error)).available
  {
  }
}
