/**
 * What the TypeScript tracer clients share: the tracer's results and batches,
 * the sentinel rules applied to a batch's last result, and the session states
 * with their guard.
 *
 * The result module itself (`isLastResult`, `isErrorResult`, the shape of a
 * result) is not part of this model: a result carries the two verdicts that
 * module gives on it, which are independent (a result may be both, or
 * neither), and JSON decoding of a line is a parameter (`Decoder`) of each
 * client.
 */
module TracerResults {
  import opened Wrappers

  /**
   * One result: its payload kept opaque, and whether `isLastResult` and
   * `isErrorResult` hold of it.
   */
  datatype TraceResult = TraceResult(payload: string, last: bool, error: bool)

  /** The results answering one command: never empty. */
  type Batch = b: seq<TraceResult> | |b| > 0 witness [TraceResult("", true, false)]

  /** JSON decoding of one stdout line into a batch, or the parser's error message. */
  type Decoder = string -> Result<Batch, string>

  function LastOf(b: Batch): TraceResult
  {
    b[|b| - 1]
  }

  /** `isLastResult`: the tracer reports that the traced program completed. */
  predicate IsLastResult(r: TraceResult)
  {
    r.last
  }

  /** `isErrorResult`: the tracer reports an exception. */
  predicate IsErrorResult(r: TraceResult)
  {
    r.error
  }

  /** After `start`, the session closes only on an error result. */
  predicate StopsAfterStart(b: Batch)
  {
    IsErrorResult(LastOf(b))
  }

  /** After `step`, the session closes on a last result or an error result. */
  predicate StopsAfterStep(b: Batch)
  {
    IsLastResult(LastOf(b)) || IsErrorResult(LastOf(b))
  }

  /**
   * Every batch that closes the session after `start` closes it after `step`,
   * and the batches that close it after `step` only are exactly those ending
   * in a last result that is not also an error result.
   */
  lemma StartRuleIsNarrower(b: Batch)
    ensures StopsAfterStart(b) ==> StopsAfterStep(b)
    ensures StopsAfterStep(b) && !StopsAfterStart(b) <==> IsLastResult(LastOf(b)) && !IsErrorResult(LastOf(b))
  {
  }

  predicate StartsWith(line: string, c: char)
  {
    |line| > 0 && line[0] == c
  }

  // ---------------------------------------------------------------------------
  // Session states and the state guard

  datatype State = Created | Started | Stopped

  function StateName(s: State): string
  {
    match s
    case Created => "created"
    case Started => "started"
    case Stopped => "stopped"
  }

  /** `Array.prototype.toString` of the state names: comma-separated. */
  function StateList(states: seq<State>): string
  {
    if states == [] then ""
    else if |states| == 1 then StateName(states[0])
    else StateName(states[0]) + "," + StateList(states[1..])
  }

  /**
   * `requireState`: no error when the current state is one of the expected
   * ones, otherwise the message the guard throws.
   */
  function RequireState(current: State, expected: seq<State>): (error: Option<string>)
    ensures error.None? <==> current in expected
    ensures error.Some? ==>
      error.value == "unexpected tracer state: " + StateName(current)
                     + ", expected one of: " + StateList(expected)
  {
    if current in expected then None
    else Some("unexpected tracer state: " + StateName(current) + ", expected one of: " + StateList(expected))
  }

  /** The guard of `stop` fails only once the session is stopped. */
  lemma StopGuard(current: State)
    ensures RequireState(current, [Started, Created]).Some? <==> current == Stopped
    ensures RequireState(current, [Created]).None? <==> current == Created
    ensures RequireState(current, [Started]).None? <==> current == Started
  {
  }
}
