/**
 * The output reducer and the cumulative output it is given: entry `i` is the
 * console text of the traced program up to step `i`.
 */
module OutputReducer {
  import opened Wrappers
  import opened TracerReducer

  /** The step's error text: the exception's traceback, else the cause, else empty. */
  function ErrorText(step: Step): string
  {
    if step.error.Some? && step.error.value.exception.Some? && step.error.value.exception.value.traceback.Some? then
      step.error.value.exception.value.traceback.value
    else if step.error.Some? && step.error.value.cause.Some? then
      step.error.value.cause.value
    else ""
  }

  /** The step's printed text, empty when missing. */
  function PrintText(step: Step): string
  {
    if step.printed.Some? then step.printed.value else ""
  }

  /** What one step adds to the output. */
  function StepText(step: Step): string
  {
    ErrorText(step) + PrintText(step)
  }

  /**
   * The `reduce` fold of `compute`: one entry per step, each the previous
   * entry (or empty for the first) followed by the step's error and print.
   */
  function Outputs(steps: seq<Step>): (out: seq<string>)
    ensures |out| == |steps|
    ensures forall i :: 0 < i < |out| ==> out[i] == out[i - 1] + StepText(steps[i])
    ensures |out| > 0 ==> out[0] == StepText(steps[0])
  {
    if steps == [] then []
    else
      var init := steps[..|steps| - 1];
      assert forall i :: 0 <= i < |init| ==> init[i] == steps[i];
      var acc := Outputs(init);
      var previousContent := if acc == [] then "" else acc[|acc| - 1];
      acc + [previousContent + StepText(steps[|steps| - 1])]
  }

  /** Everything the steps add, in order. */
  function AllText(steps: seq<Step>): string
  {
    if steps == [] then "" else AllText(steps[..|steps| - 1]) + StepText(steps[|steps| - 1])
  }

  /** Entry `i` is everything steps `0..i` added, so each entry is a prefix of the next. */
  lemma {:induction false} OutputsAreCumulative(steps: seq<Step>)
    ensures forall i :: 0 <= i < |steps| ==> Outputs(steps)[i] == AllText(steps[..i + 1])
    ensures forall i, j :: 0 <= i <= j < |steps| ==> Outputs(steps)[i] <= Outputs(steps)[j]
  {
    var out := Outputs(steps);
    forall i | 0 <= i < |steps| ensures out[i] == AllText(steps[..i + 1]) {
      EntryIsAllText(steps, i);
    }
    forall i, j | 0 <= i <= j < |steps| ensures out[i] <= out[j] {
      EntryIsPrefix(steps, i, j);
    }
  }

  lemma {:induction false} EntryIsAllText(steps: seq<Step>, i: nat)
    requires i < |steps|
    ensures Outputs(steps)[i] == AllText(steps[..i + 1])
    decreases i
  {
    var out := Outputs(steps);
    assert steps[..i + 1][..i] == steps[..i];
    if i == 0 {
      assert AllText(steps[..1]) == AllText([]) + StepText(steps[0]);
    } else {
      EntryIsAllText(steps, i - 1);
      assert AllText(steps[..i + 1]) == AllText(steps[..i]) + StepText(steps[i]);
    }
  }

  lemma {:induction false} EntryIsPrefix(steps: seq<Step>, i: nat, j: nat)
    requires i <= j < |steps|
    ensures Outputs(steps)[i] <= Outputs(steps)[j]
    decreases j - i
  {
    if i < j {
      EntryIsPrefix(steps, i, j - 1);
      var out := Outputs(steps);
      assert out[j] == out[j - 1] + StepText(steps[j]);
    }
  }

  /** The output `compute` dispatches: the fold over the steps when available, else empty; `None` where reading undefined steps throws. */
  function Compute(tracer: TracerState): (r: Option<seq<string>>)
    ensures !tracer.available ==> r == Some([])
    ensures tracer.available && tracer.steps.Some? ==>
      r.Some? && |r.value| == |tracer.steps.value|
    ensures tracer.available && tracer.steps.None? ==> r.None?
    ensures tracer.available && tracer.steps.Some? ==>
      r == Some(Outputs(tracer.steps.value))
      && forall i :: 0 <= i < |r.value| ==> r.value[i] == AllText(tracer.steps.value[..i + 1])
  {
    if !tracer.available then Some(Outputs([]))
    else if tracer.steps.None? then None
    else
      OutputsAreCumulative(tracer.steps.value);
      Some(Outputs(tracer.steps.value))
  }

  datatype OutputAction = ComputeOutput(payload: seq<string>) | OtherAction(actionType: string)

  /** The reducer: `tracer/output/compute` replaces the state with its payload; anything else keeps it. */
  function Reduce(state: Option<seq<string>>, action: OutputAction): (r: seq<string>)
    ensures action.ComputeOutput? ==> r == action.payload
    ensures action.OtherAction? ==> r == (if state.Some? then state.value else [])
  {
    match action
    case ComputeOutput(payload) => payload
    case OtherAction(_) => if state.Some? then state.value else []
  }
}
