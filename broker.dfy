/**
 * The Python tracer broker (`TracerBroker`): runs the tracer in another
 * process and talks to it through an action queue and a result queue.
 *
 * The process and its manager are reduced to presence flags, the queues to
 * sequences: the action queue to what has been put on it, the result queue to
 * the results the tracer will put on it, given when the tracer is started.
 * Taking from an empty result queue blocks forever.
 */
module BrokerModel {
  import opened Wrappers

  /** The names of the events the tracer puts on the result queue. */
  datatype ResultName = Data | Error | Locked | Product | OtherName(name: string)

  /** One result event; `finish` is the truthiness of `value['finish']` for a `DATA` event. */
  datatype ResultEvent = ResultEvent(name: ResultName, finish: bool)

  /** The action events the broker puts on the action queue. */
  datatype ActionEvent =
    | StartAction
    | QuitAction
    | StepAction(count: int)
    | EvalAction(expression: string, inspect: bool)
    | InputAction(input: string)

  datatype PyError = AssertionError(message: string) | AttributeError(message: string)

  /** What a broker call gives its caller. */
  datatype Reply = Returned(results: seq<ResultEvent>) | Raised(error: PyError) | Blocked

  /** The names that end the result collection of `step`. */
  predicate EndsStep(n: ResultName)
  {
    n == Data || n == Error || n == Locked
  }

  /** The names that end the result collection of `eval`. */
  predicate EndsEval(n: ResultName)
  {
    n == Product || n == Error || n == Locked
  }

  /**
   * The `while True` loop of `step` and `eval`: takes results off the queue,
   * appending each, until one whose name ends the collection. `complete` is
   * false when the queue ran out first, where the real loop blocks forever.
   */
  method Collect(queue: seq<ResultEvent>, ends: ResultName -> bool)
    returns (results: seq<ResultEvent>, rest: seq<ResultEvent>, complete: bool)
    ensures results + rest == queue
    ensures forall j :: 0 <= j < |results| - 1 ==> !ends(results[j].name)
    ensures complete <==> |results| > 0 && ends(results[|results| - 1].name)
    ensures !complete ==> rest == []
  {
    results := [];
    var i := 0;
    complete := false;
    while i < |queue|
      invariant 0 <= i <= |queue|
      invariant results == queue[..i]
      invariant forall j :: 0 <= j < i ==> !ends(queue[j].name)
    {
      var result := queue[i];
      results := results + [result];
      i := i + 1;
      if ends(result.name) {
        complete := true;
        break;
      }
    }
    rest := queue[i..];
  }

  /** The index of the first result whose name ends the collection, if any. */
  function FirstEnd(queue: seq<ResultEvent>, ends: ResultName -> bool): (k: Option<nat>)
    ensures k.Some? ==> k.value < |queue| && ends(queue[k.value].name)
    ensures forall j :: 0 <= j < |queue| && (k.None? || j < k.value) ==> !ends(queue[j].name)
  {
    if queue == [] then None
    else if ends(queue[0].name) then Some(0)
    else match FirstEnd(queue[1..], ends)
      case None => None
      case Some(k) => Some(k + 1)
  }

  /** `Collect` stops exactly at the first ending result: its answer is determined by the queue. */
  lemma CollectIsFirstEnd(queue: seq<ResultEvent>, ends: ResultName -> bool,
                          results: seq<ResultEvent>, rest: seq<ResultEvent>)
    requires results + rest == queue
    requires forall j :: 0 <= j < |results| - 1 ==> !ends(results[j].name)
    requires |results| > 0 && ends(results[|results| - 1].name)
    ensures FirstEnd(queue, ends) == Some(|results| - 1)
    ensures results == queue[..|results|] && rest == queue[|results|..]
  {
    assert queue[|results| - 1] == results[|results| - 1];
    assert forall j :: 0 <= j < |results| ==> queue[j] == results[j];
  }

  /** Whether the tracer is stopped after `step` answered with `last`. */
  predicate StopsAfterStep(last: ResultEvent)
  {
    (last.name == Data && last.finish) || last.name == Error
  }

  class TracerBroker {
    const name: string
    const script: string
    const sandbox: bool
    /** Whether `_tracer_process` is set. */
    var process: bool
    /** Whether `_manager` is set. */
    var manager: bool
    /** The current action queue (what has been put on it), or None. */
    var actionQueue: Option<seq<ActionEvent>>
    /** The current result queue (what the tracer has yet to deliver), or None. */
    var resultQueue: Option<seq<ResultEvent>>
    /** Every action put on any action queue, in order: the tracer side's view. */
    var sent: seq<ActionEvent>

    /** The process, the manager and both queues are set and cleared together. */
    ghost predicate Valid()
      reads this
    {
      && (process <==> manager)
      && (process <==> actionQueue.Some?)
      && (process <==> resultQueue.Some?)
    }

    constructor (name: string, script: string, sandbox: bool)
      ensures Valid()
      ensures this.name == name && this.script == script && this.sandbox == sandbox
      ensures !IsTracerRunning() && !manager && actionQueue == None && resultQueue == None && sent == []
    {
      this.name := name;
      this.script := script;
      this.sandbox := sandbox;
      process := false;
      manager := false;
      actionQueue := None;
      resultQueue := None;
      sent := [];
    }

    /** `is_tracer_running`. */
    predicate IsTracerRunning()
      reads this
    {
      process
    }

    /** Puts an action on the current action queue. */
    method Put(action: ActionEvent)
      requires Valid() && process
      modifies this`actionQueue, this`sent
      ensures Valid()
      ensures actionQueue == Some(old(actionQueue).value + [action]) && sent == old(sent) + [action]
    {
      actionQueue := Some(actionQueue.value + [action]);
      sent := sent + [action];
    }

    /**
     * `start`: refused while running. Otherwise starts the tracer, sends
     * `START` and takes one result, returned as a one-element list; the
     * tracer is stopped again when that result is `ERROR`.
     */
    method Start(tracerResults: seq<ResultEvent>) returns (reply: Reply)
      requires Valid()
      modifies this
      ensures Valid()
      ensures old(process) ==>
        reply == Raised(AssertionError("tracer already running"))
        && process && actionQueue == old(actionQueue) && resultQueue == old(resultQueue) && sent == old(sent)
      ensures !old(process) && tracerResults == [] ==>
        reply == Blocked && process && actionQueue == Some([StartAction]) && resultQueue == Some([])
        && sent == old(sent) + [StartAction]
      ensures !old(process) && tracerResults != [] ==>
        reply == Returned([tracerResults[0]])
        && (if tracerResults[0].name == Error then
              !process && resultQueue == None && sent == old(sent) + [StartAction, QuitAction]
            else
              process && actionQueue == Some([StartAction]) && resultQueue == Some(tracerResults[1..])
              && sent == old(sent) + [StartAction])
    {
      if process {
        return Raised(AssertionError("tracer already running"));
      }
      manager := true;
      actionQueue := Some([]);
      resultQueue := Some(tracerResults);
      process := true;
      Put(StartAction);
      assert actionQueue.value == [StartAction];
      if resultQueue.value == [] {
        return Blocked;
      }
      var result := resultQueue.value[0];
      resultQueue := Some(resultQueue.value[1..]);
      if result.name == Error {
        var _ := Stop();
      }
      reply := Returned([result]);
    }

    /**
     * `stop`: refused when not running. Sends `QUIT`, ends the process and
     * clears the process, the manager and both queues.
     */
    method Stop() returns (error: Option<PyError>)
      requires Valid()
      modifies this
      ensures Valid()
      ensures !old(process) ==>
        error == Some(AssertionError("tracer already stopped")) && sent == old(sent) && !process
      ensures old(process) ==>
        error == None && !process && !manager && actionQueue == None && resultQueue == None
        && sent == old(sent) + [QuitAction]
    {
      if !process {
        return Some(AssertionError("tracer already stopped"));
      }
      Put(QuitAction);
      process, manager, actionQueue, resultQueue := false, false, None, None;
      error := None;
    }

    /**
     * `step`: refused when not running or when `count < 1`. Sends a step of
     * count 1, whatever `count` is, and collects results until `DATA`,
     * `ERROR` or `LOCKED`; stops the tracer on a finishing `DATA` or on
     * `ERROR`, and keeps it running on `LOCKED`.
     */
    method Step(count: int) returns (reply: Reply)
      requires Valid()
      modifies this
      ensures Valid()
      ensures !old(process) ==>
        reply == Raised(AssertionError("tracer not running")) && sent == old(sent) && !process
      ensures old(process) && count < 1 ==>
        reply == Raised(AssertionError("count smaller than 1"))
        && process && actionQueue == old(actionQueue) && resultQueue == old(resultQueue) && sent == old(sent)
      ensures old(process) && count >= 1 ==>
        var queue := old(resultQueue).value;
        match FirstEnd(queue, EndsStep)
        case None =>
          reply == Blocked && process && actionQueue == Some(old(actionQueue).value + [StepAction(1)])
          && resultQueue == Some([]) && sent == old(sent) + [StepAction(1)]
        case Some(k) =>
          reply == Returned(queue[..k + 1])
          && (if StopsAfterStep(queue[k]) then
                !process && sent == old(sent) + [StepAction(1), QuitAction]
              else
                process && actionQueue == Some(old(actionQueue).value + [StepAction(1)])
                && resultQueue == Some(queue[k + 1..]) && sent == old(sent) + [StepAction(1)])
    {
      if !process {
        return Raised(AssertionError("tracer not running"));
      }
      if count < 1 {
        return Raised(AssertionError("count smaller than 1"));
      }
      Put(StepAction(1));
      var results, rest, complete := Collect(resultQueue.value, EndsStep);
      resultQueue := Some(rest);
      if !complete {
        return Blocked;
      }
      CollectIsFirstEnd(old(resultQueue).value, EndsStep, results, rest);
      var result := results[|results| - 1];
      if StopsAfterStep(result) {
        var _ := Stop();
      }
      reply := Returned(results);
    }

    /**
     * `eval`: refused when not running. Sends the expression, to be inspected,
     * and collects results until `PRODUCT`, `ERROR` or `LOCKED`; stops the
     * tracer only on `ERROR`.
     */
    method Eval(expression: string) returns (reply: Reply)
      requires Valid()
      modifies this
      ensures Valid()
      ensures !old(process) ==>
        reply == Raised(AssertionError("tracer not running")) && sent == old(sent) && !process
      ensures old(process) ==>
        var queue := old(resultQueue).value;
        var action := EvalAction(expression, true);
        match FirstEnd(queue, EndsEval)
        case None =>
          reply == Blocked && process && actionQueue == Some(old(actionQueue).value + [action])
          && resultQueue == Some([]) && sent == old(sent) + [action]
        case Some(k) =>
          reply == Returned(queue[..k + 1])
          && (if queue[k].name == Error then
                !process && sent == old(sent) + [action, QuitAction]
              else
                process && actionQueue == Some(old(actionQueue).value + [action])
                && resultQueue == Some(queue[k + 1..]) && sent == old(sent) + [action])
    {
      if !process {
        return Raised(AssertionError("tracer not running"));
      }
      Put(EvalAction(expression, true));
      var results, rest, complete := Collect(resultQueue.value, EndsEval);
      resultQueue := Some(rest);
      if !complete {
        return Blocked;
      }
      CollectIsFirstEnd(old(resultQueue).value, EndsEval, results, rest);
      var result := results[|results| - 1];
      if result.name == Error {
        var _ := Stop();
      }
      reply := Returned(results);
    }

    /**
     * `input`: refused when not running, and with an `AttributeError` for
     * empty data. Sends the data and takes no result.
     */
    method Input(data: string) returns (error: Option<PyError>)
      requires Valid()
      modifies this
      ensures Valid()
      ensures process == old(process) && resultQueue == old(resultQueue)
      ensures !old(process) ==>
        error == Some(AssertionError("tracer not running")) && actionQueue == old(actionQueue) && sent == old(sent)
      ensures old(process) && data == "" ==>
        error == Some(AttributeError("data cannot be None")) && actionQueue == old(actionQueue) && sent == old(sent)
      ensures old(process) && data != "" ==>
        error == None && actionQueue == Some(old(actionQueue).value + [InputAction(data)])
        && sent == old(sent) + [InputAction(data)]
    {
      if !process {
        return Some(AssertionError("tracer not running"));
      }
      if data == "" {
        return Some(AttributeError("data cannot be None"));
      }
      Put(InputAction(data));
      error := None;
    }
  }
}
