/**
 * The Java tracer (`Tracer`): it is called back by the executor for every
 * debugger event and every chunk of program output. It records one step per
 * event located on the `main` thread, with the prints gathered since the
 * previous step, and stops on a step budget, on a lock, or on an exception
 * the program printed.
 *
 * The executor, the debugger events and the inspector are not part of this
 * model: a run is given as the sequence of callbacks the executor makes, and
 * an inspector snapshot is an opaque value carried by the event.
 */
module JavaTracer {
  import opened Wrappers
  import LineReassembly

  type Snapshot = string

  /** Debugger events: VM/thread lifecycle events, events with a location, and the rest. */
  datatype Event =
    | Lifecycle
    | Locatable(threadName: string, snapshot: Snapshot)
    | OtherEvent

  /** The exceptions that end a run, as `run` catches them. */
  datatype TraceException =
    | TracerStop(message: string)                          // TracerStopException
    | ExternalFailure(message: string)                     // Executor.ApplicationExternalException
    | Printed(exceptionType: string, traceback: string)    // PrintedException
    | Internal(className: string)                          // any other exception

  /** The `threw` object of a final step. */
  datatype Threw =
    | Cause(cause: string)
    | ExceptionThrew(exceptionType: string, traceback: string)
    | StackTraceThrew(className: string)

  /** An entry of the result's `steps` array. */
  datatype StepRecord =
    | SnapshotStep(snapshot: Snapshot, prints: seq<string>)
    | FailureStep(threw: Threw, prints: seq<string>)

  /** What the executor does, in order, during a run. */
  datatype Callback =
    | OnEvent(event: Event)
    | OnPrint(text: string)
    | OnLock(cause: string)
    | OnExternalFailure(message: string)
    | OnUnexpected(className: string)

  /** The tracer's mutable state: the step counter, the print cache and the recorded steps. */
  datatype Machine = Machine(currentStep: int, printCache: seq<string>, recorded: seq<StepRecord>)

  const LockMessage := "program requires input or slow function call"
  const IndexOutOfBounds := "java.lang.StringIndexOutOfBoundsException"

  function DigitChar(d: nat): char
    requires d < 10
  {
    "0123456789"[d]
  }

  /** Java's decimal rendering of an `int` in string concatenation. */
  function Decimal(n: int): string
    decreases if n < 0 then 1 - n else n
  {
    if n < 0 then "-" + Decimal(-n)
    else if n < 10 then [DigitChar(n)]
    else Decimal(n / 10) + [DigitChar(n % 10)]
  }

  function BudgetMessage(steps: int): string
  {
    "reached maximum step: " + Decimal(steps)
  }

  function Max0(n: int): nat
  {
    if n < 0 then 0 else n
  }

  // ---------------------------------------------------------------------------
  // The printed exception's type

  /** `String.indexOf(c, from)`: the first index at or after `from` (taken as 0 when negative) holding `c`, or -1. */
  function IndexFrom(s: string, c: char, from: int): (i: int)
    ensures i == -1 || (Max0(from) <= i < |s| && s[i] == c)
    ensures i == -1 ==> forall k :: Max0(from) <= k < |s| ==> s[k] != c
    ensures i != -1 ==> forall k :: Max0(from) <= k < i ==> s[k] != c
    decreases |s| - from
  {
    if from < 0 then IndexFrom(s, c, 0)
    else if from >= |s| then -1
    else if s[from] == c then from
    else IndexFrom(s, c, from + 1)
  }

  /**
   * The type `PrintedException` extracts: the text from just after the first
   * space at or after index 20 to the next space. None when there is no such
   * next space, where `substring` throws.
   */
  function PrintedType(printed: string): (r: Option<string>)
    ensures r.Some? ==> ' ' !in r.value
    ensures r.None? <==> ' ' !in printed[IndexFrom(printed, ' ', 20) + 1..]
    ensures r.Some? ==>
      var classStart := IndexFrom(printed, ' ', 20) + 1;
      && classStart + |r.value| < |printed|
      && printed[classStart..classStart + |r.value|] == r.value
      && printed[classStart + |r.value|] == ' '
  {
    var classStart := IndexFrom(printed, ' ', 20) + 1;
    var classEnd := IndexFrom(printed, ' ', classStart);
    if classEnd == -1 then
      assert forall k :: 0 <= k < |printed[classStart..]| ==> printed[classStart..][k] == printed[classStart + k];
      None
    else
      assert forall k :: 0 <= k < |printed[classStart..]| && k < classEnd - classStart ==> printed[classStart..][k] == printed[classStart + k];
      assert printed[classStart..][classEnd - classStart] == ' ';
      Some(printed[classStart..classEnd])
  }

  /** The header the JVM prints before an uncaught exception: 20 characters, up to the thread name. */
  const UncaughtHeader := "Exception in thread "

  /**
   * For the JVM's report of an uncaught exception, the extracted type is the
   * word after the quoted thread name.
   */
  lemma PrintedTypeOfUncaught(thread: string, word: string, rest: string)
    requires ' ' !in thread && ' ' !in word
    ensures PrintedType(UncaughtHeader + thread + " " + word + " " + rest) == Some(word)
  {
    var s := UncaughtHeader + thread + " " + word + " " + rest;
    assert |UncaughtHeader| == 20;
    var n := 20 + |thread|;
    assert s[n] == ' ';
    assert forall k :: 20 <= k < n ==> s[k] == thread[k - 20];
    assert IndexFrom(s, ' ', 20) == n;
    assert s[n + 1 + |word|] == ' ';
    assert forall k :: n + 1 <= k < n + 1 + |word| ==> s[k] == word[k - n - 1];
    assert IndexFrom(s, ' ', n + 1) == n + 1 + |word|;
    assert s[n + 1..n + 1 + |word|] == word;
  }

  /** The exception `trace` throws for a printed exception: its parse, or the parse's own failure. */
  function PrintedException(printed: string): (e: TraceException)
    ensures e.Printed? ==> e.traceback == printed && PrintedType(printed) == Some(e.exceptionType)
    ensures e.Internal? <==> PrintedType(printed).None?
  {
    match PrintedType(printed)
    case Some(t) => Printed(t, printed)
    case None => Internal(IndexOutOfBounds)
  }

  // ---------------------------------------------------------------------------
  // Events and callbacks

  /**
   * `trace`: a lifecycle event with pending prints throws them as a printed
   * exception, clearing the cache; an event located on `main` consumes one unit
   * of the budget and records a step with the pending prints; other events
   * change nothing.
   */
  function TraceEvent(m: Machine, steps: int, e: Event): (r: (Machine, Option<TraceException>))
    ensures e.Lifecycle? && m.printCache != [] ==>
      r == (m.(printCache := []), Some(PrintedException(LineReassembly.Concat(m.printCache))))
    ensures !(e.Lifecycle? && m.printCache != []) && !(e.Locatable? && e.threadName == "main") ==> r == (m, None)
    ensures e.Locatable? && e.threadName == "main" ==>
      && r.0.currentStep == m.currentStep + 1
      && (r.1.Some? <==> m.currentStep + 1 > steps)
      && (r.1.Some? ==> r.1.value == TracerStop(BudgetMessage(steps)) && r.0 == m.(currentStep := m.currentStep + 1))
      && (r.1.None? ==> r.0.recorded == m.recorded + [SnapshotStep(e.snapshot, m.printCache)] && r.0.printCache == [])
  {
    if e.Lifecycle? && m.printCache != [] then
      (m.(printCache := []), Some(PrintedException(LineReassembly.Concat(m.printCache))))
    else if !e.Locatable? || e.threadName != "main" then
      (m, None)
    else
      var counted := m.(currentStep := m.currentStep + 1);
      if counted.currentStep > steps then (counted, Some(TracerStop(BudgetMessage(steps))))
      else (counted.(recorded := m.recorded + [SnapshotStep(e.snapshot, m.printCache)], printCache := []), None)
  }

  /** One callback of the executor. */
  function Deliver(m: Machine, steps: int, c: Callback): (r: (Machine, Option<TraceException>))
  {
    match c
    case OnEvent(e) => TraceEvent(m, steps, e)
    case OnPrint(text) => (m.(printCache := m.printCache + [text]), None)
    case OnLock(_) => (m, Some(TracerStop(LockMessage)))
    case OnExternalFailure(message) => (m, Some(ExternalFailure(message)))
    case OnUnexpected(className) => (m, Some(Internal(className)))
  }

  /** The callbacks delivered in order until the first exception. */
  function Execute(m: Machine, steps: int, cs: seq<Callback>): (r: (Machine, Option<TraceException>))
    decreases |cs|
  {
    if cs == [] then (m, None)
    else
      var (m1, thrown) := Deliver(m, steps, cs[0]);
      if thrown.Some? then (m1, thrown) else Execute(m1, steps, cs[1..])
  }

  /** The `threw` object `run` builds for each kind of exception. */
  function ThrewOf(e: TraceException): (t: Threw)
    ensures t.Cause? <==> e.TracerStop? || e.ExternalFailure?
    ensures e.TracerStop? || e.ExternalFailure? ==> t == Cause(e.message)
    ensures e.Printed? ==> t == ExceptionThrew(e.exceptionType, e.traceback)
    ensures e.Internal? ==> t == StackTraceThrew(e.className)
  {
    match e
    case TracerStop(message) => Cause(message)
    case ExternalFailure(message) => Cause(message)
    case Printed(exceptionType, traceback) => ExceptionThrew(exceptionType, traceback)
    case Internal(className) => StackTraceThrew(className)
  }

  /** `run`: the steps start empty; an exception appends one final step with the pending prints. */
  function RunOutcome(m: Machine, steps: int, cs: seq<Callback>): Machine
  {
    var (m1, thrown) := Execute(m.(recorded := []), steps, cs);
    if thrown.Some? then m1.(recorded := m1.recorded + [FailureStep(ThrewOf(thrown.value), m1.printCache)])
    else m1
  }

  // ---------------------------------------------------------------------------
  // Properties of a run

  predicate AllSnapshots(records: seq<StepRecord>)
  {
    forall i :: 0 <= i < |records| ==> records[i].SnapshotStep?
  }

  /** The prints carried by the recorded steps, in order. */
  function StepPrints(records: seq<StepRecord>): seq<string>
  {
    if records == [] then [] else StepPrints(records[..|records| - 1]) + records[|records| - 1].prints
  }

  /** The texts the executor printed. */
  function PrintTexts(cs: seq<Callback>): seq<string>
  {
    if cs == [] then []
    else (if cs[0].OnPrint? then [cs[0].text] else []) + PrintTexts(cs[1..])
  }

  /** The executor's callbacks record only snapshot steps: events never record a failure. */
  lemma {:induction false} ExecuteRecordsSnapshots(m: Machine, steps: int, cs: seq<Callback>)
    requires AllSnapshots(m.recorded)
    ensures AllSnapshots(Execute(m, steps, cs).0.recorded)
    decreases |cs|
  {
    if cs != [] {
      var (m1, thrown) := Deliver(m, steps, cs[0]);
      if thrown.None? {
        ExecuteRecordsSnapshots(m1, steps, cs[1..]);
      }
    }
  }

  /**
   * Every run's steps are snapshots, followed by exactly one failure step when
   * an exception ended it; that step carries the prints still pending.
   */
  lemma RunEndsWithOneFailure(m: Machine, steps: int, cs: seq<Callback>)
    ensures var (m1, thrown) := Execute(m.(recorded := []), steps, cs);
      var out := RunOutcome(m, steps, cs);
      && (thrown.None? ==> AllSnapshots(out.recorded))
      && (thrown.Some? ==>
            && |out.recorded| > 0
            && AllSnapshots(out.recorded[..|out.recorded| - 1])
            && out.recorded[|out.recorded| - 1] == FailureStep(ThrewOf(thrown.value), m1.printCache))
  {
    var (m1, thrown) := Execute(m.(recorded := []), steps, cs);
    ExecuteRecordsSnapshots(m.(recorded := []), steps, cs);
    if thrown.Some? {
      var out := RunOutcome(m, steps, cs);
      assert out.recorded[..|out.recorded| - 1] == m1.recorded;
    }
  }

  /**
   * The budget: when the counter matches the recorded steps and is within the
   * budget, it stays within it, and while no exception is thrown the counter
   * still matches the recorded steps (one increment per recorded event).
   */
  lemma {:induction false} ExecuteRespectsBudget(m: Machine, steps: int, cs: seq<Callback>)
    requires m.currentStep == |m.recorded| <= Max0(steps)
    ensures var (m1, thrown) := Execute(m, steps, cs);
      && |m1.recorded| <= Max0(steps)
      && (thrown.None? ==> m1.currentStep == |m1.recorded|)
    decreases |cs|
  {
    if cs != [] {
      var (m1, thrown) := Deliver(m, steps, cs[0]);
      if thrown.None? {
        ExecuteRespectsBudget(m1, steps, cs[1..]);
      }
    }
  }

  lemma StepPrintsAppend(records: seq<StepRecord>, r: StepRecord)
    ensures StepPrints(records + [r]) == StepPrints(records) + r.prints
  {
    assert (records + [r])[..|records|] == records;
  }

  /**
   * No print is lost or reordered while the run goes on: the prints carried
   * by the recorded steps, followed by the cache, are the prints so far.
   */
  lemma {:induction false} ExecuteKeepsPrints(m: Machine, steps: int, cs: seq<Callback>)
    ensures var (m1, thrown) := Execute(m, steps, cs);
      thrown.None? ==>
        StepPrints(m1.recorded) + m1.printCache == StepPrints(m.recorded) + m.printCache + PrintTexts(cs)
    decreases |cs|
  {
    if cs != [] {
      var (m1, thrown) := Deliver(m, steps, cs[0]);
      if thrown.None? {
        ExecuteKeepsPrints(m1, steps, cs[1..]);
        match cs[0]
        case OnPrint(text) =>
          assert m1.printCache == m.printCache + [text];
        case OnEvent(e) =>
          if e.Locatable? && e.threadName == "main" {
            StepPrintsAppend(m.recorded, SnapshotStep(e.snapshot, m.printCache));
          }
        case OnLock(_) =>
        case OnExternalFailure(_) =>
        case OnUnexpected(_) =>
      }
    }
  }

  // ---------------------------------------------------------------------------

  class Tracer {
    const source: string
    const input: string
    const steps: int
    var currentStep: int
    var printCache: seq<string>
    var recorded: seq<StepRecord>

    function State(): Machine
      reads this
    {
      Machine(currentStep, printCache, recorded)
    }

    /** A new tracer has counted no step, caches no print and has no result. */
    constructor(source: string, input: string, steps: int)
      ensures this.source == source && this.input == input && this.steps == steps
      ensures State() == Machine(0, [], [])
    {
      this.source := source;
      this.input := input;
      this.steps := steps;
      currentStep := 0;
      printCache := [];
      recorded := [];
    }

    method Trace(e: Event) returns (thrown: Option<TraceException>)
      modifies this
      ensures (State(), thrown) == TraceEvent(old(State()), steps, e)
    {
      if e.Lifecycle? && printCache != [] {
        var traceback := LineReassembly.Concat(printCache);
        printCache := [];
        return Some(PrintedException(traceback));
      }
      if !e.Locatable? || e.threadName != "main" {
        return None;
      }
      currentStep := currentStep + 1;
      if currentStep > steps {
        return Some(TracerStop(BudgetMessage(steps)));
      }
      recorded := recorded + [SnapshotStep(e.snapshot, printCache)];
      printCache := [];
      thrown := None;
    }

    /** `printHook`: the text joins the cache, after what is already there. */
    method PrintHook(text: string)
      modifies this
      ensures State() == old(State()).(printCache := old(printCache) + [text])
    {
      printCache := printCache + [text];
    }

    /** `lockHook`: whatever the cause, the run is stopped. */
    method LockHook(cause: string) returns (thrown: TraceException)
      ensures thrown == TracerStop(LockMessage)
    {
      thrown := TracerStop(LockMessage);
    }

    /** `run`, driven by the executor's callbacks. */
    method Run(callbacks: seq<Callback>) returns (result: seq<StepRecord>)
      modifies this
      ensures State() == RunOutcome(old(State()), steps, callbacks)
      ensures result == recorded
    {
      ghost var start := old(State()).(recorded := []);
      recorded := [];
      var i := 0;
      while i < |callbacks|
        invariant 0 <= i <= |callbacks|
        invariant Execute(start, steps, callbacks) == Execute(State(), steps, callbacks[i..])
      {
        assert callbacks[i..][0] == callbacks[i] && callbacks[i..][1..] == callbacks[i + 1..];
        var thrown: Option<TraceException>;
        match callbacks[i] {
          case OnEvent(e) =>
            thrown := Trace(e);
          case OnPrint(text) =>
            PrintHook(text);
            thrown := None;
          case OnLock(cause) =>
            var stop := LockHook(cause);
            thrown := Some(stop);
          case OnExternalFailure(message) =>
            thrown := Some(ExternalFailure(message));
          case OnUnexpected(className) =>
            thrown := Some(Internal(className));
        }
        if thrown.Some? {
          recorded := recorded + [FailureStep(ThrewOf(thrown.value), printCache)];
          return recorded;
        }
        i := i + 1;
      }
      result := recorded;
    }
  }
}
