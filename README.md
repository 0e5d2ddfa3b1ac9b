# Willow tracer sessions, in Dafny

This project models the core of Willow, a program visualiser. A client drives
an external tracer process with the line commands `start`, `step`,
`input <v>` and `stop`. It rebuilds newline-terminated lines from stdout
chunks, which may be cut anywhere. It decodes result batches from those
lines. It moves a small session state machine (`created → started → stopped`)
according to the last result of each batch.

The repository has several versions of this client, and each is modelled on
its own because their rules differ:

- `ProcessClientModel.ProcessClient` is the lenient client. It drops stdout
  lines that do not start with `[` and reads batches through an async
  generator (`observableGenerator`, modelled by `RunGenerator` and `Next`).
- `TracerProcessModel.TracerProcess` is the strict client. Every stderr
  line, and every stdout line that is not a batch, is an error.
- `TracerClientModel.TracerClient` is the earliest client. It has only a
  "spawned" guard and decodes `{` lines as single results.
- `BrokerModel.TracerBroker` is the Python broker. It talks to the tracer
  through an action queue and a result queue, and collects results until a
  terminal kind arrives.

The line reassembler `observableAnyToLines` is modelled once, in
`LineReassembly`, as the fold it is. Both TypeScript clients share it, since
the copies in `tracers/src/tracer/process-client.ts` and `tracers/src/tracer.ts`
differ only in variable names. It is proved:

- to emit exactly the complete lines of the concatenated text;
- to be independent of how the text is cut into chunks;
- to emit lines that each end in their only newline;
- never to emit the trailing fragment after the last newline;
- never to retract a line once more chunks arrive.

The smaller sequential pieces are modelled too:

- the web client's Redux reducers (`CodeReducer`, `OutputReducer`,
  `TracerReducer`, `LanguageReducer`, `ProgramReducer`);
- the Java tracer's command line (`TracerCli`): argument parsing and the
  controlled-mode dispatch loop;
- the Java tracer's step budget, print cache and failure paths (`JavaTracer`);
- the Java tracer's project lifecycle (`JavaProject`).

Transport is abstracted throughout:

- the output a process will produce is given as chunks or lines when the
  process is spawned;
- stdin is an append-only log of what was written;
- JSON decoding is a function parameter (`TracerResults.Decoder`);
- a result carries two independent flags, "last" and "error", and both may
  hold at once;
- a promise that never settles is an explicit `Stalled` or `Blocked` reply.

Behaviours of the code that are easy to misread; the model follows the
code:

- `stop` from `stopped` throws (`unexpected tracer state`). It is not a
  silent no-op.
- In both TypeScript session clients, a batch ending in a last result after
  `start` leaves the session `started`. Only an error result stops it there.
- In `TracerProcess`, a line that fails to classify is thrown to the caller
  of the awaiting command. The session keeps its state; it is not forced to
  `stopped`.
- `TracerProcess.start` consumes and discards one batch line before it
  writes `start`.
- A second `Project.compile` always throws: `Files.createDirectory` meets the
  `bin/` directory the first call created.
- The Java tracer's exception type is the word after the thread name, up to
  the next space (`PrintedTypeOfUncaught`). For the JVM's report
  `Exception in thread "main" java.lang.X: msg` that word is `java.lang.X:`,
  colon included; without a message it runs across the line break into the
  first stack-trace line.

## Model

| member | source | states |
|---|---|---|
| TracerResults.RequireState | tracers/src/tracer/process-client.ts:32-35 | no error exactly when the current state is among the expected ones; otherwise the `unexpected tracer state` message naming the current state and the expected list |
| TracerResults.StopGuard | tracers/src/tracer/process-client.ts:60-86 | `stop`'s guard fails only from `stopped` (so a second `stop` throws); `start`'s passes only from `created`; `input`'s and `step`'s only from `started` |
| TracerResults.StartRuleIsNarrower | tracers/src/tracer/process-client.ts:64-90 | every batch that stops the session after `start` stops it after `step`; a batch stops it after `step` but not after `start` exactly when its final result is a last result and not also an error result |
| ProcessClientModel.BatchLinesFilter | tracers/src/tracer/process-client.ts:46 | a line reaches the decoder if and only if it is a stdout line starting with `[`; all other lines are dropped |
| ProcessClientModel.BatchLinesAppend | tracers/src/tracer/process-client.ts:46 | the `[` filter distributes over concatenation, so it keeps the lines in order |
| ProcessClientModel.Decoded | tracers/src/tracer/process-client.ts:47 | each batch is the decoding of the line at its position; when lines remain undecoded, the first of them fails to parse and ends the stream |
| ProcessClientModel.StdoutBatchesFragmentationInvariant | tracers/src/tracer/process-client.ts:43-48 | the batch stream depends only on the stdout text, not on how it was chunked |
| ProcessClientModel.RunGenerator | tracers/src/tracer/process-client.ts:115-127 | the yielded values are a prefix of the values and none of them is falsy or stops; a returned value is the next value and is falsy or stops; without one, every value was yielded |
| ProcessClientModel.Next | tracers/src/tracer/process-client.ts:115-127 | one `next()`: a finished generator gives `undefined`; an empty one never settles; otherwise the first pending batch is delivered and the generator finishes exactly when that batch ends in a last result |
| ProcessClientModel.PullsThroughLast | tracers/src/tracer/process-client.ts:43-50 | successive `next()` calls deliver every batch up to and including the first one ending in a last result, and then `undefined` |
| ProcessClientModel.ReturnedBatchIsLastPull | tracers/src/tracer/process-client.ts:43-50 | when the generator loop, stopping at a batch ending in a last result, yields some batches and returns the next one, successive `next()` calls give those batches, then the returned one, then `undefined` |
| ProcessClientModel.ProcessClient.constructor | tracers/src/tracer/process-client.ts:24-27 | a new client is `created`, has written nothing and holds no stream |
| ProcessClientModel.ProcessClient.Spawn | tracers/src/tracer/process-client.ts:40-53 | stdin is set; stdout becomes a generator over the decoded `[` lines of the output; stderr becomes the reassembled stderr lines |
| ProcessClientModel.ProcessClient.Start | tracers/src/tracer/process-client.ts:59-68 | outside `created` it throws and changes nothing; otherwise it writes `start\n` and returns the first batch, ending `stopped` (with `stop\n` written) on an error result with every handle cleared, and `started` otherwise with the generator past that batch and the stderr lines kept; it stays `created` when no batch arrives |
| ProcessClientModel.ProcessClient.Stop | tracers/src/tracer/process-client.ts:70-77 | throws only from `stopped`; otherwise writes `stop\n` when stdin is set, always ends `stopped` and clears stdin, stdout and stderr |
| ProcessClientModel.ProcessClient.Input | tracers/src/tracer/process-client.ts:79-83 | only from `started`; writes exactly `input <value>\n` and changes nothing else |
| ProcessClientModel.ProcessClient.Step | tracers/src/tracer/process-client.ts:85-92 | only from `started`; writes `step\n` and returns the next batch, ending `stopped` exactly when it ends in a last or an error result; a finished generator makes reading the batch throw a `TypeError` and stays as it was, so every later `step` throws again; stderr is kept unless the session stops |
| TracerProcessModel.Classify | tracers/src/tracer/tracer-process.ts:42-47 | a line is a batch if and only if it is on stdout, starts with `[` and decodes; a stderr line is an error carrying its text; a stdout line without `[` is an error; a `[` line that fails to parse is a `SyntaxError` with the parser's message |
| TracerProcessModel.TracerProcess.constructor | tracers/src/tracer/tracer-process.ts:19-22 | a new client is `created`, not spawned, and has written nothing |
| TracerProcessModel.TakesInOrder | tracers/src/tracer/tracer-process.ts:49-52 | successive one-line awaits deliver the merged stream's lines in order, each classified, none skipped or repeated; only past its end is there no line, and then never again |
| TracerProcessModel.TracerProcess.Await | tracers/src/tracer/tracer-process.ts:49-52 | consumes exactly the next line of the merged stream and classifies it |
| TracerProcessModel.TracerProcess.Start | tracers/src/tracer/tracer-process.ts:36-56 | only from `created`; consumes one batch line, then writes `start` and returns the next batch, ending `stopped` on an error result and `started` otherwise; a failing or missing line leaves it `created`; in every case the merged stream has lost exactly the lines awaited |
| TracerProcessModel.TracerProcess.Stop | tracers/src/tracer/tracer-process.ts:58-66 | throws only from `stopped`; otherwise writes `stop`, completes stdin and always ends `stopped` |
| TracerProcessModel.TracerProcess.Input | tracers/src/tracer/tracer-process.ts:68-72 | only from `started`; sends exactly `input <value>`, and nothing else changes |
| TracerProcessModel.TracerProcess.Step | tracers/src/tracer/tracer-process.ts:74-81 | only from `started`; sends `step` and returns the next batch, ending `stopped` exactly when it ends in a last or an error result; a failing line is thrown and leaves the session `started`; exactly one line of the merged stream is consumed |
| TracerClientModel.BraceLines | tracers/src/tracer.ts:40 | a line is kept if and only if it is a stdout line starting with `{` |
| TracerClientModel.BraceLinesAppend | tracers/src/tracer.ts:40 | the filter distributes over concatenation, so the kept lines keep their order and number |
| TracerClientModel.ObjectResultsFromBraceLines | tracers/src/tracer.ts:38-42 | each logged result is the decoding of the `{` line at its position, and when every `{` line decodes, all of them are logged; when results fall short, the next `{` line is the one that failed to decode and ended the stream |
| TracerClientModel.TracerClient.constructor | tracers/src/tracer.ts:21-23 | a new client is not spawned and has written and logged nothing |
| TracerClientModel.TracerClient.RequireSpawned | tracers/src/tracer.ts:28-30 | throws `tracer not spawned` if and only if `spawn` has not run |
| TracerClientModel.TracerClient.Spawn | tracers/src/tracer.ts:35-47 | starts a fresh process; logs the decoded `{` lines and the stderr lines that `observableAnyToLines` emits |
| TracerClientModel.TracerClient.Write | tracers/src/tracer.ts:49-67 | a command writes its line exactly when the client is spawned, and throws otherwise |
| TracerClientModel.TracerClient.Start | tracers/src/tracer.ts:49-52 | writes exactly `start\n` when spawned; throws `tracer not spawned` otherwise |
| TracerClientModel.TracerClient.Step | tracers/src/tracer.ts:54-57 | writes exactly `step\n` when spawned; throws otherwise |
| TracerClientModel.TracerClient.Input | tracers/src/tracer.ts:59-62 | writes exactly `input <value>\n` when spawned; throws otherwise |
| TracerClientModel.TracerClient.Stop | tracers/src/tracer.ts:64-67 | writes exactly `stop\n` and changes nothing else, so later commands are still accepted |
| LineReassembly.SplitParts | tracers/src/tracer/process-client.ts:103-104 | the non-empty pieces of `split(/(\n)/)` concatenate back to the text, and each is a lone newline or a run without newline |
| LineReassembly.PartsOfConcat | tracers/src/tracer/process-client.ts:101-104 | the pieces of all chunks concatenate to the chunks' text |
| LineReassembly.EmitIsLinesOf | tracers/src/tracer/process-client.ts:105-108 | the scan's invariant: from an accumulator with a pending fragment, the remaining pieces emit exactly the complete lines of the fragment followed by them |
| LineReassembly.ChunksToLinesIsLinesOf | tracers/src/tracer/process-client.ts:98-110 | the emitted lines are exactly the newline-terminated lines of the concatenated chunks |
| LineReassembly.FragmentationInvariance | tracers/src/tracer/process-client.ts:98-110 | two chunkings of the same text emit the same lines |
| LineReassembly.ChunksToLinesFraming | tracers/src/tracer/process-client.ts:98-110 | every emitted line ends in a newline and holds no other; their concatenation followed by the trailing fragment is the whole text; that fragment has no newline and is never emitted |
| LineReassembly.ChunksToLinesComplete | tracers/src/tracer/process-client.ts:98-110 | when the text ends in a newline, the emitted lines concatenate to all of it |
| LineReassembly.ChunksToLinesMonotone | tracers/src/tracer/process-client.ts:98-110 | more chunks only append lines: earlier output is a prefix of later output |
| LineReassembly.LinesOfReassembles | tracers/src/tracer/process-client.ts:106-108 | the complete lines followed by the trailing fragment give back the text |
| LineReassembly.LinesOfAreLines | tracers/src/tracer/process-client.ts:106-108 | every complete line ends in a newline and holds no other |
| LineReassembly.TrailingHasNoNewline | tracers/src/tracer/process-client.ts:106-107 | the fragment after the last newline holds no newline |
| LineReassembly.NoLineWithoutNewline | tracers/src/tracer/process-client.ts:107 | a text without newline yields no line and is all trailing fragment |
| LineReassembly.LinesOfPrefix | tracers/src/tracer/process-client.ts:106-107 | the lines of a text are a prefix of the lines of any extension of it |
| BrokerModel.Collect | tracerPython/src/broker.py:80-85 | the collected results and the rest make up the queue; no collected result but the last ends the collection; the collection is complete exactly when its last result ends it, and otherwise it drained the queue |
| BrokerModel.FirstEnd | tracerPython/src/broker.py:80-85 | the index found holds an ending result and no earlier one does; with none found, no result ends the collection |
| BrokerModel.CollectIsFirstEnd | tracerPython/src/broker.py:80-85 | a complete collection stops at the first ending result of the queue, so its results and the rest are fixed by the queue |
| BrokerModel.TracerBroker.constructor | tracerPython/src/broker.py:12-22 | a new broker is not running, has no manager and no queues, and has sent nothing |
| BrokerModel.TracerBroker.Put | tracerPython/src/broker.py:46 | the action is appended to the current action queue and to the record of sent actions |
| BrokerModel.TracerBroker.Start | tracerPython/src/broker.py:30-52 | while running it raises `tracer already running` and changes nothing; otherwise it sends `START` and returns the first result as a one-element list, left running unless that result is `ERROR` (then `QUIT` is sent and everything is cleared); an empty result queue blocks; the action queue then holds just `START` |
| BrokerModel.TracerBroker.Stop | tracerPython/src/broker.py:54-68 | when not running it raises `tracer already stopped`; otherwise it sends `QUIT` and clears the process, the manager and both queues |
| BrokerModel.TracerBroker.Step | tracerPython/src/broker.py:70-90 | raises when not running or when `count < 1`; otherwise sends a step of count 1 and returns the results up to the first `DATA`, `ERROR` or `LOCKED`; stops exactly on a finishing `DATA` or on `ERROR`; while it keeps running, the step is appended to the action queue, and a refused `count` leaves the queue as it was |
| BrokerModel.TracerBroker.Eval | tracerPython/src/broker.py:92-110 | raises when not running; otherwise sends the expression to be inspected and returns the results up to the first `PRODUCT`, `ERROR` or `LOCKED`; stops only on `ERROR`; while it keeps running, the eval action is appended to the action queue |
| BrokerModel.TracerBroker.Input | tracerPython/src/broker.py:112-121 | raises `AssertionError` when not running and `AttributeError` for empty data; otherwise appends the data to the action queue; a refusal leaves the queue as it was; never takes a result |
| CodeReducer.Toggle | client/src/reducers/code.ts:24-30 | the line is in the result exactly when it was not in the set; every other line keeps its membership |
| CodeReducer.MarkerSet | client/src/reducers/code.ts:31 | a marker is in the set exactly when it is in the payload |
| CodeReducer.Reduce | client/src/reducers/code.ts:20-34 | a missing or unknown action keeps the state; `setText` replaces only the text; `setBreakpoint` toggles only that line; `setMarkers` replaces only the markers |
| CodeReducer.BreakpointToggleInvolution | client/src/reducers/code.ts:24-30 | toggling the same breakpoint twice restores the state |
| CodeReducer.BreakpointTogglesCommute | client/src/reducers/code.ts:24-30 | breakpoint toggles commute |
| OutputReducer.Outputs | client/src/reducers/tracer/output.ts:17-23 | one entry per step; entry 0 is step 0's error text and print; entry `i` is entry `i-1` followed by step `i`'s error text and print |
| OutputReducer.OutputsAreCumulative | client/src/reducers/tracer/output.ts:17-23 | entry `i` is everything steps `0..i` printed or raised, and each entry is a prefix of every later one |
| OutputReducer.EntryIsAllText | client/src/reducers/tracer/output.ts:18-21 | one entry is the text of all steps up to it |
| OutputReducer.EntryIsPrefix | client/src/reducers/tracer/output.ts:18-21 | an entry is a prefix of every later entry |
| OutputReducer.Compute | client/src/reducers/tracer/output.ts:15-25 | empty when the tracer is not available; when it is, one entry per step, and entry `i` is, for each of steps `0..i` in order, its error text (the exception's traceback, else the cause, else nothing) followed by its print; reading missing steps throws |
| OutputReducer.Reduce | client/src/reducers/tracer/output.ts:12-13 | `tracer/output/compute` replaces the state with its payload; anything else keeps it |
| TracerReducer.Reduce | client/src/reducers/tracer/tracer.ts:26-39 | a trace with a payload gives the initial state with the response and its steps; one with only an error gives the initial state; one with neither marks fetching; `tracer/available` sets only `available`; other actions keep the state |
| TracerReducer.TraceForgetsState | client/src/reducers/tracer/tracer.ts:28-33 | a trace's outcome does not depend on the previous state, a payload takes precedence over an error, and the result is never available |
| LanguageReducer.Reduce | client/src/reducers/language.ts:22-32 | a fetch with a payload replaces only the languages and ends the fetch; one with an error records it and ends the fetch; one with neither resets to the initial state, fetching; `select` changes only the selection; other actions keep the state |
| LanguageReducer.FetchThenSucceed | client/src/reducers/language.ts:24-27 | a successful fetch after a started one leaves the fetched languages, selection 0 and no error |
| ProgramReducer.First | client/src/reducers/program.ts:36 | the first language exists exactly when the list is non-empty, and is the list's first entry |
| ProgramReducer.Reduce | client/src/reducers/program.ts:29-49 | a fetch with a payload sets the languages and the first of them and ends the fetch; one with an error records it; one with neither only marks fetching; each setter replaces only its own field; other actions keep the state |
| ProgramReducer.FetchSelectsFetchedLanguage | client/src/reducers/program.ts:31-38 | after a successful fetch, the chosen language is one of the fetched languages (none for an empty list), and source and input are untouched |
| ProgramReducer.SetterLastWins | client/src/reducers/program.ts:41-46 | setting the same field twice keeps only the second value |
| ProgramReducer.SettersCommute | client/src/reducers/program.ts:41-46 | two setters commute exactly when they set different fields or are the same action |
| TracerCli.IndexOf | tracerJava/src/Main.java:39 | -1 exactly when the element is absent; otherwise the position of its first occurrence |
| TracerCli.RemoveFirst | tracerJava/src/Main.java:36-37 | an absent element leaves the list as it was; a present one shortens it by one |
| TracerCli.RemoveFirstCounts | tracerJava/src/Main.java:36-37 | removing a present element takes exactly one occurrence of it out of the list |
| TracerCli.WithoutFlagsCounts | tracerJava/src/Main.java:36-37 | removing the two flags takes out one copy of each flag present and nothing else; `--name` and `--omit-help` stay present exactly when they were |
| TracerCli.NameAndRest | tracerJava/src/Main.java:39-45 | fails exactly when the first `--name` is the last argument; without `--name` the name is `Main` and the list is unchanged; with it the name is the element after the first `--name` |
| TracerCli.NameAndRestCounts | tracerJava/src/Main.java:39-45 | as multisets, the list is what remains plus, when `--name` is present, one `--name` and one copy of the name |
| TracerCli.ParseArgs | tracerJava/src/Main.java:33-54 | the step-by-step parse over a local copy of the arguments, removing and looking up as the code does, gives the same answer as `Parsed` |
| TracerCli.ParsedFlags | tracerJava/src/Main.java:36-41 | in a successful parse each flag is set exactly when it was given; the name is `Main` when `--name` was not given, and otherwise the element after the first `--name` once the flags are removed |
| TracerCli.ParsedAccountsForArguments | tracerJava/src/Main.java:33-54 | a successful parse accounts for every argument: the code, each flag present, and `--name` with its value |
| TracerCli.ParsedRest | tracerJava/src/Main.java:39-52 | a parse succeeds exactly when the `--name` handling succeeds and leaves one argument, which is the code; more or fewer remaining is `WrongArguments` carrying them; a `--name` at the end is `NameValueMissing` |
| TracerCli.OmitHelpWithCodeIsRejected | tracerJava/src/Main.java:38 | as written, `--omit-help` followed by a code is rejected as wrong arguments |
| TracerCli.OmitHelpAnywhereIsAccepted | tracerJava/src/Main.java:38 | with the flag removed like the others, adding `--omit-help` anywhere only sets `omitHelp` |
| TracerCli.SplitActionJoins | tracerJava/src/Main.java:90-92 | without a space the whole line is the action and the value is empty; otherwise the action holds no space and action, space and value make up the line |
| TracerCli.DispatchByAction | tracerJava/src/Main.java:94-110 | `start`, `step`, `input` and `stop` select their broker call, `input` with the value; any other action word is reported as `action not found` |
| TracerCli.RunControlled | tracerJava/src/Main.java:86-111 | the lines are dispatched in order, errors included; the loop ends after the first `stop` and not before; without one, every line is dispatched |
| JavaTracer.IndexFrom | tracers/java/src/Tracer.java:194-195 | `indexOf(c, from)`: -1 when no position at or after `from` holds `c`; otherwise the first such position |
| JavaTracer.PrintedType | tracers/java/src/Tracer.java:194-196 | the extracted type is the text from just after the first space at or after index 20 up to the next space, and holds no space; the extraction fails exactly when there is no such next space |
| JavaTracer.PrintedTypeOfUncaught | tracers/java/src/Tracer.java:194-196 | for the JVM's report of an uncaught exception, the extracted type is the word after the quoted thread name |
| JavaTracer.PrintedException | tracers/java/src/Tracer.java:188-199 | a successful parse keeps the whole text as traceback and the extracted type; the parse throws exactly when the extraction fails |
| JavaTracer.TraceEvent | tracers/java/src/Tracer.java:106-131 | a lifecycle event with pending prints throws them joined and clears the cache; an event on `main` counts one step, throws `reached maximum step` past the budget, and otherwise records a step with the pending prints and clears the cache; any other event changes nothing |
| JavaTracer.ThrewOf | tracers/java/src/Tracer.java:58-91 | a stop or an external failure is reported as a cause carrying its message; a printed exception as an exception object with its type and traceback; any other exception by its class name |
| JavaTracer.ExecuteRecordsSnapshots | tracers/java/src/Tracer.java:106-131 | the executor's callbacks only ever record snapshot steps |
| JavaTracer.RunEndsWithOneFailure | tracers/java/src/Tracer.java:53-94 | a run's steps are snapshots, followed by exactly one failure step when an exception ended it; that step carries the prints still pending |
| JavaTracer.ExecuteRespectsBudget | tracers/java/src/Tracer.java:123 | starting within the budget, a run never records more steps than the budget allows, and while no exception is thrown the counter equals the number of recorded steps (one increment per recorded event) |
| JavaTracer.ExecuteKeepsPrints | tracers/java/src/Tracer.java:113-130 | while no exception is thrown, no print is lost or reordered: the prints of the recorded steps followed by the cache are the earlier prints followed by the texts printed since |
| JavaTracer.Tracer.constructor | tracers/java/src/Tracer.java:32-40 | a new tracer has counted no step, caches no print and has recorded nothing |
| JavaTracer.Tracer.Trace | tracers/java/src/Tracer.java:106-131 | the tracer's new state and exception are those of `TraceEvent` on its old state |
| JavaTracer.Tracer.PrintHook | tracers/java/src/Tracer.java:160-162 | the text joins the end of the cache, and nothing else changes |
| JavaTracer.Tracer.LockHook | tracers/java/src/Tracer.java:170-172 | always throws a stop with the lock message, whatever the cause |
| JavaTracer.Tracer.Run | tracers/java/src/Tracer.java:53-94 | the run's result is the recorded steps of `RunOutcome`: the callbacks' steps plus one failure step when an exception ended the run |
| JavaProject.LastIndexOf | tracerJava/src/core/Project.java:48 | -1 exactly when the character is absent; otherwise a position holding it with none after it |
| JavaProject.StripExtension | tracerJava/src/core/Project.java:48 | fails exactly when the name has no `.`; otherwise the result is the part before the last `.` |
| JavaProject.StripExtensionOfJoined | tracerJava/src/core/Project.java:48 | stripping `name.ext`, with no `.` in `ext`, gives `name` back |
| JavaProject.StripAll | tracerJava/src/core/Project.java:118-121 | succeeds exactly when every listed name has a `.`, and then gives each name stripped of its last extension, in order |
| JavaProject.Project.constructor | tracerJava/src/core/Project.java:33-37 | a new project is neither generated nor compiled |
| JavaProject.Project.MainClass | tracerJava/src/core/Project.java:47-49 | a prefix of the file name followed by a `.`, with no `.` after that one (so cut at the last `.`); fails exactly when the name has no `.` |
| JavaProject.Project.Generate | tracerJava/src/core/Project.java:75-84 | refused for a generated project; blank code is refused with the empty-file message and leaves the project ungenerated; otherwise the project and its source paths are set |
| JavaProject.Project.Compile | tracerJava/src/core/Project.java:86-112 | refused for an ungenerated project; a second compile fails because `bin/` already exists; otherwise the project is compiled even when the compiler fails, and an error is returned exactly when it fails, with the compiler's output and diagnostics |
| JavaProject.Project.GetClasses | tracerJava/src/core/Project.java:114-125 | refused for an uncompiled project; a failed listing gives no names; otherwise the listed names stripped of their last extension |

## Left out

- Process spawning, rxjs and `async`/`await` are not modelled. A process's
  whole output is given when it is spawned. Awaiting past the end of that
  output is the explicit `Stalled` (TypeScript) or `Blocked` (Python) reply.
- `observableGenerator` subscribes afresh to a hot stream for each value.
  The lines a process emits while no subscription is active are therefore
  lost, and the model does not capture this: every batch reaches the
  generator in order.
- Buffer-to-UTF-8 decoding of the chunks is not modelled. A chunk is
  already-decoded text, so a multi-byte character cut across two chunks is
  not captured.
- JSON decoding is a parameter, and a result's payload is opaque text. The
  result module is not part of this model, so whether a result is a last
  result and whether it is an error result are two independent flags of the
  result; every combination is allowed.
- A batch is a non-empty list of results. A stdout line `[]` decodes to an
  empty array, which the code accepts (an array is never falsy) and then
  passes `undefined` to `isLastResult`; the model treats that line as a
  decode failure instead. What `isLastResult(undefined)` does belongs to the
  result module, which is not part of this model.
- The console logging of stderr lines and decoded results is not modelled.
  The logged values are kept as fields.
- `ObservableProcess`, the transport of the strict client, is not part of
  this model. Each `stdin.next(line)` is taken to write the line followed by
  a newline, and its stdin is taken to exist from construction on. Its
  multiplexed stream is taken to deliver each line once: every
  `take(1)` receives exactly the next line, and no line is lost between two
  subscriptions. A stream that ends with no further line is modelled as
  `Stalled`; the code would instead resolve to `undefined` and throw a
  `TypeError` at `results.length`.
- `BrokerModel.TracerBroker`: the event module defines only the `START`
  action and the `STARTED` and `ERROR` results. The broker also uses the
  actions `QUIT`, `STEP`, `EVAL` and `INPUT` and the results `DATA`,
  `LOCKED` and `PRODUCT`, which are not defined there. As written, `stop`,
  `step`, `eval` and `input` would raise `AttributeError` after their guard
  and before putting anything, and `start` answered by `ERROR` would raise
  it from `stop` with the process still running. The model assumes these
  event names exist and sends the events the code names.
- The broker's `multiprocessing` manager, process, `terminate` and `join`
  are presence flags. Its queues are sequences, and the tracer's answers are
  given when it is started. The tracer in the other process is not part of
  this model, nor is the content of `DATA` values beyond their `finish` flag.
- The server's single-shot tracing, the HTTP routes, authentication, the
  async action creators and the React components are not modelled: they are
  network, timer and UI code.
- In `Main`, standard input and output, the help text, the uncontrolled mode
  and the broker calls' own effects are not modelled. The loop catches every
  exception a broker call throws, so the calls it makes do not depend on
  their outcomes.
- `CodeReducer.MarkerSet`: a JavaScript `Set` of marker objects keeps two
  equal markers that are distinct objects, and keeps insertion order; the
  model's `set<Marker>` merges equal markers and has no order. The same
  order loss applies to the breakpoint set.
- `TracerCli.ParseArgs` returns the parsed arguments instead of a map of
  objects. `IllegalArgumentException` is `WrongArguments`, and the index
  error of a `--name` at the end is `NameValueMissing`.
- In the Java tracer, the executor, the JDI events and the inspector are not
  modelled. A run is the sequence of callbacks the executor makes, and a
  snapshot is an opaque value carried by the event.
- A failure of the inspector or of the print-array collector is an
  `OnUnexpected` callback carrying the exception's class name.
- `JavaTracer.Tracer.Run`: for an unexpected exception, the failure step
  records only the exception's class name, not its printed stack trace.
- `inputHook` is not modelled: it only returns the configured input.
- `JavaTracer.ExecuteRespectsBudget`: the step counter is an unbounded
  integer. The 32-bit overflow of `++currentStep` is not modelled.
- In `Project`, the file system and `javac` are not modelled. Paths are
  presence flags, and the compiler's verdict, output and diagnostics are
  parameters of `Compile`. The directory listing is a parameter of
  `GetClasses`. An I/O failure while creating directories or writing the
  source file is not modelled, except the one every second `compile` meets:
  `bin/` exists by then, so `Files.createDirectory` throws.
- `IsJavaWhitespace` follows `Character.isWhitespace` for the characters it
  lists.

## Findings

| source | as written | input that shows it | evidently intended | confidence | as-written member | corrected member |
|---|---|---|---|---|---|---|
| tracerJava/src/Main.java:38 | `--omit-help` is only looked up and never removed, so it still counts as a positional argument in the check that exactly one argument remains | `["--omit-help", "code"]` is rejected as wrong arguments | the flag is removed like `--sandbox` and `--uncontrolled`, so `--omit-help` can be given with the code | not executed | TracerCli.OmitHelpWithCodeIsRejected | TracerCli.OmitHelpAnywhereIsAccepted |
