/**
 * The strict tracer client (`TracerProcess`): the same command surface as the
 * lenient client, but every stderr line and every stdout line that is not a
 * batch is an error, and one line is consumed before `start` is sent.
 *
 * Transport: the process's merged line stream (`stdMux`) is given when it is
 * spawned; reaching its end means the awaited line never arrives. Each
 * `stdin.next(line)` is recorded with the newline the transport appends. The
 * process object, and so its stdin, exists from construction on.
 */
module TracerProcessModel {
  import opened Wrappers
  import opened TracerResults

  datatype Stream = Stdout | Stderr

  /** One line of the merged stream, tagged with the stream it came from. */
  datatype StreamLine = StreamLine(stream: Stream, line: string)

  /** The errors the line classifier throws. */
  datatype LineError = ProcessError(message: string) | SyntaxError(message: string)

  /**
   * The strict line classifier inside `start`: a stderr line is an error
   * carrying its text, a stdout line not starting with `[` is an error, and a
   * `[` line that fails to decode is a syntax error carrying the decoder's
   * message; otherwise the line's batch.
   */
  function Classify(sl: StreamLine, decode: Decoder): (r: Result<Batch, LineError>)
    ensures r.Ok? <==> sl.stream.Stdout? && StartsWith(sl.line, '[') && decode(sl.line).Ok?
    ensures r.Ok? ==> decode(sl.line) == Ok(r.value)
    ensures sl.stream.Stderr? ==> r == Err(ProcessError("process stderr: " + sl.line))
    ensures sl.stream.Stdout? && !StartsWith(sl.line, '[') ==>
      r == Err(ProcessError("process stdout: " + sl.line))
    ensures sl.stream.Stdout? && StartsWith(sl.line, '[') && decode(sl.line).Err? ==>
      r == Err(SyntaxError("process stdout: " + decode(sl.line).error))
  {
    if sl.stream.Stderr? then Err(ProcessError("process stderr: " + sl.line))
    else if !StartsWith(sl.line, '[') then Err(ProcessError("process stdout: " + sl.line))
    else
      var decoded := decode(sl.line);
      if decoded.Ok? then Ok(decoded.value) else Err(SyntaxError("process stdout: " + decoded.error))
  }

  /** What awaiting one line of `results` gives. */
  datatype Taken = Line(line: Result<Batch, LineError>) | NoLine

  /** `results.pipe(take(1)).toPromise()`: the next line, classified, and the rest of the stream. */
  function Take(mux: seq<StreamLine>, decode: Decoder): (Taken, seq<StreamLine>)
  {
    if mux == [] then (NoLine, []) else (Line(Classify(mux[0], decode)), mux[1..])
  }

  /** What `n` successive awaits of one line each give, starting from `mux`. */
  function Takes(mux: seq<StreamLine>, decode: Decoder, n: nat): seq<Taken>
    decreases n
  {
    if n == 0 then [] else [Take(mux, decode).0] + Takes(Take(mux, decode).1, decode, n - 1)
  }

  /**
   * Successive awaits deliver the lines of the merged stream in order, each
   * classified, none skipped and none repeated; only past its end does an
   * await find no line, and from then on every await does.
   */
  lemma {:induction false} TakesInOrder(mux: seq<StreamLine>, decode: Decoder, n: nat)
    ensures |Takes(mux, decode, n)| == n
    ensures forall i :: 0 <= i < n && i < |mux| ==> Takes(mux, decode, n)[i] == Line(Classify(mux[i], decode))
    ensures forall i :: |mux| <= i < n ==> Takes(mux, decode, n)[i] == NoLine
    decreases n
  {
    if n > 0 {
      var rest := Take(mux, decode).1;
      TakesInOrder(rest, decode, n - 1);
      var t := Takes(mux, decode, n);
      assert t == [Take(mux, decode).0] + Takes(rest, decode, n - 1);
      if mux != [] {
        assert forall i :: 1 <= i < |mux| ==> mux[i] == rest[i - 1];
      }
    }
  }

  /** What a command gives its caller. */
  datatype Reply =
    | Returned(batch: Batch)
    | Threw(message: string)       // the state guard's error
    | LineFailed(error: LineError) // the classifier's error, rejected through the awaited promise
    | Stalled                      // no line ever arrives

  class TracerProcess {
    /** `JSON.parse` of one stdout line. */
    const decode: Decoder
    var state: State
    var spawned: bool
    /** The lines the process's stdin has received, newline included. */
    var written: seq<string>
    var stdinCompleted: bool
    /** The lines of the merged stream not yet consumed. */
    var mux: seq<StreamLine>

    /** Nothing is written before the process is spawned, except by `stop`. */
    ghost predicate Valid()
      reads this
    {
      && (state == Started ==> spawned && !stdinCompleted)
      && (state == Created ==> !stdinCompleted)
      && (state == Stopped <==> stdinCompleted)
    }

    constructor (command: string, decode: Decoder)
      ensures Valid()
      ensures this.decode == decode
      ensures state == Created && !spawned && written == [] && !stdinCompleted && mux == []
    {
      this.decode := decode;
      state := Created;
      spawned := false;
      written := [];
      stdinCompleted := false;
      mux := [];
    }

    function GetState(): State
      reads this
    {
      state
    }

    /** Consumes and classifies the next line of the merged stream. */
    method Await() returns (taken: Taken)
      modifies this`mux
      ensures (taken, mux) == Take(old(mux), decode)
    {
      taken, mux := Take(mux, decode).0, Take(mux, decode).1;
    }

    /**
     * `start`: only from `created`. Spawns the process and awaits one line,
     * which must be a batch and is discarded; then writes `start` and awaits
     * the batch that answers it. The session is then started, or stopped when
     * that batch ends in an error result. A failing line leaves the session
     * created.
     */
    method Start(lines: seq<StreamLine>) returns (reply: Reply)
      requires Valid()
      modifies this
      ensures Valid()
      ensures old(state) != Created ==>
        reply == Threw(RequireState(old(state), [Created]).value)
        && state == old(state) && written == old(written) && mux == old(mux) && spawned == old(spawned)
        && stdinCompleted == old(stdinCompleted)
      ensures old(state) == Created ==> spawned && match Take(lines, decode).0
        case NoLine =>
          reply == Stalled && state == Created && written == old(written)
          && mux == Take(lines, decode).1 && !stdinCompleted
        case Line(Err(e)) =>
          reply == LineFailed(e) && state == Created && written == old(written)
          && mux == Take(lines, decode).1 && !stdinCompleted
        case Line(Ok(_)) =>
          var (answer, rest) := Take(Take(lines, decode).1, decode);
          mux == rest && match answer
          case NoLine =>
            reply == Stalled && state == Created && written == old(written) + ["start\n"] && !stdinCompleted
          case Line(Err(e)) =>
            reply == LineFailed(e) && state == Created && written == old(written) + ["start\n"] && !stdinCompleted
          case Line(Ok(b)) =>
            reply == Returned(b)
            && (if StopsAfterStart(b) then
                  state == Stopped && written == old(written) + ["start\n", "stop\n"] && stdinCompleted
                else
                  state == Started && written == old(written) + ["start\n"] && !stdinCompleted)
    {
      var guard := RequireState(state, [Created]);
      if guard.Some? {
        return Threw(guard.value);
      }
      spawned := true;
      mux := lines;
      var banner := Await();
      match banner {
        case NoLine => return Stalled;
        case Line(Err(e)) => return LineFailed(e);
        case Line(Ok(_)) =>
      }
      written := written + ["start\n"];
      var answer := Await();
      match answer {
        case NoLine => return Stalled;
        case Line(Err(e)) => return LineFailed(e);
        case Line(Ok(results)) =>
          state := Started;
          if StopsAfterStart(results) {
            var _ := Stop();
          }
          reply := Returned(results);
      }
    }

    /**
     * `stop`: only from `created` or `started`. Writes `stop` and completes
     * stdin (failures are ignored), and always ends stopped.
     */
    method Stop() returns (error: Option<string>)
      requires Valid()
      modifies this
      ensures Valid()
      ensures error == RequireState(old(state), [Started, Created])
      ensures mux == old(mux) && spawned == old(spawned)
      ensures old(state) == Stopped ==> state == Stopped && written == old(written)
      ensures old(state) != Stopped ==>
        state == Stopped && stdinCompleted && written == old(written) + ["stop\n"]
    {
      error := RequireState(state, [Started, Created]);
      if error.Some? {
        return;
      }
      written := written + ["stop\n"];
      stdinCompleted := true;
      state := Stopped;
    }

    /** `input`: only from `started`; sends exactly `input <value>` and awaits nothing. */
    method Input(value: string) returns (error: Option<string>)
      requires Valid()
      modifies this
      ensures Valid()
      ensures error == RequireState(old(state), [Started])
      ensures state == old(state) && mux == old(mux) && spawned == old(spawned) && stdinCompleted == old(stdinCompleted)
      ensures written == old(written) + (if error.None? then ["input " + value + "\n"] else [])
    {
      error := RequireState(state, [Started]);
      if error.None? {
        written := written + ["input " + value + "\n"];
      }
    }

    /**
     * `step`: only from `started`. Writes `step` and awaits the next line; the
     * session stops when its batch ends in a last or an error result. A
     * failing line is thrown to the caller and leaves the session started.
     */
    method Step() returns (reply: Reply)
      requires Valid()
      modifies this
      ensures Valid()
      ensures old(state) != Started ==>
        reply == Threw(RequireState(old(state), [Started]).value)
        && state == old(state) && written == old(written) && mux == old(mux)
        && stdinCompleted == old(stdinCompleted)
      ensures spawned == old(spawned)
      ensures old(state) == Started ==>
        var (answer, rest) := Take(old(mux), decode);
        mux == rest && match answer
        case NoLine =>
          reply == Stalled && state == Started && written == old(written) + ["step\n"] && !stdinCompleted
        case Line(Err(e)) =>
          reply == LineFailed(e) && state == Started && written == old(written) + ["step\n"] && !stdinCompleted
        case Line(Ok(b)) =>
          reply == Returned(b)
          && (if StopsAfterStep(b) then
                state == Stopped && written == old(written) + ["step\n", "stop\n"] && stdinCompleted
              else
                state == Started && written == old(written) + ["step\n"] && !stdinCompleted)
    {
      var guard := RequireState(state, [Started]);
      if guard.Some? {
        return Threw(guard.value);
      }
      written := written + ["step\n"];
      var answer := Await();
      match answer {
        case NoLine => reply := Stalled;
        case Line(Err(e)) => reply := LineFailed(e);
        case Line(Ok(results)) =>
          if StopsAfterStep(results) {
            var _ := Stop();
          }
          reply := Returned(results);
      }
    }
  }
}
