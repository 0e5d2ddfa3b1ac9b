/**
 * The earliest tracer client (`TracerClient`): no session states, only a
 * guard that the process has been spawned. Commands write a line to stdin and
 * return at once; stdout lines starting with `{` are decoded, each as a single
 * result, and only logged.
 *
 * Transport: the process's stdout and stderr are given, as chunks, when it is
 * spawned; stdin is an append-only log of the writes to the current process.
 */
module TracerClientModel {
  import opened Wrappers
  import opened TracerResults
  import LineReassembly

  /** JSON decoding of one stdout line into a single result. */
  type ResultDecoder = string -> Result<TraceResult, string>

  /**
   * The results the stdout observable delivers: the `{` lines, each decoded,
   * up to the first line that fails to decode (which ends the observable).
   */
  function ObjectResults(lines: seq<string>, decode: ResultDecoder): (results: seq<TraceResult>)
    decreases |lines|
  {
    if lines == [] then []
    else if !StartsWith(lines[0], '{') then ObjectResults(lines[1..], decode)
    else if decode(lines[0]).Err? then []
    else [decode(lines[0]).value] + ObjectResults(lines[1..], decode)
  }

  /**
   * Each delivered result comes from its own `{` line, in order; lines not
   * starting with `{` never produce a result, and without a decoding failure
   * there is exactly one result per `{` line. When results fall short, the
   * next `{` line is the one whose decoding failed and ended the observable.
   */
  lemma {:induction false} ObjectResultsFromBraceLines(lines: seq<string>, decode: ResultDecoder)
    ensures |ObjectResults(lines, decode)| <= |BraceLines(lines)|
    ensures forall i :: 0 <= i < |ObjectResults(lines, decode)| ==>
      decode(BraceLines(lines)[i]) == Ok(ObjectResults(lines, decode)[i])
    ensures (forall l :: l in BraceLines(lines) ==> decode(l).Ok?) ==>
      |ObjectResults(lines, decode)| == |BraceLines(lines)|
    ensures |ObjectResults(lines, decode)| < |BraceLines(lines)| ==>
      decode(BraceLines(lines)[|ObjectResults(lines, decode)|]).Err?
    decreases |lines|
  {
    if lines != [] {
      ObjectResultsFromBraceLines(lines[1..], decode);
      if StartsWith(lines[0], '{') && decode(lines[0]).Ok? {
        var rs := ObjectResults(lines, decode);
        var bs := BraceLines(lines);
        assert rs == [decode(lines[0]).value] + ObjectResults(lines[1..], decode);
        assert bs == [lines[0]] + BraceLines(lines[1..]);
        forall i | 0 <= i < |rs| ensures decode(bs[i]) == Ok(rs[i]) {
          if i > 0 {
            assert rs[i] == ObjectResults(lines[1..], decode)[i - 1];
            assert bs[i] == BraceLines(lines[1..])[i - 1];
          }
        }
        if |rs| < |bs| {
          assert bs[|rs|] == BraceLines(lines[1..])[|rs| - 1];
        }
      }
    }
  }

  /** The stdout lines starting with `{`, in order. */
  function BraceLines(lines: seq<string>): (kept: seq<string>)
    ensures forall l :: l in kept <==> l in lines && StartsWith(l, '{')
    decreases |lines|
  {
    if lines == [] then []
    else if StartsWith(lines[0], '{') then [lines[0]] + BraceLines(lines[1..])
    else BraceLines(lines[1..])
  }

  /** The filter distributes over concatenation, so it keeps the kept lines' order and number. */
  lemma {:induction false} BraceLinesAppend(a: seq<string>, b: seq<string>)
    ensures BraceLines(a + b) == BraceLines(a) + BraceLines(b)
    decreases |a|
  {
    if a == [] {
      assert a + b == b;
    } else {
      assert (a + b)[1..] == a[1..] + b;
      BraceLinesAppend(a[1..], b);
    }
  }

  const NotSpawned: string := "tracer not spawned"

  class TracerClient {
    const command: string
    const decode: ResultDecoder
    /** Whether `instance` is set. */
    var spawned: bool
    /** The writes the current process's stdin has received. */
    var written: seq<string>
    /** The results logged from stdout. */
    var stdoutResults: seq<TraceResult>
    /** The lines logged from stderr. */
    var stderrLines: seq<string>

    constructor (command: string, decode: ResultDecoder)
      ensures this.command == command && this.decode == decode
      ensures !spawned && written == [] && stdoutResults == [] && stderrLines == []
    {
      this.command := command;
      this.decode := decode;
      spawned := false;
      written := [];
      stdoutResults := [];
      stderrLines := [];
    }

    /** `requireSpawned`: throws `tracer not spawned` until `spawn` has run. */
    function RequireSpawned(): (error: Option<string>)
      reads this
      ensures error.None? <==> spawned
      ensures error.Some? ==> error.value == NotSpawned
    {
      if spawned then None else Some(NotSpawned)
    }

    /** `spawn`: unguarded; starts a new process whose output carries the given chunks. */
    method Spawn(outChunks: seq<string>, errChunks: seq<string>)
      modifies this
      ensures spawned && written == []
      ensures stdoutResults == ObjectResults(LineReassembly.ChunksToLines(outChunks), decode)
      ensures stderrLines == LineReassembly.ChunksToLines(errChunks)
    {
      spawned := true;
      written := [];
      stdoutResults := ObjectResults(LineReassembly.ChunksToLines(outChunks), decode);
      stderrLines := LineReassembly.ChunksToLines(errChunks);
    }

    /** Writes one command line to the process, if it has been spawned. */
    method Write(line: string) returns (error: Option<string>)
      modifies this`written
      ensures error == RequireSpawned()
      ensures written == old(written) + (if spawned then [line] else [])
    {
      error := RequireSpawned();
      if error.None? {
        written := written + [line];
      }
    }

    /** `start`: writes `start\n`. */
    method Start() returns (error: Option<string>)
      modifies this`written
      ensures error == RequireSpawned()
      ensures written == old(written) + (if spawned then ["start\n"] else [])
    {
      error := Write("start\n");
    }

    /** `step`: writes `step\n`. */
    method Step() returns (error: Option<string>)
      modifies this`written
      ensures error == RequireSpawned()
      ensures written == old(written) + (if spawned then ["step\n"] else [])
    {
      error := Write("step\n");
    }

    /** `input`: writes `input <value>\n`. */
    method Input(value: string) returns (error: Option<string>)
      modifies this`written
      ensures error == RequireSpawned()
      ensures written == old(written) + (if spawned then ["input " + value + "\n"] else [])
    {
      error := Write("input " + value + "\n");
    }

    /** `stop`: writes `stop\n` and changes nothing else, so later commands are still accepted. */
    method Stop() returns (error: Option<string>)
      modifies this`written
      ensures error == RequireSpawned()
      ensures written == old(written) + (if spawned then ["stop\n"] else [])
    {
      error := Write("stop\n");
    }
  }
}
