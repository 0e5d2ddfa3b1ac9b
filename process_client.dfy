/**
 * The lenient tracer client (`ProcessClient`): spawns the tracer, writes the
 * line commands `start`, `step`, `input <v>` and `stop` to its stdin, and reads
 * result batches from its stdout through an async generator.
 *
 * Transport: the tracer's whole stdout and stderr are given, as chunks, when
 * the process is spawned; stdin is an append-only log of the writes.
 */
module ProcessClientModel {
  import opened Wrappers
  import opened TracerResults
  import LineReassembly

  // ---------------------------------------------------------------------------
  // stdout: from lines to batches

  /** The stdout lines kept by the `startsWith('[')` filter, in order. */
  function BatchLines(lines: seq<string>): seq<string>
  {
    if lines == [] then []
    else (if StartsWith(lines[0], '[') then [lines[0]] else []) + BatchLines(lines[1..])
  }

  /** Only `[` lines are kept, every one of them, and nothing else: other lines are dropped silently. */
  lemma {:induction false} BatchLinesFilter(lines: seq<string>)
    ensures forall l :: l in BatchLines(lines) <==> l in lines && StartsWith(l, '[')
    ensures |BatchLines(lines)| <= |lines|
    decreases |lines|
  {
    if lines != [] {
      BatchLinesFilter(lines[1..]);
      assert lines == [lines[0]] + lines[1..];
    }
  }

  /** The filter distributes over concatenation, so it keeps the lines' order. */
  lemma {:induction false} BatchLinesAppend(a: seq<string>, b: seq<string>)
    ensures BatchLines(a + b) == BatchLines(a) + BatchLines(b)
    decreases |a|
  {
    if a == [] {
      assert a + b == b;
    } else {
      assert (a + b)[1..] == a[1..] + b;
      BatchLinesAppend(a[1..], b);
    }
  }

  /**
   * The batches the stdout observable delivers: each kept line decoded, up to
   * the first line that fails to decode (the `JSON.parse` error ends the
   * observable; nothing after it is delivered).
   */
  function Decoded(lines: seq<string>, decode: Decoder): (batches: seq<Batch>)
    ensures |batches| <= |lines|
    ensures forall i :: 0 <= i < |batches| ==> decode(lines[i]) == Ok(batches[i])
    ensures |batches| < |lines| ==> decode(lines[|batches|]).Err?
  {
    if lines == [] || decode(lines[0]).Err? then []
    else [decode(lines[0]).value] + Decoded(lines[1..], decode)
  }

  /** The batch stream of a tracer whose stdout arrives as `chunks`. */
  function StdoutBatches(chunks: seq<string>, decode: Decoder): seq<Batch>
  {
    Decoded(BatchLines(LineReassembly.ChunksToLines(chunks)), decode)
  }

  /** The batch stream depends only on the stdout text, not on how it was chunked. */
  lemma StdoutBatchesFragmentationInvariant(a: seq<string>, b: seq<string>, decode: Decoder)
    requires LineReassembly.Flatten(a) == LineReassembly.Flatten(b)
    ensures StdoutBatches(a, decode) == StdoutBatches(b, decode)
  {
    LineReassembly.FragmentationInvariance(a, b);
  }

  // ---------------------------------------------------------------------------
  // observableGenerator

  /** How `observableGenerator` ends: it returns a value, or it waits for one forever. */
  datatype GeneratorEnd<T> = ReturnedValue(value: T) | Suspended

  /**
   * `observableGenerator` run over the values its observable will deliver:
   * every value is yielded until a falsy one or one the stop predicate accepts,
   * which is returned instead of yielded. When the values run out the generator
   * waits forever.
   */
  method RunGenerator<T>(values: seq<T>, falsy: T -> bool, stop: T -> bool)
    returns (yielded: seq<T>, end: GeneratorEnd<T>)
    ensures yielded <= values
    ensures forall i :: 0 <= i < |yielded| ==> !falsy(yielded[i]) && !stop(yielded[i])
    ensures end.ReturnedValue? ==>
      |yielded| < |values| && end.value == values[|yielded|] && (falsy(end.value) || stop(end.value))
    ensures end.Suspended? ==> yielded == values
  {
    yielded := [];
    var i := 0;
    while i < |values|
      invariant 0 <= i <= |values|
      invariant yielded == values[..i]
      invariant forall j :: 0 <= j < i ==> !falsy(values[j]) && !stop(values[j])
    {
      var next := values[i];
      if falsy(next) || stop(next) {
        return yielded, ReturnedValue(next);
      }
      yielded := yielded + [next];
      i := i + 1;
    }
    end := Suspended;
  }

  /**
   * The state of the client's stdout generator: the batches it has yet to
   * take, and whether it has returned (after a batch whose last result is a
   * last result). Batches are arrays, which are never falsy.
   */
  datatype Generator = Generator(pending: seq<Batch>, finished: bool)

  /** What `(await stdout.next()).value` gives. */
  datatype Pulled = Value(batch: Batch) | Undefined | NeverSettles

  /** One `next()` on the generator. */
  function Next(g: Generator): (r: (Pulled, Generator))
    ensures g.finished ==> r == (Undefined, g)
    ensures !g.finished && g.pending == [] ==> r == (NeverSettles, g)
    ensures !g.finished && g.pending != [] ==>
      r.0 == Value(g.pending[0]) && r.1.pending == g.pending[1..]
      && r.1.finished == IsLastResult(LastOf(g.pending[0]))
  {
    if g.finished then (Undefined, g)
    else if g.pending == [] then (NeverSettles, g)
    else (Value(g.pending[0]), Generator(g.pending[1..], IsLastResult(LastOf(g.pending[0]))))
  }

  /** `n` successive `next()` calls. */
  function Pulls(g: Generator, n: nat): seq<Pulled>
    decreases n
  {
    if n == 0 then [] else [Next(g).0] + Pulls(Next(g).1, n - 1)
  }

  function Values(batches: seq<Batch>): (r: seq<Pulled>)
    ensures |r| == |batches|
    ensures forall i :: 0 <= i < |batches| ==> r[i] == Value(batches[i])
  {
    seq(|batches|, i requires 0 <= i < |batches| => Value(batches[i]))
  }

  /**
   * Successive `next()` calls deliver every batch up to and including the
   * first one whose last result is a last result, then only `undefined`.
   */
  lemma {:induction false} PullsThroughLast(batches: seq<Batch>, k: nat)
    requires k < |batches| && IsLastResult(LastOf(batches[k]))
    requires forall i :: 0 <= i < k ==> !IsLastResult(LastOf(batches[i]))
    ensures Pulls(Generator(batches, false), k + 2) == Values(batches[..k + 1]) + [Undefined]
    decreases k
  {
    var g := Generator(batches, false);
    if k == 0 {
      assert Next(g) == (Value(batches[0]), Generator(batches[1..], true));
      assert Pulls(Generator(batches[1..], true), 1) == [Undefined];
      assert Values(batches[..1]) == [Value(batches[0])];
    } else {
      assert Next(g) == (Value(batches[0]), Generator(batches[1..], false));
      PullsThroughLast(batches[1..], k - 1);
      assert batches[1..][..k] == batches[1..k + 1];
      assert Values(batches[..k + 1]) == [Value(batches[0])] + Values(batches[1..k + 1]);
    }
  }

  /**
   * The two views of the stdout generator agree: when `RunGenerator` over the
   * batches, with no value falsy and a batch whose last result is a last
   * result as the stop condition, yields `yielded` and returns `last`,
   * successive `next()` calls on the `Generator` state give the yielded
   * batches, then the returned one, then `undefined`.
   */
  lemma ReturnedBatchIsLastPull(batches: seq<Batch>, yielded: seq<Batch>, last: Batch)
    requires yielded <= batches && |yielded| < |batches| && batches[|yielded|] == last
    requires IsLastResult(LastOf(last))
    requires forall i :: 0 <= i < |yielded| ==> !IsLastResult(LastOf(yielded[i]))
    ensures Pulls(Generator(batches, false), |yielded| + 2) == Values(yielded + [last]) + [Undefined]
  {
    PrefixThroughReturned(batches, yielded, last);
    PullsThroughLast(batches, |yielded|);
  }

  lemma PrefixThroughReturned(batches: seq<Batch>, yielded: seq<Batch>, last: Batch)
    requires yielded <= batches && |yielded| < |batches| && batches[|yielded|] == last
    requires forall i :: 0 <= i < |yielded| ==> !IsLastResult(LastOf(yielded[i]))
    ensures batches[..|yielded| + 1] == yielded + [last]
    ensures forall i :: 0 <= i < |yielded| ==> !IsLastResult(LastOf(batches[i]))
  {
    assert batches[..|yielded|] == yielded;
  }

  // ---------------------------------------------------------------------------
  // The client

  /** What an `async` command gives its caller. */
  datatype Reply =
    | Returned(batch: Batch)
    | Threw(message: string)   // the state guard's error
    | TypeErrorThrown          // `results.length` read on `undefined`
    | Stalled                  // the awaited promise never settles

  class ProcessClient {
    const command: string
    /** `JSON.parse` of one stdout line. */
    const decode: Decoder
    var state: State
    /** The writes the tracer's stdin has received, in order. */
    var written: seq<string>
    /** Whether `stdin` is set. */
    var stdin: bool
    /** The stdout batch generator, or null. */
    var stdout: Option<Generator>
    /** The reassembled stderr lines (only logged to the console), or null. */
    var stderr: Option<seq<string>>

    /** The handles are set together, by `spawn`, and cleared together, by `stop`. */
    ghost predicate Valid()
      reads this
    {
      && (stdin <==> stdout.Some?)
      && (stdin <==> stderr.Some?)
      && (state == Started ==> stdin)
      && (state == Stopped ==> !stdin)
    }

    constructor (command: string, decode: Decoder)
      ensures Valid()
      ensures this.command == command && this.decode == decode
      ensures state == Created && written == [] && !stdin && stdout == None && stderr == None
    {
      this.command := command;
      this.decode := decode;
      state := Created;
      written := [];
      stdin := false;
      stdout := None;
      stderr := None;
    }

    function GetState(): State
      reads this
    {
      state
    }

    /** Spawns the tracer, whose stdout and stderr will carry the given chunks. */
    method Spawn(outChunks: seq<string>, errChunks: seq<string>)
      modifies this
      ensures stdin
      ensures stdout == Some(Generator(StdoutBatches(outChunks, decode), false))
      ensures stderr == Some(LineReassembly.ChunksToLines(errChunks))
      ensures state == old(state) && written == old(written)
    {
      stdin := true;
      stdout := Some(Generator(StdoutBatches(outChunks, decode), false));
      stderr := Some(LineReassembly.ChunksToLines(errChunks));
    }

    /**
     * `start`: only from `created`. Spawns the tracer, writes `start\n` and
     * awaits the first batch; the session is then started, or stopped when
     * that batch ends in an error result. A batch ending in a last result
     * leaves it started, with the generator finished.
     */
    method Start(outChunks: seq<string>, errChunks: seq<string>) returns (reply: Reply)
      requires Valid()
      modifies this
      ensures Valid()
      ensures old(state) != Created ==>
        reply == Threw(RequireState(old(state), [Created]).value)
        && state == old(state) && written == old(written)
        && stdin == old(stdin) && stdout == old(stdout) && stderr == old(stderr)
      ensures old(state) == Created ==>
        var batches := StdoutBatches(outChunks, decode);
        if batches == [] then
          reply == Stalled && state == Created && written == old(written) + ["start\n"]
          && stdin && stdout == Some(Generator([], false))
          && stderr == Some(LineReassembly.ChunksToLines(errChunks))
        else
          reply == Returned(batches[0])
          && (if StopsAfterStart(batches[0]) then
                state == Stopped && written == old(written) + ["start\n", "stop\n"]
                && !stdin && stdout == None && stderr == None
              else
                state == Started && written == old(written) + ["start\n"]
                && stdout == Some(Generator(batches[1..], IsLastResult(LastOf(batches[0]))))
                && stderr == Some(LineReassembly.ChunksToLines(errChunks)))
    {
      var guard := RequireState(state, [Created]);
      if guard.Some? {
        return Threw(guard.value);
      }
      Spawn(outChunks, errChunks);
      written := written + ["start\n"];
      var pulled, rest := Next(stdout.value).0, Next(stdout.value).1;
      stdout := Some(rest);
      if !pulled.Value? {
        // a fresh generator either has a batch or never settles
        return Stalled;
      }
      var results := pulled.batch;
      state := Started;
      if StopsAfterStart(results) {
        var _ := Stop();
      }
      reply := Returned(results);
    }

    /**
     * `stop`: only from `created` or `started`. Writes `stop\n` when stdin is
     * set (writing to an unset stdin throws, and the error is ignored), then
     * always ends stopped with every handle cleared.
     */
    method Stop() returns (error: Option<string>)
      requires Valid()
      modifies this
      ensures Valid()
      ensures error == RequireState(old(state), [Started, Created])
      ensures old(state) == Stopped ==>
        state == Stopped && written == old(written) && stdout == old(stdout) && stderr == old(stderr)
      ensures old(state) != Stopped ==>
        && state == Stopped && !stdin && stdout == None && stderr == None
        && written == old(written) + (if old(stdin) then ["stop\n"] else [])
    {
      error := RequireState(state, [Started, Created]);
      if error.Some? {
        return;
      }
      if stdin {
        written := written + ["stop\n"];
      }
      state := Stopped;
      stdin, stdout, stderr := false, None, None;
    }

    /** `input`: only from `started`; writes `input <value>\n` and awaits nothing. */
    method Input(value: string) returns (error: Option<string>)
      requires Valid()
      modifies this
      ensures Valid()
      ensures error == RequireState(old(state), [Started])
      ensures state == old(state) && stdin == old(stdin) && stdout == old(stdout) && stderr == old(stderr)
      ensures written == old(written) + (if error.None? then ["input " + value + "\n"] else [])
    {
      error := RequireState(state, [Started]);
      if error.None? {
        written := written + ["input " + value + "\n"];
      }
    }

    /**
     * `step`: only from `started`. Writes `step\n` and awaits the next batch;
     * the session stops when that batch ends in a last or an error result.
     * Once the generator has returned, the awaited value is `undefined` and
     * reading its length throws.
     */
    method Step() returns (reply: Reply)
      requires Valid()
      modifies this
      ensures Valid()
      ensures old(state) != Started ==>
        reply == Threw(RequireState(old(state), [Started]).value)
        && state == old(state) && written == old(written)
        && stdin == old(stdin) && stdout == old(stdout) && stderr == old(stderr)
      ensures old(state) == Started ==>
        var g := old(stdout).value;
        match Next(g).0
        case Undefined =>
          reply == TypeErrorThrown && state == Started && written == old(written) + ["step\n"]
          && stdin && stdout == old(stdout) && stderr == old(stderr)
        case NeverSettles =>
          reply == Stalled && state == Started && written == old(written) + ["step\n"]
          && stdin && stdout == old(stdout) && stderr == old(stderr)
        case Value(b) =>
          reply == Returned(b)
          && (if StopsAfterStep(b) then
                state == Stopped && written == old(written) + ["step\n", "stop\n"]
                && !stdin && stdout == None && stderr == None
              else
                state == Started && written == old(written) + ["step\n"]
                && stdin && stdout == Some(Next(g).1) && stderr == old(stderr))
    {
      var guard := RequireState(state, [Started]);
      if guard.Some? {
        return Threw(guard.value);
      }
      written := written + ["step\n"];
      var pulled, rest := Next(stdout.value).0, Next(stdout.value).1;
      stdout := Some(rest);
      match pulled {
        case Undefined =>
          reply := TypeErrorThrown;
        case NeverSettles =>
          reply := Stalled;
        case Value(results) =>
          if StopsAfterStep(results) {
            var _ := Stop();
          }
          reply := Returned(results);
      }
    }
  }
}
