/**
 * Line reassembly over a stream of text chunks (`observableAnyToLines`).
 *
 * Each chunk is cut by `text.split(/(\n)/)` into newline tokens and runs of
 * other characters; empty pieces are dropped; a `scan` keeps the pieces of the
 * current line in an accumulator that starts as `["\n"]`; the accumulator is
 * emitted, joined, whenever its last piece is a newline token.
 *
 * Chunks are modelled as already-decoded text.
 */
module LineReassembly {

  /** Concatenation of a sequence of strings (`Array.prototype.join('')`, `String.join("", parts)`). */
  function Concat(parts: seq<string>): string
  {
    if parts == [] then "" else parts[0] + Concat(parts[1..])
  }

  /** Index of the first newline at or after `i`, or the end of the text. */
  function RunEnd(text: string, i: nat): (j: nat)
    requires i <= |text|
    ensures i <= j <= |text|
    decreases |text| - i
  {
    if i == |text| || text[i] == '\n' then i else RunEnd(text, i + 1)
  }

  /** Length of the leading run of characters that are not a newline. */
  function RunLength(text: string): (k: nat)
    ensures k <= |text|
  {
    RunEnd(text, 0)
  }

  /** The run from `i` holds no newline, and it ends at a newline or at the end of the text. */
  lemma {:induction false} RunEndClear(text: string, i: nat)
    requires i <= |text|
    ensures forall j :: i <= j < RunEnd(text, i) ==> text[j] != '\n'
    ensures RunEnd(text, i) < |text| ==> text[RunEnd(text, i)] == '\n'
    decreases |text| - i
  {
    if i < |text| && text[i] != '\n' {
      RunEndClear(text, i + 1);
    }
  }

  /** A newline with none before it from `i` on is where the run from `i` ends. */
  lemma {:induction false} RunEndAt(text: string, i: nat, j: nat)
    requires i <= j < |text| && text[j] == '\n'
    requires forall m :: i <= m < j ==> text[m] != '\n'
    ensures RunEnd(text, i) == j
    decreases j - i
  {
    if i < j {
      RunEndAt(text, i + 1, j);
    }
  }

  /** The leading run holds no newline, and it ends at a newline or at the end of the text. */
  lemma RunLengthClear(text: string)
    ensures forall i :: 0 <= i < RunLength(text) ==> text[i] != '\n'
    ensures RunLength(text) < |text| ==> text[RunLength(text)] == '\n'
  {
    RunEndClear(text, 0);
  }

  /** A piece that `split(/(\n)/)` can produce and that survives the empty-piece filter. */
  predicate IsPart(p: string)
  {
    p == "\n" || (p != "" && '\n' !in p)
  }

  predicate AllParts(parts: seq<string>)
  {
    forall i :: 0 <= i < |parts| ==> IsPart(parts[i])
  }

  /**
   * The non-empty pieces of `text.split(/(\n)/)`, in order: every newline on its
   * own and every maximal run of other characters.
   */
  function SplitParts(text: string): (parts: seq<string>)
    ensures Concat(parts) == text
    ensures AllParts(parts)
    decreases |text|
  {
    if text == [] then []
    else if text[0] == '\n' then ["\n"] + SplitParts(text[1..])
    else
      var k := RunLength(text);
      RunLengthClear(text);
      [text[..k]] + SplitParts(text[k..])
  }

  /** The pieces of all chunks in arrival order (the `flatMap` stage). */
  function PartsOf(chunks: seq<string>): seq<string>
  {
    if chunks == [] then [] else SplitParts(chunks[0]) + PartsOf(chunks[1..])
  }

  /** The text the chunks carry, in order. */
  function Flatten(chunks: seq<string>): string
  {
    if chunks == [] then "" else chunks[0] + Flatten(chunks[1..])
  }

  /** True when the accumulator's last piece is the newline token. */
  predicate EndsLine(acc: seq<string>)
  {
    |acc| > 0 && acc[|acc| - 1] == "\n"
  }

  /** One step of the `scan`: start a new line after a newline token, otherwise extend. */
  function ScanStep(acc: seq<string>, part: string): seq<string>
  {
    if EndsLine(acc) then [part] else acc + [part]
  }

  /** The joined accumulators the `scan` emits that pass the ends-in-newline filter. */
  function Emit(acc: seq<string>, parts: seq<string>): seq<string>
    decreases |parts|
  {
    if parts == [] then []
    else
      var next := ScanStep(acc, parts[0]);
      (if EndsLine(next) then [Concat(next)] else []) + Emit(next, parts[1..])
  }

  /** The scan's initial accumulator. */
  const Seed: seq<string> := ["\n"]

  /** The lines `observableAnyToLines` emits for a chunk sequence. */
  function ChunksToLines(chunks: seq<string>): seq<string>
  {
    Emit(Seed, PartsOf(chunks))
  }

  // ---------------------------------------------------------------------------
  // Reference definition: the complete lines of a text.

  /** The newline-terminated lines of `text`, each ending in its own newline. */
  function LinesOf(text: string): seq<string>
    decreases |text|
  {
    var k := RunLength(text);
    if k == |text| then [] else [text[..k + 1]] + LinesOf(text[k + 1..])
  }

  /** The trailing fragment of `text` after its last newline. */
  function Trailing(text: string): string
    decreases |text|
  {
    var k := RunLength(text);
    if k == |text| then text else Trailing(text[k + 1..])
  }

  /** A line as the protocol frames it: ends in a newline and holds no other. */
  predicate IsLine(line: string)
  {
    |line| > 0 && line[|line| - 1] == '\n' && '\n' !in line[..|line| - 1]
  }

  /** The text still pending in an accumulator (nothing after a newline token). */
  function Pending(acc: seq<string>): string
  {
    if EndsLine(acc) then "" else Concat(acc)
  }

  // ---------------------------------------------------------------------------
  // Lemmas

  lemma {:induction false} ConcatAppend(a: seq<string>, b: seq<string>)
    ensures Concat(a + b) == Concat(a) + Concat(b)
    decreases |a|
  {
    if a == [] {
      assert a + b == b;
    } else {
      assert (a + b)[1..] == a[1..] + b;
      ConcatAppend(a[1..], b);
    }
  }

  lemma {:induction false} PartsOfConcat(chunks: seq<string>)
    ensures Concat(PartsOf(chunks)) == Flatten(chunks)
    ensures AllParts(PartsOf(chunks))
    decreases |chunks|
  {
    if chunks != [] {
      PartsOfConcat(chunks[1..]);
      ConcatAppend(SplitParts(chunks[0]), PartsOf(chunks[1..]));
    }
  }

  /** A fragment without newline followed by a newline begins the text's first line. */
  lemma LinesOfCons(p: string, rest: string)
    requires '\n' !in p
    ensures LinesOf(p + "\n" + rest) == [p + "\n"] + LinesOf(rest)
    ensures Trailing(p + "\n" + rest) == Trailing(rest)
  {
    var t := p + "\n" + rest;
    assert p + ("\n" + rest) == t;
    RunLengthStops(p, "\n" + rest);
    assert t[..|p| + 1] == p + "\n";
    assert t[|p| + 1..] == rest;
    assert LinesOf(t) == [t[..|p| + 1]] + LinesOf(t[|p| + 1..]);
    assert Trailing(t) == Trailing(t[|p| + 1..]);
  }

  lemma RunLengthStops(p: string, rest: string)
    requires '\n' !in p
    requires rest != [] && rest[0] == '\n'
    ensures RunLength(p + rest) == |p|
  {
    var t := p + rest;
    assert forall m :: 0 <= m < |p| ==> t[m] == p[m];
    RunEndAt(t, 0, |p|);
  }

  /** A text without newline has no complete line and is entirely trailing. */
  lemma NoLineWithoutNewline(p: string)
    requires '\n' !in p
    ensures LinesOf(p) == [] && Trailing(p) == p
  {
    RunLengthClear(p);
  }

  /**
   * The scan's invariant: from an accumulator with pending fragment `P`, the
   * remaining pieces emit exactly the complete lines of `P` followed by them.
   */
  lemma {:induction false} EmitIsLinesOf(acc: seq<string>, parts: seq<string>)
    requires |acc| > 0
    requires '\n' !in Pending(acc)
    requires AllParts(parts)
    ensures Emit(acc, parts) == LinesOf(Pending(acc) + Concat(parts))
    decreases |parts|
  {
    var p := Pending(acc);
    if parts == [] {
      assert p + Concat(parts) == p;
      NoLineWithoutNewline(p);
    } else {
      var next := ScanStep(acc, parts[0]);
      assert AllParts(parts[1..]) by {
        forall i | 0 <= i < |parts[1..]| ensures IsPart(parts[1..][i]) {
          assert parts[1..][i] == parts[i + 1];
        }
      }
      assert IsPart(parts[0]);
      assert p + Concat(parts) == p + parts[0] + Concat(parts[1..]);
      if parts[0] == "\n" {
        ConcatAppend(acc, ["\n"]);
        assert Concat(["\n"]) == "\n";
        assert Concat(next) == p + "\n";
        assert Pending(next) == "";
        EmitIsLinesOf(next, parts[1..]);
        assert "" + Concat(parts[1..]) == Concat(parts[1..]);
        LinesOfCons(p, Concat(parts[1..]));
      } else {
        ConcatAppend(acc, [parts[0]]);
        assert Concat([parts[0]]) == parts[0];
        assert !EndsLine(next);
        assert Pending(next) == p + parts[0];
        EmitIsLinesOf(next, parts[1..]);
        assert Pending(next) + Concat(parts[1..]) == p + parts[0] + Concat(parts[1..]);
      }
    }
  }

  /** The reassembled lines are the complete lines of the concatenated chunks. */
  lemma ChunksToLinesIsLinesOf(chunks: seq<string>)
    ensures ChunksToLines(chunks) == LinesOf(Flatten(chunks))
  {
    PartsOfConcat(chunks);
    assert Pending(Seed) == "";
    EmitIsLinesOf(Seed, PartsOf(chunks));
    assert "" + Concat(PartsOf(chunks)) == Flatten(chunks);
  }

  /** Fragmentation invariance: any two chunkings of the same text give the same lines. */
  lemma FragmentationInvariance(a: seq<string>, b: seq<string>)
    requires Flatten(a) == Flatten(b)
    ensures ChunksToLines(a) == ChunksToLines(b)
  {
    ChunksToLinesIsLinesOf(a);
    ChunksToLinesIsLinesOf(b);
  }

  /** The trailing fragment holds no newline. */
  lemma {:induction false} TrailingHasNoNewline(text: string)
    ensures '\n' !in Trailing(text)
    decreases |text|
  {
    var k := RunLength(text);
    if k == |text| {
      RunLengthClear(text);
      assert Trailing(text) == text;
    } else {
      TrailingFirst(text, k);
      TrailingHasNoNewline(text[k + 1..]);
    }
  }

  /** One unfolding of `LinesOf` past the first complete line. */
  lemma {:induction false} LinesOfFirst(text: string, k: nat)
    requires k == RunLength(text) && k < |text|
    ensures [text[..k + 1]] + LinesOf(text[k + 1..]) == LinesOf(text)
  {
  }

  /** One unfolding of `Trailing` past the first complete line. */
  lemma {:induction false} TrailingFirst(text: string, k: nat)
    requires k == RunLength(text) && k < |text|
    ensures Trailing(text[k + 1..]) == Trailing(text)
  {
  }

  lemma Reassemble(line: string, rest: string, lines: seq<string>, trailing: string, text: string)
    requires Concat(lines) + trailing == rest && line + rest == text
    ensures Concat([line] + lines) + trailing == text
  {
    ConcatCons(line, lines);
  }

  lemma ConcatCons(line: string, lines: seq<string>)
    ensures Concat([line] + lines) == line + Concat(lines)
  {
    assert ([line] + lines)[1..] == lines;
  }

  /** The lines and the trailing fragment put back together give the text. */
  lemma {:induction false} LinesOfReassembles(text: string)
    ensures Concat(LinesOf(text)) + Trailing(text) == text
    decreases |text|
  {
    var k := RunLength(text);
    if k < |text| {
      var rest := text[k + 1..];
      LinesOfFirst(text, k);
      TrailingFirst(text, k);
      assert text[..k + 1] + rest == text;
      LinesOfReassembles(rest);
      Reassemble(text[..k + 1], rest, LinesOf(rest), Trailing(rest), text);
    }
  }

  /** Every complete line ends in a newline and holds no other. */
  lemma {:induction false} LinesOfAreLines(text: string)
    ensures forall i :: 0 <= i < |LinesOf(text)| ==> IsLine(LinesOf(text)[i])
    decreases |text|
  {
    var k := RunLength(text);
    if k < |text| {
      var rest := text[k + 1..];
      LinesOfAreLines(rest);
      var line := text[..k + 1];
      RunLengthClear(text);
      assert line[..|line| - 1] == text[..k];
      assert IsLine(line);
      var lines := LinesOf(text);
      assert lines == [line] + LinesOf(rest);
      forall i | 0 <= i < |lines| ensures IsLine(lines[i]) {
        if i > 0 { assert lines[i] == LinesOf(rest)[i - 1]; }
      }
    }
  }

  /**
   * What `observableAnyToLines` emits: lines that each end in one newline and
   * hold no other, whose concatenation is the text up to its last newline; the
   * trailing fragment after the last newline is never emitted.
   */
  lemma ChunksToLinesFraming(chunks: seq<string>)
    ensures var lines := ChunksToLines(chunks);
      && (forall i :: 0 <= i < |lines| ==> IsLine(lines[i]))
      && Concat(lines) + Trailing(Flatten(chunks)) == Flatten(chunks)
      && '\n' !in Trailing(Flatten(chunks))
  {
    ChunksToLinesIsLinesOf(chunks);
    LinesOfReassembles(Flatten(chunks));
    TrailingHasNoNewline(Flatten(chunks));
    LinesOfAreLines(Flatten(chunks));
  }

  /** When the text ends in a newline, the emitted lines give back all of it. */
  lemma ChunksToLinesComplete(chunks: seq<string>)
    requires |Flatten(chunks)| > 0 && Flatten(chunks)[|Flatten(chunks)| - 1] == '\n'
    ensures Concat(ChunksToLines(chunks)) == Flatten(chunks)
  {
    ChunksToLinesFraming(chunks);
    TrailingAfterNewline(Flatten(chunks));
  }

  lemma {:induction false} TrailingAfterNewline(text: string)
    requires |text| > 0 && text[|text| - 1] == '\n'
    ensures Trailing(text) == ""
    decreases |text|
  {
    var k := RunLength(text);
    RunLengthClear(text);
    if k + 1 < |text| {
      TrailingAfterNewline(text[k + 1..]);
    }
  }

  lemma {:induction false} FlattenAppend(a: seq<string>, b: seq<string>)
    ensures Flatten(a + b) == Flatten(a) + Flatten(b)
    decreases |a|
  {
    if a == [] {
      assert a + b == b;
    } else {
      assert (a + b)[1..] == a[1..] + b;
      FlattenAppend(a[1..], b);
    }
  }

  /** Lines already emitted are never retracted: more text only appends lines. */
  lemma {:induction false} LinesOfPrefix(a: string, b: string)
    ensures LinesOf(a) <= LinesOf(a + b)
    decreases |a|
  {
    var k := RunLength(a);
    if k < |a| {
      FirstLineOfExtension(a, b);
      var line := a[..k + 1];
      assert LinesOf(a) == [line] + LinesOf(a[k + 1..]);
      assert LinesOf(a + b) == [line] + LinesOf(a[k + 1..] + b);
      LinesOfPrefix(a[k + 1..], b);
    } else {
      assert LinesOf(a) == [];
    }
  }

  /** Text appended after a complete first line leaves that line as it was. */
  lemma FirstLineOfExtension(a: string, b: string)
    requires RunLength(a) < |a|
    ensures var k := RunLength(a);
      && RunLength(a + b) == k
      && (a + b)[..k + 1] == a[..k + 1]
      && (a + b)[k + 1..] == a[k + 1..] + b
  {
    var k := RunLength(a);
    RunLengthClear(a);
    RunLengthStops(a[..k], a[k..] + b);
    assert a[..k] + (a[k..] + b) == a + b;
  }

  /** More chunks only append lines to what earlier chunks produced. */
  lemma ChunksToLinesMonotone(a: seq<string>, b: seq<string>)
    ensures ChunksToLines(a) <= ChunksToLines(a + b)
  {
    ChunksToLinesIsLinesOf(a);
    ChunksToLinesIsLinesOf(a + b);
    FlattenAppend(a, b);
    LinesOfPrefix(Flatten(a), Flatten(b));
  }
}
