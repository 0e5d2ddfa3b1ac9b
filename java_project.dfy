/**
 * The Java tracer's project (`core.Project`): a source file that is
 * generated into a temporary directory, compiled into a `bin` directory,
 * and whose compiled class names are then listed.
 *
 * The file system and the compiler are not part of this model: each path is
 * a presence flag, the compiler's verdict and messages are parameters of
 * `Compile`, and the listing of the `bin` directory is a parameter of
 * `GetClasses`.
 */
module JavaProject {
  import opened Wrappers

  datatype ProjectError =
    | IllegalState(message: string)     // IllegalStateException
    | Instantiation(message: string)    // InstantiationException
    | IndexOutOfBounds                  // StringIndexOutOfBoundsException from `substring`
    | BinExists                         // FileAlreadyExistsException from `Files.createDirectory` on `bin/`

  const EmptyFileMessage := "Compilation fail:\nUnable to create class from empty file."

  /** `Character.isWhitespace`: Unicode space, line and paragraph separators except the no-break ones, and the ASCII controls listed. */
  predicate IsJavaWhitespace(c: char)
  {
    || c == ' ' || c == '\t' || c == '\n' || c == '\U{000B}' || c == '\U{000C}' || c == '\r'
    || ('\U{001C}' <= c <= '\U{001F}')
    || c == '\U{1680}' || ('\U{2000}' <= c <= '\U{2006}') || ('\U{2008}' <= c <= '\U{200A}')
    || c == '\U{2028}' || c == '\U{2029}' || c == '\U{205F}' || c == '\U{3000}'
  }

  /** `String.isBlank`: empty, or whitespace only. */
  predicate IsBlank(s: string)
  {
    forall i :: 0 <= i < |s| ==> IsJavaWhitespace(s[i])
  }

  /** `String.lastIndexOf(c)`: the last index holding `c`, or -1. */
  function LastIndexOf(s: string, c: char): (i: int)
    ensures -1 <= i < |s|
    ensures i >= 0 ==> s[i] == c && c !in s[i + 1..]
    ensures i == -1 <==> c !in s
  {
    if s == [] then -1
    else if s[|s| - 1] == c then |s| - 1
    else
      var i := LastIndexOf(s[..|s| - 1], c);
      assert s == s[..|s| - 1] + [s[|s| - 1]];
      assert i >= 0 ==> s[i + 1..] == s[..|s| - 1][i + 1..] + [s[|s| - 1]];
      i
  }

  /**
   * `s.substring(0, s.lastIndexOf('.'))`: the name without its last
   * extension. A name without `.` makes `substring` throw.
   */
  function StripExtension(s: string): (r: Option<string>)
    ensures r.None? <==> '.' !in s
    ensures r.Some? ==> |r.value| < |s| && s[..|r.value|] == r.value && s[|r.value|] == '.' && '.' !in s[|r.value| + 1..]
  {
    var dot := LastIndexOf(s, '.');
    if dot == -1 then None else Some(s[..dot])
  }

  /** Putting an extension without `.` on a name and stripping it gives the name back. */
  lemma StripExtensionOfJoined(name: string, extension: string)
    requires '.' !in extension
    ensures StripExtension(name + "." + extension) == Some(name)
  {
    var s := name + "." + extension;
    assert s[|name| + 1..] == extension;
    assert s[..|name|] == name;
    assert s[|name|] == '.';
    assert forall k :: |name| < k < |s| ==> s[k] == extension[k - |name| - 1];
  }

  /** The class names of the listed files; the first name without `.` fails. */
  function StripAll(names: seq<string>): (r: Result<seq<string>, ProjectError>)
    ensures r.Ok? <==> forall i :: 0 <= i < |names| ==> '.' in names[i]
    ensures r.Ok? ==> |r.value| == |names| && forall i :: 0 <= i < |names| ==> StripExtension(names[i]) == Some(r.value[i])
    ensures r.Err? ==> r.error == IndexOutOfBounds
  {
    if names == [] then Ok([])
    else match StripExtension(names[0])
      case None => Err(IndexOutOfBounds)
      case Some(first) =>
        match StripAll(names[1..])
        case Err(e) => Err(e)
        case Ok(rest) =>
          assert forall i :: 1 <= i < |names| ==> names[i] == names[1..][i - 1];
          Ok([first] + rest)
  }

  /** `"\n" + String.join("\n", lines) + "\n"`, as the diagnostics are collected. */
  function Lines(lines: seq<string>): string
  {
    "\n" + JoinNewline(lines) + "\n"
  }

  function JoinNewline(lines: seq<string>): string
  {
    if lines == [] then ""
    else if |lines| == 1 then lines[0]
    else lines[0] + "\n" + JoinNewline(lines[1..])
  }

  class Project {
    const filename: string
    const code: string
    var projectPath: bool
    var srcPath: bool
    var mainPath: bool
    var binPath: bool

    /** Source and main file paths are set together with the project path; `bin` only inside a project. */
    predicate Valid()
      reads this
    {
      && srcPath == projectPath
      && mainPath == projectPath
      && (binPath ==> projectPath)
    }

    predicate IsGenerated()
      reads this
    {
      projectPath
    }

    predicate IsCompiled()
      reads this
    {
      binPath
    }

    /** A new project is neither generated nor compiled. */
    constructor(filename: string, code: string)
      ensures this.filename == filename && this.code == code
      ensures Valid() && !IsGenerated() && !IsCompiled()
    {
      this.filename := filename;
      this.code := code;
      projectPath := false;
      srcPath := false;
      mainPath := false;
      binPath := false;
    }

    /** `getMainClass`: the file name without its last extension; no `.` makes it throw. */
    function MainClass(): (r: Option<string>)
      reads this
      ensures r.None? <==> '.' !in filename
      ensures r.Some? ==> |r.value| < |filename| && filename[..|r.value|] == r.value && filename[|r.value|] == '.'
      ensures r.Some? ==> '.' !in filename[|r.value| + 1..]
    {
      StripExtension(filename)
    }

    /** `generate`: only once, and only for code that is not blank. */
    method Generate() returns (error: Option<ProjectError>)
      requires Valid()
      modifies this
      ensures Valid()
      ensures old(IsGenerated()) ==> error == Some(IllegalState("project already generated")) && unchanged(this)
      ensures !old(IsGenerated()) && IsBlank(code) ==> error == Some(Instantiation(EmptyFileMessage)) && unchanged(this)
      ensures !old(IsGenerated()) && !IsBlank(code) ==>
        error.None? && IsGenerated() && srcPath && mainPath && binPath == old(binPath)
    {
      if IsGenerated() {
        return Some(IllegalState("project already generated"));
      }
      if IsBlank(code) {
        return Some(Instantiation(EmptyFileMessage));
      }
      projectPath := true;
      srcPath := true;
      mainPath := true;
      error := None;
    }

    /**
     * `compile`: only for a generated project. The `bin` path is set before
     * the compiler runs, so the project counts as compiled even when the
     * compiler then fails.
     */
    method Compile(succeeded: bool, output: string, diagnostics: seq<string>) returns (error: Option<ProjectError>)
      requires Valid()
      modifies this`binPath
      ensures Valid()
      ensures !old(IsGenerated()) ==> error == Some(IllegalState("project not generated")) && binPath == old(binPath)
      ensures old(IsGenerated()) ==> IsCompiled()
      ensures old(IsGenerated()) && old(binPath) ==> error == Some(BinExists)
      ensures old(IsGenerated()) && !old(binPath) ==> (error.None? <==> succeeded)
      ensures old(IsGenerated()) && !old(binPath) && !succeeded ==>
        error == Some(Instantiation("Compilation fail:\n" + output + Lines(diagnostics)))
    {
      if !IsGenerated() {
        return Some(IllegalState("project not generated"));
      }
      if binPath {
        return Some(BinExists);
      }
      binPath := true;
      if !succeeded {
        return Some(Instantiation("Compilation fail:\n" + output + Lines(diagnostics)));
      }
      error := None;
    }

    /**
     * `getClasses`: only for a compiled project; the listed file names with
     * their last extension removed. A listing that fails gives no names.
     */
    method GetClasses(listing: Option<seq<string>>) returns (r: Result<seq<string>, ProjectError>)
      ensures !IsCompiled() ==> r == Err(IllegalState("project not compiled"))
      ensures IsCompiled() && listing.None? ==> r == Ok([])
      ensures IsCompiled() && listing.Some? ==> r == StripAll(listing.value)
    {
      if !IsCompiled() {
        return Err(IllegalState("project not compiled"));
      }
      match listing {
        case None => r := Ok([]);
        case Some(names) => r := StripAll(names);
      }
    }
  }
}
