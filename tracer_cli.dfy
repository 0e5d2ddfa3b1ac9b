/**
 * The Java tracer's command line (`Main`): argument parsing and the
 * controlled-mode loop that reads `<action> <value>` lines and dispatches them
 * to the tracer broker.
 *
 * The broker's own behaviour is not part of this model: the loop catches
 * every exception a broker call throws, so which calls it makes does not
 * depend on their outcome.
 */
module TracerCli {
  import opened Wrappers

  /** `List.indexOf`: the first position of `x`, or -1. */
  function IndexOf<T(==)>(list: seq<T>, x: T): (i: int)
    ensures -1 <= i < |list|
    ensures i == -1 <==> x !in list
    ensures i >= 0 ==> list[i] == x && forall k :: 0 <= k < i ==> list[k] != x
  {
    if list == [] then -1
    else if list[0] == x then 0
    else
      var i := IndexOf(list[1..], x);
      if i == -1 then -1 else i + 1
  }

  /** `List.remove(Object)`: drops the first occurrence of `x`, if any. */
  function RemoveFirst(list: seq<string>, x: string): (r: seq<string>)
    ensures x !in list ==> r == list
    ensures x in list ==> |r| == |list| - 1
  {
    var i := IndexOf(list, x);
    if i == -1 then list else list[..i] + list[i + 1..]
  }

  /** Removing a present element takes exactly one occurrence of it out of the list. */
  lemma RemoveFirstCounts(list: seq<string>, x: string)
    requires x in list
    ensures multiset(RemoveFirst(list, x)) == multiset(list) - multiset{x}
  {
    var i := IndexOf(list, x);
    assert list == list[..i] + [x] + list[i + 1..];
  }

  datatype Arguments = Arguments(
    sandbox: bool,
    uncontrolled: bool,
    omitHelp: bool,
    name: string,
    code: string)

  datatype ArgsError =
    | WrongArguments(remaining: seq<string>)   // IllegalArgumentException("wrong arguments")
    | NameValueMissing                         // `argsList.get(nameIndex + 1)` out of bounds

  /** The arguments once one `--sandbox` and then one `--uncontrolled` are removed. */
  function WithoutFlags(args: seq<string>): seq<string>
  {
    RemoveFirst(RemoveFirst(args, "--sandbox"), "--uncontrolled")
  }

  /** Removing the two flags takes out one copy of each flag present and keeps `--name` and `--omit-help`. */
  lemma WithoutFlagsCounts(args: seq<string>)
    ensures var list := WithoutFlags(args);
      && multiset(args) == multiset(list)
        + (if "--sandbox" in args then multiset{"--sandbox"} else multiset{})
        + (if "--uncontrolled" in args then multiset{"--uncontrolled"} else multiset{})
      && ("--name" in list <==> "--name" in args)
      && ("--omit-help" in list <==> "--omit-help" in args)
  {
    var afterSandbox := RemoveFirst(args, "--sandbox");
    FlagsSurviveRemoval(args);
    RemoveFirstAccounts(args, "--sandbox");
    RemoveFirstAccounts(afterSandbox, "--uncontrolled");
    Chain(multiset(args), multiset(afterSandbox), multiset(WithoutFlags(args)),
      if "--sandbox" in args then multiset{"--sandbox"} else multiset{},
      if "--uncontrolled" in args then multiset{"--uncontrolled"} else multiset{});
  }

  /** Whether or not `x` is present, the list is what remains plus the removed occurrence. */
  lemma RemoveFirstAccounts(list: seq<string>, x: string)
    ensures multiset(list) == multiset(RemoveFirst(list, x)) + (if x in list then multiset{x} else multiset{})
  {
    if x in list {
      RemoveFirstCounts(list, x);
    }
  }

  lemma Chain(m0: multiset<string>, m1: multiset<string>, m2: multiset<string>, d1: multiset<string>, d2: multiset<string>)
    requires m0 == m1 + d1 && m1 == m2 + d2
    ensures m0 == m2 + d1 + d2
  {
  }

  /**
   * The `--name` handling: the element after the first `--name` is the name,
   * and both are removed (the value by its first occurrence); without
   * `--name` the name is `Main`.
   */
  function NameAndRest(list: seq<string>): (r: Result<(string, seq<string>), ArgsError>)
    ensures r.Err? <==> "--name" in list && IndexOf(list, "--name") == |list| - 1
    ensures r.Err? ==> r.error == NameValueMissing
    ensures r.Ok? && "--name" !in list ==> r.value == ("Main", list)
    ensures r.Ok? && "--name" in list ==> r.value.0 == list[IndexOf(list, "--name") + 1]
  {
    var nameIndex := IndexOf(list, "--name");
    if nameIndex == -1 then Ok(("Main", list))
    else if nameIndex + 1 >= |list| then Err(NameValueMissing)
    else
      var name := list[nameIndex + 1];
      Ok((name, RemoveFirst(RemoveFirst(list, "--name"), name)))
  }

  /** With `--name` present, it and the element after it are what the handling takes out of the list. */
  lemma NameAndRestCounts(list: seq<string>)
    requires NameAndRest(list).Ok?
    ensures var r := NameAndRest(list).value;
      multiset(list) == multiset(r.1) + (if "--name" in list then multiset{"--name", r.0} else multiset{})
  {
    var nameIndex := IndexOf(list, "--name");
    if nameIndex != -1 {
      var name := list[nameIndex + 1];
      var noFlag := RemoveFirst(list, "--name");
      NextSurvivesRemoval(list, nameIndex);
      RemoveFirstCounts(list, "--name");
      RemoveFirstCounts(noFlag, name);
      RemovedPair(multiset(list), multiset(noFlag), multiset(RemoveFirst(noFlag, name)), "--name", name);
      assert NameAndRest(list).value == (name, RemoveFirst(noFlag, name));
    }
  }

  lemma RemovedPair(m0: multiset<string>, m1: multiset<string>, m2: multiset<string>, a: string, b: string)
    requires a in m0 && m1 == m0 - multiset{a}
    requires b in m1 && m2 == m1 - multiset{b}
    ensures m0 == m2 + multiset{a, b}
  {
  }

  /** The element after the first occurrence of a value is still there once that occurrence is removed. */
  lemma NextSurvivesRemoval(list: seq<string>, i: nat)
    requires i + 1 < |list| && IndexOf(list, list[i]) == i
    ensures list[i + 1] in RemoveFirst(list, list[i])
  {
    var r := RemoveFirst(list, list[i]);
    assert r == list[..i] + list[i + 1..];
    assert r[i] == list[i + 1];
  }

  /**
   * The parse as the code performs it: one `--sandbox` and one
   * `--uncontrolled` are removed, `--omit-help` is only looked for, and
   * `--name` takes the next element. Exactly one element must remain: the code.
   */
  function Parsed(args: seq<string>): (r: Result<Arguments, ArgsError>)
  {
    var list := WithoutFlags(args);
    match NameAndRest(list)
    case Err(e) => Err(e)
    case Ok((name, rest)) =>
      if |rest| != 1 then Err(WrongArguments(rest))
      else Ok(Arguments("--sandbox" in args, "--uncontrolled" in args, "--omit-help" in list, name, rest[0]))
  }

  /** `parseArgs`: removes and looks up step by step on a local copy of the arguments, as the code does. */
  method ParseArgs(args: seq<string>) returns (r: Result<Arguments, ArgsError>)
    ensures r == Parsed(args)
  {
    var argsList := args;
    var sandbox := "--sandbox" in argsList;
    argsList := RemoveFirst(argsList, "--sandbox");
    var uncontrolled := "--uncontrolled" in argsList;
    argsList := RemoveFirst(argsList, "--uncontrolled");
    assert argsList == WithoutFlags(args);
    WithoutFlagsCounts(args);
    var omitHelp := "--omit-help" in argsList;
    var name := "Main";
    var nameIndex := IndexOf(argsList, "--name");
    if nameIndex != -1 {
      if nameIndex + 1 >= |argsList| {
        return Err(NameValueMissing);
      }
      name := argsList[nameIndex + 1];
      argsList := RemoveFirst(argsList, "--name");
      argsList := RemoveFirst(argsList, name);
    }
    if |argsList| != 1 {
      return Err(WrongArguments(argsList));
    }
    r := Ok(Arguments(sandbox, uncontrolled, omitHelp, name, argsList[0]));
  }

  /** Each flag of a successful parse is set exactly when it was given; the name defaults to `Main`. */
  lemma ParsedFlags(args: seq<string>)
    requires Parsed(args).Ok?
    ensures var a := Parsed(args).value;
      && a.sandbox == ("--sandbox" in args)
      && a.uncontrolled == ("--uncontrolled" in args)
      && a.omitHelp == ("--omit-help" in args)
      && ("--name" !in args ==> a.name == "Main")
      && ("--name" in args ==> a.name == NameAfterFlag(WithoutFlags(args)))
  {
    FlagsSurviveRemoval(args);
  }

  /** The element after the first `--name`, when there is one. */
  function NameAfterFlag(list: seq<string>): string
  {
    var i := IndexOf(list, "--name");
    if 0 <= i && i + 1 < |list| then list[i + 1] else ""
  }

  /** Removing one flag does not change whether the others are present. */
  lemma FlagsSurviveRemoval(args: seq<string>)
    ensures "--uncontrolled" in RemoveFirst(args, "--sandbox") <==> "--uncontrolled" in args
    ensures var list := RemoveFirst(RemoveFirst(args, "--sandbox"), "--uncontrolled");
      && ("--omit-help" in list <==> "--omit-help" in args)
      && ("--name" in list <==> "--name" in args)
  {
    var a := RemoveFirst(args, "--sandbox");
    RemoveKeepsOthers(args, "--sandbox", "--uncontrolled");
    RemoveKeepsOthers(args, "--sandbox", "--omit-help");
    RemoveKeepsOthers(args, "--sandbox", "--name");
    RemoveKeepsOthers(a, "--uncontrolled", "--omit-help");
    RemoveKeepsOthers(a, "--uncontrolled", "--name");
  }

  lemma RemoveKeepsOthers(list: seq<string>, x: string, y: string)
    requires x != y
    ensures y in RemoveFirst(list, x) <==> y in list
  {
    var r := RemoveFirst(list, x);
    if x in list {
      RemoveFirstCounts(list, x);
    }
    assert y in r <==> multiset(r)[y] > 0;
    assert y in list <==> multiset(list)[y] > 0;
  }

  /**
   * A successful parse accounts for every argument: the code, each flag that
   * was present, and `--name` with its value.
   */
  lemma ParsedAccountsForArguments(args: seq<string>)
    requires Parsed(args).Ok?
    ensures var a := Parsed(args).value;
      multiset(args) == multiset{a.code}
        + (if "--name" in args then multiset{"--name", a.name} else multiset{})
        + (if "--sandbox" in args then multiset{"--sandbox"} else multiset{})
        + (if "--uncontrolled" in args then multiset{"--uncontrolled"} else multiset{})
  {
    var a := Parsed(args).value;
    ParsedRest(args);
    Accounting(args, WithoutFlags(args), a.name, a.code);
  }

  /**
   * A parse succeeds exactly when the `--name` handling succeeds and leaves
   * one element, which is then the code; when more or fewer remain, the error
   * carries what remained.
   */
  lemma ParsedRest(args: seq<string>)
    ensures var nameAndRest := NameAndRest(WithoutFlags(args));
      && (Parsed(args).Ok? <==> nameAndRest.Ok? && |nameAndRest.value.1| == 1)
      && (Parsed(args).Ok? ==>
        nameAndRest.value.0 == Parsed(args).value.name && nameAndRest.value.1 == [Parsed(args).value.code])
      && (nameAndRest.Ok? && |nameAndRest.value.1| != 1 ==> Parsed(args) == Err(WrongArguments(nameAndRest.value.1)))
      && (nameAndRest.Err? ==> Parsed(args) == Err(NameValueMissing))
  {
    var nameAndRest := NameAndRest(WithoutFlags(args));
    if nameAndRest.Ok? && |nameAndRest.value.1| == 1 {
      var rest := nameAndRest.value.1;
      assert rest == [rest[0]];
    }
  }

  /** The accounting of `ParsedAccountsForArguments`, stated on the intermediate lists. */
  lemma Accounting(args: seq<string>, list: seq<string>, name: string, code: string)
    requires list == WithoutFlags(args)
    requires NameAndRest(list).Ok? && NameAndRest(list).value.0 == name && NameAndRest(list).value.1 == [code]
    ensures multiset(args) == multiset{code}
        + (if "--name" in args then multiset{"--name", name} else multiset{})
        + (if "--sandbox" in args then multiset{"--sandbox"} else multiset{})
        + (if "--uncontrolled" in args then multiset{"--uncontrolled"} else multiset{})
  {
    WithoutFlagsCounts(args);
    NameAndRestCounts(list);
    if "--name" in list {
      assert multiset(list) == multiset{code} + multiset{"--name", name};
    } else {
      assert multiset(list) == multiset{code};
    }
  }

  /**
   * As written, `--omit-help` stays among the positional arguments, so a
   * command line that gives it together with the code is rejected.
   */
  lemma OmitHelpWithCodeIsRejected(code: string)
    requires code != "--omit-help" && code != "--sandbox" && code != "--uncontrolled" && code != "--name"
    ensures Parsed(["--omit-help", code]).Err?
  {
    var args := ["--omit-help", code];
    assert RemoveFirst(args, "--sandbox") == args;
    assert RemoveFirst(args, "--uncontrolled") == args;
    assert "--name" !in args;
  }

  /** The parse with `--omit-help` removed like the other flags. */
  function ParsedIntended(args: seq<string>): (r: Result<Arguments, ArgsError>)
  {
    var omitHelp := "--omit-help" in args;
    match Parsed(RemoveFirst(args, "--omit-help"))
    case Ok(a) => Ok(a.(omitHelp := omitHelp))
    case Err(e) => Err(e)
  }

  /**
   * With the flag removed, adding `--omit-help` anywhere to a command line
   * that parses leaves the parse as it was, apart from setting `omitHelp`.
   */
  lemma OmitHelpAnywhereIsAccepted(args: seq<string>, i: nat, a: Arguments)
    requires Parsed(args) == Ok(a) && "--omit-help" !in args && i <= |args|
    ensures ParsedIntended(args[..i] + ["--omit-help"] + args[i..]) == Ok(a.(omitHelp := true))
  {
    InsertThenRemove(args, i, "--omit-help");
  }

  /** Removing an element that was inserted into a list not holding it gives the list back. */
  lemma InsertThenRemove(list: seq<string>, i: nat, x: string)
    requires x !in list && i <= |list|
    ensures RemoveFirst(list[..i] + [x] + list[i..], x) == list
  {
    var withX := list[..i] + [x] + list[i..];
    assert x !in withX[..i] by {
      assert withX[..i] == list[..i];
    }
    assert IndexOf(withX, x) == i;
    assert withX[..i] + withX[i + 1..] == list;
  }

  // ---------------------------------------------------------------------------
  // Controlled mode

  /** An input line split at its first space into action and value; no space: empty value. */
  function SplitAction(line: string): (string, string)
  {
    var spaceIndex := IndexOf(line, ' ');
    if spaceIndex == -1 then (line, "") else (line[..spaceIndex], line[spaceIndex + 1..])
  }

  /** Without a space the whole line is the action; otherwise action, space and value make up the line again. */
  lemma SplitActionJoins(line: string)
    ensures ' ' !in line ==> SplitAction(line) == (line, "")
    ensures ' ' in line ==> ' ' !in SplitAction(line).0 && line == SplitAction(line).0 + " " + SplitAction(line).1
  {
    var spaceIndex := IndexOf(line, ' ');
    if spaceIndex != -1 {
      assert line == line[..spaceIndex] + " " + line[spaceIndex + 1..];
    }
  }

  /** The broker calls the loop makes. */
  datatype Command = StartCommand | StepCommand(count: int) | InputCommand(value: string) | StopCommand

  /** What one input line leads to: a broker call, or the printed `action not found` error. */
  datatype Dispatch = Call(command: Command) | ActionNotFound(action: string)

  predicate IsStop(d: Dispatch) { d.Call? && d.command.StopCommand? }

  function DispatchOf(line: string): (d: Dispatch)
  {
    var split := SplitAction(line);
    var action, value := split.0, split.1;
    if action == "start" then Call(StartCommand)
    else if action == "step" then Call(StepCommand(1))
    else if action == "input" then Call(InputCommand(value))
    else if action == "stop" then Call(StopCommand)
    else ActionNotFound(action)
  }

  /** Each action word selects its broker call; any other word is reported as not found. */
  lemma DispatchByAction(line: string)
    ensures var action := SplitAction(line).0;
      && (DispatchOf(line) == Call(StartCommand) <==> action == "start")
      && (DispatchOf(line) == Call(StepCommand(1)) <==> action == "step")
      && (DispatchOf(line).Call? && DispatchOf(line).command.InputCommand? <==> action == "input")
      && (action == "input" ==> DispatchOf(line) == Call(InputCommand(SplitAction(line).1)))
      && (IsStop(DispatchOf(line)) <==> action == "stop")
      && (DispatchOf(line).ActionNotFound? <==> action !in {"start", "step", "input", "stop"})
  {
  }

  /**
   * `runControlled` over the lines read from stdin: each line is dispatched in
   * turn, errors included, and the loop ends after the first `stop` whatever
   * the broker's `stop` does. `stopped` is false when the input ran out first
   * (reading past its end throws out of the loop).
   */
  method RunControlled(lines: seq<string>) returns (dispatched: seq<Dispatch>, stopped: bool)
    ensures |dispatched| <= |lines|
    ensures forall i :: 0 <= i < |dispatched| ==> dispatched[i] == DispatchOf(lines[i])
    ensures forall i :: 0 <= i < |dispatched| - 1 ==> !IsStop(dispatched[i])
    ensures stopped <==> |dispatched| > 0 && IsStop(dispatched[|dispatched| - 1])
    ensures !stopped ==> |dispatched| == |lines|
  {
    dispatched := [];
    stopped := false;
    var i := 0;
    while i < |lines|
      invariant 0 <= i <= |lines|
      invariant |dispatched| == i
      invariant forall j :: 0 <= j < i ==> dispatched[j] == DispatchOf(lines[j])
      invariant forall j :: 0 <= j < i ==> !IsStop(dispatched[j])
    {
      var d := DispatchOf(lines[i]);
      dispatched := dispatched + [d];
      if IsStop(d) {
        stopped := true;
        return;
      }
      i := i + 1;
    }
  }
}
