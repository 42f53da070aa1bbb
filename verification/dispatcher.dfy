/**
 * The builtin table, the three builtin handlers, the launcher and the
 * dispatcher `sh_execute`.
 *
 * The operating-system calls behind `cd` (`chdir`) and behind the launcher
 * (`fork`, `execvp`, `waitpid`) are not modelled: a handler returns its
 * status together with an `Effect` naming the action it asks for.
 */
module Dispatcher {
  import opened Options

  /** The handlers of the builtin table. */
  datatype Builtin = Cd | Help | Exit

  /** `builtin_str`: the builtin names, in table order. */
  const BuiltinNames: seq<string> := ["cd", "help", "exit"]

  /** `builtin_func`: the handler for each name, at the same index. */
  const BuiltinFuncs: seq<Builtin> := [Cd, Help, Exit]

  /** What one command asks of the operating system or the terminal. */
  datatype Effect =
    | NoEffect
      /** `cd` without a directory: a usage message on standard error, no directory change. */
    | UsageError
      /** `chdir(path)`; a failure is only reported with `perror`. */
    | ChangeDir(path: string)
      /** The help banner, listing `names` one per line. */
    | ShowHelp(names: seq<string>)
      /** `fork`, then `execvp(argv[0], argv)` in the child, the parent waiting for it. */
    | Spawn(argv: seq<string>)

  /** A status (0 ends the loop) and the effect that produced it. */
  datatype Outcome = Outcome(status: int, effect: Effect)

  /** `sh_num_builtins`: the table size, which both parallel arrays share. */
  function NumBuiltins(): (n: nat)
    ensures n == |BuiltinNames| == |BuiltinFuncs|
  {
    |BuiltinNames|
  }

  /** `sh_cd`: the directory is `args[1]`; when it is NULL only a usage message is printed. */
  function RunCd(args: seq<string>): (r: Outcome)
    requires |args| >= 1
    ensures r.status == 1
    ensures r.effect == UsageError <==> |args| == 1
  {
    if |args| == 1 then Outcome(1, UsageError) else Outcome(1, ChangeDir(args[1]))
  }

  /** `sh_help`: prints the banner and the builtin names in table order. */
  function RunHelp(args: seq<string>): (r: Outcome)
    ensures r.status == 1
  {
    Outcome(1, ShowHelp(BuiltinNames))
  }

  /** `sh_exit`: the only handler returning 0. */
  function RunExit(args: seq<string>): (r: Outcome)
    ensures r.status == 0 && r.effect == NoEffect
  {
    Outcome(0, NoEffect)
  }

  /** `sh_launch`: runs `args` as an external program; always returns 1. */
  function Launch(args: seq<string>): (r: Outcome)
    requires |args| >= 1
    ensures r.status == 1
  {
    Outcome(1, Spawn(args))
  }

  /** Calling through a `builtin_func` entry. */
  function Invoke(b: Builtin, args: seq<string>): (r: Outcome)
    requires |args| >= 1
    ensures r.status == 0 <==> b == Exit
  {
    match b
    case Cd => RunCd(args)
    case Help => RunHelp(args)
    case Exit => RunExit(args)
  }

  /** The first table index at or after `from` whose name equals `name`. */
  function LookupFrom(name: string, from: nat): (r: Option<nat>)
    requires from <= NumBuiltins()
    ensures r.Some? ==> from <= r.value < NumBuiltins() && BuiltinNames[r.value] == name
    ensures r.Some? ==> forall j :: from <= j < r.value ==> BuiltinNames[j] != name
    ensures r.None? ==> forall j :: from <= j < NumBuiltins() ==> BuiltinNames[j] != name
    decreases NumBuiltins() - from
  {
    if from == NumBuiltins() then None
    else if BuiltinNames[from] == name then Some(from)
    else LookupFrom(name, from + 1)
  }

  /** The first table index whose name equals `name`, if any. */
  function Lookup(name: string): (r: Option<nat>)
    ensures r.Some? <==> name in BuiltinNames
    ensures r.Some? ==> r.value < NumBuiltins() && BuiltinNames[r.value] == name
    ensures r.Some? ==> forall j :: 0 <= j < r.value ==> BuiltinNames[j] != name
  {
    LookupFrom(name, 0)
  }

  /**
   * The dispatcher: an empty command does nothing and continues; otherwise the
   * first table entry named `args[0]` handles it, and with no match the
   * launcher runs it. Only `exit` ends the loop, whatever its arguments, and
   * exactly the names outside the table are spawned, with the whole token
   * vector as their argument vector.
   */
  function Dispatch(args: seq<string>): (r: Outcome)
    ensures r.status == 0 || r.status == 1
    ensures r.status == 0 <==> |args| > 0 && args[0] == "exit"
    ensures args == [] ==> r == Outcome(1, NoEffect)
    ensures r.effect.Spawn? <==> |args| > 0 && args[0] !in BuiltinNames
    ensures r.effect.Spawn? ==> r.effect.argv == args
  {
    if args == [] then Outcome(1, NoEffect)
    else
      match Lookup(args[0])
      case Some(i) => Invoke(BuiltinFuncs[i], args)
      case None => Launch(args)
  }

  /**
   * `sh_execute`: returns 1 on an empty command, then compares `args[0]`
   * with the builtin names in table order, calling the handler at the first
   * equal index, and falls back to the launcher.
   */
  method Execute(args: seq<string>) returns (r: Outcome)
    ensures r == Dispatch(args)
  {
    if args == [] {
      return Outcome(1, NoEffect);
    }
    var i := 0;
    while i < NumBuiltins()
      invariant i <= NumBuiltins()
      invariant forall j :: 0 <= j < i ==> BuiltinNames[j] != args[0]
    {
      if args[0] == BuiltinNames[i] {
        return Invoke(BuiltinFuncs[i], args);
      }
      i := i + 1;
    }
    return Launch(args);
  }

  /**
   * The dispatcher's behaviour written out per command name, without the
   * table: the table-driven `Dispatch` agrees with it on every input.
   */
  function Reference(args: seq<string>): Outcome {
    if args == [] then Outcome(1, NoEffect)
    else if args[0] == "cd" then
      if |args| == 1 then Outcome(1, UsageError) else Outcome(1, ChangeDir(args[1]))
    else if args[0] == "help" then Outcome(1, ShowHelp(["cd", "help", "exit"]))
    else if args[0] == "exit" then Outcome(0, NoEffect)
    else Outcome(1, Spawn(args))
  }

  lemma DispatchMatchesReference(args: seq<string>)
    ensures Dispatch(args) == Reference(args)
  {
  }

  /** The names in the table are distinct, so "first match" is the only match. */
  lemma BuiltinNamesDistinct()
    ensures forall i, j :: 0 <= i < j < NumBuiltins() ==> BuiltinNames[i] != BuiltinNames[j]
  {
  }

  /** `cd` with no directory changes nothing and reports a usage error. */
  lemma CdWithoutArgument()
    ensures Dispatch(["cd"]) == Outcome(1, UsageError)
  {
  }

  /** `help` lists exactly `cd`, `help`, `exit`, in that order, whatever its arguments. */
  lemma HelpListsBuiltins(rest: seq<string>)
    ensures Dispatch(["help"] + rest) == Outcome(1, ShowHelp(["cd", "help", "exit"]))
  {
  }

  /** `exit` ends the loop whatever its arguments. */
  lemma ExitIgnoresArguments(rest: seq<string>)
    ensures Dispatch(["exit"] + rest) == Outcome(0, NoEffect)
  {
  }
}
