/**
 * The loop driver `sh_loop`: prompt, read a line, split it, dispatch it, and
 * repeat while the status is nonzero.
 *
 * `Loop` runs over a finite sequence of lines. `Session` runs over the raw
 * input stream for at most `fuel` iterations, because the C loop has no other
 * bound: at end-of-file it keeps reading empty lines for ever. `ShLoop` is the
 * do-while loop built from the three imperative pieces, proved equal to
 * `Session`.
 */
module Shell {
  import opened Options
  import opened Tokenizer
  import opened LineReader
  import opened Dispatcher

  /** The commands executed, in order, and whether `exit` ended the loop. */
  datatype Trace = Trace(commands: seq<seq<string>>, exited: bool)

  /**
   * The argument vector `sh_split_line` builds from a line buffer; `strtok`
   * sees the buffer only up to its first NUL.
   */
  function LineTokens(line: string): seq<string> {
    Split(CString(line))
  }

  /** A command whose first token is `exit`. */
  predicate IsExitCommand(argv: seq<string>) {
    |argv| > 0 && argv[0] == "exit"
  }

  predicate IsExitLine(line: string) {
    IsExitCommand(LineTokens(line))
  }

  /** `n` empty commands: what the loop runs once the input is used up. */
  function Idle(n: nat): (r: seq<seq<string>>)
    ensures |r| == n
    ensures forall k :: 0 <= k < n ==> r[k] == []
  {
    seq(n, _ => [])
  }

  /**
   * One turn of the do-while: run `argv`; a status of 0 ends the loop,
   * anything else goes on to the `later` turns.
   */
  function Step(argv: seq<string>, later: Trace): Trace {
    if Dispatch(argv).status == 0 then Trace([argv], true)
    else Trace([argv] + later.commands, later.exited)
  }

  /** `sh_loop` over a finite sequence of lines. */
  function Loop(lines: seq<string>): Trace {
    if lines == [] then Trace([], false)
    else Step(LineTokens(lines[0]), Loop(lines[1..]))
  }

  /**
   * The lines are executed in order up to and including the first whose
   * first token is `exit`, and none after it; with no such line every line
   * is executed.
   */
  lemma {:induction false} LoopStopsAtFirstExit(lines: seq<string>)
    ensures var r := Loop(lines);
      && |r.commands| <= |lines|
      && (forall k :: 0 <= k < |r.commands| ==> r.commands[k] == LineTokens(lines[k]))
      && (forall k :: 0 <= k < |r.commands| ==> (IsExitCommand(r.commands[k]) <==> r.exited && k == |r.commands| - 1))
      && (r.exited <==> exists i :: 0 <= i < |lines| && IsExitLine(lines[i]))
      && (!r.exited ==> |r.commands| == |lines|)
    decreases |lines|
  {
    if lines != [] {
      var argv := LineTokens(lines[0]);
      if Dispatch(argv).status != 0 {
        LoopStopsAtFirstExit(lines[1..]);
        assert forall i :: 1 <= i < |lines| ==> lines[i] == lines[1..][i - 1];
      }
    }
  }

  /** The lines `sh_read_line` returns, one after another, until the input is used up. */
  function Lines(input: seq<CharCode>): seq<string>
    decreases |input|
  {
    if input == [] then []
    else
      var lr := ReadLine(input);
      [lr.line] + Lines(lr.rest)
  }

  /** `sh_loop` on the input stream, for at most `fuel` iterations. */
  function Session(input: seq<CharCode>, fuel: nat): Trace
    decreases fuel
  {
    if fuel == 0 then Trace([], false)
    else
      var lr := ReadLine(input);
      Step(LineTokens(lr.line), Session(lr.rest, fuel - 1))
  }

  /**
   * On the stream the loop runs at most `fuel` commands, stops right after
   * the first whose first token is `exit`, and without one runs all `fuel`.
   */
  lemma {:induction false} SessionStopsAtFirstExit(input: seq<CharCode>, fuel: nat)
    ensures var r := Session(input, fuel);
      && |r.commands| <= fuel
      && (r.exited ==> |r.commands| > 0)
      && (!r.exited ==> |r.commands| == fuel)
      && (forall k :: 0 <= k < |r.commands| ==> (IsExitCommand(r.commands[k]) <==> r.exited && k == |r.commands| - 1))
    decreases fuel
  {
    if fuel > 0 {
      var lr := ReadLine(input);
      if Dispatch(LineTokens(lr.line)).status != 0 {
        SessionStopsAtFirstExit(lr.rest, fuel - 1);
      }
    }
  }

  /**
   * At end of input the loop never ends: every iteration reads an empty line,
   * whose empty command returns 1.
   */
  lemma {:induction false} EndOfInputNeverExits(fuel: nat)
    ensures Session([], fuel) == Trace(Idle(fuel), false)
    decreases fuel
  {
    if fuel > 0 {
      assert ReadLine([]) == LineRead([], []);
      assert LineTokens([]) == [];
      EndOfInputNeverExits(fuel - 1);
      assert [[]] + Idle(fuel - 1) == Idle(fuel);
    }
  }

  /**
   * A finished run followed by `spare` turns at end of input: nothing more
   * once `exit` has run, `spare` empty commands otherwise.
   */
  function Extend(t: Trace, spare: nat): Trace {
    if t.exited then t else Trace(t.commands + Idle(spare), false)
  }

  /**
   * Running on the stream is running `Loop` on the lines the stream holds;
   * if none of them is `exit`, the loop then idles on end-of-file for the
   * rest of its iterations.
   */
  lemma {:induction false} SessionFollowsLines(input: seq<CharCode>, fuel: nat)
    requires |Lines(input)| <= fuel
    ensures Session(input, fuel) == Extend(Loop(Lines(input)), fuel - |Lines(input)|)
    decreases |input|
  {
    if input == [] {
      EndOfInputNeverExits(fuel);
      assert [] + Idle(fuel) == Idle(fuel);
    } else {
      var lr := ReadLine(input);
      var lines := Lines(input);
      assert lines[0] == lr.line && lines[1..] == Lines(lr.rest) by {
        assert lines == [lr.line] + Lines(lr.rest);
      }
      SessionFollowsLines(lr.rest, fuel - 1);
      SessionUnfold(input, fuel);
      LoopUnfold(lines);
      StepKeepsCorrespondence(LineTokens(lr.line), Loop(lines[1..]), Session(lr.rest, fuel - 1), fuel - |lines|);
    }
  }

  lemma LoopUnfold(lines: seq<string>)
    requires lines != []
    ensures Loop(lines) == Step(LineTokens(lines[0]), Loop(lines[1..]))
  {
  }

  lemma SessionUnfold(input: seq<CharCode>, fuel: nat)
    requires fuel > 0
    ensures Session(input, fuel) == Step(LineTokens(ReadLine(input).line), Session(ReadLine(input).rest, fuel - 1))
  {
  }

  /** One turn taken on both sides keeps the correspondence of `SessionFollowsLines`. */
  lemma StepKeepsCorrespondence(argv: seq<string>, l: Trace, s: Trace, spare: nat)
    requires s == Extend(l, spare)
    ensures Step(argv, s) == Extend(Step(argv, l), spare)
  {
  }

  lemma Associative<T>(a: seq<T>, b: seq<T>, c: seq<T>)
    ensures a + (b + c) == (a + b) + c
  {
  }

  /**
   * The argument vector a NULL-terminated token array holds: its entries up
   * to the first NULL, found by scanning as C code does when it walks `args`.
   */
  method ArgVector(tokens: array<Option<string>>) returns (args: seq<string>, count: nat)
    requires exists n :: 0 <= n < tokens.Length && tokens[n].None?
    ensures count < tokens.Length && tokens[count].None?
    ensures |args| == count
    ensures forall k :: 0 <= k < count ==> tokens[k] == Some(args[k])
  {
    args := [];
    count := 0;
    while tokens[count].Some?
      invariant count < tokens.Length
      invariant exists n :: count <= n < tokens.Length && tokens[n].None?
      invariant |args| == count
      invariant forall j :: 0 <= j < count ==> tokens[j] == Some(args[j])
      decreases tokens.Length - count
    {
      args := args + [tokens[count].value];
      count := count + 1;
    }
  }

  /**
   * One pass of the loop body: read a line into a buffer, split it into a
   * token array, and dispatch the argument vector.
   */
  method Iterate(stream: seq<CharCode>) returns (args: seq<string>, outcome: Outcome, rest: seq<CharCode>)
    ensures args == LineTokens(ReadLine(stream).line)
    ensures outcome == Dispatch(args)
    ensures rest == ReadLine(stream).rest
  {
    var buffer, length, unread := ReadLineBuffered(stream);
    var tokens, count := SplitLine(CString(buffer[..length]));
    var argc;
    args, argc := ArgVector(tokens);
    assert tokens[argc].None? && tokens[count].None?;
    outcome := Execute(args);
    rest := unread;
  }

  /**
   * `sh_loop`'s do-while: run the loop body and repeat while the status is
   * nonzero (and `fuel` lasts). It runs exactly the commands `Session`
   * describes.
   */
  method ShLoop(input: seq<CharCode>, fuel: nat) returns (r: Trace)
    ensures r == Session(input, fuel)
  {
    var stream := input;
    var commands: seq<seq<string>> := [];
    var status := 1;
    var iterations := 0;
    while status != 0 && iterations < fuel
      invariant iterations <= fuel
      invariant status == 0 ==> Session(input, fuel) == Trace(commands, true)
      invariant status != 0 ==>
        Session(input, fuel) == Trace(commands + Session(stream, fuel - iterations).commands, Session(stream, fuel - iterations).exited)
      decreases fuel - iterations, status != 0
    {
      var args, outcome, rest := Iterate(stream);
      ghost var tail := Session(rest, fuel - iterations - 1);
      if outcome.status != 0 {
        assert Session(stream, fuel - iterations) == Trace([args] + tail.commands, tail.exited);
        Associative(commands, [args], tail.commands);
      } else {
        assert Session(stream, fuel - iterations) == Trace([args], true);
      }
      commands := commands + [args];
      status := outcome.status;
      stream := rest;
      iterations := iterations + 1;
    }
    if status != 0 {
      assert Session(stream, fuel - iterations) == Trace([], false);
      assert commands + [] == commands;
    }
    r := Trace(commands, status == 0);
  }
}
