# A verified model of a minimal interactive shell

This project models the core of a small Unix command interpreter written in C
(`src/main.c`). It repeatedly prompts, reads one line from standard input,
splits the line into whitespace-separated tokens, and dispatches the first
token. The builtins are `cd`, `help` and `exit`; any other name is run as an
external program.

The Dafny modules follow the C functions:

- `Options` (common.dfy) holds `Option`, which stands for a pointer that may be NULL.
- `Buffers` (common.dfy) holds the successful `realloc` step.
- `Tokenizer` (tokenizer.dfy) models `sh_split_line`:
  - `Split` is the functional specification;
  - `NextToken` is one `strtok` call, with its static position made explicit;
  - `SplitLine` is the array-filling loop, proved equal to `Split`.
- `LineReader` (line_reader.dfy) models `sh_read_line`:
  - standard input is a finite sequence of `getchar` results (`-1` is EOF);
  - a used-up sequence reads as EOF forever;
  - `ReadLine` is the specification;
  - `ReadLineBuffered` is the growable-buffer loop.
- `Dispatcher` (dispatcher.dfy) models `builtin_str`, `builtin_func`,
  `sh_num_builtins`, the three handlers, `sh_launch` and `sh_execute`.
  - The operating-system work of a handler becomes an `Effect` value:
    `UsageError`, `ChangeDir`, `ShowHelp` or `Spawn`.
  - That value is returned together with the status.
- `Shell` (shell.dfy) models `sh_loop` in three forms:
  - `Loop` runs over a finite sequence of lines;
  - `Session` runs over the raw input stream with a fuel bound;
  - `ShLoop` is the do-while built from the imperative pieces.

Three behaviours of the code are worth noting:

- End-of-file is not told apart from an empty line. Both give `""`
  (src/main.c:141-143). At end of input the loop therefore never stops: it
  keeps running the empty command, which returns 1 (`Shell.EndOfInputNeverExits`).
  A shell usually ends at end-of-input; this one does not.
- Both buffers grow additively: the token array by 64 slots and the line
  buffer by 1024 bytes (src/main.c:112, 150). They do not double.
- A line buffer holding a NUL byte is seen by `strtok` only up to that byte
  (`LineReader.CString`, used by `Shell.LineTokens`).

## Model

| member | source | states |
|---|---|---|
| Tokenizer.TokenLen | src/main.c:106-120 | the token `strtok` finds at a non-delimiter is the longest delimiter-free prefix: no delimiter inside it, and a delimiter or the end right after it |
| Tokenizer.Split | src/main.c:93-125 | every token of a line is non-empty and contains none of space, tab, CR, LF, BEL |
| Tokenizer.ConcatOfSplit | src/main.c:106-123 | the tokens concatenated in order are exactly the line with every delimiter character removed |
| Tokenizer.SplitEmptyIff | src/main.c:106-123 | a line gives zero tokens (so `tokens[0]` is NULL) if and only if it is empty or consists only of delimiters |
| Tokenizer.SplitAppend | src/main.c:94-121 | at a delimiter boundary no token straddles the seam: the tokens of `a + b` are the tokens of `a` followed by those of `b` |
| Tokenizer.DelimiterRunCollapses | src/main.c:94-121 | a non-empty run of delimiters separates tokens exactly like one space |
| Tokenizer.OuterDelimitersSkipped | src/main.c:94-121 | leading and trailing delimiters do not change the tokens |
| Tokenizer.SplitOfJoin | src/main.c:106-121 | joining delimiter-free non-empty tokens with single spaces and splitting gives back the same tokens |
| Tokenizer.JoinOfSplitResplits | src/main.c:106-121 | re-joining a line's tokens with single spaces preserves its tokens |
| Tokenizer.NextToken | src/main.c:106-120 | one `strtok` call returns NULL exactly when only delimiters remain; otherwise it returns the first token of the rest of the line and resumes strictly further on |
| Tokenizer.SplitLine | src/main.c:96-125 | the array holds exactly the tokens of the line, in order, followed by the NULL sentinel; `position < bufsize` holds throughout, so the sentinel write is in bounds |
| LineReader.ReadLine | src/main.c:140-143 | every line read from non-empty input consumes at least one `getchar` code, so repeated reads use the input up |
| LineReader.ReadLineSpec | src/main.c:139-146 | the line is exactly the characters before the first newline or EOF and never contains a newline; the terminator is consumed and the rest is left unread |
| LineReader.EofLooksLikeBlankLine | src/main.c:141-143 | EOF and a blank line give the same empty line and consume the same single code |
| LineReader.EmptyLineIff | src/main.c:140-143 | the line is empty exactly when the input starts with EOF or newline, or is used up |
| LineReader.CString | src/main.c:142-143 | the string a buffer denotes is its prefix before the first NUL, which contains no NUL |
| LineReader.ReadLineBuffered | src/main.c:128-158 | the buffer holds exactly the line followed by NUL, and the rest of the input is returned; `position < bufsize` before every write |
| Dispatcher.NumBuiltins | src/main.c:11-25 | the builtin count is the size of both parallel tables, names and handlers |
| Dispatcher.RunCd | src/main.c:27-36 | `cd` always returns 1; the usage error is reported exactly when `args[1]` is NULL |
| Dispatcher.RunHelp | src/main.c:38-49 | `help` always returns 1 |
| Dispatcher.RunExit | src/main.c:51-53 | `exit` returns 0 and has no effect |
| Dispatcher.Launch | src/main.c:55-74 | the launcher always returns 1 |
| Dispatcher.Invoke | src/main.c:17-21 | calling through the handler table returns 0 exactly for the `exit` handler |
| Dispatcher.LookupFrom | src/main.c:84-88 | the search returns the first index from the start point whose name equals the command, or none when no remaining name matches |
| Dispatcher.Lookup | src/main.c:84-88 | a command has a table index exactly when it is a builtin name, and the index is that of the first equal name |
| Dispatcher.Dispatch | src/main.c:76-91 | the empty command returns 1 with no effect; the status is 0 exactly when token 0 is `exit`; a program is spawned, with the full token vector, exactly when token 0 is not a builtin name |
| Dispatcher.Execute | src/main.c:76-91 | the table-scanning loop computes exactly the dispatcher's outcome |
| Dispatcher.DispatchMatchesReference | src/main.c:11-91 | the table-driven dispatcher agrees on every token vector with a per-name definition of `cd`, `help`, `exit` and the launcher |
| Dispatcher.BuiltinNamesDistinct | src/main.c:11-15 | the builtin names are pairwise distinct, so the first match is the only match |
| Dispatcher.CdWithoutArgument | src/main.c:27-29 | `cd` with no directory changes nothing, reports a usage error and continues |
| Dispatcher.HelpListsBuiltins | src/main.c:38-48 | `help`, with any arguments, lists `cd`, `help`, `exit` in table order and continues |
| Dispatcher.ExitIgnoresArguments | src/main.c:51-53 | `exit` with any arguments ends the loop |
| Shell.LoopStopsAtFirstExit | src/main.c:160-174 | over a finite sequence of lines, the lines are executed in order up to and including the first whose first token is `exit`, and none after it; with no such line every line is executed |
| Shell.SessionStopsAtFirstExit | src/main.c:165-173 | on the input stream the loop stops right after the first `exit` command and never earlier: without one it runs every one of its `fuel` iterations |
| Shell.EndOfInputNeverExits | src/main.c:141-143 | at end of input every further iteration runs the empty command and the loop never ends |
| Shell.SessionFollowsLines | src/main.c:165-173 | running on the stream is running over the lines the stream holds; without an `exit` line the loop then idles at end of input |
| Shell.ArgVector | src/main.c:123 | scanning the token array to its first NULL, as `execvp` walks `args` (`sh_execute` and `sh_cd` read only its first entries), yields the argument vector: the entries before that NULL, in order |
| Shell.Iterate | src/main.c:167-169 | one loop body reads the next line, tokenizes what the buffer denotes as a string, and dispatches it |
| Shell.ShLoop | src/main.c:160-174 | the do-while built from the buffered reader, the token array and the table scan runs exactly the commands the stream specification describes |

## Left out

- `fork`, `execvp` and `waitpid` in `sh_launch` (src/main.c:55-74) are process lifecycle. The launcher is the `Spawn(argv)` effect with status 1.
- The wait-until-exited-or-signaled loop and the child's `exit(EXIT_FAILURE)` are not modelled.
- `chdir` and `perror` in `sh_cd` are an operating-system side effect. The model records `ChangeDir(path)` and does not model success or failure, because the status is 1 either way.
- The text of the prompt, the help banner and the diagnostics is output only. `help` is modelled as `ShowHelp` carrying the builtin names in table order.
- Allocation failure in `malloc` and `realloc`, and the `exit(EXIT_FAILURE)` after it, are not modelled: every allocation succeeds.
- Cells that `realloc` adds hold unspecified bytes in C. In the model they hold a fill value, and nothing reads them.
- Cells of the first `malloc` of both buffers (src/main.c:98, 131) are unspecified in C too. The model fills them with NULL tokens and NUL characters, and nothing reads them before they are written.
- `free(line)` and `free(argv)` at the end of each iteration (src/main.c:171-172) are memory management only. Dafny has garbage collection, so they are not modelled.
- The `int` counters `position` and `bufsize` are unbounded integers. Their 32-bit overflow on lines of more than 2^31 characters or tokens is not modelled.
- `strtok` writes NULs into the line and keeps hidden static state. The model uses a pure function over an explicit position instead.
- `getchar` reads a finite sequence of codes in place of a real stream.
- The code sequence may hold more codes after an EOF code, which a C stdio stream cannot produce: its end-of-file indicator is sticky (section 7.21.7.1 of ISO C11). The all-inputs lemmas therefore cover more streams than C allows.
- Shell.EndOfInputNeverExits: is stated for the used-up sequence only, not for a sequence that merely starts with EOF.
- `main` only calls `sh_loop`, and its configuration and cleanup are empty stubs.
- Shell.ShLoop: runs for at most `fuel` iterations, because at end of input the C loop never ends. `Shell.EndOfInputNeverExits` states what every further iteration does.
- Shell.SessionStopsAtFirstExit: this is the same fuel-bounded view of `sh_loop` as `ShLoop`.
