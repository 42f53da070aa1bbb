/**
 * The line reader `sh_read_line`: `getchar` one character at a time into a
 * buffer that starts at 1024 bytes and grows by 1024 whenever it fills, until
 * a newline or end-of-file, then NUL-terminates the buffer.
 *
 * Standard input is a finite sequence of `getchar` results; once the sequence
 * is used up every further `getchar` reads end-of-file, as on a closed stream.
 * The sequence may also hold codes after an EOF code, which a C stream, whose
 * end-of-file indicator is sticky, never delivers; every lemma holds for those
 * sequences too.
 */
module LineReader {
  import Buffers

  /** `getchar`'s end-of-file value. */
  const EOF: int := -1

  /** The code of `'\n'`. */
  const Newline: int := 10

  /** Initial capacity of the line buffer, and the amount it grows by. */
  const LineBufSize: nat := 1024

  /** What `getchar` can return: an unsigned char value, or EOF. */
  type CharCode = c: int | -1 <= c < 256

  /** The codes that end a line. */
  predicate EndsLine(c: int) {
    c == EOF || c == Newline
  }

  /** One line read off `input`, and the input left after it. */
  datatype LineRead = LineRead(line: string, rest: seq<CharCode>)

  /** The line `sh_read_line` returns, and the input left after it. */
  function ReadLine(input: seq<CharCode>): (r: LineRead)
    ensures input != [] ==> |r.rest| < |input|
  {
    if input == [] then LineRead([], [])
    else if EndsLine(input[0]) then LineRead([], input[1..])
    else
      var r := ReadLine(input[1..]);
      LineRead([input[0] as char] + r.line, r.rest)
  }

  /**
   * The line holds exactly the characters before the first newline or
   * end-of-file, so never a newline; that newline or end-of-file is consumed,
   * and the rest of the input is left unread.
   */
  lemma {:induction false} ReadLineSpec(input: seq<CharCode>)
    ensures var r := ReadLine(input);
      && |r.line| <= |input|
      && '\n' !in r.line
      && (forall i :: 0 <= i < |r.line| ==> !EndsLine(input[i]) && r.line[i] == input[i] as char)
      && (|r.line| == |input| ==> r.rest == [])
      && (|r.line| < |input| ==> EndsLine(input[|r.line|]) && r.rest == input[|r.line| + 1..])
    decreases |input|
  {
    if input != [] && !EndsLine(input[0]) {
      ReadLineSpec(input[1..]);
      var r := ReadLine(input);
      var t := ReadLine(input[1..]);
      assert r.line == [input[0] as char] + t.line;
      forall i | 0 <= i < |r.line|
        ensures !EndsLine(input[i]) && r.line[i] == input[i] as char
      {
        if i > 0 {
          assert r.line[i] == t.line[i - 1];
          assert input[i] == input[1..][i - 1];
        }
      }
      if |r.line| < |input| {
        assert input[|r.line|] == input[1..][|t.line|];
        assert input[|r.line| + 1..] == input[1..][|t.line| + 1..];
      }
    }
  }

  /**
   * End-of-file and a blank line cannot be told apart: both give the empty
   * line, and both consume exactly one code.
   */
  lemma EofLooksLikeBlankLine(rest: seq<CharCode>)
    ensures ReadLine([EOF] + rest) == ReadLine([Newline] + rest) == LineRead([], rest)
  {
  }

  /** The line is empty exactly when the input starts with end-of-file or a newline, or is used up. */
  lemma EmptyLineIff(input: seq<CharCode>)
    ensures ReadLine(input).line == [] <==> input == [] || EndsLine(input[0])
  {
  }

  lemma ReadLineStep(input: seq<CharCode>)
    requires input != [] && !EndsLine(input[0])
    ensures ReadLine(input) == LineRead([input[0] as char] + ReadLine(input[1..]).line, ReadLine(input[1..]).rest)
  {
  }

  /** The string a NUL-terminated buffer denotes: everything before the first NUL. */
  function CString(s: string): (r: string)
    ensures r <= s
    ensures '\0' !in r
    ensures |r| < |s| ==> s[|r|] == '\0'
  {
    if s == [] || s[0] == '\0' then [] else [s[0]] + CString(s[1..])
  }

  /**
   * `sh_read_line`: reads codes into `buffer[position]`, growing the buffer by
   * `LineBufSize` whenever `position` reaches its size, and on newline or
   * end-of-file writes NUL at `buffer[position]`. Both writes are in bounds;
   * the buffer holds exactly `ReadLine(input).line` followed by NUL, and
   * `rest` is the input not consumed.
   */
  method ReadLineBuffered(input: seq<CharCode>) returns (buffer: array<char>, length: nat, rest: seq<CharCode>)
    ensures length < buffer.Length
    ensures buffer[length] == '\0'
    ensures buffer[..length] == ReadLine(input).line
    ensures rest == ReadLine(input).rest
  {
    var bufsize := LineBufSize;
    buffer := new char[bufsize](_ => '\0');
    var position := 0;
    var stream := input;
    while true
      invariant fresh(buffer)
      invariant buffer.Length == bufsize
      invariant position < bufsize
      invariant position <= |input| && stream == input[position..]
      invariant ReadLine(input) == LineRead(buffer[..position] + ReadLine(stream).line, ReadLine(stream).rest)
      decreases |stream|
    {
      ghost var unread := stream;
      var c: CharCode;
      if stream == [] {
        c := EOF;
      } else {
        c := stream[0];
        stream := stream[1..];
      }
      if c == EOF || c == Newline {
        buffer[position] := '\0';
        return buffer, position, stream;
      }
      ghost var tail := ReadLine(stream);
      ReadLineStep(unread);
      ghost var before := buffer[..position];
      buffer[position] := c as char;
      assert buffer[..position + 1] == before + [c as char];
      assert before + ([c as char] + tail.line) == (before + [c as char]) + tail.line;
      position := position + 1;
      if position >= bufsize {
        bufsize := bufsize + LineBufSize;
        ghost var old_buffer := buffer;
        buffer := Buffers.Realloc(buffer, bufsize, '\0');
        assert buffer[..position] == old_buffer[..position];
      }
    }
  }
}
