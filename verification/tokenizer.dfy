/**
 * The tokenizer `sh_split_line`: `strtok` over the delimiter set space, tab,
 * carriage return, newline and bell, collected into a NULL-terminated array of
 * token pointers that grows by 64 slots whenever it fills up.
 *
 * `Split` is the functional specification; `NextToken` is one `strtok` call
 * with its hidden static position made explicit; `SplitLine` is the C loop,
 * proved to produce exactly `Split`.
 */
module Tokenizer {
  import opened Options
  import Buffers

  /** The bell character, `\a` in C. */
  const Bell: char := '\U{7}'

  /** Initial capacity of the token array, and the amount it grows by. */
  const TokBufSize: nat := 64

  /** Membership in the delimiter set `" \t\r\n\a"`. */
  predicate IsDelim(c: char) {
    c == ' ' || c == '\t' || c == '\r' || c == '\n' || c == Bell
  }

  /** A token: non-empty, and free of delimiters. */
  predicate IsToken(t: string) {
    |t| > 0 && forall i :: 0 <= i < |t| ==> !IsDelim(t[i])
  }

  predicate AllDelims(s: string) {
    forall i :: 0 <= i < |s| ==> IsDelim(s[i])
  }

  /** Length of the longest delimiter-free prefix of `s`. */
  function TokenLen(s: string): (n: nat)
    ensures n <= |s|
    ensures forall i :: 0 <= i < n ==> !IsDelim(s[i])
    ensures n < |s| ==> IsDelim(s[n])
  {
    if s == [] || IsDelim(s[0]) then 0 else 1 + TokenLen(s[1..])
  }

  /**
   * The tokens of `line`, left to right: delimiters are skipped, and each
   * maximal run of non-delimiters is one token.
   */
  function Split(line: string): (tokens: seq<string>)
    ensures forall k :: 0 <= k < |tokens| ==> IsToken(tokens[k])
    decreases |line|
  {
    if line == [] then []
    else if IsDelim(line[0]) then Split(line[1..])
    else
      var n := TokenLen(line);
      [line[..n]] + Split(line[n..])
  }

  /** `line` with every delimiter character removed: a reference for the tokens' contents. */
  function Strip(s: string): (r: string)
    ensures |r| <= |s|
    ensures forall i :: 0 <= i < |r| ==> !IsDelim(r[i])
  {
    if s == [] then []
    else if IsDelim(s[0]) then Strip(s[1..])
    else [s[0]] + Strip(s[1..])
  }

  /** The tokens written one after the other. */
  function Concat(ts: seq<string>): string {
    if ts == [] then [] else ts[0] + Concat(ts[1..])
  }

  /** The tokens written with one space between neighbours. */
  function Join(ts: seq<string>): string {
    if ts == [] then []
    else if |ts| == 1 then ts[0]
    else ts[0] + " " + Join(ts[1..])
  }

  lemma {:induction false} StripAppend(a: string, b: string)
    ensures Strip(a + b) == Strip(a) + Strip(b)
    decreases |a|
  {
    if a == [] {
      assert a + b == b;
    } else {
      assert (a + b)[1..] == a[1..] + b;
      StripAppend(a[1..], b);
    }
  }

  lemma {:induction false} StripKeepsToken(t: string)
    requires forall i :: 0 <= i < |t| ==> !IsDelim(t[i])
    ensures Strip(t) == t
    decreases |t|
  {
    if t != [] {
      StripKeepsToken(t[1..]);
    }
  }

  lemma {:induction false} StripEmptyIff(s: string)
    ensures Strip(s) == [] <==> AllDelims(s)
    decreases |s|
  {
    if s != [] {
      StripEmptyIff(s[1..]);
      if AllDelims(s) {
        assert AllDelims(s[1..]) by {
          forall i | 0 <= i < |s[1..]| ensures IsDelim(s[1..][i]) {
            assert s[1..][i] == s[i + 1];
          }
        }
      } else if IsDelim(s[0]) {
        var i :| 0 <= i < |s| && !IsDelim(s[i]);
        assert !IsDelim(s[1..][i - 1]);
      }
    }
  }

  /**
   * Concatenating the tokens in order gives the line with all delimiter
   * characters removed.
   */
  lemma {:induction false} ConcatOfSplit(line: string)
    ensures Concat(Split(line)) == Strip(line)
    decreases |line|
  {
    if line == [] {
    } else if IsDelim(line[0]) {
      ConcatOfSplit(line[1..]);
    } else {
      var n := TokenLen(line);
      assert line == line[..n] + line[n..];
      StripAppend(line[..n], line[n..]);
      StripKeepsToken(line[..n]);
      ConcatOfSplit(line[n..]);
      assert Split(line)[1..] == Split(line[n..]);
    }
  }

  /** A line yields no tokens exactly when it is empty or all delimiters. */
  lemma {:induction false} SplitEmptyIff(line: string)
    ensures Split(line) == [] <==> AllDelims(line)
  {
    ConcatOfSplit(line);
    StripEmptyIff(line);
    var ts := Split(line);
    if ts != [] {
      assert Concat(ts) == ts[0] + Concat(ts[1..]);
      assert |Concat(ts)| > 0;
    }
  }

  /** A maximal token prefix is not affected by text after a delimiter. */
  lemma {:induction false} TokenLenAppend(a: string, b: string)
    requires TokenLen(a) < |a| || b == [] || IsDelim(b[0])
    ensures TokenLen(a + b) == TokenLen(a)
    decreases |a|
  {
    if a != [] && !IsDelim(a[0]) {
      assert (a + b)[1..] == a[1..] + b;
      TokenLenAppend(a[1..], b);
    } else if a == [] {
      assert a + b == b;
    }
  }

  /**
   * Splitting distributes over concatenation at a delimiter boundary: when
   * `a` ends in a delimiter or `b` starts with one, no token straddles the seam.
   */
  lemma {:induction false} SplitAppend(a: string, b: string)
    requires a == [] || IsDelim(a[|a| - 1]) || b == [] || IsDelim(b[0])
    ensures Split(a + b) == Split(a) + Split(b)
    decreases |a|
  {
    if a == [] {
      assert a + b == b;
    } else if IsDelim(a[0]) {
      assert (a + b)[1..] == a[1..] + b;
      SplitAppend(a[1..], b);
    } else {
      var n := TokenLen(a);
      TokenLenAppend(a, b);
      assert (a + b)[..n] == a[..n];
      assert (a + b)[n..] == a[n..] + b;
      SplitAppend(a[n..], b);
    }
  }

  /** A single token splits to itself. */
  lemma SplitOfToken(t: string)
    requires IsToken(t)
    ensures Split(t) == [t]
  {
    assert TokenLen(t) == |t|;
    assert t[..|t|] == t;
    assert t[|t|..] == [];
  }

  /**
   * A run of delimiters counts as one separator: replacing it by a single
   * space changes nothing.
   */
  lemma DelimiterRunCollapses(a: string, d: string, b: string)
    requires |d| > 0 && AllDelims(d)
    ensures Split(a + d + b) == Split(a + " " + b)
  {
    assert a + d + b == a + (d + b);
    assert a + " " + b == a + (" " + b);
    SplitAppend(a, d + b);
    SplitAppend(d, b);
    SplitEmptyIff(d);
    SplitAppend(a, " " + b);
    SplitAppend(" ", b);
    SplitEmptyIff(" ");
  }

  /** Leading and trailing delimiters are skipped. */
  lemma OuterDelimitersSkipped(d1: string, line: string, d2: string)
    requires AllDelims(d1) && AllDelims(d2)
    ensures Split(d1 + line + d2) == Split(line)
  {
    SplitEmptyIff(d1);
    SplitEmptyIff(d2);
    SplitAppend(d1, line);
    SplitAppend(d1 + line, d2);
  }

  /** Joining tokens with single spaces and splitting again gives the tokens back. */
  lemma {:induction false} SplitOfJoin(ts: seq<string>)
    requires forall k :: 0 <= k < |ts| ==> IsToken(ts[k])
    ensures Split(Join(ts)) == ts
    decreases |ts|
  {
    if |ts| == 1 {
      SplitOfToken(ts[0]);
    } else if |ts| > 1 {
      SplitOfToken(ts[0]);
      SplitOfJoin(ts[1..]);
      assert ts[0] + " " + Join(ts[1..]) == ts[0] + (" " + Join(ts[1..]));
      SplitAppend(ts[0], " " + Join(ts[1..]));
      SplitAppend(" ", Join(ts[1..]));
      SplitEmptyIff(" ");
    }
  }

  /**
   * Re-joining the tokens of a line with single spaces keeps its tokens:
   * the line's content is recovered up to delimiter-run collapsing.
   */
  lemma JoinOfSplitResplits(line: string)
    ensures Split(Join(Split(line))) == Split(line)
  {
    SplitOfJoin(Split(line));
  }

  /** The first position at or after `pos` that is not a delimiter. */
  function SkipDelims(line: string, pos: nat): (p: nat)
    requires pos <= |line|
    ensures pos <= p <= |line|
    ensures forall i :: pos <= i < p ==> IsDelim(line[i])
    ensures p < |line| ==> !IsDelim(line[p])
    decreases |line| - pos
  {
    if pos == |line| || !IsDelim(line[pos]) then pos else SkipDelims(line, pos + 1)
  }

  lemma SplitSkipsDelims(line: string, pos: nat, p: nat)
    requires pos <= p <= |line|
    requires forall i :: pos <= i < p ==> IsDelim(line[i])
    ensures Split(line[pos..]) == Split(line[p..])
  {
    assert line[pos..] == line[pos..p] + line[p..];
    assert AllDelims(line[pos..p]) by {
      forall i | 0 <= i < p - pos ensures IsDelim(line[pos..p][i]) {
        assert line[pos..p][i] == line[pos + i];
      }
    }
    SplitEmptyIff(line[pos..p]);
    SplitAppend(line[pos..p], line[p..]);
  }

  /**
   * One call of `strtok`: skip delimiters from the saved position `pos`; if
   * the string ends there, no token; otherwise the token is the maximal run of
   * non-delimiters, the delimiter after it is overwritten by NUL, and the
   * saved position moves past that delimiter (or stays at the end of string).
   */
  function NextToken(line: string, pos: nat): (r: Option<(string, nat)>)
    requires pos <= |line|
    ensures r.None? <==> Split(line[pos..]) == []
    ensures r.Some? ==> pos < r.value.1 <= |line|
    ensures r.Some? ==> Split(line[pos..]) == [r.value.0] + Split(line[r.value.1..])
  {
    var start := SkipDelims(line, pos);
    SplitSkipsDelims(line, pos, start);
    if start == |line| then
      None
    else
      var n := TokenLen(line[start..]);
      var end := start + n;
      assert line[start..][..n] == line[start..end];
      assert line[start..][n..] == line[end..];
      var resume := if end < |line| then end + 1 else end;
      SplitSkipsDelims(line, end, resume);
      Some((line[start..end], resume))
  }

  /**
   * `sh_split_line`: calls `strtok` until it returns NULL, storing each token
   * at `tokens[position]` and growing the array by `TokBufSize` slots when it
   * is full, then writes the NULL sentinel. The array holds exactly the
   * tokens of `Split(line)`, in order, followed by NULL, and the sentinel
   * write is in bounds.
   */
  method SplitLine(line: string) returns (tokens: array<Option<string>>, count: nat)
    ensures count < tokens.Length
    ensures count == |Split(line)|
    ensures forall k :: 0 <= k < count ==> tokens[k] == Some(Split(line)[k])
    ensures tokens[count] == None
  {
    var bufsize := TokBufSize;
    tokens := new Option<string>[bufsize](_ => None);
    var position := 0;
    var scan := 0;
    var token := NextToken(line, scan);
    ghost var stored: seq<string> := [];
    while token.Some?
      invariant fresh(tokens)
      invariant tokens.Length == bufsize
      invariant position < bufsize
      invariant scan <= |line|
      invariant token == NextToken(line, scan)
      invariant |stored| == position
      invariant Split(line) == stored + Split(line[scan..])
      invariant forall k :: 0 <= k < position ==> tokens[k] == Some(stored[k])
      decreases |line| - scan
    {
      var next := token.value.1;
      assert Split(line) == (stored + [token.value.0]) + Split(line[next..]);
      tokens[position] := Some(token.value.0);
      stored := stored + [token.value.0];
      position := position + 1;
      if position >= bufsize {
        bufsize := bufsize + TokBufSize;
        tokens := Buffers.Realloc(tokens, bufsize, None);
      }
      scan := next;
      token := NextToken(line, scan);
    }
    tokens[position] := None;
    count := position;
  }
}
