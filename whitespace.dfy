/** Skipping runs of spaces and newlines between tokens. */
module Whitespace {

  predicate IsSpace(c: char) {
    c == ' ' || c == '\n'
  }

  /** The number of newline runes in s[lo..hi]. */
  function NewlinesIn(s: seq<char>, lo: nat, hi: nat): (n: nat)
    requires lo <= hi <= |s|
    decreases hi
    ensures n <= hi - lo
  {
    if lo == hi then 0
    else NewlinesIn(s, lo, hi - 1) + (if s[hi - 1] == '\n' then 1 else 0)
  }

  /** Counting over two adjacent ranges adds up. */
  lemma {:induction false} NewlinesInSplit(s: seq<char>, a: nat, b: nat, c: nat)
    requires a <= b <= c <= |s|
    ensures NewlinesIn(s, a, c) == NewlinesIn(s, a, b) + NewlinesIn(s, b, c)
    decreases c - b
  {
    if b < c {
      NewlinesInSplit(s, a, b, c - 1);
    }
  }

  /** What countSpace returns: the length of the run and the newlines in it. */
  datatype Skip = Skip(space: nat, newLines: nat)

  /** The run of spaces and newlines starting at start: every rune in it is a
      space or a newline, the rune after it (if any) is neither, and
      newLines counts the newlines of the run. */
  function SpaceRun(input: seq<char>, start: nat): (r: Skip)
    decreases |input| - start
    ensures start + r.space <= |input| || r.space == 0
    ensures forall k | start <= k < start + r.space :: IsSpace(input[k])
    ensures start + r.space < |input| ==> !IsSpace(input[start + r.space])
    ensures start <= |input| ==> r.newLines == NewlinesIn(input, start, start + r.space)
    ensures r.newLines <= r.space
  {
    if start < |input| && IsSpace(input[start]) then
      var rest := SpaceRun(input, start + 1);
      NewlinesInSplit(input, start, start + 1, start + 1 + rest.space);
      Skip(rest.space + 1, rest.newLines + if input[start] == '\n' then 1 else 0)
    else
      Skip(0, 0)
  }

  /** The source's counter loop. */
  method CountSpace(input: seq<char>, start: nat) returns (space: nat, newLines: nat)
    ensures Skip(space, newLines) == SpaceRun(input, start)
  {
    space, newLines := 0, 0;
    while start + space < |input|
      invariant SpaceRun(input, start + space).space + space == SpaceRun(input, start).space
      invariant SpaceRun(input, start + space).newLines + newLines == SpaceRun(input, start).newLines
      decreases |input| - (start + space)
    {
      var c := input[start + space];
      if c == '\n' {
        newLines := newLines + 1;
        space := space + 1;
      } else if c == ' ' {
        space := space + 1;
      } else {
        break;
      }
    }
  }
}
