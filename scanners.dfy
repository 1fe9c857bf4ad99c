/** Boundary scanners: each finds the span of the next value in a rune
    sequence without interpreting it. */
module Scanners {
  import opened JsonValues
  import opened Whitespace

  /** Which parse step a boundary is for; stands in for the three
      implementations of the parsable interface. */
  datatype Kind = ArrayKind | ObjectKind | LiteralKind

  /** The span of one value. For arrays and objects the content leaves out
      the two brackets; for literals (strings included) it is the whole
      text. line is the line counter at the span, lineSize the newlines the
      scanner crossed, globalOffset the offset reported for the span. */
  datatype Boundary = Boundary(kind: Kind, content: seq<char>, line: int, lineSize: nat, globalOffset: int)
  {
    /** The number of runes the span occupies in its input. */
    function ActualLength(): nat {
      |content| + if kind == LiteralKind then 0 else 2
    }
  }

  /** What a literal parse may rely on about its text: it is not empty, and a
      leading quote is not the only rune. Every scanner result meets it. */
  predicate ValidBoundary(b: Boundary) {
    b.kind == LiteralKind ==> |b.content| >= 1 && (b.content[0] == '"' ==> |b.content| >= 2)
  }

  function Opener(kind: Kind): char
    requires kind != LiteralKind
  {
    if kind == ArrayKind then '[' else '{'
  }

  function Closer(kind: Kind): char
    requires kind != LiteralKind
  {
    if kind == ArrayKind then ']' else '}'
  }

  // ---------------------------------------------------------------------
  // Bracket scanner (arrays and objects)
  // ---------------------------------------------------------------------

  /** The bracket scanner's state: depth of its own bracket kind, whether
      the previous rune was a backslash, and whether it is inside quotes. */
  datatype ScanState = ScanState(depth: int, escape: bool, inString: bool)

  const Initial := ScanState(0, false, false)

  /** One rune of the bracket scan. A quote toggles in-string unless the
      previous rune was a backslash; brackets of the scanner's own kind
      count only outside strings; the other kind is ignored. */
  function Step(st: ScanState, c: char, kind: Kind): ScanState
    requires kind != LiteralKind
  {
    var inString := if c == '"' && !st.escape then !st.inString else st.inString;
    var depth :=
      if c == Opener(kind) && !st.inString then st.depth + 1
      else if c == Closer(kind) && !st.inString then st.depth - 1
      else st.depth;
    ScanState(depth, c == '\\', inString)
  }

  /** The scanner's state after reading all of s from the initial state. */
  function StateAfter(s: seq<char>, kind: Kind): ScanState
    requires kind != LiteralKind
  {
    if s == [] then Initial else Step(StateAfter(s[..|s| - 1], kind), s[|s| - 1], kind)
  }

  /** The depth returns to zero once input[j] has been read, the scan
      having started at start. */
  predicate ClosesAt(input: seq<char>, start: nat, j: nat, kind: Kind)
    requires kind != LiteralKind
  {
    start <= j < |input| && StateAfter(input[start..j + 1], kind).depth == 0
  }

  lemma StateAfterStep(input: seq<char>, start: nat, i: nat, kind: Kind)
    requires kind != LiteralKind
    requires start <= i < |input|
    ensures StateAfter(input[start..i + 1], kind) == Step(StateAfter(input[start..i], kind), input[i], kind)
  {
    assert input[start..i + 1][..i - start] == input[start..i];
  }

  /** Once the brackets are dropped the span's newlines are the content's. */
  lemma ContentNewlines(input: seq<char>, start: nat, j: nat, kind: Kind)
    requires kind != LiteralKind
    requires start < j < |input| && input[start] == Opener(kind) && input[j] == Closer(kind)
    ensures NewlinesIn(input, start, j + 1) == NewlinesIn(input, start + 1, j)
  {
    NewlinesInSplit(input, start, start + 1, j);
  }

  /** The first index from i on where the depth returns to zero. Past the
      opening bracket the depth stays at least one until then, so the
      index found holds a closing bracket. */
  function CloseFrom(input: seq<char>, start: nat, i: nat, st: ScanState, kind: Kind): (r: Option<nat>)
    requires kind != LiteralKind
    requires start < |input| && input[start] == Opener(kind)
    requires start <= i <= |input|
    requires if i == start then st == Initial else st.depth >= 1
    decreases |input| - i
    ensures r.Some? ==> i <= r.value < |input| && start < r.value && input[r.value] == Closer(kind)
  {
    if i == |input| then None
    else
      var next := Step(st, input[i], kind);
      if next.depth == 0 then Some(i)
      else CloseFrom(input, start, i + 1, next, kind)
  }

  /** CloseFrom finds the first index where the depth returns to zero,
      and finds none exactly when there is none. */
  lemma {:induction false} CloseFromIsFirst(input: seq<char>, start: nat, i: nat, st: ScanState, kind: Kind)
    requires kind != LiteralKind
    requires start < |input| && input[start] == Opener(kind)
    requires start <= i <= |input|
    requires if i == start then st == Initial else st.depth >= 1
    requires st == StateAfter(input[start..i], kind)
    requires forall k | start <= k < i :: !ClosesAt(input, start, k, kind)
    decreases |input| - i
    ensures var r := CloseFrom(input, start, i, st, kind);
      && (r.Some? ==> ClosesAt(input, start, r.value, kind))
      && (r.Some? ==> forall k | start <= k < r.value :: !ClosesAt(input, start, k, kind))
      && (r.None? <==> forall k | start <= k < |input| :: !ClosesAt(input, start, k, kind))
  {
    if i < |input| {
      StateAfterStep(input, start, i, kind);
      var next := Step(st, input[i], kind);
      if next.depth != 0 {
        assert !ClosesAt(input, start, i, kind);
        CloseFromIsFirst(input, start, i + 1, next, kind);
        var r := CloseFrom(input, start, i + 1, next, kind);
        assert CloseFrom(input, start, i, st, kind) == r;
        if r.Some? {
          assert ClosesAt(input, start, r.value, kind);
        }
      } else {
        assert ClosesAt(input, start, i, kind);
      }
    }
  }

  /** getArrayBoundary / getObjectBoundary. On success the boundary holds
      input[start+1..j] for an index j holding the closing bracket, so
      start + ActualLength() == j + 1; lineSize counts the newlines of the
      content and the offset is one past the caller's. Otherwise the
      error is "No closing found" at the caller's offset. */
  function BracketSpan(input: seq<char>, start: nat, globalOffset: int, line: int, kind: Kind): (r: Result<Boundary>)
    requires kind != LiteralKind
    requires start < |input| && input[start] == Opener(kind)
    ensures r.Ok? ==>
      && r.value.kind == kind && r.value.line == line && r.value.globalOffset == globalOffset + 1
      && start + r.value.ActualLength() <= |input|
    ensures r.Err? ==> r.error == ParseError(if kind == ArrayKind then NoClosingArray else NoClosingObject, globalOffset, line)
  {
    match CloseFrom(input, start, start, Initial, kind)
    case Some(j) =>
      Ok(Boundary(kind, input[start + 1..j], line, NewlinesIn(input, start + 1, j), globalOffset + 1))
    case None =>
      Err(ParseError(if kind == ArrayKind then NoClosingArray else NoClosingObject, globalOffset, line))
  }

  /** The bracket scanners succeed exactly when the depth of their own
      bracket kind returns to zero at some index, and then end at the
      first such index. */
  lemma BracketSpanFirstClose(input: seq<char>, start: nat, globalOffset: int, line: int, kind: Kind)
    requires kind != LiteralKind
    requires start < |input| && input[start] == Opener(kind)
    ensures var r := BracketSpan(input, start, globalOffset, line, kind);
      && (r.Ok? <==> exists j :: ClosesAt(input, start, j, kind))
      && (r.Ok? ==>
            var j := start + r.value.ActualLength() - 1;
            && start < j < |input| && input[j] == Closer(kind)
            && r.value == Boundary(kind, input[start + 1..j], line, NewlinesIn(input, start + 1, j), globalOffset + 1)
            && ClosesAt(input, start, j, kind)
            && forall k | start <= k < j :: !ClosesAt(input, start, k, kind))
  {
    assert input[start..start] == [];
    CloseFromIsFirst(input, start, start, Initial, kind);
  }

  /** The scanner loop of getArrayBoundary and getObjectBoundary (the two
      differ only in the bracket pair). */
  method GetBracketBoundary(input: seq<char>, boundStart: nat, globalOffset: int, line: int, kind: Kind)
    returns (r: Result<Boundary>)
    requires kind != LiteralKind
    requires boundStart < |input| && input[boundStart] == Opener(kind)
    ensures r == BracketSpan(input, boundStart, globalOffset, line, kind)
  {
    var nestedLevel, lineSize, isEscape, isInString := 0, 0, false, false;
    var i := boundStart;
    while i < |input|
      invariant boundStart <= i <= |input|
      invariant if i == boundStart then ScanState(nestedLevel, isEscape, isInString) == Initial else nestedLevel >= 1
      invariant lineSize == NewlinesIn(input, boundStart, i)
      invariant CloseFrom(input, boundStart, i, ScanState(nestedLevel, isEscape, isInString), kind)
             == CloseFrom(input, boundStart, boundStart, Initial, kind)
    {
      ghost var before := ScanState(nestedLevel, isEscape, isInString);
      var c := input[i];
      if c == '"' {
        if !isEscape {
          isInString := !isInString;
        }
      } else if c == '\n' {
        lineSize := lineSize + 1;
      } else if c == Opener(kind) {
        if !isInString {
          nestedLevel := nestedLevel + 1;
        }
      } else if c == Closer(kind) {
        if !isInString {
          nestedLevel := nestedLevel - 1;
        }
      }
      isEscape := c == '\\';
      assert ScanState(nestedLevel, isEscape, isInString) == Step(before, c, kind);
      if nestedLevel == 0 {
        ContentNewlines(input, boundStart, i, kind);
        return Ok(Boundary(kind, input[boundStart + 1..i], line, lineSize, globalOffset + 1));
      }
      i := i + 1;
    }
    return Err(ParseError(if kind == ArrayKind then NoClosingArray else NoClosingObject, globalOffset, line));
  }

  // ---------------------------------------------------------------------
  // String scanner
  // ---------------------------------------------------------------------

  /** input[j] is a quote that closes a string: the rune before it is not a
      backslash. Only the previous rune counts, so in "a\\" the last quote
      does not close. */
  predicate ClosingQuote(input: seq<char>, j: nat)
    requires 1 <= j < |input|
  {
    input[j] == '"' && input[j - 1] != '\\'
  }

  /** Where a string scan stops. */
  datatype StringStop = Closed(at: nat) | NewlineAt(at: nat) | Unterminated

  /** The string scan from i on; escape says whether the previous rune was
      a backslash. It stops at the first unescaped quote or raw newline. */
  function StringEnd(input: seq<char>, start: nat, i: nat, escape: bool): (r: StringStop)
    requires start < i <= |input|
    decreases |input| - i
    ensures r.Closed? ==> i <= r.at < |input| && input[r.at] == '"'
    ensures r.NewlineAt? ==> i <= r.at < |input| && input[r.at] == '\n'
  {
    if i == |input| then Unterminated
    else if input[i] == '"' && !escape then Closed(i)
    else if input[i] == '\n' then NewlineAt(i)
    else StringEnd(input, start, i + 1, input[i] == '\\')
  }

  /** The escape flag is exactly "the previous rune is a backslash", so the
      scan stops at the first closing quote or raw newline past i. */
  lemma {:induction false} StringEndIsFirst(input: seq<char>, start: nat, i: nat, escape: bool)
    requires start < i <= |input| && input[start] == '"'
    requires escape == (i - 1 > start && input[i - 1] == '\\')
    decreases |input| - i
    ensures var r := StringEnd(input, start, i, escape);
      && (r.Closed? ==> ClosingQuote(input, r.at))
      && forall k | i <= k < (if r.Unterminated? then |input| else r.at) ::
           input[k] != '\n' && !ClosingQuote(input, k)
  {
    if i < |input| && !(input[i] == '"' && !escape) && input[i] != '\n' {
      StringEndIsFirst(input, start, i + 1, input[i] == '\\');
    }
  }

  /** getStringBoundary. It fails at the caller's offset when start is the
      end of input or does not hold a quote. On success the span runs from
      the opening quote through a closing quote, quotes included, with
      lineSize 0; failures are reported within the scanned input. */
  function StringSpan(input: seq<char>, start: nat, globalOffset: int, line: int): (r: Result<Boundary>)
    requires start <= |input|
    ensures start == |input| ==> r == Err(ParseError(QuoteAtEnd, globalOffset, line))
    ensures start < |input| && input[start] != '"' ==> r == Err(ParseError(ExpectedQuote(input[start]), globalOffset, line))
    ensures r.Ok? ==>
      && r.value.kind == LiteralKind && r.value.line == line && r.value.lineSize == 0 && r.value.globalOffset == globalOffset
      && 2 <= |r.value.content| <= |input| - start
      && r.value.content[0] == '"' && r.value.content[|r.value.content| - 1] == '"'
    ensures r.Err? ==> globalOffset <= r.error.offset <= globalOffset + (|input| - start)
    ensures r.Err? && start < |input| ==> r.error.offset < globalOffset + (|input| - start)
  {
    if start == |input| then Err(ParseError(QuoteAtEnd, globalOffset, line))
    else if input[start] != '"' then Err(ParseError(ExpectedQuote(input[start]), globalOffset, line))
    else match StringEnd(input, start, start + 1, false)
      case Closed(j) => Ok(Boundary(LiteralKind, input[start..j + 1], line, 0, globalOffset))
      case NewlineAt(j) => Err(ParseError(NewlineInString, globalOffset + (j - start), line))
      case Unterminated => Err(ParseError(NoClosingString, globalOffset, line))
  }

  /** At a quote, the string scanner ends at the first index j past start
      holding a closing quote or a raw newline: a quote gives the span
      input[start..j+1]; a newline fails at globalOffset + (j - start);
      running out of input fails with "No closing found for string" at the
      caller's offset. */
  lemma StringSpanFirstStop(input: seq<char>, start: nat, globalOffset: int, line: int)
    requires start < |input| && input[start] == '"'
    ensures var r := StringSpan(input, start, globalOffset, line);
      && (r.Ok? ==>
            var j := start + |r.value.content| - 1;
            && r.value.content == input[start..j + 1]
            && ClosingQuote(input, j)
            && forall k | start < k < j :: input[k] != '\n' && !ClosingQuote(input, k))
      && (r.Err? ==> r.error.kind == NewlineInString || r.error.kind == NoClosingString)
      && (r.Err? && r.error.kind == NewlineInString ==>
            var j := start + (r.error.offset - globalOffset);
            && start < j < |input| && input[j] == '\n' && r.error.line == line
            && forall k | start < k < j :: input[k] != '\n' && !ClosingQuote(input, k))
      && (r.Err? && r.error.kind == NoClosingString ==>
            && r.error == ParseError(NoClosingString, globalOffset, line)
            && forall k | start < k < |input| :: input[k] != '\n' && !ClosingQuote(input, k))
  {
    StringEndIsFirst(input, start, start + 1, false);
  }

  /** The scanner loop of getStringBoundary. */
  method GetStringBoundary(input: seq<char>, boundStart: nat, globalOffset: int, line: int) returns (r: Result<Boundary>)
    requires boundStart <= |input|
    ensures r == StringSpan(input, boundStart, globalOffset, line)
  {
    if |input| == boundStart {
      return Err(ParseError(QuoteAtEnd, globalOffset, line));
    }
    if input[boundStart] != '"' {
      return Err(ParseError(ExpectedQuote(input[boundStart]), globalOffset, line));
    }
    var isEscape := false;
    var i := boundStart + 1;
    while i < |input|
      invariant boundStart < i <= |input|
      invariant StringEnd(input, boundStart, i, isEscape) == StringEnd(input, boundStart, boundStart + 1, false)
    {
      var c := input[i];
      if c == '"' {
        if !isEscape {
          return Ok(Boundary(LiteralKind, input[boundStart..i + 1], line, 0, globalOffset));
        }
      } else if c == '\n' {
        return Err(ParseError(NewlineInString, globalOffset + (i - boundStart), line));
      }
      isEscape := c == '\\';
      i := i + 1;
    }
    return Err(ParseError(NoClosingString, globalOffset, line));
  }

  // ---------------------------------------------------------------------
  // Literal scanner
  // ---------------------------------------------------------------------

  /** The runes that end a non-string literal. */
  predicate IsDelimiter(c: char) {
    c == ',' || c == '}' || c == ']' || c == '\n' || c == ' '
  }

  /** The first index from i on holding a delimiter. */
  function DelimiterFrom(input: seq<char>, i: nat): (r: Option<nat>)
    decreases |input| - i
    ensures r.Some? ==> i <= r.value < |input| && IsDelimiter(input[r.value])
  {
    if i >= |input| then None
    else if IsDelimiter(input[i]) then Some(i)
    else DelimiterFrom(input, i + 1)
  }

  lemma {:induction false} DelimiterFromIsFirst(input: seq<char>, i: nat)
    decreases |input| - i
    ensures var r := DelimiterFrom(input, i);
      forall k | i <= k < (if r.Some? then r.value else |input|) :: !IsDelimiter(input[k])
  {
    if i < |input| && !IsDelimiter(input[i]) {
      DelimiterFromIsFirst(input, i + 1);
    }
  }

  /** getLiteralBoundary. At a quote it is the string scanner. Otherwise
      the span is input[start..j] for an index j > start holding a
      delimiter, with lineSize 0 at the caller's offset, or the error is
      "Unexpected end of value" at the caller's offset. */
  function LiteralSpan(input: seq<char>, start: nat, globalOffset: int, line: int): (r: Result<Boundary>)
    requires start < |input|
    ensures input[start] == '"' ==> r == StringSpan(input, start, globalOffset, line)
    ensures input[start] != '"' && r.Err? ==> r.error == ParseError(EndOfValue, globalOffset, line)
    ensures r.Ok? ==>
      && r.value.kind == LiteralKind && r.value.line == line && r.value.lineSize == 0 && r.value.globalOffset == globalOffset
      && ValidBoundary(r.value) && start + |r.value.content| <= |input|
    ensures r.Err? ==> globalOffset <= r.error.offset < globalOffset + (|input| - start)
  {
    if input[start] == '"' then StringSpan(input, start, globalOffset, line)
    else match DelimiterFrom(input, start + 1)
      case Some(j) => Ok(Boundary(LiteralKind, input[start..j], line, 0, globalOffset))
      case None => Err(ParseError(EndOfValue, globalOffset, line))
  }

  /** Away from a quote, the literal span ends at the first delimiter past
      start, and the scan fails exactly when none follows: a scalar with
      nothing after it in its input is rejected. */
  lemma LiteralSpanFirstDelimiter(input: seq<char>, start: nat, globalOffset: int, line: int)
    requires start < |input| && input[start] != '"'
    ensures var r := LiteralSpan(input, start, globalOffset, line);
      && (r.Ok? ==>
            var j := start + |r.value.content|;
            && start < j < |input| && IsDelimiter(input[j])
            && r.value.content == input[start..j]
            && forall k | start < k < j :: !IsDelimiter(input[k]))
      && (r.Err? <==> forall k | start < k < |input| :: !IsDelimiter(input[k]))
  {
    DelimiterFromIsFirst(input, start + 1);
  }

  /** The scanner loop of getLiteralBoundary. */
  method GetLiteralBoundary(input: seq<char>, boundStart: nat, globalOffset: int, line: int) returns (r: Result<Boundary>)
    requires boundStart < |input|
    ensures r == LiteralSpan(input, boundStart, globalOffset, line)
  {
    if input[boundStart] == '"' {
      r := GetStringBoundary(input, boundStart, globalOffset, line);
      return;
    }
    var i := boundStart + 1;
    while i < |input|
      invariant boundStart < i <= |input|
      invariant DelimiterFrom(input, i) == DelimiterFrom(input, boundStart + 1)
    {
      if IsDelimiter(input[i]) {
        return Ok(Boundary(LiteralKind, input[boundStart..i], line, 0, globalOffset));
      }
      i := i + 1;
    }
    return Err(ParseError(EndOfValue, globalOffset, line));
  }
}
