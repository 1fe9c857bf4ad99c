/** The entry points: Create parses a whole input and JSON.Get walks a
    dotted path through the result. */
module Document {
  import opened JsonValues
  import opened Whitespace
  import opened Scanners
  import opened Literals
  import opened Parser
  import opened ParserFacts
  import opened CodeFrame

  /** A parsed document: the value and the number of runes it came from. */
  datatype JSON = JSON(view: Value, length: nat)

  // ---------------------------------------------------------------------
  // Paths
  // ---------------------------------------------------------------------

  /** strings.Split(path, "."): the pieces between the dots, empty pieces
      included. */
  function Split(s: string): (r: seq<string>)
    ensures |r| >= 1
    ensures DotFree(s) ==> r == [s]
  {
    if s == [] then [[]]
    else
      var rest := Split(s[1..]);
      if s[0] == '.' then [[]] + rest
      else
        assert DotFree(s) ==> DotFree(s[1..]) by {
          if DotFree(s) {
            forall k | 0 <= k < |s[1..]| ensures s[1..][k] != '.' {
              assert s[1..][k] == s[k + 1];
            }
          }
        }
        assert s == [s[0]] + s[1..];
        [[s[0]] + rest[0]] + rest[1..]
  }

  /** No rune of the piece is a dot. */
  predicate DotFree(s: string) {
    forall k | 0 <= k < |s| :: s[k] != '.'
  }

  /** The pieces put back together with dots between them. */
  function Join(parts: seq<string>): string
    requires |parts| >= 1
  {
    if |parts| == 1 then parts[0] else parts[0] + "." + Join(parts[1..])
  }

  predicate NoDot(parts: seq<string>) {
    forall i | 0 <= i < |parts| :: DotFree(parts[i])
  }

  /** Splitting loses nothing: joining the pieces gives the path back, and
      no piece holds a dot. */
  lemma {:induction false} SplitJoin(s: string)
    ensures Join(Split(s)) == s && NoDot(Split(s))
  {
    SplitNoDot(s);
    if s != [] {
      SplitJoin(s[1..]);
      var rest := Split(s[1..]);
      var r := Split(s);
      if s[0] == '.' {
        assert r[1..] == rest;
        assert Join(r) == [] + "." + Join(rest);
      } else {
        assert r == [[s[0]] + rest[0]] + rest[1..];
        if |rest| == 1 {
          assert Join(r) == [s[0]] + rest[0];
        } else {
          assert r[1..] == rest[1..];
          assert Join(r) == ([s[0]] + rest[0]) + "." + Join(rest[1..]);
          assert Join(rest) == rest[0] + "." + Join(rest[1..]);
        }
        assert s == [s[0]] + s[1..];
      }
    }
  }

  /** No piece of a split holds a dot. */
  lemma {:induction false} SplitNoDot(s: string)
    ensures NoDot(Split(s))
  {
    if s != [] {
      SplitNoDot(s[1..]);
      var rest := Split(s[1..]);
      var r := Split(s);
      if s[0] != '.' {
        forall i | 0 <= i < |r| ensures DotFree(r[i]) {
          if i > 0 {
            assert r[i] == rest[i];
          } else {
            forall k | 0 <= k < |r[0]| ensures r[0][k] != '.' {
              if k > 0 {
                assert r[0][k] == rest[0][k - 1];
              }
            }
          }
        }
      } else {
        assert r[1..] == rest;
        forall i | 0 <= i < |r| ensures DotFree(r[i]) {
          if i > 0 {
            assert r[i] == rest[i - 1];
          }
        }
      }
    }
  }

  /** A dot-free prefix joins onto the first piece. */
  lemma {:induction false} SplitDotFree(p: string, t: string)
    requires DotFree(p)
    ensures Split(p + t) == [p + Split(t)[0]] + Split(t)[1..]
  {
    if p != [] {
      assert (p + t)[1..] == p[1..] + t;
      assert DotFree(p[1..]) by {
        forall k | 0 <= k < |p[1..]| ensures p[1..][k] != '.' {
          assert p[1..][k] == p[k + 1];
        }
      }
      SplitDotFree(p[1..], t);
      var rest := Split(p[1..] + t);
      assert Split(p + t) == [[p[0]] + rest[0]] + rest[1..] by {
        assert (p + t)[0] == p[0] != '.';
      }
      assert [p[0]] + rest[0] == p + Split(t)[0] by {
        assert rest[0] == p[1..] + Split(t)[0];
        assert [p[0]] + (p[1..] + Split(t)[0]) == p + Split(t)[0];
      }
    } else {
      assert p + t == t;
      assert Split(t) == [Split(t)[0]] + Split(t)[1..];
      assert p + Split(t)[0] == Split(t)[0];
    }
  }

  /** Pieces without dots survive joining and splitting again. */
  lemma {:induction false} JoinSplit(parts: seq<string>)
    requires |parts| >= 1 && NoDot(parts)
    ensures Split(Join(parts)) == parts
  {
    assert DotFree(parts[0]);
    if |parts| == 1 {
      SplitDotFree(parts[0], []);
      assert parts[0] + [] == parts[0];
    } else {
      var tail := Join(parts[1..]);
      JoinSplit(parts[1..]);
      assert Join(parts) == parts[0] + ("." + tail);
      SplitDotFree(parts[0], "." + tail);
      assert ("." + tail)[1..] == tail;
      assert Split("." + tail) == [[]] + parts[1..];
      assert parts[0] + [] == parts[0];
    }
  }

  /** strconv.Atoi: an optional sign and at least one decimal digit. */
  function Atoi(s: string): (r: Option<int>)
    ensures r.Some? ==> |s| >= 1
    ensures IsDigits(s) ==> r == Some(DigitsValue(s))
  {
    if |s| >= 1 && (s[0] == '+' || s[0] == '-') then
      if IsDigits(s[1..]) then
        var n: int := DigitsValue(s[1..]);
        Some(if s[0] == '-' then -n else n)
      else None
    else if IsDigits(s) then Some(DigitsValue(s))
    else None
  }

  /** A path piece addresses an array element when it starts with '[' and
      ends with ']'. */
  predicate IsIndexKey(key: string) {
    |key| >= 1 && key[0] == '[' && key[|key| - 1] == ']'
  }

  function Inner(key: string): string
    requires IsIndexKey(key)
  {
    key[1..|key| - 1]
  }

  /** A map lookup: absent keys give nil. */
  function FieldOf(fields: map<string, Value>, key: string): Option<Value> {
    if key in fields then Some(fields[key]) else None
  }

  /** The paths Get follows without failing, from the current value (None
      stands for nil): every piece it reaches is non-empty, and an index
      piece applied to an array holds an integer within the array. A piece
      that meets the wrong kind of value ends the walk, so what follows
      it is not constrained. */
  predicate Resolvable(current: Option<Value>, keys: seq<string>)
    decreases |keys|
  {
    keys == [] ||
    (var key := keys[0];
     && |key| >= 1
     && if IsIndexKey(key) then
          current.Some? && current.value.Arr? ==>
            var index := Atoi(Inner(key));
            && index.Some? && 0 <= index.value < |current.value.items|
            && Resolvable(Some(current.value.items[index.value]), keys[1..])
        else
          current.Some? && current.value.Obj? ==>
            Resolvable(FieldOf(current.value.fields, key), keys[1..]))
  }

  /** The walk: an index piece needs an array, any other piece an object;
      the wrong kind (nil included) gives nil at once, an absent key gives
      nil for the next piece. */
  function Lookup(current: Option<Value>, keys: seq<string>): (r: Option<Value>)
    requires Resolvable(current, keys)
    decreases |keys|
    ensures keys == [] ==> r == current
    ensures keys != [] && (current.None? || !(current.value.Arr? || current.value.Obj?)) ==> r == None
    ensures r.Some? && keys != [] ==> current.Some?
    ensures keys != [] && current.Some? && IsIndexKey(keys[0]) && !current.value.Arr? ==> r == None
    ensures keys != [] && current.Some? && !IsIndexKey(keys[0]) && !current.value.Obj? ==> r == None
  {
    if keys == [] then current
    else
      var key := keys[0];
      if IsIndexKey(key) then
        if current.Some? && current.value.Arr? then
          Lookup(Some(current.value.items[Atoi(Inner(key)).value]), keys[1..])
        else None
      else if current.Some? && current.value.Obj? then
        Lookup(FieldOf(current.value.fields, key), keys[1..])
      else None
  }

  predicate GetDefined(json: JSON, path: string) {
    path == "" || Resolvable(Some(json.view), Split(path))
  }

  /** JSON.Get: the empty path is the whole value. */
  function At(json: JSON, path: string): (r: Option<Value>)
    requires GetDefined(json, path)
    ensures path == "" ==> r == Some(json.view)
    ensures path != "" && DotFree(path) && !IsIndexKey(path) && json.view.Obj? ==>
      r == FieldOf(json.view.fields, path)
    ensures path != "" && !json.view.Arr? && !json.view.Obj? ==> r == None
    ensures path != "" && DotFree(path) && IsIndexKey(path) && !json.view.Arr? ==> r == None
    ensures path != "" && DotFree(path) && !IsIndexKey(path) && !json.view.Obj? ==> r == None
  {
    if path == "" then Some(json.view) else Lookup(Some(json.view), Split(path))
  }

  /** Following a path in two legs gives what following it at once gives. */
  lemma {:induction false} LookupConcat(current: Option<Value>, k1: seq<string>, k2: seq<string>)
    requires Resolvable(current, k1) && Resolvable(Lookup(current, k1), k2)
    decreases |k1|
    ensures Resolvable(current, k1 + k2)
    ensures Lookup(current, k1 + k2) == Lookup(Lookup(current, k1), k2)
  {
    if k1 == [] {
      assert k1 + k2 == k2;
    } else {
      assert (k1 + k2)[0] == k1[0];
      assert (k1 + k2)[1..] == k1[1..] + k2;
      var key := k1[0];
      if IsIndexKey(key) {
        if current.Some? && current.value.Arr? {
          LookupConcat(Some(current.value.items[Atoi(Inner(key)).value]), k1[1..], k2);
        }
      } else if current.Some? && current.value.Obj? {
        LookupConcat(FieldOf(current.value.fields, key), k1[1..], k2);
      }
    }
  }

  /** Atoi reads back what DecimalText writes. */
  lemma AtoiDecimal(n: nat)
    ensures Atoi(DecimalText(n)) == Some(n)
  {
    var d := DecimalText(n);
    DecimalRoundTrip(n);
    assert IsDigit(d[0]);
  }

  /** "[n]" addresses element n of an array. */
  lemma IndexPath(items: seq<Value>, n: nat, length: nat)
    requires n < |items|
    ensures var path := "[" + DecimalText(n) + "]";
      GetDefined(JSON(Arr(items), length), path) && At(JSON(Arr(items), length), path) == Some(items[n])
  {
    var d := DecimalText(n);
    var path := "[" + d + "]";
    DecimalRoundTrip(n);
    AtoiDecimal(n);
    assert Inner(path) == d;
    assert DotFree(path) by {
      forall k | 0 <= k < |path| ensures path[k] != '.' {
        if 0 < k < |path| - 1 {
          assert path[k] == d[k - 1];
          assert IsDigit(d[k - 1]);
        }
      }
    }
    var keys := Split(path);
    assert keys[1..] == [];
    assert IsIndexKey(keys[0]);
    assert Atoi(Inner(keys[0])) == Some(n);
    assert Resolvable(Some(items[n]), keys[1..]);
    assert Lookup(Some(items[n]), keys[1..]) == Some(items[n]);
  }

  /** A null value is found as Null; an absent key is nil. */
  lemma NullIsNotAbsent(length: nat)
    ensures At(JSON(Obj(map["a" := Null]), length), "a") == Some(Null)
    ensures At(JSON(Obj(map[]), length), "a") == None
  {
    var keys := Split("a");
    assert keys[1..] == [];
    assert !IsIndexKey(keys[0]);
    assert FieldOf(map["a" := Null], "a") == Some(Null);
    assert FieldOf(map[], "a") == None;
  }

  /** A piece of the wrong kind gives nil at once: "[0]" on an object, a
      key on an array. Neither is a panic. */
  lemma WrongKindIsNil(fields: map<string, Value>, items: seq<Value>, length: nat)
    ensures GetDefined(JSON(Obj(fields), length), "[0]") && At(JSON(Obj(fields), length), "[0]") == None
    ensures GetDefined(JSON(Arr(items), length), "a") && At(JSON(Arr(items), length), "a") == None
  {
    var index := "[0]";
    assert DotFree(index) by {
      assert index[0] != '.' && index[1] != '.' && index[2] != '.';
    }
    assert IsIndexKey(index);
    var keys := Split(index);
    assert keys == [index] && keys[1..] == [];
    assert DotFree("a");
    assert !IsIndexKey("a");
    assert Split("a") == ["a"] && Split("a")[1..] == [];
  }

  /** The walk over a parsed (flat) value finds flat values, and an index
      piece never finds an array. */
  lemma {:induction false} LookupFlat(current: Option<Value>, keys: seq<string>)
    requires Resolvable(current, keys)
    requires current.Some? ==> Flat(current.value)
    decreases |keys|
    ensures var r := Lookup(current, keys);
      && (r.Some? ==> Flat(r.value))
      && (|keys| > 0 && IsIndexKey(keys[|keys| - 1]) && r.Some? ==> !r.value.Arr?)
  {
    if keys != [] {
      var key := keys[0];
      if IsIndexKey(key) {
        if current.Some? && current.value.Arr? {
          var next := Some(current.value.items[Atoi(Inner(key)).value]);
          LookupFlat(next, keys[1..]);
          if |keys| == 1 {
            assert Lookup(current, keys) == next;
          } else {
            assert keys[1..][|keys[1..]| - 1] == keys[|keys| - 1];
          }
        }
      } else if current.Some? && current.value.Obj? {
        LookupFlat(FieldOf(current.value.fields, key), keys[1..]);
        if |keys| > 1 {
          assert keys[1..][|keys[1..]| - 1] == keys[|keys| - 1];
        }
      }
    }
  }

  /** JSON.Get, walking the pieces of the path in a loop. */
  method Get(json: JSON, path: string) returns (r: Option<Value>)
    requires GetDefined(json, path)
    ensures r == At(json, path)
  {
    if path == "" {
      return Some(json.view);
    }
    var keys := Split(path);
    var current := Some(json.view);
    var n := 0;
    while n < |keys|
      invariant 0 <= n <= |keys|
      invariant Resolvable(current, keys[n..])
      invariant Lookup(current, keys[n..]) == Lookup(Some(json.view), keys)
    {
      var key := keys[n];
      assert keys[n..][1..] == keys[n + 1..];
      if key[0] == '[' && key[|key| - 1] == ']' {
        if !(current.Some? && current.value.Arr?) {
          return None;
        }
        var index := Atoi(key[1..|key| - 1]);
        current := Some(current.value.items[index.value]);
      } else {
        if !(current.Some? && current.value.Obj?) {
          return None;
        }
        current := FieldOf(current.value.fields, key);
      }
      n := n + 1;
    }
    return current;
  }

  // ---------------------------------------------------------------------
  // Create
  // ---------------------------------------------------------------------

  /** The loop after the top-level value: spaces are skipped, newlines
      counted, and anything else is "Unexpected continuance input" at its
      own index. */
  function TrailingFrom(input: seq<char>, i: nat, line: int): (r: Option<ParseError>)
    decreases |input| - i
    ensures r.Some? ==> i <= r.value.offset < |input|
  {
    if i >= |input| then None
    else if input[i] == '\n' then TrailingFrom(input, i + 1, line + 1)
    else if input[i] == ' ' then TrailingFrom(input, i + 1, line)
    else Some(ParseError(TrailingInput(input[i]), i, line))
  }

  /** The trailing check fails exactly at the first rune past the run of
      spaces and newlines, with the line advanced by that run's newlines. */
  lemma {:induction false} TrailingIsSpaceRun(input: seq<char>, i: nat, line: int)
    requires i <= |input|
    decreases |input| - i
    ensures var s := SpaceRun(input, i);
      TrailingFrom(input, i, line) ==
        if i + s.space == |input| then None
        else Some(ParseError(TrailingInput(input[i + s.space]), i + s.space, line + s.newLines))
  {
    if i < |input| && IsSpace(input[i]) {
      TrailingIsSpaceRun(input, i + 1, line + if input[i] == '\n' then 1 else 0);
    }
  }

  /** Create may index the first rune after the leading spaces: the input
      holds something other than spaces and newlines. */
  predicate NotBlank(input: seq<char>) {
    SpaceRun(input, 0).space < |input|
  }

  /** Create with the offset handed to the top-level scanner as a
      parameter: skip the leading spaces, scan the value (line numbers
      start at one), reject what follows it unless blank, then parse. */
  function TopLevel(input: seq<char>, topOffset: int): (r: Result<JSON>)
    requires NotBlank(input)
    ensures r.Ok? ==> r.value.length == |input|
  {
    AfterLead(input, SpaceRun(input, 0), topOffset)
  }

  /** Create once the leading run (its length and its newlines) is known. */
  function AfterLead(input: seq<char>, lead: Skip, topOffset: int): (r: Result<JSON>)
    requires lead.space < |input|
    ensures r.Ok? ==> r.value.length == |input|
  {
    match NextBoundary(input, lead.space, topOffset, lead.newLines + 1)
    case Err(e) => Err(e)
    case Ok(bound) => Finish(input, bound, lead.space + bound.ActualLength(), lead.newLines + bound.lineSize + 1)
  }

  /** What follows the top-level scan: the trailing check from index
      end on the given line, then the parse of the value. Trailing input
      is reported even when the value itself would not parse. */
  function Finish(input: seq<char>, bound: Boundary, end: nat, line: int): (r: Result<JSON>)
    requires ValidBoundary(bound)
    ensures TrailingFrom(input, end, line).Some? ==> r == Err(TrailingFrom(input, end, line).value)
    ensures r.Ok? ==> r.value.length == |input| && ParseValue(bound) == Ok(r.value.view)
    ensures TrailingFrom(input, end, line).None? && ParseValue(bound).Ok? ==>
      r == Ok(JSON(ParseValue(bound).value, |input|))
    ensures TrailingFrom(input, end, line).None? && ParseValue(bound).Err? ==>
      r == Err(ParseValue(bound).error)
  {
    match TrailingFrom(input, end, line)
    case Some(e) => Err(e)
    case None =>
      match ParseValue(bound)
      case Err(e) => Err(e)
      case Ok(v) => Ok(JSON(v, |input|))
  }

  /** Create as written: the top-level scanner is handed offset 0 wherever
      the value starts, so an error it or the value's parse reports is
      off by the length of the leading run. */
  function ParseAsWritten(input: seq<char>): (r: Result<JSON>)
    requires NotBlank(input)
    ensures r.Ok? ==> r.value.length == |input|
  {
    TopLevel(input, 0)
  }

  /** Create with the scanner given the index where the value starts, so
      every offset it reports is an index into the input. */
  function Parse(input: seq<char>): (r: Result<JSON>)
    requires NotBlank(input)
    ensures r.Ok? ==> r.value.length == |input|
  {
    TopLevel(input, SpaceRun(input, 0).space)
  }

  /** With an input that does not start with a space or newline the two
      agree. */
  lemma AsWrittenAgreesWithoutLeadingSpace(input: seq<char>)
    requires NotBlank(input) && !IsSpace(input[0])
    ensures ParseAsWritten(input) == Parse(input)
  {
  }

  /** Past the top-level scan an error is either trailing input, at or
      after end and inside the input, or an error of the value's parse,
      inside the value's span. */
  lemma FinishErrorOffsets(input: seq<char>, bound: Boundary, end: nat, line: int)
    requires ValidBoundary(bound)
    ensures var r := Finish(input, bound, end, line);
      r.Err? ==> (end <= r.error.offset < |input|) || InSpan(bound, r.error.offset)
  {
    ParseErrorInSpan(bound);
  }

  /** With a top-level offset no larger than the leading run, every error
      is reported at or after that offset and inside the input: scanner
      errors within the scanned runes, parse errors within the value's
      span, trailing input at its own index. */
  lemma AfterLeadErrorOffsets(input: seq<char>, lead: Skip, topOffset: int)
    requires lead.space < |input| && 0 <= topOffset <= lead.space
    ensures AfterLead(input, lead, topOffset).Err? ==>
      topOffset <= AfterLead(input, lead, topOffset).error.offset < |input|
  {
    match NextBoundary(input, lead.space, topOffset, lead.newLines + 1)
    case Err(e) =>
    case Ok(bound) =>
      var end := lead.space + bound.ActualLength();
      FinishErrorOffsets(input, bound, end, lead.newLines + bound.lineSize + 1);
  }

  lemma TopLevelErrorOffsets(input: seq<char>, topOffset: int)
    requires NotBlank(input) && 0 <= topOffset <= SpaceRun(input, 0).space
    ensures TopLevel(input, topOffset).Err? ==>
      topOffset <= TopLevel(input, topOffset).error.offset < |input|
  {
    AfterLeadErrorOffsets(input, SpaceRun(input, 0), topOffset);
  }

  /** As written, every error lies inside the input; convert can then only
      fail when every rune up to the error is a newline. */
  lemma AsWrittenOffsetsInInput(input: seq<char>)
    requires NotBlank(input)
    ensures ParseAsWritten(input).Err? ==> 0 <= ParseAsWritten(input).error.offset < |input|
    ensures ParseAsWritten(input).Err? ==>
      (Renderable(input, ParseAsWritten(input).error.offset) <==>
       exists k | 0 <= k <= ParseAsWritten(input).error.offset :: input[k] != '\n')
  {
    TopLevelErrorOffsets(input, 0);
  }

  /** As written, "\n[" fails with offset 0, where convert collects no
      rune (input[0] is a newline) and the caret line needs -1 dashes:
      the error cannot be rendered. */
  lemma AsWrittenUnrenderable()
    ensures NotBlank("\n[")
    ensures ParseAsWritten("\n[") == Err(ParseError(NoClosingArray, 0, 2))
    ensures !Renderable("\n[", 0)
  {
    var input := "\n[";
    assert SpaceRun(input, 2) == Skip(0, 0);
    assert SpaceRun(input, 1) == Skip(0, 0);
    assert SpaceRun(input, 0) == Skip(1, 1);
    var st := Step(Initial, '[', ArrayKind);
    assert CloseFrom(input, 1, 2, st, ArrayKind) == None;
    assert CloseFrom(input, 1, 1, Initial, ArrayKind) == None;
  }

  /** With the true start offset every error Create reports lies at or
      after the value's first rune and inside the input, so it can always
      be rendered. */
  lemma ErrorsRenderable(input: seq<char>)
    requires NotBlank(input)
    ensures Parse(input).Err? ==> Renderable(input, Parse(input).error.offset)
  {
    var start := SpaceRun(input, 0).space;
    assert input[start] != '\n';
    TopLevelErrorOffsets(input, start);
  }

  /** A parsed document covers the whole input and, like every parsed
      value, holds no array directly inside an array, whatever offset the
      scanner is handed. */
  lemma ParsedDocument(input: seq<char>, topOffset: int)
    requires NotBlank(input)
    ensures TopLevel(input, topOffset).Ok? ==>
      TopLevel(input, topOffset).value.length == |input| && Flat(TopLevel(input, topOffset).value.view)
  {
    var lead := SpaceRun(input, 0);
    match NextBoundary(input, lead.space, topOffset, lead.newLines + 1)
    case Err(_) =>
    case Ok(bound) => ParsedValuesFlat(bound);
  }

  /** A top-level scalar needs a delimiter after it: "true" alone fails
      with "Unexpected end of value" at its first rune. */
  lemma BareScalarRejected()
    ensures NotBlank("true")
    ensures ParseAsWritten("true") == Err(ParseError(EndOfValue, 0, 1))
  {
    assert SpaceRun("true", 0) == Skip(0, 0);
    LiteralSpanFirstDelimiter("true", 0, 0, 1);
  }

  /** What Create returns: the document, or the rendered error. */
  datatype Created = Parsed(json: JSON) | Failed(diagnostic: Diagnostic)

  /** The inputs Create handles without a run-time failure: the input is
      not blank (it indexes the rune after the leading run) and an error,
      if any, can be converted. */
  predicate CreateDefined(input: seq<char>) {
    && NotBlank(input)
    && (ParseAsWritten(input).Err? ==> Renderable(input, ParseAsWritten(input).error.offset))
  }

  /** Create as written: the document, or its error rendered. */
  function Outcome(input: seq<char>): (r: Created)
    requires CreateDefined(input)
    ensures r.Parsed? <==> ParseAsWritten(input).Ok?
    ensures r.Parsed? ==> r.json == ParseAsWritten(input).value
    ensures r.Failed? ==> r.diagnostic.error == ParseAsWritten(input).error
    ensures r.Failed? ==> r.diagnostic == Render(input, ParseAsWritten(input).error)
  {
    match ParseAsWritten(input)
    case Ok(json) => Parsed(json)
    case Err(e) => Failed(Render(input, e))
  }

  /** Create with the corrected offset: defined on every input that is not
      blank, since every error it reports can be rendered. */
  function CorrectedOutcome(input: seq<char>): (r: Created)
    requires NotBlank(input)
    ensures r.Parsed? <==> Parse(input).Ok?
    ensures r.Parsed? ==> r.json == Parse(input).value
    ensures r.Failed? ==> r.diagnostic.error == Parse(input).error
    ensures r.Failed? ==> (ErrorsRenderable(input); r.diagnostic == Render(input, Parse(input).error))
  {
    match Parse(input)
    case Ok(json) => Parsed(json)
    case Err(e) =>
      ErrorsRenderable(input);
      Failed(Render(input, e))
  }

  /** The trailing loop of Create. */
  method ScanTrailing(input: seq<char>, end: nat, line: int) returns (e: Option<ParseError>)
    ensures e == TrailingFrom(input, end, line)
  {
    var i := end;
    var l := line;
    while i < |input|
      invariant end <= i
      invariant TrailingFrom(input, i, l) == TrailingFrom(input, end, line)
      decreases |input| - i
    {
      if input[i] == '\n' {
        l := l + 1;
      } else if input[i] != ' ' {
        return Some(ParseError(TrailingInput(input[i]), i, l));
      }
      i := i + 1;
    }
    return None;
  }

  /** Create after the top-level scan: the trailing loop, then the parse. */
  method FinishDocument(input: seq<char>, bound: Boundary, end: nat, line: int) returns (r: Result<JSON>)
    requires ValidBoundary(bound)
    ensures r == Finish(input, bound, end, line)
  {
    var trailing := ScanTrailing(input, end, line);
    if trailing.Some? {
      return Err(trailing.value);
    }
    var parsed := ParseBoundary(bound);
    if parsed.Err? {
      return Err(parsed.error);
    }
    return Ok(JSON(parsed.value, |input|));
  }

  /** Create from the value's first rune up to the point where an error
      would be converted. */
  method ScanDocument(input: seq<char>, lead: Skip, topOffset: int) returns (r: Result<JSON>)
    requires lead.space < |input|
    ensures r == AfterLead(input, lead, topOffset)
  {
    var scanned := ScanNext(input, lead.space, topOffset, lead.newLines + 1);
    match scanned
    case Err(e) =>
      r := Err(e);
    case Ok(bound) =>
      r := FinishDocument(input, bound, lead.space + bound.ActualLength(), lead.newLines + bound.lineSize + 1);
  }

  /** Create up to the point where an error would be converted. */
  method ParseDocument(input: seq<char>) returns (r: Result<JSON>)
    requires NotBlank(input)
    ensures r == ParseAsWritten(input)
  {
    var i, initLine := CountSpace(input, 0);
    r := ScanDocument(input, Skip(i, initLine), 0);
  }

  /** Create: the document, or its error converted into a diagnostic. */
  method Create(input: seq<char>) returns (r: Created)
    requires CreateDefined(input)
    ensures r == Outcome(input)
  {
    var parsed := ParseDocument(input);
    if parsed.Err? {
      var d := Convert(input, parsed.error);
      return Failed(d);
    }
    return Parsed(parsed.value);
  }
}
