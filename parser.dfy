/** The recursive parse of a boundary into a value: arrays and objects walk
    their content item by item, scanning each child's boundary and parsing
    it in turn; literals are classified. */
module Parser {
  import opened JsonValues
  import opened Whitespace
  import opened Scanners
  import opened Literals

  /** The scanner chosen by the next rune: an object at '{', an array at
      '[', a literal otherwise. The span it finds lies inside input from i
      on, is at least one rune long, and its offset is the caller's (one
      more for arrays and objects, whose content starts past the bracket).
      A failure is reported at an offset within the scanned input. */
  function NextBoundary(input: seq<char>, i: nat, globalOffset: int, line: int): (r: Result<Boundary>)
    requires i < |input|
    ensures r.Ok? ==> ValidBoundary(r.value) && r.value.line == line
    ensures r.Ok? ==> 1 <= r.value.ActualLength() && i + r.value.ActualLength() <= |input|
    ensures r.Ok? ==> (r.value.kind == ObjectKind <==> input[i] == '{') && (r.value.kind == ArrayKind <==> input[i] == '[')
    ensures r.Ok? ==> r.value.globalOffset == if r.value.kind == LiteralKind then globalOffset else globalOffset + 1
    ensures r.Err? ==> globalOffset <= r.error.offset < globalOffset + (|input| - i)
  {
    if input[i] == '{' then BracketSpan(input, i, globalOffset, line, ObjectKind)
    else if input[i] == '[' then BracketSpan(input, i, globalOffset, line, ArrayKind)
    else LiteralSpan(input, i, globalOffset, line)
  }

  /** The span found is a slice of the input: a literal's content starts
      at i, a composite's content sits between its brackets. */
  lemma NextBoundarySlice(input: seq<char>, i: nat, globalOffset: int, line: int)
    requires i < |input|
    ensures var r := NextBoundary(input, i, globalOffset, line);
      r.Ok? ==>
        if r.value.kind == LiteralKind then r.value.content == input[i..i + |r.value.content|]
        else
          && input[i] == Opener(r.value.kind)
          && input[i + |r.value.content| + 1] == Closer(r.value.kind)
          && r.value.content == input[i + 1..i + 1 + |r.value.content|]
  {
    if input[i] == '{' {
      BracketSpanFirstClose(input, i, globalOffset, line, ObjectKind);
    } else if input[i] == '[' {
      BracketSpanFirstClose(input, i, globalOffset, line, ArrayKind);
    } else if input[i] == '"' {
      StringSpanFirstStop(input, i, globalOffset, line);
    } else {
      LiteralSpanFirstDelimiter(input, i, globalOffset, line);
    }
  }

  /** The measure that makes the mutual recursion terminate: a child's
      content is a strict part of its parent's, and literals do not recurse. */
  function Rank(b: Boundary): nat {
    if b.kind == LiteralKind then 0 else |b.content| + 1
  }

  /** What a parsed child adds to its parent array: the elements of an
      array child are spliced in, anything else is one element. */
  function Splice(v: Value): seq<Value> {
    if v.Arr? then v.items else [v]
  }

  /** bound.parse(): the parse a boundary's kind selects. An array boundary
      yields an array, an object boundary an object, a literal a scalar. */
  function ParseValue(b: Boundary): (r: Result<Value>)
    requires ValidBoundary(b)
    decreases Rank(b), 1, 0
    ensures r.Ok? ==> (r.value.Arr? <==> b.kind == ArrayKind) && (r.value.Obj? <==> b.kind == ObjectKind)
  {
    match b.kind
    case LiteralKind => ParseLiteral(b)
    case ArrayKind => ArrayItemsFrom(b, 0, b.line, [])
    case ObjectKind => ObjectPairsFrom(b, 0, b.line, map[])
  }

  /** A scanned item: its boundary, the position past it and the spaces
      after it, and the line counter there. */
  datatype Item = Item(child: Boundary, next: nat, line: int)

  /** Scan the value at i (reported at globalOffset) and skip the spaces
      after it, as both parse loops do. The item is a strict part of the
      input past i. */
  function ItemAt(input: seq<char>, i: nat, globalOffset: int, line: int): (r: Result<Item>)
    requires i < |input|
    ensures r.Ok? ==> ValidBoundary(r.value.child) && i < r.value.next <= |input|
    ensures r.Ok? ==> i + r.value.child.ActualLength() <= r.value.next
    ensures r.Err? ==> globalOffset <= r.error.offset < globalOffset + (|input| - i)
  {
    match NextBoundary(input, i, globalOffset, line)
    case Err(e) => Err(e)
    case Ok(child) =>
      var s := SpaceRun(input, i + child.ActualLength());
      Ok(Item(child, i + child.ActualLength() + s.space, line + child.lineSize + s.newLines))
  }

  /** A position in a boundary's content and the line counter there. */
  datatype Pos = Pos(at: nat, line: int)

  /** The start of every step of both parse loops at i < |content|: past
      the first item a comma must come first and is consumed; then the
      spaces and newlines are skipped. */
  function Separator(b: Boundary, i: nat, line: int): (r: Result<Pos>)
    requires i < |b.content|
    ensures r.Ok? ==> i <= r.value.at <= |b.content| && (i > 0 ==> i < r.value.at)
    ensures r.Ok? <==> i == 0 || b.content[i] == ','
    ensures r.Err? ==> r.error == ParseError(ExpectedComma(b.content[i]), b.globalOffset + i, line)
  {
    var pv := b.content;
    if i > 0 && pv[i] != ',' then Err(ParseError(ExpectedComma(pv[i]), b.globalOffset + i, line))
    else
      var i1 := if i > 0 then i + 1 else i;
      var s := SpaceRun(pv, i1);
      Ok(Pos(i1 + s.space, line + s.newLines))
  }

  /** One step of arrayBoundary.parse at position i < |content|: the
      separator, then an item that must start before the content ends. */
  function ArrayEntry(b: Boundary, i: nat, line: int): (r: Result<Item>)
    requires b.kind == ArrayKind && i < |b.content|
    ensures r.Ok? ==> ValidBoundary(r.value.child) && i < r.value.next <= |b.content|
    ensures r.Ok? ==> r.value.child.ActualLength() <= |b.content|
    ensures r.Err? ==> b.globalOffset + i <= r.error.offset <= b.globalOffset + |b.content|
  {
    match Separator(b, i, line)
    case Err(e) => Err(e)
    case Ok(p) =>
      if p.at >= |b.content| then Err(ParseError(ExpectedItem, b.globalOffset + p.at, p.line))
      else ItemAt(b.content, p.at, b.globalOffset + p.at, p.line)
  }

  /** arrayBoundary.parse from position i of the content, with the line
      counter and the elements gathered so far; the first error ends the
      parse. */
  function ArrayItemsFrom(b: Boundary, i: nat, line: int, acc: seq<Value>): (r: Result<Value>)
    requires b.kind == ArrayKind && i <= |b.content|
    decreases Rank(b), 0, |b.content| - i
    ensures r.Ok? ==> r.value.Arr?
  {
    if i >= |b.content| then Ok(Arr(acc))
    else match ArrayEntry(b, i, line)
      case Err(e) => Err(e)
      case Ok(item) =>
        match ParseValue(item.child)
        case Err(e) => Err(e)
        case Ok(v) => ArrayItemsFrom(b, item.next, item.line, acc + Splice(v))
  }

  /** The text of a quoted key: the runes between its quotes. */
  function KeyText(key: Boundary): string
    requires IsQuoted(key.content)
  {
    key.content[1..|key.content| - 1]
  }

  /** The key of an object pair always parses to a string, its text, so
      the source's "Error while parsing key" panic cannot happen. */
  lemma KeyIsString(key: Boundary)
    requires key.kind == LiteralKind && ValidBoundary(key) && IsQuoted(key.content)
    ensures ParseLiteral(key) == Ok(Str(KeyText(key)))
  {
    assert key.content[0] == '"';
  }

  /** A scanned key: its boundary, where its value starts, and the line
      counter there. */
  datatype KeyScan = KeyScan(key: Boundary, valueAt: nat, line: int)

  /** After a key ending before j: spaces, ':', spaces, and a value that
      must start before the content ends. The colon must be the first rune
      past the spaces at j; its absence is reported at the rune found
      there, or one before the end when only spaces are left. */
  function ColonAt(pv: seq<char>, j: nat, g: int, line: int): (r: Result<Pos>)
    requires 0 < j <= |pv|
    ensures r.Ok? ==> j < r.value.at < |pv|
    ensures r.Err? ==> g + j - 1 <= r.error.offset < g + |pv|
    ensures var c := j + SpaceRun(pv, j).space;
      r.Ok? ==> c < |pv| && pv[c] == ':' && c < r.value.at
    ensures var c := j + SpaceRun(pv, j).space;
      c == |pv| ==> r == Err(ParseError(ColonAtEnd, g + |pv| - 1, line + SpaceRun(pv, j).newLines))
    ensures var c := j + SpaceRun(pv, j).space;
      c < |pv| && pv[c] != ':' ==> r == Err(ParseError(ExpectedColon(pv[c]), g + c, line + SpaceRun(pv, j).newLines))
  {
    var s2 := SpaceRun(pv, j);
    var i3 := j + s2.space;
    var line3 := line + s2.newLines;
    if i3 == |pv| then Err(ParseError(ColonAtEnd, g + i3 - 1, line3))
    else if pv[i3] != ':' then Err(ParseError(ExpectedColon(pv[i3]), g + i3, line3))
    else ValueStart(pv, i3 + 1, g, line3)
  }

  /** The spaces after the ':' of a pair, up to its value: the value starts
      at the first rune past them, and only spaces left is an error one
      before the end. */
  function ValueStart(pv: seq<char>, k: nat, g: int, line: int): (r: Result<Pos>)
    requires 0 < k <= |pv|
    ensures r.Ok? ==> k <= r.value.at < |pv|
    ensures r.Ok? ==> !IsSpace(pv[r.value.at]) && forall m | k <= m < r.value.at :: IsSpace(pv[m])
    ensures r.Err? ==> g + k - 1 <= r.error.offset < g + |pv|
    ensures r.Err? ==> r.error.kind == ValueAtEnd && r.error.offset == g + |pv| - 1
  {
    var s3 := SpaceRun(pv, k);
    var i4 := k + s3.space;
    var line4 := line + s3.newLines;
    if i4 == |pv| then Err(ParseError(ValueAtEnd, g + i4 - 1, line4))
    else Ok(Pos(i4, line4))
  }

  /** The head of an object pair from i: a quoted key, then ColonAt. */
  function KeyAt(pv: seq<char>, i: nat, g: int, line: int): (r: Result<KeyScan>)
    requires i <= |pv|
    ensures r.Ok? ==> i < r.value.valueAt < |pv|
    ensures r.Ok? ==> r.value.key.kind == LiteralKind && ValidBoundary(r.value.key) && IsQuoted(r.value.key.content)
    ensures r.Err? ==> g + i <= r.error.offset < g + |pv| || (i == |pv| && r.error.offset == g + i)
  {
    match StringSpan(pv, i, g + i, line)
    case Err(e) => Err(e)
    case Ok(key) =>
      match ColonAt(pv, i + key.ActualLength(), g, line)
      case Err(e) => Err(e)
      case Ok(p) => Ok(KeyScan(key, p.at, p.line))
  }

  /** A scanned object pair: the key's text and the value's item. */
  datatype Pair = Pair(key: string, item: Item)

  /** The value after a scanned key, paired with the key's text (the
      runes between its quotes). */
  function ValueAfter(pv: seq<char>, head: KeyScan, g: int): (r: Result<Pair>)
    requires head.valueAt < |pv| && IsQuoted(head.key.content)
    ensures r.Ok? ==> ValidBoundary(r.value.item.child) && head.valueAt < r.value.item.next <= |pv|
    ensures r.Ok? ==> r.value.item.child.ActualLength() <= |pv|
    ensures r.Ok? ==> r.value.key == KeyText(head.key)
    ensures r.Err? ==> g + head.valueAt <= r.error.offset < g + |pv|
  {
    match ItemAt(pv, head.valueAt, g + head.valueAt, head.line)
    case Err(e) => Err(e)
    case Ok(item) => Ok(Pair(KeyText(head.key), item))
  }

  /** An object pair from i: its head, then its value. */
  function PairAt(pv: seq<char>, i: nat, g: int, line: int): (r: Result<Pair>)
    requires i <= |pv|
    ensures r.Ok? ==> ValidBoundary(r.value.item.child) && i < r.value.item.next <= |pv|
    ensures r.Ok? ==> r.value.item.child.ActualLength() <= |pv|
    ensures r.Err? ==> g + i <= r.error.offset < g + |pv| || (i == |pv| && r.error.offset == g + i)
  {
    match KeyAt(pv, i, g, line)
    case Err(e) => Err(e)
    case Ok(head) => ValueAfter(pv, head, g)
  }

  /** One step of objectBoundary.parse at position i < |content|: the
      separator, then a pair. */
  function ObjectEntry(b: Boundary, i: nat, line: int): (r: Result<Pair>)
    requires b.kind == ObjectKind && i < |b.content|
    ensures r.Ok? ==> ValidBoundary(r.value.item.child) && i < r.value.item.next <= |b.content|
    ensures r.Ok? ==> r.value.item.child.ActualLength() <= |b.content|
    ensures r.Err? ==> b.globalOffset + i <= r.error.offset <= b.globalOffset + |b.content|
  {
    match Separator(b, i, line)
    case Err(e) => Err(e)
    case Ok(p) => PairAt(b.content, p.at, b.globalOffset, p.line)
  }

  /** objectBoundary.parse from position i of the content, with the line
      counter and the pairs gathered so far; a later duplicate key
      overwrites the earlier one. */
  function ObjectPairsFrom(b: Boundary, i: nat, line: int, acc: map<string, Value>): (r: Result<Value>)
    requires b.kind == ObjectKind && i <= |b.content|
    decreases Rank(b), 0, |b.content| - i
    ensures r.Ok? ==> r.value.Obj?
  {
    if i >= |b.content| then Ok(Obj(acc))
    else match ObjectEntry(b, i, line)
      case Err(e) => Err(e)
      case Ok(pair) =>
        match ParseValue(pair.item.child)
        case Err(e) => Err(e)
        case Ok(v) => ObjectPairsFrom(b, pair.item.next, pair.item.line, acc[pair.key := v])
  }

  // ---------------------------------------------------------------------
  // The parse as the source runs it
  // ---------------------------------------------------------------------

  /** The scanner dispatch the parse loops and the entry point run. */
  method ScanNext(input: seq<char>, i: nat, globalOffset: int, line: int) returns (r: Result<Boundary>)
    requires i < |input|
    ensures r == NextBoundary(input, i, globalOffset, line)
  {
    if input[i] == '{' {
      r := GetBracketBoundary(input, i, globalOffset, line, ObjectKind);
    } else if input[i] == '[' {
      r := GetBracketBoundary(input, i, globalOffset, line, ArrayKind);
    } else {
      r := GetLiteralBoundary(input, i, globalOffset, line);
    }
  }

  /** bound.parse() dispatched on the boundary's kind. */
  method ParseBoundary(b: Boundary) returns (r: Result<Value>)
    requires ValidBoundary(b)
    decreases Rank(b), 1
    ensures r == ParseValue(b)
  {
    match b.kind
    case LiteralKind => r := ParseLiteral(b);
    case ArrayKind => r := ParseArray(b);
    case ObjectKind => r := ParseObject(b);
  }

  /** Scan the value at i and skip the spaces after it. */
  method ScanItem(input: seq<char>, i: nat, globalOffset: int, line: int) returns (r: Result<Item>)
    requires i < |input|
    ensures r == ItemAt(input, i, globalOffset, line)
  {
    var scanned := ScanNext(input, i, globalOffset, line);
    if scanned.Err? {
      return Err(scanned.error);
    }
    var bound := scanned.value;
    var spaces, newLines := CountSpace(input, i + bound.ActualLength());
    return Ok(Item(bound, i + bound.ActualLength() + spaces, line + bound.lineSize + newLines));
  }

  /** The comma check and the spaces that open each step of both loops. */
  method ScanSeparator(b: Boundary, i: nat, line: int) returns (r: Result<Pos>)
    requires i < |b.content|
    ensures r == Separator(b, i, line)
  {
    var j := i;
    if j > 0 {
      if b.content[j] != ',' {
        return Err(ParseError(ExpectedComma(b.content[j]), b.globalOffset + j, line));
      }
      j := j + 1;
    }
    var boundOffset, newLines := CountSpace(b.content, j);
    return Ok(Pos(j + boundOffset, line + newLines));
  }

  /** The spaces, the ':' and the spaces after an object key. */
  method ScanColon(parentValue: seq<char>, j: nat, g: int, line: int) returns (r: Result<Pos>)
    requires 0 < j <= |parentValue|
    ensures r == ColonAt(parentValue, j, g, line)
  {
    var spaces, newLines := CountSpace(parentValue, j);
    var k := j + spaces;
    var keyLine := line + newLines;
    if |parentValue| == k {
      return Err(ParseError(ColonAtEnd, g + k - 1, keyLine));
    }
    if parentValue[k] != ':' {
      return Err(ParseError(ExpectedColon(parentValue[k]), g + k, keyLine));
    }
    r := ScanValueStart(parentValue, k + 1, g, keyLine);
  }

  /** The spaces after the ':' up to the value. */
  method ScanValueStart(parentValue: seq<char>, k: nat, g: int, line: int) returns (r: Result<Pos>)
    requires 0 < k <= |parentValue|
    ensures r == ValueStart(parentValue, k, g, line)
  {
    var boundOffset, newLines := CountSpace(parentValue, k);
    var i := k + boundOffset;
    if |parentValue| == i {
      return Err(ParseError(ValueAtEnd, g + i - 1, line + newLines));
    }
    return Ok(Pos(i, line + newLines));
  }

  /** Scan an object pair's key, the ':' and the spaces up to its value. */
  method ScanKey(parentValue: seq<char>, i: nat, g: int, line: int) returns (r: Result<KeyScan>)
    requires i <= |parentValue|
    ensures r == KeyAt(parentValue, i, g, line)
  {
    var keyScanned := GetStringBoundary(parentValue, i, g + i, line);
    if keyScanned.Err? {
      return Err(keyScanned.error);
    }
    var keyBoundary := keyScanned.value;
    var colon := ScanColon(parentValue, i + keyBoundary.ActualLength(), g, line);
    if colon.Err? {
      return Err(colon.error);
    }
    return Ok(KeyScan(keyBoundary, colon.value.at, colon.value.line));
  }

  /** The separator and the item of one array step. */
  method ScanArrayEntry(b: Boundary, i: nat, line: int) returns (r: Result<Item>)
    requires b.kind == ArrayKind && i < |b.content|
    ensures r == ArrayEntry(b, i, line)
  {
    var start := ScanSeparator(b, i, line);
    if start.Err? {
      return Err(start.error);
    }
    var p := start.value;
    if p.at >= |b.content| {
      return Err(ParseError(ExpectedItem, b.globalOffset + p.at, p.line));
    }
    r := ScanItem(b.content, p.at, b.globalOffset + p.at, p.line);
  }

  /** Scan the value after an object key. The source parses the key
      boundary as a literal and keeps the string; by KeyIsString that
      string is the key's text. */
  method ScanValue(parentValue: seq<char>, head: KeyScan, g: int) returns (r: Result<Pair>)
    requires head.valueAt < |parentValue| && IsQuoted(head.key.content)
    ensures r == ValueAfter(parentValue, head, g)
  {
    var scanned := ScanItem(parentValue, head.valueAt, g + head.valueAt, head.line);
    if scanned.Err? {
      return Err(scanned.error);
    }
    return Ok(Pair(KeyText(head.key), scanned.value));
  }

  /** Scan an object pair: its key, then its value. */
  method ScanPair(parentValue: seq<char>, i: nat, g: int, line: int) returns (r: Result<Pair>)
    requires i <= |parentValue|
    ensures r == PairAt(parentValue, i, g, line)
  {
    var head := ScanKey(parentValue, i, g, line);
    if head.Err? {
      return Err(head.error);
    }
    r := ScanValue(parentValue, head.value, g);
  }

  /** The separator and the pair of one object step. */
  method ScanObjectEntry(b: Boundary, i: nat, line: int) returns (r: Result<Pair>)
    requires b.kind == ObjectKind && i < |b.content|
    ensures r == ObjectEntry(b, i, line)
  {
    var start := ScanSeparator(b, i, line);
    if start.Err? {
      return Err(start.error);
    }
    r := ScanPair(b.content, start.value.at, b.globalOffset, start.value.line);
  }

  /** arrayBoundary.parse: advances i and line through the content while
      appending to the result. */
  method ParseArray(b: Boundary) returns (r: Result<Value>)
    requires b.kind == ArrayKind
    decreases Rank(b), 0
    ensures r == ArrayItemsFrom(b, 0, b.line, [])
  {
    var result: seq<Value> := [];
    var line := b.line;
    var i := 0;
    while i < |b.content|
      invariant 0 <= i <= |b.content|
      invariant ArrayItemsFrom(b, i, line, result) == ArrayItemsFrom(b, 0, b.line, [])
      decreases |b.content| - i
    {
      var scanned := ScanArrayEntry(b, i, line);
      if scanned.Err? {
        return Err(scanned.error);
      }
      var item := scanned.value;
      i, line := item.next, item.line;
      var parsed := ParseBoundary(item.child);
      if parsed.Err? {
        return Err(parsed.error);
      }
      result := result + Splice(parsed.value);
    }
    return Ok(Arr(result));
  }

  /** objectBoundary.parse: advances i and line through the content while
      assigning result[key]. */
  method ParseObject(b: Boundary) returns (r: Result<Value>)
    requires b.kind == ObjectKind
    decreases Rank(b), 0
    ensures r == ObjectPairsFrom(b, 0, b.line, map[])
  {
    var result: map<string, Value> := map[];
    var line := b.line;
    var i := 0;
    while i < |b.content|
      invariant 0 <= i <= |b.content|
      invariant ObjectPairsFrom(b, i, line, result) == ObjectPairsFrom(b, 0, b.line, map[])
      decreases |b.content| - i
    {
      var scanned := ScanObjectEntry(b, i, line);
      if scanned.Err? {
        return Err(scanned.error);
      }
      var pair := scanned.value;
      i, line := pair.item.next, pair.item.line;
      var parsed := ParseBoundary(pair.item.child);
      if parsed.Err? {
        return Err(parsed.error);
      }
      result := result[pair.key := parsed.value];
    }
    return Ok(Obj(result));
  }
}
