/** What the recursive parse accepts and rejects, and the shape of what it
    builds. */
module ParserFacts {
  import opened JsonValues
  import opened Whitespace
  import opened Scanners
  import opened Literals
  import opened Parser

  // ---------------------------------------------------------------------
  // Empty, blank and unfinished bodies
  // ---------------------------------------------------------------------

  /** "[]" and "{}" have empty content and parse to an empty array and an
      empty object. */
  lemma EmptyContainers(line: int, globalOffset: int)
    ensures ParseValue(Boundary(ArrayKind, [], line, 0, globalOffset)) == Ok(Arr([]))
    ensures ParseValue(Boundary(ObjectKind, [], line, 0, globalOffset)) == Ok(Obj(map[]))
  {
  }

  /** A body of spaces and newlines only is not empty: an array reports a
      missing item and an object a missing key quote, both just past the
      body, with the line counter advanced by the body's newlines. */
  lemma {:induction false} BlankBodyRejected(b: Boundary)
    requires b.kind != LiteralKind && |b.content| > 0
    requires forall k | 0 <= k < |b.content| :: IsSpace(b.content[k])
    ensures ParseValue(b) == Err(ParseError(
      if b.kind == ArrayKind then ExpectedItem else QuoteAtEnd,
      b.globalOffset + |b.content|,
      b.line + NewlinesIn(b.content, 0, |b.content|)))
  {
    var s := SpaceRun(b.content, 0);
    assert s.space == |b.content|;
    assert Separator(b, 0, b.line) == Ok(Pos(|b.content|, b.line + s.newLines));
  }

  /** A comma followed only by spaces and newlines: the array expects one
      more item, the object one more key, past the end of the body. */
  lemma {:induction false} TrailingCommaRejected(b: Boundary, i: nat, line: int, vals: seq<Value>, fields: map<string, Value>)
    requires b.kind != LiteralKind && 0 < i < |b.content| && b.content[i] == ','
    requires forall k | i < k < |b.content| :: IsSpace(b.content[k])
    ensures var e := ParseError(
        if b.kind == ArrayKind then ExpectedItem else QuoteAtEnd,
        b.globalOffset + |b.content|,
        line + NewlinesIn(b.content, i + 1, |b.content|));
      && (b.kind == ArrayKind ==> ArrayItemsFrom(b, i, line, vals) == Err(e))
      && (b.kind == ObjectKind ==> ObjectPairsFrom(b, i, line, fields) == Err(e))
  {
    var s := SpaceRun(b.content, i + 1);
    assert s.space == |b.content| - (i + 1);
    assert Separator(b, i, line) == Ok(Pos(|b.content|, line + s.newLines));
  }

  /** A scalar must be followed by a delimiter inside the body, so an
      array whose last item is a bare number, boolean or null fails with
      "Unexpected end of value" at that item: "[1,2,3]" is rejected. */
  lemma LastScalarInArrayRejected(b: Boundary, i: nat, line: int, acc: seq<Value>)
    requires b.kind == ArrayKind && i < |b.content|
    requires Separator(b, i, line).Ok?
    requires var p := Separator(b, i, line).value;
      && p.at < |b.content| && b.content[p.at] !in {'{', '[', '"'}
      && forall k | p.at < k < |b.content| :: !IsDelimiter(b.content[k])
    ensures var p := Separator(b, i, line).value;
      ArrayItemsFrom(b, i, line, acc) == Err(ParseError(EndOfValue, b.globalOffset + p.at, p.line))
  {
    var p := Separator(b, i, line).value;
    LiteralSpanFirstDelimiter(b.content, p.at, b.globalOffset + p.at, p.line);
  }

  /** The same for an object's last value: "{\"a\":1}" is rejected. */
  lemma LastScalarInObjectRejected(b: Boundary, i: nat, line: int, acc: map<string, Value>)
    requires b.kind == ObjectKind && i < |b.content|
    requires Separator(b, i, line).Ok?
    requires var p := Separator(b, i, line).value;
      KeyAt(b.content, p.at, b.globalOffset, p.line).Ok?
    requires var p := Separator(b, i, line).value;
      var head := KeyAt(b.content, p.at, b.globalOffset, p.line).value;
      && b.content[head.valueAt] !in {'{', '[', '"'}
      && forall k | head.valueAt < k < |b.content| :: !IsDelimiter(b.content[k])
    ensures var p := Separator(b, i, line).value;
      var head := KeyAt(b.content, p.at, b.globalOffset, p.line).value;
      ObjectPairsFrom(b, i, line, acc) == Err(ParseError(EndOfValue, b.globalOffset + head.valueAt, head.line))
  {
    var p := Separator(b, i, line).value;
    var head := KeyAt(b.content, p.at, b.globalOffset, p.line).value;
    LiteralSpanFirstDelimiter(b.content, head.valueAt, b.globalOffset + head.valueAt, head.line);
  }

  // ---------------------------------------------------------------------
  // Where a child lies in its parent
  // ---------------------------------------------------------------------

  /** The child's runes lie inside the parent's content, offsets included:
      a literal from its offset on, a composite's content and its closing
      bracket from its offset on. */
  predicate ChildWithin(parent: Boundary, child: Boundary) {
    && parent.globalOffset <= child.globalOffset
    && child.globalOffset + |child.content| + (if child.kind == LiteralKind then 0 else 1)
         <= parent.globalOffset + |parent.content|
  }

  /** A scanned item is reported at the caller's offset for a literal and
      one past it for a composite, and fits before the end of the input. */
  lemma ItemAtOffset(input: seq<char>, i: nat, globalOffset: int, line: int)
    requires i < |input|
    ensures var r := ItemAt(input, i, globalOffset, line);
      r.Ok? ==>
        && r.value.child.globalOffset == globalOffset + (if r.value.child.kind == LiteralKind then 0 else 1)
        && i + r.value.child.ActualLength() <= |input|
  {
  }

  lemma ArrayEntryWithin(b: Boundary, i: nat, line: int)
    requires b.kind == ArrayKind && i < |b.content|
    ensures var r := ArrayEntry(b, i, line);
      r.Ok? ==> ChildWithin(b, r.value.child)
  {
    match Separator(b, i, line)
    case Err(_) =>
    case Ok(p) =>
      if p.at < |b.content| {
        ItemAtOffset(b.content, p.at, b.globalOffset + p.at, p.line);
      }
  }

  lemma ObjectEntryWithin(b: Boundary, i: nat, line: int)
    requires b.kind == ObjectKind && i < |b.content|
    ensures var r := ObjectEntry(b, i, line);
      r.Ok? ==> ChildWithin(b, r.value.item.child)
  {
    match Separator(b, i, line)
    case Err(_) =>
    case Ok(p) =>
      match KeyAt(b.content, p.at, b.globalOffset, p.line)
      case Err(_) =>
      case Ok(head) =>
        ItemAtOffset(b.content, head.valueAt, b.globalOffset + head.valueAt, head.line);
  }

  // ---------------------------------------------------------------------
  // Errors are reported inside the span being parsed
  // ---------------------------------------------------------------------

  /** The offsets a boundary's parse can report: a literal's own offset,
      or a position from a composite's first content rune through its
      closing bracket. */
  predicate InSpan(b: Boundary, offset: int) {
    b.globalOffset <= offset <= b.globalOffset + (if b.kind == LiteralKind then 0 else |b.content|)
  }

  lemma {:induction false} ParseErrorInSpan(b: Boundary)
    requires ValidBoundary(b)
    decreases Rank(b), 1, 0
    ensures ParseValue(b).Err? ==> InSpan(b, ParseValue(b).error.offset)
  {
    match b.kind
    case LiteralKind =>
    case ArrayKind => ArrayErrorInSpan(b, 0, b.line, []);
    case ObjectKind => ObjectErrorInSpan(b, 0, b.line, map[]);
  }

  lemma {:induction false} ArrayErrorInSpan(b: Boundary, i: nat, line: int, acc: seq<Value>)
    requires b.kind == ArrayKind && i <= |b.content|
    decreases Rank(b), 0, |b.content| - i
    ensures var r := ArrayItemsFrom(b, i, line, acc);
      r.Err? ==> InSpan(b, r.error.offset)
  {
    if i < |b.content| {
      match ArrayEntry(b, i, line)
      case Err(_) =>
      case Ok(item) =>
        ArrayEntryWithin(b, i, line);
        ParseErrorInSpan(item.child);
        match ParseValue(item.child)
        case Err(_) =>
        case Ok(v) => ArrayErrorInSpan(b, item.next, item.line, acc + Splice(v));
    }
  }

  lemma {:induction false} ObjectErrorInSpan(b: Boundary, i: nat, line: int, acc: map<string, Value>)
    requires b.kind == ObjectKind && i <= |b.content|
    decreases Rank(b), 0, |b.content| - i
    ensures var r := ObjectPairsFrom(b, i, line, acc);
      r.Err? ==> InSpan(b, r.error.offset)
  {
    if i < |b.content| {
      match ObjectEntry(b, i, line)
      case Err(_) =>
      case Ok(pair) =>
        ObjectEntryWithin(b, i, line);
        ParseErrorInSpan(pair.item.child);
        match ParseValue(pair.item.child)
        case Err(_) =>
        case Ok(v) => ObjectErrorInSpan(b, pair.item.next, pair.item.line, acc[pair.key := v]);
    }
  }

  // ---------------------------------------------------------------------
  // Spaces and newlines between tokens
  // ---------------------------------------------------------------------

  /** A step starts at the first rune past the spaces and newlines that
      follow the comma (or the body's start), on the line advanced by
      their newlines. */
  lemma SeparatorSkipsSpaces(b: Boundary, i: nat, line: int)
    requires i < |b.content|
    ensures var r := Separator(b, i, line);
      var i1 := if i > 0 then i + 1 else i;
      r.Ok? ==>
        && i1 <= r.value.at <= |b.content|
        && (forall m | i1 <= m < r.value.at :: IsSpace(b.content[m]))
        && (r.value.at == |b.content| || !IsSpace(b.content[r.value.at]))
        && r.value.line == line + NewlinesIn(b.content, i1, r.value.at)
  {
  }

  /** An item is the boundary scanned at i, and a scan error is the
      item's error. */
  lemma ItemAtScansChild(input: seq<char>, i: nat, globalOffset: int, line: int)
    requires i < |input|
    ensures var r := ItemAt(input, i, globalOffset, line);
      var nb := NextBoundary(input, i, globalOffset, line);
      && (r.Ok? <==> nb.Ok?)
      && (r.Err? ==> r.error == nb.error)
      && (r.Ok? ==> nb.value == r.value.child)
  {
  }

  /** The next step starts at the first rune past the spaces and newlines
      after the item's child, on the line advanced by the child's and
      their newlines. */
  lemma ItemAtSkipsSpaces(input: seq<char>, i: nat, globalOffset: int, line: int)
    requires i < |input|
    ensures var r := ItemAt(input, i, globalOffset, line);
      r.Ok? ==>
        var e := i + r.value.child.ActualLength();
        && e <= r.value.next <= |input|
        && (forall m | e <= m < r.value.next :: IsSpace(input[m]))
        && (r.value.next == |input| || !IsSpace(input[r.value.next]))
        && r.value.line == line + r.value.child.lineSize + NewlinesIn(input, e, r.value.next)
  {
    var r := ItemAt(input, i, globalOffset, line);
    if r.Ok? {
      var child := r.value.child;
      var e := i + child.ActualLength();
      var s := SpaceRun(input, e);
      var next := e + s.space;
      assert r.value == Item(child, next, line + child.lineSize + s.newLines);
      assert e <= |input| && s.newLines == NewlinesIn(input, e, next);
    }
  }

  /** After a colon, the value position is found exactly when some rune
      other than a space or newline follows. */
  lemma ValueStartFindsValue(pv: seq<char>, k: nat, g: int, line: int)
    requires 0 < k <= |pv|
    ensures ValueStart(pv, k, g, line).Err? <==> k + SpaceRun(pv, k).space == |pv|
    ensures ValueStart(pv, k, g, line).Ok? ==> ValueStart(pv, k, g, line).value.at == k + SpaceRun(pv, k).space
  {
  }

  /** A colon found past the spaces after a key always goes on to the
      value position after it. */
  lemma ColonAtGoesOn(pv: seq<char>, j: nat, g: int, line: int)
    requires 0 < j <= |pv|
    ensures var c := j + SpaceRun(pv, j).space;
      c < |pv| && pv[c] == ':' ==>
        ColonAt(pv, j, g, line) == ValueStart(pv, c + 1, g, line + SpaceRun(pv, j).newLines)
  {
  }

  // ---------------------------------------------------------------------
  // One step of each loop
  // ---------------------------------------------------------------------

  /** One step of the array loop: a failed entry or child parse ends the
      parse with that error; a parsed child v is spliced onto the end of
      the elements gathered so far and the loop goes on past the item; at
      the end of the body the elements gathered are the array. */
  lemma ArrayStep(b: Boundary, i: nat, line: int, acc: seq<Value>)
    requires b.kind == ArrayKind && i <= |b.content|
    ensures i == |b.content| ==> ArrayItemsFrom(b, i, line, acc) == Ok(Arr(acc))
    ensures i < |b.content| && ArrayEntry(b, i, line).Err? ==>
      ArrayItemsFrom(b, i, line, acc) == Err(ArrayEntry(b, i, line).error)
    ensures i < |b.content| && ArrayEntry(b, i, line).Ok? ==>
      var item := ArrayEntry(b, i, line).value;
      && (ParseValue(item.child).Err? ==> ArrayItemsFrom(b, i, line, acc) == Err(ParseValue(item.child).error))
      && (ParseValue(item.child).Ok? ==>
            ArrayItemsFrom(b, i, line, acc) == ArrayItemsFrom(b, item.next, item.line, acc + Splice(ParseValue(item.child).value)))
  {
  }

  /** One step of the object loop: a failed entry or value parse ends the
      parse with that error; a parsed value v is stored under the pair's
      key, replacing any earlier value of that key, and the loop goes on
      past the pair; at the end of the body the map gathered is the
      object. */
  lemma ObjectStep(b: Boundary, i: nat, line: int, acc: map<string, Value>)
    requires b.kind == ObjectKind && i <= |b.content|
    ensures i == |b.content| ==> ObjectPairsFrom(b, i, line, acc) == Ok(Obj(acc))
    ensures i < |b.content| && ObjectEntry(b, i, line).Err? ==>
      ObjectPairsFrom(b, i, line, acc) == Err(ObjectEntry(b, i, line).error)
    ensures i < |b.content| && ObjectEntry(b, i, line).Ok? ==>
      var pair := ObjectEntry(b, i, line).value;
      && (ParseValue(pair.item.child).Err? ==> ObjectPairsFrom(b, i, line, acc) == Err(ParseValue(pair.item.child).error))
      && (ParseValue(pair.item.child).Ok? ==>
            ObjectPairsFrom(b, i, line, acc) ==
            ObjectPairsFrom(b, pair.item.next, pair.item.line, acc[pair.key := ParseValue(pair.item.child).value]))
  {
  }

  // ---------------------------------------------------------------------
  // Nested arrays are flattened into their parent
  // ---------------------------------------------------------------------

  /** No array holds an array directly, at any depth. */
  predicate Flat(v: Value)
    decreases v
  {
    match v
    case Arr(items) => forall k | 0 <= k < |items| :: !items[k].Arr? && Flat(items[k])
    case Obj(fields) => forall key | key in fields :: Flat(fields[key])
    case _ => true
  }

  /** Splicing a flat value into an array keeps the array flat: an array
      child contributes its (already flat) elements, never itself. */
  lemma SpliceFlat(acc: seq<Value>, v: Value)
    requires Flat(Arr(acc)) && Flat(v)
    ensures Flat(Arr(acc + Splice(v)))
  {
    var r := acc + Splice(v);
    forall k | 0 <= k < |r| ensures !r[k].Arr? && Flat(r[k]) {
      if k >= |acc| {
        assert r[k] == Splice(v)[k - |acc|];
      }
    }
  }

  /** Every value the parser produces is flat: the documents "[[1 ] ,2 ]"
      and "[1 ,2 ]" give the same elements. */
  lemma {:induction false} ParsedValuesFlat(b: Boundary)
    requires ValidBoundary(b)
    decreases Rank(b), 1, 0
    ensures ParseValue(b).Ok? ==> Flat(ParseValue(b).value)
  {
    match b.kind
    case LiteralKind =>
    case ArrayKind => ArrayItemsFlat(b, 0, b.line, []);
    case ObjectKind => ObjectPairsFlat(b, 0, b.line, map[]);
  }

  lemma {:induction false} ArrayItemsFlat(b: Boundary, i: nat, line: int, acc: seq<Value>)
    requires b.kind == ArrayKind && i <= |b.content|
    requires Flat(Arr(acc))
    decreases Rank(b), 0, |b.content| - i
    ensures var r := ArrayItemsFrom(b, i, line, acc);
      r.Ok? ==> Flat(r.value)
  {
    if i < |b.content| {
      match ArrayEntry(b, i, line)
      case Err(_) =>
      case Ok(item) =>
        ParsedValuesFlat(item.child);
        match ParseValue(item.child)
        case Err(_) =>
        case Ok(v) =>
          SpliceFlat(acc, v);
          ArrayItemsFlat(b, item.next, item.line, acc + Splice(v));
    }
  }

  lemma {:induction false} ObjectPairsFlat(b: Boundary, i: nat, line: int, acc: map<string, Value>)
    requires b.kind == ObjectKind && i <= |b.content|
    requires Flat(Obj(acc))
    decreases Rank(b), 0, |b.content| - i
    ensures var r := ObjectPairsFrom(b, i, line, acc);
      r.Ok? ==> Flat(r.value)
  {
    if i < |b.content| {
      match ObjectEntry(b, i, line)
      case Err(_) =>
      case Ok(pair) =>
        ParsedValuesFlat(pair.item.child);
        match ParseValue(pair.item.child)
        case Err(_) =>
        case Ok(v) =>
          assert Flat(Obj(acc[pair.key := v]));
          ObjectPairsFlat(b, pair.item.next, pair.item.line, acc[pair.key := v]);
    }
  }

  // ---------------------------------------------------------------------
  // The loops only add to what they have gathered
  // ---------------------------------------------------------------------

  /** The elements gathered so far stay, in order, at the front. */
  lemma {:induction false} ArrayKeepsPrefix(b: Boundary, i: nat, line: int, acc: seq<Value>)
    requires b.kind == ArrayKind && i <= |b.content|
    decreases |b.content| - i
    ensures var r := ArrayItemsFrom(b, i, line, acc);
      r.Ok? ==> acc <= r.value.items
  {
    if i < |b.content| {
      match ArrayEntry(b, i, line)
      case Err(_) =>
      case Ok(item) =>
        match ParseValue(item.child)
        case Err(_) =>
        case Ok(v) => ArrayKeepsPrefix(b, item.next, item.line, acc + Splice(v));
    }
  }

  /** The keys gathered so far stay; a later pair may only overwrite a
      key's value. */
  lemma {:induction false} ObjectKeepsKeys(b: Boundary, i: nat, line: int, acc: map<string, Value>)
    requires b.kind == ObjectKind && i <= |b.content|
    decreases |b.content| - i
    ensures var r := ObjectPairsFrom(b, i, line, acc);
      r.Ok? ==> acc.Keys <= r.value.fields.Keys
  {
    if i < |b.content| {
      match ObjectEntry(b, i, line)
      case Err(_) =>
      case Ok(pair) =>
        match ParseValue(pair.item.child)
        case Err(_) =>
        case Ok(v) => ObjectKeepsKeys(b, pair.item.next, pair.item.line, acc[pair.key := v]);
    }
  }
}
