/** Small bodies the parse accepts, worked through step by step: they show
    that a non-empty array and object are accepted at all, that a nested
    array is spliced into its parent in source order, and that a repeated
    key keeps its last value. Each body is given rune by rune, then as
    the string it spells. */
module WorkedCases {
  import opened JsonValues
  import opened Whitespace
  import opened Scanners
  import opened Literals
  import opened Parser
  import opened ParserFacts
  import opened Document

  /** A single digit parses to its value. */
  lemma DigitLiteral(c: char, line: int, g: int)
    requires '0' <= c <= '9'
    ensures ParseValue(Boundary(LiteralKind, [c], line, 0, g)) == Ok(Int(c as int - '0' as int))
  {
    var s := [c];
    assert s[..0] == [];
    assert IsDigits(s);
    assert DigitsValue(s) == c as int - '0' as int;
  }

  /** A digit followed by a space, then anything but more spaces: the item
      is the digit's literal, and the next position is past the space. */
  lemma ItemOfDigit(pv: seq<char>, i: nat, c: char, g: int, line: int)
    requires '0' <= c <= '9'
    requires i + 2 <= |pv| && pv[i] == c && pv[i + 1] == ' '
    requires i + 2 == |pv| || !IsSpace(pv[i + 2])
    ensures ItemAt(pv, i, g, line) == Ok(Item(Boundary(LiteralKind, [c], line, 0, g), i + 2, line))
  {
    var lit := Boundary(LiteralKind, [c], line, 0, g);
    assert DelimiterFrom(pv, i + 1) == Some(i + 1);
    assert pv[i..i + 1] == [c];
    assert NextBoundary(pv, i, g, line) == Ok(lit);
    assert SpaceRun(pv, i + 2) == Skip(0, 0);
    assert SpaceRun(pv, i + 1) == Skip(1, 0);
  }

  /** An array body holding the digit 1 and a space (the text between the
      brackets of "[1 ]") is the array of one integer. */
  lemma OneElementArray(pv: seq<char>, line: int, g: int)
    requires |pv| == 2 && pv[0] == '1' && pv[1] == ' '
    ensures ParseValue(Boundary(ArrayKind, pv, line, 0, g)) == Ok(Arr([Int(1)]))
  {
    var b := Boundary(ArrayKind, pv, line, 0, g);
    var one := Boundary(LiteralKind, ['1'], line, 0, g);
    assert ArrayEntry(b, 0, line) == Ok(Item(one, 2, line)) by {
      assert SpaceRun(pv, 0) == Skip(0, 0);
      ItemOfDigit(pv, 0, '1', g, line);
    }
    DigitLiteral('1', line, g);
    assert [] + Splice(Int(1)) == [Int(1)];
    ArrayStep(b, 0, line, []);
    ArrayStep(b, 2, line, [Int(1)]);
    assert ParseValue(b) == ArrayItemsFrom(b, 0, line, []);
  }

  /** A body starting with "[1 ]": the scanner closes the inner array at
      index 3, its content being the two runes between the brackets. */
  lemma InnerArraySpan(pv: seq<char>, g: int, line: int)
    requires 4 <= |pv| && pv[0] == '[' && pv[1] == '1' && pv[2] == ' ' && pv[3] == ']'
    ensures NextBoundary(pv, 0, g, line) == Ok(Boundary(ArrayKind, pv[1..3], line, 0, g + 1))
  {
    var st1 := Step(Initial, '[', ArrayKind);
    var st2 := Step(st1, '1', ArrayKind);
    var st3 := Step(st2, ' ', ArrayKind);
    assert st3.depth == 1 && Step(st3, ']', ArrayKind).depth == 0;
    assert CloseFrom(pv, 0, 3, st3, ArrayKind) == Some(3);
    assert CloseFrom(pv, 0, 2, st2, ArrayKind) == Some(3);
    assert CloseFrom(pv, 0, 1, st1, ArrayKind) == Some(3);
    assert CloseFrom(pv, 0, 0, Initial, ArrayKind) == Some(3);
    assert NewlinesIn(pv, 1, 2) == 0;
    assert NewlinesIn(pv, 1, 3) == 0;
  }

  /** The first entry of the body "[1 ] ,2 ": the inner array, followed by
      one space. */
  lemma NestedFirstEntry(pv: seq<char>, line: int, g: int)
    requires |pv| == 8 && pv[0] == '[' && pv[1] == '1' && pv[2] == ' ' && pv[3] == ']'
    requires pv[4] == ' ' && pv[5] == ','
    ensures ArrayEntry(Boundary(ArrayKind, pv, line, 0, g), 0, line) ==
      Ok(Item(Boundary(ArrayKind, pv[1..3], line, 0, g + 1), 5, line))
  {
    InnerArraySpan(pv, g, line);
    assert SpaceRun(pv, 0) == Skip(0, 0);
    assert SpaceRun(pv, 5) == Skip(0, 0);
    assert SpaceRun(pv, 4) == Skip(1, 0);
  }

  /** The second entry of the body "[1 ] ,2 ": a comma, then the digit 2
      delimited by the last space. */
  lemma NestedSecondEntry(pv: seq<char>, line: int, g: int)
    requires |pv| == 8 && pv[5] == ',' && pv[6] == '2' && pv[7] == ' '
    ensures ArrayEntry(Boundary(ArrayKind, pv, line, 0, g), 5, line) ==
      Ok(Item(Boundary(LiteralKind, ['2'], line, 0, g + 6), 8, line))
  {
    assert SpaceRun(pv, 6) == Skip(0, 0);
    ItemOfDigit(pv, 6, '2', g + 6, line);
  }

  /** The array body "[1 ] ,2 " (of the document "[[1 ] ,2 ]"): the inner
      array's element is spliced in, and the elements keep their order. */
  lemma NestedArraySpliced(pv: seq<char>, line: int, g: int)
    requires |pv| == 8 && pv[0] == '[' && pv[1] == '1' && pv[2] == ' ' && pv[3] == ']'
    requires pv[4] == ' ' && pv[5] == ',' && pv[6] == '2' && pv[7] == ' '
    ensures ParseValue(Boundary(ArrayKind, pv, line, 0, g)) == Ok(Arr([Int(1), Int(2)]))
  {
    var b := Boundary(ArrayKind, pv, line, 0, g);
    NestedFirstEntry(pv, line, g);
    OneElementArray(pv[1..3], line, g + 1);
    NestedSecondEntry(pv, line, g);
    DigitLiteral('2', line, g + 6);
    assert [] + Splice(Arr([Int(1)])) == [Int(1)];
    assert [Int(1)] + Splice(Int(2)) == [Int(1), Int(2)];
    ArrayStep(b, 0, line, []);
    ArrayStep(b, 5, line, [Int(1)]);
    ArrayStep(b, 8, line, [Int(1), Int(2)]);
    assert ParseValue(b) == ArrayItemsFrom(b, 0, line, []);
  }

  lemma NestedArraySplicedText(line: int, g: int)
    ensures ParseValue(Boundary(ArrayKind, "[1 ] ,2 ", line, 0, g)) == Ok(Arr([Int(1), Int(2)]))
  {
    NestedArraySpliced("[1 ] ,2 ", line, g);
  }

  /** The key "a" and its colon at i, with the value right after the
      colon. */
  lemma KeyOfA(pv: seq<char>, i: nat, g: int, line: int)
    requires i + 4 < |pv| && pv[i] == '"' && pv[i + 1] == 'a' && pv[i + 2] == '"' && pv[i + 3] == ':'
    requires !IsSpace(pv[i + 4])
    ensures KeyAt(pv, i, g, line) == Ok(KeyScan(Boundary(LiteralKind, pv[i..i + 3], line, 0, g + i), i + 4, line))
  {
    var key := Boundary(LiteralKind, pv[i..i + 3], line, 0, g + i);
    assert StringEnd(pv, i, i + 2, false) == Closed(i + 2);
    assert StringEnd(pv, i, i + 1, false) == Closed(i + 2);
    assert StringSpan(pv, i, g + i, line) == Ok(key);
    assert SpaceRun(pv, i + 3) == Skip(0, 0);
    assert SpaceRun(pv, i + 4) == Skip(0, 0);
    assert ValueStart(pv, i + 4, g, line) == Ok(Pos(i + 4, line));
  }

  /** The pair "\"a\":" followed by the digit c and a space at i: the key a
      and the digit's literal. */
  lemma PairOfDigit(pv: seq<char>, i: nat, c: char, g: int, line: int)
    requires '0' <= c <= '9'
    requires i + 6 <= |pv| && pv[i] == '"' && pv[i + 1] == 'a' && pv[i + 2] == '"' && pv[i + 3] == ':'
    requires pv[i + 4] == c && pv[i + 5] == ' '
    requires i + 6 == |pv| || !IsSpace(pv[i + 6])
    ensures PairAt(pv, i, g, line) ==
      Ok(Pair("a", Item(Boundary(LiteralKind, [c], line, 0, g + i + 4), i + 6, line)))
  {
    KeyOfA(pv, i, g, line);
    ItemOfDigit(pv, i + 4, c, g + i + 4, line);
    var key := Boundary(LiteralKind, pv[i..i + 3], line, 0, g + i);
    assert KeyText(key) == "a" by {
      assert |key.content| == 3 && key.content[1] == pv[i + 1] == 'a';
      assert key.content[1..|key.content| - 1] == [key.content[1]];
    }
  }

  /** The first entry of the object body "\"a\":1 ,\"a\":2 ". */
  lemma DuplicateKeyFirstEntry(pv: seq<char>, line: int, g: int)
    requires |pv| == 13 && pv[0] == '"' && pv[1] == 'a' && pv[2] == '"' && pv[3] == ':' && pv[4] == '1'
    requires pv[5] == ' ' && pv[6] == ','
    ensures ObjectEntry(Boundary(ObjectKind, pv, line, 0, g), 0, line) ==
      Ok(Pair("a", Item(Boundary(LiteralKind, ['1'], line, 0, g + 4), 6, line)))
  {
    var b := Boundary(ObjectKind, pv, line, 0, g);
    assert Separator(b, 0, line) == Ok(Pos(0, line)) by {
      assert SpaceRun(pv, 0) == Skip(0, 0);
    }
    PairOfDigit(pv, 0, '1', g, line);
  }

  /** The object loop's first turn on that body sets a to 1. */
  lemma DuplicateKeyFirstStep(pv: seq<char>, line: int, g: int)
    requires |pv| == 13 && pv[0] == '"' && pv[1] == 'a' && pv[2] == '"' && pv[3] == ':' && pv[4] == '1'
    requires pv[5] == ' ' && pv[6] == ','
    ensures var b := Boundary(ObjectKind, pv, line, 0, g);
      ObjectPairsFrom(b, 0, line, map[]) == ObjectPairsFrom(b, 6, line, map["a" := Int(1)])
  {
    DuplicateKeyFirstEntry(pv, line, g);
    DigitLiteral('1', line, g + 4);
    ObjectStep(Boundary(ObjectKind, pv, line, 0, g), 0, line, map[]);
  }

  /** The second entry: a comma, then the same key with the digit 2. */
  lemma DuplicateKeySecondEntry(pv: seq<char>, line: int, g: int)
    requires |pv| == 13 && pv[6] == ',' && pv[7] == '"' && pv[8] == 'a' && pv[9] == '"' && pv[10] == ':'
    requires pv[11] == '2' && pv[12] == ' '
    ensures ObjectEntry(Boundary(ObjectKind, pv, line, 0, g), 6, line) ==
      Ok(Pair("a", Item(Boundary(LiteralKind, ['2'], line, 0, g + 11), 13, line)))
  {
    var b := Boundary(ObjectKind, pv, line, 0, g);
    assert Separator(b, 6, line) == Ok(Pos(7, line)) by {
      assert SpaceRun(pv, 7) == Skip(0, 0);
    }
    PairOfDigit(pv, 7, '2', g, line);
  }

  /** The second turn replaces a's value 1 by 2. */
  lemma DuplicateKeySecondStep(pv: seq<char>, line: int, g: int)
    requires |pv| == 13 && pv[6] == ',' && pv[7] == '"' && pv[8] == 'a' && pv[9] == '"' && pv[10] == ':'
    requires pv[11] == '2' && pv[12] == ' '
    ensures var b := Boundary(ObjectKind, pv, line, 0, g);
      ObjectPairsFrom(b, 6, line, map["a" := Int(1)]) == ObjectPairsFrom(b, 13, line, map["a" := Int(2)])
  {
    DuplicateKeySecondEntry(pv, line, g);
    DigitLiteral('2', line, g + 11);
    assert map["a" := Int(1)]["a" := Int(2)] == map["a" := Int(2)];
    ObjectStep(Boundary(ObjectKind, pv, line, 0, g), 6, line, map["a" := Int(1)]);
  }

  /** The object body "\"a\":1 ,\"a\":2 ": the second pair with the same
      key overwrites the first. */
  lemma DuplicateKeyLastWins(pv: seq<char>, line: int, g: int)
    requires |pv| == 13 && pv[0] == '"' && pv[1] == 'a' && pv[2] == '"' && pv[3] == ':' && pv[4] == '1'
    requires pv[5] == ' ' && pv[6] == ',' && pv[7] == '"' && pv[8] == 'a' && pv[9] == '"' && pv[10] == ':'
    requires pv[11] == '2' && pv[12] == ' '
    ensures ParseValue(Boundary(ObjectKind, pv, line, 0, g)) == Ok(Obj(map["a" := Int(2)]))
  {
    var b := Boundary(ObjectKind, pv, line, 0, g);
    var first := map["a" := Int(1)];
    var last := map["a" := Int(2)];
    DuplicateKeyFirstStep(pv, line, g);
    DuplicateKeySecondStep(pv, line, g);
    assert ObjectPairsFrom(b, 13, line, last) == Ok(Obj(last)) by {
      ObjectStep(b, 13, line, last);
    }
    assert ParseValue(b) == ObjectPairsFrom(b, 0, line, map[]);
  }

  lemma DuplicateKeyLastWinsText(line: int, g: int)
    ensures ParseValue(Boundary(ObjectKind, "\"a\":1 ,\"a\":2 ", line, 0, g)) == Ok(Obj(map["a" := Int(2)]))
  {
    DuplicateKeyLastWins("\"a\":1 ,\"a\":2 ", line, g);
  }

  /** The whole document "[1 ]": no leading or trailing spaces, one
      array holding 1, and Create returns it. */
  lemma OneElementDocument(input: seq<char>)
    requires |input| == 4 && input[0] == '[' && input[1] == '1' && input[2] == ' ' && input[3] == ']'
    ensures NotBlank(input)
    ensures ParseAsWritten(input) == Ok(JSON(Arr([Int(1)]), 4))
    ensures CreateDefined(input) && Outcome(input) == Parsed(JSON(Arr([Int(1)]), 4))
  {
    assert SpaceRun(input, 0) == Skip(0, 0);
    var bound := Boundary(ArrayKind, input[1..3], 1, 0, 1);
    InnerArraySpan(input, 0, 1);
    assert TrailingFrom(input, 4, 1) == None;
    OneElementArray(input[1..3], 1, 1);
    assert Finish(input, bound, 4, 1) == Ok(JSON(Arr([Int(1)]), 4));
    assert ParseAsWritten(input) == AfterLead(input, Skip(0, 0), 0);
  }

  lemma OneElementDocumentText()
    ensures NotBlank("[1 ]")
    ensures ParseAsWritten("[1 ]") == Ok(JSON(Arr([Int(1)]), 4))
    ensures CreateDefined("[1 ]") && Outcome("[1 ]") == Parsed(JSON(Arr([Int(1)]), 4))
  {
    OneElementDocument("[1 ]");
  }

  /** " 1 x": the value 1 starts one space in and is followed by trailing
      input. The trailing error keeps its index in the input (3), under
      the offset-0 top level as written and under the corrected one alike. */
  lemma TrailingKeepsIndex(input: seq<char>)
    requires |input| == 4 && input[0] == ' ' && input[1] == '1' && input[2] == ' ' && input[3] == 'x'
    ensures NotBlank(input)
    ensures ParseAsWritten(input) == Err(ParseError(TrailingInput('x'), 3, 1))
    ensures Parse(input) == ParseAsWritten(input)
  {
    assert SpaceRun(input, 1) == Skip(0, 0);
    assert SpaceRun(input, 0) == Skip(1, 0);
    assert DelimiterFrom(input, 2) == Some(2);
    assert input[1..2] == ['1'];
    assert NextBoundary(input, 1, 0, 1) == Ok(Boundary(LiteralKind, ['1'], 1, 0, 0));
    assert NextBoundary(input, 1, 1, 1) == Ok(Boundary(LiteralKind, ['1'], 1, 0, 1));
    assert TrailingFrom(input, 2, 1) == Some(ParseError(TrailingInput('x'), 3, 1));
  }

  lemma TrailingKeepsIndexText()
    ensures NotBlank(" 1 x")
    ensures ParseAsWritten(" 1 x") == Err(ParseError(TrailingInput('x'), 3, 1))
    ensures Parse(" 1 x") == ParseAsWritten(" 1 x")
  {
    TrailingKeepsIndex(" 1 x");
  }
}
