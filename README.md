# jsonparser, modelled in Dafny

The model covers the Go package `jsonparser`, a small recursive-descent parser for a subset of JSON that works on a sequence of runes. It is organised in four layers.

- **Scanners.** `countSpace` skips runs of spaces and newlines. Four boundary scanners find the span of the next value: the array, object, string and literal scanners. They track bracket depth, whether they are inside a string, and whether the previous rune was a backslash.
- **Parse.** A *boundary* is a span together with its kind, line counter, newline count and reported offset. Its `parse` turns it into a value. Arrays and objects walk their content and recurse into each child. Literals are classified as null, bool, quoted string, int or float.
- **Entry points.** `Create` skips leading spaces, scans the top-level value, rejects trailing input and parses. `JSON.Get` follows a dotted path of `[n]` index pieces and key pieces.
- **Error frame.** `parseError.convert` turns an error offset into an excerpt of the input with a caret line under it.

Each loop of the source is a method. Each method is proved equal to a function that states what the loop computes; typically the loop invariant is "the function from here equals the function from the start". The properties are then proved as lemmas about those functions.

| module | file | contents |
|---|---|---|
| `JsonValues` | `values.dfy` | values, error kinds, results |
| `Whitespace` | `whitespace.dfy` | `countSpace` |
| `Scanners` | `scanners.dfy` | boundaries and the four scanners |
| `Literals` | `literals.dfy` | `literalBoundary.parse` |
| `Parser` | `parser.dfy` | the array and object parse loops and the recursive parse |
| `ParserFacts` | `parser_facts.dfy` | what the parse accepts, rejects and builds |
| `WorkedCases` | `worked_cases.dfy` | whole parses of small bodies: a nested array, a duplicate key |
| `CodeFrame` | `codeframe.dfy` | `convert` |
| `Document` | `document.dfy` | `JSON`, `Get`, `Create` |

The model keeps the following behaviours of the code as written:

- A nested array is spliced into its parent array, so `[[1 ] ,2 ]` gives the two elements 1 and 2, the same as `[1 ,2 ]`.
- A key that occurs twice in an object keeps its last value.
- Escapes inside strings are not decoded.
- The `.` in the float pattern matches any rune except a newline.
- A quote counts as escaped exactly when the previous rune is a backslash, so `"a\\"` is unterminated.
- A non-string literal must be followed by one of `,` `}` `]`, a space or a newline inside its slice. So `[1,2,3]`, `{"a":1}` and a bare top-level `true` are rejected with "Unexpected end of value".

- A literal is tried as null, true, false, a quoted string, an int and a float, in that order, so a quoted string of digits stays a string.

## Model

| member | source | states |
|---|---|---|
| Whitespace.SpaceRun | jsonparser/main.go:16-35 | Each rune of the run is a space or a newline. The rune after the run, if any, is neither. The newline count is the number of newlines in the run, so it is at most the run's length. |
| Whitespace.CountSpace | jsonparser/main.go:16-35 | The counter loop returns exactly the run's length and newline count. |
| Scanners.CloseFrom | jsonparser/main.go:376-406 | The index the depth fold stops at lies after the opening bracket and holds the scanner's closing bracket. |
| Scanners.CloseFromIsFirst | jsonparser/main.go:376-406 | The depth fold stops at the first index where the depth of the scanner's own bracket kind returns to zero. It finds none exactly when no such index exists. |
| Scanners.BracketSpan | jsonparser/main.go:368-458 | On success: the kind and line are the caller's, the offset is the caller's plus one, and the span fits in the input. On failure: "No closing found" for the array or object, at the caller's offset and line. |
| Scanners.BracketSpanFirstClose | jsonparser/main.go:368-458 | The scan succeeds exactly when the depth returns to zero at some index j, and then ends at the first such j, which holds the closing bracket. The content is the runes strictly between the brackets and `lineSize` is its newline count. The actual length is content plus 2, so start plus length is j + 1. |
| Scanners.GetBracketBoundary | jsonparser/main.go:368-458 | The scanner loop (depth, in-string, escape, newline counter) returns exactly BracketSpan. |
| Scanners.StringEnd | jsonparser/main.go:480-501 | The string walk stops at a quote or at a raw newline, at or after where it started. |
| Scanners.StringEndIsFirst | jsonparser/main.go:480-501 | Because the escape flag means "the previous rune is a backslash", the scan stops at the first closing quote or raw newline. |
| Scanners.StringSpan | jsonparser/main.go:460-507 | At the end of input: "Expected quote" at the caller's offset. At a rune other than a quote: "Expected quote, found" that rune. On success: a span of at least 2 runes that starts and ends with a quote, with `lineSize` 0 and the caller's offset. Errors lie within the scanned input. |
| Scanners.StringSpanFirstStop | jsonparser/main.go:460-507 | The span runs through the first unescaped quote. A raw newline met first fails at the caller's offset plus its distance from the opening quote. Running out of input fails with "No closing found for string" at the caller's offset. |
| Scanners.GetStringBoundary | jsonparser/main.go:460-507 | The string scanner loop returns exactly StringSpan. |
| Scanners.DelimiterFrom | jsonparser/main.go:516-536 | The index the literal walk stops at holds one of `,` `}` `]`, a space or a newline. |
| Scanners.DelimiterFromIsFirst | jsonparser/main.go:516-536 | No rune before the delimiter found is a delimiter. |
| Scanners.LiteralSpan | jsonparser/main.go:509-543 | At a quote it is the string scanner. Otherwise its only error is "Unexpected end of value" at the caller's offset. A span has lineSize 0, is non-empty and lies in the input. |
| Scanners.LiteralSpanFirstDelimiter | jsonparser/main.go:509-543 | Away from a quote, the span is input[start..j] for the first delimiter j after start. The scan fails exactly when no delimiter follows start. |
| Scanners.GetLiteralBoundary | jsonparser/main.go:509-543 | The literal scanner loop returns exactly LiteralSpan. |
| Literals.ParseLiteral | jsonparser/main.go:328-356 | The cases are tried in the source's order. "null", "true" and "false" give Null and the two bools. Unquoted all-digit text gives the int it denotes. A quoted span yields the runes between its quotes. An int comes only from all-digit text, a float only from float-pattern text that is not all digits. A literal never yields an array or object. The parse fails exactly when no case matches, with "Expected literal" at the span's offset and line. |
| Literals.DecimalRoundTrip | jsonparser/main.go:338-343 | Reading back the decimal text of n gives n. |
| Literals.IntRoundTrip | jsonparser/main.go:338-343 | The decimal text of any n parses as the int n. |
| Literals.QuotedVerbatim | jsonparser/main.go:336-337 | A quoted span parses to exactly the runes between its quotes, escapes left undecoded. |
| Literals.FloatDotAnyRune | jsonparser/main.go:365-366 | Digits, any rune but a newline, digits: this is an int when that rune is a digit, and otherwise takes the float case (for example "1x5"). |
| Parser.NextBoundary | jsonparser/main.go:161-168 | The scanner is chosen by the next rune: an object exactly at '{', an array exactly at '['. The span is non-empty and fits in the input. Its offset is the caller's, plus one for a composite. Errors lie within the scanned input. |
| Parser.NextBoundarySlice | jsonparser/main.go:161-168 | A literal's content is the input from i on. A composite's content is the input strictly between its brackets. |
| Parser.ParseValue | jsonparser/main.go:358-363 | A parsed array boundary gives an array and an object boundary an object; nothing else gives either. |
| Parser.ItemAt | jsonparser/main.go:161-177 | After a scanned child and the spaces after it, the position has advanced past the child and stays within the content. Errors lie within the scanned input. |
| ParserFacts.ItemAtScansChild | jsonparser/main.go:161-168 | An item succeeds exactly when the boundary scan at its position does. Its child is that boundary, and a scan error is its error. |
| ParserFacts.ItemAtSkipsSpaces | jsonparser/main.go:170-177 | The next step starts at the first rune past the spaces and newlines after the child, on the line advanced by the child's and their newlines. |
| Parser.Separator | jsonparser/main.go:131-145 | A step succeeds exactly when it is the first step or the rune there is a comma. Otherwise it fails with "Expected ','" at the parent's offset plus i. |
| ParserFacts.SeparatorSkipsSpaces | jsonparser/main.go:131-145 | A step starts at the first rune past the spaces and newlines after the comma, or after the body's start, on the line advanced by their newlines. |
| Parser.ArrayEntry | jsonparser/main.go:131-177 | One array step moves strictly forward within the content. An error is reported between the step's offset and the end of the content. |
| Parser.ArrayItemsFrom | jsonparser/main.go:125-203 | A successful array parse gives an array. The order and splicing of its elements are stated by ParserFacts.ArrayStep. |
| Parser.KeyIsString | jsonparser/main.go:300-310 | A scanned key always parses to a string, namely its text, so the "Error while parsing key" panic cannot happen. |
| Parser.ColonAt | jsonparser/main.go:246-280 | The colon must be the first rune past the spaces after the key, and a value position follows it. When only spaces are left, the error is "Expected ':'" at one rune before the end. Any other rune there fails with "Expected ':', found" that rune, at its own offset. The line counter is advanced by the skipped newlines. |
| ParserFacts.ColonAtGoesOn | jsonparser/main.go:246-280 | A colon found past the spaces after a key always goes on to the value position after it. |
| Parser.ValueStart | jsonparser/main.go:265-280 | The value starts at the first rune past the spaces after the colon. When none is left, the error is "Expected value" at one rune before the end. |
| ParserFacts.ValueStartFindsValue | jsonparser/main.go:265-280 | The value position is found exactly when a rune other than a space or newline follows the colon's spaces, and it is that rune. |
| Parser.KeyAt | jsonparser/main.go:230-263 | The head of a pair is a quoted key followed by a value position past it. |
| Parser.ValueAfter | jsonparser/main.go:282-306 | A pair's key is the text of its quoted key, and its value lies past the key within the content. |
| Parser.PairAt | jsonparser/main.go:230-298 | A pair moves strictly forward within the content. |
| Parser.ObjectEntry | jsonparser/main.go:219-298 | One object step moves strictly forward within the content. Errors lie between the step's offset and the end of the content. |
| Parser.ObjectPairsFrom | jsonparser/main.go:213-322 | A successful object parse gives an object. The map update of each pair is stated by ParserFacts.ObjectStep. |
| Parser.ScanNext | jsonparser/main.go:161-168 | The scanner dispatch returns exactly NextBoundary. |
| Parser.ParseBoundary | jsonparser/main.go:358-363 | `bound.parse()` returns exactly ParseValue. |
| Parser.ScanItem | jsonparser/main.go:161-177 | Scanning a child and the spaces after it returns exactly ItemAt. |
| Parser.ScanSeparator | jsonparser/main.go:131-145 | The comma check and the spaces after it return exactly Separator. |
| Parser.ScanColon | jsonparser/main.go:246-263 | The colon check returns exactly ColonAt. |
| Parser.ScanValueStart | jsonparser/main.go:265-280 | The spaces after the colon return exactly ValueStart. |
| Parser.ScanKey | jsonparser/main.go:230-263 | The key scan and the colon return exactly KeyAt. |
| Parser.ScanArrayEntry | jsonparser/main.go:131-177 | One array step returns exactly ArrayEntry. |
| Parser.ScanValue | jsonparser/main.go:282-310 | The value scan after a key returns exactly ValueAfter. |
| Parser.ScanPair | jsonparser/main.go:230-310 | The pair scan returns exactly PairAt. |
| Parser.ScanObjectEntry | jsonparser/main.go:219-310 | One object step returns exactly ObjectEntry. |
| Parser.ParseArray | jsonparser/main.go:125-203 | The array loop, appending as it goes, returns exactly ArrayItemsFrom from position 0 with an empty result. |
| Parser.ParseObject | jsonparser/main.go:213-322 | The object loop, assigning `result[key]` as it goes, returns exactly ObjectPairsFrom from position 0 with an empty map. |
| ParserFacts.EmptyContainers | jsonparser/main.go:125-131 | "[]" and "{}" parse to an empty array and an empty object. |
| ParserFacts.BlankBodyRejected | jsonparser/main.go:142-159 | A body of spaces and newlines is an error just past the body: "Expected item" for an array, the missing key quote for an object. The line counter is advanced by the body's newlines. |
| ParserFacts.TrailingCommaRejected | jsonparser/main.go:131-159 | A comma followed only by spaces expects one more item or key, past the end of the body. |
| ParserFacts.LastScalarInArrayRejected | jsonparser/main.go:161-172 | An array whose last item is a bare scalar fails with "Unexpected end of value" at that item, so "[1,2,3]" is rejected. |
| ParserFacts.LastScalarInObjectRejected | jsonparser/main.go:282-293 | The same for an object's last value. |
| ParserFacts.ArrayEntryWithin | jsonparser/main.go:152-168 | An array item's span and reported offset lie inside the parent's content. |
| ParserFacts.ObjectEntryWithin | jsonparser/main.go:273-289 | An object value's span and reported offset lie inside the parent's content. |
| ParserFacts.ParseErrorInSpan | jsonparser/main.go:125-322 | Any parse error is reported at a literal's own offset, or within a composite from its first content rune through its closing bracket. |
| ParserFacts.ArrayErrorInSpan | jsonparser/main.go:125-203 | The array loop reports errors only within its span. |
| ParserFacts.ObjectErrorInSpan | jsonparser/main.go:213-322 | The object loop reports errors only within its span. |
| ParserFacts.SpliceFlat | jsonparser/main.go:185-199 | Appending a parsed child keeps an array free of directly nested arrays. |
| ParserFacts.ParsedValuesFlat | jsonparser/main.go:185-199 | No parsed value holds an array directly inside an array, at any depth. |
| ParserFacts.ArrayItemsFlat | jsonparser/main.go:185-199 | The array loop keeps its result flat. |
| ParserFacts.ObjectPairsFlat | jsonparser/main.go:318 | The values stored in an object are flat. |
| ParserFacts.ArrayKeepsPrefix | jsonparser/main.go:185-199 | Elements gathered earlier stay, in order, at the front of the array. |
| ParserFacts.ObjectKeepsKeys | jsonparser/main.go:318 | Keys gathered earlier stay in the object. |
| ParserFacts.ArrayStep | jsonparser/main.go:131-199 | One turn of the array loop: at the end of the body the result is the elements gathered so far. A failing step or child gives its error. Otherwise the loop goes on from past the child, with the child's items appended if it is an array, or the child itself if not. |
| ParserFacts.ObjectStep | jsonparser/main.go:219-318 | One turn of the object loop: at the end of the body the result is the map gathered so far. A failing step or value gives its error. Otherwise the loop goes on from past the pair, with the key set to the parsed value, replacing any earlier value for that key. |
| WorkedCases.DigitLiteral | jsonparser/main.go:338-343 | A one-digit literal parses to that digit's int. |
| WorkedCases.ItemOfDigit | jsonparser/main.go:161-177 | A digit followed by a space is an item of one rune, and the next step starts past the space. |
| WorkedCases.OneElementArray | jsonparser/main.go:125-203 | The array body "1 " parses to [1]. |
| WorkedCases.InnerArraySpan | jsonparser/main.go:161-168 | At "[1 ]" the array scanner gives the content "1 ", reported one rune further on. |
| WorkedCases.NestedFirstEntry | jsonparser/main.go:131-177 | The first step of "[1 ] ,2 " is the inner array, and the next step starts at the comma. |
| WorkedCases.NestedSecondEntry | jsonparser/main.go:131-177 | The second step of "[1 ] ,2 " is the literal 2, ending the body. |
| WorkedCases.NestedArraySpliced | jsonparser/main.go:185-199 | The array body "[1 ] ,2 " parses to [1, 2]: the inner array is spliced in. |
| WorkedCases.NestedArraySplicedText | jsonparser/main.go:185-199 | The same, stated on the text itself. |
| WorkedCases.KeyOfA | jsonparser/main.go:230-263 | The key "a" followed by a colon is scanned as the quoted text, with the value position just past the colon. |
| WorkedCases.PairOfDigit | jsonparser/main.go:230-310 | `"a":` followed by a digit and a space is the pair of key a and that digit's literal. |
| WorkedCases.DuplicateKeyFirstEntry | jsonparser/main.go:219-310 | The first step of `"a":1 ,"a":2 ` is the pair a, 1. |
| WorkedCases.DuplicateKeySecondEntry | jsonparser/main.go:219-310 | The second step is the pair a, 2, ending the body. |
| WorkedCases.DuplicateKeyFirstStep | jsonparser/main.go:219-318 | The object loop's first turn on that body sets a to 1. |
| WorkedCases.DuplicateKeySecondStep | jsonparser/main.go:219-318 | The second turn replaces a's value 1 by 2. |
| WorkedCases.DuplicateKeyLastWins | jsonparser/main.go:318 | The object body `"a":1 ,"a":2 ` parses to the map with a set to 2: the later value wins. |
| WorkedCases.OneElementDocument | jsonparser/main.go:590-640 | The whole document "[1 ]", given rune by rune, parses to the array [1] of length 4, and Create returns it. |
| WorkedCases.OneElementDocumentText | jsonparser/main.go:590-640 | The same, stated on the text itself. |
| WorkedCases.TrailingKeepsIndex | jsonparser/main.go:597-627 | The document " 1 x", given rune by rune, fails with the trailing-input error on 'x' at index 3 on line 1. The index counts from the start of the input, under the top level as written and under the corrected one alike. |
| WorkedCases.TrailingKeepsIndexText | jsonparser/main.go:597-627 | The same, stated on the text itself. |
| WorkedCases.DuplicateKeyLastWinsText | jsonparser/main.go:318 | The same, stated on the text itself. |
| CodeFrame.Backward | jsonparser/main.go:48-66 | The backward walk only adds to what it was given. Starting from at most 20 runes, it ends with at most 20. |
| CodeFrame.Forward | jsonparser/main.go:68-86 | The same for the forward walk. |
| CodeFrame.Render | jsonparser/main.go:42-96 | The diagnostic carries the error it renders and a caret line of at least one rune. |
| CodeFrame.JoinedWithoutNewline | jsonparser/main.go:42-96 | Two tidy collections, joined into an excerpt, hold no newline. |
| CodeFrame.Take | jsonparser/main.go:53-63 | Offering one rune keeps what was collected and adds either nothing or exactly that rune. A rune that is neither a space nor a newline is always added, and a newline never is. |
| CodeFrame.TakeTidy | jsonparser/main.go:53-63 | The collected runes never hold a newline, nor two spaces in a row past the first rune. |
| CodeFrame.BackwardShape | jsonparser/main.go:48-66 | The backward pass keeps what it had, stays tidy, and collects at most 20 runes. |
| CodeFrame.ForwardShape | jsonparser/main.go:68-86 | The same for the forward pass. |
| CodeFrame.BackwardEmpty | jsonparser/main.go:48-66 | The backward pass collects nothing exactly when every rune from the offset down to 0 is a newline. |
| CodeFrame.RenderableExactly | jsonparser/main.go:87-94 | For an offset in the input, convert's caret line is well defined (at least one rune collected) exactly when the offset is renderable. |
| CodeFrame.RenderShape | jsonparser/main.go:42-96 | The excerpt has at most 20 runes on each side and no newline. The caret line is dashes then '^', at most 20 long and no longer than the excerpt. The caret sits under the error rune unless that rune is a newline. |
| CodeFrame.BackwardFromInput | jsonparser/main.go:48-66 | The runes the first loop collects, read back in input order, are runes of the input up to the offset, kept in input order. |
| CodeFrame.ForwardFromInput | jsonparser/main.go:68-86 | The runes the second loop collects are runes of the input from its start index on, kept in input order. |
| CodeFrame.BackwardComplete | jsonparser/main.go:48-66 | If the first loop collects fewer than 20 runes, every rune up to the offset that is neither a space nor a newline is among them. |
| CodeFrame.ForwardComplete | jsonparser/main.go:68-86 | If the second loop collects fewer than 20 runes, every rune after its start that is neither a space nor a newline is among them. |
| CodeFrame.TakeKept | jsonparser/main.go:48-86 | One step of either loop loses nothing. What the rest of the loop collects stays collected, and the offered rune is kept unless it is a space or a newline. |
| CodeFrame.RenderSides | jsonparser/main.go:87-95 | The excerpt is the first loop's runes reversed, over the caret line, followed by the second loop's runes. The caret line is as long as the first part. |
| CodeFrame.RenderFromInput | jsonparser/main.go:42-96 | The excerpt is the input with runes dropped, never reordered or invented. The part over the caret line comes from the input up to the error offset, and the rest from the runes after it. |
| CodeFrame.RenderBeforeComplete | jsonparser/main.go:42-96 | When the caret line is shorter than 20, the part over it holds every rune up to the error offset that is neither a space nor a newline. |
| CodeFrame.RenderAfterComplete | jsonparser/main.go:42-96 | When the part after the caret is shorter than 20 runes, it holds every rune after the error offset that is neither a space nor a newline. |
| CodeFrame.CollectBackward | jsonparser/main.go:48-66 | convert's first loop returns exactly the backward pass. |
| CodeFrame.CollectForward | jsonparser/main.go:68-86 | convert's second loop returns exactly the forward pass. |
| CodeFrame.Convert | jsonparser/main.go:42-96 | convert returns exactly the rendered diagnostic: the reversed backward runes, then the forward runes, and |before| - 1 dashes and a caret. |
| Document.Split | jsonparser/main.go:555 | There is always at least one piece, and a path without a dot is a single piece. |
| Document.Atoi | jsonparser/main.go:569 | Only non-empty text reads as an integer, and unsigned all-digit text reads as the number it denotes. |
| Document.Lookup | jsonparser/main.go:559-587 | No pieces leave the value as it is. A piece applied to nil or to a scalar gives nil. An index piece on anything but an array, or a key piece on anything but an object, gives nil. A found value means the walk started from one. |
| Document.At | jsonparser/main.go:550-588 | The empty path is the whole value. A single key piece on an object is that key's field, nil when absent. Any non-empty path on a scalar gives nil. A single index piece on anything but an array, or a single key piece on anything but an object, gives nil. |
| Document.WrongKindIsNil | jsonparser/main.go:562-581 | "[0]" on an object and "a" on an array are both defined (no panic) and give nil. |
| Document.SplitJoin | jsonparser/main.go:555 | Splitting a path on '.' loses nothing: joining the pieces with dots gives the path back, and no piece holds a dot. |
| Document.SplitNoDot | jsonparser/main.go:555 | No piece of a split path holds a dot. |
| Document.JoinSplit | jsonparser/main.go:555 | Dot-free pieces, joined and split again, are the same pieces. |
| Document.AtoiDecimal | jsonparser/main.go:569 | Atoi reads back the decimal text of any n as n. |
| Document.LookupConcat | jsonparser/main.go:559-587 | Following a path in two legs gives the same result as following it at once. |
| Document.IndexPath | jsonparser/main.go:562-575 | The path "[n]" returns element n of an array. |
| Document.NullIsNotAbsent | jsonparser/main.go:576-583 | A stored null is returned as Null, while an absent key is nil. |
| Document.LookupFlat | jsonparser/main.go:559-587 | On a parsed value, Get finds flat values, and a path ending in an index piece never finds an array. |
| Document.Get | jsonparser/main.go:550-588 | The loop returns exactly the path lookup. The empty path is the whole value. A piece of the wrong kind gives nil at once, and an absent key gives nil. |
| Document.TopLevel | jsonparser/main.go:597-639 | For any top-level offset, a parsed document's length is the input's rune count. |
| Document.AfterLead | jsonparser/main.go:599-639 | The same, from the first non-space rune on. |
| Document.Finish | jsonparser/main.go:612-639 | Trailing input is reported before the value is parsed. With a blank tail, a successful parse gives the document of that value with the input's rune count as its length, and a parse error is returned unchanged. |
| Document.ParseAsWritten | jsonparser/main.go:597-639 | The top level as written, with offset 0: a parsed document's length is the input's rune count. |
| Document.Parse | jsonparser/main.go:597-639 | The corrected top level, with the value's start as its offset: the same length fact. |
| Document.FinishErrorOffsets | jsonparser/main.go:612-639 | An error is trailing input, at or after the value's end, or lies within the scanned value. |
| Document.AfterLeadErrorOffsets | jsonparser/main.go:599-639 | With a top-level offset no larger than the leading run, every error lies in the input, at or after that offset. |
| Document.TopLevelErrorOffsets | jsonparser/main.go:597-639 | The same for the whole top level. |
| Document.AsWrittenOffsetsInInput | jsonparser/main.go:597-610 | As written, every error offset lies in the input. Such an offset is renderable exactly when some rune up to it is not a newline. |
| Document.TrailingFrom | jsonparser/main.go:614-627 | A trailing-input error lies at or after where the check starts and inside the input. |
| Document.TrailingIsSpaceRun | jsonparser/main.go:614-627 | The trailing check fails exactly at the first rune past the run of spaces and newlines, with the line counter advanced by that run's newlines. |
| Document.ScanTrailing | jsonparser/main.go:614-627 | Create's trailing loop returns exactly TrailingFrom. |
| Document.FinishDocument | jsonparser/main.go:612-639 | The trailing loop, then the parse, return exactly Finish. |
| Document.ScanDocument | jsonparser/main.go:599-639 | From the first non-space rune on, Create returns exactly AfterLead. |
| Document.ParseDocument | jsonparser/main.go:597-639 | Create, before any error is converted, returns exactly ParseAsWritten, the top level with offset 0. |
| Document.AsWrittenAgreesWithoutLeadingSpace | jsonparser/main.go:597-605 | When the input does not start with a space or newline, the offset-0 top level and the corrected one agree. |
| Document.AsWrittenUnrenderable | jsonparser/main.go:597-610 | As written, "\n[" fails with "No closing found for array" at offset 0, line 2, and offset 0 is not renderable, so convert would need -1 dashes. |
| Document.ErrorsRenderable | jsonparser/main.go:597-636 | With the value's start as the top-level offset (Document.Parse), every error reported can be rendered. |
| Document.ParsedDocument | jsonparser/main.go:633-639 | For any top-level offset, a parsed document's length is the input's rune count, and its value is flat. |
| Document.BareScalarRejected | jsonparser/main.go:599-610 | A bare top-level "true" fails with "Unexpected end of value" at offset 0, line 1. |
| Document.Outcome | jsonparser/main.go:590-640 | Where Create does not panic, it parses exactly when ParseAsWritten does. It then returns that document, and otherwise exactly the rendered diagnostic of ParseAsWritten's error. |
| Document.CorrectedOutcome | jsonparser/main.go:590-640 | The same over the corrected top level, which is defined for every non-blank input: the document, or exactly the rendered diagnostic of Parse's error. |
| Document.Create | jsonparser/main.go:590-640 | Create returns exactly Outcome: the document, or the converted diagnostic of the first error, with the top-level offset 0 as written. |

## Left out

- Literals.ParseLiteral: a float keeps the text it was recognised from. The conversion by `strconv.ParseFloat` is floating-point work and is not modelled. The source panics when that conversion fails, which happens when the pattern's middle rune is not '.', 'e', 'E' or '_' or the value overflows. Go's float syntax allows '_' between digits, so `1_5` converts to 15. The model returns `Float` with the text in those cases.
- Literals.ParseLiteral: `strconv.Atoi` on all-digit text panics past 64 bits. The model's integers are unbounded.
- Document.Atoi: has no 64-bit range. An index out of range of the array is already excluded by the precondition.
- Parser.ArrayItemsFrom: its own contract states only that success gives an array. The order of the elements and the splicing of nested arrays are stated one loop turn at a time by ParserFacts.ArrayStep, and shown on a nested array by WorkedCases.NestedArraySpliced.
- Parser.ObjectPairsFrom: its own contract states only that success gives an object. The map update and the last-value-wins rule are stated one loop turn at a time by ParserFacts.ObjectStep, and shown on a duplicate key by WorkedCases.DuplicateKeyLastWins.
- Parser.ParseObject: its contract ties the loop to ObjectPairsFrom; the last-value-wins rule for duplicate keys is stated through that function by ParserFacts.ObjectStep and WorkedCases.DuplicateKeyLastWins.
- Document.Get: a panic is a precondition (`Resolvable`). The panicking cases are an empty path piece, an index piece that is not an integer, and an index outside the array. Path pieces are taken to be ASCII, because the source indexes runes by byte length.
- Document.Create: its two panics form the precondition `CreateDefined`. The first is on empty or all-whitespace input (`runed[i]` past the end). The second is in convert, when the offset-0 error offset cannot be rendered (see Findings).
- Document.Create: returns `Parsed(json)` or `Failed(diagnostic)` instead of a placeholder JSON with an `error`.
- CodeFrame.Convert: the negative `strings.Repeat` panic is the precondition `Renderable`. The source's offsets always lie inside the input, so the only way to be unrenderable is to have collected no rune. Convert returns the error and the two rendered lines rather than one formatted string. The first line, the message text, is not produced.
- Message wording: errors are modelled as a kind, the rune or text the message quotes, an offset and the line counter. The `fmt.Sprintf` wording is not modelled.
- UTF-8 decoding of the input string into runes is not modelled; the input is a sequence of characters.
- The demo program `main.go` (an earlier draft of the parser that prints debug output) is not part of this model.
- The test harness `main_test.go` reads sample directories from disk and is not part of this model.

## Findings

| source | as written | input that shows it | evidently intended | confidence | as-written member | corrected member |
|---|---|---|---|---|---|---|
| jsonparser/main.go:597-610 | Create passes offset 0 to the top-level scanner, whatever the number of leading spaces and newlines. Every scanner and parse error offset is therefore measured from the value's start, not from the start of the input. A trailing-input error (lines 621-624) keeps its index in the input (WorkedCases.TrailingKeepsIndex). | `"\n["`: the error "No closing found for array" has offset 0. `input[0]` is a newline, so convert collects no rune before the caret and `strings.Repeat("-", -1)` panics. With leading spaces, the caret points at the wrong rune. | The top-level scanner is given the index where the value starts, so every offset is an index into the input and every error can be rendered. The corrected top level is Document.Parse, and Document.CorrectedOutcome is Create over it, defined for every non-blank input. | not executed | Document.AsWrittenUnrenderable | Document.ErrorsRenderable |
