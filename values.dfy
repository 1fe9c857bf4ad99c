/** The value tree the parser produces and the error it reports. */
module JsonValues {

  /** A parsed JSON value. Objects keep the last value written for a key;
      a float keeps the text it was recognised from. */
  datatype Value =
    | Null
    | Bool(b: bool)
    | Int(n: nat)
    | Float(text: string)
    | Str(s: string)
    | Arr(items: seq<Value>)
    | Obj(fields: map<string, Value>)

  /** One tag per message the parser can produce; the rune or text the
      message quotes is kept, the wording and layout are not. */
  datatype ErrorKind =
    | ExpectedComma(found: char)        // "Expected ',', found ..."
    | ExpectedItem                      // "Expected item, found end of array"
    | ExpectedColon(found: char)        // "Expected ':', found ..."
    | ColonAtEnd                        // "Expected ':', found end of object"
    | ValueAtEnd                        // "Expected value found end of object"
    | InvalidLiteral(text: string)      // "Expected literal, found ..."
    | NoClosingArray                    // "No closing found for array"
    | NoClosingObject                   // "No closing found for object"
    | QuoteAtEnd                        // "Expected '\"'" at the end of input
    | ExpectedQuote(found: char)        // "Expected \", found ..."
    | NewlineInString                   // "Unexpected new line"
    | NoClosingString                   // "No closing found for string"
    | EndOfValue                        // "Unexpected end of value"
    | TrailingInput(found: char)        // "Unexpected continuance input ..."

  /** A parse error: what went wrong, the rune offset it is reported at
      and the line counter the message carries. */
  datatype ParseError = ParseError(kind: ErrorKind, offset: int, line: int)

  datatype Result<T> = Ok(value: T) | Err(error: ParseError)

  datatype Option<T> = None | Some(value: T)
}
