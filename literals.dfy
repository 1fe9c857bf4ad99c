/** Classifying a literal span: null, bool, quoted string, int or float. */
module Literals {
  import opened JsonValues
  import opened Scanners

  predicate IsDigit(c: char) {
    '0' <= c <= '9'
  }

  /** The integer pattern ^\d+$ (\d is an ASCII digit). */
  predicate IsDigits(s: seq<char>) {
    |s| > 0 && forall k | 0 <= k < |s| :: IsDigit(s[k])
  }

  /** The float pattern ^\d+.\d+$: digits, one rune that is not a newline
      (what an unflagged regexp dot matches), digits. So "1x5" matches. */
  predicate IsFloatText(s: seq<char>) {
    exists k | 1 <= k < |s| - 1 :: IsDigits(s[..k]) && s[k] != '\n' && IsDigits(s[k + 1..])
  }

  /** Both ends of s are quotes. */
  predicate IsQuoted(s: seq<char>) {
    |s| >= 2 && s[0] == '"' && s[|s| - 1] == '"'
  }

  /** The value of a run of decimal digits. */
  function DigitsValue(s: seq<char>): nat
    requires forall k | 0 <= k < |s| :: IsDigit(s[k])
  {
    if s == [] then 0
    else
      assert IsDigit(s[|s| - 1]);
      10 * DigitsValue(s[..|s| - 1]) + (s[|s| - 1] as int - '0' as int)
  }

  /** The decimal text of n, without leading zeros. */
  function DecimalText(n: nat): (s: seq<char>)
    ensures IsDigits(s)
  {
    if n < 10 then [('0' as int + n) as char]
    else DecimalText(n / 10) + [('0' as int + n % 10) as char]
  }

  /** literalBoundary.parse: the cases are tried in the source's order, and
      a quoted span keeps its inner runes verbatim (no escape decoding). A
      literal never yields an array or object; a span that matches no case
      is "Expected literal" at the span's offset. */
  function ParseLiteral(b: Boundary): (r: Result<Value>)
    requires b.kind == LiteralKind && ValidBoundary(b)
    ensures b.content == "null" ==> r == Ok(Null)
    ensures b.content == "true" ==> r == Ok(Bool(true))
    ensures b.content == "false" ==> r == Ok(Bool(false))
    ensures !IsQuoted(b.content) && IsDigits(b.content) ==> r == Ok(Int(DigitsValue(b.content)))
    ensures r.Ok? ==> !r.value.Arr? && !r.value.Obj?
    ensures r.Ok? && r.value.Int? ==> IsDigits(b.content)
    ensures r.Ok? && r.value.Float? ==> IsFloatText(b.content) && !IsDigits(b.content) && r.value.text == b.content
    ensures r.Ok? && r.value.Str? ==> IsQuoted(b.content) && ['"'] + r.value.s + ['"'] == b.content
    ensures r.Err? <==>
      b.content !in {"null", "true", "false"} && !IsQuoted(b.content) && !IsDigits(b.content) && !IsFloatText(b.content)
    ensures r.Err? ==> r.error == ParseError(InvalidLiteral(b.content), b.globalOffset, b.line)
  {
    var v := b.content;
    if v == "null" then Ok(Null)
    else if v == "true" then Ok(Bool(true))
    else if v == "false" then Ok(Bool(false))
    else if v[0] == '"' && v[|v| - 1] == '"' then Ok(Str(v[1..|v| - 1]))
    else if IsDigits(v) then Ok(Int(DigitsValue(v)))
    else if IsFloatText(v) then Ok(Float(v))
    else Err(ParseError(InvalidLiteral(v), b.globalOffset, b.line))
  }

  /** Reading back the decimal text of n gives n. */
  lemma {:induction false} DecimalRoundTrip(n: nat)
    ensures DigitsValue(DecimalText(n)) == n
  {
    if n >= 10 {
      DecimalRoundTrip(n / 10);
      var s := DecimalText(n);
      assert s[..|s| - 1] == DecimalText(n / 10);
    }
  }

  /** The decimal text of any n parses as the int n. */
  lemma IntRoundTrip(n: nat, line: int, globalOffset: int)
    ensures ParseLiteral(Boundary(LiteralKind, DecimalText(n), line, 0, globalOffset)) == Ok(Int(n))
  {
    var s := DecimalText(n);
    DecimalRoundTrip(n);
    assert s != "null" && s != "true" && s != "false" by {
      assert IsDigit(s[0]);
    }
    assert !(s[0] == '"');
  }

  /** A quoted span yields exactly the runes between the quotes: escapes
      are kept as written. */
  lemma QuotedVerbatim(s: seq<char>, line: int, globalOffset: int)
    ensures ParseLiteral(Boundary(LiteralKind, ['"'] + s + ['"'], line, 0, globalOffset)) == Ok(Str(s))
  {
    var v := ['"'] + s + ['"'];
    assert v[1..|v| - 1] == s;
    assert v[0] == '"' && v[|v| - 1] == '"';
    assert v != "null" && v != "true" && v != "false" by {
      assert v[0] != 'n' && v[0] != 't' && v[0] != 'f';
    }
  }

  /** Digits, any one rune other than a newline, digits: the float case
      is taken whenever the whole span is not all digits (an all-digit
      span is an int first), so "1x5" and "1:2" reach the float
      conversion, not the "Expected literal" error. */
  lemma FloatDotAnyRune(left: seq<char>, c: char, right: seq<char>, line: int, globalOffset: int)
    requires IsDigits(left) && IsDigits(right) && c != '\n'
    ensures var v := left + [c] + right;
      ParseLiteral(Boundary(LiteralKind, v, line, 0, globalOffset))
        == if IsDigit(c) then Ok(Int(DigitsValue(v))) else Ok(Float(v))
  {
    var v := left + [c] + right;
    assert v[..|left|] == left && v[|left| + 1..] == right && v[|left|] == c;
    assert IsFloatText(v);
    assert IsDigit(v[0]);
    assert v != "null" && v != "true" && v != "false";
    if !IsDigit(c) {
      assert !IsDigits(v) by { assert !IsDigit(v[|left|]); }
    } else {
      assert IsDigits(v) by {
        forall k | 0 <= k < |v| ensures IsDigit(v[k]) {
          if k < |left| { assert v[k] == left[k]; }
          else if k > |left| { assert v[k] == right[k - |left| - 1]; }
        }
      }
    }
  }
}
