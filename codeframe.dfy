/** parseError.convert: the excerpt of the input around an error offset
    with a caret line under it. */
module CodeFrame {
  import opened JsonValues

  /** Each side of the excerpt stops growing at this many runes. */
  const Width: nat := 20

  /** What convert returns: the error (its message carries the kind and the
      line), the excerpt and the caret line beneath it. */
  datatype Diagnostic = Diagnostic(error: ParseError, excerpt: string, caret: string)

  /** Offering rune c to the runes collected so far: a newline is dropped,
      and so is a space that would follow a space once two runes are
      collected. */
  function Take(acc: seq<char>, c: char): (r: seq<char>)
    ensures r == acc || r == acc + [c]
    ensures c != ' ' && c != '\n' ==> r == acc + [c]
    ensures c == '\n' ==> r == acc
  {
    if c == ' ' && |acc| > 1 && acc[|acc| - 1] == ' ' then acc
    else if c == '\n' then acc
    else acc + [c]
  }

  /** The first loop of convert: offer input[i], input[i-1], ... down to
      input[0], until Width runes are collected. */
  function Backward(input: seq<char>, i: int, acc: seq<char>): (r: seq<char>)
    requires i < |input|
    decreases i + 1
    ensures acc <= r
    ensures |acc| <= Width ==> |r| <= Width
  {
    if i < 0 || |acc| >= Width then acc
    else Backward(input, i - 1, Take(acc, input[i]))
  }

  /** The second loop of convert: offer input[i], input[i+1], ... up to the
      end, until Width runes are collected. */
  function Forward(input: seq<char>, i: nat, acc: seq<char>): (r: seq<char>)
    decreases |input| - i
    ensures acc <= r
    ensures |acc| <= Width ==> |r| <= Width
  {
    if i >= |input| || |acc| >= Width then acc
    else Forward(input, i + 1, Take(acc, input[i]))
  }

  function Reverse(s: seq<char>): (r: seq<char>)
    ensures |r| == |s| && forall k | 0 <= k < |s| :: r[k] == s[|s| - 1 - k]
  {
    if s == [] then [] else Reverse(s[1..]) + [s[0]]
  }

  function Dashes(n: nat): (r: string)
    ensures |r| == n && forall k | 0 <= k < n :: r[k] == '-'
  {
    seq(n, _ => '-')
  }

  /** The offsets convert can render without failing: the first loop reads
      input[index], so index must lie in the input, and it must collect
      at least one rune (one that is not a newline) or the caret line
      would need a negative count of dashes. */
  predicate Renderable(input: seq<char>, index: int) {
    0 <= index < |input| && exists k | 0 <= k <= index :: input[k] != '\n'
  }

  /** The diagnostic convert builds: the runes before the error (the error
      rune included) read back in input order, then the runes after it;
      the caret sits under the last rune of the first part. */
  function Render(input: seq<char>, e: ParseError): (d: Diagnostic)
    requires Renderable(input, e.offset)
    ensures d.error == e && 1 <= |d.caret|
  {
    RenderableExactly(input, e.offset);
    var before := Backward(input, e.offset, []);
    var after := Forward(input, e.offset + 1, []);
    Diagnostic(e, Reverse(before) + after, Dashes(|before| - 1) + "^")
  }

  // ---------------------------------------------------------------------
  // What the excerpt looks like
  // ---------------------------------------------------------------------

  /** No newline, and no two spaces in a row past the first rune. */
  predicate Tidy(s: seq<char>) {
    && (forall k | 0 <= k < |s| :: s[k] != '\n')
    && (forall k | 1 <= k < |s| - 1 :: !(s[k] == ' ' && s[k + 1] == ' '))
  }

  lemma TakeTidy(acc: seq<char>, c: char)
    requires Tidy(acc)
    ensures Tidy(Take(acc, c))
  {
    var r := Take(acc, c);
    if r != acc {
      assert r == acc + [c];
      forall k | 1 <= k < |r| - 1 ensures !(r[k] == ' ' && r[k + 1] == ' ') {
        if k == |r| - 2 {
          assert r[k] == acc[|acc| - 1] && r[k + 1] == c;
        } else {
          assert r[k] == acc[k] && r[k + 1] == acc[k + 1];
        }
      }
    }
  }

  /** Each pass keeps what it had, stays tidy, and collects at most Width
      runes. */
  lemma {:induction false} BackwardShape(input: seq<char>, i: int, acc: seq<char>)
    requires i < |input| && Tidy(acc) && |acc| <= Width
    decreases i + 1
    ensures var r := Backward(input, i, acc);
      acc <= r && Tidy(r) && |r| <= Width
  {
    if i >= 0 && |acc| < Width {
      TakeTidy(acc, input[i]);
      BackwardShape(input, i - 1, Take(acc, input[i]));
    }
  }

  lemma {:induction false} ForwardShape(input: seq<char>, i: nat, acc: seq<char>)
    requires Tidy(acc) && |acc| <= Width
    decreases |input| - i
    ensures var r := Forward(input, i, acc);
      acc <= r && Tidy(r) && |r| <= Width
  {
    if i < |input| && |acc| < Width {
      TakeTidy(acc, input[i]);
      ForwardShape(input, i + 1, Take(acc, input[i]));
    }
  }

  /** Starting from nothing, the backward pass collects nothing exactly
      when every rune it offers is a newline. */
  lemma {:induction false} BackwardEmpty(input: seq<char>, i: int)
    requires i < |input|
    decreases i + 1
    ensures Backward(input, i, []) == [] <==> forall k | 0 <= k <= i :: input[k] == '\n'
  {
    if i >= 0 {
      if input[i] == '\n' {
        BackwardEmpty(input, i - 1);
      } else {
        assert Take([], input[i]) == [input[i]];
        assert Backward(input, i, []) == Backward(input, i - 1, [input[i]]);
        BackwardShape(input, i - 1, [input[i]]);
      }
    }
  }

  /** convert fails on exactly the offsets that are not renderable, for an
      offset inside the input: Renderable is the precondition Render
      needs. */
  lemma RenderableExactly(input: seq<char>, index: int)
    requires 0 <= index < |input|
    ensures Renderable(input, index) <==> |Backward(input, index, [])| >= 1
  {
    BackwardEmpty(input, index);
  }

  /** Two parts without a newline, the first read backwards, joined. */
  lemma JoinedWithoutNewline(before: seq<char>, after: seq<char>)
    requires Tidy(before) && Tidy(after)
    ensures var x := Reverse(before) + after;
      forall k | 0 <= k < |x| :: x[k] != '\n'
  {
    var x := Reverse(before) + after;
    forall k | 0 <= k < |x| ensures x[k] != '\n' {
      if k < |before| {
        assert x[k] == Reverse(before)[k] == before[|before| - 1 - k];
      } else {
        assert x[k] == after[k - |before|];
      }
    }
  }

  /** The rendered excerpt holds at most Width runes on each side of the
      caret and no newline; the caret line
      is dashes then one '^' under the last rune before the break, which
      is the error rune itself unless that rune is a newline. */
  lemma RenderShape(input: seq<char>, e: ParseError)
    requires Renderable(input, e.offset)
    ensures var d := Render(input, e);
      && |d.excerpt| <= 2 * Width
      && (forall k | 0 <= k < |d.excerpt| :: d.excerpt[k] != '\n')
      && 1 <= |d.caret| <= Width && |d.caret| <= |d.excerpt|
      && (forall k | 0 <= k < |d.caret| - 1 :: d.caret[k] == '-')
      && d.caret[|d.caret| - 1] == '^'
      && (input[e.offset] != '\n' ==> d.excerpt[|d.caret| - 1] == input[e.offset])
  {
    RenderableExactly(input, e.offset);
    var before := Backward(input, e.offset, []);
    var after := Forward(input, e.offset + 1, []);
    BackwardShape(input, e.offset, []);
    ForwardShape(input, e.offset + 1, []);
    var d := Render(input, e);
    assert d.excerpt == Reverse(before) + after;
    JoinedWithoutNewline(before, after);
    if input[e.offset] != '\n' {
      assert Take([], input[e.offset]) == [input[e.offset]];
      assert before == Backward(input, e.offset - 1, [input[e.offset]]);
      BackwardShape(input, e.offset - 1, [input[e.offset]]);
      assert before[0] == input[e.offset];
      assert d.excerpt[|before| - 1] == before[0];
    }
  }

  // ---------------------------------------------------------------------
  // Where the excerpt's runes come from
  // ---------------------------------------------------------------------

  /** r can be read off s by dropping runes: r is s with some of its runes
      deleted, the rest kept in order. */
  predicate Subsequence(r: seq<char>, s: seq<char>)
    decreases |s|
  {
    if r == [] then true
    else if s == [] then false
    else (r[0] == s[0] && Subsequence(r[1..], s[1..])) || Subsequence(r, s[1..])
  }

  /** Subsequences of two pieces join into a subsequence of the joined
      pieces. */
  lemma {:induction false} SubsequenceJoin(a: seq<char>, s: seq<char>, b: seq<char>, t: seq<char>)
    requires Subsequence(a, s) && Subsequence(b, t)
    ensures Subsequence(a + b, s + t)
    decreases |s|
  {
    if s == [] {
      assert a == [];
      assert a + b == b && s + t == t;
    } else {
      assert (s + t)[0] == s[0] && (s + t)[1..] == s[1..] + t;
      if a == [] {
        SubsequenceJoin(a, s[1..], b, t);
        assert a + b == b && a + s[1..] == s[1..];
      } else if a[0] == s[0] && Subsequence(a[1..], s[1..]) {
        SubsequenceJoin(a[1..], s[1..], b, t);
        assert (a + b)[0] == a[0] && (a + b)[1..] == a[1..] + b;
      } else {
        SubsequenceJoin(a, s[1..], b, t);
      }
    }
  }

  /** A rune put in front of s, dropped or kept. */
  lemma SubsequenceFront(x: seq<char>, c: char, s: seq<char>)
    requires Subsequence(x, s)
    ensures Subsequence(x, [c] + s) && Subsequence([c] + x, [c] + s)
  {
    assert ([c] + s)[1..] == s;
    assert ([c] + x)[1..] == x;
  }

  /** A rune put after s, dropped or kept. */
  lemma SubsequenceBack(x: seq<char>, s: seq<char>, c: char)
    requires Subsequence(x, s)
    ensures Subsequence(x, s + [c]) && Subsequence(x + [c], s + [c])
  {
    assert Subsequence([], [c]);
    assert Subsequence([c], [c]) by {
      assert [c][1..] == [];
    }
    SubsequenceJoin(x, s, [], [c]);
    assert x + [] == x;
    SubsequenceJoin(x, s, [c], [c]);
  }

  /** The runes the first loop collects, read in input order, are runes of
      input[..i+1] in their input order: the loop only walks down the input,
      never revisits a rune and never invents one. */
  lemma {:induction false} BackwardFromInput(input: seq<char>, i: int, acc: seq<char>)
    requires -1 <= i < |input|
    ensures Subsequence(Reverse(Backward(input, i, acc)[|acc|..]), input[..i + 1])
    decreases i + 1
  {
    var r := Backward(input, i, acc);
    if i < 0 || |acc| >= Width {
      assert r[|acc|..] == [];
    } else {
      var c := input[i];
      var next := Take(acc, c);
      assert r == Backward(input, i - 1, next);
      BackwardFromInput(input, i - 1, next);
      var rest := Reverse(r[|next|..]);
      SubsequenceBack(rest, input[..i], c);
      assert input[..i + 1] == input[..i] + [c];
      if next == acc {
        assert Reverse(r[|acc|..]) == rest;
      } else {
        assert r[|acc|..] == [c] + r[|next|..];
        assert Reverse(r[|acc|..]) == rest + [c];
      }
    }
  }

  /** The runes the second loop collects are runes of input[i..] in their
      input order. */
  lemma {:induction false} ForwardFromInput(input: seq<char>, i: nat, acc: seq<char>)
    requires i <= |input|
    ensures Subsequence(Forward(input, i, acc)[|acc|..], input[i..])
    decreases |input| - i
  {
    var r := Forward(input, i, acc);
    if i >= |input| || |acc| >= Width {
      assert r[|acc|..] == [];
    } else {
      var c := input[i];
      var next := Take(acc, c);
      assert r == Forward(input, i + 1, next);
      ForwardFromInput(input, i + 1, next);
      var rest := r[|next|..];
      SubsequenceFront(rest, c, input[i + 1..]);
      assert input[i..] == [c] + input[i + 1..];
      if next == acc {
        assert r[|acc|..] == rest;
      } else {
        assert r[|acc|..] == [c] + rest;
      }
    }
  }

  /** One step of either loop loses nothing: what the rest of the loop
      collects after offering c stays collected, and c itself is kept
      when it is neither a space nor a newline. */
  lemma TakeKept(r: seq<char>, acc: seq<char>, c: char)
    requires Take(acc, c) <= r
    ensures forall x | x in r[|Take(acc, c)|..] :: x in r[|acc|..]
    ensures c != ' ' && c != '\n' ==> c in r[|acc|..]
  {
    var next := Take(acc, c);
    assert r[|acc|..] == next[|acc|..] + r[|next|..];
    if c != ' ' && c != '\n' {
      assert next[|acc|..] == [c];
    }
  }

  /** A first loop that stops short of Width runes has walked down to
      input[0]: every rune of input[..i+1] that is neither a space nor a
      newline was collected. */
  lemma {:induction false} BackwardComplete(input: seq<char>, i: int, acc: seq<char>)
    requires -1 <= i < |input|
    requires |Backward(input, i, acc)| < Width
    ensures forall k | 0 <= k <= i && input[k] != ' ' && input[k] != '\n' ::
      input[k] in Backward(input, i, acc)[|acc|..]
    decreases i + 1
  {
    if 0 <= i && |acc| < Width {
      var next := Take(acc, input[i]);
      var r := Backward(input, i - 1, next);
      assert Backward(input, i, acc) == r;
      BackwardComplete(input, i - 1, next);
      TakeKept(r, acc, input[i]);
      forall k | 0 <= k <= i && input[k] != ' ' && input[k] != '\n'
        ensures input[k] in r[|acc|..]
      {
        if k != i {
          assert input[k] in r[|next|..];
        }
      }
    }
  }

  /** A second loop that stops short of Width runes has walked to the end
      of the input: every rune of input[i..] that is neither a space nor a
      newline was collected. */
  lemma {:induction false} ForwardComplete(input: seq<char>, i: nat, acc: seq<char>)
    requires |Forward(input, i, acc)| < Width
    ensures forall k | i <= k < |input| && input[k] != ' ' && input[k] != '\n' ::
      input[k] in Forward(input, i, acc)[|acc|..]
    decreases |input| - i
  {
    if i < |input| && |acc| < Width {
      var next := Take(acc, input[i]);
      var r := Forward(input, i + 1, next);
      assert Forward(input, i, acc) == r;
      ForwardComplete(input, i + 1, next);
      TakeKept(r, acc, input[i]);
      forall k | i <= k < |input| && input[k] != ' ' && input[k] != '\n'
        ensures input[k] in r[|acc|..]
      {
        if k != i {
          assert input[k] in r[|next|..];
        }
      }
    }
  }

  /** A sequence whose two sides are subsequences of the two sides of the
      input is a subsequence of the input. */
  lemma SidesJoin(x: seq<char>, n: nat, input: seq<char>, o: nat)
    requires n <= |x| && o <= |input|
    requires Subsequence(x[..n], input[..o]) && Subsequence(x[n..], input[o..])
    ensures Subsequence(x, input)
  {
    assert x[..n] + x[n..] == x;
    assert input[..o] + input[o..] == input;
    SubsequenceJoin(x[..n], input[..o], x[n..], input[o..]);
  }

  /** Reading a sequence backwards keeps its runes. */
  lemma ReverseKeeps(s: seq<char>)
    ensures forall x | x in s :: x in Reverse(s)
  {
    forall x | x in s
      ensures x in Reverse(s)
    {
      var m :| 0 <= m < |s| && s[m] == x;
      assert Reverse(s)[|s| - 1 - m] == x;
    }
  }

  /** The excerpt is the input with runes dropped, never reordered or
      invented: the part over the caret line comes from input[..offset+1]
      and the rest from the runes after the offset. */
  lemma RenderFromInput(input: seq<char>, e: ParseError)
    requires Renderable(input, e.offset)
    ensures var d := Render(input, e);
      Subsequence(d.excerpt, input) &&
      Subsequence(d.excerpt[..|d.caret|], input[..e.offset + 1]) &&
      Subsequence(d.excerpt[|d.caret|..], input[e.offset + 1..])
  {
    var d := Render(input, e);
    var before := Backward(input, e.offset, []);
    RenderSides(input, e);
    BackwardFromInput(input, e.offset, []);
    assert before[0..] == before;
    assert Subsequence(d.excerpt[..|d.caret|], input[..e.offset + 1]);
    ForwardFromInput(input, e.offset + 1, []);
    assert Forward(input, e.offset + 1, [])[0..] == Forward(input, e.offset + 1, []);
    assert Subsequence(d.excerpt[|d.caret|..], input[e.offset + 1..]);
    SidesJoin(d.excerpt, |d.caret|, input, e.offset + 1);
  }

  /** A caret line shorter than Width runes means the part of the excerpt
      over it holds every rune up to the offset that is neither a space
      nor a newline. */
  lemma RenderBeforeComplete(input: seq<char>, e: ParseError)
    requires Renderable(input, e.offset)
    ensures var d := Render(input, e);
      |d.caret| < Width ==>
        forall k | 0 <= k <= e.offset && input[k] != ' ' && input[k] != '\n' ::
          input[k] in d.excerpt[..|d.caret|]
  {
    var d := Render(input, e);
    var before := Backward(input, e.offset, []);
    RenderSides(input, e);
    if |before| < Width {
      BackwardComplete(input, e.offset, []);
      assert before[0..] == before;
      ReverseKeeps(before);
      forall k | 0 <= k <= e.offset && input[k] != ' ' && input[k] != '\n'
        ensures input[k] in d.excerpt[..|d.caret|]
      {
        assert input[k] in before;
      }
    }
  }

  /** A part after the caret shorter than Width runes holds every rune
      after the offset that is neither a space nor a newline. */
  lemma RenderAfterComplete(input: seq<char>, e: ParseError)
    requires Renderable(input, e.offset)
    ensures var d := Render(input, e);
      |d.excerpt| - |d.caret| < Width ==>
        forall k | e.offset < k < |input| && input[k] != ' ' && input[k] != '\n' ::
          input[k] in d.excerpt[|d.caret|..]
  {
    var d := Render(input, e);
    var after := Forward(input, e.offset + 1, []);
    RenderSides(input, e);
    if |after| < Width {
      ForwardComplete(input, e.offset + 1, []);
      assert after[0..] == after;
      forall k | e.offset < k < |input| && input[k] != ' ' && input[k] != '\n'
        ensures input[k] in d.excerpt[|d.caret|..]
      {
        assert input[k] in after;
      }
    }
  }

  /** The two sides of the excerpt: the first loop's runes reversed, over
      the caret line, then the second loop's runes. */
  lemma RenderSides(input: seq<char>, e: ParseError)
    requires Renderable(input, e.offset)
    ensures var d := Render(input, e);
      var before := Backward(input, e.offset, []);
      |d.caret| == |before| &&
      d.excerpt[..|d.caret|] == Reverse(before) &&
      d.excerpt[|d.caret|..] == Forward(input, e.offset + 1, [])
  {
    RenderableExactly(input, e.offset);
    var before := Backward(input, e.offset, []);
    var after := Forward(input, e.offset + 1, []);
    var d := Render(input, e);
    assert d.excerpt == Reverse(before) + after;
  }

  // ---------------------------------------------------------------------
  // The source's loops
  // ---------------------------------------------------------------------

  /** The first loop of convert: collect backwards from the error rune. */
  method CollectBackward(input: seq<char>, offset: int) returns (before: seq<char>)
    requires 0 <= offset < |input|
    ensures before == Backward(input, offset, [])
  {
    before := [];
    var i: int := offset;
    while i >= 0
      invariant -1 <= i < |input|
      invariant Backward(input, i, before) == Backward(input, offset, [])
      decreases i + 1
    {
      if |before| >= Width {
        assert Backward(input, i, before) == before;
        break;
      }
      assert Backward(input, i, before) == Backward(input, i - 1, Take(before, input[i]));
      if input[i] == ' ' && |before| > 1 && before[|before| - 1] == ' ' {
        assert Take(before, input[i]) == before;
        i := i - 1;
        continue;
      }
      if input[i] == '\n' {
        assert Take(before, input[i]) == before;
        i := i - 1;
        continue;
      }
      assert Take(before, input[i]) == before + [input[i]];
      before := before + [input[i]];
      i := i - 1;
    }
  }

  /** The second loop of convert: collect forwards from the rune after it. */
  method CollectForward(input: seq<char>, start: nat) returns (after: seq<char>)
    ensures after == Forward(input, start, [])
  {
    after := [];
    var j: nat := start;
    while j < |input|
      invariant Forward(input, j, after) == Forward(input, start, [])
      decreases |input| - j
    {
      if |after| >= Width {
        assert Forward(input, j, after) == after;
        break;
      }
      assert Forward(input, j, after) == Forward(input, j + 1, Take(after, input[j]));
      if input[j] == ' ' && |after| > 1 && after[|after| - 1] == ' ' {
        assert Take(after, input[j]) == after;
        j := j + 1;
        continue;
      }
      if input[j] == '\n' {
        assert Take(after, input[j]) == after;
        j := j + 1;
        continue;
      }
      assert Take(after, input[j]) == after + [input[j]];
      after := after + [input[j]];
      j := j + 1;
    }
  }

  /** parseError.convert. */
  method Convert(input: seq<char>, e: ParseError) returns (d: Diagnostic)
    requires Renderable(input, e.offset)
    ensures d == Render(input, e)
  {
    RenderableExactly(input, e.offset);
    var before := CollectBackward(input, e.offset);
    var after := CollectForward(input, e.offset + 1);
    var cursorPosition := |before|;
    assert Render(input, e) == Diagnostic(e, Reverse(before) + after, Dashes(cursorPosition - 1) + "^");
    before := Reverse(before);
    d := Diagnostic(e, before + after, Dashes(cursorPosition - 1) + "^");
  }
}
