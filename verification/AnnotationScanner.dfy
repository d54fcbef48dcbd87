/** The reader of protected tokens: code spans, links, math and bare URLs. */
module AnnotationScanner {
  import opened Wrappers
  import opened Texts
  import opened Emphasis
  import opened EmphasisTheorems

  /** Past a code span whose fence of length `n` ends before `i`: its closing fence, the end of
      the line, or the end of the text. */
  function PastCode(text: string, i: nat, n: nat): (r: nat)
    requires i <= |text|
    ensures i <= r <= |text|
    decreases |text| - i
  {
    if i == |text| then i
    else if text[i] == '\\' then PastCode(text, PastEscape(text, i), n)
    else if text[i] == '`' then
      var run := Lead(text[i..], '`');
      if run == n then i + run else PastCode(text, i + run, n)
    else if text[i] == '\n' then i + 1
    else PastCode(text, i + 1, n)
  }

  function AdvancePastCode(text: string, start: nat): (r: nat)
    requires start < |text| && text[start] == '`'
    ensures start < r <= |text|
  {
    var n := Lead(text[start..], '`');
    PastCode(text, start + n, n)
  }

  /** The bracket that closes the group, past escapes, code spans and nested groups; none when
      the line ends first. */
  function GroupEnd(text: string, i: nat, open: char, close: char, depth: nat): (r: Option<nat>)
    requires i <= |text|
    ensures r.Some? ==> i <= r.value < |text|
    decreases |text| - i
  {
    if i == |text| then None
    else if text[i] == '\\' then GroupEnd(text, PastEscape(text, i), open, close, depth)
    else if text[i] == '`' then GroupEnd(text, AdvancePastCode(text, i), open, close, depth)
    else if text[i] == open then GroupEnd(text, i + 1, open, close, depth + 1)
    else if text[i] == close then if depth == 0 then Some(i) else GroupEnd(text, i + 1, open, close, depth - 1)
    else if text[i] == '\n' then None
    else GroupEnd(text, i + 1, open, close, depth)
  }

  function LinkEnd(text: string, start: nat): (r: Option<nat>)
    requires start < |text|
    ensures r.Some? ==> start < r.value <= |text|
  {
    if text[start] != '[' then None
    else
      var name := GroupEnd(text, start + 1, '[', ']', 0);
      if name.None? || name.value + 1 >= |text| || text[name.value + 1] != '(' then None
      else
        var target := GroupEnd(text, name.value + 2, '(', ')', 0);
        if target.None? then None else Some(target.value + 1)
  }

  /** The closing delimiter, past escapes; none when a line ends first and may not. */
  function DelimiterEnd(text: string, i: nat, close: string, allowNewlines: bool): (r: Option<nat>)
    requires i <= |text| && close != ""
    ensures r.Some? ==> i < r.value <= |text|
    decreases |text| - i
  {
    if i == |text| then None
    else if !allowNewlines && text[i] == '\n' then None
    else if text[i] == '\\' then DelimiterEnd(text, PastEscape(text, i), close, allowNewlines)
    else if At(text, i, close) then Some(i + |close|)
    else DelimiterEnd(text, i + 1, close, allowNewlines)
  }

  predicate Next(text: string, i: nat, c: char) {
    i + 1 < |text| && text[i + 1] == c
  }

  function MathEnd(text: string, i: nat): (r: Option<nat>)
    requires i < |text|
    ensures r.Some? ==> i < r.value <= |text|
  {
    if text[i] == '\\' && Next(text, i, '(') then DelimiterEnd(text, i + 2, "\\)", true)
    else if text[i] == '\\' && Next(text, i, '[') then DelimiterEnd(text, i + 2, "\\]", true)
    else if text[i] == '$' && Next(text, i, '$') then DelimiterEnd(text, i + 2, "$$", true)
    else if text[i] == '$' && i + 1 < |text| && !IsSpace(text[i + 1]) then
      var end := DelimiterEnd(text, i + 1, "$", false);
      if end.Some? && end.value - i > 2 then end else None
    else None
  }

  function UrlRun(text: string, i: nat): (r: nat)
    requires i <= |text|
    ensures i <= r <= |text|
    decreases |text| - i
  {
    if i == |text| || IsSpace(text[i]) || text[i] == '<' then i else UrlRun(text, i + 1)
  }

  function UrlEnd(text: string, i: nat): (r: Option<nat>)
    requires i < |text|
    ensures r.Some? ==> i < r.value <= |text|
  {
    var n :=
      if Spells(text, i, "https://") then |"https://"|
      else if Spells(text, i, "http://") then |"http://"|
      else 0;
    if n == 0 || i + n > |text| || UrlRun(text, i + n) == i + n then None else Some(UrlRun(text, i + n))
  }

  function TokenOf(kind: Kind, end: Option<nat>): Option<Token> {
    if end.None? then None else Some(Token(kind, end.value))
  }

  /** The protected token that begins at `i`. */
  function ReadToken(text: string, i: nat): (r: Option<Token>)
    ensures r.Some? ==> i < r.value.end <= |text|
  {
    if i >= |text| then None
    else if text[i] == '`' then Some(Token(CodeSpan, AdvancePastCode(text, i)))
    else if text[i] == '[' then TokenOf(Literal, LinkEnd(text, i))
    else if text[i] == '$' || text[i] == '\\' then TokenOf(Math, MathEnd(text, i))
    else if Lower(text[i]) == 'h' then TokenOf(Literal, UrlEnd(text, i))
    else None
  }

  /** The scanner meets the contract that the renderer needs of it. */
  const SCANNER: Reader := ReadToken

  // ---------------------------------------------------------------- math in backslash delimiters

  lemma AtHead(text: string, i: nat, d: string)
    requires i < |text| && d != ""
    ensures At(text, i, d) ==> text[i] == d[0]
  {
    if At(text, i, d) {
      assert text[i] == text[i..i + |d|][0];
    }
  }

  lemma {:induction false} NeverEnds(text: string, i: nat, close: string, allowNewlines: bool)
    requires i <= |text| && close != "" && close[0] == '\\'
    ensures DelimiterEnd(text, i, close, allowNewlines) == None
    decreases |text| - i
  {
    if i < |text| {
      if text[i] == '\\' {
        NeverEnds(text, PastEscape(text, i), close, allowNewlines);
      } else {
        AtHead(text, i, close);
        NeverEnds(text, i + 1, close, allowNewlines);
      }
    }
  }

  /** The scan for the closing delimiter skips escapes before it looks for `\)` or `\]`, so no
      token ever begins with a backslash. */
  lemma BackslashMathIsNeverRead(text: string, i: nat)
    requires i < |text| && text[i] == '\\'
    ensures ReadToken(text, i) == None
  {
    if Next(text, i, '(') {
      NeverEnds(text, i + 2, "\\)", true);
    } else if Next(text, i, '[') {
      NeverEnds(text, i + 2, "\\]", true);
    }
  }

  /** A math token begins with a dollar sign, and it ends with one. */
  lemma MathIsInDollars(text: string, i: nat)
    requires ReadToken(text, i).Some? && ReadToken(text, i).value.kind == Math
    ensures text[i] == '$' && text[ReadToken(text, i).value.end - 1] == '$'
  {
    if text[i] == '\\' {
      BackslashMathIsNeverRead(text, i);
    } else if Next(text, i, '$') {
      DelimiterLast(text, i + 2, "$$", true);
    } else {
      DelimiterLast(text, i + 1, "$", false);
    }
  }

  lemma {:induction false} DelimiterLast(text: string, i: nat, close: string, allowNewlines: bool)
    requires i <= |text| && close != "" && DelimiterEnd(text, i, close, allowNewlines).Some?
    ensures text[DelimiterEnd(text, i, close, allowNewlines).value - 1] == close[|close| - 1]
    decreases |text| - i
  {
    if text[i] == '\\' {
      DelimiterLast(text, PastEscape(text, i), close, allowNewlines);
    } else if At(text, i, close) {
      assert text[i..i + |close|][|close| - 1] == close[|close| - 1];
    } else {
      DelimiterLast(text, i + 1, close, allowNewlines);
    }
  }

  // ---------------------------------------------------------------- texts without a dollar sign

  lemma {:induction false} MathFreeAppend(a: seq<Node>, b: seq<Node>)
    requires MathFree(a) && MathFree(b)
    ensures MathFree(a + b)
  {
    if a == [] {
      assert a + b == b;
    } else {
      assert (a + b)[1..] == a[1..] + b;
      MathFreeAppend(a[1..], b);
    }
  }

  lemma {:induction false} ParseMathFree(text: string)
    requires '$' !in text
    ensures MathFree(Parse(text, SCANNER))
    decreases |text|, 3, 0
  {
    FromMathFree(text, 0);
  }

  lemma {:induction false} FromMathFree(text: string, i: nat)
    requires '$' !in text && i <= |text|
    ensures MathFree(ParseFrom(text, i, SCANNER))
    decreases |text|, 2, |text| - i
  {
    if i < |text| {
      var j := NextToken(text, i, SCANNER);
      var plain := PlainFrom(text[i..j], 0, SCANNER);
      PlainMathFree(text[i..j], 0);
      if j == |text| {
        assert plain + [] == plain;
      } else {
        var token := SCANNER(text, j).value;
        var rest := ParseFrom(text, token.end, SCANNER);
        FromMathFree(text, token.end);
        if token.kind == Math {
          MathIsInDollars(text, j);
        }
        assert ([Protected(token.kind, text[j..token.end])] + rest)[1..] == rest;
        MathFreeAppend(plain, [Protected(token.kind, text[j..token.end])] + rest);
      }
    }
  }

  lemma {:induction false} PlainMathFree(text: string, i: nat)
    requires '$' !in text && i <= |text|
    ensures MathFree(PlainFrom(text, i, SCANNER))
    decreases |text|, 1, |text| - i
  {
    if i < |text| {
      var span := FirstSpan(text, i, SCANNER);
      var end := if span.Some? then span.value.end else i + 1;
      var node := if span.Some? then span.value.node else Char(text[i]);
      if span.Some? {
        SpanMathFree(text, i, "**");
        SpanMathFree(text, i, "__");
        SpanMathFree(text, i, "*");
        SpanMathFree(text, i, "_");
      }
      PlainMathFree(text, end);
      assert ([node] + PlainFrom(text, end, SCANNER))[1..] == PlainFrom(text, end, SCANNER);
    }
  }

  lemma {:induction false} SpanMathFree(text: string, i: nat, d: string)
    requires '$' !in text && d != ""
    ensures SpanAt(text, i, d, SCANNER).Some? ==> NodeMathFree(SpanAt(text, i, d, SCANNER).value.node)
    decreases |text|, 0, 0
  {
    if SpanAt(text, i, d, SCANNER).Some? {
      ParseMathFree(text[i + |d|..Closing(text, i + |d|, d, SCANNER).value]);
    }
  }

  /** With the repository's own scanner, an annotation without a dollar sign renders to LaTeX
      whose groups are balanced, whatever math is made of. */
  lemma DollarFreeIsBalanced(text: string, math: string -> string)
    requires '$' !in text
    ensures Balanced(Latex(Parse(text, SCANNER), math))
  {
    ParseMathFree(text);
    RenderingIsBalanced(text, SCANNER, math);
  }
}
