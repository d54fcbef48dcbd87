/** Rendering the text of an annotation as LaTeX: protected tokens, nested emphasis, plain text. */
module Emphasis {
  import opened Wrappers
  import opened Texts
  import L = LatexText

  // ---------------------------------------------------------------- tokens

  datatype Kind = CodeSpan | Math | Literal

  datatype Token = Token(kind: Kind, end: nat)

  /** A reader of protected tokens: a token ends past its start and within the text. */
  type Reader = read: (string, nat) -> Option<Token> |
    forall s: string, i: nat :: read(s, i).Some? ==> i < read(s, i).value.end <= |s|
    witness (s, i) => None

  /** The first index at or after `i` where a token begins, or the end of the text. */
  function NextToken(text: string, i: nat, read: Reader): (r: nat)
    requires i <= |text|
    ensures i <= r <= |text| && (r < |text| ==> read(text, r).Some?)
    decreases |text| - i
  {
    if i == |text| || read(text, i).Some? then i else NextToken(text, i + 1, read)
  }

  // ---------------------------------------------------------------- delimiters

  predicate IsWordChar(c: char) {
    'A' <= c <= 'Z' || 'a' <= c <= 'z' || '0' <= c <= '9'
  }

  predicate At(source: string, i: nat, d: string) {
    i + |d| <= |source| && source[i..i + |d|] == d
  }

  predicate CanOpen(source: string, i: nat, d: string) {
    && At(source, i, d)
    && i + |d| < |source| && !IsSpace(source[i + |d|])
    && (i == 0 || !IsWordChar(source[i - 1]))
  }

  predicate CanClose(source: string, i: nat, d: string) {
    && At(source, i, d)
    && i > 0 && !IsSpace(source[i - 1])
    && (i + |d| == |source| || !IsWordChar(source[i + |d|]))
  }

  /** The first place at or after `i` where the delimiter can close, past escapes and tokens. */
  function Closing(source: string, i: nat, d: string, read: Reader): (r: Option<nat>)
    ensures r.Some? ==> i <= r.value && CanClose(source, r.value, d)
    decreases |source| - i
  {
    if i >= |source| then None
    else if source[i] == '\\' then Closing(source, PastEscape(source, i), d, read)
    else if read(source, i).Some? then Closing(source, read(source, i).value.end, d, read)
    else if CanClose(source, i, d) then Some(i)
    else Closing(source, i + 1, d, read)
  }

  function CommandName(d: string): string {
    if |d| == 2 then "textbf" else "emph"
  }

  // ---------------------------------------------------------------- the tree that is rendered

  datatype Node =
    | Char(c: char)
    | Protected(kind: Kind, raw: string)
    | Emphasised(delimiter: string, inner: seq<Node>)

  /** An emphasised part, and where it ends. */
  datatype Span = Span(end: nat, node: Node)

  function Parse(text: string, read: Reader): seq<Node>
    decreases |text|, 3, 0
  {
    ParseFrom(text, 0, read)
  }

  function ParseFrom(text: string, i: nat, read: Reader): seq<Node>
    requires i <= |text|
    decreases |text|, 2, |text| - i
  {
    if i == |text| then []
    else
      var j := NextToken(text, i, read);
      PlainFrom(text[i..j], 0, read) +
      if j == |text| then []
      else
        var token := read(text, j).value;
        [Protected(token.kind, text[j..token.end])] + ParseFrom(text, token.end, read)
  }

  function PlainFrom(text: string, i: nat, read: Reader): seq<Node>
    requires i <= |text|
    decreases |text|, 1, |text| - i
  {
    if i == |text| then []
    else
      var span := FirstSpan(text, i, read);
      if span.Some? then [span.value.node] + PlainFrom(text, span.value.end, read)
      else [Char(text[i])] + PlainFrom(text, i + 1, read)
  }

  /** Strong before plain emphasis, asterisks before underscores. */
  function FirstSpan(text: string, i: nat, read: Reader): (r: Option<Span>)
    ensures r.Some? ==> i < r.value.end <= |text|
    decreases |text|, 0, 1
  {
    if SpanAt(text, i, "**", read).Some? then SpanAt(text, i, "**", read)
    else if SpanAt(text, i, "__", read).Some? then SpanAt(text, i, "__", read)
    else if SpanAt(text, i, "*", read).Some? then SpanAt(text, i, "*", read)
    else SpanAt(text, i, "_", read)
  }

  function SpanAt(source: string, i: nat, d: string, read: Reader): (r: Option<Span>)
    requires d != ""
    ensures r.Some? ==> i < r.value.end <= |source|
    decreases |source|, 0, 0
  {
    if !CanOpen(source, i, d) then None
    else
      var close := Closing(source, i + |d|, d, read);
      if close.None? then None
      else Some(Span(close.value + |d|, Emphasised(d, Parse(source[i + |d|..close.value], read))))
  }

  // ---------------------------------------------------------------- meaning of the tree

  /** A code span loses its backtick fence if it has one at both ends. */
  function CodeLatex(raw: string): string {
    var n := Lead(raw, '`');
    if n == 0 || |raw| < n * 2 || raw[|raw| - n..] != Repeat('`', n) then L.EscapeText(raw)
    else "\\texttt{" + L.EscapeText(raw[n..|raw| - n]) + "}"
  }

  function TokenLatex(kind: Kind, raw: string, math: string -> string): string {
    match kind
    case CodeSpan => CodeLatex(raw)
    case Math => math(raw)
    case Literal => L.EscapeText(raw)
  }

  function Latex(nodes: seq<Node>, math: string -> string): string {
    if nodes == [] then "" else NodeLatex(nodes[0], math) + Latex(nodes[1..], math)
  }

  function NodeLatex(node: Node, math: string -> string): string {
    match node
    case Char(c) => L.EscapeText([c])
    case Protected(kind, raw) => TokenLatex(kind, raw, math)
    case Emphasised(d, inner) => SpanLatex(d, Latex(inner, math))
  }

  function SpanLatex(d: string, inner: string): string {
    "\\" + CommandName(d) + "{" + inner + "}"
  }

  /** The text a tree stands for. */
  function Source(nodes: seq<Node>): string {
    if nodes == [] then "" else NodeSource(nodes[0]) + Source(nodes[1..])
  }

  function NodeSource(node: Node): string {
    match node
    case Char(c) => [c]
    case Protected(_, raw) => raw
    case Emphasised(d, inner) => d + Source(inner) + d
  }

  lemma {:induction false} LatexAppend(a: seq<Node>, b: seq<Node>, math: string -> string)
    ensures Latex(a + b, math) == Latex(a, math) + Latex(b, math)
  {
    if a == [] {
      assert a + b == b;
    } else {
      assert (a + b)[1..] == a[1..] + b;
      LatexAppend(a[1..], b, math);
    }
  }

  lemma {:induction false} SourceAppend(a: seq<Node>, b: seq<Node>)
    ensures Source(a + b) == Source(a) + Source(b)
  {
    if a == [] {
      assert a + b == b;
    } else {
      assert (a + b)[1..] == a[1..] + b;
      SourceAppend(a[1..], b);
    }
  }

  // ---------------------------------------------------------------- the scanners

  method RenderCodeSpan(raw: string) returns (latex: string)
    ensures latex == CodeLatex(raw)
  {
    if raw == "" || raw[0] != '`' {
      return L.EscapeText(raw);
    }
    var fenceLength := 1;
    assert raw[0..] == raw;
    while fenceLength < |raw| && raw[fenceLength] == '`'
      invariant 1 <= fenceLength <= |raw|
      invariant Lead(raw, '`') == fenceLength + Lead(raw[fenceLength..], '`')
    {
      assert raw[fenceLength..][1..] == raw[fenceLength + 1..];
      fenceLength := fenceLength + 1;
    }
    if |raw| < fenceLength * 2 || raw[|raw| - fenceLength..] != Repeat('`', fenceLength) {
      return L.EscapeText(raw);
    }
    latex := "\\texttt{" + L.EscapeText(raw[fenceLength..|raw| - fenceLength]) + "}";
  }

  /** `out` and what is rendered from `i` on make up the whole. */
  ghost predicate Rendering(source: string, out: string, i: nat, read: Reader, math: string -> string) {
    i <= |source| &&
    forall k: nat {:trigger Key(k)} :: Key(k) ==>
      Latex(Parse(source, read), math) == out + Latex(ParseFrom(source, i, read), math)
  }

  lemma RenderingStart(source: string, read: Reader, math: string -> string)
    ensures Rendering(source, "", 0, read, math)
  {
    assert "" + Latex(Parse(source, read), math) == Latex(Parse(source, read), math);
  }

  /** The plain text before a token, and the token. */
  lemma RenderToken(source: string, out: string, plainStart: nat, index: nat, read: Reader, math: string -> string)
    requires Rendering(source, out, plainStart, read, math) && plainStart <= index < |source|
    requires NextToken(source, plainStart, read) == index
    ensures
      var token := read(source, index).value;
      var plain := Latex(PlainFrom(source[plainStart..index], 0, read), math);
      && Rendering(source, out + plain + TokenLatex(token.kind, source[index..token.end], math), token.end, read, math)
      && (plainStart == index ==> out + plain == out)
  {
    assert Key(0);
    var token := read(source, index).value;
    var node := Protected(token.kind, source[index..token.end]);
    var plain, rest := PlainFrom(source[plainStart..index], 0, read), ParseFrom(source, token.end, read);
    LatexAppend(plain, [node] + rest, math);
    assert ([node] + rest)[1..] == rest;
    assert out + "" == out;
    AssociateFour(out, Latex(plain, math), NodeLatex(node, math), Latex(rest, math));
  }

  /** No token is left. */
  lemma RenderRest(source: string, out: string, plainStart: nat, read: Reader, math: string -> string)
    requires Rendering(source, out, plainStart, read, math) && NextToken(source, plainStart, read) == |source|
    ensures Latex(Parse(source, read), math) ==
            if plainStart == |source| then out else out + Latex(PlainFrom(source[plainStart..], 0, read), math)
  {
    assert Key(0);
    if plainStart < |source| {
      assert source[plainStart..|source|] == source[plainStart..];
      var plain := PlainFrom(source[plainStart..], 0, read);
      assert plain + [] == plain;
    }
  }

  method RenderContent(source: string, read: Reader, math: string -> string) returns (out: string)
    ensures out == Latex(Parse(source, read), math)
    decreases |source|, 3
  {
    out := "";
    var plainStart: nat, index: nat := 0, 0;
    RenderingStart(source, read, math);
    while index < |source|
      invariant plainStart <= index <= |source|
      invariant NextToken(source, plainStart, read) == NextToken(source, index, read)
      invariant Rendering(source, out, plainStart, read, math)
    {
      var token := read(source, index);
      if token.None? {
        index := index + 1;
        continue;
      }
      RenderToken(source, out, plainStart, index, read, math);
      if index > plainStart {
        var plain := RenderPlainText(source[plainStart..index], read, math);
        out := out + plain;
      }
      var raw := source[index..token.value.end];
      if token.value.kind == CodeSpan {
        var code := RenderCodeSpan(raw);
        out := out + code;
      } else if token.value.kind == Math {
        out := out + math(raw);
      } else {
        out := out + L.EscapeText(raw);
      }
      index := token.value.end;
      plainStart := index;
    }
    RenderRest(source, out, plainStart, read, math);
    if plainStart < |source| {
      var plain := RenderPlainText(source[plainStart..], read, math);
      out := out + plain;
    }
  }

  /** A span as its end and its text. */
  function Rendered(span: Option<Span>, math: string -> string): Option<(nat, string)> {
    match span
    case None => None
    case Some(s) => Some((s.end, NodeLatex(s.node, math)))
  }

  /** Nothing closes the delimiter opened at `start` before `i`. */
  ghost predicate Seeking(source: string, start: nat, i: nat, d: string, read: Reader) {
    && start + |d| <= i <= |source|
    && forall k: nat {:trigger Key(k)} :: Key(k) ==>
        CanOpen(source, start, d) && Closing(source, start + |d|, d, read) == Closing(source, i, d, read)
  }

  /** The result of reading a span. */
  ghost predicate Reads(r: Option<(nat, string)>, source: string, start: nat, d: string, read: Reader,
                        math: string -> string)
  {
    d != "" &&
    forall k: nat {:trigger Key(k)} :: Key(k) ==> r == Rendered(SpanAt(source, start, d, read), math)
  }

  lemma SeekStart(source: string, start: nat, d: string, read: Reader, math: string -> string)
    requires d != ""
    ensures if CanOpen(source, start, d) then Seeking(source, start, start + |d|, d, read)
            else Reads(None, source, start, d, read, math)
  {
  }

  lemma SeekNext(source: string, start: nat, i: nat, d: string, read: Reader, math: string -> string)
    requires Seeking(source, start, i, d, read) && i < |source| && d != ""
    ensures
      if source[i] == '\\' then Seeking(source, start, PastEscape(source, i), d, read)
      else if read(source, i).Some? then Seeking(source, start, read(source, i).value.end, d, read)
      else if CanClose(source, i, d) then
        Reads(Some((i + |d|, SpanLatex(d, Latex(Parse(source[start + |d|..i], read), math)))), source, start, d, read,
              math)
      else Seeking(source, start, i + 1, d, read)
  {
    assert Key(0);
    if source[i] != '\\' && read(source, i).None? && CanClose(source, i, d) {
      assert SpanAt(source, start, d, read) == Some(Span(i + |d|, Emphasised(d, Parse(source[start + |d|..i], read))));
    }
  }

  lemma SeekEnd(source: string, start: nat, d: string, read: Reader, math: string -> string)
    requires Seeking(source, start, |source|, d, read) && d != ""
    ensures Reads(None, source, start, d, read, math)
  {
    assert Key(0);
  }

  /** The span that the delimiter opens at `startIndex`, if it opens and closes one. */
  method ReadEmphasisSpan(source: string, startIndex: nat, d: string, read: Reader, math: string -> string)
    returns (r: Option<(nat, string)>)
    requires d != ""
    ensures Reads(r, source, startIndex, d, read, math)
    decreases |source|, 0
  {
    SeekStart(source, startIndex, d, read, math);
    if !CanOpen(source, startIndex, d) {
      return None;
    }
    var index := startIndex + |d|;
    while index < |source|
      invariant Seeking(source, startIndex, index, d, read)
      decreases |source| - index
    {
      SeekNext(source, startIndex, index, d, read, math);
      if source[index] == '\\' {
        index := PastEscape(source, index);
        continue;
      }
      var token := read(source, index);
      if token.Some? {
        index := token.value.end;
        continue;
      }
      if CanClose(source, index, d) {
        var inner := RenderContent(source[startIndex + |d|..index], read, math);
        return Some((index + |d|, SpanLatex(d, inner)));
      }
      index := index + 1;
    }
    SeekEnd(source, startIndex, d, read, math);
    return None;
  }

  ghost predicate PlainRendering(source: string, out: string, i: nat, read: Reader, math: string -> string) {
    i <= |source| &&
    forall k: nat {:trigger Key(k)} :: Key(k) ==>
      Latex(PlainFrom(source, 0, read), math) == out + Latex(PlainFrom(source, i, read), math)
  }

  lemma PlainStart(source: string, read: Reader, math: string -> string)
    ensures PlainRendering(source, "", 0, read, math)
  {
    assert "" + Latex(PlainFrom(source, 0, read), math) == Latex(PlainFrom(source, 0, read), math);
  }

  lemma PlainStep(source: string, out: string, i: nat, node: Node, end: nat, read: Reader, math: string -> string)
    requires PlainRendering(source, out, i, read, math) && i < end <= |source|
    requires PlainFrom(source, i, read) == [node] + PlainFrom(source, end, read)
    ensures PlainRendering(source, out + NodeLatex(node, math), end, read, math)
  {
    assert Key(0);
    var rest := PlainFrom(source, end, read);
    assert ([node] + rest)[1..] == rest;
    Associate(out, NodeLatex(node, math), Latex(rest, math));
  }

  /** A span was read at `i`, and no delimiter tried before it gave one. */
  lemma PlainSpan(source: string, out: string, i: nat, d: string, r: (nat, string), read: Reader,
                  math: string -> string)
    requires PlainRendering(source, out, i, read, math) && i < |source| && Reads(Some(r), source, i, d, read, math)
    requires SpanAt(source, i, d, read).Some? ==> FirstSpan(source, i, read) == SpanAt(source, i, d, read)
    ensures i < r.0 && PlainRendering(source, out + r.1, r.0, read, math)
  {
    assert Key(0);
    var span := SpanAt(source, i, d, read).value;
    PlainStep(source, out, i, span.node, span.end, read, math);
  }

  lemma PlainChar(source: string, out: string, i: nat, read: Reader, math: string -> string)
    requires PlainRendering(source, out, i, read, math) && i < |source| && FirstSpan(source, i, read).None?
    ensures PlainRendering(source, out + L.EscapeText([source[i]]), i + 1, read, math)
  {
    PlainStep(source, out, i, Char(source[i]), i + 1, read, math);
  }

  /** The four attempts at one place, in order. */
  lemma PlainNext(source: string, out: string, i: nat, stars: Option<(nat, string)>, lines: Option<(nat, string)>,
                  star: Option<(nat, string)>, line: Option<(nat, string)>, read: Reader, math: string -> string)
    requires PlainRendering(source, out, i, read, math) && i < |source|
    requires Reads(stars, source, i, "**", read, math)
    requires stars.None? ==> Reads(lines, source, i, "__", read, math)
    requires stars.None? && lines.None? ==> Reads(star, source, i, "*", read, math)
    requires stars.None? && lines.None? && star.None? ==> Reads(line, source, i, "_", read, math)
    ensures
      var first := if stars.Some? then stars else if lines.Some? then lines else if star.Some? then star else line;
      if first.Some? then i < first.value.0 && PlainRendering(source, out + first.value.1, first.value.0, read, math)
      else PlainRendering(source, out + L.EscapeText([source[i]]), i + 1, read, math)
  {
    assert Key(0);
    if stars.Some? {
      PlainSpan(source, out, i, "**", stars.value, read, math);
    } else if lines.Some? {
      PlainSpan(source, out, i, "__", lines.value, read, math);
    } else if star.Some? {
      PlainSpan(source, out, i, "*", star.value, read, math);
    } else if line.Some? {
      PlainSpan(source, out, i, "_", line.value, read, math);
    } else {
      PlainChar(source, out, i, read, math);
    }
  }

  lemma PlainEnd(source: string, out: string, read: Reader, math: string -> string)
    requires PlainRendering(source, out, |source|, read, math)
    ensures out == Latex(PlainFrom(source, 0, read), math)
  {
    assert Key(0);
    assert out + "" == out;
  }

  method RenderPlainText(source: string, read: Reader, math: string -> string) returns (out: string)
    ensures out == Latex(PlainFrom(source, 0, read), math)
    decreases |source|, 1
  {
    out := "";
    var index := 0;
    PlainStart(source, read, math);
    while index < |source|
      invariant PlainRendering(source, out, index, read, math)
      decreases |source| - index
    {
      ghost var stars, lines, star, line: Option<(nat, string)> := None, None, None, None;
      var strongMatch := ReadEmphasisSpan(source, index, "**", read, math);
      stars := strongMatch;
      if strongMatch.None? {
        strongMatch := ReadEmphasisSpan(source, index, "__", read, math);
        lines := strongMatch;
      }
      if strongMatch.Some? {
        PlainNext(source, out, index, stars, lines, star, line, read, math);
        out := out + strongMatch.value.1;
        index := strongMatch.value.0;
        continue;
      }
      var emphasisMatch := ReadEmphasisSpan(source, index, "*", read, math);
      star := emphasisMatch;
      if emphasisMatch.None? {
        emphasisMatch := ReadEmphasisSpan(source, index, "_", read, math);
        line := emphasisMatch;
      }
      PlainNext(source, out, index, stars, lines, star, line, read, math);
      if emphasisMatch.Some? {
        out := out + emphasisMatch.value.1;
        index := emphasisMatch.value.0;
        continue;
      }
      out := out + L.EscapeText([source[index]]);
      index := index + 1;
    }
    PlainEnd(source, out, read, math);
  }
}
