/** What opens and closes emphasis, what protected tokens are, and what is written for both. */
module EmphasisMeaning {
  import opened Wrappers
  import opened Texts
  import opened Emphasis
  import opened AnnotationScanner
  import L = LatexText
  import M = LatexMeaning

  // ---------------------------------------------------------------- delimiters

  predicate Alphanumeric(c: char) {
    'A' <= c <= 'Z' || 'a' <= c <= 'z' || '0' <= c <= '9'
  }

  /** The delimiter stands here, something other than white space precedes it, and no letter or
      digit follows it. */
  predicate ClosesHere(source: string, i: nat, d: string) {
    && 0 < i && i + |d| <= |source| && source[i..i + |d|] == d && !IsSpace(source[i - 1])
    && (i + |d| < |source| ==> !Alphanumeric(source[i + |d|]))
  }

  /** The delimiter stands here, something other than white space follows it, and no letter or
      digit precedes it. */
  predicate OpensHere(source: string, i: nat, d: string) {
    && i + |d| < |source| && source[i..i + |d|] == d && !IsSpace(source[i + |d|])
    && (i > 0 ==> !Alphanumeric(source[i - 1]))
  }

  /** A span begins where its delimiter opens and ends where it closes; what is between is parsed. */
  lemma SpanMeans(source: string, i: nat, d: string, read: Reader)
    requires d != ""
    ensures SpanAt(source, i, d, read).Some? ==>
      && OpensHere(source, i, d)
      && var end := SpanAt(source, i, d, read).value.end;
      && i + |d| <= end - |d| && ClosesHere(source, end - |d|, d)
      && SpanAt(source, i, d, read).value.node == Emphasised(d, Parse(source[i + |d|..end - |d|], read))
    ensures SpanAt(source, i, d, read).Some? <==> OpensHere(source, i, d) && Closing(source, i + |d|, d, read).Some?
  {
    hide Parse, Closing, IsSpace;
  }

  /** Where a delimiter closes: the search passes over everything that is neither a backslash nor
      the beginning of a token, and ends at the first place where the delimiter can close; it goes
      on behind an escaped character and behind a token. */
  lemma {:induction false} ClosingMeans(source: string, i: nat, d: string, read: Reader, j: nat)
    requires i <= j <= |source|
    requires forall k | i <= k < j :: source[k] != '\\' && read(source, k).None? && !ClosesHere(source, k, d)
    ensures j == |source| ==> Closing(source, i, d, read) == None
    ensures j < |source| && source[j] == '\\' ==>
      Closing(source, i, d, read) == Closing(source, if j + 2 < |source| then j + 2 else |source|, d, read)
    ensures j < |source| && source[j] != '\\' && read(source, j).Some? ==>
      Closing(source, i, d, read) == Closing(source, read(source, j).value.end, d, read)
    ensures j < |source| && source[j] != '\\' && read(source, j).None? && ClosesHere(source, j, d) ==>
      Closing(source, i, d, read) == Some(j)
    decreases j - i
  {
    if i < j {
      ClosingMeans(source, i + 1, d, read, j);
      ClosingSkips(source, i, d, read);
    }
  }

  lemma ClosingSkips(source: string, i: nat, d: string, read: Reader)
    requires i < |source| && source[i] != '\\' && read(source, i).None? && !ClosesHere(source, i, d)
    ensures Closing(source, i, d, read) == Closing(source, i + 1, d, read)
  {
    hide IsSpace;
  }

  // ---------------------------------------------------------------- tokens and plain text

  lemma {:induction false} NextTokenIs(text: string, i: nat, j: nat, read: Reader)
    requires i <= j <= |text| && (forall k | i <= k < j :: read(text, k).None?)
    requires j < |text| ==> read(text, j).Some?
    ensures NextToken(text, i, read) == j
    decreases j - i
  {
    if i < j {
      NextTokenIs(text, i + 1, j, read);
    }
  }

  /** The text up to the first token is plain; the token is rendered by its kind: a code span as
      code, math by the formula renderer, any other as text. */
  lemma FirstToken(text: string, i: nat, j: nat, read: Reader, math: string -> string)
    requires i <= j < |text| && (forall k | i <= k < j :: read(text, k).None?) && read(text, j).Some?
    ensures
      var token := read(text, j).value;
      var raw := text[j..token.end];
      var before, after := Latex(PlainFrom(text[i..j], 0, read), math), Latex(ParseFrom(text, token.end, read), math);
      var all := Latex(ParseFrom(text, i, read), math);
      && (token.kind == CodeSpan ==> all == before + CodeLatex(raw) + after)
      && (token.kind == Math ==> all == before + math(raw) + after)
      && (token.kind == Literal ==> all == before + L.EscapeText(raw) + after)
  {
    hide L.EscapeText, CodeLatex, Latex, PlainFrom, NextToken;
    NextTokenIs(text, i, j, read);
    var token := read(text, j).value;
    var plain, rest := PlainFrom(text[i..j], 0, read), ParseFrom(text, token.end, read);
    var node := Protected(token.kind, text[j..token.end]);
    LatexAppend(plain, [node] + rest, math);
    LatexCons(node, rest, math);
    Associate(Latex(plain, math), NodeLatex(node, math), Latex(rest, math));
  }

  lemma LatexCons(node: Node, rest: seq<Node>, math: string -> string)
    ensures Latex([node] + rest, math) == NodeLatex(node, math) + Latex(rest, math)
  {
    hide NodeLatex;
    assert ([node] + rest)[1..] == rest;
  }

  /** Without a token the whole rest is plain. */
  lemma NoToken(text: string, read: Reader)
    requires forall k | 0 <= k < |text| :: read(text, k).None?
    ensures Parse(text, read) == PlainFrom(text, 0, read)
  {
    NextTokenIs(text, 0, |text|, read);
    assert text[0..|text|] == text;
    assert PlainFrom(text, 0, read) + [] == PlainFrom(text, 0, read);
  }

  lemma {:induction false} AllChars(text: string, i: nat, read: Reader, math: string -> string)
    requires i <= |text| && forall k | i <= k < |text| :: FirstSpan(text, k, read).None?
    ensures Latex(PlainFrom(text, i, read), math) == L.EscapeText(text[i..])
    decreases |text| - i
  {
    hide FirstSpan;
    if i < |text| {
      AllChars(text, i + 1, read, math);
      var rest := PlainFrom(text, i + 1, read);
      assert ([Char(text[i])] + rest)[1..] == rest;
      assert text[i..] == [text[i]] + text[i + 1..];
      EscapeParts([text[i]], text[i + 1..]);
    }
  }

  lemma EscapeParts(a: string, b: string)
    ensures L.EscapeText(a + b) == L.EscapeText(a) + L.EscapeText(b)
  {
    L.EscapeIsMap(a);
    L.EscapeIsMap(b);
    L.EscapeIsMap(a + b);
    M.MapAppend(a, b);
  }

  /** Where no token begins and no delimiter opens, the text is escaped and nothing else. */
  lemma PlainIsEscaped(text: string, read: Reader, math: string -> string)
    requires forall k | 0 <= k < |text| :: read(text, k).None?
    requires forall k | 0 <= k < |text| ::
      !OpensHere(text, k, "**") && !OpensHere(text, k, "__") && !OpensHere(text, k, "*") && !OpensHere(text, k, "_")
    ensures Latex(Parse(text, read), math) == L.EscapeText(text)
  {
    NoToken(text, read);
    forall k | 0 <= k < |text| ensures FirstSpan(text, k, read).None? {
      NoSpan(text, k, read);
    }
    AllChars(text, 0, read, math);
    assert text[0..] == text;
  }

  lemma NoSpan(text: string, k: nat, read: Reader)
    requires !OpensHere(text, k, "**") && !OpensHere(text, k, "__")
    requires !OpensHere(text, k, "*") && !OpensHere(text, k, "_")
    ensures FirstSpan(text, k, read).None?
  {
    hide SpanAt;
    SpanMeans(text, k, "**", read);
    SpanMeans(text, k, "__", read);
    SpanMeans(text, k, "*", read);
    SpanMeans(text, k, "_", read);
  }

  /** How plain text is rendered from `i` on. Up to the first place where a delimiter gives a span it
      is escaped, character by character. There the first delimiter that gives one, double before
      single and asterisks before underscores, is taken, and rendering goes on behind the span. */
  lemma {:induction false} PlainMeans(text: string, i: nat, j: nat, d: string, read: Reader, math: string -> string)
    requires i <= j < |text| && d in ["**", "__", "*", "_"]
    requires forall k, e | i <= k < j && e in ["**", "__", "*", "_"] :: SpanAt(text, k, e, read).None?
    requires SpanAt(text, j, d, read).Some?
    requires d != "**" ==> SpanAt(text, j, "**", read).None?
    requires d == "*" || d == "_" ==> SpanAt(text, j, "__", read).None?
    requires d == "_" ==> SpanAt(text, j, "*", read).None?
    ensures
      var span := SpanAt(text, j, d, read).value;
      var inner := Latex(Parse(text[j + |d|..span.end - |d|], read), math);
      && j + |d| <= span.end - |d|
      && Latex(PlainFrom(text, i, read), math) ==
         L.EscapeText(text[i..j]) + ((if |d| == 2 then "\\textbf{" else "\\emph{") + inner + "}") +
         Latex(PlainFrom(text, span.end, read), math)
    decreases j - i
  {
    hide SpanAt, Parse, L.EscapeText, Latex, FirstSpan;
    if i == j {
      SpanTaken(text, j, d, read, math);
      NothingWritten(text[j..j]);
    } else {
      PlainMeans(text, i + 1, j, d, read, math);
      NoSpanTaken(text, i, read);
      var next := PlainFrom(text, i + 1, read);
      LatexAppend([Char(text[i])], next, math);
      CharRendered(text[i], math);
      assert text[i..j] == [text[i]] + text[i + 1..j];
      EscapeParts([text[i]], text[i + 1..j]);
    }
  }

  lemma NoSpanTaken(text: string, i: nat, read: Reader)
    requires forall e | e in ["**", "__", "*", "_"] :: SpanAt(text, i, e, read).None?
    ensures FirstSpan(text, i, read).None?
  {
    hide SpanAt;
  }

  lemma TakenFirst(text: string, j: nat, d: string, read: Reader)
    requires d in ["**", "__", "*", "_"] && SpanAt(text, j, d, read).Some?
    requires d != "**" ==> SpanAt(text, j, "**", read).None?
    requires d == "*" || d == "_" ==> SpanAt(text, j, "__", read).None?
    requires d == "_" ==> SpanAt(text, j, "*", read).None?
    ensures FirstSpan(text, j, read) == SpanAt(text, j, d, read)
  {
    hide SpanAt;
  }

  lemma SpanTaken(text: string, j: nat, d: string, read: Reader, math: string -> string)
    requires j < |text| && d in ["**", "__", "*", "_"] && SpanAt(text, j, d, read).Some?
    requires d != "**" ==> SpanAt(text, j, "**", read).None?
    requires d == "*" || d == "_" ==> SpanAt(text, j, "__", read).None?
    requires d == "_" ==> SpanAt(text, j, "*", read).None?
    ensures
      var span := SpanAt(text, j, d, read).value;
      && j + |d| <= span.end - |d|
      && var inner := Latex(Parse(text[j + |d|..span.end - |d|], read), math);
      Latex(PlainFrom(text, j, read), math) ==
        (if |d| == 2 then "\\textbf{" else "\\emph{") + inner + "}" + Latex(PlainFrom(text, span.end, read), math)
  {
    hide SpanAt, Parse, Latex, FirstSpan, OpensHere, ClosesHere;
    SpanMeans(text, j, d, read);
    var span := SpanAt(text, j, d, read).value;
    TakenFirst(text, j, d, read);
    var inner := Parse(text[j + |d|..span.end - |d|], read);
    SpanRendered(d, inner, math);
    LatexAppend([Emphasised(d, inner)], PlainFrom(text, span.end, read), math);
  }

  lemma NothingWritten(s: string)
    requires s == ""
    ensures L.EscapeText(s) == "" && forall t: string :: "" + t == t
  {
    L.EscapeIsMap(s);
  }

  lemma CharRendered(c: char, math: string -> string)
    ensures Latex([Char(c)], math) == L.EscapeText([c])
  {
    hide L.EscapeText;
    assert [Char(c)][1..] == [] && L.EscapeText([c]) + "" == L.EscapeText([c]);
  }

  // ---------------------------------------------------------------- words

  predicate Word(s: string) {
    s != "" && forall c <- s :: Alphanumeric(c)
  }

  /** Made of words and delimiters. */
  predicate Simple(s: string) {
    forall c <- s :: Alphanumeric(c) || c == '*' || c == '_'
  }

  lemma NoTokenInside(text: string, k: nat)
    requires Simple(text) && k < |text|
    ensures SCANNER(text, k).None?
  {
    assert text[k] in text;
    forall j | 0 <= j < |text| ensures Lower(text[j]) != ':' {
      assert text[j] in text;
    }
    assert "https://"[5] == ':' && "http://"[4] == ':';
  }

  lemma {:induction false} WordStays(w: string)
    requires forall c <- w :: Alphanumeric(c)
    ensures L.EscapeText(w) == w
  {
    hide L.EscapeText, L.Code;
    L.EscapeIsMap("");
    if w != "" {
      assert w[0] in w && forall c <- w[1..] :: c in w;
      WordStays(w[1..]);
      assert w == [w[0]] + w[1..];
      EscapeParts([w[0]], w[1..]);
      L.EscapeIsMap([w[0]]);
      M.MapOne(w[0]);
      M.CodeTable(w[0]);
    }
  }

  lemma DelimiterNotInWord(text: string, k: nat, d: string)
    requires k < |text| && Alphanumeric(text[k]) && d in ["**", "__", "*", "_"]
    ensures !OpensHere(text, k, d) && !ClosesHere(text, k, d)
  {
    if k + |d| <= |text| {
      assert text[k..k + |d|][0] == text[k] && (d[0] == '*' || d[0] == '_');
    }
  }

  lemma WordRendered(w: string, math: string -> string)
    requires Word(w)
    ensures Latex(Parse(w, SCANNER), math) == w
  {
    hide OpensHere, ClosesHere;
    forall k | 0 <= k < |w|
      ensures
        && SCANNER(w, k).None?
        && !OpensHere(w, k, "**") && !OpensHere(w, k, "__") && !OpensHere(w, k, "*") && !OpensHere(w, k, "_")
    {
      assert w[k] in w;
      NoTokenInside(w, k);
      DelimiterNotInWord(w, k, "**");
      DelimiterNotInWord(w, k, "__");
      DelimiterNotInWord(w, k, "*");
      DelimiterNotInWord(w, k, "_");
    }
    PlainIsEscaped(w, SCANNER, math);
    WordStays(w);
  }

  lemma WordCloses(d: string, w: string)
    requires Word(w) && d in ["**", "__", "*", "_"]
    ensures Closing(d + w + d, |d|, d, SCANNER) == Some(|d| + |w|)
  {
    hide Closing, SCANNER, IsSpace, Simple, ClosesHere, Word;
    var text, n := d + w + d, |d| + |w|;
    ClosesThere(d, w);
    forall k | |d| <= k < n ensures text[k] != '\\' && SCANNER(text, k).None? && !ClosesHere(text, k, d) {
      PassesOver(d, w, k);
    }
    ClosingMeans(text, |d|, d, SCANNER, n);
  }

  lemma ClosesThere(d: string, w: string)
    requires Word(w) && d in ["**", "__", "*", "_"]
    ensures
      var text, n := d + w + d, |d| + |w|;
      n < |text| && text[n] != '\\' && SCANNER(text, n).None? && ClosesHere(text, n, d)
  {
    hide SCANNER, IsSpace, Simple;
    var text, n := d + w + d, |d| + |w|;
    Surrounded(d, w);
    assert w[|w| - 1] in w;
    NotSpace(w[|w| - 1]);
    NoTokenInside(text, n);
  }

  lemma PassesOver(d: string, w: string, k: nat)
    requires Word(w) && d in ["**", "__", "*", "_"] && |d| <= k < |d| + |w|
    ensures var text := d + w + d; text[k] != '\\' && SCANNER(text, k).None? && !ClosesHere(text, k, d)
  {
    hide SCANNER, IsSpace, Simple, ClosesHere, OpensHere;
    var text := d + w + d;
    Surrounded(d, w);
    assert text[k] == w[k - |d|] && w[k - |d|] in w;
    NoTokenInside(text, k);
    DelimiterNotInWord(text, k, d);
  }

  lemma WordOpens(d: string, w: string)
    requires Word(w) && d in ["**", "__", "*", "_"]
    ensures OpensHere(d + w + d, 0, d)
  {
    hide IsSpace, Simple;
    Surrounded(d, w);
    assert w[0] in w;
    NotSpace(w[0]);
  }

  lemma WordSpan(d: string, w: string)
    requires Word(w) && d in ["**", "__", "*", "_"]
    ensures SpanAt(d + w + d, 0, d, SCANNER) == Some(Span(|d + w + d|, Emphasised(d, Parse(w, SCANNER))))
  {
    hide Parse, Closing, IsSpace, Simple, SCANNER;
    Surrounded(d, w);
    WordCloses(d, w);
    WordOpens(d, w);
    SpanMeans(d + w + d, 0, d, SCANNER);
  }

  lemma Surrounded(d: string, w: string)
    requires Word(w) && d in ["**", "__", "*", "_"]
    ensures
      var text, n := d + w + d, |d| + |w|;
      && text[0..|d|] == d && text[n..n + |d|] == d && text[|d|..n] == w
      && text[|d|] == w[0] && text[n - 1] == w[|w| - 1] && (text[n] == '*' || text[n] == '_')
      && Simple(text)
  {
  }

  lemma NotSpace(c: char)
    requires Alphanumeric(c)
    ensures !IsSpace(c)
  {
  }

  /** The delimiter tried first that stands at the beginning is the right one. */
  lemma WordFirstSpan(d: string, w: string)
    requires Word(w) && d in ["**", "__", "*", "_"]
    ensures FirstSpan(d + w + d, 0, SCANNER) == SpanAt(d + w + d, 0, d, SCANNER)
  {
    hide SpanAt, Parse;
    var text := d + w + d;
    WordSpan(d, w);
    assert w[0] in w && text[0] == d[0] && text[1] == (if |d| == 2 then d[1] else w[0]);
    Mismatch(text, "**");
    Mismatch(text, "__");
    Mismatch(text, "*");
    Mismatch(text, "_");
  }

  lemma Mismatch(text: string, e: string)
    requires |text| >= 2 && e in ["**", "__", "*", "_"]
    ensures text[0] != e[0] || (|e| == 2 && text[1] != e[1]) ==> SpanAt(text, 0, e, SCANNER) == None
  {
    if |e| <= |text| {
      assert text[0..|e|][0] == text[0] && (|e| == 2 ==> text[0..|e|][1] == text[1]);
    }
  }

  /** A word between two delimiters is set in bold type, or emphasised, and nothing else is written. */
  lemma WordEmphasis(d: string, w: string, math: string -> string)
    requires Word(w) && d in ["**", "__", "*", "_"]
    ensures d == "**" || d == "__" ==> Latex(Parse(d + w + d, SCANNER), math) == "\\textbf{" + w + "}"
    ensures d == "*" || d == "_" ==> Latex(Parse(d + w + d, SCANNER), math) == "\\emph{" + w + "}"
  {
    hide Parse, FirstSpan, SpanAt, Latex, NodeLatex, SCANNER;
    var text := d + w + d;
    assert Simple(text);
    forall k | 0 <= k < |text| ensures SCANNER(text, k).None? {
      NoTokenInside(text, k);
    }
    NoToken(text, SCANNER);
    WordFirstSpan(d, w);
    WordSpan(d, w);
    WordRendered(w, math);
    var node := Emphasised(d, Parse(w, SCANNER));
    assert PlainFrom(text, 0, SCANNER) == [node] + PlainFrom(text, |text|, SCANNER);
    assert PlainFrom(text, |text|, SCANNER) == [] && [node] + [] == [node];
    SpanRendered(d, Parse(w, SCANNER), math);
  }

  lemma SpanRendered(d: string, inner: seq<Node>, math: string -> string)
    ensures d == "**" || d == "__" ==> Latex([Emphasised(d, inner)], math) == "\\textbf{" + Latex(inner, math) + "}"
    ensures d == "*" || d == "_" ==> Latex([Emphasised(d, inner)], math) == "\\emph{" + Latex(inner, math) + "}"
  {
    var node := Emphasised(d, inner);
    assert [node][1..] == [] && NodeLatex(node, math) + "" == NodeLatex(node, math);
    assert d == "**" || d == "__" || d == "*" || d == "_" ==>
             NodeLatex(node, math) == "\\" + CommandName(d) + "{" + Latex(inner, math) + "}";
  }

  /** Underscores inside and at the end of a word open nothing: they are written as they are. */
  lemma SnakeCase(v: string, w: string, math: string -> string)
    requires Word(v) && Word(w)
    ensures Latex(Parse(v + "_" + w + "_", SCANNER), math) == v + "\\_" + w + "\\_"
  {
    hide OpensHere, ClosesHere, Parse;
    var text := v + "_" + w + "_";
    assert Simple(text);
    forall k | 0 <= k < |text|
      ensures
        && SCANNER(text, k).None?
        && !OpensHere(text, k, "**") && !OpensHere(text, k, "__") && !OpensHere(text, k, "*")
        && !OpensHere(text, k, "_")
    {
      NoTokenInside(text, k);
      SnakeOpensNothing(v, w, k);
    }
    PlainIsEscaped(text, SCANNER, math);
    EscapeParts(v + "_" + w, "_");
    EscapeParts(v + "_", w);
    EscapeParts(v, "_");
    WordStays(v);
    WordStays(w);
    M.EscapeTable("", '_', "");
    assert "" + ['_'] + "" == "_" && "" + ("\\" + ['_']) + "" == "\\_";
  }

  lemma SnakeOpensNothing(v: string, w: string, k: nat)
    requires Word(v) && Word(w) && k < |v + "_" + w + "_"|
    ensures
      var text := v + "_" + w + "_";
      !OpensHere(text, k, "**") && !OpensHere(text, k, "__") && !OpensHere(text, k, "*") && !OpensHere(text, k, "_")
  {
    var text := v + "_" + w + "_";
    assert v[|v| - 1] in v && w[0] in w;
    assert text[|v| - 1] == v[|v| - 1] && text[|v|] == '_' && text[|v| + 1] == w[0];
    if k < |v| {
      assert text[k] == v[k] && v[k] in v;
    } else if |v| < k < |text| - 1 {
      assert text[k] == w[k - |v| - 1] && w[k - |v| - 1] in w;
    }
    if Alphanumeric(text[k]) {
      DelimiterNotInWord(text, k, "**");
      DelimiterNotInWord(text, k, "__");
      DelimiterNotInWord(text, k, "*");
      DelimiterNotInWord(text, k, "_");
    }
  }

  // ---------------------------------------------------------------- code spans

  /** A span between equally long backtick fences, with something other than a backtick first. */
  ghost predicate FencedSpan(raw: string) {
    exists n: nat, inner :: n > 0 && inner != "" && inner[0] != '`' && raw == Repeat('`', n) + inner + Repeat('`', n)
  }

  /** Such a span is written in typewriter type without its fences, and any other as it is. */
  lemma CodeSpanMeans(raw: string, n: nat, inner: string)
    ensures n > 0 && inner != "" && inner[0] != '`' && raw == Repeat('`', n) + inner + Repeat('`', n) ==>
            CodeLatex(raw) == "\\texttt{" + L.EscapeText(inner) + "}"
    ensures !FencedSpan(raw) ==> CodeLatex(raw) == L.EscapeText(raw)
  {
    hide L.EscapeText;
    if n > 0 && inner != "" && inner[0] != '`' && raw == Repeat('`', n) + inner + Repeat('`', n) {
      var rest := inner + Repeat('`', n);
      assert raw == Repeat('`', n) + rest;
      LeadRepeat('`', n, rest);
      assert rest[0] == inner[0] && Lead(rest, '`') == 0;
      assert raw[n..|raw| - n] == inner && raw[|raw| - n..] == Repeat('`', n);
    }
    var k := Lead(raw, '`');
    if k > 0 && |raw| >= k * 2 && raw[|raw| - k..] == Repeat('`', k) {
      SplitFences(raw, k);
    }
  }

  lemma SplitFences(raw: string, k: nat)
    requires k == Lead(raw, '`') > 0 && |raw| >= k * 2 && raw[|raw| - k..] == Repeat('`', k)
    ensures FencedSpan(raw)
  {
    hide Lead;
    LeadSplit(raw, '`');
    var fence, inner := Repeat('`', k), raw[k..|raw| - k];
    assert raw[|raw| - k..][0] == raw[|raw| - k] == '`';
    assert raw[k] != '`';
    Parts(raw, fence, k);
    assert raw == fence + inner + fence && inner[0] == raw[k];
  }

  lemma Parts(raw: string, fence: string, k: nat)
    requires 2 * k <= |raw| && raw[..k] == fence && raw[|raw| - k..] == fence
    ensures raw == fence + raw[k..|raw| - k] + fence
  {
  }
}
