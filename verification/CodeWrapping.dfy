/** Wrapping a source file into one fenced block, and recovering it with the normaliser's rules. */
module CodeWrapping {
  import opened Wrappers
  import opened Texts
  import opened Fences
  import opened FenceTheorems
  import F = FenceSyntax

  /** The text that is fenced. */
  function Source(code: string): string {
    TrimEnd(DropCR(code))
  }

  function WrapChar(source: string): char {
    var backticks, tildes := LongestRun(source, '`'), LongestRun(source, '~');
    if backticks == 0 && tildes == 0 then '`'
    else if tildes < backticks then '~'
    else if backticks < tildes then '`'
    else if backticks > 0 then '~'
    else '`'
  }

  function WrapMarker(source: string): string {
    Repeat(WrapChar(source), Needed(source, WrapChar(source)))
  }

  function Header(name: Option<string>): string {
    match name
    case None => ""
    case Some(n) => "# " + n + "\n\n"
  }

  function FencedCode(source: string, language: string): string {
    WrapMarker(source) + language + "\n" + source + "\n" + WrapMarker(source)
  }

  /** `language` is the normalised language, `name` the base name of the file, if there is one. */
  function Wrap(code: string, language: string, name: Option<string>): string {
    Header(name) + FencedCode(Source(code), language)
  }

  method WrapCodeAsMarkdown(code: string, language: string, name: Option<string>) returns (wrapped: string)
    ensures wrapped == Wrap(code, language, name)
  {
    var header := if name.Some? then "# " + name.value + "\n\n" else "";
    var source := TrimEnd(DropCR(code));
    var maxBackticks := GetLongestFenceRun(source, '`');
    var maxTildes := GetLongestFenceRun(source, '~');
    var markerChar := '`';
    if maxBackticks == 0 && maxTildes == 0 {
      markerChar := '`';
    } else if maxTildes < maxBackticks {
      markerChar := '~';
    } else if maxBackticks < maxTildes {
      markerChar := '`';
    } else {
      markerChar := if maxBackticks > 0 then '~' else '`';
    }
    var markerLength := Max(3, (if markerChar == '`' then maxBackticks else maxTildes) + 1);
    var marker := Repeat(markerChar, markerLength);
    wrapped := header + (marker + language + "\n" + source + "\n" + marker);
  }

  /** The wrapped text: the heading, if there is a name, and between two equal fences the code
      with its line ends normalised and without the white space at its end. No run in the code
      reaches the fence, and no shorter fence of its character would do. It is of backticks
      exactly when the code has no fence character at all, or a run of tildes that is longer than
      all runs of backticks. */
  lemma WrapMeans(code: string, language: string, name: string)
    returns (source: string, tail: string, mark: char, length: nat)
    ensures DropCR(code) == source + tail && (forall c <- tail :: IsSpace(c))
    ensures source == "" || !IsSpace(source[|source| - 1])
    ensures
      var block := Repeat(mark, length) + language + "\n" + source + "\n" + Repeat(mark, length);
      Wrap(code, language, None) == block && Wrap(code, language, Some(name)) == "# " + name + "\n\n" + block
    ensures F.Holds(mark, length, source) && (length > 3 ==> F.HasRun(source, mark, length - 1))
    ensures mark == '`' <==> ('`' !in source && '~' !in source) ||
                             exists n: nat :: F.HasRun(source, '~', n) && !F.HasRun(source, '`', n)
  {
    hide TrimEnd, DropCR, Repeat, LongestRun, F.HasRun;
    source := Source(code);
    tail := TrimEndSplit(DropCR(code));
    mark := WrapChar(source);
    length := Needed(source, mark);
    F.NeededMeans(source, mark, length);
    if length > 3 {
      F.LongestRunMeans(source, mark, length - 1);
    }
    var block := FencedCode(source, language);
    assert "" + block == block;
    LongerTildes(source);
  }

  lemma LongerTildes(source: string)
    ensures LongestRun(source, '~') == 0 <==> '~' !in source
    ensures LongestRun(source, '`') == 0 <==> '`' !in source
    ensures LongestRun(source, '`') < LongestRun(source, '~') <==>
            exists n: nat :: F.HasRun(source, '~', n) && !F.HasRun(source, '`', n)
  {
    hide LongestRun, F.HasRun;
    F.RunOfOne(source, '~');
    F.RunOfOne(source, '`');
    F.LongestRunMeans(source, '~', 1);
    F.LongestRunMeans(source, '`', 1);
    F.LongestRunMeans(source, '~', LongestRun(source, '~'));
    F.LongestRunMeans(source, '`', LongestRun(source, '~'));
    if n: nat :| F.HasRun(source, '~', n) && !F.HasRun(source, '`', n) {
      F.LongestRunMeans(source, '~', n);
      F.LongestRunMeans(source, '`', n);
    }
  }

  // ---------------------------------------------------------------- the round trip

  /** What trimming leaves of a language tag. */
  predicate Trimmed(s: string) {
    s == "" || (!IsSpace(s[0]) && !IsSpace(s[|s| - 1]))
  }

  /** The tag is one line and does not begin with the marker, and the code has no carriage
      return before a CRLF. */
  predicate Recoverable(code: string, language: string) {
    OneLine(language) && Lead(language, WrapChar(Source(code))) == 0 && !HasCRLF(Source(code))
  }

  function WrappedLines(code: string, language: string): seq<string> {
    [WrapMarker(Source(code)) + language] + Split(Source(code)) + [WrapMarker(Source(code))]
  }

  lemma {:induction false} TrimEndTrims(s: string)
    ensures TrimEnd(s) == "" || !IsSpace(TrimEnd(s)[|TrimEnd(s)| - 1])
  {
    if s != "" && IsSpace(s[|s| - 1]) {
      TrimEndTrims(s[..|s| - 1]);
    }
  }

  lemma MarkerText(c: char, n: nat)
    requires IsFence(c)
    ensures OneLine(Repeat(c, n)) && !EndsCR(Repeat(c, n))
  {
  }

  lemma Unindented(c: char, n: nat, suffix: string)
    ensures FenceLine("", c, n, suffix) == Repeat(c, n) + suffix && FenceLine("", c, n, "") == Repeat(c, n)
  {
    assert "" + Repeat(c, n) == Repeat(c, n);
  }

  /** The lines that delimit the block, as the normaliser parses them. */
  predicate Delimits(c: char, n: nat, marker: string, language: string) {
    && n >= 3 && IsFence(c)
    && ParseOpening(marker + language) == Some(Opening("", c, n + Lead(language, c), language[Lead(language, c)..]))
    && ParseOpening(marker) == Some(Opening("", c, n, ""))
  }

  lemma MarkerParse(c: char, n: nat, language: string)
    requires IsFence(c) && n >= 3
    ensures Delimits(c, n, Repeat(c, n), language)
  {
    Unindented(c, n, language);
    ParseWritten("", c, n, language);
    ParseWritten("", c, n, "");
    assert ""[0..] == "";
  }

  lemma WrapMarkerLines(source: string, language: string)
    ensures Delimits(WrapChar(source), Needed(source, WrapChar(source)), WrapMarker(source), language)
    ensures LongestRun(source, WrapChar(source)) < Needed(source, WrapChar(source))
  {
    MarkerParse(WrapChar(source), Needed(source, WrapChar(source)), language);
  }

  lemma JoinWrapped(code: string, language: string)
    ensures Join(WrappedLines(code, language)) == Wrap(code, language, None)
  {
    var source, marker := Source(code), WrapMarker(Source(code));
    JoinSplit(source);
    JoinAppend([marker + language] + Split(source), [marker]);
    JoinAppend([marker + language], Split(source));
    assert marker + language + "\n" + source + "\n" + marker == Wrap(code, language, None);
  }

  /** The wrapped text splits into the opening, the source's lines and the closing. */
  lemma WrappedSplit(code: string, language: string)
    requires Trimmed(language) && Recoverable(code, language)
    ensures Split(DropCR(Wrap(code, language, None))) == WrappedLines(code, language)
    ensures !HasCRLF(Wrap(code, language, None))
  {
    var source, marker := Source(code), WrapMarker(Source(code));
    var lines := WrappedLines(code, language);
    TrimEndTrims(DropCR(code));
    JoinWrapped(code, language);
    MarkerText(WrapChar(source), Needed(source, WrapChar(source)));
    OneLineAppend(marker, language);
    forall k | 0 <= k < |Split(source)| ensures !EndsCR(Split(source)[k]) {
      SourceLines(source, k);
    }
    Surround(marker + language, Split(source), marker);
    JoinCRLF(lines);
    DropCRIdle(Join(lines));
    SplitJoin(lines);
  }

  lemma OneLineAppend(a: string, b: string)
    requires OneLine(a) && OneLine(b) && !EndsCR(a) && !EndsCR(b)
    ensures OneLine(a + b) && !EndsCR(a + b)
  {
  }

  lemma Surround(first: string, middle: seq<string>, last: string)
    requires OneLine(first) && OneLine(last) && Lines(middle)
    requires !EndsCR(first) && forall k | 0 <= k < |middle| :: !EndsCR(middle[k])
    ensures Lines([first] + middle + [last])
    ensures forall k | 0 <= k < |middle| + 1 :: !EndsCR(([first] + middle + [last])[k])
  {
  }

  /** No line of a CRLF-free, right-trimmed text ends in a carriage return. */
  lemma SourceLines(source: string, k: nat)
    requires !HasCRLF(source) && k < |Split(source)|
    requires source == "" || !IsSpace(source[|source| - 1])
    ensures !EndsCR(Split(source)[k])
  {
    JoinSplit(source);
    var ls := Split(source);
    if EndsCR(ls[k]) {
      if k + 1 < |ls| {
        JoinCRLFBack(ls, k);
      } else {
        LastOfJoin(ls);
      }
    }
  }

  lemma {:induction false} LastOfJoin(ls: seq<string>)
    requires ls != [] && ls[|ls| - 1] != ""
    ensures Join(ls) != "" && Join(ls)[|Join(ls)| - 1] == ls[|ls| - 1][|ls[|ls| - 1]| - 1]
  {
    if |ls| > 1 {
      LastOfJoin(ls[1..]);
    }
  }

  /** The wrapped lines scan as one block, and the normaliser leaves them alone. */
  lemma WrappedScan(code: string, language: string)
    requires Lead(language, WrapChar(Source(code))) == 0
    ensures
      var s := Fenced(WrapMarker(Source(code)) + language, Split(Source(code)), WrapMarker(Source(code)));
      && Scan(WrappedLines(code, language)) == [s] && !Overflows(s)
      && ShapeOf(s) == Block(language, Split(Source(code)))
      && NormalizeLines(WrappedLines(code, language)) == WrappedLines(code, language)
  {
    var source := Source(code);
    var s := Fenced(WrapMarker(source) + language, Split(source), WrapMarker(source));
    WrapMarkerLines(source, language);
    JoinSplit(source);
    NoCloserInside(s.content, WrapChar(source), Needed(source, WrapChar(source)));
    ScanFenced(s, []);
    assert Unscan(s) + [] == WrappedLines(code, language);
    assert language[0..] == language;
    RewriteAllIdle([s]);
    ScanKeepsLines(WrappedLines(code, language));
  }

  // ---------------------------------------------------------------- only then

  lemma CRLFInside(a: string, b: string, c: string)
    requires HasCRLF(b)
    ensures HasCRLF(a + b + c)
  {
    var i :| 0 <= i < |b| - 1 && b[i] == '\r' && b[i + 1] == '\n';
    assert (a + b + c)[|a| + i] == '\r' && (a + b + c)[|a| + i + 1] == '\n';
  }

  lemma FirstOfText(first: string, rest: string)
    requires OneLine(first) && !EndsCR(first)
    ensures Split(DropCR(first + "\n" + rest))[0] == first
  {
    DropCRHead(first, rest);
    SplitHead(first, DropCR(rest));
  }

  /** A tag of one line stays on the first line. */
  lemma FirstLine(code: string, language: string)
    requires Trimmed(language) && OneLine(language)
    ensures Split(DropCR(Wrap(code, language, None)))[0] == WrapMarker(Source(code)) + language
  {
    var source, marker := Source(code), WrapMarker(Source(code));
    var first, rest := marker + language, source + "\n" + marker;
    MarkerText(WrapChar(source), Needed(source, WrapChar(source)));
    OneLineAppend(marker, language);
    FirstOfText(first, rest);
    assert Wrap(code, language, None) == first + "\n" + rest;
  }

  /** Scanning the wrapped text finds one block: this language, this source. */
  predicate Recovered(code: string, language: string) {
    Shapes(Scan(Split(DropCR(Wrap(code, language, None))))) == [Block(language, Split(Source(code)))]
  }

  /** A document of one shape is one block. */
  lemma OnlyBlock(lines: seq<string>, info: string, content: seq<string>)
    requires Shapes(Scan(lines)) == [Block(info, content)]
    ensures
      var s := Scan(lines)[0];
      && s.Fenced? && WellFenced(s) && ShapeOf(s) == Block(info, content)
      && lines == Unscan(s)
  {
    ScanCases(lines);
    var s, later := Scan(lines)[0], Later(lines);
    ShapesCons(s, Scan(later));
    NoShapes(Scan(later), ShapeOf(s), Block(info, content));
    ScanKeepsLines(later);
    assert Unscan(s) + [] == Unscan(s);
  }

  lemma NoShapes(rest: seq<Segment>, a: Shape, b: Shape)
    requires [a] + Shapes(rest) == [b]
    ensures rest == [] && a == b
  {
    assert ([a] + Shapes(rest))[1..] == Shapes(rest) && ([a] + Shapes(rest))[0] == a;
  }

  lemma SuffixOneLine(line: string)
    requires OneLine(line) && ParseOpening(line).Some?
    ensures OneLine(ParseOpening(line).value.suffix)
  {
    ParsedLine(line);
    forall x <- ParseOpening(line).value.suffix ensures x != '\n' { assert x in line; }
  }

  /** The opening line is the written one, and its tag was not shortened. */
  lemma OpeningIs(s: Segment, code: string, language: string)
    requires Trimmed(language) && WellFenced(s) && OneLine(s.opening)
    requires ParseOpening(s.opening).value.suffix == language
    requires OneLine(language) ==> s.opening == WrapMarker(Source(code)) + language
    ensures OneLine(language) && Lead(language, WrapChar(Source(code))) == 0
    ensures Closes(s.closing, WrapChar(Source(code)), Needed(Source(code), WrapChar(Source(code))))
  {
    SuffixOneLine(s.opening);
    WrapMarkerLines(Source(code), language);
    assert |language[Lead(language, WrapChar(Source(code)))..]| == |language|;
  }

  lemma RecoveredOnlyIf(code: string, language: string)
    requires Trimmed(language)
    ensures Recovered(code, language) ==> Recoverable(code, language)
  {
    hide Wrap, Source;
    if Recovered(code, language) {
      var lines := Split(DropCR(Wrap(code, language, None)));
      OnlyBlock(lines, language, Split(Source(code)));
      var s := Scan(lines)[0];
      BlockLines(s, language, Split(Source(code)));
      if OneLine(language) {
        FirstLine(code, language);
      }
      OpeningIs(s, code, language);
      ClosingKeepsLength(code, language, s.closing);
    }
  }

  lemma BlockLines(s: Segment, info: string, content: seq<string>)
    requires WellFenced(s) && ShapeOf(s) == Block(info, content)
    ensures Unscan(s) == [s.opening] + content + [s.closing] && Unscan(s)[0] == s.opening
    ensures ParseOpening(s.opening).value.suffix == info
  {
  }

  /** The closing line is at least as long as the marker, so no carriage return was dropped. */
  lemma ClosingKeepsLength(code: string, language: string, closing: string)
    requires Lead(language, WrapChar(Source(code))) == 0
    requires Closes(closing, WrapChar(Source(code)), Needed(Source(code), WrapChar(Source(code))))
    requires Split(DropCR(Wrap(code, language, None))) ==
             [WrapMarker(Source(code)) + language] + Split(Source(code)) + [closing]
    ensures !HasCRLF(Source(code))
  {
    var text := Wrap(code, language, None);
    var source, marker := Source(code), WrapMarker(Source(code));
    ParsedLine(closing);
    JoinSplit(DropCR(text));
    JoinSplit(source);
    JoinAppend([marker + language] + Split(source), [closing]);
    JoinAppend([marker + language], Split(source));
    assert |DropCR(text)| >= |text|;
    DropCRIdle(text);
    assert text == marker + language + "\n" + source + ("\n" + marker);
    if HasCRLF(source) {
      CRLFInside(marker + language + "\n", source, "\n" + marker);
    }
  }

  /** The source comes back exactly when the tag is one line that does not begin with the
      marker and the code has no carriage return before a CRLF; the normaliser then leaves the
      wrapped text alone. */
  lemma WrapRoundTrip(code: string, language: string)
    requires Trimmed(language)
    ensures Recovered(code, language) <==> Recoverable(code, language)
    ensures Recoverable(code, language) ==> Normalize(Wrap(code, language, None)) == Wrap(code, language, None)
    ensures Join(Split(Source(code))) == Source(code)
  {
    JoinSplit(Source(code));
    if Recoverable(code, language) {
      WrappedSplit(code, language);
      WrappedScan(code, language);
      JoinWrapped(code, language);
      DropCRIdle(Wrap(code, language, None));
      var s := Scan(WrappedLines(code, language));
      ShapesCons(s[0], []);
      assert [s[0]] + [] == s;
    } else {
      RecoveredOnlyIf(code, language);
    }
  }

  // ---------------------------------------------------------------- the file name above the block

  /** The heading and the empty line below it, as the scan gets them. */
  function HeadingLines(name: string): seq<string> {
    DropEnds(Split("# " + name) + [""])
  }

  /** No line of the heading opens a block that a later line closes. */
  predicate HeadPlain(head: seq<string>, bare: seq<string>) {
    head == [] || (StaysPlain(head[0], head[1..] + bare) && HeadPlain(head[1..], bare))
  }

  function PlainShapes(n: nat): seq<Shape> {
    seq(n, _ => Line)
  }

  lemma PlainShapesCons(n: nat, rest: seq<Shape>)
    ensures PlainShapes(n + 1) + rest == [Line] + (PlainShapes(n) + rest)
  {
    assert PlainShapes(n + 1) == [Line] + PlainShapes(n);
  }

  lemma SameTail<T>(head: seq<T>, a: seq<T>, b: seq<T>)
    ensures head + a == head + b <==> a == b
  {
    assert (head + a)[|head|..] == a && (head + b)[|head|..] == b;
  }

  /** Lines above a document change none of its shapes exactly when they stay plain. */
  lemma {:induction false} PlainAbove(head: seq<string>, bare: seq<string>, shapes: seq<Shape>)
    ensures Shapes(Scan(head + bare)) == PlainShapes(|head|) + shapes <==>
            HeadPlain(head, bare) && Shapes(Scan(bare)) == shapes
    ensures HeadPlain(head, bare) ==> NormalizeLines(head + bare) == head + NormalizeLines(bare)
  {
    hide StaysPlain, Shapes, Scan, NormalizeLines;
    if head == [] {
      assert head + bare == bare && PlainShapes(0) + shapes == shapes;
      assert [] + NormalizeLines(bare) == NormalizeLines(bare);
    } else {
      var rest := head[1..] + bare;
      assert head + bare == [head[0]] + rest;
      PlainShapesCons(|head| - 1, shapes);
      PlainAbove(head[1..], bare, shapes);
      if StaysPlain(head[0], rest) {
        PlainFirst(head[0], rest);
        SameTail([Line], Shapes(Scan(rest)), PlainShapes(|head| - 1) + shapes);
        assert head == [head[0]] + head[1..];
        Associate([head[0]], head[1..], NormalizeLines(bare));
      } else {
        ReopenedIsLost(head[0], rest);
        FirstShape(Scan([head[0]] + rest));
      }
    }
  }

  lemma PlainFirst(line: string, rest: seq<string>)
    requires StaysPlain(line, rest)
    ensures Shapes(Scan([line] + rest)) == [Line] + Shapes(Scan(rest))
    ensures NormalizeLines([line] + rest) == [line] + NormalizeLines(rest)
  {
    ScanPlain(line, rest);
    ShapesCons(Plain(line), Scan(rest));
    assert RewriteAll([Plain(line)] + Scan(rest))[1..] == RewriteAll(Scan(rest));
  }

  lemma FirstShape(segments: seq<Segment>)
    requires segments != []
    ensures Shapes(segments) != [] && Shapes(segments)[0] == ShapeOf(segments[0])
  {
  }

  lemma DropEndsAppend(a: seq<string>, b: seq<string>)
    requires a != [] && b != [] && !EndsCR(a[|a| - 1])
    ensures DropEnds(a + b) == DropEnds(a) + DropEnds(b)
  {
    hide DropEnds, EndsCR;
    forall k | 0 <= k < |a| + |b| ensures DropEnds(a + b)[k] == (DropEnds(a) + DropEnds(b))[k] {
      DropEndsAt(a + b, k);
      if k < |a| {
        DropEndsAt(a, k);
      } else {
        DropEndsAt(b, k - |a|);
      }
    }
  }

  /** The lines of a wrapped file with a heading. */
  lemma HeadedLines(code: string, language: string, name: string)
    ensures Split(DropCR(Wrap(code, language, Some(name)))) ==
            HeadingLines(name) + Split(DropCR(Wrap(code, language, None)))
  {
    hide DropEnds, FencedCode, Split, DropCR, Join;
    HeadedText(code, language, name);
    HeadingSplit("# " + name, Wrap(code, language, None));
  }

  lemma HeadedText(code: string, language: string, name: string)
    ensures Wrap(code, language, Some(name)) == ("# " + name) + "\n\n" + Wrap(code, language, None)
  {
    hide FencedCode;
    var block := FencedCode(Source(code), language);
    assert "" + block == block;
  }

  lemma HeadingSplit(head: string, text: string)
    ensures Split(DropCR(head + "\n\n" + text)) == DropEnds(Split(head) + [""]) + Split(DropCR(text))
  {
    hide DropEnds, Split, DropCR, Join;
    var above, below := Split(head) + [""], Split(text);
    JoinSplit(head);
    JoinSplit(text);
    JoinHeaded(Split(head), below);
    BothLines(Split(head), below);
    DropCRLines(above + below);
    DropCRLines(below);
    DropEndsAppend(above, below);
  }

  lemma BothLines(a: seq<string>, b: seq<string>)
    requires Lines(a) && Lines(b)
    ensures Lines(a + [""] + b)
  {
  }

  lemma JoinHeaded(a: seq<string>, b: seq<string>)
    requires a != [] && b != []
    ensures Join(a + [""] + b) == Join(a) + "\n\n" + Join(b)
  {
    JoinAppend(a + [""], b);
    JoinAppend(a, [""]);
    assert Join(a) + "\n" + "" + "\n" + Join(b) == Join(a) + "\n\n" + Join(b);
  }

  /** With a heading the block is found again, below lines that stay plain, exactly when it is
      found without and no line of the heading opens a block; the normaliser then only drops
      carriage returns, so it leaves a text without CRLF alone. */
  lemma HeadedRoundTrip(code: string, language: string, name: string)
    requires Trimmed(language)
    ensures
      var wrapped, head := Wrap(code, language, Some(name)), HeadingLines(name);
      var kept := Recoverable(code, language) && HeadPlain(head, WrappedLines(code, language));
      var shapes := PlainShapes(|head|) + [Block(language, Split(Source(code)))];
      && (Shapes(Scan(Split(DropCR(wrapped)))) == shapes <==> kept)
      && (kept ==> Normalize(wrapped) == DropCR(wrapped) && (Normalize(wrapped) == wrapped <==> !HasCRLF(wrapped)))
  {
    hide NormalizeLines, Scan, Shapes, HeadPlain, Recoverable, FencedCode, DropEnds, WrappedLines;
    var wrapped, head := Wrap(code, language, Some(name)), HeadingLines(name);
    var bare := Split(DropCR(Wrap(code, language, None)));
    HeadedLines(code, language, name);
    PlainAbove(head, bare, [Block(language, Split(Source(code)))]);
    WrapRoundTrip(code, language);
    if Recoverable(code, language) {
      WrappedSplit(code, language);
      RecoverableLead(code, language);
      WrappedScan(code, language);
      JoinSplit(DropCR(wrapped));
      DropCRIdle(wrapped);
    }
  }

  lemma RecoverableLead(code: string, language: string)
    requires Recoverable(code, language)
    ensures Lead(language, WrapChar(Source(code))) == 0
  {
  }

  /** A name of one line never opens a block. */
  lemma OrdinaryName(name: string, bare: seq<string>)
    requires OneLine(name)
    ensures |HeadingLines(name)| == 2 && HeadPlain(HeadingLines(name), bare)
  {
    var head := "# " + name;
    SplitLine(head);
    var lines := HeadingLines(name);
    TwoEnds(head);
    assert Split(head) + [""] == [head, ""];
    NoFence(head);
    assert lines[1..] == [""] && lines[1..][1..] == [];
  }

  lemma TwoEnds(head: string)
    ensures DropEnds([head, ""]) == [DropEnd(head), ""]
  {
    DropEndsAt([head, ""], 0);
    DropEndsAt([head, ""], 1);
  }

  lemma NoFence(head: string)
    requires |head| > 1 && head[0] == '#'
    ensures ParseOpening(DropEnd(head)).None? && ParseOpening("").None?
  {
  }

  /** A name with a fence on a line of its own: the fence opens a block that the wrapping's own
      marker closes. */
  lemma FenceInName()
    ensures !HeadPlain(HeadingLines("a\n```"), WrappedLines("", ""))
  {
    hide StaysPlain, Split, DropEnds, WrapMarker;
    var head := "# a\n```";
    assert head == "# a" + "\n" + "```" && "# " + "a\n```" == head;
    SplitHead("# a", "```");
    SplitLine("```");
    var lines := HeadingLines("a\n```");
    assert Split(head) + [""] == ["# a", "```", ""];
    FenceAlone(lines);
    MarkerOfNothing();
    var bare := WrappedLines("", "");
    var later := lines[1..][1..] + bare;
    assert lines[1..][0] == "```" && later[1] == bare[0] == "```";
    FenceCloses(later, 1);
  }

  lemma FenceCloses(later: seq<string>, k: nat)
    requires k < |later| && later[k] == "```"
    ensures !StaysPlain("```", later)
  {
    hide ParseOpening;
    assert "```" == Repeat('`', 3) && "```" + "" == "```";
    MarkerParse('`', 3, "");
    assert Closes(later[k], '`', 3);
  }

  lemma FenceAlone(lines: seq<string>)
    requires lines == DropEnds(["# a", "```", ""])
    ensures lines == ["# a", "```", ""]
  {
    var all := ["# a", "```", ""];
    assert all[1..] == ["```", ""] && all[1..][1..] == [""];
  }

  lemma MarkerOfNothing()
    ensures WrapMarker(Source("")) == "```" == Repeat('`', 3) && Source("") == ""
  {
  }
}
