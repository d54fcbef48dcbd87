/**
 * The fence normaliser: it re-fences code blocks whose content contains a run of the fence
 * character as long as the fence itself (a variant of section 4.5 of CommonMark 0.31.2).
 */
module Fences {
  import opened Wrappers
  import opened Texts

  // ---------------------------------------------------------------- fence lines

  datatype Opening = Opening(indent: string, mark: char, length: nat, suffix: string)

  predicate IsFence(c: char) {
    c == '`' || c == '~'
  }

  function Indent(s: string): (r: nat)
    ensures r <= |s| && Blank(s[..r])
  {
    if s == "" || !IsSpace(s[0]) then 0 else
      var r := 1 + Indent(s[1..]);
      assert s[..r] == [s[0]] + s[1..][..r - 1];
      r
  }

  /** `/^(\s{0,3})(`{3,}|~{3,})([^\n]*)$/` on one line. */
  function ParseOpening(line: string): Option<Opening> {
    var n := Indent(line);
    if n > 3 || n == |line| || !IsFence(line[n]) || Lead(line[n..], line[n]) < 3 then None
    else Some(Opening(line[..n], line[n], Lead(line[n..], line[n]), line[n + Lead(line[n..], line[n])..]))
  }

  /** `/^\s{0,3}(`{3,}|~{3,})\s*$/`, with the fence at least as long and of the same character. */
  predicate Closes(line: string, c: char, length: nat) {
    match ParseOpening(line)
    case None => false
    case Some(o) => o.mark == c && o.length >= length && Blank(o.suffix)
  }

  function FenceLine(indent: string, c: char, length: nat, suffix: string): string {
    indent + Repeat(c, length) + suffix
  }

  lemma {:induction false} IndentOf(indent: string, rest: string)
    requires Blank(indent) && (rest == "" || !IsSpace(rest[0]))
    ensures Indent(indent + rest) == |indent|
  {
    if indent == "" {
      assert indent + rest == rest;
    } else {
      assert (indent + rest)[1..] == indent[1..] + rest;
      IndentOf(indent[1..], rest);
    }
  }

  lemma ParseAt(line: string, indent: string, rest: string, c: char, length: nat, suffix: string)
    requires line == indent + rest && Blank(indent) && |indent| <= 3 && rest != "" && rest[0] == c && IsFence(c)
    requires Lead(rest, c) == length >= 3 && rest[length..] == suffix
    ensures ParseOpening(line) == Some(Opening(indent, c, length, suffix))
  {
    var n := |indent|;
    IndentOf(indent, rest);
    assert line[n..] == rest && line[..n] == indent && line[n] == rest[0];
    assert line[n + length..] == rest[length..];
  }

  lemma WrittenRun(c: char, n: nat, suffix: string, k: nat)
    requires k == Lead(suffix, c) && n > 0
    ensures
      var rest := Repeat(c, n) + suffix;
      rest != "" && rest[0] == c && Lead(rest, c) == n + k && rest[n + k..] == suffix[k..]
  {
    LeadRepeat(c, n, suffix);
  }

  /** A written fence line parses back, the fence growing into the suffix. */
  lemma ParseWritten(indent: string, c: char, length: nat, suffix: string)
    requires Blank(indent) && |indent| <= 3 && IsFence(c) && length >= 3
    ensures
      var k := Lead(suffix, c);
      ParseOpening(FenceLine(indent, c, length, suffix)) == Some(Opening(indent, c, length + k, suffix[k..]))
  {
    hide ParseOpening, Lead, Repeat;
    var line, rest, k := FenceLine(indent, c, length, suffix), Repeat(c, length) + suffix, Lead(suffix, c);
    WrittenRun(c, length, suffix, k);
    Associate(indent, Repeat(c, length), suffix);
    ParseAt(line, indent, rest, c, length + k, suffix[k..]);
  }

  lemma ParsedLine(line: string)
    requires ParseOpening(line).Some?
    ensures
      var o := ParseOpening(line).value;
      && line == FenceLine(o.indent, o.mark, o.length, o.suffix)
      && Blank(o.indent) && |o.indent| <= 3 && IsFence(o.mark) && o.length >= 3
      && Lead(o.suffix, o.mark) == 0
      && o.length <= LongestRun(line, o.mark)
  {
    var n := Indent(line);
    LeadSplit(line[n..], line[n]);
    LeadWithin(line, n, line[n]);
    assert line == line[..n] + line[n..];
  }

  // ---------------------------------------------------------------- the scan

  datatype Segment =
    | Plain(line: string)
    | Fenced(opening: string, content: seq<string>, closing: string)

  /** The first line that closes the fence, or the number of lines. */
  function FindClose(lines: seq<string>, c: char, length: nat): (r: nat)
    ensures r <= |lines|
    ensures r < |lines| ==> Closes(lines[r], c, length)
    ensures forall k | 0 <= k < r :: !Closes(lines[k], c, length)
  {
    if lines == [] || Closes(lines[0], c, length) then 0 else 1 + FindClose(lines[1..], c, length)
  }

  lemma {:induction false} FindCloseAt(lines: seq<string>, c: char, length: nat, r: nat)
    requires r <= |lines| && (r < |lines| ==> Closes(lines[r], c, length))
    requires forall k | 0 <= k < r :: !Closes(lines[k], c, length)
    ensures FindClose(lines, c, length) == r
  {
    if r > 0 {
      assert !Closes(lines[0], c, length);
      forall k | 0 <= k < r - 1 ensures !Closes(lines[1..][k], c, length) {
        assert lines[1..][k] == lines[k + 1];
      }
      FindCloseAt(lines[1..], c, length, r - 1);
    }
  }

  /** Plain lines, which include openings that are never closed, and closed blocks. */
  function Scan(lines: seq<string>): seq<Segment> {
    if lines == [] then []
    else
      match ParseOpening(lines[0])
      case None => [Plain(lines[0])] + Scan(lines[1..])
      case Some(o) =>
        var k := FindClose(lines[1..], o.mark, o.length);
        if k == |lines| - 1 then [Plain(lines[0])] + Scan(lines[1..])
        else [Fenced(lines[0], lines[1..k + 1], lines[k + 1])] + Scan(lines[k + 2..])
  }

  function Unscan(segment: Segment): seq<string> {
    match segment
    case Plain(line) => [line]
    case Fenced(opening, content, closing) => [opening] + content + [closing]
  }

  function UnscanAll(segments: seq<Segment>): seq<string> {
    if segments == [] then [] else Unscan(segments[0]) + UnscanAll(segments[1..])
  }

  /** A block as the scan delimits it. */
  predicate WellFenced(s: Segment) {
    s.Fenced? &&
    match ParseOpening(s.opening)
    case None => false
    case Some(o) => Closes(s.closing, o.mark, o.length) && NoCloser(s.content, o.mark, o.length)
  }

  predicate NoCloser(lines: seq<string>, c: char, length: nat) {
    forall k | 0 <= k < |lines| :: !Closes(lines[k], c, length)
  }

  /** A line that opens nothing, or a block that none of the later lines closes. */
  predicate StaysPlain(line: string, later: seq<string>) {
    match ParseOpening(line)
    case None => true
    case Some(o) => NoCloser(later, o.mark, o.length)
  }

  /** The lines after the first segment. */
  function Later(lines: seq<string>): seq<string>
    requires lines != []
  {
    var s := Scan(lines)[0];
    if s.Plain? || |s.content| + 2 > |lines| then lines[1..] else lines[|s.content| + 2..]
  }

  lemma Cut(lines: seq<string>, k: nat)
    requires k + 1 < |lines|
    ensures lines == [lines[0]] + lines[1..k + 1] + [lines[k + 1]] + lines[k + 2..]
    ensures lines[1..][k] == lines[k + 1]
  {
  }

  lemma NoCloserBefore(lines: seq<string>, o: Opening, k: nat)
    requires lines != [] && k == FindClose(lines[1..], o.mark, o.length)
    ensures NoCloser(lines[1..k + 1], o.mark, o.length)
  {
    var content, rest := lines[1..k + 1], lines[1..];
    forall i | 0 <= i < |content| ensures !Closes(content[i], o.mark, o.length) {
      assert content[i] == rest[i];
    }
  }

  lemma ScanBlock(lines: seq<string>, o: Opening, k: nat)
    requires lines != [] && ParseOpening(lines[0]) == Some(o)
    requires k == FindClose(lines[1..], o.mark, o.length) && k < |lines| - 1
    ensures
      var s := Fenced(lines[0], lines[1..k + 1], lines[k + 1]);
      Scan(lines) == [s] + Scan(lines[k + 2..]) && WellFenced(s) && lines == Unscan(s) + lines[k + 2..]
  {
    Cut(lines, k);
    NoCloserBefore(lines, o, k);
    assert Closes(lines[k + 1], o.mark, o.length);
  }

  /** A scanned document begins with a plain line or with a block, and goes on with the scan
      of the later lines. */
  lemma ScanCases(lines: seq<string>)
    requires lines != []
    ensures Scan(lines) == [Scan(lines)[0]] + Scan(Later(lines))
    ensures lines == Unscan(Scan(lines)[0]) + Later(lines)
    ensures match Scan(lines)[0]
            case Plain(line) => StaysPlain(line, Later(lines))
            case Fenced(_, _, _) => WellFenced(Scan(lines)[0])
  {
    if ParseOpening(lines[0]).Some? {
      var o := ParseOpening(lines[0]).value;
      var k := FindClose(lines[1..], o.mark, o.length);
      if k < |lines| - 1 {
        ScanBlock(lines, o, k);
      }
    }
  }

  lemma {:induction false} ScanKeepsLines(lines: seq<string>)
    ensures UnscanAll(Scan(lines)) == lines
    decreases |lines|
  {
    if lines != [] {
      ScanCases(lines);
      ScanKeepsLines(Later(lines));
      assert Scan(lines)[1..] == Scan(Later(lines));
    }
  }

  // ---------------------------------------------------------------- the rewriting

  function Needed(content: string, c: char): nat {
    Max(3, LongestRun(content, c) + 1)
  }

  /** The cheaper fence character; on a tie the tilde. */
  function Marker(content: string): char {
    if Needed(content, '`') < Needed(content, '~') then '`' else '~'
  }

  /** The content has a run of the fence character at least as long as the fence. */
  predicate Overflows(segment: Segment) {
    segment.Fenced? &&
    match ParseOpening(segment.opening)
    case None => false
    case Some(o) => LongestRun(Join(segment.content), o.mark) >= o.length
  }

  function Rewrite(segment: Segment): Segment {
    if !Overflows(segment) then segment
    else
      var o := ParseOpening(segment.opening).value;
      var content := Join(segment.content);
      var c, n := Marker(content), Needed(content, Marker(content));
      Fenced(FenceLine(o.indent, c, n, o.suffix), segment.content, FenceLine(o.indent, c, n, ""))
  }

  function RewriteAll(segments: seq<Segment>): (r: seq<Segment>)
    ensures |r| == |segments|
    ensures forall k | 0 <= k < |r| :: r[k] == Rewrite(segments[k])
  {
    if segments == [] then [] else [Rewrite(segments[0])] + RewriteAll(segments[1..])
  }

  function NormalizeLines(lines: seq<string>): seq<string> {
    UnscanAll(RewriteAll(Scan(lines)))
  }

  function Normalize(markdown: string): string {
    Join(NormalizeLines(Split(DropCR(markdown))))
  }

  // ---------------------------------------------------------------- the loops

  /** The longest match of the fence character, found run by run. */
  method GetLongestFenceRun(text: string, c: char) returns (longest: nat)
    ensures longest == LongestRun(text, c)
  {
    longest := 0;
    var index := 0;
    while index < |text|
      invariant index <= |text|
      invariant Max(longest, LongestRun(text[index..], c)) == LongestRun(text, c)
    {
      assert text[index..][1..] == text[index + 1..];
      if text[index] != c {
        index := index + 1;
      } else {
        var end := index;
        while end < |text| && text[end] == c
          invariant index <= end <= |text|
          invariant forall i | index <= i < end :: text[i] == c
        {
          end := end + 1;
        }
        WholeRun(text[index..], end - index, c);
        assert text[index..][end - index..] == text[end..];
        longest := Max(longest, end - index);
        index := end;
      }
    }
  }

  /** Only the beginning of a run matters for the longest one. */
  lemma {:induction false} WholeRun(s: string, n: nat, c: char)
    requires n <= |s| && (forall i | 0 <= i < n :: s[i] == c) && (n < |s| ==> s[n] != c)
    ensures Lead(s, c) == n && LongestRun(s, c) == Max(n, LongestRun(s[n..], c))
  {
    if n == 0 {
      assert s[0..] == s;
    } else {
      WholeRun(s[1..], n - 1, c);
      assert s[1..][n - 1..] == s[n..];
    }
  }

  ghost predicate Parsed(line: string, o: Option<Opening>) {
    forall k: nat {:trigger Seal(1, k)} :: Seal(1, k) ==> o == ParseOpening(line)
  }

  method MatchOpening(line: string) returns (openingMatch: Option<Opening>)
    ensures Parsed(line, openingMatch)
  {
    openingMatch := ParseOpening(line);
  }

  /** The first line after `index` that closes the block opened there, or -1. */
  ghost predicate ClosedAt(lines: seq<string>, index: nat, o: Opening, closingIndex: int) {
    && index < |lines| && (closingIndex == -1 || index < closingIndex < |lines|)
    && forall k: nat {:trigger Seal(2, k)} :: Seal(2, k) ==>
        index + 1 + FindClose(lines[index + 1..], o.mark, o.length) ==
        if closingIndex == -1 then |lines| else closingIndex
  }

  /** The search for the closing line of the block opened at `index`. */
  method FindClosingLine(lines: seq<string>, index: nat, o: Opening) returns (closingIndex: int)
    requires index < |lines|
    ensures ClosedAt(lines, index, o, closingIndex)
  {
    var rest := lines[index + 1..];
    var innerIndex := index + 1;
    while innerIndex < |lines|
      invariant index + 1 <= innerIndex <= |lines|
      invariant forall k | 0 <= k < innerIndex - index - 1 :: !Closes(rest[k], o.mark, o.length)
    {
      if Closes(lines[innerIndex], o.mark, o.length) {
        FindCloseAt(rest, o.mark, o.length, innerIndex - index - 1);
        return innerIndex;
      }
      innerIndex := innerIndex + 1;
    }
    FindCloseAt(rest, o.mark, o.length, |rest|);
    return -1;
  }

  lemma NormalizeCons(lines: seq<string>)
    requires lines != []
    ensures RewriteAll(Scan(lines)) == [Rewrite(Scan(lines)[0])] + RewriteAll(Scan(Later(lines)))
    ensures NormalizeLines(lines) == Unscan(Rewrite(Scan(lines)[0])) + NormalizeLines(Later(lines))
  {
    ScanCases(lines);
    assert Scan(lines)[1..] == Scan(Later(lines));
    assert RewriteAll(Scan(lines))[1..] == RewriteAll(Scan(Later(lines)));
  }

  /** The lines of the rewritten block. */
  ghost predicate RewrittenAs(lines: seq<string>, index: nat, closingIndex: nat, block: seq<string>) {
    && index < closingIndex < |lines|
    && forall k: nat {:trigger Seal(3, k)} :: Seal(3, k) ==>
        block == Unscan(Rewrite(Fenced(lines[index], lines[index + 1..closingIndex], lines[closingIndex])))
  }

  /** A fence that every run inside fits is kept. */
  lemma KeptBlock(s: Segment, o: Opening)
    requires s.Fenced? && ParseOpening(s.opening) == Some(o) && LongestRun(Join(s.content), o.mark) < o.length
    ensures Unscan(Rewrite(s)) == [s.opening] + s.content + [s.closing]
  {
  }

  lemma NewBlock(s: Segment, o: Opening)
    requires s.Fenced? && ParseOpening(s.opening) == Some(o) && LongestRun(Join(s.content), o.mark) >= o.length
    ensures
      var c := Marker(Join(s.content));
      var marker := Repeat(c, Needed(Join(s.content), c));
      Unscan(Rewrite(s)) == [o.indent + marker + o.suffix] + s.content + [o.indent + marker]
  {
    var c := Marker(Join(s.content));
    var marker := Repeat(c, Needed(Join(s.content), c));
    assert o.indent + marker + "" == o.indent + marker;
  }

  /** The lines written for a block. */
  method RewriteBlock(lines: seq<string>, index: nat, closingIndex: nat, o: Opening) returns (out: seq<string>)
    requires index < closingIndex < |lines| && Parsed(lines[index], Some(o))
    ensures RewrittenAs(lines, index, closingIndex, out)
  {
    hide ParseOpening, LongestRun, Rewrite, Unscan, Overflows;
    assert ParseOpening(lines[index]) == Some(o) by {
      assert Seal(1, 0);
    }
    var contentLines := lines[index + 1..closingIndex];
    ghost var s := Fenced(lines[index], contentLines, lines[closingIndex]);
    var content := Join(contentLines);
    var maxBackticks := GetLongestFenceRun(content, '`');
    var maxTildes := GetLongestFenceRun(content, '~');
    var currentMaxRun := if o.mark == '`' then maxBackticks else maxTildes;
    ParsedLine(lines[index]);
    if currentMaxRun < o.length {
      KeptBlock(s, o);
      return [lines[index]] + contentLines + [lines[closingIndex]];
    }
    var neededBackticks := Max(3, maxBackticks + 1);
    var neededTildes := Max(3, maxTildes + 1);
    var markerChar := o.mark;
    if neededBackticks < neededTildes {
      markerChar := '`';
    } else if neededTildes < neededBackticks {
      markerChar := '~';
    } else if o.mark == '`' {
      markerChar := '~';
    }
    var markerLength := if markerChar == '`' then neededBackticks else neededTildes;
    var marker := Repeat(markerChar, markerLength);
    NewBlock(s, o);
    return [o.indent + marker + o.suffix] + contentLines + [o.indent + marker];
  }

  /** `out` and the normalised lines from `index` on make up the normalised lines. */
  ghost predicate Written(lines: seq<string>, index: nat, out: seq<string>) {
    index <= |lines| &&
    forall k: nat {:trigger Seal(4, k)} :: Seal(4, k) ==> out + NormalizeLines(lines[index..]) == NormalizeLines(lines)
  }

  lemma WriteNothing(lines: seq<string>)
    ensures Written(lines, 0, [])
  {
    assert lines[0..] == lines;
    assert [] + NormalizeLines(lines) == NormalizeLines(lines);
  }

  lemma WriteMore(lines: seq<string>, index: nat, out: seq<string>, part: seq<string>, next: nat)
    requires Written(lines, index, out) && index <= next <= |lines|
    requires NormalizeLines(lines[index..]) == part + NormalizeLines(lines[next..])
    ensures Written(lines, next, out + part)
  {
    assert Seal(4, 0);
    Associate(out, part, NormalizeLines(lines[next..]));
  }

  lemma WritePlain(lines: seq<string>, index: nat, openingMatch: Option<Opening>, out: seq<string>, next: nat)
    requires Written(lines, index, out) && index < |lines| && Parsed(lines[index], openingMatch)
    requires openingMatch.Some? ==> ClosedAt(lines, index, openingMatch.value, -1)
    requires next == index + 1
    ensures Written(lines, next, out + [lines[index]])
  {
    assert Seal(1, 0) && Seal(2, 0);
    PlainAt(lines, index);
    WriteMore(lines, index, out, [lines[index]], next);
  }

  lemma WriteBlock(lines: seq<string>, index: nat, closingIndex: nat, o: Opening, out: seq<string>, block: seq<string>,
                   next: nat)
    requires Written(lines, index, out) && index < closingIndex < |lines| && Parsed(lines[index], Some(o))
    requires ClosedAt(lines, index, o, closingIndex) && RewrittenAs(lines, index, closingIndex, block)
    requires next == closingIndex + 1
    ensures Written(lines, next, out + block)
  {
    BlockNormalized(lines, index, closingIndex, o, block, next);
    WriteMore(lines, index, out, block, next);
  }

  lemma WrittenAll(lines: seq<string>, out: seq<string>)
    requires Written(lines, |lines|, out)
    ensures out == NormalizeLines(lines)
  {
    assert Seal(4, 0);
    assert out + [] == out;
  }

  /** One step of the loop: a plain line, or a whole block. */
  method NormalizeNext(lines: seq<string>, index: nat, out: seq<string>) returns (next: nat, out': seq<string>)
    requires Written(lines, index, out) && index < |lines|
    ensures index < next && Written(lines, next, out')
  {
    var line := lines[index];
    var openingMatch := MatchOpening(line);
    if openingMatch.None? {
      next, out' := index + 1, out + [line];
      WritePlain(lines, index, openingMatch, out, next);
      return;
    }
    var closingIndex := FindClosingLine(lines, index, openingMatch.value);
    if closingIndex == -1 {
      next, out' := index + 1, out + [line];
      WritePlain(lines, index, openingMatch, out, next);
      return;
    }
    var block := RewriteBlock(lines, index, closingIndex, openingMatch.value);
    next, out' := closingIndex + 1, out + block;
    WriteBlock(lines, index, closingIndex, openingMatch.value, out, block, next);
  }

  method NormalizeMarkdownFencedBlocks(markdown: string) returns (normalized: string)
    ensures normalized == Normalize(markdown)
  {
    var lines := Split(DropCR(markdown));
    var out: seq<string> := [];
    var index := 0;
    WriteNothing(lines);
    while index < |lines|
      invariant Written(lines, index, out)
      decreases |lines| - index
    {
      index, out := NormalizeNext(lines, index, out);
    }
    WrittenAll(lines, out);
    normalized := Join(out);
  }

  lemma PlainAt(lines: seq<string>, index: nat)
    requires index < |lines|
    requires match ParseOpening(lines[index])
             case None => true
             case Some(o) => FindClose(lines[index + 1..], o.mark, o.length) == |lines| - index - 1
    ensures NormalizeLines(lines[index..]) == [lines[index]] + NormalizeLines(lines[index + 1..])
  {
    var rest := lines[index..];
    NormalizeCons(rest);
    assert rest[0] == lines[index] && rest[1..] == lines[index + 1..];
  }

  lemma BlockAt(lines: seq<string>, index: nat, closingIndex: nat, o: Opening)
    requires index < closingIndex < |lines| && ParseOpening(lines[index]) == Some(o)
    requires closingIndex == index + 1 + FindClose(lines[index + 1..], o.mark, o.length)
    ensures Scan(lines[index..])[0] == Fenced(lines[index], lines[index + 1..closingIndex], lines[closingIndex])
    ensures Later(lines[index..]) == lines[closingIndex + 1..]
  {
    hide ParseOpening, FindClose, Scan, Closes, NoCloser, Later, Unscan, WellFenced;
    var rest, k := lines[index..], closingIndex - index - 1;
    assert rest[1..] == lines[index + 1..];
    LaterBlock(rest, o, k);
    ScanBlock(rest, o, k);
    assert rest[1..k + 1] == lines[index + 1..closingIndex] && rest[k + 2..] == lines[closingIndex + 1..];
  }

  lemma LaterBlock(lines: seq<string>, o: Opening, k: nat)
    requires lines != [] && ParseOpening(lines[0]) == Some(o)
    requires k == FindClose(lines[1..], o.mark, o.length) && k < |lines| - 1
    ensures Later(lines) == lines[k + 2..]
  {
    hide ParseOpening, FindClose, WellFenced, NoCloser, Unscan, Closes;
    ScanBlock(lines, o, k);
  }

  lemma BlockNormalized(lines: seq<string>, index: nat, closingIndex: nat, o: Opening, block: seq<string>, next: nat)
    requires index < closingIndex < |lines| && Parsed(lines[index], Some(o)) && ClosedAt(lines, index, o, closingIndex)
    requires RewrittenAs(lines, index, closingIndex, block) && next == closingIndex + 1
    ensures NormalizeLines(lines[index..]) == block + NormalizeLines(lines[next..])
  {
    hide ParseOpening, FindClose, Scan, Rewrite, Unscan, NormalizeLines;
    assert Seal(1, 0) && Seal(2, 0) && Seal(3, 0);
    BlockAt(lines, index, closingIndex, o);
    NormalizeCons(lines[index..]);
  }
}
