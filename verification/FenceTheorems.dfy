/** What the fence normaliser keeps, and exactly when rescanning finds the same blocks. */
module FenceTheorems {
  import opened Wrappers
  import opened Texts
  import opened Fences

  // ---------------------------------------------------------------- scanning by segments

  lemma ScanPlain(line: string, rest: seq<string>)
    requires StaysPlain(line, rest)
    ensures Scan([line] + rest) == [Plain(line)] + Scan(rest)
  {
    assert ([line] + rest)[1..] == rest;
    if ParseOpening(line).Some? {
      var o := ParseOpening(line).value;
      FindCloseAt(rest, o.mark, o.length, |rest|);
    }
  }

  lemma ScanFenced(s: Segment, rest: seq<string>)
    requires WellFenced(s)
    ensures Scan(Unscan(s) + rest) == [s] + Scan(rest)
  {
    var o := ParseOpening(s.opening).value;
    var lines, n := Unscan(s) + rest, |s.content|;
    assert lines[1..] == s.content + [s.closing] + rest;
    FindCloseAt(lines[1..], o.mark, o.length, n);
    assert lines[1..n + 1] == s.content && lines[n + 1] == s.closing && lines[n + 2..] == rest;
  }

  // ---------------------------------------------------------------- one block

  /** No line of the content closes a fence longer than every run in it. */
  lemma NoCloserInside(content: seq<string>, c: char, length: nat)
    requires LongestRun(Join(content), c) < length
    ensures NoCloser(content, c, length)
  {
    forall k | 0 <= k < |content| ensures !Closes(content[k], c, length) {
      RunInLine(content, k, c);
      if ParseOpening(content[k]).Some? {
        ParsedLine(content[k]);
      }
    }
  }

  lemma MarkerExceeds(content: string)
    ensures LongestRun(content, Marker(content)) < Needed(content, Marker(content))
    ensures Needed(content, Marker(content)) >= 3 && IsFence(Marker(content))
  {
  }

  /** The new opening line glues its marker to an info string that begins with it. */
  predicate Glues(segment: Segment) {
    Overflows(segment) &&
    var o := ParseOpening(segment.opening).value;
    o.suffix != "" && o.suffix[0] == Marker(Join(segment.content))
  }

  /** The rewritten block as its own lines are parsed. */
  lemma RewrittenParse(segment: Segment)
    requires Overflows(segment)
    ensures
      var o := ParseOpening(segment.opening).value;
      var content := Join(segment.content);
      var c, n := Marker(content), Needed(content, Marker(content));
      var k := Lead(o.suffix, c);
      && (k == 0 <==> !Glues(segment))
      && ParseOpening(Rewrite(segment).opening) == Some(Opening(o.indent, c, n + k, o.suffix[k..]))
      && ParseOpening(Rewrite(segment).closing) == Some(Opening(o.indent, c, n, ""))
  {
    hide ParseOpening, LongestRun, Repeat;
    var o := ParseOpening(segment.opening).value;
    var content := Join(segment.content);
    var c, n := Marker(content), Needed(content, Marker(content));
    ParsedLine(segment.opening);
    ParseWritten(o.indent, c, n, o.suffix);
    ParseWritten(o.indent, c, n, "");
    LeadOfSuffix(o.suffix, c);
  }

  lemma LeadOfSuffix(suffix: string, c: char)
    ensures Lead(suffix, c) == 0 <==> suffix == "" || suffix[0] != c
    ensures Lead("", c) == 0 && ""[0..] == ""
  {
  }

  /** Both fence lines written for an overflowing block parse as fences that are strictly longer
      than any run of their character inside the block. */
  lemma RewrittenExceeds(segment: Segment)
    requires Overflows(segment)
    ensures
      var opening, closing := ParseOpening(Rewrite(segment).opening), ParseOpening(Rewrite(segment).closing);
      && opening.Some? && closing.Some? && opening.value.mark == closing.value.mark
      && closing.value.suffix == "" && closing.value.indent == opening.value.indent
      && LongestRun(Join(Rewrite(segment).content), closing.value.mark) < closing.value.length <= opening.value.length
  {
    hide ParseOpening, LongestRun;
    RewrittenParse(segment);
    MarkerExceeds(Join(segment.content));
    SameContent(segment);
  }

  lemma SameContent(segment: Segment)
    requires segment.Fenced?
    ensures Rewrite(segment).Fenced? && Rewrite(segment).content == segment.content
  {
  }

  // ---------------------------------------------------------------- the condition

  /** A later block is rewritten with a marker that closes a fence of `length` times `c`. */
  predicate LaterMarker(segments: seq<Segment>, c: char, length: nat) {
    exists j :: 0 <= j < |segments| && Overflows(segments[j])
      && Marker(Join(segments[j].content)) == c && Needed(Join(segments[j].content), c) >= length
  }

  /** No rewritten block glues its marker to its info string, and no opening that was never
      closed is followed by a rewritten block whose marker closes it. */
  predicate Safe(segments: seq<Segment>) {
    segments == [] ||
    (&& (match segments[0]
         case Fenced(_, _, _) => !Glues(segments[0])
         case Plain(line) => match ParseOpening(line)
                             case None => true
                             case Some(o) => !LaterMarker(segments[1..], o.mark, o.length))
     && Safe(segments[1..]))
  }

  lemma LaterMarkerTail(segments: seq<Segment>, c: char, length: nat)
    requires segments != []
    ensures LaterMarker(segments, c, length) <==>
            LaterMarker(segments[1..], c, length) || LaterMarker([segments[0]], c, length)
  {
    if LaterMarker(segments[1..], c, length) {
      var j :| 0 <= j < |segments[1..]| && Overflows(segments[1..][j])
        && Marker(Join(segments[1..][j].content)) == c && Needed(Join(segments[1..][j].content), c) >= length;
      assert segments[j + 1] == segments[1..][j];
    }
    if LaterMarker(segments, c, length) {
      var j :| 0 <= j < |segments| && Overflows(segments[j])
        && Marker(Join(segments[j].content)) == c && Needed(Join(segments[j].content), c) >= length;
      if j == 0 {
        assert [segments[0]][0] == segments[j];
      } else {
        assert segments[1..][j - 1] == segments[j];
      }
    }
  }

  /** In a safe document the normalised lines contain a closer exactly when a marker is one. */
  lemma {:induction false} ClosersAfter(lines: seq<string>, c: char, length: nat)
    requires Safe(Scan(lines)) && NoCloser(lines, c, length)
    ensures LaterMarker(Scan(lines), c, length) <==> SomeCloses(NormalizeLines(lines), c, length)
    decreases |lines|
  {
    hide Closes, Later, LaterMarker, SomeCloses, Unscan, NormalizeLines, ParseOpening, LongestRun;
    if lines != [] {
      var segments := Scan(lines);
      ScanCases(lines);
      var s := segments[0];
      var rest := Later(lines);
      assert Scan(rest) == segments[1..];
      NoCloserParts(lines, Unscan(s), rest, c, length);
      ShorterLater(lines, s, rest);
      ClosersAfter(rest, c, length);
      LaterMarkerTail(segments, c, length);
      HeadCloses(s, c, length, Unscan(s));
      NormalizeCons(lines);
      SomeCloser(Unscan(Rewrite(s)), NormalizeLines(rest), c, length);
    } else {
      NothingCloses(c, length);
    }
  }

  lemma NothingCloses(c: char, length: nat)
    ensures !LaterMarker(Scan([]), c, length) && !SomeCloses(NormalizeLines([]), c, length)
  {
  }

  lemma ShorterLater(lines: seq<string>, s: Segment, rest: seq<string>)
    requires lines == Unscan(s) + rest
    ensures |rest| < |lines|
  {
  }

  lemma NoCloserParts(lines: seq<string>, a: seq<string>, b: seq<string>, c: char, length: nat)
    requires lines == a + b && NoCloser(lines, c, length)
    ensures NoCloser(a, c, length) && NoCloser(b, c, length)
  {
    hide Closes;
    forall k | 0 <= k < |a| ensures !Closes(a[k], c, length) {
      assert a[k] == lines[k];
    }
    forall k | 0 <= k < |b| ensures !Closes(b[k], c, length) {
      assert b[k] == lines[|a| + k];
    }
  }

  predicate SomeCloses(lines: seq<string>, c: char, length: nat) {
    exists k :: 0 <= k < |lines| && Closes(lines[k], c, length)
  }

  lemma SomeCloser(a: seq<string>, b: seq<string>, c: char, length: nat)
    ensures SomeCloses(a + b, c, length) <==> SomeCloses(a, c, length) || SomeCloses(b, c, length)
  {
    forall k | 0 <= k < |b| ensures (a + b)[|a| + k] == b[k] {
    }
    if SomeCloses(b, c, length) {
      var k :| 0 <= k < |b| && Closes(b[k], c, length);
      assert Closes((a + b)[|a| + k], c, length);
    }
    if SomeCloses(a, c, length) {
      var k :| 0 <= k < |a| && Closes(a[k], c, length);
      assert Closes((a + b)[k], c, length);
    }
  }

  lemma HeadCloses(s: Segment, c: char, length: nat, lines: seq<string>)
    requires lines == Unscan(s) && !Glues(s) && NoCloser(lines, c, length)
    ensures SomeCloses(Unscan(Rewrite(s)), c, length) <==> LaterMarker([s], c, length)
  {
    hide ParseOpening, Lead, LongestRun, Repeat;
    if Overflows(s) {
      RewrittenParse(s);
      MarkerExceeds(Join(s.content));
      var r, out := Rewrite(s), Unscan(Rewrite(s));
      assert lines[1..|s.content| + 1] == s.content == out[1..|s.content| + 1];
      assert out[|s.content| + 1] == r.closing;
      assert [s][0] == s;
      forall k | 0 < k <= |s.content| ensures !Closes(out[k], c, length) {
        assert out[k] == lines[k];
      }
    }
  }

  // ---------------------------------------------------------------- rescanning

  /** What a reader sees of a segment: a line, or a block's info string and content. */
  datatype Shape = Line | Block(info: string, content: seq<string>)

  function ShapeOf(s: Segment): Shape {
    match s
    case Plain(_) => Line
    case Fenced(opening, content, _) =>
      Block(if ParseOpening(opening).Some? then ParseOpening(opening).value.suffix else "", content)
  }

  function Shapes(segments: seq<Segment>): seq<Shape> {
    if segments == [] then [] else [ShapeOf(segments[0])] + Shapes(segments[1..])
  }

  lemma ShapesCons(s: Segment, rest: seq<Segment>)
    ensures Shapes([s] + rest) == [ShapeOf(s)] + Shapes(rest)
  {
    assert ([s] + rest)[1..] == rest;
  }

  /** A rewritten block that does not glue scans as itself, and needs no second rewriting. */
  lemma RewrittenBlock(s: Segment)
    requires WellFenced(s) && !Glues(s)
    ensures WellFenced(Rewrite(s)) && !Overflows(Rewrite(s)) && ShapeOf(Rewrite(s)) == ShapeOf(s)
  {
    if Overflows(s) {
      RewrittenParse(s);
      MarkerExceeds(Join(s.content));
      var o := ParseOpening(s.opening).value;
      NoCloserInside(s.content, Marker(Join(s.content)), Needed(Join(s.content), Marker(Join(s.content))));
      assert o.suffix[0..] == o.suffix;
    }
  }

  /** The first segment of the normalised document, when it is the rewritten first segment. */
  lemma HeadRescans(lines: seq<string>)
    requires lines != []
    requires match Scan(lines)[0]
             case Plain(line) => StaysPlain(line, NormalizeLines(Later(lines)))
             case Fenced(_, _, _) => !Glues(Scan(lines)[0])
    ensures Scan(NormalizeLines(lines)) == [Rewrite(Scan(lines)[0])] + Scan(NormalizeLines(Later(lines)))
    ensures ShapeOf(Rewrite(Scan(lines)[0])) == ShapeOf(Scan(lines)[0]) && !Overflows(Rewrite(Scan(lines)[0]))
  {
    ScanCases(lines);
    NormalizeCons(lines);
    var s := Scan(lines)[0];
    if s.Plain? {
      ScanPlain(s.line, NormalizeLines(Later(lines)));
    } else {
      RewrittenBlock(s);
      ScanFenced(Rewrite(s), NormalizeLines(Later(lines)));
    }
  }

  lemma NoCloserIffNone(lines: seq<string>, c: char, length: nat)
    ensures NoCloser(lines, c, length) <==> !SomeCloses(lines, c, length)
  {
    if SomeCloses(lines, c, length) {
      var k :| 0 <= k < |lines| && Closes(lines[k], c, length);
      assert Closes(lines[k], c, length);
    }
  }

  /** In a safe document the first segment rescans. */
  lemma SafeHead(lines: seq<string>)
    requires lines != [] && Safe(Scan(Later(lines))) && Scan(lines)[0].Plain?
    ensures StaysPlain(Scan(lines)[0].line, NormalizeLines(Later(lines))) <==> Safe(Scan(lines))
  {
    ScanCases(lines);
    var line := Scan(lines)[0].line;
    assert Scan(lines)[1..] == Scan(Later(lines));
    if ParseOpening(line).Some? {
      var o := ParseOpening(line).value;
      ClosersAfter(Later(lines), o.mark, o.length);
      NoCloserIffNone(NormalizeLines(Later(lines)), o.mark, o.length);
    }
  }

  /** In a safe document rescanning finds exactly the rewritten segments. */
  lemma {:induction false} RescanWhenSafe(lines: seq<string>)
    requires Safe(Scan(lines))
    ensures Scan(NormalizeLines(lines)) == RewriteAll(Scan(lines))
    ensures forall k | 0 <= k < |Scan(lines)| :: !Overflows(RewriteAll(Scan(lines))[k])
    ensures Shapes(Scan(NormalizeLines(lines))) == Shapes(Scan(lines))
    decreases |lines|
  {
    if lines != [] {
      ScanCases(lines);
      assert Scan(lines)[1..] == Scan(Later(lines));
      RescanWhenSafe(Later(lines));
      if Scan(lines)[0].Plain? {
        SafeHead(lines);
      }
      HeadRescans(lines);
      NormalizeCons(lines);
      ShapesCons(Scan(lines)[0], Scan(Later(lines)));
      ShapesCons(Rewrite(Scan(lines)[0]), Scan(NormalizeLines(Later(lines))));
    }
  }

  /** A glued block is not found again: its fence is longer than what should close it. */
  lemma GluedStaysOpen(s: Segment, lines: seq<string>)
    requires WellFenced(s) && Glues(s) && s.content + [Rewrite(s).closing] <= lines
    ensures
      ParseOpening(Rewrite(s).opening).Some? &&
      var o := ParseOpening(Rewrite(s).opening).value;
      FindClose(lines, o.mark, o.length) > |s.content|
  {
    var content := Join(s.content);
    var c, n := Marker(content), Needed(content, Marker(content));
    RewrittenParse(s);
    MarkerExceeds(content);
    NoCloserInside(s.content, c, n);
    var o := ParseOpening(Rewrite(s).opening).value;
    var near := s.content + [Rewrite(s).closing];
    forall k | 0 <= k <= |s.content| ensures !Closes(lines[k], o.mark, o.length) {
      assert lines[k] == near[k];
      assert k < |s.content| ==> !Closes(s.content[k], c, n);
    }
  }

  lemma GluedIsLost(s: Segment, rest: seq<string>)
    requires WellFenced(s) && Glues(s)
    ensures
      var segments := Scan(Unscan(Rewrite(s)) + rest);
      segments != [] && ShapeOf(segments[0]) != ShapeOf(s)
  {
    var lines := Unscan(Rewrite(s)) + rest;
    assert lines[1..] == s.content + [Rewrite(s).closing] + rest;
    GluedStaysOpen(s, lines[1..]);
    var o := ParseOpening(lines[0]).value;
    var k := FindClose(lines[1..], o.mark, o.length);
    if k < |lines| - 1 {
      ScanBlock(lines, o, k);
    }
  }

  /** An opening that now finds a closer is no longer a plain line. */
  lemma ReopenedIsLost(line: string, rest: seq<string>)
    requires !StaysPlain(line, rest)
    ensures
      var segments := Scan([line] + rest);
      segments != [] && ShapeOf(segments[0]) != Line
  {
    var lines := [line] + rest;
    assert lines[1..] == rest;
    var o := ParseOpening(line).value;
    var k := FindClose(rest, o.mark, o.length);
    assert k == |rest| ==> NoCloser(rest, o.mark, o.length);
    ScanBlock(lines, o, k);
  }

  lemma HeadsDiffer(a: seq<Segment>, b: seq<Segment>)
    requires a != [] && b != [] && ShapeOf(a[0]) != ShapeOf(b[0])
    ensures Shapes(a) != Shapes(b)
  {
    assert Shapes(a)[0] == ShapeOf(a[0]) && Shapes(b)[0] == ShapeOf(b[0]);
  }

  lemma TailsDiffer(s: Segment, a: seq<Segment>, t: Segment, b: seq<Segment>)
    requires Shapes(a) != Shapes(b)
    ensures Shapes([s] + a) != Shapes([t] + b)
  {
    ShapesCons(s, a);
    ShapesCons(t, b);
    assert Shapes([s] + a)[1..] == Shapes(a) && Shapes([t] + b)[1..] == Shapes(b);
  }

  lemma {:induction false} RescanOnlyWhenSafe(lines: seq<string>)
    requires !Safe(Scan(lines))
    ensures Shapes(Scan(NormalizeLines(lines))) != Shapes(Scan(lines))
    decreases |lines|
  {
    ScanCases(lines);
    NormalizeCons(lines);
    var s, later := Scan(lines)[0], Later(lines);
    var rest := NormalizeLines(later);
    assert Scan(lines)[1..] == Scan(later);
    if s.Fenced? && Glues(s) {
      GluedIsLost(s, rest);
      HeadsDiffer(Scan(NormalizeLines(lines)), Scan(lines));
    } else if s.Plain? && !StaysPlain(s.line, rest) {
      ReopenedIsLost(s.line, rest);
      HeadsDiffer(Scan(NormalizeLines(lines)), Scan(lines));
    } else {
      if s.Plain? && Safe(Scan(later)) {
        SafeHead(lines);
      }
      RescanOnlyWhenSafe(later);
      HeadRescans(lines);
      TailsDiffer(Rewrite(s), Scan(rest), s, Scan(later));
    }
  }

  /** Rescanning the normalised document finds the same blocks, at the same places, with the
      same info strings and contents, exactly when the document is safe. */
  lemma RescanIsExact(lines: seq<string>)
    ensures Shapes(Scan(NormalizeLines(lines))) == Shapes(Scan(lines)) <==> Safe(Scan(lines))
  {
    if Safe(Scan(lines)) {
      RescanWhenSafe(lines);
    } else {
      RescanOnlyWhenSafe(lines);
    }
  }

  // ---------------------------------------------------------------- what never changes

  /** Line `i` is a fence line of a block that is rewritten. */
  predicate RewrittenFence(lines: seq<string>, i: nat)
    decreases |lines|
  {
    lines != [] && Scan(lines) != [] &&
    var s := Scan(lines)[0];
    var n := |Unscan(s)|;
    if i < n then Overflows(s) && (i == 0 || i == n - 1)
    else |Later(lines)| < |lines| && RewrittenFence(Later(lines), i - n)
  }

  /** For any input the number of lines is kept, and a line that is not a fence of a rewritten
      block is kept verbatim. */
  lemma {:induction false} OnlyFencesChange(lines: seq<string>)
    ensures |NormalizeLines(lines)| == |lines|
    ensures forall i | 0 <= i < |lines| :: NormalizeLines(lines)[i] == lines[i] || RewrittenFence(lines, i)
    decreases |lines|
  {
    if lines != [] {
      ScanCases(lines);
      NormalizeCons(lines);
      var s, later := Scan(lines)[0], Later(lines);
      var n, out := |Unscan(s)|, NormalizeLines(lines);
      OnlyFencesChange(later);
      RewriteKeepsContent(s);
      forall i | 0 <= i < |lines| ensures out[i] == lines[i] || RewrittenFence(lines, i) {
        if i < n {
          assert out[i] == Unscan(Rewrite(s))[i] && lines[i] == Unscan(s)[i];
        } else {
          assert out[i] == NormalizeLines(later)[i - n] && lines[i] == later[i - n];
        }
      }
    }
  }

  lemma RewriteKeepsContent(s: Segment)
    ensures |Unscan(Rewrite(s))| == |Unscan(s)|
    ensures forall i | 0 <= i < |Unscan(s)| ::
      Unscan(Rewrite(s))[i] == Unscan(s)[i] || (Overflows(s) && (i == 0 || i == |Unscan(s)| - 1))
  {
    if Overflows(s) {
      forall i | 0 < i < |Unscan(s)| - 1 ensures Unscan(Rewrite(s))[i] == Unscan(s)[i] {
        assert Unscan(s)[i] == s.content[i - 1];
      }
    }
  }

  // ---------------------------------------------------------------- idempotence

  lemma {:induction false} RewriteAllIdle(segments: seq<Segment>)
    requires forall k | 0 <= k < |segments| :: !Overflows(segments[k])
    ensures RewriteAll(segments) == segments
  {
  }

  /** A safe document needs one normalisation only. */
  lemma NormalizeLinesIdempotent(lines: seq<string>)
    requires Safe(Scan(lines))
    ensures NormalizeLines(NormalizeLines(lines)) == NormalizeLines(lines)
  {
    RescanWhenSafe(lines);
    RewriteAllIdle(RewriteAll(Scan(lines)));
    ScanKeepsLines(NormalizeLines(lines));
  }

  /** Every opening the scan meets is closed, and info strings contain no fence character. */
  predicate WellBehaved(segments: seq<Segment>) {
    forall k | 0 <= k < |segments| ::
      match segments[k]
      case Plain(line) => ParseOpening(line).None?
      case Fenced(opening, _, _) =>
        ParseOpening(opening).Some? ==> forall c <- ParseOpening(opening).value.suffix :: !IsFence(c)
  }

  lemma {:induction false} WellBehavedIsSafe(segments: seq<Segment>)
    requires WellBehaved(segments)
    ensures Safe(segments)
  {
    if segments != [] {
      var s := segments[0];
      WellBehavedIsSafe(segments[1..]);
      assert !Glues(s) by {
        if s.Fenced? && ParseOpening(s.opening).Some? && ParseOpening(s.opening).value.suffix != "" {
          MarkerExceeds(Join(s.content));
          assert ParseOpening(s.opening).value.suffix[0] in ParseOpening(s.opening).value.suffix;
        }
      }
    }
  }

  // ---------------------------------------------------------------- whole texts

  predicate EndsCR(s: string) {
    s != "" && s[|s| - 1] == '\r'
  }

  lemma {:induction false} JoinCRLF(ls: seq<string>)
    requires Lines(ls) && forall i | 0 <= i < |ls| - 1 :: !EndsCR(ls[i])
    ensures !HasCRLF(Join(ls))
  {
    if |ls| > 1 {
      var head, tail := ls[0], Join(ls[1..]);
      JoinCRLF(ls[1..]);
      var s := head + "\n" + tail;
      forall i | 0 <= i < |s| - 1 ensures !(s[i] == '\r' && s[i + 1] == '\n') {
        if i + 1 < |head| {
          assert s[i + 1] == head[i + 1] && head[i + 1] in head;
        } else if i > |head| {
          assert s[i] == tail[i - |head| - 1] && s[i + 1] == tail[i - |head|];
        }
      }
    } else {
      forall i | 0 <= i < |ls[0]| ensures ls[0][i] != '\n' {
        assert ls[0][i] in ls[0];
      }
    }
  }

  lemma {:induction false} JoinCRLFBack(ls: seq<string>, i: nat)
    requires i + 1 < |ls| && EndsCR(ls[i])
    ensures HasCRLF(Join(ls))
  {
    var head, tail := ls[0], Join(ls[1..]);
    var s := head + "\n" + tail;
    if i == 0 {
      assert s[|head| - 1] == '\r' && s[|head|] == '\n';
    } else {
      JoinCRLFBack(ls[1..], i - 1);
      var k :| 0 <= k < |tail| - 1 && tail[k] == '\r' && tail[k + 1] == '\n';
      assert s[|head| + 1 + k] == '\r' && s[|head| + 1 + k + 1] == '\n';
    }
  }

  /** How many carriage returns a line ends in. */
  function TrailCR(s: string): nat {
    if !EndsCR(s) then 0 else 1 + TrailCR(s[..|s| - 1])
  }

  lemma {:induction false} TrailAppend(a: string, b: string)
    requires !EndsCR(a)
    ensures TrailCR(a + b) == TrailCR(b)
  {
    if EndsCR(b) {
      assert (a + b)[..|a + b| - 1] == a + b[..|b| - 1];
      TrailAppend(a, b[..|b| - 1]);
    } else if b == "" {
      assert a + b == a;
    }
  }

  /** One line again, ending in no more carriage returns than the original. */
  predicate Cleaner(after: seq<string>, before: seq<string>) {
    && |after| == |before|
    && forall i | 0 <= i < |after| :: OneLine(after[i]) && TrailCR(after[i]) <= TrailCR(before[i])
  }

  lemma CleanerAppend(a: seq<string>, a': seq<string>, b: seq<string>, b': seq<string>)
    requires Cleaner(a, a') && Cleaner(b, b')
    ensures Cleaner(a + b, a' + b')
  {
    hide TrailCR, OneLine;
  }

  lemma RewriteKeepsLines(s: Segment)
    requires forall i | 0 <= i < |Unscan(s)| :: OneLine(Unscan(s)[i])
    ensures Cleaner(Unscan(Rewrite(s)), Unscan(s))
  {
    hide ParseOpening, TrailCR, OneLine, LongestRun;
    if Overflows(s) {
      RewriteKeepsContent(s);
      MarkerExceeds(Join(s.content));
      var o := ParseOpening(s.opening).value;
      var c, n := Marker(Join(s.content)), Needed(Join(s.content), Marker(Join(s.content)));
      ParsedLine(s.opening);
      assert Unscan(s)[0] == s.opening;
      FenceLineEnds(o.indent, o.mark, o.length, c, n, o.suffix);
    }
  }

  lemma FenceLineEnds(indent: string, c: char, length: nat, c': char, length': nat, suffix: string)
    requires IsFence(c) && IsFence(c') && length > 0 && length' > 0
    ensures OneLine(FenceLine(indent, c, length, suffix)) ==>
      OneLine(FenceLine(indent, c', length', suffix)) && OneLine(FenceLine(indent, c', length', ""))
    ensures TrailCR(FenceLine(indent, c', length', suffix)) == TrailCR(FenceLine(indent, c, length, suffix))
    ensures TrailCR(FenceLine(indent, c', length', "")) == 0
  {
    var line, line' := FenceLine(indent, c, length, suffix), FenceLine(indent, c', length', suffix);
    if OneLine(line) {
      forall x <- indent ensures x != '\n' { assert x in line; }
      forall x <- suffix ensures x != '\n' { assert x in line; }
    }
    TrailAppend(indent + Repeat(c, length), suffix);
    TrailAppend(indent + Repeat(c', length'), suffix);
    assert FenceLine(indent, c', length', "") == indent + Repeat(c', length');
  }

  lemma {:induction false} NormalizeKeepsLines(lines: seq<string>)
    requires forall i | 0 <= i < |lines| :: OneLine(lines[i])
    ensures Cleaner(NormalizeLines(lines), lines)
    decreases |lines|
  {
    hide OneLine, Cleaner, Unscan, Later, NormalizeLines, StaysPlain, WellFenced;
    if lines != [] {
      ScanCases(lines);
      NormalizeCons(lines);
      var s, later := Scan(lines)[0], Later(lines);
      forall i | 0 <= i < |Unscan(s)| ensures OneLine(Unscan(s)[i]) {
        assert Unscan(s)[i] == lines[i];
      }
      forall i | 0 <= i < |later| ensures OneLine(later[i]) {
        assert later[i] == lines[|Unscan(s)| + i];
      }
      RewriteKeepsLines(s);
      ShorterLater(lines, s, later);
      NormalizeKeepsLines(later);
      CleanerAppend(Unscan(Rewrite(s)), Unscan(s), NormalizeLines(later), later);
    } else {
      NoLines();
    }
  }

  lemma NoLines()
    ensures Cleaner(NormalizeLines([]), [])
  {
  }

  // ---------------------------------------------------------------- line ends

  function DropEnd(line: string): string {
    if EndsCR(line) then line[..|line| - 1] else line
  }

  /** What `DropCR` does to the lines of a text: one carriage return less at the end of each
      line but the last. */
  function DropEnds(ls: seq<string>): (r: seq<string>)
    ensures |r| == |ls|
  {
    if |ls| <= 1 then ls else [DropEnd(ls[0])] + DropEnds(ls[1..])
  }

  lemma {:induction false} DropEndsAt(ls: seq<string>, k: nat)
    requires k < |ls|
    ensures DropEnds(ls)[k] == if k < |ls| - 1 then DropEnd(ls[k]) else ls[k]
  {
    if |ls| > 1 && k > 0 {
      DropEndsAt(ls[1..], k - 1);
    }
  }

  lemma {:induction false} DropCRHead(line: string, rest: string)
    requires OneLine(line)
    ensures DropCR(line + "\n" + rest) == DropEnd(line) + "\n" + DropCR(rest)
  {
    var s := line + "\n" + rest;
    if line == "" {
      assert s[1..] == rest;
    } else if line == "\r" {
      assert s[2..] == rest;
    } else {
      assert s[1..] == line[1..] + "\n" + rest;
      assert |line| > 1 ==> line[1] in line && s[1] == line[1];
      DropCRHead(line[1..], rest);
      assert DropEnd(line) == [line[0]] + DropEnd(line[1..]);
      AssociateFour([line[0]], DropEnd(line[1..]), "\n", DropCR(rest));
    }
  }

  lemma {:induction false} DropCRLines(ls: seq<string>)
    requires Lines(ls)
    ensures Lines(DropEnds(ls)) && DropCR(Join(ls)) == Join(DropEnds(ls))
    ensures Split(DropCR(Join(ls))) == DropEnds(ls)
  {
    if |ls| == 1 {
      JoinCRLF(ls);
      DropCRIdle(ls[0]);
    } else {
      DropCRLines(ls[1..]);
      DropCRHead(ls[0], Join(ls[1..]));
      assert DropEnds(ls)[1..] == DropEnds(ls[1..]);
    }
    SplitJoin(DropEnds(ls));
  }

  lemma CRLFLine(ls: seq<string>) returns (k: nat)
    requires Lines(ls) && HasCRLF(Join(ls))
    ensures k + 1 < |ls| && EndsCR(ls[k])
  {
    if forall i | 0 <= i < |ls| - 1 :: !EndsCR(ls[i]) {
      JoinCRLF(ls);
    }
    k :| 0 <= k < |ls| - 1 && EndsCR(ls[k]);
  }

  /** While a line ends in a carriage return, one more application takes one away. */
  lemma LineEndsShrink(ls: seq<string>)
    requires Lines(ls) && HasCRLF(Join(ls))
    ensures Normalize(Join(ls)) != Join(ls)
  {
    hide TrailCR, NormalizeLines;
    var k := CRLFLine(ls);
    DropCRLines(ls);
    DropEndsAt(ls, k);
    OneLess(ls[k]);
    NormalizeKeepsLines(DropEnds(ls));
    var out := NormalizeLines(DropEnds(ls));
    assert Cleaner(out, DropEnds(ls));
    assert out[k] != ls[k];
    SplitJoin(ls);
    SplitJoin(out);
  }

  lemma OneLess(line: string)
    requires EndsCR(line)
    ensures TrailCR(DropEnd(line)) + 1 == TrailCR(line)
  {
  }

  /** No block needs a longer fence. */
  predicate Sufficient(segments: seq<Segment>) {
    forall k | 0 <= k < |segments| :: !Overflows(segments[k])
  }

  lemma OverflowChanges(s: Segment)
    requires Overflows(s)
    ensures Rewrite(s).opening != s.opening
  {
    hide ParseOpening, LongestRun;
    var o := ParseOpening(s.opening).value;
    var content := Join(s.content);
    ParsedLine(s.opening);
    MarkerExceeds(content);
    if Rewrite(s).opening == s.opening {
      SameFence(o.indent, o.mark, o.length, Marker(content), Needed(content, Marker(content)), o.suffix);
    }
  }

  lemma SameFence(indent: string, c: char, length: nat, c': char, length': nat, suffix: string)
    requires length > 0 && FenceLine(indent, c, length, suffix) == FenceLine(indent, c', length', suffix)
    ensures c == c' && length == length'
  {
    var line := FenceLine(indent, c, length, suffix);
    assert line[|indent|] == c && FenceLine(indent, c', length', suffix)[|indent|] == c';
  }

  lemma {:induction false} LinesFixed(lines: seq<string>)
    ensures NormalizeLines(lines) == lines <==> Sufficient(Scan(lines))
    decreases |lines|
  {
    hide Overflows, NormalizeLines, Later, StaysPlain, WellFenced, Unscan;
    if lines == [] {
      NothingToRewrite();
    } else {
      ScanCases(lines);
      NormalizeCons(lines);
      var s, later := Scan(lines)[0], Later(lines);
      ShorterLater(lines, s, later);
      LinesFixed(later);
      HeadFixed(s);
      SameParts(Unscan(Rewrite(s)), NormalizeLines(later), Unscan(s), later);
      SufficientCons(s, Scan(later));
    }
  }

  lemma NothingToRewrite()
    ensures NormalizeLines([]) == [] && Scan([]) == []
  {
  }

  lemma HeadFixed(s: Segment)
    ensures |Unscan(Rewrite(s))| == |Unscan(s)|
    ensures Unscan(Rewrite(s)) == Unscan(s) <==> !Overflows(s)
  {
    RewriteKeepsContent(s);
    if Overflows(s) {
      OverflowChanges(s);
      assert Unscan(Rewrite(s))[0] == Rewrite(s).opening && Unscan(s)[0] == s.opening;
    }
  }

  lemma SameParts(a: seq<string>, b: seq<string>, c: seq<string>, d: seq<string>)
    requires |a| == |c|
    ensures a + b == c + d <==> a == c && b == d
  {
    if a + b == c + d {
      assert a == (a + b)[..|a|] && c == (c + d)[..|a|];
      assert b == (a + b)[|a|..] && d == (c + d)[|a|..];
    }
  }

  lemma SufficientCons(s: Segment, rest: seq<Segment>)
    ensures Sufficient([s] + rest) <==> !Overflows(s) && Sufficient(rest)
  {
    hide Overflows;
    var all := [s] + rest;
    assert all[0] == s && forall k | 0 <= k < |rest| :: all[k + 1] == rest[k];
    if Sufficient(all) {
      forall k | 0 <= k < |rest| ensures !Overflows(rest[k]) {
        assert !Overflows(all[k + 1]);
      }
    }
  }

  /** The texts that the normaliser leaves alone: exactly those without CRLF whose scanned blocks
      all have a fence that exceeds what is inside. This holds of every text, so a further
      application changes nothing exactly when the text it gets is such. */
  lemma NormalizeFixed(text: string)
    ensures Normalize(text) == text <==> !HasCRLF(text) && Sufficient(Scan(Split(text)))
  {
    hide NormalizeLines, Scan, Sufficient;
    var lines := Split(text);
    JoinSplit(text);
    if HasCRLF(text) {
      LineEndsShrink(lines);
    } else {
      DropCRIdle(text);
      LinesFixed(lines);
      NormalizeKeepsLines(lines);
      SplitJoin(lines);
      SplitJoin(NormalizeLines(lines));
    }
  }

  /** The second application in the pipelines changes nothing, on a safe document, exactly when
      the first one has left no CRLF. */
  lemma NormalizeIdempotent(markdown: string)
    requires Safe(Scan(Split(DropCR(markdown))))
    ensures Normalize(Normalize(markdown)) == Normalize(markdown) <==> !HasCRLF(Normalize(markdown))
    ensures !HasCRLF(DropCR(markdown)) ==> !HasCRLF(Normalize(markdown))
  {
    hide NormalizeLines, Safe, Scan;
    var lines := Split(DropCR(markdown));
    var out := NormalizeLines(lines);
    NormalizeKeepsLines(lines);
    assert Lines(out);
    if HasCRLF(Join(out)) {
      LineEndsShrink(out);
      var k := CRLFLine(out);
      assert TrailCR(out[k]) <= TrailCR(lines[k]);
      JoinSplit(DropCR(markdown));
      JoinCRLFBack(lines, k);
    } else {
      DropCRIdle(Join(out));
      SplitJoin(out);
      NormalizeLinesIdempotent(lines);
    }
  }

  // ---------------------------------------------------------------- where it fails

  lemma {:induction false} PlainOnly(lines: seq<string>)
    requires forall k | 0 <= k < |lines| :: ParseOpening(lines[k]).None?
    ensures NormalizeLines(lines) == lines
  {
    if lines != [] {
      assert lines == [lines[0]] + lines[1..];
      ScanPlain(lines[0], lines[1..]);
      PlainOnly(lines[1..]);
    }
  }

  /** A carriage return before a CRLF survives the first application only. */
  lemma DoubleCarriageReturn()
    ensures Normalize("\r\r\n") == "\r\n" && Normalize("\r\n") == "\n"
  {
    hide NormalizeLines, DropCR, Split, Join, ParseOpening;
    TwoLines("\r");
    TwoLines("");
    NoOpenings();
    PlainOnly(["\r", ""]);
    PlainOnly(["", ""]);
    assert "\r" + "\r\n" == "\r\r\n" && "" + "\r\n" == "\r\n";
    assert "\r" + "\n" == "\r\n" && "" + "\n" == "\n";
  }

  lemma NoOpenings()
    ensures ParseOpening("\r").None? && ParseOpening("").None?
  {
  }

  lemma TwoLines(line: string)
    requires line == "\r" || line == ""
    ensures Split(DropCR(line + "\r\n")) == [line, ""] && Join([line, ""]) == line + "\n"
  {
    assert line + "\r\n" == (line + "\r") + "\n" + "";
    DropCRHead(line + "\r", "");
    SplitHead(line, "");
    assert [line] + [""] == [line, ""];
  }

  /** A line that opens no block and whose longest run is three backticks. */
  predicate Loud(line: string) {
    ParseOpening(line).None? && LongestRun(line, '`') == 3 && LongestRun(line, '~') == 0
  }

  lemma LoudLine()
    ensures Loud("a```b") && OneLine("a```b") && !EndsCR("a```b")
  {
    assert LongestRun("b", '`') == 0 && LongestRun("b", '~') == 0;
    assert LongestRun("`b", '`') == 1 && LongestRun("`b", '~') == 0;
    assert LongestRun("``b", '`') == 2 && LongestRun("``b", '~') == 0;
    assert LongestRun("```b", '`') == 3 && LongestRun("```b", '~') == 0;
  }

  /** Three backticks and an info string, a loud line, three backticks. */
  function BacktickBlock(info: string, loud: string): Segment {
    Fenced(FenceLine("", '`', 3, info), [loud], FenceLine("", '`', 3, ""))
  }

  lemma OverflowingBlock(info: string, loud: string)
    requires Loud(loud) && (info == "" || info[0] != '`')
    ensures
      var s := BacktickBlock(info, loud);
      && WellFenced(s) && Overflows(s) && ParseOpening(s.opening) == Some(Opening("", '`', 3, info))
      && Marker(Join(s.content)) == '~' && Needed(Join(s.content), '~') == 3
  {
    ParseWritten("", '`', 3, info);
    ParseWritten("", '`', 3, "");
    assert info[0..] == info;
    assert Join([loud]) == loud;
  }

  /** An info string that begins with the other fence character is glued to the new marker. */
  lemma GluedDocument(loud: string)
    requires Loud(loud)
    ensures !Safe(Scan(Unscan(BacktickBlock("~", loud))))
  {
    var s := BacktickBlock("~", loud);
    OverflowingBlock("~", loud);
    ScanFenced(s, []);
    assert Unscan(s) + [] == Unscan(s);
    var segments := Scan(Unscan(s));
    assert segments[0] == s && Glues(s);
  }

  /** Three tildes that are never closed, then a backtick block with another info string. */
  function ReopenedLines(loud: string): seq<string> {
    [FenceLine("", '~', 3, "")] + Unscan(BacktickBlock("x", loud))
  }

  lemma NoTildeCloser(loud: string)
    requires Loud(loud)
    ensures NoCloser(Unscan(BacktickBlock("x", loud)), '~', 3)
  {
    var s := BacktickBlock("x", loud);
    OverflowingBlock("x", loud);
    ParseWritten("", '`', 3, "");
    var lines := Unscan(s);
    assert lines == [s.opening, loud, s.closing];
  }

  lemma ReopenedScan(loud: string)
    requires Loud(loud)
    ensures Scan(ReopenedLines(loud)) == [Plain(FenceLine("", '~', 3, "")), BacktickBlock("x", loud)]
  {
    var s := BacktickBlock("x", loud);
    OverflowingBlock("x", loud);
    NoTildeCloser(loud);
    ParseWritten("", '~', 3, "");
    ScanFenced(s, []);
    assert Unscan(s) + [] == Unscan(s);
    ScanPlain(FenceLine("", '~', 3, ""), Unscan(s));
  }

  /** An opening that was never closed is closed by a later block's new marker. */
  lemma ReopenedDocument(loud: string)
    requires Loud(loud)
    ensures !Safe(Scan(ReopenedLines(loud)))
  {
    var s := BacktickBlock("x", loud);
    ReopenedScan(loud);
    OverflowingBlock("x", loud);
    ParseWritten("", '~', 3, "");
    var segments := Scan(ReopenedLines(loud));
    assert segments[1..][0] == s;
  }

  /** On that document the second application changes the text again. */
  lemma SecondApplicationChanges(loud: string)
    requires Loud(loud) && OneLine(loud) && !EndsCR(loud)
    ensures
      var text := Join(ReopenedLines(loud));
      Normalize(Normalize(text)) != Normalize(text)
  {
    hide NormalizeLines, FenceLine, Loud;
    var lines := ReopenedLines(loud);
    var out := NormalizeLines(lines);
    LoudEnds(loud);
    LinesChange(loud);
    ReopenedOnce(loud);
    NormalizeOfLines(lines);
    NormalizeOfLines(out);
    NormalizeKeepsLines(out);
    SplitJoin(out);
    SplitJoin(NormalizeLines(out));
  }

  /** On a text whose lines do not end in carriage returns the normaliser works by lines. */
  lemma NormalizeOfLines(ls: seq<string>)
    requires Lines(ls) && forall i | 0 <= i < |ls| :: !EndsCR(ls[i])
    ensures Normalize(Join(ls)) == Join(NormalizeLines(ls))
  {
    JoinCRLF(ls);
    DropCRIdle(Join(ls));
    SplitJoin(ls);
  }

  lemma LoudEnds(loud: string)
    requires OneLine(loud) && !EndsCR(loud)
    ensures Lines(ReopenedLines(loud)) && forall i | 0 <= i < |ReopenedLines(loud)| :: !EndsCR(ReopenedLines(loud)[i])
    ensures
      var line, inner := FenceLine("", '~', 3, ""), FenceLine("", '~', 3, "x");
      OneLine(line) && OneLine(inner) && !EndsCR(line) && !EndsCR(inner)
  {
    var s := BacktickBlock("x", loud);
    assert ReopenedLines(loud) == [FenceLine("", '~', 3, ""), s.opening, loud, s.closing];
  }

  lemma LinesChange(loud: string)
    requires Loud(loud)
    ensures NormalizeLines(NormalizeLines(ReopenedLines(loud))) != NormalizeLines(ReopenedLines(loud))
  {
    hide NormalizeLines, FenceLine, Loud, WellFenced, Rewrite;
    var line, inner := FenceLine("", '~', 3, ""), FenceLine("", '~', 3, "x");
    ReopenedOnce(loud);
    var s := Fenced(line, [inner, loud], line);
    assert Unscan(s) == [line, inner, loud, line];
    TildeBlockGrows(line, inner, loud);
    NormalizeBlock(s);
  }

  /** A document that is one block. */
  lemma NormalizeBlock(s: Segment)
    requires WellFenced(s)
    ensures NormalizeLines(Unscan(s)) == Unscan(Rewrite(s))
  {
    ScanFenced(s, []);
    assert Unscan(s) + [] == Unscan(s) && [s] + [] == [s];
    assert RewriteAll([s]) == [Rewrite([s][0])];
    assert UnscanAll([Rewrite(s)]) == Unscan(Rewrite(s)) + [];
  }

  lemma UnscanPair(a: Segment, b: Segment)
    ensures UnscanAll([a, b]) == Unscan(a) + Unscan(b)
  {
    assert [a, b][1..] == [b] && [b][1..] == [];
    assert UnscanAll([b]) == Unscan(b) + [];
  }

  lemma NormalizePair(line: string, s: Segment)
    ensures UnscanAll(RewriteAll([Plain(line), s])) == [line] + Unscan(Rewrite(s))
  {
    var pair := [Plain(line), s];
    assert RewriteAll(pair) == [Rewrite(pair[0]), Rewrite(pair[1])];
    UnscanPair(Plain(line), Rewrite(s));
  }

  lemma ReopenedOnce(loud: string)
    requires Loud(loud)
    ensures NormalizeLines(ReopenedLines(loud)) ==
            [FenceLine("", '~', 3, ""), FenceLine("", '~', 3, "x"), loud, FenceLine("", '~', 3, "")]
  {
    hide FenceLine, Loud, Rewrite, Scan, Unscan, UnscanAll, RewriteAll;
    var s, line := BacktickBlock("x", loud), FenceLine("", '~', 3, "");
    ReopenedScan(loud);
    NormalizePair(line, s);
    RewrittenLoud(loud);
    assert NormalizeLines(ReopenedLines(loud)) == [line] + Unscan(Rewrite(s));
  }

  lemma RewrittenLoud(loud: string)
    requires Loud(loud)
    ensures Unscan(Rewrite(BacktickBlock("x", loud))) == [FenceLine("", '~', 3, "x"), loud, FenceLine("", '~', 3, "")]
  {
    OverflowingBlock("x", loud);
  }

  lemma TildeBlockGrows(line: string, inner: string, loud: string)
    requires line == FenceLine("", '~', 3, "") && inner == FenceLine("", '~', 3, "x") && Loud(loud)
    ensures
      var s := Fenced(line, [inner, loud], line);
      WellFenced(s) && Unscan(Rewrite(s))[0] != line
  {
    var content := [inner, loud];
    ParseWritten("", '~', 3, "");
    ParseWritten("", '~', 3, "x");
    assert "x"[0] in "x" && !IsSpace('x');
    assert !Closes(content[0], '~', 3) && !Closes(content[1], '~', 3);
    ParsedLine(inner);
    RunInLine(content, 0, '~');
    RunInLine(content, 1, '`');
  }
}
