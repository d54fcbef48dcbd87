/** Rewriting markdown outside fenced code, one maximal run of plain lines at a time. */
module ProtectedRewrite {
  import opened Wrappers
  import opened Texts

  // ---------------------------------------------------------------- which lines are protected

  datatype Fence = Fence(mark: char, length: nat)

  /** `/^(`{3,}|~{3,})/` on the line without its leading white space, whatever follows. */
  function FenceOf(line: string): Option<Fence> {
    var trimmed := TrimStart(line);
    if Lead(trimmed, '`') >= 3 then Some(Fence('`', Lead(trimmed, '`')))
    else if Lead(trimmed, '~') >= 3 then Some(Fence('~', Lead(trimmed, '~')))
    else None
  }

  /** White space, a run of fence characters, and anything that does not go on with the run. */
  predicate FenceParts(line: string, left: string, c: char, n: nat, rest: string) {
    && line == left + Repeat(c, n) + rest
    && (forall x <- left :: IsSpace(x)) && (c == '`' || c == '~') && (rest == "" || rest[0] != c)
  }

  /** A line is a fence line exactly when it has these parts, with at least three characters in the
      run. */
  lemma FenceMeans(line: string, c: char, n: nat)
    ensures FenceOf(line) == Some(Fence(c, n)) <==> n >= 3 && exists left, rest :: FenceParts(line, left, c, n, rest)
  {
    hide FenceOf, FenceParts;
    if FenceOf(line) == Some(Fence(c, n)) {
      var left, rest := FenceSplit(line, c, n);
    } else if left, rest :| n >= 3 && FenceParts(line, left, c, n, rest) {
      FenceFound(line, left, c, n, rest);
    }
  }

  lemma FenceSplit(line: string, c: char, n: nat) returns (left: string, rest: string)
    requires FenceOf(line) == Some(Fence(c, n))
    ensures n >= 3 && FenceParts(line, left, c, n, rest)
  {
    hide TrimStart, Repeat;
    var trimmed := TrimStart(line);
    left := TrimStartSplit(line);
    rest := trimmed[n..];
    LeadSplit(trimmed, c);
    assert line == left + (Repeat(c, n) + rest);
  }

  lemma FenceFound(line: string, left: string, c: char, n: nat, rest: string)
    requires n >= 3 && FenceParts(line, left, c, n, rest)
    ensures FenceOf(line) == Some(Fence(c, n))
  {
    hide TrimStart, Repeat, Lead;
    FenceLeads(c, n, rest);
    TrimStartMeans(left, Repeat(c, n) + rest);
    assert line == left + (Repeat(c, n) + rest);
  }

  lemma FenceLeads(c: char, n: nat, rest: string)
    requires (c == '`' || c == '~') && n >= 3 && (rest == "" || rest[0] != c)
    ensures
      var s := Repeat(c, n) + rest;
      && !IsSpace(s[0]) && Lead(s, c) == n && Lead(s, if c == '`' then '~' else '`') == 0
  {
    LeadRepeat(c, n, rest);
  }

  /** The fence that is open after these lines. */
  function Open(lines: seq<string>): Option<Fence> {
    if lines == [] then None
    else
      var before, fence := Open(lines[..|lines| - 1]), FenceOf(lines[|lines| - 1]);
      if fence.None? then before
      else if before.None? then fence
      else if before.value.mark == fence.value.mark && fence.value.length >= before.value.length then None
      else before
  }

  /** Line `k` is neither a fence line nor inside a fence. */
  predicate PlainAt(lines: seq<string>, k: nat)
    requires k < |lines|
  {
    FenceOf(lines[k]).None? && Open(lines[..k]).None?
  }

  // ---------------------------------------------------------------- pieces

  datatype Piece = Verbatim(line: string) | Run(lines: seq<string>)

  function LinesOf(piece: Piece): seq<string> {
    match piece
    case Verbatim(line) => [line]
    case Run(lines) => lines
  }

  function AllLines(pieces: seq<Piece>): seq<string> {
    if pieces == [] then [] else AllLines(pieces[..|pieces| - 1]) + LinesOf(pieces[|pieces| - 1])
  }

  /** For every line, whether it is in a run. */
  function InRuns(pieces: seq<Piece>): seq<bool> {
    if pieces == [] then []
    else InRuns(pieces[..|pieces| - 1]) + seq(|LinesOf(pieces[|pieces| - 1])|, _ => pieces[|pieces| - 1].Run?)
  }

  /** No run is empty, and none follows another. */
  predicate Maximal(pieces: seq<Piece>) {
    && (forall k | 0 <= k < |pieces| :: pieces[k].Run? ==> pieces[k].lines != [])
    && (forall k | 0 < k < |pieces| :: pieces[k].Run? ==> pieces[k - 1].Verbatim?)
  }

  /** Every line is in exactly one piece, in order; the plain ones make up the runs, which are
      maximal. */
  predicate Cuts(pieces: seq<Piece>, lines: seq<string>) {
    && AllLines(pieces) == lines && Maximal(pieces)
    && |InRuns(pieces)| == |lines| && forall k | 0 <= k < |lines| :: InRuns(pieces)[k] == PlainAt(lines, k)
  }

  /** The pieces of a document, line by line. */
  function Pieces(lines: seq<string>): seq<Piece> {
    if lines == [] then []
    else
      var n := |lines| - 1;
      var before := Pieces(lines[..n]);
      if !PlainAt(lines, n) then before + [Verbatim(lines[n])]
      else if before != [] && before[|before| - 1].Run?
      then before[..|before| - 1] + [Run(before[|before| - 1].lines + [lines[n]])]
      else before + [Run([lines[n]])]
  }

  /** A protected line as it is; a run rewritten once. */
  function Outputs(pieces: seq<Piece>, rewrite: string -> string): seq<string> {
    if pieces == [] then []
    else
      var last := pieces[|pieces| - 1];
      Outputs(pieces[..|pieces| - 1], rewrite) + [if last.Verbatim? then last.line else rewrite(Join(last.lines))]
  }

  /** A protected line is written as it is; a run is joined and rewritten as a whole. */
  lemma {:induction false} OutputsAt(pieces: seq<Piece>, rewrite: string -> string, k: nat)
    requires k < |pieces|
    ensures |Outputs(pieces, rewrite)| == |pieces|
    ensures pieces[k].Verbatim? ==> Outputs(pieces, rewrite)[k] == pieces[k].line
    ensures pieces[k].Run? ==> Outputs(pieces, rewrite)[k] == rewrite(Join(pieces[k].lines))
  {
    var n := |pieces| - 1;
    if k < n {
      OutputsAt(pieces[..n], rewrite, k);
    } else if n > 0 {
      OutputsAt(pieces[..n], rewrite, n - 1);
    }
  }

  function WithBuffer(pieces: seq<Piece>, plainBuffer: seq<string>): seq<Piece> {
    if plainBuffer == [] then pieces else pieces + [Run(plainBuffer)]
  }

  /** The written pieces and the buffered run are those of the lines read so far. */
  ghost predicate Scanning(pieces: seq<Piece>, plainBuffer: seq<string>, out: seq<string>, lines: seq<string>,
                           rewrite: string -> string)
  {
    forall k: nat {:trigger Key(k)} :: Key(k) ==>
      && WithBuffer(pieces, plainBuffer) == Pieces(lines) && out == Outputs(pieces, rewrite)
      && (pieces == [] || pieces[|pieces| - 1].Verbatim?)
      && (plainBuffer != [] ==> Open(lines).None?)
  }

  lemma AppendPiece(pieces: seq<Piece>, piece: Piece, rewrite: string -> string)
    ensures AllLines(pieces + [piece]) == AllLines(pieces) + LinesOf(piece)
    ensures InRuns(pieces + [piece]) == InRuns(pieces) + seq(|LinesOf(piece)|, _ => piece.Run?)
    ensures Outputs(pieces + [piece], rewrite) ==
            Outputs(pieces, rewrite) + [if piece.Verbatim? then piece.line else rewrite(Join(piece.lines))]
  {
    assert (pieces + [piece])[..|pieces|] == pieces;
  }

  lemma OpenSnoc(lines: seq<string>, line: string)
    ensures Open(lines + [line]) ==
            if FenceOf(line).None? then Open(lines)
            else if Open(lines).None? then FenceOf(line)
            else if Open(lines).value.mark == FenceOf(line).value.mark
                    && FenceOf(line).value.length >= Open(lines).value.length then None
            else Open(lines)
  {
    assert (lines + [line])[..|lines|] == lines;
  }

  /** The plain lines so far stay plain, and the next one is what it is. */
  lemma PlainSnoc(runs: seq<bool>, lines: seq<string>, line: string)
    requires |runs| == |lines| && forall k | 0 <= k < |lines| :: runs[k] == PlainAt(lines, k)
    ensures
      var now := FenceOf(line).None? && Open(lines).None?;
      forall k | 0 <= k < |lines + [line]| :: (runs + [now])[k] == PlainAt(lines + [line], k)
  {
    var more := lines + [line];
    forall k | 0 <= k < |more| ensures (runs + [FenceOf(line).None? && Open(lines).None?])[k] == PlainAt(more, k) {
      if k < |lines| {
        assert more[..k] == lines[..k] && more[k] == lines[k];
      } else {
        assert more[..k] == lines;
      }
    }
  }

  lemma CutVerbatim(pieces: seq<Piece>, lines: seq<string>, line: string)
    requires Cuts(pieces, lines) && (FenceOf(line).Some? || Open(lines).Some?)
    ensures Cuts(pieces + [Verbatim(line)], lines + [line])
  {
    AppendPiece(pieces, Verbatim(line), s => s);
    PlainSnoc(InRuns(pieces), lines, line);
    assert seq(1, _ => false) == [false];
  }

  lemma CutPlain(pieces: seq<Piece>, lines: seq<string>, line: string)
    requires Cuts(pieces, lines) && FenceOf(line).None? && Open(lines).None?
    requires pieces == [] || pieces[|pieces| - 1].Verbatim?
    ensures Cuts(pieces + [Run([line])], lines + [line])
  {
    hide FenceOf, Open;
    AppendPiece(pieces, Run([line]), s => s);
    PlainSnoc(InRuns(pieces), lines, line);
    assert seq(1, _ => true) == [true];
  }

  lemma MaximalLonger(pieces: seq<Piece>, run: seq<string>, line: string)
    requires Maximal(pieces + [Run(run)])
    ensures Maximal(pieces + [Run(run + [line])])
  {
    var before, after := pieces + [Run(run)], pieces + [Run(run + [line])];
    forall k | 0 < k < |after| && after[k].Run? ensures after[k - 1].Verbatim? {
      assert before[k].Run? && before[k - 1].Verbatim?;
    }
    forall k | 0 <= k < |after| && after[k].Run? ensures after[k].lines != [] {
      assert before[k].Run?;
    }
  }

  /** A longer run adds its line, and one more place in a run. */
  lemma LongerRun(pieces: seq<Piece>, run: seq<string>, line: string)
    ensures AllLines(pieces + [Run(run + [line])]) == AllLines(pieces + [Run(run)]) + [line]
    ensures InRuns(pieces + [Run(run + [line])]) == InRuns(pieces + [Run(run)]) + [true]
  {
    hide AllLines, InRuns, Outputs;
    AppendPiece(pieces, Run(run), s => s);
    AppendPiece(pieces, Run(run + [line]), s => s);
    assert seq(|run + [line]|, _ => true) == seq(|run|, _ => true) + [true];
    assert InRuns(pieces) + (seq(|run|, _ => true) + [true]) == InRuns(pieces) + seq(|run|, _ => true) + [true];
    assert AllLines(pieces) + (run + [line]) == AllLines(pieces) + run + [line];
  }

  lemma CutLonger(pieces: seq<Piece>, run: seq<string>, lines: seq<string>, line: string)
    requires Cuts(pieces + [Run(run)], lines) && FenceOf(line).None? && Open(lines).None?
    ensures Cuts(pieces + [Run(run + [line])], lines + [line])
  {
    MaximalLonger(pieces, run, line);
    LongerRun(pieces, run, line);
    PlainSnoc(InRuns(pieces + [Run(run)]), lines, line);
  }

  lemma PiecesSnoc(lines: seq<string>, line: string)
    ensures
      var before := Pieces(lines);
      Pieces(lines + [line]) ==
        if FenceOf(line).Some? || Open(lines).Some? then before + [Verbatim(line)]
        else if before != [] && before[|before| - 1].Run?
        then before[..|before| - 1] + [Run(before[|before| - 1].lines + [line])]
        else before + [Run([line])]
  {
    assert (lines + [line])[..|lines|] == lines;
  }

  lemma NoPieces()
    ensures Cuts(Pieces([]), [])
  {
  }

  /** The pieces are the lines, in order, cut into protected lines and maximal plain runs. */
  lemma {:induction false} PiecesCut(lines: seq<string>)
    ensures Cuts(Pieces(lines), lines)
  {
    hide FenceOf, Open, Cuts, Pieces;
    if lines == [] {
      NoPieces();
    } else {
      var init, line := lines[..|lines| - 1], lines[|lines| - 1];
      var before := Pieces(init);
      PiecesCut(init);
      PiecesSnoc(init, line);
      assert lines == init + [line];
      if FenceOf(line).Some? || Open(init).Some? {
        CutVerbatim(before, init, line);
      } else if before != [] && before[|before| - 1].Run? {
        assert before == before[..|before| - 1] + [Run(before[|before| - 1].lines)];
        CutLonger(before[..|before| - 1], before[|before| - 1].lines, init, line);
      } else {
        CutPlain(before, init, line);
      }
    }
  }

  // ---------------------------------------------------------------- the loop

  function Flushed(out: seq<string>, plainBuffer: seq<string>, rewrite: string -> string): seq<string> {
    if plainBuffer == [] then out else out + [rewrite(Join(plainBuffer))]
  }

  method FlushPlain(out: seq<string>, plainBuffer: seq<string>, rewrite: string -> string) returns (out': seq<string>)
    ensures out' == Flushed(out, plainBuffer, rewrite)
  {
    if plainBuffer == [] {
      return out;
    }
    out' := out + [rewrite(Join(plainBuffer))];
  }

  lemma FlushedIs(pieces: seq<Piece>, plainBuffer: seq<string>, rewrite: string -> string)
    ensures Outputs(WithBuffer(pieces, plainBuffer), rewrite) == Flushed(Outputs(pieces, rewrite), plainBuffer, rewrite)
  {
    AppendPiece(pieces, Run(plainBuffer), rewrite);
  }

  lemma Protect(pieces: seq<Piece>, plainBuffer: seq<string>, out: seq<string>, lines: seq<string>, line: string,
                rewrite: string -> string)
    requires Scanning(pieces, plainBuffer, out, lines, rewrite) && (FenceOf(line).Some? || Open(lines).Some?)
    ensures Scanning(WithBuffer(pieces, plainBuffer) + [Verbatim(line)], [],
                     Flushed(out, plainBuffer, rewrite) + [line], lines + [line], rewrite)
    ensures Open(lines).Some? ==> plainBuffer == []
  {
    assert Key(0);
    PiecesSnoc(lines, line);
    FlushedIs(pieces, plainBuffer, rewrite);
    AppendPiece(WithBuffer(pieces, plainBuffer), Verbatim(line), rewrite);
  }

  lemma Buffer(pieces: seq<Piece>, plainBuffer: seq<string>, out: seq<string>, lines: seq<string>, line: string,
               rewrite: string -> string)
    requires Scanning(pieces, plainBuffer, out, lines, rewrite) && FenceOf(line).None? && Open(lines).None?
    ensures Scanning(pieces, plainBuffer + [line], out, lines + [line], rewrite)
  {
    assert Key(0);
    OpenSnoc(lines, line);
    PiecesSnoc(lines, line);
    if plainBuffer == [] {
      assert plainBuffer + [line] == [line];
    } else {
      assert (pieces + [Run(plainBuffer)])[..|pieces|] == pieces;
    }
  }

  lemma AtFirst(rewrite: string -> string)
    ensures Scanning([], [], [], [], rewrite)
  {
  }

  lemma AtLast(pieces: seq<Piece>, plainBuffer: seq<string>, out: seq<string>, lines: seq<string>,
               rewrite: string -> string)
    requires Scanning(pieces, plainBuffer, out, lines, rewrite)
    ensures Flushed(out, plainBuffer, rewrite) == Outputs(Pieces(lines), rewrite)
  {
    assert Key(0);
    FlushedIs(pieces, plainBuffer, rewrite);
  }

  /** Every protected line is passed through, and every maximal run of plain lines is rewritten
      once, in order. */
  method RewriteOutsideFences(markdown: string, rewrite: string -> string) returns (result: string)
    ensures result == Join(Outputs(Pieces(Split(markdown)), rewrite))
  {
    var lines := Split(markdown);
    var out, plainBuffer: seq<string> := [], [];
    var inFence, fenceChar, fenceLength := false, ' ', 0;
    ghost var pieces := [];
    AtFirst(rewrite);
    assert lines[..0] == [];
    for i := 0 to |lines|
      invariant Scanning(pieces, plainBuffer, out, lines[..i], rewrite)
      invariant Open(lines[..i]) == if inFence then Some(Fence(fenceChar, fenceLength)) else None
    {
      var line := lines[i];
      ghost var done := lines[..i];
      assert lines[..i + 1] == done + [line];
      OpenSnoc(done, line);
      var fence := FenceOf(line);
      if fence.Some? || inFence {
        Protect(pieces, plainBuffer, out, done, line, rewrite);
        pieces := WithBuffer(pieces, plainBuffer) + [Verbatim(line)];
      }
      if fence.Some? {
        if !inFence {
          out := FlushPlain(out, plainBuffer, rewrite);
          plainBuffer := [];
          inFence, fenceChar, fenceLength := true, fence.value.mark, fence.value.length;
          out := out + [line];
          continue;
        }
        if fenceChar == fence.value.mark && fence.value.length >= fenceLength {
          inFence, fenceChar, fenceLength := false, ' ', 0;
        }
        out := out + [line];
        continue;
      }
      if inFence {
        out := out + [line];
      } else {
        Buffer(pieces, plainBuffer, out, done, line, rewrite);
        plainBuffer := plainBuffer + [line];
      }
    }
    assert lines[..|lines|] == lines;
    AtLast(pieces, plainBuffer, out, lines, rewrite);
    out := FlushPlain(out, plainBuffer, rewrite);
    result := Join(out);
  }

  /** The exported variant: line ends are normalised, and an empty text is not rewritten. */
  method TransformMarkdownOutsideFences(text: string, rewrite: string -> string) returns (result: string)
    ensures DropCR(text) == "" ==> result == ""
    ensures DropCR(text) != "" ==> result == Join(Outputs(Pieces(Split(DropCR(text))), rewrite))
  {
    var source := DropCR(text);
    if source == "" {
      return source;
    }
    result := RewriteOutsideFences(source, rewrite);
  }

  // ---------------------------------------------------------------- identity

  /** The rewriting gives every run back. */
  predicate ChangesNothing(pieces: seq<Piece>, rewrite: string -> string) {
    forall k | 0 <= k < |pieces| :: pieces[k].Run? ==> rewrite(Join(pieces[k].lines)) == Join(pieces[k].lines)
  }

  lemma {:induction false} JoinOutputs(pieces: seq<Piece>, rewrite: string -> string)
    requires Maximal(pieces) && pieces != [] && ChangesNothing(pieces, rewrite)
    ensures AllLines(pieces) != [] && Join(Outputs(pieces, rewrite)) == Join(AllLines(pieces))
  {
    var init, last := pieces[..|pieces| - 1], pieces[|pieces| - 1];
    assert pieces == init + [last];
    AppendPiece(init, last, rewrite);
    var text := if last.Verbatim? then last.line else rewrite(Join(last.lines));
    assert Join([text]) == Join(LinesOf(last));
    if init == [] {
      assert Outputs(init, rewrite) + [text] == [text] && AllLines(init) + LinesOf(last) == LinesOf(last);
    } else {
      JoinOutputs(init, rewrite);
      JoinAppend(Outputs(init, rewrite), [text]);
      JoinAppend(AllLines(init), LinesOf(last));
    }
  }

  /** A rewriting that changes nothing in any run leaves the whole text unchanged. */
  lemma IdentityRewrite(markdown: string, rewrite: string -> string)
    requires ChangesNothing(Pieces(Split(markdown)), rewrite)
    ensures Join(Outputs(Pieces(Split(markdown)), rewrite)) == markdown
  {
    hide Pieces, Outputs;
    JoinSplit(markdown);
    PiecesCut(Split(markdown));
    assert AllLines([]) == [];
    JoinOutputs(Pieces(Split(markdown)), rewrite);
  }
}
