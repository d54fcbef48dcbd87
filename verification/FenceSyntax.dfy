/** What opens and closes a block, and how a block is rewritten, in terms of characters and runs. */
module FenceSyntax {
  import opened Wrappers
  import opened Texts
  import opened Fences

  /** White space by code points: ASCII white space, the no-break space, the Unicode spaces, the
      line and paragraph separators and the byte order mark. */
  lemma SpaceCodes(c: char)
    ensures
      var n := c as int;
      IsSpace(c) <==> (9 <= n <= 13 || 8192 <= n <= 8202 || n in {32, 160, 5760, 8232, 8233, 8239, 8287, 12288, 65279})
  {
  }

  /** A line opens a block exactly when it is up to three white-space characters, a run of at
      least three fence characters, and a suffix that does not go on with the run. */
  lemma OpeningMeans(line: string, indent: string, c: char, n: nat, suffix: string)
    ensures ParseOpening(line) == Some(Opening(indent, c, n, suffix)) <==>
            && line == indent + Repeat(c, n) + suffix
            && (forall x <- indent :: IsSpace(x)) && |indent| <= 3
            && (c == '`' || c == '~') && n >= 3
            && (suffix == "" || suffix[0] != c)
  {
    hide ParseOpening, Repeat;
    if ParseOpening(line) == Some(Opening(indent, c, n, suffix)) {
      ParsedLine(line);
    } else if Blank(indent) && |indent| <= 3 && IsFence(c) && n >= 3 && Lead(suffix, c) == 0 {
      ParseWritten(indent, c, n, suffix);
      assert suffix[0..] == suffix;
    }
  }

  /** A line closes a block that `length` characters `c` have opened exactly when it is up to three
      white-space characters, a run of `c` at least as long, and white space: a fence with a tag
      behind it closes nothing. */
  lemma ClosesMeans(line: string, c: char, length: nat)
    requires (c == '`' || c == '~') && length >= 3
    ensures Closes(line, c, length) <==>
            exists indent, m: nat, tail ::
              && line == indent + Repeat(c, m) + tail
              && (forall x <- indent :: IsSpace(x)) && |indent| <= 3 && m >= length && forall x <- tail :: IsSpace(x)
  {
    hide ParseOpening, Repeat;
    if Closes(line, c, length) {
      var o := ParseOpening(line).value;
      ParsedLine(line);
      assert line == o.indent + Repeat(c, o.length) + o.suffix;
    } else if indent, m: nat, tail :|
                && line == indent + Repeat(c, m) + tail
                && (forall x <- indent :: IsSpace(x)) && |indent| <= 3 && m >= length && forall x <- tail :: IsSpace(x)
    {
      ClosingLine(line, indent, c, m, tail);
    }
  }

  lemma ClosingLine(line: string, indent: string, c: char, m: nat, tail: string)
    requires line == indent + Repeat(c, m) + tail && Blank(indent) && |indent| <= 3 && IsFence(c) && m >= 3
    requires Blank(tail)
    ensures Closes(line, c, m)
  {
    assert tail != "" ==> tail[0] in tail;
    OpeningMeans(line, indent, c, m, tail);
  }

  // ---------------------------------------------------------------- runs

  /** Somewhere in the text there are `n` characters `c` in a row. */
  ghost predicate HasRun(s: string, c: char, n: nat) {
    Contains(s, Repeat(c, n))
  }

  lemma {:induction false} LongestRunAt(s: string, c: char) returns (i: nat)
    ensures i + LongestRun(s, c) <= |s| && s[i..i + LongestRun(s, c)] == Repeat(c, LongestRun(s, c))
  {
    i := 0;
    if s != "" {
      if Lead(s, c) < LongestRun(s[1..], c) {
        var k := LongestRunAt(s[1..], c);
        i := k + 1;
        assert s[1..][k..k + LongestRun(s, c)] == s[i..i + LongestRun(s, c)];
      } else {
        LeadSplit(s, c);
        assert s[..Lead(s, c)] == Repeat(c, Lead(s, c));
      }
    }
  }

  /** The longest run is at least `n` long exactly when there is a run of `n`. */
  lemma LongestRunMeans(s: string, c: char, n: nat)
    ensures LongestRun(s, c) >= n <==> HasRun(s, c, n)
  {
    if LongestRun(s, c) >= n {
      var i := LongestRunAt(s, c);
      assert s[i..i + n] == s[i..i + LongestRun(s, c)][..n] == Repeat(c, n);
      assert s == s[..i] + s[i..i + n] + s[i + n..];
    }
    if before, after :| s == before + Repeat(c, n) + after {
      assert s[|before|..] == Repeat(c, n) + after;
      LeadRepeat(c, n, after);
      LeadWithin(s, |before|, c);
    }
  }

  lemma RunOfOne(s: string, c: char)
    ensures HasRun(s, c, 1) <==> c in s
  {
    assert Repeat(c, 1) == [c];
    if c in s {
      var i :| 0 <= i < |s| && s[i] == c;
      assert s == s[..i] + [c] + s[i + 1..];
    }
    if before, after :| s == before + Repeat(c, 1) + after {
      assert s[|before|] == c;
    }
  }

  lemma NoRun(s: string, c: char, n: nat)
    requires c !in s && n > 0
    ensures !HasRun(s, c, n)
  {
    forall before, after ensures s != before + Repeat(c, n) + after {
      assert (before + Repeat(c, n) + after)[|before|] == c;
    }
  }

  // ---------------------------------------------------------------- the rewriting

  /** A fence of this character and length is safe around the text. */
  ghost predicate Holds(c: char, length: nat, text: string) {
    (c == '`' || c == '~') && length >= 3 && !HasRun(text, c, length)
  }

  lemma NeededMeans(text: string, c: char, n: nat)
    requires IsFence(c)
    ensures Holds(c, n, text) <==> n >= Needed(text, c)
  {
    LongestRunMeans(text, c, n);
  }

  /** A block is rewritten exactly when its content has a run of the fence character that is as
      long as the fence. It then keeps indentation, suffix and content, and gets the same fence
      twice: one that is safe around the content; no other safe one is shorter, and one that is as
      short only when the chosen one is of tildes. */
  lemma RewriteMeans(indent: string, c: char, n: nat, suffix: string, content: seq<string>, closing: string)
    returns (mark: char, length: nat)
    requires (forall x <- indent :: IsSpace(x)) && |indent| <= 3 && (c == '`' || c == '~') && n >= 3
    requires suffix == "" || suffix[0] != c
    ensures
      var block := Fenced(indent + Repeat(c, n) + suffix, content, closing);
      && (!HasRun(Join(content), c, n) ==> Rewrite(block) == block)
      && (HasRun(Join(content), c, n) ==>
            Rewrite(block) == Fenced(indent + Repeat(mark, length) + suffix, content, indent + Repeat(mark, length)))
    ensures Holds(mark, length, Join(content))
    ensures forall d, m: nat | Holds(d, m, Join(content)) :: length < m || (length == m && (d == mark || mark == '~'))
  {
    hide ParseOpening, Repeat, Join, HasRun;
    var text := Join(content);
    OpeningMeans(indent + Repeat(c, n) + suffix, indent, c, n, suffix);
    LongestRunMeans(text, c, n);
    mark, length := Marker(text), Needed(text, Marker(text));
    NeededMeans(text, mark, length);
    forall d, m: nat | Holds(d, m, text) ensures length < m || (length == m && (d == mark || mark == '~')) {
      NeededMeans(text, d, m);
    }
    assert indent + Repeat(mark, length) + "" == indent + Repeat(mark, length);
  }

  // ---------------------------------------------------------------- documents

  /** The normalised lines of a document that begins with a block: the rewritten block, which ends
      at the first line that closes it, and the normalised rest. */
  lemma BlockFirst(opening: string, o: Opening, content: seq<string>, closing: string, rest: seq<string>)
    requires ParseOpening(opening) == Some(o) && Closes(closing, o.mark, o.length)
    requires forall k | 0 <= k < |content| :: !Closes(content[k], o.mark, o.length)
    ensures NormalizeLines([opening] + content + [closing] + rest) ==
            Unscan(Rewrite(Fenced(opening, content, closing))) + NormalizeLines(rest)
  {
    hide ParseOpening, FindClose, Scan, Closes, Rewrite, Unscan, NormalizeLines;
    var lines, k := [opening] + content + [closing] + rest, |content|;
    assert lines[1..] == content + [closing] + rest;
    FindCloseAt(lines[1..], o.mark, o.length, k);
    assert lines[0..] == lines && lines[1..k + 1] == content && lines[k + 2..] == rest;
    BlockAt(lines, 0, k + 1, o);
    NormalizeCons(lines);
  }

  /** And of one that begins with a line which opens nothing, or a block that is never closed. */
  lemma LineFirst(line: string, rest: seq<string>)
    requires ParseOpening(line).Some? ==>
      forall k | 0 <= k < |rest| :: !Closes(rest[k], ParseOpening(line).value.mark, ParseOpening(line).value.length)
    ensures NormalizeLines([line] + rest) == [line] + NormalizeLines(rest)
  {
    hide ParseOpening, FindClose, Scan, Closes, NormalizeLines;
    var lines := [line] + rest;
    assert lines[0..] == lines && lines[1..] == rest;
    if ParseOpening(line).Some? {
      FindCloseAt(rest, ParseOpening(line).value.mark, ParseOpening(line).value.length, |rest|);
    }
    PlainAt(lines, 0);
  }

  /** A fence with a tag does not close a block: it is content, and a run of it makes the block
      change to tildes. */
  lemma TaggedFenceInside()
    ensures NormalizeLines(["```", "``` js", "x", "```"]) == ["~~~", "``` js", "x", "~~~"]
  {
    hide ParseOpening, Closes, Rewrite, NormalizeLines;
    var content := ["``` js", "x"];
    assert "```" == "" + Repeat('`', 3) + "" && "``` js" == "" + Repeat('`', 3) + " js";
    OpeningMeans("```", "", '`', 3, "");
    OpeningMeans("``` js", "", '`', 3, " js");
    ClosingLine("```", "", '`', 3, "");
    TagClosesNothing();
    LetterClosesNothing();
    BlockFirst("```", Opening("", '`', 3, ""), content, "```", []);
    assert ["```"] + content + ["```"] + [] == ["```", "``` js", "x", "```"];
    TildesFit();
    assert Unscan(Fenced("~~~", content, "~~~")) == ["~~~", "``` js", "x", "~~~"];
    NoLines();
    assert ["~~~", "``` js", "x", "~~~"] + [] == ["~~~", "``` js", "x", "~~~"];
  }

  lemma NoLines()
    ensures NormalizeLines([]) == []
  {
  }

  lemma TagClosesNothing()
    ensures !Closes("``` js", '`', 3)
  {
    hide ParseOpening;
    assert "``` js" == "" + Repeat('`', 3) + " js";
    OpeningMeans("``` js", "", '`', 3, " js");
    assert !Blank(" js") by {
      assert " js"[1] in " js";
    }
  }

  lemma LetterClosesNothing()
    ensures !Closes("x", '`', 3)
  {
    assert Indent("x") == 0;
  }

  lemma TildesFit()
    ensures Rewrite(Fenced("```", ["``` js", "x"], "```")) == Fenced("~~~", ["``` js", "x"], "~~~")
  {
    hide Rewrite;
    var content := ["``` js", "x"];
    var text := "``` js\nx";
    assert content[1..] == ["x"] && Join(content) == text;
    var mark, length := RewriteMeans("", '`', 3, "", content, "```");
    assert "```" == "" + Repeat('`', 3) + "";
    assert text == "" + Repeat('`', 3) + " js\nx";
    NoRun(text, '~', 3);
    assert Holds('~', 3, text);
    assert !Holds('`', 3, text);
    assert "~~~" == "" + Repeat('~', 3) + "" == "" + Repeat('~', 3);
  }
}
