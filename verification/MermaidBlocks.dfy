/** Replacing rendered Mermaid blocks of a document by images. */
module MermaidBlocks {
  import opened Wrappers
  import opened Texts

  // ---------------------------------------------------------------- the blocks of a document

  /** A block of the document; `source` is its body without trailing white space. */
  datatype Block = Block(start: nat, end: nat, source: string, number: nat)

  /** The first place at or after `i` where `literal` begins, or the end. */
  function Seek(s: string, i: nat, literal: string): (r: nat)
    requires i <= |s|
    ensures i <= r <= |s| && (r < |s| ==> literal <= s[r..])
    decreases |s| - i
  {
    if i == |s| || literal <= s[i..] then i else Seek(s, i + 1, literal)
  }

  /** `/```mermaid[^\n]*\n([\s\S]*?)```/i` at `i`. */
  function BlockAt(s: string, i: nat, number: nat): (r: Option<Block>)
    ensures r.Some? ==> r.value.start == i < r.value.end <= |s| && r.value.number == number
  {
    if !Spells(s, i, "```mermaid") then None
    else
      var newline := Seek(s, i + |"```mermaid"|, "\n");
      if newline == |s| then None
      else
        var fence := Seek(s, newline + 1, "```");
        if fence == |s| then None else Some(Block(i, fence + 3, TrimEnd(s[newline + 1..fence]), number))
  }

  /** The next match of the expression from `i` on. */
  function NextBlock(s: string, i: nat, number: nat): (r: Option<Block>)
    requires i <= |s|
    ensures r.Some? ==> i <= r.value.start < r.value.end <= |s| && BlockAt(s, r.value.start, number) == r
    decreases |s| - i
  {
    if i == |s| then None
    else if BlockAt(s, i, number).Some? then BlockAt(s, i, number)
    else NextBlock(s, i + 1, number)
  }

  /** All matches from `i` on, none overlapping, numbered from `number`. */
  function BlocksFrom(s: string, i: nat, number: nat): (r: seq<Block>)
    requires i <= |s|
    ensures Ordered(r, i, |s|)
    decreases |s| - i
  {
    var next := NextBlock(s, i, number);
    if next.None? then [] else [next.value] + BlocksFrom(s, next.value.end, number + 1)
  }

  predicate Ordered(blocks: seq<Block>, from: nat, to: nat) {
    if blocks == [] then from <= to
    else from <= blocks[0].start < blocks[0].end && Ordered(blocks[1..], blocks[0].end, to)
  }

  // ---------------------------------------------------------------- substitution

  /** The document from `from` on, each block replaced by its text. */
  function Weave(s: string, blocks: seq<Block>, texts: seq<string>, from: nat): string
    requires Ordered(blocks, from, |s|) && |texts| == |blocks|
  {
    if blocks == [] then s[from..]
    else
      OrderedEnd(blocks, from, |s|);
      s[from..blocks[0].start] + texts[0] + Weave(s, blocks[1..], texts[1..], blocks[0].end)
  }

  lemma {:induction false} OrderedEnd(blocks: seq<Block>, from: nat, to: nat)
    requires Ordered(blocks, from, to)
    ensures from <= to && forall k | 0 <= k < |blocks| :: from <= blocks[k].start < blocks[k].end <= to
  {
    if blocks != [] {
      OrderedEnd(blocks[1..], blocks[0].end, to);
      forall k | 0 <= k < |blocks| ensures from <= blocks[k].start < blocks[k].end <= to {
        if k > 0 {
          assert blocks[k] == blocks[1..][k - 1];
        }
      }
    }
  }

  function Raw(s: string, block: Block): string
    requires block.start <= block.end <= |s|
  {
    s[block.start..block.end]
  }

  // ---------------------------------------------------------------- attempts

  datatype Attempt = Success | Failure | CliMissing

  /** What the run meets outside: which sources have a rendering on disk, what rendering one
      gives, and the markdown that refers to a rendering. */
  datatype Renderer = Renderer(cached: string -> bool, render: string -> Attempt, image: (string, nat) -> string)

  function Sources(blocks: seq<Block>): seq<string> {
    if blocks == [] then [] else Sources(blocks[..|blocks| - 1]) + [blocks[|blocks| - 1].source]
  }

  /** The sources without a cached rendering, each once, in the order of their first block. */
  function FirstSeen(sources: seq<string>, r: Renderer): seq<string> {
    if sources == [] then []
    else
      var before, last := sources[..|sources| - 1], sources[|sources| - 1];
      FirstSeen(before, r) + (if last in before || r.cached(last) then [] else [last])
  }

  /** Attempts are made in that order, and end with the one that finds no renderer. */
  predicate Attempted(attempts: seq<string>, missing: bool, sources: seq<string>, r: Renderer) {
    && attempts <= FirstSeen(sources, r)
    && (!missing ==> attempts == FirstSeen(sources, r))
    && (missing <==> attempts != [] && r.render(attempts[|attempts| - 1]) == CliMissing)
    && (forall k | 0 <= k < |attempts| - 1 :: r.render(attempts[k]) != CliMissing)
  }

  predicate Rendered(source: string, attempts: seq<string>, r: Renderer) {
    r.cached(source) || (source in attempts && r.render(source) == Success)
  }

  lemma {:induction false} FirstSeenOnce(sources: seq<string>, r: Renderer)
    ensures forall x :: x in FirstSeen(sources, r) <==> x in sources && !r.cached(x)
    ensures Distinct(FirstSeen(sources, r))
  {
    if sources != [] {
      var before, last := sources[..|sources| - 1], sources[|sources| - 1];
      assert sources == before + [last];
      FirstSeenOnce(before, r);
      DistinctSnoc(FirstSeen(before, r), last);
      assert FirstSeen(before, r) + [] == FirstSeen(before, r);
    }
  }

  lemma DistinctSnoc(s: seq<string>, x: string)
    requires Distinct(s)
    ensures x !in s ==> Distinct(s + [x])
  {
  }

  /** No source is attempted twice, and none that has a cached rendering. */
  lemma AttemptedOnce(attempts: seq<string>, missing: bool, sources: seq<string>, r: Renderer)
    requires Attempted(attempts, missing, sources, r)
    ensures Distinct(attempts)
    ensures forall x <- attempts :: x in sources && !r.cached(x)
    ensures !missing ==> forall x <- sources :: r.cached(x) || x in attempts
  {
    FirstSeenOnce(sources, r);
    var seen := FirstSeen(sources, r);
    forall j, k | 0 <= j < k < |attempts| ensures attempts[j] != attempts[k] {
      assert attempts[j] == seen[j] && attempts[k] == seen[k];
    }
  }

  lemma SourcesNext(blocks: seq<Block>, i: nat)
    requires i < |blocks|
    ensures Sources(blocks[..i + 1]) == Sources(blocks[..i]) + [blocks[i].source]
  {
    assert blocks[..i + 1][..i] == blocks[..i];
  }

  lemma FirstSeenNext(sources: seq<string>, source: string, r: Renderer)
    ensures FirstSeen(sources + [source], r) ==
            FirstSeen(sources, r) + (if source in sources || r.cached(source) then [] else [source])
  {
    assert (sources + [source])[..|sources|] == sources;
  }

  lemma AttemptedSkip(attempts: seq<string>, missing: bool, sources: seq<string>, source: string, r: Renderer)
    requires Attempted(attempts, missing, sources, r)
    requires source in sources || r.cached(source) || missing
    ensures Attempted(attempts, missing, sources + [source], r)
  {
    FirstSeenNext(sources, source, r);
    assert FirstSeen(sources, r) + [] == FirstSeen(sources, r);
  }

  lemma AttemptedNext(attempts: seq<string>, sources: seq<string>, source: string, r: Renderer)
    requires Attempted(attempts, false, sources, r) && source !in sources && !r.cached(source)
    ensures Attempted(attempts + [source], r.render(source) == CliMissing, sources + [source], r)
  {
    FirstSeenNext(sources, source, r);
    var more := attempts + [source];
    forall k | 0 <= k < |more| - 1 ensures r.render(more[k]) != CliMissing {
      assert more[k] == attempts[k];
    }
  }

  /** What the map says of the sources met so far. */
  ghost predicate Knows(rendered: map<string, bool>, attempts: seq<string>, sources: seq<string>, r: Renderer) {
    && (forall x :: x in rendered <==> x in sources)
    && (forall x | x in rendered :: rendered[x] == Rendered(x, attempts, r))
  }

  lemma KnowsAgain(rendered: map<string, bool>, attempts: seq<string>, sources: seq<string>, source: string,
                   r: Renderer)
    requires Knows(rendered, attempts, sources, r) && source in rendered
    ensures Knows(rendered, attempts, sources + [source], r)
  {
  }

  lemma KnowsNext(rendered: map<string, bool>, attempts: seq<string>, attempts': seq<string>, sources: seq<string>,
                  source: string, r: Renderer)
    requires Knows(rendered, attempts, sources, r) && source !in rendered
    requires attempts' == attempts || attempts' == attempts + [source]
    ensures Knows(rendered[source := Rendered(source, attempts', r)], attempts', sources + [source], r)
  {
    forall x | x in rendered ensures Rendered(x, attempts', r) == Rendered(x, attempts, r) {}
  }

  // ---------------------------------------------------------------- the loops

  ghost predicate Rendering(rendered: map<string, bool>, attempts: seq<string>, missing: bool, sources: seq<string>,
                            r: Renderer)
  {
    forall k: nat {:trigger Key(k)} :: Key(k) ==>
      Knows(rendered, attempts, sources, r) && Attempted(attempts, missing, sources, r)
  }

  lemma Skip(rendered: map<string, bool>, attempts: seq<string>, missing: bool, sources: seq<string>, source: string,
             r: Renderer)
    requires Rendering(rendered, attempts, missing, sources, r)
    ensures source in rendered ==> Rendering(rendered, attempts, missing, sources + [source], r)
    ensures source !in rendered && (r.cached(source) || missing) ==>
              Rendering(rendered[source := r.cached(source)], attempts, missing, sources + [source], r)
  {
    assert Key(0);
    AttemptedOnce(attempts, missing, sources, r);
    if source in rendered {
      KnowsAgain(rendered, attempts, sources, source, r);
      AttemptedSkip(attempts, missing, sources, source, r);
    } else if r.cached(source) || missing {
      KnowsNext(rendered, attempts, attempts, sources, source, r);
      AttemptedSkip(attempts, missing, sources, source, r);
      assert Rendered(source, attempts, r) == r.cached(source);
    }
  }

  lemma Try(rendered: map<string, bool>, attempts: seq<string>, sources: seq<string>, source: string, r: Renderer)
    requires Rendering(rendered, attempts, false, sources, r) && source !in rendered && !r.cached(source)
    ensures Rendering(rendered[source := r.render(source) == Success], attempts + [source],
                      r.render(source) == CliMissing, sources + [source], r)
  {
    assert Key(0);
    KnowsNext(rendered, attempts, attempts + [source], sources, source, r);
    AttemptedNext(attempts, sources, source, r);
    assert Rendered(source, attempts + [source], r) == (r.render(source) == Success);
  }

  /** Renders each source that is not cached, until the renderer is found missing. */
  method RenderSources(blocks: seq<Block>, r: Renderer)
    returns (renderedBySource: map<string, bool>, missingCli: bool, attempts: seq<string>)
    ensures Rendering(renderedBySource, attempts, missingCli, Sources(blocks), r)
  {
    renderedBySource, missingCli, attempts := map[], false, [];
    assert blocks[..0] == [];
    for i := 0 to |blocks|
      invariant Rendering(renderedBySource, attempts, missingCli, Sources(blocks[..i]), r)
    {
      var source := blocks[i].source;
      SourcesNext(blocks, i);
      Skip(renderedBySource, attempts, missingCli, Sources(blocks[..i]), source, r);
      if source in renderedBySource {
        continue;
      }
      if r.cached(source) {
        renderedBySource := renderedBySource[source := true];
        continue;
      }
      if missingCli {
        renderedBySource := renderedBySource[source := false];
        continue;
      }
      Try(renderedBySource, attempts, Sources(blocks[..i]), source, r);
      attempts := attempts + [source];
      var outcome := r.render(source);
      if outcome == Success {
        renderedBySource := renderedBySource[source := true];
      } else {
        if outcome == CliMissing {
          missingCli := true;
        }
        renderedBySource := renderedBySource[source := false];
      }
    }
    assert blocks[..|blocks|] == blocks;
  }

  /** The found blocks and those from `i` on are all blocks. */
  ghost predicate Finding(s: string, blocks: seq<Block>, i: nat, number: nat) {
    i <= |s| &&
    forall k: nat {:trigger Key(k)} :: Key(k) ==> blocks + BlocksFrom(s, i, number) == BlocksFrom(s, 0, 1)
  }

  lemma FindStart(s: string)
    ensures Finding(s, [], 0, 1)
  {
    assert [] + BlocksFrom(s, 0, 1) == BlocksFrom(s, 0, 1);
  }

  lemma FindNext(s: string, blocks: seq<Block>, i: nat, number: nat)
    requires Finding(s, blocks, i, number)
    ensures
      var next := NextBlock(s, i, number);
      if next.None? then blocks == BlocksFrom(s, 0, 1)
      else i < next.value.end && Finding(s, blocks + [next.value], next.value.end, number + 1)
  {
    assert Key(0);
    var next := NextBlock(s, i, number);
    if next.None? {
      assert blocks + [] == blocks;
    } else {
      Associate(blocks, [next.value], BlocksFrom(s, next.value.end, number + 1));
    }
  }

  method FindBlocks(markdown: string) returns (blocks: seq<Block>)
    ensures blocks == BlocksFrom(markdown, 0, 1)
  {
    blocks := [];
    var lastIndex, blockNumber := 0, 1;
    FindStart(markdown);
    while true
      invariant Finding(markdown, blocks, lastIndex, blockNumber)
      decreases |markdown| - lastIndex
    {
      FindNext(markdown, blocks, lastIndex, blockNumber);
      var next := NextBlock(markdown, lastIndex, blockNumber);
      if next.None? {
        return;
      }
      blocks := blocks + [next.value];
      lastIndex, blockNumber := next.value.end, blockNumber + 1;
    }
  }

  /** The text of a block: its image if its source was rendered, otherwise the block itself. */
  function TextOf(s: string, block: Block, attempts: seq<string>, r: Renderer): string
    requires block.start <= block.end <= |s|
  {
    if Rendered(block.source, attempts, r) then r.image(block.source, block.number) else Raw(s, block)
  }

  function TextsOf(s: string, blocks: seq<Block>, attempts: seq<string>, r: Renderer, from: nat): (texts: seq<string>)
    requires Ordered(blocks, from, |s|)
    ensures |texts| == |blocks|
  {
    if blocks == [] then []
    else
      OrderedEnd(blocks, from, |s|);
      [TextOf(s, blocks[0], attempts, r)] + TextsOf(s, blocks[1..], attempts, r, blocks[0].end)
  }

  function CountRendered(blocks: seq<Block>, attempts: seq<string>, r: Renderer): (n: nat)
    ensures n <= |blocks|
  {
    if blocks == [] then 0
    else (if Rendered(blocks[0].source, attempts, r) then 1 else 0) + CountRendered(blocks[1..], attempts, r)
  }

  /** The text from `cursor` on, with its blocks replaced. */
  function Rest(s: string, blocks: seq<Block>, attempts: seq<string>, r: Renderer, cursor: nat): string
    requires Ordered(blocks, cursor, |s|)
  {
    Weave(s, blocks, TextsOf(s, blocks, attempts, r, cursor), cursor)
  }

  lemma RestNext(s: string, blocks: seq<Block>, i: nat, attempts: seq<string>, r: Renderer, cursor: nat)
    requires i < |blocks| && Ordered(blocks[i..], cursor, |s|)
    ensures
      var block := blocks[i];
      && cursor <= block.start < block.end <= |s| && Ordered(blocks[i + 1..], block.end, |s|)
      && Rest(s, blocks[i..], attempts, r, cursor) ==
         s[cursor..block.start] + TextOf(s, block, attempts, r) + Rest(s, blocks[i + 1..], attempts, r, block.end)
      && CountRendered(blocks[i..], attempts, r) ==
         (if Rendered(block.source, attempts, r) then 1 else 0) + CountRendered(blocks[i + 1..], attempts, r)
  {
    OrderedEnd(blocks[i..], cursor, |s|);
    assert blocks[i..][1..] == blocks[i + 1..] && blocks[i..][0] == blocks[i];
    var texts := TextsOf(s, blocks[i..], attempts, r, cursor);
    assert texts[1..] == TextsOf(s, blocks[i + 1..], attempts, r, blocks[i].end);
  }

  /** The blocks from `i` on are not yet in the output. */
  ghost predicate Weaving(s: string, blocks: seq<Block>, i: nat, out: string, cursor: nat, replaced: nat, failed: nat,
                          attempts: seq<string>, r: Renderer)
  {
    forall k: nat {:trigger Key(k)} :: Key(k) ==>
      && i <= |blocks| && cursor <= |s| && Ordered(blocks, 0, |s|) && Ordered(blocks[i..], cursor, |s|)
      && out + Rest(s, blocks[i..], attempts, r, cursor) == Rest(s, blocks, attempts, r, 0)
      && replaced + CountRendered(blocks[i..], attempts, r) == CountRendered(blocks, attempts, r)
      && replaced + failed == i
  }

  lemma WeavingStart(s: string, blocks: seq<Block>, attempts: seq<string>, r: Renderer)
    requires Ordered(blocks, 0, |s|)
    ensures Weaving(s, blocks, 0, "", 0, 0, 0, attempts, r)
  {
    assert blocks[0..] == blocks;
    assert "" + Rest(s, blocks, attempts, r, 0) == Rest(s, blocks, attempts, r, 0);
  }

  lemma WeavingNext(s: string, blocks: seq<Block>, i: nat, out: string, cursor: nat, replaced: nat, failed: nat,
                    attempts: seq<string>, r: Renderer)
    requires Weaving(s, blocks, i, out, cursor, replaced, failed, attempts, r) && i < |blocks|
    ensures
      var block := blocks[i];
      && cursor <= block.start <= block.end <= |s|
      && var done := Rendered(block.source, attempts, r);
      Weaving(s, blocks, i + 1, out + s[cursor..block.start] + TextOf(s, block, attempts, r), block.end,
              if done then replaced + 1 else replaced, if done then failed else failed + 1, attempts, r)
  {
    assert Key(0);
    RestNext(s, blocks, i, attempts, r, cursor);
    AssociateFour(out, s[cursor..blocks[i].start], TextOf(s, blocks[i], attempts, r),
                  Rest(s, blocks[i + 1..], attempts, r, blocks[i].end));
  }

  lemma WeavingEnd(s: string, blocks: seq<Block>, out: string, cursor: nat, replaced: nat, failed: nat,
                   attempts: seq<string>, r: Renderer)
    requires Weaving(s, blocks, |blocks|, out, cursor, replaced, failed, attempts, r)
    ensures cursor <= |s| && Ordered(blocks, 0, |s|) && out + s[cursor..] == Rest(s, blocks, attempts, r, 0)
    ensures replaced == CountRendered(blocks, attempts, r) && replaced + failed == |blocks|
  {
    assert Key(0);
    assert blocks[|blocks|..] == [];
  }

  method Substitute(markdown: string, blocks: seq<Block>, renderedBySource: map<string, bool>, attempts: seq<string>,
                    r: Renderer)
    returns (transformed: string, replaced: nat, failed: nat)
    requires Ordered(blocks, 0, |markdown|)
    requires forall k | 0 <= k < |blocks| ::
      var source := blocks[k].source;
      source in renderedBySource && renderedBySource[source] == Rendered(source, attempts, r)
    ensures transformed == Rest(markdown, blocks, attempts, r, 0)
    ensures replaced == CountRendered(blocks, attempts, r) && replaced + failed == |blocks|
  {
    var cursor: nat := 0;
    transformed, replaced, failed := "", 0, 0;
    WeavingStart(markdown, blocks, attempts, r);
    for i := 0 to |blocks|
      invariant Weaving(markdown, blocks, i, transformed, cursor, replaced, failed, attempts, r)
    {
      var block := blocks[i];
      WeavingNext(markdown, blocks, i, transformed, cursor, replaced, failed, attempts, r);
      transformed := transformed + markdown[cursor..block.start];
      if renderedBySource[block.source] {
        replaced := replaced + 1;
        transformed := transformed + r.image(block.source, block.number);
      } else {
        failed := failed + 1;
        transformed := transformed + markdown[block.start..block.end];
      }
      cursor := block.end;
    }
    WeavingEnd(markdown, blocks, transformed, cursor, replaced, failed, attempts, r);
    transformed := transformed + markdown[cursor..];
  }

  datatype Result = Result(markdown: string, found: nat, replaced: nat, failed: nat, missingCli: bool)

  lemma {:induction false} SourceOfBlock(blocks: seq<Block>, k: nat)
    requires k < |blocks|
    ensures blocks[k].source in Sources(blocks)
  {
    if k < |blocks| - 1 {
      SourceOfBlock(blocks[..|blocks| - 1], k);
    }
  }

  /** The blocks whose source was rendered are replaced by images and nothing else changes; each
      source is attempted at most once, in order, and none after the renderer is found missing. */
  method PreprocessMermaidForPdf(markdown: string, r: Renderer) returns (result: Result, attempts: seq<string>)
    ensures
      var blocks := BlocksFrom(markdown, 0, 1);
      && result.found == |blocks| == result.replaced + result.failed
      && result.replaced == CountRendered(blocks, attempts, r)
      && result.markdown == Rest(markdown, blocks, attempts, r, 0)
      && Attempted(attempts, result.missingCli, Sources(blocks), r)
  {
    var blocks := FindBlocks(markdown);
    assert Key(0);
    if blocks == [] {
      return Result(markdown, 0, 0, 0, false), [];
    }
    var renderedBySource, missingCli;
    renderedBySource, missingCli, attempts := RenderSources(blocks, r);
    forall k | 0 <= k < |blocks| ensures blocks[k].source in renderedBySource {
      SourceOfBlock(blocks, k);
    }
    var transformed, replaced, failed := Substitute(markdown, blocks, renderedBySource, attempts, r);
    result := Result(transformed, |blocks|, replaced, failed, missingCli);
  }

  // ---------------------------------------------------------------- what stays

  lemma {:induction false} NothingRendered(s: string, blocks: seq<Block>, attempts: seq<string>, r: Renderer, from: nat)
    requires Ordered(blocks, from, |s|) && CountRendered(blocks, attempts, r) == 0
    ensures from <= |s| && Rest(s, blocks, attempts, r, from) == s[from..]
  {
    OrderedEnd(blocks, from, |s|);
    if blocks != [] {
      assert blocks[0..] == blocks;
      RestNext(s, blocks, 0, attempts, r, from);
      NothingRendered(s, blocks[1..], attempts, r, blocks[0].end);
      Thirds(s, from, blocks[0].start, blocks[0].end);
    }
  }

  lemma Thirds(s: string, i: nat, j: nat, k: nat)
    requires i <= j <= k <= |s|
    ensures s[i..] == s[i..j] + s[j..k] + s[k..]
  {
  }

  /** A run that renders nothing leaves the document as it is. */
  lemma UnrenderedIsUnchanged(markdown: string, attempts: seq<string>, r: Renderer)
    requires CountRendered(BlocksFrom(markdown, 0, 1), attempts, r) == 0
    ensures Rest(markdown, BlocksFrom(markdown, 0, 1), attempts, r, 0) == markdown
  {
    NothingRendered(markdown, BlocksFrom(markdown, 0, 1), attempts, r, 0);
  }

  // ---------------------------------------------------------------- what a block is

  const OPENING := "```mermaid"

  /** These ten characters open a block, in any case. */
  predicate Opens(head: string) {
    |head| == 10 && forall k | 0 <= k < 10 ::
      head[k] == OPENING[k] || ('A' <= head[k] <= 'Z' && head[k] - 'A' + 'a' == OPENING[k])
  }

  lemma {:induction false} SeekIs(s: string, i: nat, j: nat, literal: string)
    requires i <= j <= |s| && literal != ""
    requires forall k | i <= k < j :: !(literal <= s[k..])
    requires j < |s| ==> literal <= s[j..]
    ensures Seek(s, i, literal) == j
    decreases j - i
  {
    if i < j {
      SeekIs(s, i + 1, j, literal);
    }
  }

  lemma {:induction false} SeekFirst(s: string, i: nat, literal: string)
    requires i <= |s|
    ensures forall k | i <= k < Seek(s, i, literal) :: !(literal <= s[k..])
    decreases |s| - i
  {
    if i < Seek(s, i, literal) {
      SeekFirst(s, i + 1, literal);
    }
  }

  lemma OpensSpells(s: string, i: nat, head: string)
    requires i + 10 <= |s| && s[i..i + 10] == head
    ensures Spells(s, i, OPENING) <==> Opens(head)
  {
    assert forall k | 0 <= k < 10 :: s[i + k] == head[k];
  }

  /** No fence ends within the body or where it meets the closing one. */
  predicate FenceFree(body: string) {
    forall k | 0 <= k < |body| :: !("```" <= (body + "```")[k..])
  }

  /** What is a block, wherever it stands: its opening, in any case, anything on the same line, its
      body, and the first three backticks after that line. The body is its source, without the
      white space at the end. */
  lemma BlockFound(s: string, i: nat, info: string, newline: nat, body: string, fence: nat, number: nat)
    requires i + 10 <= newline < fence && fence + 3 <= |s|
    requires Opens(s[i..i + 10]) && s[i + 10..newline] == info && '\n' !in info && s[newline] == '\n'
    requires s[newline + 1..fence] == body && FenceFree(body) && s[fence..fence + 3] == "```"
    ensures BlockAt(s, i, number) == Some(Block(i, fence + 3, TrimEnd(body), number))
  {
    hide TrimEnd, Seek, Opens, FenceFree, BlockAt, Spells;
    OpensSpells(s, i, s[i..i + 10]);
    NewlineFound(s, i + 10, info, newline);
    FenceFound(s, newline + 1, body, fence);
    BlockFrom(s, i, newline, fence, number);
  }

  lemma BlockFrom(s: string, i: nat, newline: nat, fence: nat, number: nat)
    requires Spells(s, i, OPENING) && i + 10 <= newline < |s| && newline < fence < |s|
    requires Seek(s, i + 10, "\n") == newline && Seek(s, newline + 1, "```") == fence
    ensures fence + 3 <= |s|
    ensures BlockAt(s, i, number) == Some(Block(i, fence + 3, TrimEnd(s[newline + 1..fence]), number))
  {
    hide TrimEnd, Seek, Spells;
  }

  lemma NewlineFound(s: string, from: nat, info: string, newline: nat)
    requires from <= newline < |s| && s[from..newline] == info && s[newline] == '\n' && '\n' !in info
    ensures Seek(s, from, "\n") == newline
  {
    forall k | from <= k < newline ensures !("\n" <= s[k..]) {
      assert s[k..][0] == info[k - from] && info[k - from] in info;
    }
    assert s[newline..][0] == '\n';
    SeekIs(s, from, newline, "\n");
  }

  lemma FenceFound(s: string, from: nat, body: string, fence: nat)
    requires from <= fence && fence + 3 <= |s|
    requires s[from..fence] == body && FenceFree(body) && s[fence..fence + 3] == "```"
    ensures Seek(s, from, "```") == fence
  {
    forall k | from <= k < fence ensures !("```" <= s[k..]) {
      assert s[from..fence + 3] == body + "```";
      assert s[k..][..3] == s[from..fence + 3][k - from..][..3];
    }
    assert s[fence..][..3] == s[fence..fence + 3];
    SeekIs(s, from, fence, "```");
  }

  /** And every block has this form. */
  lemma BlockShape(s: string, i: nat, number: nat) returns (head: string, info: string, body: string)
    requires BlockAt(s, i, number).Some?
    ensures Opens(head) && '\n' !in info && FenceFree(body)
    ensures s[i..BlockAt(s, i, number).value.end] == head + info + "\n" + body + "```"
  {
    hide TrimEnd, Seek, Opens;
    var newline := Seek(s, i + 10, "\n");
    var fence := Seek(s, newline + 1, "```");
    head, info, body := s[i..i + 10], s[i + 10..newline], s[newline + 1..fence];
    OpensSpells(s, i, head);
    InfoHasNoNewline(s, i + 10);
    BodyIsFenceFree(s, newline + 1);
    assert s[newline..newline + 1] == "\n" && s[fence..fence + 3] == "```";
  }

  lemma InfoHasNoNewline(s: string, from: nat)
    requires from <= |s|
    ensures '\n' !in s[from..Seek(s, from, "\n")]
  {
    hide Seek;
    SeekFirst(s, from, "\n");
    var info := s[from..Seek(s, from, "\n")];
    forall k | 0 <= k < |info| ensures info[k] != '\n' {
      assert s[from + k..][0] == info[k];
    }
  }

  lemma BodyIsFenceFree(s: string, from: nat)
    requires from <= |s| && Seek(s, from, "```") < |s|
    ensures FenceFree(s[from..Seek(s, from, "```")])
  {
    hide Seek;
    SeekFirst(s, from, "```");
    var fence := Seek(s, from, "```");
    var body := s[from..fence];
    forall k | 0 <= k < |body| ensures !("```" <= (body + "```")[k..]) {
      FenceLater(s, from, fence, k);
    }
  }

  lemma FenceLater(s: string, from: nat, fence: nat, k: nat)
    requires from + k < fence && fence + 3 <= |s| && s[fence..fence + 3] == "```" && !("```" <= s[from + k..])
    ensures !("```" <= (s[from..fence] + "```")[k..])
  {
    var text := s[from..fence + 3];
    assert s[from..fence] + "```" == text;
    assert text[k..][..3] == s[from + k..from + k + 3] == s[from + k..][..3];
  }

  predicate NoBlock(s: string, from: nat, to: nat, number: nat) {
    forall k | from <= k < to :: BlockAt(s, k, number).None?
  }

  /** The blocks of a document are the leftmost ones: the next one begins at the first place where
      there is a block. */
  lemma {:induction false} NextIsFirst(s: string, i: nat, number: nat)
    requires i <= |s|
    ensures
      var next := NextBlock(s, i, number);
      NoBlock(s, i, if next.Some? then next.value.start else |s|, number)
    decreases |s| - i
  {
    hide BlockAt;
    if i < |s| && BlockAt(s, i, number).None? {
      NextIsFirst(s, i + 1, number);
    }
  }

  /** All blocks, numbered from one; between two of them, before the first and after the last there
      is none. */
  lemma {:induction false} AllBlocks(s: string, i: nat, number: nat, k: nat)
    requires i <= |s| && k <= |BlocksFrom(s, i, number)|
    ensures
      var blocks := BlocksFrom(s, i, number);
      var from := if k == 0 then i else blocks[k - 1].end;
      && (k < |blocks| ==> BlockAt(s, blocks[k].start, number + k) == Some(blocks[k]) && from <= blocks[k].start)
      && NoBlock(s, from, if k < |blocks| then blocks[k].start else |s|, number + k)
    decreases k
  {
    hide BlockAt, NoBlock;
    NextIsFirst(s, i, number);
    var next, blocks := NextBlock(s, i, number), BlocksFrom(s, i, number);
    if k > 0 {
      var later := BlocksFrom(s, next.value.end, number + 1);
      AllBlocks(s, next.value.end, number + 1, k - 1);
      assert blocks == [next.value] + later;
      assert k < |blocks| ==> blocks[k] == later[k - 1];
    }
  }

  /** The text from a place on with its blocks replaced: what precedes the next block is kept; the
      block becomes its image if its rendering was on disk or has succeeded, and stays otherwise;
      after the last block the text is kept. */
  lemma BlockReplaced(s: string, blocks: seq<Block>, i: nat, attempts: seq<string>, r: Renderer, cursor: nat)
    requires i <= |blocks| && cursor <= |s| && Ordered(blocks[i..], cursor, |s|)
    ensures i == |blocks| ==> Rest(s, blocks[i..], attempts, r, cursor) == s[cursor..]
    ensures i < |blocks| ==>
      var block := blocks[i];
      && cursor <= block.start < block.end <= |s| && Ordered(blocks[i + 1..], block.end, |s|)
      && var written :=
           if r.cached(block.source) || (block.source in attempts && r.render(block.source) == Success)
           then r.image(block.source, block.number) else s[block.start..block.end];
      Rest(s, blocks[i..], attempts, r, cursor) ==
        s[cursor..block.start] + written + Rest(s, blocks[i + 1..], attempts, r, block.end)
  {
    if i < |blocks| {
      RestNext(s, blocks, i, attempts, r, cursor);
    } else {
      assert blocks[i..] == [];
    }
  }

  /** The attempts follow the order in which the sources are first met. */
  lemma {:induction false} FirstSeenOrder(sources: seq<string>, r: Renderer, j: nat, k: nat) returns (p: nat)
    requires j < k < |FirstSeen(sources, r)|
    ensures p < |sources| && sources[p] == FirstSeen(sources, r)[j] && FirstSeen(sources, r)[k] !in sources[..p + 1]
  {
    var n := |sources| - 1;
    var before, last := sources[..n], sources[n];
    if k < |FirstSeen(before, r)| {
      p := FirstSeenOrder(before, r, j, k);
      assert before[..p + 1] == sources[..p + 1];
    } else {
      FirstSeenOnce(before, r);
      assert FirstSeen(before, r)[j] in before;
      p :| 0 <= p < |before| && before[p] == FirstSeen(before, r)[j];
      assert forall x <- sources[..p + 1] :: x in before;
    }
  }
}
