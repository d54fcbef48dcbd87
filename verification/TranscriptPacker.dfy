/** Packing session transcripts into files of bounded size, in order. */
module TranscriptPacker {
  import opened Wrappers
  import opened Texts

  const MAX_CHARS_PER_FILE := 100_000

  /** A session file and the messages parsed from it. */
  datatype Session = Session(file: string, messages: seq<string>)

  function JoinWith(parts: seq<string>, separator: string): string {
    if parts == [] then ""
    else if |parts| == 1 then parts[0]
    else parts[0] + separator + JoinWith(parts[1..], separator)
  }

  function Transcript(session: Session): (r: string)
    ensures r != ""
  {
    "=== SESSION: " + session.file + " ===\n" + JoinWith(session.messages, "\n---\n") + "\n=== END SESSION ==="
  }

  // ---------------------------------------------------------------- what a transcript contains

  const SEPARATOR := "\n---\n"
  const END_LINE := "\n=== END SESSION ==="

  function Header(file: string): string {
    "=== SESSION: " + file + " ===\n"
  }

  /** What stands between the header and the end line. */
  function Body(text: string, file: string): string
    requires |Header(file)| + |END_LINE| <= |text|
  {
    text[|Header(file)|..|text| - |END_LINE|]
  }

  lemma TranscriptParts(s: Session)
    ensures Transcript(s) == Header(s.file) + JoinWith(s.messages, SEPARATOR) + END_LINE
    ensures |Header(s.file)| + |END_LINE| <= |Transcript(s)|
    ensures Body(Transcript(s), s.file) == JoinWith(s.messages, SEPARATOR)
  {
    var h, body := Header(s.file), JoinWith(s.messages, SEPARATOR);
    assert (h + body + END_LINE)[|h|..|h| + |body|] == body;
  }

  lemma {:induction false} JoinedAt(parts: seq<string>, separator: string, k: nat)
    returns (before: string, after: string)
    requires k < |parts|
    ensures JoinWith(parts, separator) == before + parts[k] + after
  {
    if k == 0 {
      before := "";
      after := if |parts| == 1 then "" else separator + JoinWith(parts[1..], separator);
    } else {
      before, after := JoinedAt(parts[1..], separator, k - 1);
      before := parts[0] + separator + before;
    }
  }

  /** A transcript begins with its header, ends with its end line, and in between has every
      message of the session. */
  lemma MessageInTranscript(s: Session, k: nat) returns (before: string, after: string)
    requires k < |s.messages|
    ensures Transcript(s) == before + s.messages[k] + after
    ensures "=== SESSION: " + s.file + " ===\n" <= before && EndsWith(after, "\n=== END SESSION ===")
  {
    TranscriptParts(s);
    var first, rest := JoinedAt(s.messages, SEPARATOR, k);
    before, after := Header(s.file) + first, rest + END_LINE;
    assert Transcript(s) == Header(s.file) + (first + s.messages[k] + rest) + END_LINE;
  }

  predicate SeparatorAt(text: string, k: nat) {
    k + 5 <= |text| && text[k..k + 5] == SEPARATOR
  }

  /** The first place where the separator stands, or the end of the text. */
  function NextSeparator(text: string): (r: nat)
    ensures r <= |text| && (r < |text| ==> SeparatorAt(text, r))
    ensures forall k: nat | k < r :: !SeparatorAt(text, k)
  {
    if text == "" then 0
    else if SeparatorAt(text, 0) then 0
    else
      var r := 1 + NextSeparator(text[1..]);
      assert forall k: nat | 0 < k && k + 5 <= |text| :: SeparatorAt(text, k) == SeparatorAt(text[1..], k - 1) by {
        forall k: nat | 0 < k && k + 5 <= |text| ensures SeparatorAt(text, k) == SeparatorAt(text[1..], k - 1) {
          assert text[k..k + 5] == text[1..][k - 1..k + 4];
        }
      }
      r
  }

  /** The text cut at its separators. */
  function Pieces(text: string): seq<string> {
    var n := NextSeparator(text);
    if n == |text| then [text] else [text[..n]] + Pieces(text[n + 5..])
  }

  /** No message has a separator inside, and none but the last ends with what makes one together
      with the separator after it. */
  ghost predicate Separable(messages: seq<string>) {
    && (forall k | 0 <= k < |messages| :: !Contains(messages[k], "\n---\n"))
    && (forall k | 0 <= k < |messages| - 1 :: !EndsWith(messages[k], "\n---"))
  }

  lemma SeparatorInside(m: string)
    ensures Contains(m, SEPARATOR) <==> exists k: nat :: SeparatorAt(m, k)
  {
    if before, after :| m == before + SEPARATOR + after {
      assert m[|before|..|before| + 5] == SEPARATOR;
      assert SeparatorAt(m, |before|);
    }
    if k: nat :| SeparatorAt(m, k) {
      assert m == m[..k] + SEPARATOR + m[k + 5..];
    }
  }

  lemma LastPiece(m: string)
    ensures NextSeparator(m) == |m| <==> !Contains(m, SEPARATOR)
  {
    hide NextSeparator, Contains;
    SeparatorInside(m);
  }

  lemma FirstPiece(m: string, rest: string)
    ensures NextSeparator(m + SEPARATOR + rest) == |m| <==> !Contains(m, SEPARATOR) && !EndsWith(m, "\n---")
  {
    hide NextSeparator, Contains;
    var text := m + SEPARATOR + rest;
    SeparatorInside(m);
    assert SeparatorAt(text, |m|) by {
      assert text[|m|..|m| + 5] == SEPARATOR;
    }
    if k: nat :| SeparatorAt(m, k) {
      assert text[k..k + 5] == m[k..k + 5];
      assert SeparatorAt(text, k);
    } else if EndsWith(m, "\n---") {
      var k := |m| - 4;
      assert text[k..k + 5] == m[k..] + "\n" == SEPARATOR;
      assert SeparatorAt(text, k);
    } else {
      forall k: nat | k < |m| ensures !SeparatorAt(text, k) {
        NoEarlierSeparator(m, rest, k);
      }
    }
  }

  lemma NoEarlierSeparator(m: string, rest: string, k: nat)
    requires !SeparatorAt(m, k) && !EndsWith(m, "\n---") && k < |m|
    ensures !SeparatorAt(m + SEPARATOR + rest, k)
  {
    var text, part := m + SEPARATOR + rest, (m + SEPARATOR + rest)[k..k + 5];
    var d := |m| - k;
    if d >= 5 {
      assert part == m[k..k + 5];
    } else if d == 4 {
      assert part[..4] == m[k..];
      assert SEPARATOR[..4] == "\n---";
      assert EndsWith(m, m[k..]);
    } else {
      Dashes(d);
      assert part[d] == text[|m|] == SEPARATOR[0];
    }
  }

  lemma Dashes(d: nat)
    requires 0 < d < 4
    ensures SEPARATOR[d] == '-' && SEPARATOR[0] == '\n'
  {
  }

  /** Cutting the joined messages at the separators gives them back exactly when they are
      separable. */
  lemma {:induction false} CutMessages(messages: seq<string>)
    requires messages != []
    ensures Pieces(JoinWith(messages, SEPARATOR)) == messages <==> Separable(messages)
  {
    hide NextSeparator, Contains, EndsWith;
    var m := messages[0];
    if |messages| == 1 {
      assert JoinWith(messages, SEPARATOR) == m;
      LastPiece(m);
      assert messages == [m];
    } else {
      var rest := JoinWith(messages[1..], SEPARATOR);
      var text := m + SEPARATOR + rest;
      CutMessages(messages[1..]);
      FirstPiece(m, rest);
      SeparableTail(messages);
      if NextSeparator(text) == |m| {
        assert text[..|m|] == m && text[|m| + 5..] == rest;
        assert messages == [m] + messages[1..] && Pieces(text)[1..] == Pieces(rest);
      } else {
        assert NextSeparator(text) < |text| ==> |Pieces(text)[0]| != |m|;
      }
    }
  }

  lemma SeparableTail(messages: seq<string>)
    requires |messages| > 1
    ensures Separable(messages) <==>
            !Contains(messages[0], SEPARATOR) && !EndsWith(messages[0], "\n---") && Separable(messages[1..])
  {
    hide Contains, EndsWith;
    var rest := messages[1..];
    assert forall k | 0 <= k < |rest| :: rest[k] == messages[k + 1];
    assert forall k | 0 < k < |messages| :: messages[k] == rest[k - 1];
  }

  /** A transcript is its header, its body and its end line; the messages can be read off the body,
      in order and completely, exactly when they are separable. */
  lemma TranscriptRead(s: Session)
    requires s.messages != []
    ensures |Header(s.file)| + |END_LINE| <= |Transcript(s)|
    ensures Transcript(s) == "=== SESSION: " + s.file + " ===\n" + Body(Transcript(s), s.file) + "\n=== END SESSION ==="
    ensures Pieces(Body(Transcript(s), s.file)) == s.messages <==> Separable(s.messages)
  {
    TranscriptParts(s);
    CutMessages(s.messages);
  }

  /** Messages without any separator inside that cannot be told apart. */
  lemma OverlappingSeparator()
    ensures !Contains("a\n---", SEPARATOR) && !Contains("b", SEPARATOR) && !Separable(["a\n---", "b"])
    ensures Pieces(JoinWith(["a\n---", "b"], SEPARATOR)) != ["a\n---", "b"]
  {
    var messages := ["a\n---", "b"];
    LastPiece("a\n---");
    LastPiece("b");
    assert EndsWith(messages[0], "\n---");
    assert messages[0][..5][0] == 'a';
    assert SEPARATOR[0] == '\n';
    CutMessages(messages);
  }

  // ---------------------------------------------------------------- the transcripts

  /** Sessions without messages are left out. */
  function Transcripts(sessions: seq<Session>): (r: seq<string>)
    ensures forall t <- r :: t != ""
  {
    if sessions == [] then []
    else (if sessions[0].messages == [] then [] else [Transcript(sessions[0])]) + Transcripts(sessions[1..])
  }

  lemma {:induction false} TranscriptsAppend(a: seq<Session>, b: seq<Session>)
    ensures Transcripts(a + b) == Transcripts(a) + Transcripts(b)
  {
    hide Transcript;
    if a == [] {
      assert a + b == b;
    } else {
      assert (a + b)[1..] == a[1..] + b;
      TranscriptsAppend(a[1..], b);
    }
  }

  /** Each session that has messages gives one transcript, between those of the sessions before
      and after it; any other session gives none. */
  lemma TranscriptAt(sessions: seq<Session>, k: nat)
    requires k < |sessions|
    ensures Transcripts(sessions) ==
            Transcripts(sessions[..k]) + (if sessions[k].messages == [] then [] else [Transcript(sessions[k])]) +
            Transcripts(sessions[k + 1..])
  {
    hide Transcript;
    var one := [sessions[k]];
    OneTranscript(sessions[k]);
    assert sessions == sessions[..k] + one + sessions[k + 1..];
    TranscriptsAppend(sessions[..k] + one, sessions[k + 1..]);
    TranscriptsAppend(sessions[..k], one);
  }

  lemma OneTranscript(session: Session)
    ensures Transcripts([session]) == if session.messages == [] then [] else [Transcript(session)]
  {
    hide Transcript;
    assert [session][1..] == [];
  }

  /** The first loop: collect the transcripts of the sessions that have messages. */
  method CollectTranscripts(sessions: seq<Session>) returns (allTranscripts: seq<string>)
    ensures allTranscripts == Transcripts(sessions)
  {
    hide Transcript;
    allTranscripts := [];
    for i := 0 to |sessions|
      invariant allTranscripts == Transcripts(sessions[..i])
    {
      TranscriptAt(sessions[..i + 1], i);
      assert sessions[..i + 1][..i] == sessions[..i];
      if |sessions[i].messages| > 0 {
        allTranscripts := allTranscripts + [Transcript(sessions[i])];
      }
    }
    assert sessions[..|sessions|] == sessions;
  }

  /** The content of a file that holds these transcripts. */
  function FileText(group: seq<string>): string {
    JoinWith(group, "\n\n")
  }

  function Flatten(groups: seq<seq<string>>): seq<string> {
    if groups == [] then [] else groups[0] + Flatten(groups[1..])
  }

  /** A file within the limit, or a single transcript, however long. */
  predicate Fits(group: seq<string>) {
    group != [] && (|group| == 1 || |FileText(group)| <= MAX_CHARS_PER_FILE)
  }

  predicate AllFit(groups: seq<seq<string>>) {
    forall k | 0 <= k < |groups| :: Fits(groups[k])
  }

  /** An order-preserving split of the transcripts that obeys the rule. */
  predicate Splits(groups: seq<seq<string>>, transcripts: seq<string>) {
    AllFit(groups) && Flatten(groups) == transcripts
  }

  /** This file has no room for the first transcript of the next one. */
  predicate Full(groups: seq<seq<string>>, k: nat)
    requires k + 1 < |groups|
  {
    groups[k + 1] != [] && !Fits(groups[k] + [groups[k + 1][0]])
  }

  predicate Greedy(groups: seq<seq<string>>) {
    forall k: nat | k + 1 < |groups| :: Full(groups, k)
  }

  // ---------------------------------------------------------------- greedy stays ahead

  lemma {:induction false} FileTextAppend(a: seq<string>, b: seq<string>)
    requires a != [] && b != []
    ensures |FileText(a + b)| == |FileText(a)| + 2 + |FileText(b)|
    ensures FileText(a + b) == FileText(a) + "\n\n" + FileText(b)
  {
    if |a| == 1 {
      assert (a + b)[1..] == b;
    } else {
      assert (a + b)[1..] == a[1..] + b;
      FileTextAppend(a[1..], b);
    }
  }

  /** A part of a file is no longer than the file. */
  lemma PartIsShorter(before: seq<string>, part: seq<string>, after: seq<string>)
    requires part != []
    ensures |FileText(part)| <= |FileText(before + part + after)|
  {
    if after == [] {
      assert before + part + after == before + part;
    } else {
      FileTextAppend(before + part, after);
    }
    if before == [] {
      assert before + part == part;
    } else {
      FileTextAppend(before, part);
    }
  }

  predicate IsSuffix(suffix: seq<string>, s: seq<string>) {
    |suffix| <= |s| && s[|s| - |suffix|..] == suffix
  }

  /** A part of a file that fits, fits. */
  lemma PartFits(all: seq<string>, first: seq<string>, skip: nat, part: seq<string>)
    requires first <= all && Fits(first) && |part| >= 2
    requires skip + |part| <= |first| && all[skip..skip + |part|] == part
    ensures Fits(part)
  {
    assert first == first[..skip] + part + first[skip + |part|..];
    PartIsShorter(first[..skip], part, first[skip + |part|..]);
  }

  /** The other split's first file cannot hold the greedy one's and the transcript after it. */
  lemma FirstFileEnds(greedy: seq<seq<string>>, all: seq<string>, skip: nat, first: seq<string>)
    requires |greedy| > 1 && Greedy(greedy) && greedy[0] != []
    requires first <= all && Fits(first) && skip <= |all| && all[skip..] == Flatten(greedy)
    ensures |first| <= skip + |greedy[0]|
  {
    assert Full(greedy, 0);
    NextTranscript(all, skip, greedy);
    if |first| > skip + |greedy[0]| {
      PartFits(all, first, skip, greedy[0] + [greedy[1][0]]);
    }
  }

  lemma FirstFileLength(greedy: seq<seq<string>>, other: seq<seq<string>>)
    requires greedy != [] && other != [] && greedy[0] != [] && Fits(other[0]) && Greedy(greedy)
    requires IsSuffix(Flatten(greedy), Flatten(other))
    ensures |other[0]| + |Flatten(greedy)| <= |Flatten(other)| + |greedy[0]|
  {
    var all := Flatten(other);
    assert all == other[0] + Flatten(other[1..]) && other[0] <= all;
    if |greedy| == 1 {
      assert Flatten(greedy) == greedy[0] + Flatten([]) && |Flatten(greedy)| == |greedy[0]|;
    } else {
      FirstFileEnds(greedy, all, |all| - |Flatten(greedy)|, other[0]);
    }
  }

  lemma SuffixTail(a: seq<string>, tail: seq<string>, b: seq<string>, bs: seq<string>)
    requires IsSuffix(a + tail, b + bs) && |b| + |a + tail| <= |b + bs| + |a|
    ensures IsSuffix(tail, bs)
  {
    var s, t := a + tail, b + bs;
    assert tail == s[|a|..] && bs == t[|b|..];
    assert t[|t| - |s|..][|a|..] == t[|t| - |tail|..];
    assert bs[|bs| - |tail|..] == t[|t| - |tail|..];
  }

  lemma NextTranscript(all: seq<string>, skip: nat, greedy: seq<seq<string>>)
    requires skip <= |all| && all[skip..] == Flatten(greedy) && |greedy| > 1 && greedy[1] != []
    ensures var part := greedy[0] + [greedy[1][0]]; skip + |part| <= |all| && all[skip..skip + |part|] == part
  {
    var part := greedy[0] + [greedy[1][0]];
    assert Flatten(greedy) == part + (greedy[1][1..] + Flatten(greedy[1..][1..]));
    assert all[skip..skip + |part|] == all[skip..][..|part|];
  }

  lemma GreedyTail(greedy: seq<seq<string>>)
    requires greedy != [] && Greedy(greedy)
    ensures Greedy(greedy[1..])
  {
    forall k: nat | k + 1 < |greedy[1..]| ensures Full(greedy[1..], k) {
      assert Full(greedy, k + 1);
    }
  }

  lemma {:induction false} GreedyStaysAhead(greedy: seq<seq<string>>, other: seq<seq<string>>)
    requires AllFit(greedy) && AllFit(other) && Greedy(greedy)
    requires IsSuffix(Flatten(greedy), Flatten(other))
    ensures |greedy| <= |other|
    decreases |greedy|
  {
    if greedy != [] {
      assert Fits(greedy[0]);
      assert other != [];
      assert Fits(other[0]);
      FirstFileLength(greedy, other);
      SuffixTail(greedy[0], Flatten(greedy[1..]), other[0], Flatten(other[1..]));
      GreedyTail(greedy);
      GreedyStaysAhead(greedy[1..], other[1..]);
    }
  }

  /** No order-preserving split that obeys the rule has fewer files. */
  ghost predicate FewestFiles(n: nat, transcripts: seq<string>) {
    forall other :: Splits(other, transcripts) ==> n <= |other|
  }

  lemma GreedyIsOptimal(greedy: seq<seq<string>>, transcripts: seq<string>)
    requires Splits(greedy, transcripts) && Greedy(greedy)
    ensures FewestFiles(|greedy|, transcripts)
  {
    forall other | Splits(other, transcripts) ensures |greedy| <= |other| {
      GreedyStaysAhead(greedy, other);
    }
  }

  // ---------------------------------------------------------------- the loop

  lemma {:induction false} FlattenSnoc(groups: seq<seq<string>>, group: seq<string>)
    ensures Flatten(groups + [group]) == Flatten(groups) + group
  {
    if groups == [] {
      assert groups + [group] == [group] && [group][1..] == [];
    } else {
      assert (groups + [group])[1..] == groups[1..] + [group];
      FlattenSnoc(groups[1..], group);
    }
  }

  /** The written files, and the one being filled if there is one. */
  function WithPending(files: seq<seq<string>>, pending: seq<string>): seq<seq<string>> {
    if pending == [] then files else files + [pending]
  }

  predicate Good(groups: seq<seq<string>>, done: seq<string>) {
    Splits(groups, done) && Greedy(groups)
  }

  /** What is written and pending is a greedy split of `done`. With nothing pending the last
      file, if there is one, is oversized. */
  ghost predicate Packing(files: seq<seq<string>>, pending: seq<string>, done: seq<string>) {
    forall k: nat {:trigger Key(k)} :: Key(k) ==>
      && Good(WithPending(files, pending), done)
      && (pending != [] ==> pending[0] != "" && |FileText(pending)| <= MAX_CHARS_PER_FILE)
      && (pending == [] && files != [] ==> |FileText(files[|files| - 1])| > MAX_CHARS_PER_FILE)
  }

  /** The same when `t` comes next: it fits the pending file, or with nothing pending it does
      not fit the last one. */
  ghost predicate Ready(files: seq<seq<string>>, pending: seq<string>, done: seq<string>, t: string) {
    forall k: nat {:trigger Key(k)} :: Key(k) ==>
      && Good(WithPending(files, pending), done)
      && (pending != [] ==> pending[0] != "" && |FileText(pending)| + 2 + |t| <= MAX_CHARS_PER_FILE)
      && (pending == [] && files != [] ==> !Fits(files[|files| - 1] + [t]))
  }

  lemma Flush(files: seq<seq<string>>, pending: seq<string>, done: seq<string>, t: string)
    requires Packing(files, pending, done) && pending != []
    requires |FileText(pending)| + |t| + 2 > MAX_CHARS_PER_FILE
    ensures Ready(files + [pending], [], done, t)
  {
    assert Key(0);
    FileTextAppend(pending, [t]);
    assert (files + [pending])[|files|] == pending;
  }

  lemma Keep(files: seq<seq<string>>, pending: seq<string>, done: seq<string>, t: string)
    requires Packing(files, pending, done)
    requires pending == [] || |FileText(pending)| + |t| + 2 <= MAX_CHARS_PER_FILE
    ensures Ready(files, pending, done, t)
  {
    assert Key(0);
    if pending == [] && files != [] {
      var last := files[|files| - 1];
      assert Fits(last);
      FileTextAppend(last, [t]);
    }
  }

  /** A file for one more transcript, which the file before has no room for. */
  lemma NewFile(files: seq<seq<string>>, done: seq<string>, t: string)
    requires Good(files, done) && (files != [] ==> !Fits(files[|files| - 1] + [t]))
    ensures Good(files + [[t]], done + [t])
  {
    FlattenSnoc(files, [t]);
    var all := files + [[t]];
    forall k: nat | k + 1 < |all| ensures Full(all, k) {
      if k + 1 < |files| {
        assert Full(files, k);
      }
    }
  }

  /** One more transcript in the last file. */
  lemma SameFile(files: seq<seq<string>>, pending: seq<string>, done: seq<string>, t: string)
    requires Good(files + [pending], done) && pending != []
    requires |FileText(pending)| + 2 + |t| <= MAX_CHARS_PER_FILE
    ensures Good(files + [pending + [t]], done + [t])
  {
    var before, after := files + [pending], files + [pending + [t]];
    FlattenSnoc(files, pending);
    FlattenSnoc(files, pending + [t]);
    FileTextAppend(pending, [t]);
    assert Flatten(files) + (pending + [t]) == Flatten(files) + pending + [t];
    forall k | 0 <= k < |after| ensures Fits(after[k]) {
      assert k < |files| ==> Fits(before[k]);
    }
    forall k: nat | k + 1 < |after| ensures Full(after, k) {
      assert Full(before, k);
    }
  }

  lemma Oversized(files: seq<seq<string>>, pending: seq<string>, done: seq<string>, t: string)
    requires Ready(files, pending, done, t) && |t| > MAX_CHARS_PER_FILE
    ensures pending == [] && Packing(files + [[t]], [], done + [t])
  {
    assert Key(0);
    NewFile(files, done, t);
  }

  lemma Add(files: seq<seq<string>>, pending: seq<string>, done: seq<string>, t: string)
    requires Ready(files, pending, done, t) && |t| <= MAX_CHARS_PER_FILE && t != ""
    ensures Packing(files, pending + [t], done + [t])
    ensures FileText(pending + [t]) == FileText(pending) + (if FileText(pending) != "" then "\n\n" else "") + t
  {
    assert Key(0);
    if pending == [] {
      NewFile(files, done, t);
      assert pending + [t] == [t] && FileText([t]) == t;
    } else {
      SameFile(files, pending, done, t);
      FileTextAppend(pending, [t]);
    }
  }

  lemma PendingText(files: seq<seq<string>>, pending: seq<string>, done: seq<string>)
    requires Packing(files, pending, done)
    ensures |FileText(pending)| > 0 <==> pending != []
    ensures Good(WithPending(files, pending), done)
  {
    assert Key(0);
  }

  // ---------------------------------------------------------------- the output directory

  /** Directory entries are numbered from zero, none is overwritten, and each holds its file. */
  predicate Holds(directory: map<nat, string>, files: seq<seq<string>>) {
    directory == map i: nat | i < |files| :: FileText(files[i])
  }

  lemma Written(directory: map<nat, string>, files: seq<seq<string>>, group: seq<string>)
    requires Holds(directory, files)
    ensures Holds(directory[|files| := FileText(group)], files + [group])
  {
  }

  /** The numbers of the written files, in order. */
  function Numbers(n: nat): seq<nat> {
    if n == 0 then [] else Numbers(n - 1) + [n - 1]
  }

  /** The variables of the loop, with the transcripts that each file holds. */
  ghost predicate Output(directory: map<nat, string>, outputFiles: seq<nat>, fileIndex: nat, files: seq<seq<string>>) {
    forall k: nat {:trigger Key(k)} :: Key(k) ==>
      fileIndex == |files| && outputFiles == Numbers(|files|) && Holds(directory, files)
  }

  method WriteFile(directory: map<nat, string>, outputFiles: seq<nat>, fileIndex: nat, content: string,
                   ghost files: seq<seq<string>>, ghost group: seq<string>)
    returns (directory': map<nat, string>, outputFiles': seq<nat>, fileIndex': nat)
    requires Output(directory, outputFiles, fileIndex, files) && content == FileText(group)
    ensures Output(directory', outputFiles', fileIndex', files + [group])
  {
    assert Key(0);
    Written(directory, files, group);
    directory', outputFiles', fileIndex' := directory[fileIndex := content], outputFiles + [fileIndex], fileIndex + 1;
  }

  lemma OutputStart()
    ensures Output(map[], [], 0, [])
  {
  }

  lemma OutputEnd(directory: map<nat, string>, outputFiles: seq<nat>, fileIndex: nat, files: seq<seq<string>>)
    requires Output(directory, outputFiles, fileIndex, files)
    ensures outputFiles == Numbers(|files|) && Holds(directory, files) && |outputFiles| == |files|
  {
    assert Key(0);
    NumbersLength(|files|);
  }

  lemma {:induction false} NumbersLength(n: nat)
    ensures |Numbers(n)| == n
  {
    if n > 0 {
      NumbersLength(n - 1);
    }
  }

  lemma {:induction false} InSomeFile(files: seq<seq<string>>, transcript: string) returns (i: nat, j: nat)
    requires transcript in Flatten(files)
    ensures i < |files| && j < |files[i]| && files[i][j] == transcript
  {
    if transcript in files[0] {
      i := 0;
      j :| 0 <= j < |files[0]| && files[0][j] == transcript;
    } else {
      i, j := InSomeFile(files[1..], transcript);
      i := i + 1;
    }
  }

  /** Every session with messages has its whole transcript in one of the written files. */
  lemma SessionInFile(directory: map<nat, string>, files: seq<seq<string>>, sessions: seq<Session>, k: nat)
    returns (i: nat, before: string, after: string)
    requires Holds(directory, files) && Splits(files, Transcripts(sessions))
    requires k < |sessions| && sessions[k].messages != []
    ensures i in directory && directory[i] == before + Transcript(sessions[k]) + after
  {
    hide Transcript, Transcripts, JoinWith;
    TranscriptAt(sessions, k);
    assert Transcript(sessions[k]) in Transcripts(sessions);
    var j;
    i, j := InSomeFile(files, Transcript(sessions[k]));
    before, after := JoinedAt(files[i], "\n\n", j);
  }

  /** Some file has this message. */
  ghost predicate Keeps(directory: map<nat, string>, message: string) {
    exists i | i in directory :: Contains(directory[i], message)
  }

  lemma MessageKept(directory: map<nat, string>, files: seq<seq<string>>, sessions: seq<Session>, k: nat, j: nat)
    requires Holds(directory, files) && Splits(files, Transcripts(sessions))
    requires k < |sessions| && j < |sessions[k].messages|
    ensures Keeps(directory, sessions[k].messages[j])
  {
    hide Transcript, Transcripts, Holds, Splits;
    var m := sessions[k].messages[j];
    var i, before, after := SessionInFile(directory, files, sessions, k);
    var left, right := MessageInTranscript(sessions[k], j);
    assert directory[i] == (before + left) + m + (right + after);
    assert Contains(directory[i], m);
  }

  /** No file with several transcripts is longer than the limit. */
  lemma WithinLimit(directory: map<nat, string>, files: seq<seq<string>>, transcripts: seq<string>)
    requires Holds(directory, files) && Splits(files, transcripts)
    ensures forall i <- directory :: i < |files| && (|directory[i]| <= 100_000 || |files[i]| == 1)
  {
    forall i <- directory ensures i < |files| && (|directory[i]| <= 100_000 || |files[i]| == 1) {
      assert Fits(files[i]);
    }
  }

  /** Writes the files; `files` says which transcripts each one holds. No message of any session
      is lost. */
  method WriteTranscripts(sessions: seq<Session>)
    returns (directory: map<nat, string>, outputFiles: seq<nat>, ghost files: seq<seq<string>>)
    ensures outputFiles == Numbers(|files|)
    ensures Holds(directory, files)
    ensures Splits(files, Transcripts(sessions))
    ensures FewestFiles(|outputFiles|, Transcripts(sessions))
    ensures forall i <- directory :: i < |files| && (|directory[i]| <= 100_000 || |files[i]| == 1)
    ensures forall k, j | 0 <= k < |sessions| && 0 <= j < |sessions[k].messages| ::
      Keeps(directory, sessions[k].messages[j])
  {
    hide Transcript, Transcripts, Holds, Keeps;
    var allTranscripts := CollectTranscripts(sessions);
    var currentContent, fileIndex := "", 0;
    ghost var pending: seq<string> := [];
    directory, outputFiles, files := map[], [], [];
    OutputStart();
    assert allTranscripts[..0] == [];
    for i := 0 to |allTranscripts|
      invariant Packing(files, pending, allTranscripts[..i])
      invariant Output(directory, outputFiles, fileIndex, files)
      invariant currentContent == FileText(pending)
    {
      var transcript := allTranscripts[i];
      assert transcript in allTranscripts;
      ghost var done := allTranscripts[..i];
      assert allTranscripts[..i + 1] == done + [transcript];
      PendingText(files, pending, done);
      if |currentContent| > 0 && |currentContent| + |transcript| + 2 > MAX_CHARS_PER_FILE {
        Flush(files, pending, done, transcript);
        directory, outputFiles, fileIndex := WriteFile(directory, outputFiles, fileIndex, currentContent, files,
                                                       pending);
        files, pending, currentContent := files + [pending], [], "";
      } else {
        Keep(files, pending, done, transcript);
      }
      if |transcript| > MAX_CHARS_PER_FILE {
        Oversized(files, pending, done, transcript);
        if |currentContent| > 0 {
          assert false;
        }
        directory, outputFiles, fileIndex := WriteFile(directory, outputFiles, fileIndex, transcript, files,
                                                       [transcript]);
        files := files + [[transcript]];
        continue;
      }
      Add(files, pending, done, transcript);
      currentContent := currentContent + (if currentContent != "" then "\n\n" else "") + transcript;
      pending := pending + [transcript];
    }
    assert allTranscripts[..|allTranscripts|] == allTranscripts;
    PendingText(files, pending, allTranscripts);
    if |currentContent| > 0 {
      directory, outputFiles, fileIndex := WriteFile(directory, outputFiles, fileIndex, currentContent, files, pending);
      files := files + [pending];
    }
    OutputEnd(directory, outputFiles, fileIndex, files);
    GreedyIsOptimal(files, allTranscripts);
    WithinLimit(directory, files, allTranscripts);
    forall k, j | 0 <= k < |sessions| && 0 <= j < |sessions[k].messages|
      ensures Keeps(directory, sessions[k].messages[j])
    {
      MessageKept(directory, files, sessions, k, j);
    }
  }
}
