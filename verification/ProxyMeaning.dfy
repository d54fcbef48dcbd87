/** What the proxy's lines, events and endings mean: payloads, whole blocks, and how a stream ends. */
module ProxyMeaning {
  import opened Wrappers
  import Texts
  import opened ProxyMessage
  import S = ProxyStream

  // ---------------------------------------------------------------- lines

  /** The text begins and ends with something other than white space. */
  predicate Trimmed(data: string) {
    data != "" && !Texts.IsSpace(data[0]) && !Texts.IsSpace(data[|data| - 1])
  }

  /** A line has a payload exactly when it is `data: ` and something other than white space, and the
      payload is that without the white space around it. */
  lemma PayloadMeans(line: string, data: string)
    ensures S.Payload(line) == Some(data) <==>
            && Trimmed(data)
            && exists left, right ::
                 Texts.Blank(left) && Texts.Blank(right) && line == "data: " + left + data + right
  {
    hide Texts.TrimStart, Texts.TrimEnd;
    if S.Payload(line) == Some(data) {
      var rest := line[6..];
      var left := Texts.TrimStartSplit(rest);
      var right := Texts.TrimEndSplit(Texts.TrimStart(rest));
      assert line == "data: " + rest;
      assert line == "data: " + left + data + right;
    }
    if left, right :|
         && Trimmed(data) && Texts.Blank(left) && Texts.Blank(right)
         && line == "data: " + left + data + right
    {
      assert line[6..] == left + (data + right) && "data: " <= line;
      Texts.TrimStartMeans(left, data + right);
      Texts.TrimEndMeans(data, right);
    }
  }

  /** One more terminated line adds its payload, or nothing. */
  lemma FramedLine(text: string, line: string)
    requires Texts.OneLine(line) && (text == "" || text[|text| - 1] == '\n')
    ensures S.Framed(text + (line + "\n")) ==
            S.Framed(text) + (if S.Payload(line).Some? then [S.Payload(line).value] else [])
  {
    NothingLeft(text);
    S.FramedAppend(text, line + "\n");
    assert "" + (line + "\n") == line + "\n" == line + "\n" + "";
    Texts.SplitHead(line, "");
    Texts.SplitLine("");
    assert Texts.Split(line + "\n") == [line] + [""];
    assert S.Payloads([line][..0]) == [];
  }

  lemma {:induction false} NothingLeft(text: string)
    requires text == "" || text[|text| - 1] == '\n'
    ensures S.Unterminated(text) == "" && (text != "" ==> |Texts.Split(text)| > 1)
  {
    if text != "" {
      NothingLeft(text[1..]);
      assert text == [text[0]] + text[1..];
      S.SplitCons(text[0], text[1..]);
    }
  }

  // ---------------------------------------------------------------- whole blocks

  /** The kinds of blocks, with what is not in their deltas. */
  datatype Kind =
    | OfText(signature: Option<string>)
    | OfThinking(signature: Option<string>)
    | OfCall(id: string, name: string)

  function First(kind: Kind, i: int): Event {
    match kind
    case OfText(_) => TextStart(i)
    case OfThinking(_) => ThinkingStart(i)
    case OfCall(id, name) => ToolStart(i, id, name)
  }

  function Part(kind: Kind, i: int, delta: string): Event {
    match kind
    case OfText(_) => TextDelta(i, delta)
    case OfThinking(_) => ThinkingDelta(i, delta)
    case OfCall(_, _) => ToolDelta(i, delta)
  }

  function Last(kind: Kind, i: int): Event {
    match kind
    case OfText(signature) => TextEnd(i, signature)
    case OfThinking(signature) => ThinkingEnd(i, signature)
    case OfCall(_, _) => ToolEnd(i)
  }

  function Parts(kind: Kind, i: int, deltas: seq<string>): seq<Event> {
    seq(|deltas|, k requires 0 <= k < |deltas| => Part(kind, i, deltas[k]))
  }

  function Growth<J>(i: int, deltas: seq<string>): seq<Pushed<J>> {
    seq(|deltas|, k requires 0 <= k < |deltas| => Grew(i, deltas[k]))
  }

  function Concat(deltas: seq<string>): string {
    if deltas == [] then "" else Concat(deltas[..|deltas| - 1]) + deltas[|deltas| - 1]
  }

  /** The block while it is open. */
  function Open<J>(kind: Kind, deltas: seq<string>, parse: string -> J, empty: J): Content<J> {
    match kind
    case OfText(_) => Text(Concat(deltas), None)
    case OfThinking(_) => Thinking(Concat(deltas), None)
    case OfCall(id, name) =>
      ToolCall(id, name, if deltas == [] then empty else parse(Concat(deltas)), Some(Concat(deltas)))
  }

  lemma AcceptsPart<J>(events: seq<Event>, kind: Kind, i: int, deltas: seq<string>, parse: string -> J, empty: J)
    requires BlockAt(i, events, parse, empty) == Some(Open(kind, deltas, parse, empty))
    ensures Accepts(events, Last(kind, i)) && forall d :: Accepts(events, Part(kind, i, d))
  {
  }

  lemma OpenSnoc<J>(kind: Kind, i: int, deltas: seq<string>, delta: string, parse: string -> J, empty: J)
    ensures After(Some(Open(kind, deltas, parse, empty)), Part(kind, i, delta), parse, empty) ==
            Some(Open(kind, deltas + [delta], parse, empty))
  {
    assert (deltas + [delta])[..|deltas|] == deltas;
  }

  /** A start and some deltas: the block holds their concatenation, and the start and every delta
      are passed on. */
  lemma {:induction false} BlockSoFar<J>(before: seq<Event>, kind: Kind, i: int, deltas: seq<string>,
                                         parse: string -> J, empty: J)
    requires Accepted(before)
    ensures
      var events := before + [First(kind, i)] + Parts(kind, i, deltas);
      && Accepted(events)
      && BlockAt(i, events, parse, empty) == Some(Open(kind, deltas, parse, empty))
      && S.Emitted(events, parse, empty) == S.Emitted(before, parse, empty) + [BlockStarted(i)] + Growth(i, deltas)
  {
    hide Accepted, Accepts, BlockAt, S.Emitted;
    var started := before + [First(kind, i)];
    if deltas == [] {
      assert started + Parts(kind, i, []) == started;
      BlockBegins(before, First(kind, i), parse, empty);
      Begun(before, kind, i);
      S.EmittedSnoc(before, First(kind, i), parse, empty);
      var emitted := S.Emitted(before, parse, empty) + [BlockStarted(i)];
      assert emitted + Growth(i, []) == emitted;
    } else {
      var n := |deltas| - 1;
      var e := Part(kind, i, deltas[n]);
      var events := started + Parts(kind, i, deltas[..n]);
      BlockSoFar(before, kind, i, deltas[..n], parse, empty);
      assert started + Parts(kind, i, deltas) == events + [e] && deltas == deltas[..n] + [deltas[n]];
      AcceptsPart(events, kind, i, deltas[..n], parse, empty);
      AcceptedSnoc(events, e);
      BlockStep(events, e, parse, empty);
      OpenSnoc(kind, i, deltas[..n], deltas[n], parse, empty);
      S.EmittedSnoc(events, e, parse, empty);
      assert Growth<J>(i, deltas) == Growth(i, deltas[..n]) + [Grew(i, deltas[n])];
    }
  }

  lemma Begun(before: seq<Event>, kind: Kind, i: int)
    requires Accepted(before)
    ensures Accepted(before + [First(kind, i)]) && Begins(First(kind, i))
  {
    AcceptedSnoc(before, First(kind, i));
  }

  /** A whole block, whatever came before it: a start, deltas and an end. It is accepted; the
      message's block is then the concatenation of the deltas with the signature of the end, or the
      call with the arguments parsed from the concatenation; and what is pushed is the start, every
      delta, and the end with that block. */
  lemma WholeBlock<J>(before: seq<Event>, kind: Kind, i: int, deltas: seq<string>, parse: string -> J, empty: J)
    requires Accepted(before)
    ensures
      var events := before + [First(kind, i)] + Parts(kind, i, deltas) + [Last(kind, i)];
      var text := Concat(deltas);
      var block := BlockAt(i, events, parse, empty);
      var pushed := S.Emitted(before, parse, empty) + [BlockStarted(i)] + Growth(i, deltas);
      && Accepted(events)
      && (kind.OfText? ==>
            && block == Some(Text(text, kind.signature))
            && S.Emitted(events, parse, empty) == pushed + [BlockEnded(i, text)])
      && (kind.OfThinking? ==>
            && block == Some(Thinking(text, kind.signature))
            && S.Emitted(events, parse, empty) == pushed + [BlockEnded(i, text)])
      && (kind.OfCall? ==>
            var call := ToolCall(kind.id, kind.name, if deltas == [] then empty else parse(text), None);
            block == Some(call) && S.Emitted(events, parse, empty) == pushed + [CallEnded(i, call)])
  {
    hide Accepted, Accepts, BlockAt, S.Emitted;
    var events, e := before + [First(kind, i)] + Parts(kind, i, deltas), Last(kind, i);
    BlockSoFar(before, kind, i, deltas, parse, empty);
    AcceptsPart(events, kind, i, deltas, parse, empty);
    AcceptedSnoc(events, e);
    BlockStep(events, e, parse, empty);
    S.EmittedSnoc(events, e, parse, empty);
    if kind.OfText? {
      TextGrows(events, e, parse, empty);
    } else if kind.OfThinking? {
      ThinkingGrows(events, e, parse, empty);
    }
  }

  /** What is pushed for the events outside blocks, and for the end of a call where there is none. */
  lemma OtherPushes<J>(events: seq<Event>, e: Event, parse: string -> J, empty: J)
    ensures
      var pushed := PushedFor(events, e, parse, empty);
      && (e.Start? ==> pushed == Some(Started))
      && (e.Finish? ==> pushed == Some(Finished(e.reason)))
      && (e.Fail? ==> pushed == Some(Failed(e.reason)))
      && (e.Unhandled? ==> pushed == None)
      && (e.ToolEnd? && BlockAt(e.index, events, parse, empty).None? ==> pushed == None)
      && (e.ToolEnd? && BlockAt(e.index, events, parse, empty).Some? ==>
            !BlockAt(e.index, events, parse, empty).value.ToolCall? ==> pushed == None)
  {
    if e.ToolEnd? {
      ToolEnds(events, e, parse, empty);
    }
  }

  /** An event is accepted exactly when its block is there and of its kind; starts, ends of calls and
      events outside blocks always are. */
  lemma AcceptsMeans<J>(events: seq<Event>, e: Event, parse: string -> J, empty: J)
    ensures e.TextDelta? || e.TextEnd? ==>
      (Accepts(events, e) <==>
         BlockAt(e.index, events, parse, empty).Some? && BlockAt(e.index, events, parse, empty).value.Text?)
    ensures e.ThinkingDelta? || e.ThinkingEnd? ==>
      (Accepts(events, e) <==>
         BlockAt(e.index, events, parse, empty).Some? && BlockAt(e.index, events, parse, empty).value.Thinking?)
    ensures e.ToolDelta? ==>
      (Accepts(events, e) <==>
         BlockAt(e.index, events, parse, empty).Some? && BlockAt(e.index, events, parse, empty).value.ToolCall?)
    ensures !e.TextDelta? && !e.TextEnd? && !e.ThinkingDelta? && !e.ThinkingEnd? && !e.ToolDelta? ==> Accepts(events, e)
  {
  }

  // ---------------------------------------------------------------- how a stream ends

  /** Reading goes on until read `n`, which fails or finds the request aborted, or to the end. */
  predicate StopsReading(chunks: seq<S.Read>, n: nat) {
    && n <= |chunks| && (forall k | 0 <= k < n :: chunks[k].Chunk? && !chunks[k].aborted)
    && (n < |chunks| ==> chunks[n].ReadError? || chunks[n].aborted)
  }

  lemma StopsThere(chunks: seq<S.Read>, n: nat)
    requires StopsReading(chunks, n)
    ensures S.StopsAt(chunks) == n
  {
    var m := S.StopsAt(chunks);
    assert m == |chunks| || S.Stops(chunks[m]);
    assert n == |chunks| || S.Stops(chunks[n]);
  }

  /** The outcome of a stream. The payloads up to where reading stops are handled in order until one
      is not an event, or one that does not fit, which ends the stream with an error. Otherwise the
      stream ends as aborted, when the request was aborted at that read or at the end of the body,
      with an error when the read failed, and well in all other cases. */
  lemma StreamOutcome(chunks: seq<S.Read>, n: nat, payloads: seq<string>, abortedAtEnd: bool,
                      decode: string -> Option<Event>, events: seq<Event>, ending: S.Ending)
    requires StopsReading(chunks, n) && payloads == S.Framed(S.Text(chunks[..n]))
    requires S.Streams(chunks, abortedAtEnd, decode, events, ending)
    ensures |events| <= |payloads| && Accepted(events)
    ensures forall k | 0 <= k < |events| :: decode(payloads[k]) == Some(events[k])
    ensures |events| < |payloads| ==>
      && ending == S.Broken("error")
      && (decode(payloads[|events|]).None? || !Accepted(events + [decode(payloads[|events|]).value]))
    ensures |events| == |payloads| && n < |chunks| ==>
      ending == S.Broken(if chunks[n].aborted then "aborted" else "error")
    ensures |events| == |payloads| && n == |chunks| ==>
      ending == if abortedAtEnd then S.Broken("aborted") else S.Complete
  {
    hide S.Framed, S.Text, S.StopsAt;
    StopsThere(chunks, n);
    if |events| < |payloads| && decode(payloads[|events|]).Some? {
      AcceptedSnoc(events, decode(payloads[|events|]).value);
    }
  }
}
