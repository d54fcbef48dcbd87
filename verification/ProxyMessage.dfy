/** Rebuilding an assistant message from the events of a proxy, which carry deltas only. */
module ProxyMessage {
  import opened Wrappers

  // ---------------------------------------------------------------- events and content

  datatype Event =
    | Start
    | TextStart(index: int)
    | TextDelta(index: int, delta: string)
    | TextEnd(index: int, signature: Option<string>)
    | ThinkingStart(index: int)
    | ThinkingDelta(index: int, delta: string)
    | ThinkingEnd(index: int, signature: Option<string>)
    | ToolStart(index: int, id: string, name: string)
    | ToolDelta(index: int, delta: string)
    | ToolEnd(index: int)
    | Finish(reason: string, usage: string)
    | Fail(reason: string, message: Option<string>, usage: string)
    | Unhandled

  /** `J` is the type of tool arguments. */
  datatype Content<J> =
    | Text(text: string, textSignature: Option<string>)
    | Thinking(thinking: string, thinkingSignature: Option<string>)
    | ToolCall(id: string, name: string, arguments: J, partialJson: Option<string>)

  /** What is pushed to the stream; the message itself, which every event refers to, is left out. */
  datatype Pushed<J> =
    | Started
    | BlockStarted(index: int)
    | Grew(index: int, delta: string)
    | BlockEnded(index: int, content: string)
    | CallEnded(index: int, call: Content<J>)
    | Finished(reason: string)
    | Failed(reason: string)

  predicate Addressed(e: Event) {
    !e.Start? && !e.Finish? && !e.Fail? && !e.Unhandled?
  }

  predicate Begins(e: Event) {
    e.TextStart? || e.ThinkingStart? || e.ToolStart?
  }

  /** The events for one block. */
  function For(i: int, events: seq<Event>): (r: seq<Event>) {
    if events == [] then []
    else
      var last := events[|events| - 1];
      For(i, events[..|events| - 1]) + (if Addressed(last) && last.index == i then [last] else [])
  }

  // ---------------------------------------------------------------- what a block must be

  /** The events since the last one that begins the block, which is the first of them. */
  function Since(events: seq<Event>): (r: seq<Event>)
    ensures r != [] ==> Begins(r[0])
  {
    if events == [] then []
    else
      var last := events[|events| - 1];
      var before := Since(events[..|events| - 1]);
      if Begins(last) then [last] else if before == [] then [] else before + [last]
  }

  function TextDeltas(events: seq<Event>): string {
    if events == [] then ""
    else TextDeltas(events[..|events| - 1]) +
         (if events[|events| - 1].TextDelta? then events[|events| - 1].delta else "")
  }

  function ThinkingDeltas(events: seq<Event>): string {
    if events == [] then ""
    else ThinkingDeltas(events[..|events| - 1]) +
         (if events[|events| - 1].ThinkingDelta? then events[|events| - 1].delta else "")
  }

  function ToolDeltas(events: seq<Event>): string {
    if events == [] then ""
    else ToolDeltas(events[..|events| - 1]) +
         (if events[|events| - 1].ToolDelta? then events[|events| - 1].delta else "")
  }

  function LastTextSignature(events: seq<Event>): Option<string> {
    if events == [] then None
    else if events[|events| - 1].TextEnd? then events[|events| - 1].signature
    else LastTextSignature(events[..|events| - 1])
  }

  function LastThinkingSignature(events: seq<Event>): Option<string> {
    if events == [] then None
    else if events[|events| - 1].ThinkingEnd? then events[|events| - 1].signature
    else LastThinkingSignature(events[..|events| - 1])
  }

  predicate Ended(events: seq<Event>) {
    exists e <- events :: e.ToolEnd?
  }

  /** The events after the last end of the tool call. */
  function AfterEnd(events: seq<Event>): seq<Event> {
    if events == [] || events[|events| - 1].ToolEnd? then []
    else AfterEnd(events[..|events| - 1]) + [events[|events| - 1]]
  }

  predicate HasToolDelta(events: seq<Event>) {
    exists e <- events :: e.ToolDelta?
  }

  /** The end of a tool call deletes the accumulated text; a delta after it is appended to what
      the deleted property then spells. */
  function PartialJson(events: seq<Event>): Option<string> {
    if !Ended(events) then Some(ToolDeltas(events))
    else if !HasToolDelta(AfterEnd(events)) then None
    else Some("undefined" + ToolDeltas(AfterEnd(events)))
  }

  /** The accumulated text when the last delta had arrived. */
  function ParsedText(events: seq<Event>): Option<string> {
    if events == [] then None
    else if events[|events| - 1].ToolDelta? then PartialJson(events)
    else ParsedText(events[..|events| - 1])
  }

  /** The block that these events, of which the first begins it, make up. */
  function Block<J>(events: seq<Event>, parse: string -> J, empty: J): Content<J>
    requires events != [] && Begins(events[0])
  {
    match events[0]
    case TextStart(_) => Text(TextDeltas(events), LastTextSignature(events))
    case ThinkingStart(_) => Thinking(ThinkingDeltas(events), LastThinkingSignature(events))
    case ToolStart(_, id, name) =>
      var parsed := if ParsedText(events).Some? then parse(ParsedText(events).value) else empty;
      ToolCall(id, name, parsed, PartialJson(events))
  }

  /** Block `i` of the message after these events. */
  function BlockAt<J>(i: int, events: seq<Event>, parse: string -> J, empty: J): Option<Content<J>> {
    var since := Since(For(i, events));
    if since == [] then None else Some(Block(since, parse, empty))
  }

  // ---------------------------------------------------------------- which events are accepted

  /** The block the event is for is of the event's own kind. */
  predicate Accepts(events: seq<Event>, e: Event) {
    var since := if Addressed(e) then Since(For(e.index, events)) else [];
    if e.TextDelta? || e.TextEnd? then since != [] && since[0].TextStart?
    else if e.ThinkingDelta? || e.ThinkingEnd? then since != [] && since[0].ThinkingStart?
    else if e.ToolDelta? then since != [] && since[0].ToolStart?
    else true
  }

  predicate Accepted(events: seq<Event>) {
    events == [] || (Accepted(events[..|events| - 1]) && Accepts(events[..|events| - 1], events[|events| - 1]))
  }

  /** The last event that reports how the response has ended, or only those that report a failure. */
  function LastReport(events: seq<Event>, failures: bool): Option<Event> {
    if events == [] then None
    else
      var last := events[|events| - 1];
      if last.Fail? || (last.Finish? && !failures) then Some(last)
      else LastReport(events[..|events| - 1], failures)
  }

  /** Stop reason, usage and error are those last reported. */
  predicate Reports(events: seq<Event>, unused: string, stopReason: string, usage: string,
                    errorMessage: Option<string>)
  {
    var report, failure := LastReport(events, false), LastReport(events, true);
    && (report.None? ==> stopReason == "stop" && usage == unused)
    && (report.Some? ==> report.value.Finish? || report.value.Fail?)
    && (report.Some? ==> stopReason == report.value.reason && usage == report.value.usage)
    && (failure.None? ==> errorMessage == None)
    && (failure.Some? ==> failure.value.Fail? && errorMessage == failure.value.message)
  }

  // ---------------------------------------------------------------- one more event

  lemma ReportsSnoc(events: seq<Event>, e: Event, unused: string, stopReason: string, usage: string,
                    errorMessage: Option<string>)
    requires Reports(events, unused, stopReason, usage, errorMessage)
    ensures e.Finish? ==> Reports(events + [e], unused, e.reason, e.usage, errorMessage)
    ensures e.Fail? ==> Reports(events + [e], unused, e.reason, e.usage, e.message)
    ensures !e.Finish? && !e.Fail? ==> Reports(events + [e], unused, stopReason, usage, errorMessage)
  {
    assert (events + [e])[..|events|] == events;
  }

  lemma ForSnoc(i: int, events: seq<Event>, e: Event)
    ensures For(i, events + [e]) == For(i, events) + (if Addressed(e) && e.index == i then [e] else [])
  {
    assert (events + [e])[..|events|] == events;
  }

  lemma SinceSnoc(events: seq<Event>, e: Event)
    ensures Since(events + [e]) == if Begins(e) then [e] else if Since(events) == [] then [] else Since(events) + [e]
  {
    assert (events + [e])[..|events|] == events;
  }

  lemma TextSnoc(events: seq<Event>, e: Event)
    ensures TextDeltas(events + [e]) == TextDeltas(events) + (if e.TextDelta? then e.delta else "")
    ensures ThinkingDeltas(events + [e]) == ThinkingDeltas(events) + (if e.ThinkingDelta? then e.delta else "")
    ensures ToolDeltas(events + [e]) == ToolDeltas(events) + (if e.ToolDelta? then e.delta else "")
    ensures LastTextSignature(events + [e]) == if e.TextEnd? then e.signature else LastTextSignature(events)
    ensures LastThinkingSignature(events + [e]) == if e.ThinkingEnd? then e.signature else LastThinkingSignature(events)
  {
    assert (events + [e])[..|events|] == events;
  }

  lemma AfterEndSnoc(events: seq<Event>, e: Event)
    ensures AfterEnd(events + [e]) == if e.ToolEnd? then [] else AfterEnd(events) + [e]
    ensures Ended(events + [e]) <==> Ended(events) || e.ToolEnd?
    ensures HasToolDelta(events + [e]) <==> HasToolDelta(events) || e.ToolDelta?
  {
    var s := events + [e];
    assert s[..|events|] == events;
    assert s[|events|] == e && forall x :: x in s <==> x in events || x == e;
  }

  lemma {:induction false} NoDeltas(events: seq<Event>)
    requires !HasToolDelta(events)
    ensures ToolDeltas(events) == ""
  {
    if events != [] {
      var init, e := events[..|events| - 1], events[|events| - 1];
      assert events == init + [e];
      AfterEndSnoc(init, e);
      NoDeltas(init);
    }
  }

  /** What appending to the property gives. */
  function Spelled(s: Option<string>): string {
    if s.None? then "undefined" else s.value
  }

  lemma PartialJsonEnd(events: seq<Event>, e: Event)
    requires e.ToolEnd?
    ensures PartialJson(events + [e]) == None
  {
    AfterEndSnoc(events, e);
    assert !HasToolDelta([]);
  }

  lemma Same(s: string, t: string, u: string)
    ensures s + "" == s && s + t + u == s + (t + u)
  {
  }

  lemma PartialJsonOther(events: seq<Event>, e: Event)
    requires !e.ToolEnd? && !e.ToolDelta?
    ensures PartialJson(events + [e]) == PartialJson(events)
  {
    var after := AfterEnd(events);
    AfterEndSnoc(events, e);
    AfterEndSnoc(after, e);
    TextSnoc(events, e);
    TextSnoc(after, e);
    Same(ToolDeltas(after), "", "");
    Same(ToolDeltas(events), "", "");
  }

  lemma PartialJsonDelta(events: seq<Event>, e: Event)
    requires e.ToolDelta?
    ensures PartialJson(events + [e]) == Some(Spelled(PartialJson(events)) + e.delta)
  {
    var after := AfterEnd(events);
    AfterEndSnoc(events, e);
    AfterEndSnoc(after, e);
    TextSnoc(events, e);
    TextSnoc(after, e);
    Same("undefined", ToolDeltas(after), e.delta);
    if !HasToolDelta(after) {
      NoDeltas(after);
    }
  }

  lemma PartialJsonSnoc(events: seq<Event>, e: Event)
    ensures PartialJson(events + [e]) ==
            if e.ToolEnd? then None
            else if e.ToolDelta? then Some(Spelled(PartialJson(events)) + e.delta)
            else PartialJson(events)
  {
    if e.ToolEnd? {
      PartialJsonEnd(events, e);
    } else if e.ToolDelta? {
      PartialJsonDelta(events, e);
    } else {
      PartialJsonOther(events, e);
    }
  }

  lemma ParsedTextSnoc(events: seq<Event>, e: Event)
    ensures ParsedText(events + [e]) == if e.ToolDelta? then PartialJson(events + [e]) else ParsedText(events)
  {
    assert (events + [e])[..|events|] == events;
  }

  // ---------------------------------------------------------------- what one event does to its block

  lemma OtherBlock<J>(i: int, events: seq<Event>, e: Event, parse: string -> J, empty: J)
    requires !Addressed(e) || e.index != i
    ensures BlockAt(i, events + [e], parse, empty) == BlockAt(i, events, parse, empty)
  {
    ForSnoc(i, events, e);
    assert For(i, events) + [] == For(i, events);
  }

  lemma FirstEvent(e: Event)
    requires Begins(e)
    ensures TextDeltas([e]) == "" && ThinkingDeltas([e]) == ""
    ensures LastTextSignature([e]) == None && LastThinkingSignature([e]) == None
    ensures PartialJson([e]) == Some("") && ParsedText([e]) == None
  {
    assert [] + [e] == [e];
    TextSnoc([], e);
    PartialJsonOther([], e);
    ParsedTextSnoc([], e);
    assert !Ended([]);
  }

  lemma BlockBegins<J>(events: seq<Event>, e: Event, parse: string -> J, empty: J)
    requires Begins(e)
    ensures BlockAt(e.index, events + [e], parse, empty) == After(None, e, parse, empty)
  {
    ForSnoc(e.index, events, e);
    SinceSnoc(For(e.index, events), e);
    FirstEvent(e);
  }

  lemma SinceGrows(events: seq<Event>, e: Event)
    requires Addressed(e) && !Begins(e)
    ensures
      var since := Since(For(e.index, events));
      Since(For(e.index, events + [e])) == if since == [] then [] else since + [e]
  {
    ForSnoc(e.index, events, e);
    SinceSnoc(For(e.index, events), e);
  }

  lemma TextGrows<J>(events: seq<Event>, e: Event, parse: string -> J, empty: J)
    requires (e.TextDelta? || e.TextEnd?) && Accepts(events, e)
    ensures
      var before := BlockAt(e.index, events, parse, empty);
      && before.Some? && before.value.Text?
      && before.value.text == TextDeltas(Since(For(e.index, events)))
      && BlockAt(e.index, events + [e], parse, empty) == Some(
        if e.TextDelta? then before.value.(text := before.value.text + e.delta)
        else before.value.(textSignature := e.signature))
  {
    var since := Since(For(e.index, events));
    SinceGrows(events, e);
    TextSnoc(since, e);
    assert TextDeltas(since) + "" == TextDeltas(since);
    assert (since + [e])[0] == since[0];
  }

  lemma ThinkingGrows<J>(events: seq<Event>, e: Event, parse: string -> J, empty: J)
    requires (e.ThinkingDelta? || e.ThinkingEnd?) && Accepts(events, e)
    ensures
      var before := BlockAt(e.index, events, parse, empty);
      && before.Some? && before.value.Thinking?
      && before.value.thinking == ThinkingDeltas(Since(For(e.index, events)))
      && BlockAt(e.index, events + [e], parse, empty) == Some(
        if e.ThinkingDelta? then before.value.(thinking := before.value.thinking + e.delta)
        else before.value.(thinkingSignature := e.signature))
  {
    var since := Since(For(e.index, events));
    SinceGrows(events, e);
    TextSnoc(since, e);
    assert ThinkingDeltas(since) + "" == ThinkingDeltas(since);
    assert (since + [e])[0] == since[0];
  }

  lemma ToolGrows<J>(events: seq<Event>, e: Event, parse: string -> J, empty: J)
    requires e.ToolDelta? && Accepts(events, e)
    ensures
      var before := BlockAt(e.index, events, parse, empty);
      && before.Some? && before.value.ToolCall?
      && var partialJson := Spelled(before.value.partialJson) + e.delta;
      BlockAt(e.index, events + [e], parse, empty) ==
        Some(before.value.(partialJson := Some(partialJson), arguments := parse(partialJson)))
  {
    var since := Since(For(e.index, events));
    SinceGrows(events, e);
    PartialJsonSnoc(since, e);
    ParsedTextSnoc(since, e);
    assert (since + [e])[0] == since[0];
  }

  /** A tool call's end is ignored by a block of another kind. */
  lemma ToolEnds<J>(events: seq<Event>, e: Event, parse: string -> J, empty: J)
    requires e.ToolEnd?
    ensures
      var before := BlockAt(e.index, events, parse, empty);
      BlockAt(e.index, events + [e], parse, empty) ==
        if before.Some? && before.value.ToolCall? then Some(before.value.(partialJson := None)) else before
  {
    var since := Since(For(e.index, events));
    SinceGrows(events, e);
    if since != [] {
      PartialJsonSnoc(since, e);
      ParsedTextSnoc(since, e);
      TextSnoc(since, e);
      assert TextDeltas(since) + "" == TextDeltas(since) && ThinkingDeltas(since) + "" == ThinkingDeltas(since);
      assert (since + [e])[0] == since[0];
    }
  }

  /** What an accepted event pushes to the stream. */
  function PushedFor<J>(events: seq<Event>, e: Event, parse: string -> J, empty: J): Option<Pushed<J>> {
    match e
    case Start => Some(Started)
    case TextStart(i) => Some(BlockStarted(i))
    case ThinkingStart(i) => Some(BlockStarted(i))
    case ToolStart(i, _, _) => Some(BlockStarted(i))
    case TextDelta(i, delta) => Some(Grew(i, delta))
    case ThinkingDelta(i, delta) => Some(Grew(i, delta))
    case ToolDelta(i, delta) => Some(Grew(i, delta))
    case TextEnd(i, _) => Some(BlockEnded(i, TextDeltas(Since(For(i, events)))))
    case ThinkingEnd(i, _) => Some(BlockEnded(i, ThinkingDeltas(Since(For(i, events)))))
    case ToolEnd(i) =>
      var after := BlockAt(i, events + [e], parse, empty);
      if after.Some? && after.value.ToolCall? then Some(CallEnded(i, after.value)) else None
    case Finish(reason, _) => Some(Finished(reason))
    case Fail(reason, _, _) => Some(Failed(reason))
    case Unhandled => None
  }

  // ---------------------------------------------------------------- the message

  class Message<J(==)> {
    const parse: string -> J
    const empty: J
    var content: map<int, Content<J>>
    var stopReason: string
    var usage: string
    var errorMessage: Option<string>
    ghost const unused: string      // the usage before any is reported
    ghost var accepted: seq<Event>

    /** Every block is what the accepted events for it since its last start make of it. */
    ghost predicate Valid()
      reads this
    {
      Accepted(accepted) && Blocks(content, accepted, parse, empty)
    }

    ghost predicate Reported()
      reads this
    {
      Reports(accepted, unused, stopReason, usage, errorMessage)
    }

    constructor (parse: string -> J, empty: J, usage: string)
      ensures Valid() && Reported() && accepted == [] && this.parse == parse && this.empty == empty
      ensures stopReason == "stop" && this.usage == usage == unused && errorMessage == None
    {
      this.parse, this.empty, unused := parse, empty, usage;
      content, stopReason, this.usage, errorMessage := map[], "stop", usage, None;
      accepted := [];
      new;
      BlocksAtFirst(this.parse, this.empty);
    }

    /** Fails exactly on an event for a block of another kind, and then changes nothing. */
    method ProcessProxyEvent(e: Event) returns (r: Outcome<Option<Pushed<J>>>)
      requires Valid()
      modifies this
      ensures Valid()
      ensures r.Done? <==> Accepts(old(accepted), e)
      ensures r.Done? ==> accepted == old(accepted) + [e] && r.value == PushedFor(old(accepted), e, parse, empty)
      ensures r.Done? && (e.Finish? || e.Fail?) ==> stopReason == e.reason && usage == e.usage
      ensures !r.Done? || !(e.Finish? || e.Fail?) ==> stopReason == old(stopReason) && usage == old(usage)
      ensures errorMessage == if e.Fail? then e.message else old(errorMessage)
      ensures !r.Done? ==> r.Threw? && accepted == old(accepted) && content == old(content)
      ensures r.Threw? && e.TextDelta? ==> r.error == "Received text_delta for non-text content"
      ensures r.Threw? && e.TextEnd? ==> r.error == "Received text_end for non-text content"
      ensures r.Threw? && e.ThinkingDelta? ==> r.error == "Received thinking_delta for non-thinking content"
      ensures r.Threw? && e.ThinkingEnd? ==> r.error == "Received thinking_end for non-thinking content"
      ensures r.Threw? && e.ToolDelta? ==> r.error == "Received toolcall_delta for non-toolCall content"
    {
      hide Blocks, BlockAt, Accepts, Accepted, For, Since, TextDeltas, ThinkingDeltas, Reports;
      ghost var before := accepted;
      BlockThere(content, before, e, parse, empty);
      if Accepts(before, e) {
        EndedBlock(content, before, e, parse, empty);
      }
      match e {
        case Start =>
          r := Done(Some(Started));
        case TextStart(i) =>
          content := content[i := Text("", None)];
          r := Done(Some(BlockStarted(i)));
        case TextDelta(i, delta) =>
          if i !in content || !content[i].Text? {
            return Threw("Received text_delta for non-text content");
          }
          content := content[i := content[i].(text := content[i].text + delta)];
          r := Done(Some(Grew(i, delta)));
        case TextEnd(i, signature) =>
          if i !in content || !content[i].Text? {
            return Threw("Received text_end for non-text content");
          }
          content := content[i := content[i].(textSignature := signature)];
          r := Done(Some(BlockEnded(i, content[i].text)));
        case ThinkingStart(i) =>
          content := content[i := Thinking("", None)];
          r := Done(Some(BlockStarted(i)));
        case ThinkingDelta(i, delta) =>
          if i !in content || !content[i].Thinking? {
            return Threw("Received thinking_delta for non-thinking content");
          }
          content := content[i := content[i].(thinking := content[i].thinking + delta)];
          r := Done(Some(Grew(i, delta)));
        case ThinkingEnd(i, signature) =>
          if i !in content || !content[i].Thinking? {
            return Threw("Received thinking_end for non-thinking content");
          }
          content := content[i := content[i].(thinkingSignature := signature)];
          r := Done(Some(BlockEnded(i, content[i].thinking)));
        case ToolStart(i, id, name) =>
          content := content[i := ToolCall(id, name, empty, Some(""))];
          r := Done(Some(BlockStarted(i)));
        case ToolDelta(i, delta) =>
          if i !in content || !content[i].ToolCall? {
            return Threw("Received toolcall_delta for non-toolCall content");
          }
          var partialJson := Spelled(content[i].partialJson) + delta;
          content := content[i := content[i].(partialJson := Some(partialJson), arguments := parse(partialJson))];
          r := Done(Some(Grew(i, delta)));
        case ToolEnd(i) =>
          if i in content && content[i].ToolCall? {
            content := content[i := content[i].(partialJson := None)];
            r := Done(Some(CallEnded(i, content[i])));
          } else {
            r := Done(None);
          }
        case Finish(reason, use) =>
          stopReason, usage := reason, use;
          r := Done(Some(Finished(reason)));
        case Fail(reason, message, use) =>
          stopReason, errorMessage, usage := reason, message, use;
          r := Done(Some(Failed(reason)));
        case Unhandled =>
          r := Done(None);
      }
      accepted := accepted + [e];
      BlocksStep(old(content), content, before, e, parse, empty);
      AcceptedSnoc(before, e);
    }
  }

  // ---------------------------------------------------------------- the map of blocks

  ghost predicate Blocks<J>(content: map<int, Content<J>>, events: seq<Event>, parse: string -> J, empty: J) {
    forall k: nat {:trigger Key(k)} :: Key(k) ==>
      forall i :: BlockAt(i, events, parse, empty) == Lookup(content, i)
  }

  lemma BlocksAtFirst<J>(parse: string -> J, empty: J)
    ensures Blocks(map[], [], parse, empty)
  {
  }

  lemma AcceptedSnoc(events: seq<Event>, e: Event)
    ensures Accepted(events + [e]) <==> Accepted(events) && Accepts(events, e)
  {
    assert (events + [e])[..|events|] == events;
  }

  function Lookup<J>(content: map<int, Content<J>>, i: int): Option<Content<J>> {
    if i in content then Some(content[i]) else None
  }

  /** The kind of the block decides whether the event is accepted. */
  lemma BlockThere<J>(content: map<int, Content<J>>, events: seq<Event>, e: Event, parse: string -> J, empty: J)
    requires Blocks(content, events, parse, empty)
    ensures e.TextDelta? || e.TextEnd? ==> (Accepts(events, e) <==> e.index in content && content[e.index].Text?)
    ensures e.ThinkingDelta? || e.ThinkingEnd? ==>
            (Accepts(events, e) <==> e.index in content && content[e.index].Thinking?)
    ensures e.ToolDelta? ==> (Accepts(events, e) <==> e.index in content && content[e.index].ToolCall?)
    ensures !e.TextDelta? && !e.TextEnd? && !e.ThinkingDelta? && !e.ThinkingEnd? && !e.ToolDelta? ==> Accepts(events, e)
  {
    assert Key(0);
    if Addressed(e) {
      assert BlockAt(e.index, events, parse, empty) == Lookup(content, e.index);
    }
  }

  /** The block after an event addressed to it. */
  function After<J>(block: Option<Content<J>>, e: Event, parse: string -> J, empty: J): Option<Content<J>> {
    match e
    case TextStart(_) => Some(Text("", None))
    case ThinkingStart(_) => Some(Thinking("", None))
    case ToolStart(_, id, name) => Some(ToolCall(id, name, empty, Some("")))
    case TextDelta(_, delta) =>
      if block.Some? && block.value.Text? then Some(block.value.(text := block.value.text + delta)) else block
    case TextEnd(_, signature) =>
      if block.Some? && block.value.Text? then Some(block.value.(textSignature := signature)) else block
    case ThinkingDelta(_, delta) =>
      if block.Some? && block.value.Thinking? then Some(block.value.(thinking := block.value.thinking + delta))
      else block
    case ThinkingEnd(_, signature) =>
      if block.Some? && block.value.Thinking? then Some(block.value.(thinkingSignature := signature)) else block
    case ToolDelta(_, delta) =>
      if block.Some? && block.value.ToolCall? then
        var partialJson := Spelled(block.value.partialJson) + delta;
        Some(block.value.(partialJson := Some(partialJson), arguments := parse(partialJson)))
      else block
    case ToolEnd(_) => if block.Some? && block.value.ToolCall? then Some(block.value.(partialJson := None)) else block
    case _ => block
  }

  /** Updating the block in place and rebuilding it from its events agree. */
  lemma BlockStep<J>(events: seq<Event>, e: Event, parse: string -> J, empty: J)
    requires Addressed(e) && Accepts(events, e)
    ensures BlockAt(e.index, events + [e], parse, empty) ==
            After(BlockAt(e.index, events, parse, empty), e, parse, empty)
  {
    if Begins(e) {
      BlockBegins(events, e, parse, empty);
    } else if e.TextDelta? || e.TextEnd? {
      TextGrows(events, e, parse, empty);
    } else if e.ThinkingDelta? || e.ThinkingEnd? {
      ThinkingGrows(events, e, parse, empty);
    } else if e.ToolDelta? {
      ToolGrows(events, e, parse, empty);
    } else {
      ToolEnds(events, e, parse, empty);
    }
  }

  lemma BlocksStep<J>(before: map<int, Content<J>>, after: map<int, Content<J>>, events: seq<Event>, e: Event,
                      parse: string -> J, empty: J)
    requires Blocks(before, events, parse, empty) && Accepts(events, e)
    requires !Addressed(e) ==> after == before
    requires Addressed(e) ==> Lookup(after, e.index) == After(Lookup(before, e.index), e, parse, empty)
    requires Addressed(e) ==> forall i | i != e.index :: Lookup(after, i) == Lookup(before, i)
    ensures Blocks(after, events + [e], parse, empty)
  {
    assert Key(0);
    forall i ensures BlockAt(i, events + [e], parse, empty) == Lookup(after, i) {
      if Addressed(e) && i == e.index {
        BlockStep(events, e, parse, empty);
      } else {
        OtherBlock(i, events, e, parse, empty);
      }
    }
  }

  function EndOfCall<J>(block: Option<Content<J>>, i: int): Option<Pushed<J>> {
    if block.Some? && block.value.ToolCall? then Some(CallEnded(i, block.value.(partialJson := None))) else None
  }

  /** What the ended block holds. */
  lemma EndedBlock<J>(content: map<int, Content<J>>, events: seq<Event>, e: Event, parse: string -> J, empty: J)
    requires Blocks(content, events, parse, empty) && Accepts(events, e)
    ensures e.TextEnd? ==>
      && e.index in content && content[e.index].Text?
      && content[e.index].text == TextDeltas(Since(For(e.index, events)))
    ensures e.ThinkingEnd? ==>
      && e.index in content && content[e.index].Thinking?
      && content[e.index].thinking == ThinkingDeltas(Since(For(e.index, events)))
    ensures e.ToolEnd? ==> PushedFor(events, e, parse, empty) == EndOfCall(Lookup(content, e.index), e.index)
  {
    assert Key(0);
    BlockThere(content, events, e, parse, empty);
    if Addressed(e) {
      assert BlockAt(e.index, events, parse, empty) == Lookup(content, e.index);
      BlockStep(events, e, parse, empty);
    }
  }
}
