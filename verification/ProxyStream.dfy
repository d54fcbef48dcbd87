/**
 * Reading the proxy's events: `data: ` lines from a body that arrives in arbitrary chunks (a
 * subset of sections 9.2.5 and 9.2.6 of the WHATWG HTML Living Standard).
 */
module ProxyStream {
  import opened Wrappers
  import opened Texts
  import opened ProxyMessage

  /** What one `read` gives, and whether the request had been aborted when it returned. */
  datatype Read =
    | Chunk(text: string, aborted: bool)
    | ReadError(message: string, aborted: bool)

  datatype Ending = Complete | Broken(reason: string)

  // ---------------------------------------------------------------- lines and payloads

  /** What follows `data: ` on a line, trimmed, if anything does. */
  function Payload(line: string): Option<string> {
    if !("data: " <= line) then None
    else
      var data := TrimEnd(TrimStart(line[6..]));
      if data == "" then None else Some(data)
  }

  function Payloads(lines: seq<string>): seq<string> {
    if lines == [] then []
    else Payloads(lines[..|lines| - 1]) +
         (if Payload(lines[|lines| - 1]).Some? then [Payload(lines[|lines| - 1]).value] else [])
  }

  /** The terminated lines of a text. */
  function Terminated(text: string): seq<string> {
    Split(text)[..|Split(text)| - 1]
  }

  /** What follows the last newline. */
  function Unterminated(text: string): string {
    Split(text)[|Split(text)| - 1]
  }

  /** The payloads of a whole text, whose last, unterminated piece is discarded. */
  function Framed(text: string): seq<string> {
    Payloads(Terminated(text))
  }

  /** The lines of a text with one more character in front. */
  function Prepend(c: char, lines: seq<string>): seq<string>
    requires lines != []
  {
    if c == '\n' then [""] + lines else [[c] + lines[0]] + lines[1..]
  }

  lemma SplitCons(c: char, s: string)
    ensures Split([c] + s) == Prepend(c, Split(s))
  {
    assert ([c] + s)[1..] == s;
  }

  lemma PrependAppend(c: char, rest: seq<string>, more: seq<string>)
    requires rest != [] && more != []
    requires c == '\n' || |rest| > 1
    ensures
      var first := Prepend(c, rest);
      && Prepend(c, rest[..|rest| - 1] + more) == first[..|first| - 1] + more
      && first[|first| - 1] == rest[|rest| - 1]
  {
  }

  lemma {:induction false} SplitAppend(a: string, b: string)
    ensures Split(a + b) == Terminated(a) + Split(Unterminated(a) + b)
  {
    if a == "" {
      assert a + b == b;
    } else {
      SplitAppend(a[1..], b);
      assert a == [a[0]] + a[1..] && a + b == [a[0]] + (a[1..] + b);
      SplitAppendCons(a[0], a[1..], b);
    }
  }

  lemma SplitAppendCons(c: char, t: string, b: string)
    requires Split(t + b) == Terminated(t) + Split(Unterminated(t) + b)
    ensures Split([c] + (t + b)) == Terminated([c] + t) + Split(Unterminated([c] + t) + b)
  {
    hide Split;
    SplitCons(c, t);
    SplitCons(c, t + b);
    if c == '\n' || |Split(t)| > 1 {
      PrependAppend(c, Split(t), Split(Unterminated(t) + b));
    } else {
      SplitLonger(c, t, b);
    }
  }

  /** A longer first piece that is also the last one. */
  lemma SplitLonger(c: char, t: string, b: string)
    requires c != '\n' && |Split(t)| == 1
    ensures Terminated([c] + t) == [] && Terminated(t) == []
    ensures Split(Unterminated([c] + t) + b) == Prepend(c, Split(Unterminated(t) + b))
  {
    SplitCons(c, t);
    assert Unterminated([c] + t) + b == [c] + (Unterminated(t) + b);
    SplitCons(c, Unterminated(t) + b);
  }

  /** One more chunk: its lines follow the earlier ones, the first of them completing what was
      left over. */
  lemma FrameChunk(text: string, chunk: string)
    ensures Terminated(text + chunk) == Terminated(text) + Terminated(Unterminated(text) + chunk)
    ensures Unterminated(text + chunk) == Unterminated(Unterminated(text) + chunk)
  {
    SplitAppend(text, chunk);
    var a, b := Terminated(text), Split(Unterminated(text) + chunk);
    assert (a + b)[..|a + b| - 1] == a + b[..|b| - 1];
  }

  lemma {:induction false} PayloadsAppend(a: seq<string>, b: seq<string>)
    ensures Payloads(a + b) == Payloads(a) + Payloads(b)
  {
    if b == [] {
      assert a + b == a;
    } else {
      var init := b[..|b| - 1];
      assert (a + b)[..|a + b| - 1] == a + init;
      PayloadsAppend(a, init);
    }
  }

  /** More text only adds payloads. */
  lemma FramedAppend(text: string, chunk: string)
    ensures Framed(text + chunk) == Framed(text) + Framed(Unterminated(text) + chunk)
  {
    FrameChunk(text, chunk);
    PayloadsAppend(Terminated(text), Terminated(Unterminated(text) + chunk));
  }

  // ---------------------------------------------------------------- what is handled

  predicate Stops(read: Read) {
    read.ReadError? || read.aborted
  }

  /** The number of reads before the first one that ends the loop with an exception. */
  function StopsAt(chunks: seq<Read>): (n: nat)
    ensures n <= |chunks| && (n < |chunks| ==> Stops(chunks[n]))
    ensures forall k | 0 <= k < n :: !Stops(chunks[k])
  {
    if chunks == [] || Stops(chunks[0]) then 0 else 1 + StopsAt(chunks[1..])
  }

  /** The decoded text of the body, however it was cut. */
  function Text(chunks: seq<Read>): string {
    if chunks == [] then ""
    else Text(chunks[..|chunks| - 1]) + (if chunks[|chunks| - 1].Chunk? then chunks[|chunks| - 1].text else "")
  }

  /** The payload is not an event, or not one that fits the message so far. */
  predicate Rejected(payload: string, before: seq<Event>, decode: string -> Option<Event>) {
    decode(payload).None? || !Accepts(before, decode(payload).value)
  }

  /** The events are those of the payloads, in order: all of them, or those before the first
      rejected one. */
  predicate Handled(payloads: seq<string>, decode: string -> Option<Event>, events: seq<Event>, all: bool) {
    && |events| <= |payloads| && Accepted(events)
    && (forall k | 0 <= k < |events| :: decode(payloads[k]) == Some(events[k]))
    && (all <==> |events| == |payloads|)
    && (!all ==> Rejected(payloads[|events|], events, decode))
  }

  /** The events pushed for a sequence of accepted ones. */
  function Emitted<J>(events: seq<Event>, parse: string -> J, empty: J): seq<Pushed<J>> {
    if events == [] then []
    else
      var before := events[..|events| - 1];
      var pushed := PushedFor(before, events[|events| - 1], parse, empty);
      Emitted(before, parse, empty) + (if pushed.Some? then [pushed.value] else [])
  }

  function EndingOf(chunks: seq<Read>, abortedAtEnd: bool, all: bool): Ending {
    var n := StopsAt(chunks);
    if !all then Broken("error")
    else if n < |chunks| then Broken(if chunks[n].aborted then "aborted" else "error")
    else if abortedAtEnd then Broken("aborted")
    else Complete
  }

  /** The message of the exception that ends the reading, if one does. */
  function ErrorOf(chunks: seq<Read>): string {
    var n := StopsAt(chunks);
    if n < |chunks| && chunks[n].ReadError? then chunks[n].message else "Request aborted by user"
  }

  /** How a stream over these reads must go. */
  ghost predicate Streams(chunks: seq<Read>, abortedAtEnd: bool, decode: string -> Option<Event>, events: seq<Event>,
                          ending: Ending)
  {
    exists all ::
      && Handled(Framed(Text(chunks[..StopsAt(chunks)])), decode, events, all)
      && ending == EndingOf(chunks, abortedAtEnd, all)
  }

  lemma HandledMore(payloads: seq<string>, more: seq<string>, decode: string -> Option<Event>, events: seq<Event>)
    requires Handled(payloads, decode, events, false)
    ensures Handled(payloads + more, decode, events, false)
  {
  }

  lemma HandledOne(payloads: seq<string>, payload: string, decode: string -> Option<Event>, events: seq<Event>)
    requires Handled(payloads, decode, events, true)
    ensures Rejected(payload, events, decode) ==> Handled(payloads + [payload], decode, events, false)
    ensures !Rejected(payload, events, decode) ==>
            Handled(payloads + [payload], decode, events + [decode(payload).value], true)
  {
    if !Rejected(payload, events, decode) {
      AcceptedSnoc(events, decode(payload).value);
    }
  }

  lemma EmittedSnoc<J>(events: seq<Event>, e: Event, parse: string -> J, empty: J)
    ensures Emitted(events + [e], parse, empty) ==
            Emitted(events, parse, empty) +
              (if PushedFor(events, e, parse, empty).Some? then [PushedFor(events, e, parse, empty).value] else [])
  {
    assert (events + [e])[..|events|] == events;
  }

  // ---------------------------------------------------------------- the loops

  /** The payloads so far and those of the first `i` lines. */
  function UpTo(payloads: seq<string>, lines: seq<string>, i: nat): seq<string>
    requires i <= |lines|
  {
    payloads + Payloads(lines[..i])
  }

  lemma UpToNext(payloads: seq<string>, lines: seq<string>, i: nat)
    requires i < |lines|
    ensures UpTo(payloads, lines, i + 1) == UpTo(payloads, lines, i) + Payloads([lines[i]])
    ensures UpTo(payloads, lines, |lines|) == UpTo(payloads, lines, i + 1) + Payloads(lines[i + 1..])
  {
    assert lines[..i + 1] == lines[..i] + [lines[i]] && lines[..|lines|] == lines[..i + 1] + lines[i + 1..];
    PayloadsAppend(lines[..i], [lines[i]]);
    PayloadsAppend(lines[..i + 1], lines[i + 1..]);
  }

  lemma UpToNone(payloads: seq<string>, lines: seq<string>)
    ensures UpTo(payloads, lines, 0) == payloads && UpTo(payloads, lines, |lines|) == payloads + Payloads(lines)
  {
    assert lines[..|lines|] == lines && payloads + [] == payloads;
  }

  /** What has been handled and pushed; `all` tells whether nothing was rejected. */
  ghost predicate Progress<J>(payloads: seq<string>, decode: string -> Option<Event>, partial: Message<J>,
                              pushed: seq<Pushed<J>>, all: bool)
    reads partial
  {
    && partial.Valid() && partial.Reported()
    && forall k: nat {:trigger Key(k)} :: Key(k) ==>
        && Handled(payloads, decode, partial.accepted, all)
        && pushed == Emitted(partial.accepted, partial.parse, partial.empty)
  }

  // ---------------------------------------------------------------- the loops

  /** One line of the body. */
  method HandleLine<J>(line: string, decode: string -> Option<Event>, partial: Message<J>, pushed: seq<Pushed<J>>,
                       ghost payloads: seq<string>)
    returns (r: Outcome<bool>, out: seq<Pushed<J>>)
    requires Progress(payloads, decode, partial, pushed, true)
    modifies partial
    ensures Progress(payloads + Payloads([line]), decode, partial, out, r.Done?)
    ensures !r.Done? ==> r.Threw?
  {
    hide Reports;
    assert Key(0);
    assert Payloads([line]) == if Payload(line).Some? then [Payload(line).value] else [];
    out := pushed;
    if !("data: " <= line) {
      return Done(true), out;
    }
    var data := TrimEnd(TrimStart(line[6..]));
    if data == "" {
      return Done(true), out;
    }
    HandledOne(payloads, data, decode, partial.accepted);
    var e := decode(data);
    if e.None? {
      return Threw("SyntaxError"), out;
    }
    EmittedSnoc(partial.accepted, e.value, partial.parse, partial.empty);
    ReportsSnoc(partial.accepted, e.value, partial.unused, partial.stopReason, partial.usage, partial.errorMessage);
    var event := partial.ProcessProxyEvent(e.value);
    if event.Threw? {
      return Threw(event.error), out;
    }
    if event.value.Some? {
      out := out + [event.value.value];
    }
    return Done(true), out;
  }

  lemma ProgressMore<J>(payloads: seq<string>, more: seq<string>, decode: string -> Option<Event>, partial: Message<J>,
                        pushed: seq<Pushed<J>>)
    requires Progress(payloads, decode, partial, pushed, false)
    ensures Progress(payloads + more, decode, partial, pushed, false)
  {
    assert Key(0);
    HandledMore(payloads, more, decode, partial.accepted);
  }

  /** The terminated lines of the buffer. */
  method HandleLines<J>(lines: seq<string>, decode: string -> Option<Event>, partial: Message<J>,
                        pushed: seq<Pushed<J>>, ghost payloads: seq<string>)
    returns (r: Outcome<bool>, out: seq<Pushed<J>>)
    requires Progress(payloads, decode, partial, pushed, true)
    modifies partial
    ensures Progress(payloads + Payloads(lines), decode, partial, out, r.Done?)
    ensures !r.Done? ==> r.Threw?
  {
    UpToNone(payloads, lines);
    out := pushed;
    for i := 0 to |lines|
      invariant Progress(UpTo(payloads, lines, i), decode, partial, out, true)
    {
      UpToNext(payloads, lines, i);
      r, out := HandleLine(lines[i], decode, partial, out, UpTo(payloads, lines, i));
      if r.Threw? {
        ProgressMore(UpTo(payloads, lines, i + 1), Payloads(lines[i + 1..]), decode, partial, out);
        return;
      }
    }
    return Done(true), out;
  }

  // ---------------------------------------------------------------- the whole stream

  lemma TextNext(body: seq<Read>, i: nat)
    requires i < |body|
    ensures Text(body[..i + 1]) == Text(body[..i]) + (if body[i].Chunk? then body[i].text else "")
  {
    assert body[..i + 1][..i] == body[..i];
  }

  /** The text grows with every read. */
  lemma {:induction false} TextGrowth(body: seq<Read>, i: nat, n: nat) returns (more: string)
    requires i <= n <= |body|
    ensures Text(body[..n]) == Text(body[..i]) + more
  {
    if i == n {
      more := "";
    } else {
      more := TextGrowth(body, i, n - 1);
      TextNext(body, n - 1);
      more := more + (if body[n - 1].Chunk? then body[n - 1].text else "");
    }
  }

  lemma StopsNext(body: seq<Read>, i: nat)
    requires i < |body| && i <= StopsAt(body)
    ensures if Stops(body[i]) then StopsAt(body) == i else i + 1 <= StopsAt(body)
  {
  }

  /** A rejection within the first `i` reads stays the outcome of the whole body. */
  lemma RejectedEarly<J>(body: seq<Read>, i: nat, payloads: seq<string>, decode: string -> Option<Event>,
                         partial: Message<J>, pushed: seq<Pushed<J>>)
    requires i <= StopsAt(body) && payloads == Framed(Text(body[..i]))
    requires Progress(payloads, decode, partial, pushed, false)
    ensures Progress(Framed(Text(body[..StopsAt(body)])), decode, partial, pushed, false)
  {
    var more := FramedGrowth(body, i);
    ProgressMore(payloads, more, decode, partial, pushed);
  }

  lemma FramedGrowth(body: seq<Read>, i: nat) returns (more: seq<string>)
    requires i <= StopsAt(body)
    ensures Framed(Text(body[..StopsAt(body)])) == Framed(Text(body[..i])) + more
  {
    var rest := TextGrowth(body, i, StopsAt(body));
    FramedAppend(Text(body[..i]), rest);
    more := Framed(Unterminated(Text(body[..i])) + rest);
  }

  /** The loop's variables after `i` reads: the buffer holds what is not yet terminated. */
  ghost predicate Reading<J>(body: seq<Read>, i: nat, buffer: string, decode: string -> Option<Event>,
                             partial: Message<J>, pushed: seq<Pushed<J>>)
    reads partial
  {
    && i <= StopsAt(body) && buffer == Unterminated(Text(body[..i]))
    && Progress(Framed(Text(body[..i])), decode, partial, pushed, true)
  }

  lemma ReadingStart<J>(body: seq<Read>, decode: string -> Option<Event>, partial: Message<J>)
    requires partial.Valid() && partial.Reported() && partial.accepted == []
    ensures Reading(body, 0, "", decode, partial, [])
  {
    assert Text(body[..0]) == "" && Terminated("") == [];
  }

  /** The lines of the buffer and the next chunk. */
  lemma NextChunk(body: seq<Read>, i: nat, lines: seq<string>)
    requires i < |body| && body[i].Chunk? && lines == Split(Unterminated(Text(body[..i])) + body[i].text)
    ensures Framed(Text(body[..i + 1])) == Framed(Text(body[..i])) + Payloads(lines[..|lines| - 1])
    ensures Unterminated(Text(body[..i + 1])) == lines[|lines| - 1]
  {
    TextNext(body, i);
    FrameChunk(Text(body[..i]), body[i].text);
    FramedAppend(Text(body[..i]), body[i].text);
  }

  /** Where the loop is left, what was read is what precedes the stop. */
  lemma ReadingStops<J>(body: seq<Read>, i: nat, buffer: string, decode: string -> Option<Event>, partial: Message<J>,
                        pushed: seq<Pushed<J>>)
    requires Reading(body, i, buffer, decode, partial, pushed) && (i < |body| ==> Stops(body[i]))
    ensures StopsAt(body) == i && Progress(Framed(Text(body[..StopsAt(body)])), decode, partial, pushed, true)
  {
    if i < |body| {
      StopsNext(body, i);
    }
  }

  lemma ReadingNext<J>(body: seq<Read>, i: nat, payloads: seq<string>, buffer: string, decode: string -> Option<Event>,
                       partial: Message<J>, pushed: seq<Pushed<J>>)
    requires i <= StopsAt(body) && payloads == Framed(Text(body[..i])) && buffer == Unterminated(Text(body[..i]))
    requires Progress(payloads, decode, partial, pushed, true)
    ensures Reading(body, i, buffer, decode, partial, pushed)
  {
  }

  /** Everything up to the exception that leaves the loop, if one does; `all` tells whether no
      payload was rejected. */
  method ReadBody<J>(body: seq<Read>, abortedAtEnd: bool, decode: string -> Option<Event>, partial: Message<J>)
    returns (r: Outcome<bool>, pushed: seq<Pushed<J>>, aborted: bool, ghost all: bool)
    requires partial.Valid() && partial.Reported() && partial.accepted == []
    modifies partial
    ensures Progress(Framed(Text(body[..StopsAt(body)])), decode, partial, pushed, all)
    ensures !r.Cut?
    ensures all && r.Threw? ==> r.error == ErrorOf(body)
    ensures EndingOf(body, abortedAtEnd, all) ==
            if r.Done? then Complete else Broken(if aborted then "aborted" else "error")
  {
    var buffer := "";
    pushed := [];
    ReadingStart(body, decode, partial);
    for i := 0 to |body|
      invariant Reading(body, i, buffer, decode, partial, pushed)
    {
      var read := body[i];
      if read.ReadError? {
        ReadingStops(body, i, buffer, decode, partial, pushed);
        return Threw(read.message), pushed, read.aborted, true;
      }
      if read.aborted {
        ReadingStops(body, i, buffer, decode, partial, pushed);
        return Threw("Request aborted by user"), pushed, true, true;
      }
      buffer := buffer + read.text;
      var lines := Split(buffer);
      StopsNext(body, i);
      NextChunk(body, i, lines);
      ghost var payloads := Framed(Text(body[..i])) + Payloads(lines[..|lines| - 1]);
      r, pushed := HandleLines(lines[..|lines| - 1], decode, partial, pushed, Framed(Text(body[..i])));
      if r.Threw? {
        RejectedEarly(body, i + 1, payloads, decode, partial, pushed);
        return r, pushed, false, false;
      }
      buffer := lines[|lines| - 1];
      ReadingNext(body, i + 1, payloads, buffer, decode, partial, pushed);
    }
    ReadingStops(body, |body|, buffer, decode, partial, pushed);
    if abortedAtEnd {
      return Threw("Request aborted by user"), pushed, true, true;
    }
    return Done(true), pushed, false, true;
  }

  /** The message and the pushed events are a function of the text before the first failed or
      aborted read: the events of its payloads up to the first rejected one, and a final error
      event unless the body ended well. */
  method StreamProxy<J>(body: seq<Read>, abortedAtEnd: bool, decode: string -> Option<Event>, partial: Message<J>)
    returns (pushed: seq<Pushed<J>>, ghost ending: Ending)
    requires partial.Valid() && partial.Reported() && partial.accepted == []
    modifies partial
    ensures partial.Valid() && Streams(body, abortedAtEnd, decode, partial.accepted, ending)
    ensures pushed == Emitted(partial.accepted, partial.parse, partial.empty) +
            (if ending.Broken? then [Failed(ending.reason)] else [])
    ensures ending.Complete? ==> partial.Reported()
    ensures ending.Broken? ==> partial.stopReason == ending.reason && partial.errorMessage.Some?
    ensures ending.Broken? && |partial.accepted| == |Framed(Text(body[..StopsAt(body)]))| ==>
      partial.errorMessage == Some(ErrorOf(body))
  {
    hide Reports, Framed, Text, StopsAt, Accepted, Rejected, Accepts;
    ghost var all;
    var r, out, aborted;
    r, out, aborted, all := ReadBody(body, abortedAtEnd, decode, partial);
    assert Key(0);
    ending := EndingOf(body, abortedAtEnd, all);
    pushed := out;
    if r.Threw? {
      var reason := if aborted then "aborted" else "error";
      partial.stopReason := reason;
      partial.errorMessage := Some(r.error);
      pushed := pushed + [Failed(reason)];
    }
  }

  // ---------------------------------------------------------------- chunk independence

  lemma HandledOnce(payloads: seq<string>, decode: string -> Option<Event>, a: seq<Event>, all: bool, b: seq<Event>,
                    all': bool)
    requires Handled(payloads, decode, a, all) && Handled(payloads, decode, b, all')
    ensures a == b && all == all'
  {
    HandledNotShorter(payloads, decode, a, all, b, all');
    HandledNotShorter(payloads, decode, b, all', a, all);
    forall k | 0 <= k < |a| ensures a[k] == b[k] {
      assert decode(payloads[k]) == Some(a[k]);
    }
  }

  lemma HandledNotShorter(payloads: seq<string>, decode: string -> Option<Event>, a: seq<Event>, all: bool,
                          b: seq<Event>, all': bool)
    requires Handled(payloads, decode, a, all) && Handled(payloads, decode, b, all')
    ensures |a| >= |b|
  {
    if |a| < |b| {
      assert decode(payloads[|a|]) == Some(b[|a|]);
      assert a == b[..|a|] by {
        forall k | 0 <= k < |a| ensures a[k] == b[k] {
          assert decode(payloads[k]) == Some(a[k]);
        }
      }
      AcceptedPrefix(b, |a|);
    }
  }

  lemma {:induction false} AcceptedPrefix(events: seq<Event>, k: nat)
    requires Accepted(events) && k < |events|
    ensures Accepts(events[..k], events[k])
  {
    if k < |events| - 1 {
      AcceptedPrefix(events[..|events| - 1], k);
      assert events[..|events| - 1][..k] == events[..k];
    }
  }

  /** However the same text is cut into chunks, the same events are accepted, the stream ends
      the same way, and with it the blocks of the message are the same. */
  lemma ChunkIndependent<J>(body: seq<Read>, body': seq<Read>, abortedAtEnd: bool, decode: string -> Option<Event>,
                            events: seq<Event>, ending: Ending, events': seq<Event>, ending': Ending,
                            parse: string -> J, empty: J)
    requires StopsAt(body) == |body| && StopsAt(body') == |body'| && Text(body) == Text(body')
    requires Streams(body, abortedAtEnd, decode, events, ending)
    requires Streams(body', abortedAtEnd, decode, events', ending')
    ensures events == events' && ending == ending'
    ensures Emitted(events, parse, empty) == Emitted(events', parse, empty)
  {
    assert body[..|body|] == body && body'[..|body'|] == body';
    var all :| Handled(Framed(Text(body)), decode, events, all) && ending == EndingOf(body, abortedAtEnd, all);
    var all' :| Handled(Framed(Text(body')), decode, events', all') && ending' == EndingOf(body', abortedAtEnd, all');
    HandledOnce(Framed(Text(body)), decode, events, all, events', all');
  }
}
