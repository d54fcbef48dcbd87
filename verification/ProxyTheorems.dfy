/** What the rebuilt message depends on, and what it is made of. */
module ProxyTheorems {
  import opened Wrappers
  import opened ProxyMessage

  lemma {:induction false} ForAppend(i: int, a: seq<Event>, b: seq<Event>)
    ensures For(i, a + b) == For(i, a) + For(i, b)
  {
    if b == [] {
      assert a + b == a && For(i, b) == [];
    } else {
      var init, e := b[..|b| - 1], b[|b| - 1];
      assert b == init + [e] && a + b == (a + init) + [e];
      ForSnoc(i, a + init, e);
      ForSnoc(i, init, e);
      ForAppend(i, a, init);
    }
  }

  lemma ForNothing(i: int)
    ensures For(i, []) == []
  {
  }

  /** The events for one block are for no other. */
  lemma {:induction false} ForFor(i: int, j: int, events: seq<Event>)
    ensures For(i, For(j, events)) == if i == j then For(i, events) else []
  {
    hide For;
    if events == [] {
      ForNothing(i);
      ForNothing(j);
    } else {
      var init, e := events[..|events| - 1], events[|events| - 1];
      assert events == init + [e];
      ForSnoc(i, init, e);
      ForSnoc(j, init, e);
      ForSnoc(i, For(j, init), e);
      ForFor(i, j, init);
      assert For(j, init) + [] == For(j, init) && For(i, init) + [] == For(i, init);
      assert [] + [e] == [e];
    }
  }

  // ---------------------------------------------------------------- interleavings

  /** The events for each block are accepted on their own. */
  ghost predicate EachAccepted(events: seq<Event>) {
    forall i :: Accepted(For(i, events))
  }

  lemma AcceptsLocally(events: seq<Event>, e: Event)
    requires Addressed(e)
    ensures Accepts(For(e.index, events), e) <==> Accepts(events, e)
  {
    ForFor(e.index, e.index, events);
  }

  lemma OneBlock(i: int, events: seq<Event>, e: Event)
    ensures Accepted(For(i, events + [e])) <==>
            Accepted(For(i, events)) && (Addressed(e) && i == e.index ==> Accepts(events, e))
  {
    ForSnoc(i, events, e);
    if Addressed(e) && i == e.index {
      AcceptedSnoc(For(i, events), e);
      AcceptsLocally(events, e);
    } else {
      assert For(i, events) + [] == For(i, events);
    }
  }

  lemma EachAcceptedSnoc(events: seq<Event>, e: Event)
    ensures EachAccepted(events + [e]) <==> EachAccepted(events) && Accepts(events, e)
  {
    forall i
      ensures Accepted(For(i, events + [e])) <==>
              Accepted(For(i, events)) && (Addressed(e) && i == e.index ==> Accepts(events, e))
    {
      OneBlock(i, events, e);
    }
    if EachAccepted(events + [e]) && Addressed(e) {
      assert Accepted(For(e.index, events + [e]));
    }
  }

  lemma {:induction false} AcceptedPerBlock(events: seq<Event>)
    ensures Accepted(events) <==> EachAccepted(events)
  {
    if events == [] {
      forall i ensures For(i, events) == [] {}
    } else {
      var init, e := events[..|events| - 1], events[|events| - 1];
      assert events == init + [e];
      AcceptedPerBlock(init);
      EachAcceptedSnoc(init, e);
    }
  }

  lemma AcceptedAlike(a: seq<Event>, b: seq<Event>)
    requires forall i :: For(i, a) == For(i, b)
    ensures Accepted(a) <==> Accepted(b)
  {
    AcceptedPerBlock(a);
    AcceptedPerBlock(b);
    if EachAccepted(a) {
      forall i ensures Accepted(For(i, b)) { assert Accepted(For(i, a)); }
    }
    if EachAccepted(b) {
      forall i ensures Accepted(For(i, a)) { assert Accepted(For(i, b)); }
    }
  }

  /** The order between events for different blocks does not matter: neither to whether the
      sequence is accepted nor to any block. */
  lemma InterleavingIrrelevant<J>(a: seq<Event>, b: seq<Event>, parse: string -> J, empty: J)
    requires forall i :: For(i, a) == For(i, b)
    ensures Accepted(a) <==> Accepted(b)
    ensures forall i :: BlockAt(i, a, parse, empty) == BlockAt(i, b, parse, empty)
  {
    AcceptedAlike(a, b);
    forall i ensures BlockAt(i, a, parse, empty) == BlockAt(i, b, parse, empty) {
      assert For(i, a) == For(i, b);
    }
  }

  /** Events for different blocks commute. */
  lemma Commute<J>(before: seq<Event>, e: Event, f: Event, after: seq<Event>, parse: string -> J, empty: J)
    requires Addressed(e) && Addressed(f) && e.index != f.index
    ensures Accepted(before + [e, f] + after) <==> Accepted(before + [f, e] + after)
    ensures forall i ::
      BlockAt(i, before + [e, f] + after, parse, empty) == BlockAt(i, before + [f, e] + after, parse, empty)
  {
    forall i ensures For(i, before + [e, f] + after) == For(i, before + [f, e] + after) {
      ForAppend(i, before + [e, f], after);
      ForAppend(i, before + [f, e], after);
      ForAppend(i, before, [e, f]);
      ForAppend(i, before, [f, e]);
      ForPair(i, e, f);
      ForPair(i, f, e);
    }
    InterleavingIrrelevant(before + [e, f] + after, before + [f, e] + after, parse, empty);
  }

  lemma ForPair(i: int, e: Event, f: Event)
    requires Addressed(e) && Addressed(f)
    ensures For(i, [e, f]) == (if e.index == i then [e] else []) + (if f.index == i then [f] else [])
  {
    ForSnoc(i, [], e);
    ForSnoc(i, [e], f);
    assert [] + [e] == [e] && [e] + [f] == [e, f];
  }

  // ---------------------------------------------------------------- since the last start

  lemma {:induction false} SinceStart(before: seq<Event>, start: Event, after: seq<Event>)
    requires Begins(start)
    ensures Since(before + [start] + after) == Since([start] + after)
    ensures Since([start] + after) != []
  {
    if after == [] {
      assert before + [start] + after == before + [start] && [start] + after == [] + [start];
      SinceSnoc(before, start);
      SinceSnoc([], start);
    } else {
      var init, e := after[..|after| - 1], after[|after| - 1];
      assert before + [start] + after == (before + [start] + init) + [e];
      assert [start] + after == ([start] + init) + [e];
      SinceStart(before, start, init);
      SinceSnoc(before + [start] + init, e);
      SinceSnoc([start] + init, e);
    }
  }

  /** A start forgets everything that came before for its block. */
  lemma StartForgets<J>(before: seq<Event>, start: Event, after: seq<Event>, parse: string -> J, empty: J)
    requires Begins(start)
    ensures BlockAt(start.index, before + [start] + after, parse, empty) ==
            BlockAt(start.index, [start] + after, parse, empty)
    ensures BlockAt(start.index, [start] + after, parse, empty).Some?
  {
    var i := start.index;
    ForAppend(i, before + [start], after);
    ForAppend(i, before, [start]);
    ForAppend(i, [start], after);
    ForSnoc(i, [], start);
    assert [] + [start] == [start];
    SinceStart(For(i, before), start, For(i, after));
  }

  // ---------------------------------------------------------------- tool calls

  /** No delta comes after an end. */
  predicate Orderly(events: seq<Event>) {
    forall j, k | 0 <= j < k < |events| :: events[j].ToolEnd? ==> !events[k].ToolDelta?
  }

  lemma OrderlySnoc(events: seq<Event>, e: Event)
    ensures Orderly(events + [e]) <==> Orderly(events) && (Ended(events) ==> !e.ToolDelta?)
  {
    var s := events + [e];
    assert s[|events|] == e && forall k | 0 <= k < |events| :: s[k] == events[k];
    if Orderly(s) {
      forall j, k | 0 <= j < k < |events| ensures events[j].ToolEnd? ==> !events[k].ToolDelta? {
        assert s[j] == events[j] && s[k] == events[k];
      }
      if Ended(events) {
        var j :| 0 <= j < |events| && events[j].ToolEnd?;
        assert s[j].ToolEnd?;
      }
    } else {
      var j, k :| 0 <= j < k < |s| && s[j].ToolEnd? && s[k].ToolDelta?;
      assert s[j] == events[j];
      assert k < |events| ==> s[k] == events[k];
    }
  }

  lemma {:induction false} OrderlyParsed(events: seq<Event>)
    requires Orderly(events)
    ensures ParsedText(events) == if HasToolDelta(events) then Some(ToolDeltas(events)) else None
    ensures PartialJson(events) == if Ended(events) then None else Some(ToolDeltas(events))
  {
    if events == [] {
      assert !HasToolDelta(events) && !Ended(events);
    } else {
      var init, e := events[..|events| - 1], events[|events| - 1];
      assert events == init + [e];
      OrderlySnoc(init, e);
      OrderlyParsed(init);
      AfterEndSnoc(init, e);
      ParsedTextSnoc(init, e);
      PartialJsonSnoc(init, e);
      TextSnoc(init, e);
      Same(ToolDeltas(init), "", "");
    }
  }

  /** With no delta after its end, a tool call's arguments are parsed from the concatenation of
      its deltas, which it keeps until its end. */
  lemma ArgumentsFromDeltas<J>(i: int, events: seq<Event>, parse: string -> J, empty: J)
    requires Since(For(i, events)) != [] && Since(For(i, events))[0].ToolStart? && Orderly(Since(For(i, events)))
    ensures
      var since := Since(For(i, events));
      BlockAt(i, events, parse, empty) == Some(ToolCall(
        since[0].id, since[0].name,
        if HasToolDelta(since) then parse(ToolDeltas(since)) else empty,
        if Ended(since) then None else Some(ToolDeltas(since))))
  {
    OrderlyParsed(Since(For(i, events)));
  }

  /** The events up to the last delta. */
  function UpToDelta(events: seq<Event>): seq<Event> {
    if events == [] || events[|events| - 1].ToolDelta? then events else UpToDelta(events[..|events| - 1])
  }

  /** The events up to the last end. */
  function UpToEnd(events: seq<Event>): seq<Event> {
    if events == [] || events[|events| - 1].ToolEnd? then events else UpToEnd(events[..|events| - 1])
  }

  lemma {:induction false} LastDelta(events: seq<Event>)
    requires HasToolDelta(events)
    ensures
      var p := UpToDelta(events);
      && p != [] && p[|p| - 1].ToolDelta?
      && ParsedText(events) == PartialJson(p) && ToolDeltas(events) == ToolDeltas(p)
      && (Orderly(events) <==> !Ended(p))
  {
    hide PartialJson;
    var before, e := events[..|events| - 1], events[|events| - 1];
    assert events == before + [e];
    OrderlySnoc(before, e);
    AfterEndSnoc(before, e);
    if e.ToolDelta? {
      NothingAfterNoEnd(before);
    } else {
      LastDelta(before);
      TextSnoc(before, e);
      Same(ToolDeltas(before), "", "");
    }
  }

  lemma NothingAfterNoEnd(events: seq<Event>)
    ensures !Ended(events) ==> Orderly(events)
  {
    forall j | 0 <= j < |events| ensures events[j].ToolEnd? ==> Ended(events) {
      assert events[j] in events;
    }
  }

  lemma {:induction false} DeltasAroundEnd(events: seq<Event>)
    ensures ToolDeltas(events) == ToolDeltas(UpToEnd(events)) + ToolDeltas(AfterEnd(events))
  {
    if events == [] || events[|events| - 1].ToolEnd? {
      Same(ToolDeltas(events), "", "");
    } else {
      var before, e := events[..|events| - 1], events[|events| - 1];
      DeltasAroundEnd(before);
      TextSnoc(AfterEnd(before), e);
      Same(ToolDeltas(UpToEnd(before)), ToolDeltas(AfterEnd(before)), if e.ToolDelta? then e.delta else "");
    }
  }

  lemma SameFront(a: string, b: string, c: string)
    ensures a + c == b + c <==> a == b
  {
    if a + c == b + c {
      assert |a| == |b|;
      assert a == (a + c)[..|a|] && b == (b + c)[..|b|];
    }
  }

  /** What is parsed in the end is the concatenation of the call's deltas exactly when no delta
      comes after an end, or the deltas before the last such end spell "undefined". */
  lemma ParsedIsDeltas(events: seq<Event>)
    ensures ParsedText(events) == (if HasToolDelta(events) then Some(ToolDeltas(events)) else None) <==>
            Orderly(events) || ToolDeltas(UpToEnd(UpToDelta(events))) == "undefined"
  {
    if HasToolDelta(events) {
      LastDelta(events);
      var p := UpToDelta(events);
      var e := p[|p| - 1];
      assert p == p[..|p| - 1] + [e];
      AfterEndSnoc(p[..|p| - 1], e);
      if Ended(p) {
        assert e in AfterEnd(p);
        DeltasAroundEnd(p);
        SameFront("undefined", ToolDeltas(UpToEnd(p)), ToolDeltas(AfterEnd(p)));
      } else {
        OrderlyParsed(p);
        NothingAfterNoEnd(p);
      }
    } else {
      OrderlyWithoutDeltas(events);
      OrderlyParsed(events);
    }
  }

  lemma OrderlyWithoutDeltas(events: seq<Event>)
    requires !HasToolDelta(events)
    ensures Orderly(events)
  {
    forall k | 0 <= k < |events| ensures !events[k].ToolDelta? {
      assert events[k] in events;
    }
  }

  /** The arguments of a tool call, exactly. */
  lemma ArgumentsParsed<J>(i: int, events: seq<Event>, parse: string -> J, empty: J)
    requires Since(For(i, events)) != [] && Since(For(i, events))[0].ToolStart?
    ensures
      var since := Since(For(i, events));
      var parsed := if HasToolDelta(since) then parse(ToolDeltas(since)) else empty;
      && BlockAt(i, events, parse, empty).Some? && BlockAt(i, events, parse, empty).value.ToolCall?
      && (Orderly(since) || ToolDeltas(UpToEnd(UpToDelta(since))) == "undefined" ==>
            BlockAt(i, events, parse, empty).value.arguments == parsed)
  {
    ParsedIsDeltas(Since(For(i, events)));
  }

  /** A delta that does come after the end is accepted, and what is parsed then begins with the
      name of the missing value instead of the earlier deltas. */
  lemma DeltaAfterEnd<J>(events: seq<Event>, e: Event, delta: string, parse: string -> J, empty: J)
    requires e.ToolEnd? && BlockAt(e.index, events, parse, empty).Some?
    requires BlockAt(e.index, events, parse, empty).value.ToolCall?
    ensures
      var late := ToolDelta(e.index, delta);
      && Accepts(events + [e], late)
      && BlockAt(e.index, events + [e, late], parse, empty) == Some(BlockAt(e.index, events, parse, empty).value.(
        partialJson := Some("undefined" + delta), arguments := parse("undefined" + delta)))
  {
    var late := ToolDelta(e.index, delta);
    var since := Since(For(e.index, events));
    ToolEnds(events, e, parse, empty);
    SinceGrows(events, e);
    assert (since + [e])[0] == since[0];
    ToolGrows(events + [e], late, parse, empty);
    assert events + [e] + [late] == events + [e, late];
  }
}
