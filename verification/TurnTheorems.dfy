/** What one turn of a run consists of: its streamed response, its tool calls and their answers. */
module TurnTheorems {
  import opened Wrappers
  import opened AgentEvents
  import opened AgentState
  import opened AgentEnvironment
  import opened TurnLogs
  import opened RunLogs

  // ---------------------------------------------------------------- streaming

  function Starts(events: seq<StreamEvent>): nat {
    if events == [] then 0 else Starts(events[..|events| - 1]) + (if events[|events| - 1].Start? then 1 else 0)
  }

  lemma {:induction false} GrownStarts(events: seq<StreamEvent>)
    ensures |Grown(events)| == Starts(events)
  {
    if events != [] {
      GrownStarts(events[..|events| - 1]);
    }
  }

  /** Streaming adds exactly the final message to the context iff the response starts at most
      once; every further start leaves one stale partial message behind. */
  lemma StreamCollapses(events: seq<StreamEvent>, ctx: seq<Message>, final: Message)
    ensures |Stale(events)| == if Starts(events) == 0 then 0 else Starts(events) - 1
    ensures ctx + Stale(events) + [final] == ctx + [final] <==> Starts(events) <= 1
  {
    GrownStarts(events);
    if Stale(events) == [] {
      assert ctx + Stale(events) == ctx;
    } else {
      assert |ctx + Stale(events) + [final]| > |ctx + [final]|;
    }
  }

  lemma {:induction false} ShownUpdates(events: seq<StreamEvent>)
    requires Starts(events) <= 1
    ensures Starts(events) == 0 ==> Shown(events) == []
    ensures Starts(events) == 1 ==>
      && Shown(events) != [] && Shown(events)[0].MessageStart?
      && forall i | 0 < i < |Shown(events)| :: Shown(events)[i].MessageUpdate?
  {
    if events != [] {
      ShownUpdates(events[..|events| - 1]);
      GrownStarts(events[..|events| - 1]);
    }
  }

  /** With at most one start: one `message_start`, then only updates, then one `message_end`. */
  lemma StreamShape(events: seq<StreamEvent>, final: Message)
    requires Starts(events) <= 1
    ensures
      var t := StreamTrace(events, final);
      && |t| >= 2 && t[0].MessageStart? && t[|t| - 1] == MessageEnd(final)
      && (forall i | 0 < i < |t| - 1 :: t[i].MessageUpdate?)
      && (Starts(events) == 0 ==> t == [MessageStart(final), MessageEnd(final)])
  {
    ShownUpdates(events);
    GrownStarts(events);
  }

  /** The partial messages that these updates carry. */
  function Updates(deltas: seq<StreamEvent>): seq<AgentEvent>
    requires forall d <- deltas :: d.Delta?
  {
    seq(|deltas|, i requires 0 <= i < |deltas| => MessageUpdate(deltas[i].partial))
  }

  /** A start opens a new slot of the context and shows a message start, every update after it
      replaces the slot and shows one message update, and what earlier starts have left stays. */
  lemma {:induction false} StartedMessage(before: seq<StreamEvent>, partial: AssistantMessage, deltas: seq<StreamEvent>)
    requires forall d <- deltas :: d.Delta?
    ensures
      var latest := if deltas == [] then partial else deltas[|deltas| - 1].partial;
      Grown(before + [Start(partial)] + deltas) == Grown(before) + [latest]
    ensures Stale(before + [Start(partial)] + deltas) == Grown(before)
    ensures Shown(before + [Start(partial)] + deltas) == Shown(before) + [MessageStart(partial)] + Updates(deltas)
  {
    hide Grown, Shown;
    var started := before + [Start(partial)];
    if deltas == [] {
      assert started + [] == started;
      StreamSnoc(before, Start(partial));
    } else {
      var n := |deltas| - 1;
      assert started + deltas == started + deltas[..n] + [deltas[n]] && deltas[n] in deltas;
      assert forall d <- deltas[..n] :: d in deltas;
      StartedMessage(before, partial, deltas[..n]);
      StreamSnoc(started + deltas[..n], deltas[n]);
      assert Updates(deltas) == Updates(deltas[..n]) + [MessageUpdate(deltas[n].partial)];
    }
  }

  /** Without a start nothing is shown before the final message, and nothing is added but it. */
  lemma {:induction false} NeverStarted(events: seq<StreamEvent>, final: Message)
    requires forall e <- events :: !e.Start?
    ensures Grown(events) == Stale(events) == [] && Shown(events) == []
    ensures StreamTrace(events, final) == [MessageStart(final), MessageEnd(final)]
  {
    if events != [] {
      var n := |events| - 1;
      assert events[n] in events && forall e <- events[..n] :: e in events;
      NeverStarted(events[..n], final);
    }
  }

  /** A response of the usual form: one start, updates, the end of the stream. */
  lemma OrdinaryResponse(partial: AssistantMessage, deltas: seq<StreamEvent>, final: Message)
    requires forall d <- deltas :: d.Delta?
    ensures
      var events := [Start(partial)] + deltas + [Finish];
      && StreamTrace(events, final) == [MessageStart(partial)] + Updates(deltas) + [MessageEnd(final)]
      && Stale(events) == []
  {
    StartedMessage([], partial, deltas);
    assert [] + [Start(partial)] == [Start(partial)];
    assert [] + [MessageStart(partial)] == [MessageStart(partial)];
    StreamSnoc([Start(partial)] + deltas, Finish);
    var shown := [MessageStart(partial)] + Updates(deltas);
    assert shown + [] == shown;
  }

  // ---------------------------------------------------------------- tool calls

  predicate Increasing(places: seq<nat>) {
    forall j, k | 0 <= j < k < |places| :: places[j] < places[k]
  }

  /** The marked positions, in order. */
  function Marked(marks: seq<bool>): (r: seq<nat>)
    ensures forall k | 0 <= k < |r| :: r[k] < |marks|
  {
    if marks == [] then []
    else
      var n := |marks| - 1;
      Marked(marks[..n]) + (if marks[n] then [n] else [])
  }

  lemma {:induction false} MarkedIncrease(marks: seq<bool>)
    ensures Increasing(Marked(marks))
  {
    if marks != [] {
      MarkedIncrease(marks[..|marks| - 1]);
    }
  }

  lemma {:induction false} MarkedMember(marks: seq<bool>, i: nat)
    ensures i in Marked(marks) <==> i < |marks| && marks[i]
  {
    if marks != [] {
      MarkedMember(marks[..|marks| - 1], i);
    }
  }

  lemma MarkedSnoc(marks: seq<bool>, mark: bool)
    ensures Marked(marks + [mark]) == Marked(marks) + (if mark then [|marks|] else [])
  {
    assert (marks + [mark])[..|marks|] == marks;
  }

  function CallMarks(content: seq<Block>): seq<bool> {
    seq(|content|, i requires 0 <= i < |content| => content[i].Call?)
  }

  lemma {:induction false} CallsAppend(content: seq<Block>, block: Block)
    ensures ToolCalls(content + [block]) == ToolCalls(content) + (if block.Call? then [block.call] else [])
  {
    if content == [] {
      assert [] + [block] == [block] && [block][1..] == [];
    } else {
      CallsAppend(content[1..], block);
      assert (content + [block])[1..] == content[1..] + [block];
    }
  }

  /** The calls at the marked places. */
  lemma {:induction false} CallsAt(content: seq<Block>)
    ensures
      var places := Marked(CallMarks(content));
      && |places| == |ToolCalls(content)|
      && forall k | 0 <= k < |places| :: content[places[k]] == Call(ToolCalls(content)[k])
  {
    if content != [] {
      hide Marked, ToolCalls;
      var n := |content| - 1;
      var before, block := content[..n], content[n];
      CallsAt(before);
      assert content == before + [block];
      assert CallMarks(content) == CallMarks(before) + [block.Call?];
      MarkedSnoc(CallMarks(before), block.Call?);
      CallsAppend(before, block);
    }
  }

  /** The tool calls of a message are those of its call blocks: each block once, in order, and
      no others. */
  lemma CallsOfBlocks(content: seq<Block>) returns (places: seq<nat>)
    ensures |places| == |ToolCalls(content)| && Increasing(places)
    ensures forall k | 0 <= k < |places| :: places[k] < |content| && content[places[k]] == Call(ToolCalls(content)[k])
    ensures forall i: nat :: i in places <==> i < |content| && content[i].Call?
  {
    hide Marked, ToolCalls, Increasing;
    places := Marked(CallMarks(content));
    MarkedIncrease(CallMarks(content));
    CallsAt(content);
    forall i: nat ensures i in places <==> i < |content| && content[i].Call? {
      MarkedMember(CallMarks(content), i);
    }
  }

  function FlightMarks(settled: seq<Option<Execution>>): seq<bool> {
    seq(|settled|, i requires 0 <= i < |settled| => settled[i].None?)
  }

  lemma {:induction false} InFlightAppend(running: seq<ToolCall>, settled: seq<Option<Execution>>, call: ToolCall,
                                          execution: Option<Execution>)
    requires |running| == |settled|
    ensures InFlight(running + [call], settled + [execution]) ==
            InFlight(running, settled) + (if execution.None? then [call] else [])
  {
    var first: seq<ToolCall> := if settled != [] && settled[0].None? then [running[0]] else [];
    if running == [] {
      assert running + [call] == [call] && settled + [execution] == [execution];
      assert [call][1..] == [] && [execution][1..] == [];
    } else {
      InFlightAppend(running[1..], settled[1..], call, execution);
      assert (running + [call])[1..] == running[1..] + [call];
      assert (settled + [execution])[1..] == settled[1..] + [execution];
      Associate(first, InFlight(running[1..], settled[1..]), if execution.None? then [call] else []);
    }
  }

  lemma {:induction false} InFlightAt(running: seq<ToolCall>, settled: seq<Option<Execution>>)
    requires |running| == |settled|
    ensures
      var places := Marked(FlightMarks(settled));
      && |places| == |InFlight(running, settled)|
      && forall k | 0 <= k < |places| :: InFlight(running, settled)[k] == running[places[k]]
  {
    if running != [] {
      hide Marked, InFlight;
      var n := |running| - 1;
      var some, those := running[..n], settled[..n];
      InFlightAt(some, those);
      assert running == some + [running[n]] && settled == those + [settled[n]];
      assert FlightMarks(settled) == FlightMarks(those) + [settled[n].None?];
      MarkedSnoc(FlightMarks(those), settled[n].None?);
      InFlightAppend(some, those, running[n], settled[n]);
    }
  }

  /** The executions in flight are those not settled: each once, in order, and no others. */
  lemma StillInFlight(running: seq<ToolCall>, settled: seq<Option<Execution>>) returns (places: seq<nat>)
    requires |running| == |settled|
    ensures |places| == |InFlight(running, settled)| && Increasing(places)
    ensures forall k | 0 <= k < |places| ::
      places[k] < |running| && InFlight(running, settled)[k] == running[places[k]]
    ensures forall i: nat :: i in places <==> i < |running| && settled[i].None?
  {
    hide Marked, InFlight, Increasing;
    places := Marked(FlightMarks(settled));
    MarkedIncrease(FlightMarks(settled));
    InFlightAt(running, settled);
    forall i: nat ensures i in places <==> i < |running| && settled[i].None? {
      MarkedMember(FlightMarks(settled), i);
    }
  }

  // ---------------------------------------------------------------- tool results

  lemma {:induction false} PlacesComplete(fates: seq<Fate>, i: nat)
    requires i < |fates|
    ensures i in Places(fates, fates[i].Immediate?)
  {
    if i < |fates| - 1 {
      PlacesComplete(fates[..|fates| - 1], i);
    }
  }

  /** The parallel order is a permutation of the calls: the immediate ones in source order,
      then the executed ones in source order. */
  lemma ParallelPermutes(fates: seq<Fate>)
    ensures |ParallelOrder(fates)| == |fates| && Within(ParallelOrder(fates), |fates|)
    ensures forall i | 0 <= i < |fates| :: i in ParallelOrder(fates)
    ensures forall j, k | 0 <= j < k < |fates| ::
      var p, q := ParallelOrder(fates)[j], ParallelOrder(fates)[k];
      if fates[p].Immediate? == fates[q].Immediate? then p < q else fates[p].Immediate?
  {
    PlacesLength(fates);
    PlacesIncrease(fates, true);
    PlacesIncrease(fates, false);
    var n := |Places(fates, true)|;
    forall i | 0 <= i < |fates| ensures i in ParallelOrder(fates) {
      PlacesComplete(fates, i);
    }
    forall j | 0 <= j < |fates|
      ensures ParallelOrder(fates)[j] == if j < n then Places(fates, true)[j] else Places(fates, false)[j - n]
    {
    }
  }

  /** Results come in source order exactly when no executed call precedes an immediate one. */
  lemma ParallelIsSourceOrder(fates: seq<Fate>)
    ensures ParallelOrder(fates) == SourceOrder(|fates|) <==>
            !exists i, j :: 0 <= i < j < |fates| && fates[i].Ran? && fates[j].Immediate?
  {
    ParallelPermutes(fates);
    if exists i, j :: 0 <= i < j < |fates| && fates[i].Ran? && fates[j].Immediate? {
      var i, j :| 0 <= i < j < |fates| && fates[i].Ran? && fates[j].Immediate?;
      assert !(ParallelOrder(fates)[i] == i && ParallelOrder(fates)[j] == j);
      assert SourceOrder(|fates|)[i] == i && SourceOrder(|fates|)[j] == j;
    } else {
      Ascending(ParallelOrder(fates));
    }
  }

  /** The only increasing enumeration of the first naturals. */
  lemma {:induction false} Ascending(order: seq<nat>)
    requires forall j, k | 0 <= j < k < |order| :: order[j] < order[k]
    requires forall i | 0 <= i < |order| :: order[i] < |order|
    ensures order == SourceOrder(|order|)
  {
    if order != [] {
      var n := |order| - 1;
      AtLeast(order, n);
      Ascending(order[..n]);
    }
  }

  lemma {:induction false} AtLeast(order: seq<nat>, k: nat)
    requires k < |order| && forall i, j | 0 <= i < j < |order| :: order[i] < order[j]
    ensures order[k] >= k
  {
    if k > 0 {
      AtLeast(order, k - 1);
    }
  }

  /** An executed call before a refused one: the second is answered first. */
  lemma ParallelOrderExample(execution: Execution, after: After, refusal: string)
    ensures ParallelOrder([Ran(execution, after), Immediate(refusal)]) == [1, 0] != SourceOrder(2)
  {
    var fates, first := [Ran(execution, after), Immediate(refusal)], [Ran(execution, after)];
    assert first[..0] == [];
    assert Places(first, true) == [];
    assert Places(first, false) == [0];
    assert fates[..1] == first;
    assert Places(fates, true) == [1];
    assert SourceOrder(2)[0] == 0;
  }

  /** A tool runs exactly when its gate, asked because the tool exists, has admitted the call. */
  lemma OnlyAdmittedRun(t: Turn, mode: ToolExecution, tools: seq<string>, i: nat)
    requires t.WellAnswered(mode, tools) && i < |t.fates|
    ensures |t.gates| == |t.fates| <= |t.Calls()|
    ensures t.gates[i].Some? <==> t.Calls()[i].name in tools
    ensures t.fates[i].Ran? <==> t.gates[i] == Some(Admit)
  {
    hide Replies, Order, ToolCalls;
  }

  /** What answers a call that is refused, and one that is run. */
  lemma ReplyMeaning(call: ToolCall, tools: seq<string>, gate: Option<Gate>, fate: Fate)
    requires Asked(call, tools, gate) && Befits(fate, Verdict(call, tools, gate))
    ensures
      var r := Reply(call, fate);
      && r.ToolResult? && r.callId == call.id && r.toolName == call.name
      && (gate.None? ==> r.isError && r.body == "Tool " + call.name + " not found")
      && (gate.Some? && gate.value.Invalid? ==> r.isError && r.body == gate.value.error)
      && (gate.Some? && gate.value.Blocked? ==> r.isError)
      && (gate.Some? && gate.value.Blocked? && gate.value.reason in {None, Some("")} ==>
            r.body == "Tool execution was blocked")
      && (gate.Some? && gate.value.Blocked? && gate.value.reason !in {None, Some("")} ==>
            r.body == gate.value.reason.value)
      && (gate == Some(Admit) ==> fate.Ran? && OutcomeGiven(fate.execution, fate.after, r.body, r.isError))
  {
  }

  /** A hook that keeps the outcome leaves what the execution returned, or the error it raised,
      marked as such; a hook that amends it replaces what it names and nothing else. */
  predicate OutcomeGiven(execution: Execution, after: After, body: string, isError: bool) {
    && (after.Keep? && execution.Returned? ==> body == execution.body && !isError)
    && (after.Keep? && !execution.Returned? ==> body == execution.error && isError)
    && (after.Override? && after.body.Some? ==> body == after.body.value)
    && (after.Override? && after.body.None? && execution.Returned? ==> body == execution.body)
    && (after.Override? && after.body.None? && !execution.Returned? ==> body == execution.error)
    && (after.Override? && after.isError.Some? ==> isError == after.isError.value)
    && (after.Override? && after.isError.None? ==> isError == !execution.Returned?)
  }

  /** Each call of a response that did not fail is answered by exactly one of its turn's
      results; there are no other results. The result carries the call's id and name; a call of an
      unknown tool, one with invalid arguments and a blocked one are answered with their error and
      never run; an admitted one runs and is answered with its own outcome. */
  lemma EachCallAnswered(t: Turn, mode: ToolExecution, tools: seq<string>, i: nat) returns (k: nat)
    requires t.WellAnswered(mode, tools) && i < |t.Calls()|
    requires t.assistant.stop != Error && t.assistant.stop != Aborted
    ensures |t.results| == |t.Calls()| == |t.fates| == |t.gates| && k < |t.results|
    ensures forall j | 0 <= j < |t.results| :: Order(mode, t.fates)[j] == i <==> j == k
    ensures mode == Sequential ==> k == i
    ensures
      var call, r := t.Calls()[i], t.results[k];
      r.ToolResult? && r.callId == call.id && r.toolName == call.name
    ensures t.Calls()[i].name !in tools ==>
      && t.gates[i].None? && t.fates[i].Immediate?
      && t.results[k].body == "Tool " + t.Calls()[i].name + " not found" && t.results[k].isError
    ensures t.Calls()[i].name in tools ==> t.gates[i].Some?
    ensures t.gates[i].Some? && t.gates[i].value.Invalid? ==>
      t.fates[i].Immediate? && t.results[k].body == t.gates[i].value.error && t.results[k].isError
    ensures t.gates[i].Some? && t.gates[i].value.Blocked? ==>
      && t.fates[i].Immediate? && t.results[k].isError
      && (t.gates[i].value.reason in {None, Some("")} ==> t.results[k].body == "Tool execution was blocked")
      && (t.gates[i].value.reason !in {None, Some("")} ==> t.results[k].body == t.gates[i].value.reason.value)
    ensures t.gates[i] == Some(Admit) ==>
      && t.fates[i].Ran?
      && OutcomeGiven(t.fates[i].execution, t.fates[i].after, t.results[k].body, t.results[k].isError)
  {
    hide Reply, Verdict, Befits, Asked, ToolCalls, OutcomeGiven;
    var order := Order(mode, t.fates);
    if mode == Sequential {
      k := i;
    } else {
      ParallelPermutes(t.fates);
      assert i in order;
      k :| 0 <= k < |order| && order[k] == i;
    }
    assert t.results[k] == Reply(t.Calls()[i], t.fates[i]);
    ReplyMeaning(t.Calls()[i], tools, t.gates[i], t.fates[i]);
    OnlyAdmittedRun(t, mode, tools, i);
  }

  /** The order of the results. Sequentially it is that of the calls. In parallel mode the calls
      that are not admitted are answered first, and then the admitted ones, both in source order. */
  lemma ResultOrder(t: Turn, mode: ToolExecution, tools: seq<string>) returns (order: seq<nat>)
    requires t.WellAnswered(mode, tools) && t.assistant.stop != Error && t.assistant.stop != Aborted
    ensures |order| == |t.results| == |t.Calls()| == |t.gates|
    ensures (forall i: nat | i < |order| :: i in order) && (forall k | 0 <= k < |order| :: order[k] < |order|)
    ensures forall k | 0 <= k < |order| ::
      t.results[k].ToolResult? && t.results[k].callId == t.Calls()[order[k]].id
    ensures mode == Sequential ==> forall k | 0 <= k < |order| :: order[k] == k
    ensures mode == Parallel ==> forall k, l | 0 <= k < l < |order| ::
      var first, second := t.gates[order[k]] == Some(Admit), t.gates[order[l]] == Some(Admit);
      if first == second then order[k] < order[l] else second
  {
    hide Verdict, Befits, Asked, ToolCalls, ParallelOrder;
    order := Order(mode, t.fates);
    if mode == Sequential {
      forall i: nat | i < |order| ensures i in order {
        assert order[i] == i;
      }
    } else {
      ParallelPermutes(t.fates);
    }
    forall i: nat | i < |t.fates| ensures t.fates[i].Ran? <==> t.gates[i] == Some(Admit) {
      OnlyAdmittedRun(t, mode, tools, i);
    }
  }

  lemma {:induction false} OnlyGates(gates: seq<Option<Gate>>)
    ensures forall a <- GatesHeard(gates) :: a.Gated?
  {
    if gates != [] {
      OnlyGates(gates[..|gates| - 1]);
    }
  }

  lemma {:induction false} OnlyRuns(runnable: seq<ToolCall>, done: seq<Fate>)
    requires |done| <= |runnable|
    ensures forall a <- RunsHeard(runnable, done) :: a.Executed? || a.Hooked?
  {
    if done != [] {
      OnlyRuns(runnable, done[..|done| - 1]);
    }
  }

  /** In parallel mode every call is judged before the loop waits for any execution. */
  lemma GatesFirst(t: Turn, tools: seq<string>) returns (judged: seq<Answer>, executed: seq<Answer>)
    requires t.WellAnswered(Parallel, tools)
    ensures |t.gates| == |t.fates| <= |t.Calls()|
    ensures t.Heard(Parallel) == StreamHeard(t.events) + [Final(t.assistant)] + (judged + executed)
    ensures (forall a <- judged :: a.Gated?) && (forall a <- executed :: a.Executed? || a.Hooked?)
  {
    hide GatesHeard, RunsHeard, StreamHeard, Runnable, RunFates, Verdict, Befits, ToolCalls, Replies;
    RunFatesLength(t.Calls(), t.fates);
    judged, executed := GatesHeard(t.gates), RunsHeard(Runnable(t.Calls(), t.fates), RunFates(t.fates));
    OnlyGates(t.gates);
    OnlyRuns(Runnable(t.Calls(), t.fates), RunFates(t.fates));
  }

  /** A failed response runs no tool and has no results. */
  lemma FailedRunsNothing(t: Turn, mode: ToolExecution, tools: seq<string>)
    requires t.WellAnswered(mode, tools) && (t.assistant.stop == Error || t.assistant.stop == Aborted)
    ensures t.results == [] && t.gates == [] && t.fates == []
    ensures t.Said() == t.batch.Messages() + [t.assistant]
  {
  }
}
