/** What one turn leaves behind, as values: the stream of its response, the fates of its tool calls. */
module TurnLogs {
  import opened Wrappers
  import opened AgentEvents
  import opened AgentState
  import opened AgentEnvironment

  // ---------------------------------------------------------------- one streamed response

  /** Put a message into the last slot, or into a new one. */
  function Place(messages: seq<Message>, m: Message, overwrite: bool): seq<Message> {
    if overwrite && messages != [] then messages[..|messages| - 1] + [m] else messages + [m]
  }

  /** What streaming has added to the context: one slot per `start`, the last one current. */
  function Grown(events: seq<StreamEvent>): seq<Message> {
    if events == [] then []
    else
      var g := Grown(events[..|events| - 1]);
      match events[|events| - 1]
      case Start(p) => Place(g, p, false)
      case Delta(p) => if g == [] then [] else Place(g, p, true)
      case Finish => g
  }

  /** The partial messages left behind in the context by all but the last `start`. */
  function Stale(events: seq<StreamEvent>): seq<Message> {
    var g := Grown(events);
    if g == [] then [] else g[..|g| - 1]
  }

  /** The lifecycle events emitted while the response streams. */
  function Shown(events: seq<StreamEvent>): seq<AgentEvent> {
    if events == [] then []
    else
      var prefix := events[..|events| - 1];
      Shown(prefix) +
      match events[|events| - 1]
      case Start(p) => [MessageStart(p)]
      case Delta(p) => if Grown(prefix) == [] then [] else [MessageUpdate(p)]
      case Finish => []
  }

  /** All events of one response. */
  function StreamTrace(events: seq<StreamEvent>, final: Message): seq<AgentEvent> {
    Shown(events) + (if Grown(events) == [] then [MessageStart(final)] else []) + [MessageEnd(final)]
  }

  /** The state of a response in progress: context, trace and observer after `events`. */
  ghost predicate InStream(events: seq<StreamEvent>, ctx0: seq<Message>, ctx: seq<Message>,
                           trace0: seq<AgentEvent>, trace: seq<AgentEvent>, s0: Observer, s: Observer)
  {
    && ctx == ctx0 + Grown(events)
    && trace == trace0 + Shown(events)
    && s0.Watching? && s.Watching?
    && s == s0.(open := s.open, restarts := s0.restarts + |Stale(events)|)
    && (s.open.Some? <==> Grown(events) != [])
  }

  lemma StreamSnoc(events: seq<StreamEvent>, event: StreamEvent)
    ensures
      var g, h := Grown(events), Grown(events + [event]);
      && (event.Start? ==> h == Place(g, event.partial, false))
      && (event.Delta? ==> h == if g == [] then [] else Place(g, event.partial, true))
      && (event.Finish? ==> h == g)
    ensures
      var t := Shown(events + [event]);
      && (event.Start? ==> t == Shown(events) + [MessageStart(event.partial)])
      && (event.Delta? && Grown(events) != [] ==> t == Shown(events) + [MessageUpdate(event.partial)])
      && (event.Finish? || (event.Delta? && Grown(events) == []) ==> t == Shown(events))
  {
    assert (events + [event])[..|events|] == events;
    assert Shown(events) + [] == Shown(events);
  }

  lemma StreamStep(events: seq<StreamEvent>, event: StreamEvent, ctx0: seq<Message>, ctx: seq<Message>,
                   trace0: seq<AgentEvent>, trace: seq<AgentEvent>, s0: Observer, s: Observer)
    requires InStream(events, ctx0, ctx, trace0, trace, s0, s)
    requires s0.phase == InTurn && s0.due.None? && s0.started == []
    ensures event.Start? ==>
      InStream(events + [event], ctx0, Place(ctx, event.partial, false), trace0, trace + [MessageStart(event.partial)],
               s0, Step(s, MessageStart(event.partial)))
    ensures event.Delta? && s.open.Some? ==>
      InStream(events + [event], ctx0, Place(ctx, event.partial, true), trace0, trace + [MessageUpdate(event.partial)],
               s0, Step(s, MessageUpdate(event.partial)))
    ensures event.Finish? || (event.Delta? && s.open.None?) ==>
      InStream(events + [event], ctx0, ctx, trace0, trace, s0, s)
  {
    hide Grown, Shown, Step;
    StreamSnoc(events, event);
    if event.Start? {
      Opens(s, event.partial);
    } else if event.Delta? && s.open.Some? {
      Updates(s, event.partial);
      PlaceLast(ctx0, Grown(events), event.partial);
    }
  }

  /** A start may come at any time while a response streams; an update needs an open message. */
  lemma Opens(s: Observer, m: Message)
    requires s.Watching? && s.phase == InTurn && s.due.None? && s.started == []
    ensures Step(s, MessageStart(m)) ==
            s.(open := Some(m), restarts := s.restarts + (if s.open.Some? then 1 else 0))
  {
  }

  lemma Updates(s: Observer, m: Message)
    requires s.Watching? && s.phase == InTurn && s.due.None? && s.open.Some?
    ensures Step(s, MessageUpdate(m)) == s.(open := Some(m))
  {
  }

  lemma PlaceLast(ctx: seq<Message>, grown: seq<Message>, m: Message)
    requires grown != []
    ensures Place(ctx + grown, m, true) == ctx + Place(grown, m, true)
  {
  }

  lemma StreamEnd(events: seq<StreamEvent>, final: AssistantMessage, ctx0: seq<Message>, ctx: seq<Message>,
                  trace0: seq<AgentEvent>, trace: seq<AgentEvent>, s0: Observer, s: Observer)
    requires InStream(events, ctx0, ctx, trace0, trace, s0, s)
    requires s0.phase == InTurn && s0.open.None? && s0.due.None? && s0.started == []
    ensures Place(ctx, final, s.open.Some?) == ctx0 + Stale(events) + [final]
    ensures trace + (if s.open.Some? then [] else [MessageStart(final)]) + [MessageEnd(final)] ==
            trace0 + StreamTrace(events, final)
    ensures Step(if s.open.Some? then s else Step(s, MessageStart(final)), MessageEnd(final)) ==
            s0.(completed := s0.completed + [final], last := Some(final), restarts := s0.restarts + |Stale(events)|)
  {
  }

  /** What the environment has said while the response streamed. */
  function StreamHeard(events: seq<StreamEvent>): seq<Answer> {
    if events == [] then [] else StreamHeard(events[..|events| - 1]) + [Streamed(events[|events| - 1])]
  }

  lemma StreamHeardSnoc(events: seq<StreamEvent>, event: StreamEvent)
    ensures StreamHeard(events + [event]) == StreamHeard(events) + [Streamed(event)]
  {
    assert (events + [event])[..|events|] == events;
  }

  // ---------------------------------------------------------------- one turn's tool calls

  /** What became of a tool call: answered without running, or run and finalized. */
  datatype Fate = Immediate(body: string) | Ran(execution: Execution, after: After)

  datatype Preparation = Prepared | Answer(body: string)

  /** A call is prepared only if its tool exists, its arguments are valid and no hook blocks it;
      nobody is asked about a tool that does not exist. */
  function Verdict(call: ToolCall, tools: seq<string>, gate: Option<Gate>): Preparation {
    if call.name !in tools || gate.None? then Answer("Tool " + call.name + " not found")
    else
      match gate.value
      case Admit => Prepared
      case Invalid(error) => Answer(error)
      case Blocked(reason) =>
        Answer(if reason.Some? && reason.value != "" then reason.value else "Tool execution was blocked")
  }

  /** The gate is asked exactly about tools that exist. */
  predicate Asked(call: ToolCall, tools: seq<string>, gate: Option<Gate>) {
    gate.Some? <==> call.name in tools
  }

  /** What became of a call agrees with its verdict. */
  predicate Befits(fate: Fate, verdict: Preparation) {
    match verdict
    case Answer(body) => fate == Immediate(body)
    case Prepared => fate.Ran?
  }

  /** Each fate is the one that the call's gate allows: a refused call, or one of an unknown
      tool, is answered so and never runs; any other runs. */
  predicate Judged(calls: seq<ToolCall>, tools: seq<string>, gates: seq<Option<Gate>>, fates: seq<Fate>) {
    && |gates| == |fates| <= |calls|
    && forall i | 0 <= i < |fates| ::
         Asked(calls[i], tools, gates[i]) && Befits(fates[i], Verdict(calls[i], tools, gates[i]))
  }

  lemma JudgedSnoc(calls: seq<ToolCall>, tools: seq<string>, gates: seq<Option<Gate>>, fates: seq<Fate>,
                   gate: Option<Gate>, fate: Fate)
    requires Judged(calls, tools, gates, fates) && |fates| < |calls|
    requires Asked(calls[|fates|], tools, gate) && Befits(fate, Verdict(calls[|fates|], tools, gate))
    ensures Judged(calls, tools, gates + [gate], fates + [fate])
  {
    hide Asked, Befits, Verdict;
  }

  /** The answers that one executed call has waited for. */
  function RunHeard(call: ToolCall, fate: Fate): seq<Answer> {
    if fate.Ran? then [Executed(call, fate.execution), Hooked(fate.after)] else []
  }

  function GateHeard(gate: Option<Gate>): seq<Answer> {
    if gate.Some? then [Gated(gate.value)] else []
  }

  /** Those of calls that are prepared and executed one after the other. */
  function CallsHeard(calls: seq<ToolCall>, gates: seq<Option<Gate>>, fates: seq<Fate>): seq<Answer>
    requires |gates| == |fates| <= |calls|
  {
    if fates == [] then []
    else
      var n := |fates| - 1;
      CallsHeard(calls, gates[..n], fates[..n]) + GateHeard(gates[n]) + RunHeard(calls[n], fates[n])
  }

  function GatesHeard(gates: seq<Option<Gate>>): seq<Answer> {
    if gates == [] then [] else GatesHeard(gates[..|gates| - 1]) + GateHeard(gates[|gates| - 1])
  }

  /** Those of launched executions, finalized one after the other. */
  function RunsHeard(runnable: seq<ToolCall>, done: seq<Fate>): seq<Answer>
    requires |done| <= |runnable|
  {
    if done == [] then []
    else
      var n := |done| - 1;
      RunsHeard(runnable, done[..n]) + RunHeard(runnable[n], done[n])
  }

  lemma HeardSnoc(calls: seq<ToolCall>, gates: seq<Option<Gate>>, fates: seq<Fate>, gate: Option<Gate>, fate: Fate)
    requires |gates| == |fates| < |calls|
    ensures CallsHeard(calls, gates + [gate], fates + [fate]) ==
            CallsHeard(calls, gates, fates) + GateHeard(gate) + RunHeard(calls[|fates|], fate)
    ensures GatesHeard(gates + [gate]) == GatesHeard(gates) + GateHeard(gate)
  {
    hide RunHeard, GateHeard;
    assert (gates + [gate])[..|gates|] == gates && (fates + [fate])[..|fates|] == fates;
  }

  lemma RunsHeardSnoc(runnable: seq<ToolCall>, done: seq<Fate>, fate: Fate)
    requires |done| < |runnable|
    ensures RunsHeard(runnable, done + [fate]) == RunsHeard(runnable, done) + RunHeard(runnable[|done|], fate)
  {
    hide RunHeard;
    assert (done + [fate])[..|done|] == done;
  }

  /** The fates of the executed calls, in source order. */
  function RunFates(fates: seq<Fate>): (r: seq<Fate>)
    ensures forall f <- r :: f.Ran?
  {
    if fates == [] then []
    else
      var n := |fates| - 1;
      RunFates(fates[..n]) + (if fates[n].Ran? then [fates[n]] else [])
  }

  /** Everything heard while the calls of a response are dealt with. */
  function ToolsHeard(mode: ToolExecution, calls: seq<ToolCall>, gates: seq<Option<Gate>>,
                      fates: seq<Fate>): seq<Answer>
    requires |gates| == |fates| <= |calls|
  {
    if mode == Sequential then CallsHeard(calls, gates, fates)
    else
      RunFatesLength(calls, fates);
      GatesHeard(gates) + RunsHeard(Runnable(calls, fates), RunFates(fates))
  }

  lemma {:induction false} RunFatesCount(fates: seq<Fate>)
    ensures |RunFates(fates)| == |Places(fates, false)|
  {
    if fates != [] {
      RunFatesCount(fates[..|fates| - 1]);
    }
  }

  lemma RunFatesLength(calls: seq<ToolCall>, fates: seq<Fate>)
    requires |fates| <= |calls|
    ensures |RunFates(fates)| == |Runnable(calls, fates)| == |Places(fates, false)|
  {
    RunFatesCount(fates);
    RunnableAt(calls, fates);
  }

  function Or<T>(o: Option<T>, default: T): T {
    match o
    case Some(v) => v
    case None => default
  }

  /** The result message that answers a call. */
  function Reply(call: ToolCall, fate: Fate): Message {
    match fate
    case Immediate(body) => ToolResult(call.id, call.name, body, true)
    case Ran(execution, after) =>
      var body := if execution.Returned? then execution.body else execution.error;
      match after
      case Keep => ToolResult(call.id, call.name, body, !execution.Returned?)
      case Override(b, e) => ToolResult(call.id, call.name, Or(b, body), Or(e, !execution.Returned?))
  }

  /** The positions of the calls answered immediately, or of the others, in source order. */
  function Places(fates: seq<Fate>, immediate: bool): (r: seq<nat>)
    ensures forall k | 0 <= k < |r| :: r[k] < |fates| && fates[r[k]].Immediate? == immediate
  {
    if fates == [] then []
    else
      var n := |fates| - 1;
      var before := Places(fates[..n], immediate);
      if fates[n].Immediate? == immediate then before + [n] else before
  }

  /** The order in which parallel execution answers the calls. */
  function ParallelOrder(fates: seq<Fate>): seq<nat> {
    Places(fates, true) + Places(fates, false)
  }

  function SourceOrder(n: nat): seq<nat> {
    seq(n, i => i)
  }

  function Order(mode: ToolExecution, fates: seq<Fate>): seq<nat> {
    if mode == Sequential then SourceOrder(|fates|) else ParallelOrder(fates)
  }

  predicate Within(order: seq<nat>, n: nat) {
    forall k | 0 <= k < |order| :: order[k] < n
  }

  function Replies(calls: seq<ToolCall>, fates: seq<Fate>, order: seq<nat>): seq<Message>
    requires |fates| <= |calls| && Within(order, |fates|)
  {
    seq(|order|, k requires 0 <= k < |order| => Reply(calls[order[k]], fates[order[k]]))
  }

  /** The observer once a running call has been answered. */
  function Answered(o: Observer, m: Message): Observer
    requires o.Watching? && m.ToolResult?
  {
    o.(ended := o.ended + [m.callId], completed := o.completed + [m], results := o.results + [m])
  }

  /** The observer after one more call has been started. */
  function Begun(o: Observer, id: string): Observer
    requires o.Watching?
  {
    o.(started := o.started + [id])
  }

  /** The observer after the first calls of a message have been started and answered;
      when `postponing`, calls that are executed are only started. */
  function Advanced(s: Observer, call: ToolCall, fate: Fate, postponing: bool): (r: Observer)
    requires s.Watching?
    ensures r.Watching?
  {
    if postponing && fate.Ran? then Begun(s, call.id) else Answered(Begun(s, call.id), Reply(call, fate))
  }

  function Progress(s0: Observer, calls: seq<ToolCall>, fates: seq<Fate>, postponing: bool): (s: Observer)
    requires s0.Watching? && |fates| <= |calls|
    ensures s.Watching?
  {
    if fates == [] then s0
    else
      var n := |fates| - 1;
      Advanced(Progress(s0, calls, fates[..n], postponing), calls[n], fates[n], postponing)
  }

  /** The answers given meanwhile. */
  function Given(calls: seq<ToolCall>, fates: seq<Fate>, postponing: bool): seq<Message>
    requires |fates| <= |calls|
  {
    if fates == [] then []
    else
      var n := |fates| - 1;
      var before := Given(calls, fates[..n], postponing);
      if postponing && fates[n].Ran? then before else before + [Reply(calls[n], fates[n])]
  }

  /** The calls that wait for execution. */
  function Runnable(calls: seq<ToolCall>, fates: seq<Fate>): seq<ToolCall>
    requires |fates| <= |calls|
  {
    if fates == [] then []
    else
      var n := |fates| - 1;
      var before := Runnable(calls, fates[..n]);
      if fates[n].Ran? then before + [calls[n]] else before
  }

  /** The observer inside the tool phase of a turn: the first calls have been started and,
      of those, the ones in `order` answered. */
  ghost predicate InTools(calls: seq<ToolCall>, fates: seq<Fate>, order: seq<nat>, s0: Observer, s: Observer) {
    && |fates| <= |calls|
    && Within(order, |fates|)
    && s0.Watching? && s.Watching? && s0.started == []
    && s == s0.(started := Ids(calls[..|fates|]),
                ended := s.ended,
                completed := s0.completed + Replies(calls, fates, order),
                results := s0.results + Replies(calls, fates, order))
    && |s.ended| == |order|
  }

  /** The three events that answer a running call. */
  lemma AnswerSteps(o: Observer, call: ToolCall, body: string, isError: bool)
    requires o.Watching? && o.phase == InTurn && o.open.None? && o.due.None? && Running(o, call.id)
    ensures
      var m := ToolResult(call.id, call.name, body, isError);
      var ended := Step(o, ToolEnd(call.id, call.name, body, isError));
      && ended == o.(ended := o.ended + [call.id], due := Some(call.id))
      && Step(Step(ended, MessageStart(m)), MessageEnd(m)) == Answered(o, m)
  {
  }

  lemma {:induction false} ProgressSequential(s0: Observer, calls: seq<ToolCall>, fates: seq<Fate>)
    requires AtToolPhase(s0, calls) && |fates| <= |calls|
    ensures InTools(calls, fates, SourceOrder(|fates|), s0, Progress(s0, calls, fates, false))
  {
    var n := |fates| - 1;
    if fates == [] {
      assert Replies(calls, [], SourceOrder(0)) == [];
    } else {
      ProgressSequential(s0, calls, fates[..n]);
      AnsweredInOrder(calls, fates[..n], fates[n], SourceOrder(n), s0, Progress(s0, calls, fates[..n], false));
      assert SourceOrder(n + 1) == SourceOrder(n) + [n] && fates == fates[..n] + [fates[n]];
    }
  }

  lemma {:induction false} RunnableAt(calls: seq<ToolCall>, fates: seq<Fate>)
    requires |fates| <= |calls|
    ensures Runnable(calls, fates) == At(calls, Places(fates, false))
  {
    if fates != [] {
      RunnableAt(calls, fates[..|fates| - 1]);
    }
  }

  lemma {:induction false} ProgressParallel(s0: Observer, calls: seq<ToolCall>, fates: seq<Fate>)
    requires AtToolPhase(s0, calls) && |fates| <= |calls|
    ensures InTools(calls, fates, Places(fates, true), s0, Progress(s0, calls, fates, true))
  {
    if fates == [] {
      assert Replies(calls, [], []) == [];
    } else {
      var prefix := fates[..|fates| - 1];
      ProgressParallel(s0, calls, prefix);
      assert fates == prefix + [fates[|fates| - 1]];
      ProgressParallelStep(s0, calls, prefix, fates[|fates| - 1], Progress(s0, calls, prefix, true));
    }
  }

  lemma ProgressParallelStep(s0: Observer, calls: seq<ToolCall>, fates: seq<Fate>, f: Fate, s: Observer)
    requires |fates| < |calls|
    requires InTools(calls, fates, Places(fates, true), s0, s)
    ensures InTools(calls, fates + [f], Places(fates + [f], true), s0, Advanced(s, calls[|fates|], f, true))
  {
    var places := Places(fates, true);
    PlacesSnoc(fates, f, true);
    ProgressSnoc(s0, calls, fates, f, true);
    if f.Immediate? {
      assert Places(fates + [f], true) == places + [|fates|];
      AnsweredInOrder(calls, fates, f, places, s0, s);
      assert InTools(calls, fates + [f], places + [|fates|], s0,
                     Answered(Begun(s, calls[|fates|].id), Reply(calls[|fates|], f)));
    } else {
      assert Places(fates + [f], true) == places;
      Postponed(calls, fates, f, places, s0, s);
    }
  }

  lemma ProgressSnoc(s0: Observer, calls: seq<ToolCall>, fates: seq<Fate>, f: Fate, postponing: bool)
    requires s0.Watching? && |fates| < |calls|
    ensures Progress(s0, calls, fates + [f], postponing) ==
            Advanced(Progress(s0, calls, fates, postponing), calls[|fates|], f, postponing)
    ensures Runnable(calls, fates + [f]) ==
            if f.Ran? then Runnable(calls, fates) + [calls[|fates|]] else Runnable(calls, fates)
  {
    assert (fates + [f])[..|fates|] == fates;
  }

  lemma {:induction false} GivenSequential(calls: seq<ToolCall>, fates: seq<Fate>)
    requires |fates| <= |calls|
    ensures Given(calls, fates, false) == Replies(calls, fates, SourceOrder(|fates|))
  {
    if fates != [] {
      var n := |fates| - 1;
      GivenSequential(calls, fates[..n]);
      RepliesSnoc(calls, fates[..n], fates[n], SourceOrder(n));
      assert SourceOrder(n + 1) == SourceOrder(n) + [n] && fates == fates[..n] + [fates[n]];
    }
  }

  lemma GivenStep(calls: seq<ToolCall>, fates: seq<Fate>, f: Fate)
    requires |fates| < |calls| && Given(calls, fates, true) == Replies(calls, fates, Places(fates, true))
    ensures Given(calls, fates + [f], true) == Replies(calls, fates + [f], Places(fates + [f], true))
  {
    hide Given, Places, Replies;
    RepliesSnoc(calls, fates, f, Places(fates, true));
    PlacesSnoc(fates, f, true);
    GivenSnoc(calls, fates, f, true);
  }

  lemma GivenSnoc(calls: seq<ToolCall>, fates: seq<Fate>, f: Fate, postponing: bool)
    requires |fates| < |calls|
    ensures Given(calls, fates + [f], postponing) ==
            if postponing && f.Ran? then Given(calls, fates, postponing)
            else Given(calls, fates, postponing) + [Reply(calls[|fates|], f)]
  {
    assert (fates + [f])[..|fates|] == fates;
  }

  lemma {:induction false} GivenParallel(calls: seq<ToolCall>, fates: seq<Fate>)
    requires |fates| <= |calls|
    ensures Given(calls, fates, true) == Replies(calls, fates, Places(fates, true))
  {
    if fates != [] {
      var n := |fates| - 1;
      var before, last := fates[..n], fates[n];
      assert fates == before + [last];
      GivenParallel(calls, before);
      GivenStep(calls, before, last);
    }
  }

  /** While calls remain, the next one may be announced. */
  lemma {:induction false} ProgressReady(s0: Observer, calls: seq<ToolCall>, fates: seq<Fate>, postponing: bool)
    requires AtToolPhase(s0, calls) && |fates| <= |calls|
    ensures
      var s := Progress(s0, calls, fates, postponing);
      && s == s0.(started := s.started, ended := s.ended, completed := s.completed, results := s.results)
      && |s.started| == |fates|
      && Owing(s, if postponing then Runnable(calls, fates) else [], 0)
  {
    if fates != [] {
      var n := |fates| - 1;
      var s := Progress(s0, calls, fates[..n], postponing);
      ProgressReady(s0, calls, fates[..n], postponing);
      var owed := if postponing then Runnable(calls, fates[..n]) else [];
      if postponing && fates[n].Ran? {
        OwingBegun(s, owed, calls[n]);
      } else {
        OwingAnswered(s, owed, calls[n], Reply(calls[n], fates[n]));
      }
    }
  }

  lemma PlacesSnoc(fates: seq<Fate>, f: Fate, immediate: bool)
    ensures Places(fates + [f], immediate) ==
            if f.Immediate? == immediate then Places(fates, immediate) + [|fates|] else Places(fates, immediate)
  {
    assert (fates + [f])[..|fates|] == fates;
  }

  lemma RepliesSnoc(calls: seq<ToolCall>, fates: seq<Fate>, f: Fate, order: seq<nat>)
    requires |fates| < |calls| && Within(order, |fates|)
    ensures Replies(calls, fates + [f], order) == Replies(calls, fates, order)
    ensures Replies(calls, fates + [f], order + [|fates|]) == Replies(calls, fates, order) + [Reply(calls[|fates|], f)]
  {
    var r := Replies(calls, fates, order);
    forall k | 0 <= k < |order| ensures Replies(calls, fates + [f], order)[k] == r[k] {
      assert (fates + [f])[order[k]] == fates[order[k]];
    }
    forall k | 0 <= k < |order| ensures Replies(calls, fates + [f], order + [|fates|])[k] == r[k] {
      assert (order + [|fates|])[k] == order[k];
    }
  }

  lemma RepliesUpdate(calls: seq<ToolCall>, fates: seq<Fate>, p: nat, f: Fate, order: seq<nat>)
    requires p < |fates| <= |calls| && Within(order, |fates|) && p !in order
    ensures Replies(calls, fates[p := f], order + [p]) == Replies(calls, fates, order) + [Reply(calls[p], f)]
  {
    var r := Replies(calls, fates, order);
    forall k | 0 <= k < |order| ensures Replies(calls, fates[p := f], order + [p])[k] == r[k] {
      assert (order + [p])[k] == order[k] && order[k] in order;
    }
  }

  lemma IdsSnoc(calls: seq<ToolCall>, n: nat)
    requires n < |calls|
    ensures Ids(calls[..n + 1]) == Ids(calls[..n]) + [calls[n].id]
  {
  }

  lemma AnsweredInOrder(calls: seq<ToolCall>, fates: seq<Fate>, f: Fate, order: seq<nat>, s0: Observer, s: Observer)
    requires InTools(calls, fates, order, s0, s) && |fates| < |calls|
    ensures InTools(calls, fates + [f], order + [|fates|], s0,
                    Answered(Begun(s, calls[|fates|].id), Reply(calls[|fates|], f)))
  {
    RepliesSnoc(calls, fates, f, order);
    IdsSnoc(calls, |fates|);
  }

  lemma Postponed(calls: seq<ToolCall>, fates: seq<Fate>, f: Fate, order: seq<nat>, s0: Observer, s: Observer)
    requires InTools(calls, fates, order, s0, s) && |fates| < |calls|
    ensures InTools(calls, fates + [f], order, s0, Begun(s, calls[|fates|].id))
  {
    RepliesSnoc(calls, fates, f, order);
    IdsSnoc(calls, |fates|);
  }

  /** The fate of the call at position `p`, known only now, and its answer. */
  lemma Completed(calls: seq<ToolCall>, fates: seq<Fate>, p: nat, f: Fate, order: seq<nat>, s0: Observer, s: Observer)
    requires InTools(calls, fates, order, s0, s)
    requires p < |fates| && p !in order
    ensures InTools(calls, fates[p := f], order + [p], s0, Answered(s, Reply(calls[p], f)))
  {
    RepliesUpdate(calls, fates, p, f, order);
  }

  /** The turn's assistant message is complete and none of its calls has been started. */
  predicate AtToolPhase(s: Observer, calls: seq<ToolCall>) {
    && s.Watching? && s.phase == InTurn && s.open.None? && s.due.None?
    && s.started == [] && s.ended == []
    && s.last.Some? && s.last.value.Assistant? && !Failed(s.last.value) && calls == ToolCalls(s.last.value.content)
  }

  function At(calls: seq<ToolCall>, places: seq<nat>): seq<ToolCall>
    requires Within(places, |calls|)
  {
    seq(|places|, k requires 0 <= k < |places| => calls[places[k]])
  }

  lemma {:induction false} PlacesIncrease(fates: seq<Fate>, immediate: bool)
    ensures forall i, j | 0 <= i < j < |Places(fates, immediate)| ::
      Places(fates, immediate)[i] < Places(fates, immediate)[j]
  {
    if fates != [] {
      PlacesIncrease(fates[..|fates| - 1], immediate);
    }
  }

  lemma {:induction false} PlacesUpdate(fates: seq<Fate>, p: nat, f: Fate, immediate: bool)
    requires p < |fates| && f.Immediate? == fates[p].Immediate?
    ensures Places(fates[p := f], immediate) == Places(fates, immediate)
  {
    var n := |fates| - 1;
    if p == n {
      assert fates[p := f][..n] == fates[..n];
    } else {
      assert fates[p := f][..n] == fates[..n][p := f];
      PlacesUpdate(fates[..n], p, f, immediate);
    }
  }

  /** The observer after the first executions have been finalized, in launch order. */
  function Drained(s1: Observer, runnable: seq<ToolCall>, done: seq<Fate>): (s: Observer)
    requires s1.Watching? && |done| <= |runnable|
    ensures s.Watching?
  {
    if done == [] then s1
    else
      var n := |done| - 1;
      Answered(Drained(s1, runnable, done[..n]), Reply(runnable[n], done[n]))
  }

  lemma DrainedSnoc(s1: Observer, runnable: seq<ToolCall>, done: seq<Fate>, f: Fate)
    requires s1.Watching? && |done| < |runnable|
    ensures Drained(s1, runnable, done + [f]) == Answered(Drained(s1, runnable, done), Reply(runnable[|done|], f))
    ensures Given(runnable, done + [f], false) == Given(runnable, done, false) + [Reply(runnable[|done|], f)]
  {
    assert (done + [f])[..|done|] == done;
  }

  /** How many calls from position `n` on have this id. */
  function Awaiting(calls: seq<ToolCall>, n: nat, id: string): nat
    requires n <= |calls|
    decreases |calls| - n
  {
    if n == |calls| then 0 else (if calls[n].id == id then 1 else 0) + Awaiting(calls, n + 1, id)
  }

  /** The executions started and not ended are exactly those of the calls from `n` on. */
  ghost predicate Owing(o: Observer, calls: seq<ToolCall>, n: nat) {
    && o.Watching? && n <= |calls|
    && forall id: string {:trigger Awaiting(calls, n, id)} ::
         Count(o.started, id) == Count(o.ended, id) + Awaiting(calls, n, id)
  }

  lemma {:induction false} AwaitingSnoc(calls: seq<ToolCall>, call: ToolCall, n: nat, id: string)
    requires n <= |calls|
    ensures Awaiting(calls + [call], n, id) == Awaiting(calls, n, id) + (if call.id == id then 1 else 0)
    decreases |calls| - n
  {
    if n < |calls| {
      AwaitingSnoc(calls, call, n + 1, id);
    }
  }

  lemma {:induction false} AwaitingMember(calls: seq<ToolCall>, n: nat, i: nat)
    requires n <= i < |calls|
    ensures Awaiting(calls, n, calls[i].id) > 0
    decreases i - n
  {
    if n < i {
      AwaitingMember(calls, n + 1, i);
    }
  }

  /** Calls that are owed are running. */
  lemma OwingRuns(o: Observer, calls: seq<ToolCall>, n: nat)
    requires Owing(o, calls, n)
    ensures forall i | n <= i < |calls| :: Running(o, calls[i].id)
  {
    forall i | n <= i < |calls| ensures Running(o, calls[i].id) {
      AwaitingMember(calls, n, i);
    }
  }

  /** Ending the first of them pays for it. */
  lemma OwingPaid(o: Observer, calls: seq<ToolCall>, n: nat)
    requires Owing(o, calls, n) && n < |calls|
    ensures Owing(o.(ended := o.ended + [calls[n].id]), calls, n + 1)
  {
    forall id: string
      ensures Count(o.started, id) == Count(o.ended + [calls[n].id], id) + Awaiting(calls, n + 1, id)
    {
      CountSnoc(o.ended, calls[n].id, id);
      assert Awaiting(calls, n, id) == (if calls[n].id == id then 1 else 0) + Awaiting(calls, n + 1, id);
    }
  }

  lemma OwingBegun(o: Observer, calls: seq<ToolCall>, call: ToolCall)
    requires Owing(o, calls, 0)
    ensures Owing(Begun(o, call.id), calls + [call], 0)
  {
    forall id: string
      ensures Count(o.started + [call.id], id) == Count(o.ended, id) + Awaiting(calls + [call], 0, id)
    {
      CountSnoc(o.started, call.id, id);
      AwaitingSnoc(calls, call, 0, id);
    }
  }

  /** A call answered right after its start leaves the debt as it was. */
  lemma OwingAnswered(o: Observer, calls: seq<ToolCall>, call: ToolCall, m: Message)
    requires Owing(o, calls, 0) && m.ToolResult? && m.callId == call.id
    ensures Running(Begun(o, call.id), call.id)
    ensures Owing(Answered(Begun(o, call.id), m), calls, 0)
  {
    forall id: string
      ensures Count(o.started + [call.id], id) == Count(o.ended + [call.id], id) + Awaiting(calls, 0, id)
    {
      CountSnoc(o.started, call.id, id);
      CountSnoc(o.ended, call.id, id);
    }
    CountSnoc(o.started, call.id, call.id);
    assert Count(o.started, call.id) == Count(o.ended, call.id) + Awaiting(calls, 0, call.id);
  }

  /** The observer owes exactly the calls not finalized yet. */
  lemma {:induction false} DrainedReady(s1: Observer, runnable: seq<ToolCall>, done: seq<Fate>)
    requires s1.Watching? && |done| <= |runnable| && Owing(s1, runnable, 0)
    ensures
      var s := Drained(s1, runnable, done);
      && s == s1.(ended := s.ended, completed := s.completed, results := s.results)
      && Owing(s, runnable, |done|)
  {
    if done != [] {
      var n := |done| - 1;
      DrainedReady(s1, runnable, done[..n]);
      OwingPaid(Drained(s1, runnable, done[..n]), runnable, n);
    }
  }

  /** The fates of all calls, once the executed ones are known. */
  function Assembled(fates: seq<Fate>, done: seq<Fate>): (r: seq<Fate>)
    requires |done| <= |Places(fates, false)|
    ensures |r| == |fates|
  {
    if done == [] then fates
    else
      var n := |done| - 1;
      Assembled(fates, done[..n])[Places(fates, false)[n] := done[n]]
  }

  lemma {:induction false} AssembledPlaces(fates: seq<Fate>, done: seq<Fate>, immediate: bool)
    requires |done| <= |Places(fates, false)| && forall f <- done :: f.Ran?
    ensures Places(Assembled(fates, done), immediate) == Places(fates, immediate)
  {
    if done != [] {
      var n := |done| - 1;
      assert forall f <- done[..n] :: f in done;
      AssembledPlaces(fates, done[..n], immediate);
      AssembledPlaces(fates, done[..n], false);
      var before := Assembled(fates, done[..n]);
      assert !before[Places(before, false)[n]].Immediate? && done[n] in done;
      PlacesUpdate(before, Places(fates, false)[n], done[n], immediate);
    }
  }

  lemma {:induction false} RunFatesAt(fates: seq<Fate>, k: nat)
    requires k < |Places(fates, false)|
    ensures k < |RunFates(fates)| && RunFates(fates)[k] == fates[Places(fates, false)[k]]
  {
    var n := |fates| - 1;
    RunFatesCount(fates);
    RunFatesCount(fates[..n]);
    if k < |Places(fates[..n], false)| {
      RunFatesAt(fates[..n], k);
    }
  }

  lemma {:induction false} AssembledAt(fates: seq<Fate>, done: seq<Fate>, k: nat)
    requires k < |done| <= |Places(fates, false)|
    ensures Assembled(fates, done)[Places(fates, false)[k]] == done[k]
  {
    var n := |done| - 1;
    if k < n {
      AssembledAt(fates, done[..n], k);
      PlacesIncrease(fates, false);
    }
  }

  /** The executed calls' fates are those that their executions gave. */
  lemma AssembledRuns(calls: seq<ToolCall>, fates: seq<Fate>, done: seq<Fate>)
    requires |fates| <= |calls| && |done| == |Places(fates, false)| && forall f <- done :: f.Ran?
    ensures RunFates(Assembled(fates, done)) == done
    ensures Runnable(calls, Assembled(fates, done)) == Runnable(calls, fates)
  {
    hide Places, RunFates, Runnable, Assembled;
    var all := Assembled(fates, done);
    AssembledPlaces(fates, done, false);
    RunnableAt(calls, fates);
    RunnableAt(calls, all);
    RunFatesCount(all);
    forall k | 0 <= k < |done| ensures RunFates(all)[k] == done[k] {
      RunFatesAt(all, k);
      AssembledAt(fates, done, k);
    }
  }

  /** Filling in what executions gave respects the gates. */
  lemma {:induction false} JudgedAssembled(calls: seq<ToolCall>, tools: seq<string>, gates: seq<Option<Gate>>,
                                           fates: seq<Fate>, done: seq<Fate>)
    requires Judged(calls, tools, gates, fates) && |done| <= |Places(fates, false)| && forall f <- done :: f.Ran?
    ensures Judged(calls, tools, gates, Assembled(fates, done))
  {
    if done != [] {
      var n := |done| - 1;
      var p := Places(fates, false)[n];
      assert forall f <- done[..n] :: f in done;
      JudgedAssembled(calls, tools, gates, fates, done[..n]);
      assert fates[p].Ran? && done[n] in done;
    }
  }

  lemma PlacesDistinct(fates: seq<Fate>, n: nat)
    requires n < |Places(fates, false)|
    ensures Places(fates, false)[n] !in Places(fates, true) + Places(fates, false)[..n]
  {
    PlacesIncrease(fates, false);
  }

  /** Finalizing in launch order answers the executed calls in source order, after the others. */
  lemma {:induction false} DrainedInTools(s0: Observer, calls: seq<ToolCall>, fates: seq<Fate>, done: seq<Fate>)
    requires AtToolPhase(s0, calls) && |fates| == |calls| && |done| <= |Places(fates, false)|
    requires forall f <- done :: f.Ran?
    ensures |Runnable(calls, fates)| == |Places(fates, false)|
    ensures InTools(calls, Assembled(fates, done), Places(fates, true) + Places(fates, false)[..|done|], s0,
                    Drained(Progress(s0, calls, fates, true), Runnable(calls, fates), done))
  {
    RunnableAt(calls, fates);
    if done == [] {
      ProgressParallel(s0, calls, fates);
      assert Places(fates, true) + Places(fates, false)[..0] == Places(fates, true);
    } else {
      var n := |done| - 1;
      assert forall f <- done[..n] :: f in done;
      DrainedInTools(s0, calls, fates, done[..n]);
      var order := Places(fates, true) + Places(fates, false)[..n];
      PlacesDistinct(fates, n);
      assert Places(fates, true) + Places(fates, false)[..n + 1] == order + [Places(fates, false)[n]];
      Completed(calls, Assembled(fates, done[..n]), Places(fates, false)[n], done[n], order, s0,
                Drained(Progress(s0, calls, fates, true), Runnable(calls, fates), done[..n]));
    }
  }

  lemma {:induction false} DrainedGiven(calls: seq<ToolCall>, fates: seq<Fate>, done: seq<Fate>)
    requires |fates| == |calls| && |done| <= |Places(fates, false)|
    requires |Runnable(calls, fates)| == |Places(fates, false)|
    ensures Within(Places(fates, true) + Places(fates, false)[..|done|], |calls|)
    ensures Given(calls, fates, true) + Given(Runnable(calls, fates), done, false) ==
            Replies(calls, Assembled(fates, done), Places(fates, true) + Places(fates, false)[..|done|])
  {
    GivenParallel(calls, fates);
    RunnableAt(calls, fates);
    if done == [] {
      assert Places(fates, true) + Places(fates, false)[..0] == Places(fates, true);
    } else {
      var n := |done| - 1;
      DrainedGiven(calls, fates, done[..n]);
      var order := Places(fates, true) + Places(fates, false)[..n];
      PlacesDistinct(fates, n);
      assert Places(fates, true) + Places(fates, false)[..n + 1] == order + [Places(fates, false)[n]];
      RepliesUpdate(calls, Assembled(fates, done[..n]), Places(fates, false)[n], done[n], order);
    }
  }

  lemma {:induction false} PlacesLength(fates: seq<Fate>)
    ensures |Places(fates, true)| + |Places(fates, false)| == |fates|
  {
    if fates != [] {
      PlacesLength(fates[..|fates| - 1]);
    }
  }

  /** The tool phase is over: every call started in source order, ended and answered. */
  ghost predicate AfterTools(calls: seq<ToolCall>, results: seq<Message>, s0: Observer, s: Observer) {
    && s0.Watching? && s.Watching?
    && s == s0.(started := Ids(calls), ended := s.ended,
                completed := s0.completed + results, results := s0.results + results)
    && |s.ended| == |calls|
  }

  lemma SequentialDone(s0: Observer, calls: seq<ToolCall>, fates: seq<Fate>)
    requires AtToolPhase(s0, calls) && |fates| == |calls|
    ensures AfterTools(calls, Given(calls, fates, false), s0, Progress(s0, calls, fates, false))
    ensures Given(calls, fates, false) == Replies(calls, fates, SourceOrder(|calls|))
  {
    ProgressSequential(s0, calls, fates);
    GivenSequential(calls, fates);
    assert calls[..|calls|] == calls;
  }

  lemma ParallelDone(s0: Observer, calls: seq<ToolCall>, fates: seq<Fate>, done: seq<Fate>)
    requires AtToolPhase(s0, calls) && |fates| == |calls| && |done| == |Runnable(calls, fates)|
    requires forall f <- done :: f.Ran?
    ensures |done| == |Places(fates, false)|
    ensures
      var all := Assembled(fates, done);
      var results := Given(calls, fates, true) + Given(Runnable(calls, fates), done, false);
      && results == Replies(calls, all, ParallelOrder(all))
      && AfterTools(calls, results, s0, Drained(Progress(s0, calls, fates, true), Runnable(calls, fates), done))
  {
    RunnableAt(calls, fates);
    AssembledPlaces(fates, done, true);
    AssembledPlaces(fates, done, false);
    DrainedInTools(s0, calls, fates, done);
    DrainedGiven(calls, fates, done);
    PlacesLength(fates);
    assert Places(fates, false)[..|done|] == Places(fates, false);
    assert calls[..|calls|] == calls;
  }
}
