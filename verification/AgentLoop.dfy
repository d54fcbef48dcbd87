/**
 * The agent turn loop. Each method is the source's function of the same name; `:-` is the
 * propagation of an exception (or of the end of the observation) out of an `await`.
 */
module AgentLoop {
  import opened Wrappers
  import opened AgentEvents
  import opened AgentState
  import opened AgentEnvironment
  import opened TurnLogs
  import opened RunLogs

  /** The messages array the loop passes around and mutates, with the snapshot's tool names. */
  class LoopContext {
    var messages: seq<Message>
    const tools: seq<string>

    constructor (messages: seq<Message>, tools: seq<string>)
      ensures this.messages == messages && this.tools == tools
    {
      this.messages, this.tools := messages, tools;
    }
  }

  /** `processEvents`: reduce the event, then await the listeners, which may fail. */
  method Emit(agent: Agent, env: Environment, e: AgentEvent) returns (o: Outcome<()>)
    requires agent.Valid() && agent.activeRun.Some?
    requires env.Consistent(Step(agent.seen, e))
    modifies agent, agent.steeringQueue, agent.followUpQueue
    modifies env`script, env`settled, env`left, env`failures
    ensures Kept(agent, env) && StillSettled(env) && Accounted(env, o)
    ensures agent.seen == Step(old(agent.seen), e)
    ensures old(env.Quiet()) ==> env.Quiet() && agent.trace == old(agent.trace) + [e]
    ensures o.Done? ==> |env.script| < |old(env.script)|
    ensures Emitted(agent, env, e, o)
  {
    hide Step, Count;
    agent.ReduceEvent(e);
    var _ :- env.AwaitParty(agent);
    return Done(());
  }

  /** The event has been delivered, and then exactly one tick has happened. */
  twostate predicate Emitted(agent: Agent, env: Environment, e: AgentEvent, new o: Outcome<()>)
    reads agent`delivered, env`script, env`running, env`settled, env`left
  {
    if old(env.script) == [] then o.Cut?
    else
      var tick := old(env.script)[0];
      && env.script == old(env.script)[1..] && !o.Cut? && (o.Threw? <==> tick.fails.Some?)
      && env.settled == SettledAfterAll(tick.actions, old(env.settled))
      && env.left == LeftAfterAll(tick.actions, old(env.left))
      && agent.delivered == old(agent.delivered) + [Own(e)] +
                            ReportsAll(tick.actions, env.running, old(env.settled), old(env.left))
  }

  /** A message that is not streamed: opened and closed at once. */
  method EmitWholeMessage(agent: Agent, env: Environment, m: Message) returns (o: Outcome<()>)
    requires Active(agent, env)
    requires agent.seen.phase == InTurn && agent.seen.open.None? && MayOpen(agent.seen, m)
    modifies agent, agent.steeringQueue, agent.followUpQueue
    modifies env`script, env`settled, env`left, env`failures
    ensures Kept(agent, env) && StillSettled(env) && Accounted(env, o)
    ensures o.Done? ==> agent.seen == Step(Step(old(agent.seen), MessageStart(m)), MessageEnd(m))
    ensures old(env.Quiet()) ==> env.Quiet()
    ensures o.Done? ==> |env.script| < |old(env.script)|
  {
    hide Emitted, Governed, Step, MayOpen, Count;
    WholeMessage(agent.seen, m);
    var _ :- Emit(agent, env, MessageStart(m));
    var _ :- Emit(agent, env, MessageEnd(m));
    return Done(());
  }

  /** A message opened and closed at once touches no tool execution. */
  lemma WholeMessage(s: Observer, m: Message)
    requires s.Watching? && s.phase == InTurn && s.open.None? && MayOpen(s, m)
    ensures
      var s1 := Step(s, MessageStart(m));
      var s2 := Step(s1, MessageEnd(m));
      && s1.Watching? && s1.phase == InTurn && s1.started == s.started && s1.ended == s.ended
      && s2.Watching? && s2.phase == InTurn && s2.started == s.started && s2.ended == s.ended
  {
  }

  // ---------------------------------------------------------------- streaming

  /** One `start` or content event of a response: grow or overwrite the context's last slot. */
  method ReceiveStreamEvent(agent: Agent, env: Environment, ctx: LoopContext, event: StreamEvent, addedPartial: bool)
    returns (o: Outcome<bool>)
    requires Calm(agent, env)
    requires var s := agent.seen; s.phase == InTurn && s.open.Some? == addedPartial && s.due.None? && s.started == []
    requires addedPartial ==> ctx.messages != []
    modifies agent, agent.steeringQueue, agent.followUpQueue, ctx
    modifies env`script, env`settled, env`left, env`failures
    ensures Kept(agent, env) && env.Quiet() && Accounted(env, o)
    ensures o.Done? ==> o.value == (addedPartial || event.Start?)
    ensures event.Start? ==>
      && ctx.messages == Place(old(ctx.messages), event.partial, false)
      && agent.trace == old(agent.trace) + [MessageStart(event.partial)]
      && agent.seen == Step(old(agent.seen), MessageStart(event.partial))
    ensures event.Delta? && addedPartial ==>
      && ctx.messages == Place(old(ctx.messages), event.partial, true)
      && agent.trace == old(agent.trace) + [MessageUpdate(event.partial)]
      && agent.seen == Step(old(agent.seen), MessageUpdate(event.partial))
    ensures event.Finish? || (event.Delta? && !addedPartial) ==>
      ctx.messages == old(ctx.messages) && agent.trace == old(agent.trace) && agent.seen == old(agent.seen)
  {
    hide Emitted;
    match event {
      case Start(p) =>
        ctx.messages := Place(ctx.messages, p, false);
        var _ :- Emit(agent, env, MessageStart(p));
        return Done(true);
      case Delta(p) =>
        if addedPartial {
          ctx.messages := Place(ctx.messages, p, true);
          var _ :- Emit(agent, env, MessageUpdate(p));
        }
        return Done(addedPartial);
      case Finish =>
        return Done(addedPartial);
    }
  }

  /** The response is over: its final message takes the last slot and is announced. */
  method FinishResponse(agent: Agent, env: Environment, ctx: LoopContext, addedPartial: bool, final: AssistantMessage)
    returns (o: Outcome<AssistantMessage>)
    requires Calm(agent, env)
    requires var s := agent.seen; s.phase == InTurn && s.open.Some? == addedPartial && s.due.None? && s.started == []
    requires addedPartial ==> ctx.messages != []
    modifies agent, agent.steeringQueue, agent.followUpQueue, ctx
    modifies env`script, env`settled, env`left, env`failures
    ensures Kept(agent, env) && env.Quiet() && Accounted(env, o)
    ensures o.Done? ==>
      && o.value == final
      && ctx.messages == Place(old(ctx.messages), final, addedPartial)
      && agent.trace == old(agent.trace) + (if addedPartial then [] else [MessageStart(final)]) + [MessageEnd(final)]
      && agent.seen ==
          Step(if addedPartial then old(agent.seen) else Step(old(agent.seen), MessageStart(final)), MessageEnd(final))
  {
    hide Emitted, Governed;
    ctx.messages := Place(ctx.messages, final, addedPartial);
    if !addedPartial {
      var _ :- Emit(agent, env, MessageStart(final));
    }
    var _ :- Emit(agent, env, MessageEnd(final));
    return Done(final);
  }

  /** One event received, as one more step of a response in progress. */
  method ReceiveNext(agent: Agent, env: Environment, ctx: LoopContext, event: StreamEvent, addedPartial: bool,
                     ghost events: seq<StreamEvent>, ghost ctx0: seq<Message>, ghost trace0: seq<AgentEvent>,
                     ghost s0: Observer)
    returns (o: Outcome<bool>)
    requires Calm(agent, env)
    requires s0.Watching? && s0.phase == InTurn && s0.due.None? && s0.started == []
    requires InStream(events, ctx0, ctx.messages, trace0, agent.trace, s0, agent.seen)
    requires agent.seen.open.Some? == addedPartial && !event.Finish?
    modifies agent, agent.steeringQueue, agent.followUpQueue, ctx
    modifies env`script, env`settled, env`left, env`failures
    ensures Kept(agent, env) && env.Quiet() && Accounted(env, o)
    ensures o.Done? ==> InStream(events + [event], ctx0, ctx.messages, trace0, agent.trace, s0, agent.seen)
    ensures o.Done? ==> agent.seen.open.Some? == o.value
  {
    hide Grown, Stale, Shown;
    StreamStep(events, event, ctx0, ctx.messages, trace0, agent.trace, s0, agent.seen);
    o := ReceiveStreamEvent(agent, env, ctx, event, addedPartial);
  }

  /** Consume the response's events up to its end. */
  method ReceiveStream(agent: Agent, env: Environment, ctx: LoopContext)
    returns (o: Outcome<bool>, ghost events: seq<StreamEvent>)
    requires Calm(agent, env)
    requires var s := agent.seen; s.phase == InTurn && s.open.None? && s.due.None? && s.started == []
    modifies agent, agent.steeringQueue, agent.followUpQueue, ctx
    modifies env`script, env`settled, env`left, env`failures, env`heard
    ensures Kept(agent, env) && env.Quiet() && Accounted(env, o)
    ensures o.Done? ==>
      && InStream(events, old(ctx.messages), ctx.messages, old(agent.trace), agent.trace, old(agent.seen), agent.seen)
      && o.value == agent.seen.open.Some?
      && env.heard == old(env.heard) + StreamHeard(events)
  {
    hide Governed, Step;
    events := [];
    var addedPartial := false;
    ghost var ctx0, trace0, s0, heard0 := ctx.messages, agent.trace, agent.seen, env.heard;
    while true
      invariant Kept(agent, env) && env.Quiet() && env.failures == old(env.failures)
      invariant InStream(events, ctx0, ctx.messages, trace0, agent.trace, s0, agent.seen)
      invariant agent.seen.open.Some? == addedPartial
      invariant env.heard == heard0 + StreamHeard(events)
      decreases |env.script|
    {
      var answer :- env.AwaitEvent(agent);
      if answer.Closed? || answer.event.Finish? {
        o := Done(addedPartial);
        return;
      }
      addedPartial :- ReceiveNext(agent, env, ctx, answer.event, addedPartial, events, ctx0, trace0, s0);
      StreamHeardSnoc(events, answer.event);
      Associate(heard0, StreamHeard(events), [Streamed(answer.event)]);
      events := events + [answer.event];
    }
  }

  /** Await the final message of a response whose events have all been shown. */
  method CompleteResponse(agent: Agent, env: Environment, ctx: LoopContext, addedPartial: bool,
                          ghost events: seq<StreamEvent>, ghost ctx0: seq<Message>, ghost trace0: seq<AgentEvent>,
                          ghost s0: Observer)
    returns (o: Outcome<AssistantMessage>)
    requires Calm(agent, env)
    requires s0.Watching? && s0.phase == InTurn && s0.open.None? && s0.due.None? && s0.started == []
    requires InStream(events, ctx0, ctx.messages, trace0, agent.trace, s0, agent.seen)
    requires agent.seen.open.Some? == addedPartial
    modifies agent, agent.steeringQueue, agent.followUpQueue, ctx
    modifies env`script, env`settled, env`left, env`failures, env`heard
    ensures Kept(agent, env) && env.Quiet() && Accounted(env, o)
    ensures o.Done? ==>
      && ctx.messages == ctx0 + Stale(events) + [o.value]
      && agent.trace == trace0 + StreamTrace(events, o.value)
      && agent.seen == s0.(completed := s0.completed + [o.value], last := Some(o.value),
                           restarts := s0.restarts + |Stale(events)|)
      && |env.script| < |old(env.script)|
      && env.heard == old(env.heard) + [Final(o.value)]
  {
    var final :- env.AwaitFinal(agent);
    StreamEnd(events, final, ctx0, ctx.messages, trace0, agent.trace, s0, agent.seen);
    o := FinishResponse(agent, env, ctx, addedPartial, final);
  }

  /** Stream one assistant response into the context's last slot. */
  method StreamAssistantResponse(agent: Agent, env: Environment, ctx: LoopContext)
    returns (o: Outcome<AssistantMessage>, ghost events: seq<StreamEvent>)
    requires Calm(agent, env)
    requires var s := agent.seen; s.phase == InTurn && s.open.None? && s.due.None? && s.started == []
    modifies agent, agent.steeringQueue, agent.followUpQueue, ctx
    modifies env`script, env`settled, env`left, env`failures, env`heard
    ensures Kept(agent, env) && env.Quiet() && Accounted(env, o)
    ensures o.Done? ==>
      && ctx.messages == old(ctx.messages) + Stale(events) + [o.value]
      && agent.trace == old(agent.trace) + StreamTrace(events, o.value)
      && agent.seen == old(agent.seen).(completed := old(agent.seen).completed + [o.value],
                                        last := Some(o.value),
                                        restarts := old(agent.seen).restarts + |Stale(events)|)
      && |env.script| < |old(env.script)|
      && env.heard == old(env.heard) + StreamHeard(events) + [Final(o.value)]
  {
    hide Governed, InStream, Stale, StreamTrace, StreamHeard;
    events := [];
    // transformContext, convertToLlm, getSystemPrompt, getApiKey and the stream function itself
    var _ :- env.AwaitParty(agent);
    var addedPartial;
    addedPartial, events :- ReceiveStream(agent, env, ctx);
    o := CompleteResponse(agent, env, ctx, addedPartial, events, old(ctx.messages), old(agent.trace), old(agent.seen));
  }

  // ---------------------------------------------------------------- tool calls

  /** Look the tool up; only if it exists, prepare and validate its arguments and ask the
      `beforeToolCall` hook. */
  method PrepareToolCall(agent: Agent, env: Environment, ctx: LoopContext, call: ToolCall)
    returns (o: Outcome<Preparation>, ghost gate: Option<Gate>)
    requires Calm(agent, env)
    modifies agent, agent.steeringQueue, agent.followUpQueue
    modifies env`script, env`settled, env`left, env`failures, env`heard
    ensures Kept(agent, env) && env.Quiet() && Accounted(env, o)
    ensures agent.seen == old(agent.seen) && !o.Threw?
    ensures o.Done? ==>
      && Asked(call, ctx.tools, gate)
      && env.heard == old(env.heard) + GateHeard(gate)
      && o.value == Verdict(call, ctx.tools, gate)
      && (gate.Some? <==> call.name in ctx.tools)
      && (o.value.Prepared? <==> gate == Some(Admit))
  {
    hide TickTaken;
    gate := None;
    if call.name !in ctx.tools {
      var _ :- env.Await(agent);
      o := Done(Answer("Tool " + call.name + " not found"));
      return;
    }
    var answer :- env.AwaitGate(agent);
    gate := Some(answer);
    match answer {
      case Admit =>
        o := Done(Prepared);
      case Invalid(error) =>
        o := Done(Answer(error));
      case Blocked(reason) =>
        o := Done(Answer(if reason.Some? && reason.value != "" then reason.value else "Tool execution was blocked"));
    }
  }

  /** Announce a call and prepare it. */
  method BeginToolCall(agent: Agent, env: Environment, ctx: LoopContext, call: ToolCall)
    returns (o: Outcome<Preparation>, ghost gate: Option<Gate>)
    requires Calm(agent, env)
    requires agent.seen.phase == InTurn && MayStartTool(agent.seen, call.id, call.name)
    modifies agent, agent.steeringQueue, agent.followUpQueue
    modifies env`script, env`settled, env`left, env`failures, env`heard
    ensures Kept(agent, env) && env.Quiet() && Accounted(env, o)
    ensures agent.seen == Begun(old(agent.seen), call.id)
    ensures o.Done? ==>
      && Asked(call, ctx.tools, gate)
      && env.heard == old(env.heard) + GateHeard(gate)
      && o.value == Verdict(call, ctx.tools, gate)
  {
    hide Emitted, Verdict, GateHeard;
    gate := None;
    var _ :- Emit(agent, env, ToolStart(call.id, call.name));
    o, gate := PrepareToolCall(agent, env, ctx, call);
  }

  lemma AnswerOpens(s: Observer, m: Message)
    requires s.Watching? && s.open.None? && m.ToolResult? && s.due == Some(m.callId)
    ensures MayOpen(s, m)
  {
  }

  method EmitToolCallOutcome(agent: Agent, env: Environment, call: ToolCall, body: string, isError: bool)
    returns (o: Outcome<Message>)
    requires Active(agent, env)
    requires var s := agent.seen; s.phase == InTurn && s.open.None? && s.due.None? && Running(s, call.id)
    requires env.Consistent(agent.seen.(ended := agent.seen.ended + [call.id]))
    modifies agent, agent.steeringQueue, agent.followUpQueue
    modifies env`script, env`settled, env`left, env`failures
    ensures Kept(agent, env) && StillSettled(env) && Accounted(env, o)
    ensures old(env.Quiet()) ==> env.Quiet()
    ensures o.Done? ==>
      && o.value == ToolResult(call.id, call.name, body, isError)
      && agent.seen == Answered(old(agent.seen), o.value)
  {
    hide Emitted, Governed, Step, MayOpen, Count;
    AnswerSteps(agent.seen, call, body, isError);
    var _ :- Emit(agent, env, ToolEnd(call.id, call.name, body, isError));
    var m := ToolResult(call.id, call.name, body, isError);
    AnswerOpens(agent.seen, m);
    var _ :- EmitWholeMessage(agent, env, m);
    return Done(m);
  }

  /** Start executing the prepared calls: from here on they progress on their own. */
  method Launch(agent: Agent, env: Environment, calls: seq<ToolCall>)
    requires agent.seen.Watching? && agent.seen.phase == InTurn && Owing(agent.seen, calls, 0)
    modifies env`running, env`settled
    ensures env.running == calls && |env.settled| == |calls| && env.Consistent(agent.seen)
    ensures forall i | 0 <= i < |env.settled| :: env.settled[i].None?
  {
    env.running := calls;
    env.settled := seq(|calls|, _ => None);
    OwingRuns(agent.seen, calls, 0);
  }

  /** Let the `afterToolCall` hook amend the result of an execution, then announce it. */
  method FinalizeExecutedToolCall(agent: Agent, env: Environment, call: ToolCall, execution: Execution)
    returns (o: Outcome<Message>, ghost after: After)
    requires Active(agent, env) && !execution.Crashed?
    requires var s := agent.seen; s.phase == InTurn && s.open.None? && s.due.None? && Running(s, call.id)
    requires env.Consistent(agent.seen.(ended := agent.seen.ended + [call.id]))
    modifies agent, agent.steeringQueue, agent.followUpQueue
    modifies env`script, env`settled, env`left, env`failures, env`heard
    ensures Kept(agent, env) && StillSettled(env) && Accounted(env, o)
    ensures old(env.Quiet()) ==> env.Quiet()
    ensures o.Done? ==>
      && env.heard == old(env.heard) + [Hooked(after)]
      && o.value == Reply(call, Ran(execution, after))
      && agent.seen == Answered(old(agent.seen), o.value)
  {
    hide TickTaken, Governed, Step, Count;
    after := Keep;
    var answer :- env.AwaitHook(agent);
    after := answer;
    var body := if execution.Returned? then execution.body else execution.error;
    var isError := !execution.Returned?;
    if answer.Override? {
      body := Or(answer.body, body);
      isError := Or(answer.isError, isError);
    }
    o := EmitToolCallOutcome(agent, env, call, body, isError);
  }

  /** Await the `k`-th launched execution and finalize it. */
  method AwaitAndFinalize(agent: Agent, env: Environment, call: ToolCall, k: nat)
    returns (o: Outcome<Message>, ghost fate: Fate)
    requires Active(agent, env) && k < |env.running| && env.running[k] == call
    requires var s := agent.seen; s.phase == InTurn && s.open.None? && s.due.None? && Running(s, call.id)
    requires
      var next := agent.seen.(ended := agent.seen.ended + [call.id]);
      forall i | 0 <= i < |env.running| && i != k && env.settled[i].None? :: Running(next, env.running[i].id)
    modifies agent, agent.steeringQueue, agent.followUpQueue
    modifies env`script, env`settled, env`left, env`failures, env`heard
    ensures Kept(agent, env) && StillSettled(env) && Accounted(env, o)
    ensures o.Done? ==>
      && fate.Ran? && env.settled[k] == Some(fate.execution)
      && env.heard == old(env.heard) + RunHeard(call, fate)
      && o.value == Reply(call, fate) && agent.seen == Answered(old(agent.seen), o.value)
  {
    hide Governed, Running, Step;
    fate := Immediate("");
    var execution :- env.AwaitExecution(agent, k);
    ghost var after;
    o, after := FinalizeExecutedToolCall(agent, env, call, execution);
    fate := Ran(execution, after);
  }

  /** Execute and finalize one prepared call while nothing else is running. */
  method RunAlone(agent: Agent, env: Environment, call: ToolCall) returns (o: Outcome<Message>, ghost fate: Fate)
    requires Calm(agent, env)
    requires var s := agent.seen; s.phase == InTurn && s.open.None? && s.due.None? && Owing(s, [call], 0)
    modifies agent, agent.steeringQueue, agent.followUpQueue, env
    ensures Kept(agent, env) && Accounted(env, o)
    ensures o.Done? ==>
      && env.Quiet() && fate.Ran?
      && env.running == [call] && env.settled == [Some(fate.execution)]
      && env.heard == old(env.heard) + RunHeard(call, fate)
      && o.value == Reply(call, fate) && agent.seen == Answered(old(agent.seen), o.value)
  {
    OwingRuns(agent.seen, [call], 0);
    Launch(agent, env, [call]);
    o, fate := AwaitAndFinalize(agent, env, call, 0);
  }

  /** One round of sequential execution. */
  method ExecuteToolCall(agent: Agent, env: Environment, ctx: LoopContext, call: ToolCall)
    returns (o: Outcome<Message>, ghost gate: Option<Gate>, ghost fate: Fate)
    requires Calm(agent, env)
    requires agent.seen.phase == InTurn && Owing(agent.seen, [], 0) && MayStartTool(agent.seen, call.id, call.name)
    modifies agent, agent.steeringQueue, agent.followUpQueue, env
    ensures Kept(agent, env) && Accounted(env, o)
    ensures o.Done? ==>
      && env.Quiet()
      && env.heard == old(env.heard) + GateHeard(gate) + RunHeard(call, fate)
      && Asked(call, ctx.tools, gate) && Befits(fate, Verdict(call, ctx.tools, gate))
      && o.value == Reply(call, fate)
      && agent.seen == Answered(Begun(old(agent.seen), call.id), o.value)
  {
    hide Governed, Verdict, GateHeard, Step, Count;
    fate := Immediate("");
    OwingAnswered(agent.seen, [], call, Reply(call, fate));
    OwingBegun(agent.seen, [], call);
    assert [] + [call] == [call];
    var preparation;
    preparation, gate :- BeginToolCall(agent, env, ctx, call);
    if preparation.Answer? {
      fate := Immediate(preparation.body);
      o := EmitToolCallOutcome(agent, env, call, preparation.body, true);
    } else {
      o, fate := RunAlone(agent, env, call);
    }
  }

  /** Execute the calls of a message one after the other. */
  method ExecuteToolCallsSequential(agent: Agent, env: Environment, ctx: LoopContext, calls: seq<ToolCall>)
    returns (o: Outcome<seq<Message>>, ghost gates: seq<Option<Gate>>, ghost fates: seq<Fate>)
    requires Calm(agent, env) && AtToolPhase(agent.seen, calls)
    modifies agent, agent.steeringQueue, agent.followUpQueue, env
    ensures Kept(agent, env) && Accounted(env, o)
    ensures o.Done? ==>
      && env.Quiet() && |fates| == |calls| && Judged(calls, ctx.tools, gates, fates)
      && env.heard == old(env.heard) + CallsHeard(calls, gates, fates)
      && agent.seen == Progress(old(agent.seen), calls, fates, false)
      && o.value == Given(calls, fates, false)
  {
    hide Governed, Asked, Befits, Verdict, Judged, GateHeard, RunHeard, CallsHeard, Progress, Given, Reply;
    hide AtToolPhase, MayStartTool, Owing, Running;
    gates, fates := [], [];
    NoCallYet(agent.seen, calls, ctx.tools, env.heard, false);
    var results: seq<Message> := [];
    ghost var s0, heard0 := agent.seen, env.heard;
    for i := 0 to |calls|
      invariant Kept(agent, env) && env.Quiet() && env.failures == old(env.failures)
      invariant |gates| == |fates| == i && Judged(calls, ctx.tools, gates, fates)
      invariant env.heard == heard0 + CallsHeard(calls, gates, fates)
      invariant agent.seen == Progress(s0, calls, fates, false)
      invariant results == Given(calls, fates, false)
    {
      NextReady(s0, calls, fates, false);
      var result;
      ghost var gate, fate;
      result, gate, fate :- ExecuteToolCall(agent, env, ctx, calls[i]);
      OneMoreCall(s0, calls, ctx.tools, gates, fates, gate, fate, heard0, false);
      gates, fates := gates + [gate], fates + [fate];
      results := results + [result];
    }
    o := Done(results);
  }

  lemma NoCallYet(s0: Observer, calls: seq<ToolCall>, tools: seq<string>, heard: seq<Answer>, postponing: bool)
    requires s0.Watching?
    ensures Judged(calls, tools, [], []) && Progress(s0, calls, [], postponing) == s0
    ensures Given(calls, [], postponing) == [] && Runnable(calls, []) == []
    ensures heard + CallsHeard(calls, [], []) == heard && heard + GatesHeard([]) == heard
  {
  }

  /** While calls remain, the next one may be announced; its start adds to what is owed. */
  lemma NextReady(s0: Observer, calls: seq<ToolCall>, fates: seq<Fate>, postponing: bool)
    requires AtToolPhase(s0, calls) && |fates| < |calls|
    ensures
      var s, call := Progress(s0, calls, fates, postponing), calls[|fates|];
      && s.phase == InTurn && MayStartTool(s, call.id, call.name)
      && Owing(s, if postponing then Runnable(calls, fates) else [], 0)
  {
    hide Progress, Owing, Runnable;
    ProgressReady(s0, calls, fates, postponing);
  }

  /** What the books of a loop over calls say after one more call. */
  lemma OneMoreCall(s0: Observer, calls: seq<ToolCall>, tools: seq<string>, gates: seq<Option<Gate>>, fates: seq<Fate>,
                    gate: Option<Gate>, fate: Fate, heard: seq<Answer>, postponing: bool)
    requires s0.Watching? && Judged(calls, tools, gates, fates) && |fates| < |calls|
    requires var call := calls[|fates|]; Asked(call, tools, gate) && Befits(fate, Verdict(call, tools, gate))
    ensures Judged(calls, tools, gates + [gate], fates + [fate])
    ensures
      var n := |fates|;
      && Progress(s0, calls, fates + [fate], postponing) ==
         Advanced(Progress(s0, calls, fates, postponing), calls[n], fate, postponing)
      && Runnable(calls, fates + [fate]) == Runnable(calls, fates) + (if fate.Ran? then [calls[n]] else [])
      && Given(calls, fates + [fate], postponing) ==
         Given(calls, fates, postponing) + (if postponing && fate.Ran? then [] else [Reply(calls[n], fate)])
      && heard + CallsHeard(calls, gates + [gate], fates + [fate]) ==
         heard + CallsHeard(calls, gates, fates) + GateHeard(gate) + RunHeard(calls[n], fate)
      && heard + GatesHeard(gates + [gate]) == heard + GatesHeard(gates) + GateHeard(gate)
  {
    hide Verdict, Befits, Asked, Progress, Given, Runnable, CallsHeard, GatesHeard, GateHeard, RunHeard;
    ProgressSnoc(s0, calls, fates, fate, postponing);
    GivenSnoc(calls, fates, fate, postponing);
    HeardSnoc(calls, gates, fates, gate, fate);
    JudgedSnoc(calls, tools, gates, fates, gate, fate);
    AssociateFour(heard, CallsHeard(calls, gates, fates), GateHeard(gate), RunHeard(calls[|fates|], fate));
    Associate(heard, GatesHeard(gates), GateHeard(gate));
    assert Runnable(calls, fates) + [] == Runnable(calls, fates);
    assert Given(calls, fates, postponing) + [] == Given(calls, fates, postponing);
  }

  /** The preparation pass of parallel execution: answer what needs no execution, collect the
      rest, whose fates are not known yet. */
  method PrepareToolCalls(agent: Agent, env: Environment, ctx: LoopContext, calls: seq<ToolCall>)
    returns (o: Outcome<seq<ToolCall>>, results: seq<Message>, ghost gates: seq<Option<Gate>>, ghost fates: seq<Fate>)
    requires Calm(agent, env) && AtToolPhase(agent.seen, calls)
    modifies agent, agent.steeringQueue, agent.followUpQueue
    modifies env`script, env`settled, env`left, env`failures, env`heard
    ensures Kept(agent, env) && Accounted(env, o)
    ensures o.Done? ==>
      && env.Quiet() && |fates| == |calls| && Judged(calls, ctx.tools, gates, fates)
      && env.heard == old(env.heard) + GatesHeard(gates)
      && agent.seen == Progress(old(agent.seen), calls, fates, true)
      && results == Given(calls, fates, true)
      && o.value == Runnable(calls, fates)
  {
    hide Governed, Asked, Befits, Verdict, Judged, GateHeard, GatesHeard, Progress, Advanced, Given, Runnable;
    hide AtToolPhase, MayStartTool, Owing, Reply;
    results, gates, fates := [], [], [];
    NoCallYet(agent.seen, calls, ctx.tools, env.heard, true);
    var runnableCalls: seq<ToolCall> := [];
    ghost var s0, heard0 := agent.seen, env.heard;
    for i := 0 to |calls|
      invariant Kept(agent, env) && env.Quiet() && env.failures == old(env.failures)
      invariant |fates| == i && Judged(calls, ctx.tools, gates, fates)
      invariant env.heard == heard0 + GatesHeard(gates)
      invariant agent.seen == Progress(s0, calls, fates, true)
      invariant results == Given(calls, fates, true)
      invariant runnableCalls == Runnable(calls, fates)
    {
      NextReady(s0, calls, fates, true);
      var preparation;
      ghost var gate, fate;
      preparation, gate, fate :- PrepareNext(agent, env, ctx, calls[i], runnableCalls);
      if preparation.Some? {
        results := results + [preparation.value];
      } else {
        runnableCalls := runnableCalls + [calls[i]];
      }
      OneMoreCall(s0, calls, ctx.tools, gates, fates, gate, fate, heard0, true);
      assert results == Given(calls, fates + [fate], true) && runnableCalls == Runnable(calls, fates + [fate]);
      gates, fates := gates + [gate], fates + [fate];
    }
    o := Done(runnableCalls);
  }

  /** One call of the preparation pass; `Some` is the answer to a call that does not run. The fate
      of one that does is not known yet. */
  method PrepareNext(agent: Agent, env: Environment, ctx: LoopContext, call: ToolCall, ghost runnable: seq<ToolCall>)
    returns (o: Outcome<Option<Message>>, ghost gate: Option<Gate>, ghost fate: Fate)
    requires Calm(agent, env) && Owing(agent.seen, runnable, 0)
    requires agent.seen.phase == InTurn && MayStartTool(agent.seen, call.id, call.name)
    modifies agent, agent.steeringQueue, agent.followUpQueue
    modifies env`script, env`settled, env`left, env`failures, env`heard
    ensures Kept(agent, env) && Accounted(env, o)
    ensures o.Done? ==>
      && env.Quiet() && env.heard == old(env.heard) + GateHeard(gate)
      && Asked(call, ctx.tools, gate) && Befits(fate, Verdict(call, ctx.tools, gate))
      && o.value == (if fate.Ran? then None else Some(Reply(call, fate)))
      && agent.seen == Advanced(old(agent.seen), call, fate, true)
  {
    hide Governed, Asked, Verdict, GateHeard, Step, Count;
    fate := Ran(Returned(""), Keep);
    OwingAnswered(agent.seen, runnable, call, Reply(call, Immediate("")));
    var preparation;
    preparation, gate :- BeginToolCall(agent, env, ctx, call);
    if preparation.Prepared? {
      o := Done(None);
      return;
    }
    fate := Immediate(preparation.body);
    var result :- EmitToolCallOutcome(agent, env, call, preparation.body, true);
    o := Done(Some(result));
  }

  /** Await and finalize the `k`-th launched call, all earlier ones being finalized. */
  method FinalizeNext(agent: Agent, env: Environment, runnable: seq<ToolCall>, k: nat)
    returns (o: Outcome<Message>, ghost fate: Fate)
    requires Active(agent, env) && env.running == runnable
    requires k < |runnable| && forall j | 0 <= j < k :: env.settled[j].Some?
    requires var s := agent.seen; s.phase == InTurn && s.open.None? && s.due.None? && Owing(s, runnable, k)
    modifies agent, agent.steeringQueue, agent.followUpQueue
    modifies env`script, env`settled, env`left, env`failures, env`heard
    ensures Kept(agent, env) && StillSettled(env) && Accounted(env, o)
    ensures o.Done? ==>
      && fate.Ran? && env.settled[k] == Some(fate.execution)
      && env.heard == old(env.heard) + RunHeard(runnable[k], fate)
      && o.value == Reply(runnable[k], fate) && agent.seen == Answered(old(agent.seen), o.value)
  {
    hide Governed, Running, Count, Step, Owing;
    // the next call is running, and once it has ended the later ones still are
    OwingRuns(agent.seen, runnable, k);
    OwingPaid(agent.seen, runnable, k);
    OwingRuns(agent.seen.(ended := agent.seen.ended + [runnable[k].id]), runnable, k + 1);
    o, fate := AwaitAndFinalize(agent, env, runnable[k], k);
  }

  /** The completion pass of parallel execution: whatever order the executions end in, they
      are finalized in launch order. */
  method FinalizeToolCalls(agent: Agent, env: Environment, runnable: seq<ToolCall>)
    returns (o: Outcome<seq<Message>>, ghost done: seq<Fate>)
    requires Active(agent, env) && env.running == runnable
    requires var s := agent.seen; s.phase == InTurn && s.open.None? && s.due.None? && Owing(s, runnable, 0)
    modifies agent, agent.steeringQueue, agent.followUpQueue
    modifies env`script, env`settled, env`left, env`failures, env`heard
    ensures Kept(agent, env) && Accounted(env, o)
    ensures o.Done? ==>
      && env.Quiet() && |done| == |runnable|
      && env.heard == old(env.heard) + RunsHeard(runnable, done)
      && agent.seen == Drained(old(agent.seen), runnable, done)
      && o.value == Given(runnable, done, false)
      && forall k | 0 <= k < |done| :: done[k].Ran? && env.settled[k] == Some(done[k].execution)
  {
    hide Governed, Running, Count, RunHeard;
    done := [];
    var results: seq<Message> := [];
    ghost var s1, heard0 := agent.seen, env.heard;
    for k := 0 to |runnable|
      invariant Kept(agent, env) && |done| == k && env.failures == old(env.failures)
      invariant env.heard == heard0 + RunsHeard(runnable, done)
      invariant agent.seen == Drained(s1, runnable, done)
      invariant results == Given(runnable, done, false)
      invariant forall j | 0 <= j < k :: done[j].Ran? && env.settled[j] == Some(done[j].execution)
    {
      DrainedReady(s1, runnable, done);
      var result;
      ghost var fate;
      result, fate :- FinalizeNext(agent, env, runnable, k);
      DrainedSnoc(s1, runnable, done, fate);
      RunsHeardSnoc(runnable, done, fate);
      Associate(heard0, RunsHeard(runnable, done), RunHeard(runnable[k], fate));
      done := done + [fate];
      results := results + [result];
    }
    o := Done(results);
  }

  /** Prepare the calls one after the other, then let the prepared ones run concurrently. */
  method ExecuteToolCallsParallel(agent: Agent, env: Environment, ctx: LoopContext, calls: seq<ToolCall>)
    returns (o: Outcome<seq<Message>>, ghost gates: seq<Option<Gate>>, ghost fates: seq<Fate>)
    requires Calm(agent, env) && AtToolPhase(agent.seen, calls)
    modifies agent, agent.steeringQueue, agent.followUpQueue, env
    ensures Kept(agent, env) && Accounted(env, o)
    ensures o.Done? ==>
      && env.Quiet() && |fates| == |calls| && Judged(calls, ctx.tools, gates, fates)
      && env.heard == old(env.heard) + ToolsHeard(Parallel, calls, gates, fates)
      && env.running == Runnable(calls, fates) && |env.settled| == |RunFates(fates)|
      && (forall k | 0 <= k < |RunFates(fates)| :: env.settled[k] == Some(RunFates(fates)[k].execution))
      && AfterTools(calls, o.value, old(agent.seen), agent.seen)
      && o.value == Replies(calls, fates, ParallelOrder(fates))
  {
    hide Governed, Verdict, GateHeard, Befits, RunHeard, Count, Running, ToolCalls;
    hide Replies, ParallelOrder, Places, Assembled, RunFates, Runnable;
    gates, fates := [], [];
    ghost var s0 := agent.seen;
    var runnableCalls, results;
    ghost var begun, done;
    runnableCalls, results, gates, begun :- PrepareToolCalls(agent, env, ctx, calls);
    ProgressReady(s0, calls, begun, true);
    Launch(agent, env, runnableCalls);
    var late;
    late, done :- FinalizeToolCalls(agent, env, runnableCalls);
    RunFatesLength(calls, begun);
    ParallelDone(s0, calls, begun, done);
    JudgedAssembled(calls, ctx.tools, gates, begun, done);
    AssembledRuns(calls, begun, done);
    fates := Assembled(begun, done);
    ParallelHeard(old(env.heard), calls, gates, fates, runnableCalls, done);
    o := Done(results + late);
  }

  lemma ParallelHeard(heard: seq<Answer>, calls: seq<ToolCall>, gates: seq<Option<Gate>>, fates: seq<Fate>,
                      runnable: seq<ToolCall>, done: seq<Fate>)
    requires |gates| == |fates| <= |calls| && |done| <= |runnable|
    requires runnable == Runnable(calls, fates) && done == RunFates(fates)
    ensures heard + GatesHeard(gates) + RunsHeard(runnable, done) == heard + ToolsHeard(Parallel, calls, gates, fates)
  {
    Associate(heard, GatesHeard(gates), RunsHeard(runnable, done));
  }

  method ExecuteToolCalls(agent: Agent, env: Environment, ctx: LoopContext, calls: seq<ToolCall>, mode: ToolExecution)
    returns (o: Outcome<seq<Message>>, ghost gates: seq<Option<Gate>>, ghost fates: seq<Fate>)
    requires Calm(agent, env) && AtToolPhase(agent.seen, calls)
    modifies agent, agent.steeringQueue, agent.followUpQueue, env
    ensures Kept(agent, env) && Accounted(env, o)
    ensures o.Done? ==>
      && env.Quiet() && |fates| == |calls| && Judged(calls, ctx.tools, gates, fates)
      && env.heard == old(env.heard) + ToolsHeard(mode, calls, gates, fates)
      && AfterTools(calls, o.value, old(agent.seen), agent.seen)
      && Within(Order(mode, fates), |fates|) && o.value == Replies(calls, fates, Order(mode, fates))
  {
    hide Verdict, GateHeard, Befits, RunHeard, Replies, Places, RunFates, Runnable, Count, Running, ToolCalls;
    if mode == Sequential {
      ghost var s0 := agent.seen;
      o, gates, fates := ExecuteToolCallsSequential(agent, env, ctx, calls);
      if o.Done? {
        SequentialDone(s0, calls, fates);
      }
    } else {
      o, gates, fates := ExecuteToolCallsParallel(agent, env, ctx, calls);
    }
  }

  // ---------------------------------------------------------------- turns

  /** The observer at the beginning of a turn. */
  predicate TurnOpen(s: Observer) {
    && s.Watching? && s.phase == InTurn && s.open.None? && s.due.None?
    && s.started == [] && s.ended == [] && s.results == []
  }

  /** The observer between turns. */
  predicate TurnClosed(s: Observer, completed: seq<Message>, restarts: nat) {
    s.Watching? && s.phase == Gap && s.open.None? && s.due.None? && s.completed == completed && s.restarts == restarts
  }

  /** The observer where a turn may begin. */
  predicate AtTurn(s: Observer, firstTurn: bool) {
    s.Watching? && (if firstTurn then TurnOpen(s) else TurnClosed(s, s.completed, s.restarts))
  }

  /** A whole message at the beginning of a turn. */
  lemma MessageAdded(s: Observer, m: Message)
    requires TurnOpen(s)
    ensures MayOpen(s, m)
    ensures
      var n := Step(Step(s, MessageStart(m)), MessageEnd(m));
      TurnOpen(n) && n.completed == s.completed + [m] && n.restarts == s.restarts
  {
  }

  /** Inject the polled messages before the response. */
  method InjectPending(agent: Agent, env: Environment, ctx: LoopContext, pending: seq<Message>) returns (o: Outcome<()>)
    requires Calm(agent, env) && TurnOpen(agent.seen)
    modifies agent, agent.steeringQueue, agent.followUpQueue, ctx
    modifies env`script, env`settled, env`left, env`failures
    ensures Kept(agent, env) && env.Quiet() && Accounted(env, o)
    ensures o.Done? ==>
      && ctx.messages == old(ctx.messages) + pending
      && TurnOpen(agent.seen) && agent.seen.restarts == old(agent.seen).restarts
      && agent.seen.completed == old(agent.seen).completed + pending
  {
    hide Governed, Step, MayOpen;
    ghost var s := agent.seen;
    for i := 0 to |pending|
      invariant Kept(agent, env) && env.Quiet() && env.failures == old(env.failures)
      invariant ctx.messages == old(ctx.messages) + pending[..i]
      invariant TurnOpen(agent.seen) && agent.seen.restarts == s.restarts
      invariant agent.seen.completed == s.completed + pending[..i]
    {
      MessageAdded(agent.seen, pending[i]);
      assert pending[..i + 1] == pending[..i] + [pending[i]];
      var _ :- EmitWholeMessage(agent, env, pending[i]);
      ctx.messages := ctx.messages + [pending[i]];
    }
    assert pending[..|pending|] == pending;
    return Done(());
  }

  /** Run the message's tools, remember their results and end the turn. */
  method RunTools(agent: Agent, env: Environment, ctx: LoopContext, message: AssistantMessage, mode: ToolExecution)
    returns (o: Outcome<seq<Message>>, ghost gates: seq<Option<Gate>>, ghost fates: seq<Fate>)
    requires Calm(agent, env)
    requires TurnOpen(agent.seen) && agent.seen.last == Some(message) && !Failed(message)
    modifies agent, agent.steeringQueue, agent.followUpQueue, env, ctx
    ensures Kept(agent, env) && Accounted(env, o)
    ensures o.Done? ==>
      && env.Quiet() && |gates| == |fates| == |ToolCalls(message.content)|
      && CallsAnswered(message, gates, fates, o.value, mode, ctx.tools)
      && env.heard == old(env.heard) + ToolsHeard(mode, ToolCalls(message.content), gates, fates)
      && ctx.messages == old(ctx.messages) + o.value
      && TurnClosed(agent.seen, old(agent.seen).completed + o.value, old(agent.seen).restarts)
  {
    hide Emitted, Governed, ToolCalls, Replies, Order, Ids, Step, Befits, Verdict, ToolsHeard, Count;
    gates, fates := [], [];
    var toolCalls := ToolCalls(message.content);
    var toolResults: seq<Message> := [];
    ghost var s0 := agent.seen;
    NoTools(s0, message, mode, ctx.tools, env.heard);
    if |toolCalls| > 0 {
      toolResults, gates, fates :- ExecuteToolCalls(agent, env, ctx, toolCalls, mode);
      ctx.messages := ctx.messages + toolResults;
    }
    TurnMayEnd(s0, agent.seen, message, toolResults);
    var _ :- Emit(agent, env, TurnEnd(message, toolResults));
    o := Done(toolResults);
  }

  /** With its tools answered, the turn may end. */
  lemma TurnMayEnd(s0: Observer, s: Observer, m: AssistantMessage, results: seq<Message>)
    requires TurnOpen(s0) && s0.last == Some(m) && !Failed(m)
    requires AfterTools(ToolCalls(m.content), results, s0, s)
    ensures TurnClosed(Step(s, TurnEnd(m, results)), s0.completed + results, s0.restarts)
  {
    assert [] + results == results;
  }

  lemma NoTools(s0: Observer, m: AssistantMessage, mode: ToolExecution, tools: seq<string>, heard: seq<Answer>)
    requires TurnOpen(s0)
    ensures ToolCalls(m.content) == [] ==> AfterTools([], [], s0, s0)
    ensures ToolCalls(m.content) == [] ==> CallsAnswered(m, [], [], [], mode, tools)
    ensures heard + ToolsHeard(mode, ToolCalls(m.content), [], []) == heard
  {
  }

  /** After the response: a failed one ends the turn at once. */
  method FinishTurn(agent: Agent, env: Environment, ctx: LoopContext, message: AssistantMessage, mode: ToolExecution)
    returns (o: Outcome<seq<Message>>, ghost gates: seq<Option<Gate>>, ghost fates: seq<Fate>)
    requires Calm(agent, env) && TurnOpen(agent.seen) && agent.seen.last == Some(message)
    modifies agent, agent.steeringQueue, agent.followUpQueue, env, ctx
    ensures Kept(agent, env) && Accounted(env, o)
    ensures o.Done? ==>
      && env.Quiet() && |gates| == |fates| <= |ToolCalls(message.content)|
      && CallsAnswered(message, gates, fates, o.value, mode, ctx.tools)
      && env.heard == old(env.heard) + ToolsHeard(mode, ToolCalls(message.content), gates, fates)
      && ctx.messages == old(ctx.messages) + o.value
      && TurnClosed(agent.seen, old(agent.seen).completed + o.value, old(agent.seen).restarts)
    ensures o.Done? && message.stop in {Error, Aborted} ==> o.value == [] && gates == [] && fates == []
    ensures o.Done? && message.stop !in {Error, Aborted} ==> |gates| == |fates| == |ToolCalls(message.content)|
  {
    hide Emitted, Governed, ToolCalls, ToolsHeard, Replies, Order, Judged;
    gates, fates := [], [];
    if Failed(message) {
      NoTools(agent.seen, message, mode, ctx.tools, env.heard);
      var _ :- Emit(agent, env, TurnEnd(message, []));
      assert ctx.messages + [] == ctx.messages && agent.seen.completed + [] == agent.seen.completed;
      o := Done([]);
    } else {
      o, gates, fates := RunTools(agent, env, ctx, message, mode);
    }
  }

  /** Begin a turn and inject the pending messages. */
  method OpenTurn(agent: Agent, env: Environment, ctx: LoopContext, firstTurn: bool, pending: seq<Message>)
    returns (o: Outcome<()>)
    requires Calm(agent, env) && AtTurn(agent.seen, firstTurn)
    modifies agent, agent.steeringQueue, agent.followUpQueue, ctx
    modifies env`script, env`settled, env`left, env`failures
    ensures Kept(agent, env) && env.Quiet() && Accounted(env, o)
    ensures o.Done? ==>
      && ctx.messages == old(ctx.messages) + pending
      && TurnOpen(agent.seen) && agent.seen.restarts == old(agent.seen).restarts
      && agent.seen.completed == old(agent.seen).completed + pending
  {
    hide Emitted;
    if !firstTurn {
      var _ :- Emit(agent, env, TurnStart);
    }
    o := InjectPending(agent, env, ctx, pending);
  }

  datatype TurnResult = TurnResult(message: AssistantMessage, toolResults: seq<Message>)

  /** Stream the response, run its tools, end the turn. */
  method Respond(agent: Agent, env: Environment, ctx: LoopContext, mode: ToolExecution, ghost batch: Batch)
    returns (o: Outcome<TurnResult>, ghost turn: Turn)
    requires Calm(agent, env) && TurnOpen(agent.seen)
    modifies agent, agent.steeringQueue, agent.followUpQueue, env, ctx
    ensures Kept(agent, env) && Accounted(env, o)
    ensures o.Done? ==>
      && env.Quiet() && |env.script| < |old(env.script)|
      && o.value == TurnResult(turn.assistant, turn.results)
      && turn.batch == batch && turn.WellAnswered(mode, ctx.tools)
      && |turn.gates| == |turn.fates| <= |turn.Calls()|
      && env.heard == old(env.heard) + turn.Heard(mode)
      && ctx.messages == old(ctx.messages) + Stale(turn.events) + [turn.assistant] + turn.results
      && TurnClosed(agent.seen, old(agent.seen).completed + [turn.assistant] + turn.results,
                    old(agent.seen).restarts + |Stale(turn.events)|)
  {
    hide Governed, ToolCalls, Stale, StreamTrace, StreamHeard, ToolsHeard, CallsAnswered, Step;
    turn := Turn(batch, [], Assistant([], Stop, None), [], [], []);
    var message, toolResults;
    ghost var events, gates, fates := [], [], [];
    message, events :- StreamAssistantResponse(agent, env, ctx);
    toolResults, gates, fates :- FinishTurn(agent, env, ctx, message, mode);
    turn := Turn(batch, events, message, gates, fates, toolResults);
    AssociateFour(old(env.heard), StreamHeard(events), [Final(message)], ToolsHeard(mode, turn.Calls(), gates, fates));
    o := Done(TurnResult(message, toolResults));
  }

  /** One round of the inner loop: start the turn, inject, stream, run tools, end the turn. */
  method RunTurn(agent: Agent, env: Environment, ctx: LoopContext, mode: ToolExecution, firstTurn: bool,
                 pending: seq<Message>, ghost batch: Batch)
    returns (o: Outcome<TurnResult>, ghost turn: Turn)
    requires Calm(agent, env) && AtTurn(agent.seen, firstTurn) && batch.Messages() == pending
    modifies agent, agent.steeringQueue, agent.followUpQueue, env, ctx
    ensures Kept(agent, env) && Accounted(env, o)
    ensures o.Done? ==>
      && env.Quiet() && |env.script| < |old(env.script)|
      && o.value == TurnResult(turn.assistant, turn.results)
      && turn.batch == batch && turn.WellAnswered(mode, ctx.tools)
      && |turn.gates| == |turn.fates| <= |turn.Calls()|
      && env.heard == old(env.heard) + turn.Heard(mode)
      && ctx.messages == old(ctx.messages) + turn.Remembered()
      && TurnClosed(agent.seen, old(agent.seen).completed + turn.Said(),
                    old(agent.seen).restarts + |Stale(turn.events)|)
  {
    hide Governed, ToolCalls, Stale, Turn.Heard, CallsAnswered, Step;
    turn := Turn(batch, [], Assistant([], Stop, None), [], [], []);
    ghost var ctx0, said0 := ctx.messages, agent.seen.completed;
    var _ :- OpenTurn(agent, env, ctx, firstTurn, pending);
    o, turn := Respond(agent, env, ctx, mode, batch);
    TurnSums(turn, ctx0, said0);
  }

  // ---------------------------------------------------------------- the loop

  /** What the loop asks of its caller: `skipInitialSteeringPoll` is the flag captured by the
      steering closure. */
  class LoopConfig {
    const maxTurns: Option<real>
    const toolExecution: ToolExecution
    var skipInitialSteeringPoll: bool

    constructor (maxTurns: Option<real>, toolExecution: ToolExecution, skip: bool)
      ensures this.maxTurns == maxTurns && this.toolExecution == toolExecution && skipInitialSteeringPoll == skip
    {
      this.maxTurns, this.toolExecution, skipInitialSteeringPoll := maxTurns, toolExecution, skip;
    }
  }

  /** What a steering poll finds now, unless it is skipped. */
  ghost function SteeringOffer(agent: Agent, config: LoopConfig): Option<Poll>
    reads agent.steeringQueue`mode, agent.steeringQueue`messages, config
  {
    if config.skipInitialSteeringPoll then None else Some(Poll(agent.steeringQueue.mode, agent.steeringQueue.messages))
  }

  ghost function FollowUpOffer(agent: Agent): Poll
    reads agent.followUpQueue`mode, agent.followUpQueue`messages
  {
    Poll(agent.followUpQueue.mode, agent.followUpQueue.messages)
  }

  /** A drain of a queue keeps the discipline. */
  method DrainSteering(agent: Agent, env: Environment) returns (messages: seq<Message>)
    requires agent.Valid()
    modifies agent.steeringQueue`messages, agent.steeringQueue`polls
    ensures agent.Valid() && (old(Governed(agent, env)) ==> Governed(agent, env))
    ensures agent.steeringQueue.polls ==
            old(agent.steeringQueue.polls) + [old(Poll(agent.steeringQueue.mode, agent.steeringQueue.messages))]
    ensures messages == old(Front(agent.steeringQueue.mode, agent.steeringQueue.messages))
  {
    hide Front, AllTaken, Agent.Recorded, Ruled;
    ghost var s, f := agent.steeringQueue, agent.followUpQueue;
    if Governed(agent, env) {
      RuledPoll(env.began, env.script, s.mode, s.polls, f.mode, f.polls, s.messages);
    }
    messages := agent.steeringQueue.Drain();
  }

  method DrainFollowUps(agent: Agent, env: Environment) returns (messages: seq<Message>)
    requires agent.Valid()
    modifies agent.followUpQueue`messages, agent.followUpQueue`polls
    ensures agent.Valid() && (old(Governed(agent, env)) ==> Governed(agent, env))
    ensures agent.followUpQueue.polls ==
            old(agent.followUpQueue.polls) + [old(Poll(agent.followUpQueue.mode, agent.followUpQueue.messages))]
    ensures messages == old(Front(agent.followUpQueue.mode, agent.followUpQueue.messages))
  {
    hide Front, AllTaken, Agent.Recorded, Ruled;
    ghost var s, f := agent.steeringQueue, agent.followUpQueue;
    if Governed(agent, env) {
      RuledPoll(env.began, env.script, s.mode, s.polls, f.mode, f.polls, f.messages);
    }
    messages := agent.followUpQueue.Drain();
  }

  method GetSteeringMessages(agent: Agent, env: Environment, config: LoopConfig)
    returns (o: Outcome<seq<Message>>, ghost polled: Option<Poll>)
    requires Calm(agent, env)
    modifies agent, agent.steeringQueue, agent.followUpQueue, env`script, env`settled, env`left, config
    ensures InRun(agent, env) && env.Quiet() && Accounted(env, o) && agent.seen == old(agent.seen)
    ensures agent.steeringQueue.polls == old(agent.steeringQueue.polls) + AsSeq(polled)
    ensures agent.followUpQueue.polls == old(agent.followUpQueue.polls)
    ensures !config.skipInitialSteeringPoll && polled == old(SteeringOffer(agent, config))
    ensures o.Done? ==> o.value == Batch(polled, None).Messages() && |env.script| < |old(env.script)|
  {
    hide Front, Agent.Recorded, PendingMessageQueue.Valid, Ruled, Running;
    var messages: seq<Message> := [];
    polled := SteeringOffer(agent, config);
    if config.skipInitialSteeringPoll {
      config.skipInitialSteeringPoll := false;
    } else {
      messages := DrainSteering(agent, env);
    }
    OnlySteering(polled);
    var _ :- env.Await(agent);
    o := Done(messages);
  }

  lemma OnlySteering(poll: Option<Poll>)
    ensures Batch(poll, None).Messages() == if poll.Some? then Front(poll.value.mode, poll.value.found) else []
  {
    hide Front;
  }

  method GetFollowUpMessages(agent: Agent, env: Environment) returns (o: Outcome<seq<Message>>, ghost polled: Poll)
    requires Calm(agent, env)
    modifies agent, agent.steeringQueue, agent.followUpQueue, env`script, env`settled, env`left
    ensures InRun(agent, env) && env.Quiet() && Accounted(env, o) && agent.seen == old(agent.seen)
    ensures agent.followUpQueue.polls == old(agent.followUpQueue.polls) + [polled]
    ensures agent.steeringQueue.polls == old(agent.steeringQueue.polls) && polled == old(FollowUpOffer(agent))
    ensures o.Done? ==> o.value == polled.Taken() && |env.script| < |old(env.script)|
  {
    hide Front, Agent.Recorded, PendingMessageQueue.Valid, Ruled, Running;
    polled := FollowUpOffer(agent);
    var messages := DrainFollowUps(agent, env);
    var _ :- env.Await(agent);
    o := Done(messages);
  }

  /** The snapshot of a run's quantities in the current state. */
  ghost function Now(agent: Agent, env: Environment, ctx: LoopContext, newMessages: seq<Message>): Snapshot
    requires agent.seen.Watching?
    reads agent`seen, agent.steeringQueue`polls, agent.followUpQueue`polls, ctx`messages, env`heard
  {
    Snapshot(newMessages, ctx.messages, agent.seen.completed, agent.seen.restarts,
             agent.steeringQueue.polls, agent.followUpQueue.polls, env.heard)
  }

  ghost predicate LoggedSoFar(log: RunLog, base: RunBase, agent: Agent, env: Environment)
    reads agent.steeringQueue`polls, agent.followUpQueue`polls, env`heard
  {
    Logging(log, base, agent.steeringQueue.polls, agent.followUpQueue.polls, env.heard)
  }

  ghost predicate Matches(config: LoopConfig, ctx: LoopContext, base: RunBase) {
    base.maxTurns == config.maxTurns && base.mode == config.toolExecution && base.tools == ctx.tools
  }

  /** The steering poll and its entry in the ledger. */
  method PollSteering(agent: Agent, env: Environment, ctx: LoopContext, config: LoopConfig, newMessages: seq<Message>,
                      ghost log0: RunLog, ghost base: RunBase)
    returns (o: Outcome<seq<Message>>, ghost log: RunLog)
    requires Calm(agent, env)
    requires Faithful(log0, base, Now(agent, env, ctx, newMessages)) && log0.pending == NO_BATCH
    modifies agent, agent.steeringQueue, agent.followUpQueue, env`script, env`settled, env`left, config
    ensures InRun(agent, env) && env.Quiet() && Accounted(env, o) && agent.seen == old(agent.seen)
    ensures Faithful(log, base, Now(agent, env, ctx, newMessages))
    ensures log == log0.(pending := Batch(old(SteeringOffer(agent, config)), None))
    ensures !config.skipInitialSteeringPoll
    ensures o.Done? ==> o.value == log.pending.Messages() && |env.script| < |old(env.script)|
  {
    hide Faithful, Governed, Front, Agent.Valid;
    ghost var polled, now := None, Now(agent, env, ctx, newMessages);
    o, polled := GetSteeringMessages(agent, env, config);
    FaithfulSteering(log0, base, now, polled);
    log := log0.(pending := Batch(polled, None));
  }

  /** The follow-up poll and its entry in the ledger. */
  method PollFollowUps(agent: Agent, env: Environment, ctx: LoopContext, newMessages: seq<Message>,
                       ghost log0: RunLog, ghost base: RunBase)
    returns (o: Outcome<seq<Message>>, ghost log: RunLog)
    requires Calm(agent, env)
    requires Faithful(log0, base, Now(agent, env, ctx, newMessages))
    requires log0.pending.followUps.None? && log0.pending.From(Steering) == []
    modifies agent, agent.steeringQueue, agent.followUpQueue, env`script, env`settled, env`left
    ensures InRun(agent, env) && env.Quiet() && Accounted(env, o) && agent.seen == old(agent.seen)
    ensures Faithful(log, base, Now(agent, env, ctx, newMessages))
    ensures log == log0.(pending := log0.pending.(followUps := Some(old(FollowUpOffer(agent)))))
    ensures o.Done? ==> o.value == log.pending.From(FollowUps) && |env.script| < |old(env.script)|
  {
    hide Faithful, Governed, Front, Agent.Valid;
    ghost var polled, now := FollowUpOffer(agent), Now(agent, env, ctx, newMessages);
    o, polled := GetFollowUpMessages(agent, env);
    FaithfulFollowUps(log0, base, now, polled);
    log := log0.(pending := log0.pending.(followUps := Some(polled)));
  }

  /** One turn and its entry in the log. */
  method RunLoggedTurn(agent: Agent, env: Environment, ctx: LoopContext, config: LoopConfig, firstTurn: bool,
                       pending: seq<Message>, newMessages: seq<Message>, ghost log: RunLog, ghost base: RunBase)
    returns (o: Outcome<AssistantMessage>, newMessages': seq<Message>, ghost turn: Turn)
    requires Calm(agent, env) && AtTurn(agent.seen, firstTurn)
    requires log.pending.Messages() == pending && MayFollow(log.turns, log.pending, base.skip)
    requires Matches(config, ctx, base) && !AtCap(config.maxTurns, |log.turns|)
    requires Faithful(log, base, Now(agent, env, ctx, newMessages))
    modifies agent, agent.steeringQueue, agent.followUpQueue, env, ctx
    ensures Kept(agent, env) && Accounted(env, o) && LoggedSoFar(log, base, agent, env)
    ensures o.Done? ==>
      && env.Quiet() && |env.script| < |old(env.script)|
      && Faithful(Logged(log, turn), base, Now(agent, env, ctx, newMessages'))
      && turn.assistant == o.value && turn.batch == log.pending
      && AtTurn(agent.seen, false)
  {
    hide Governed, Faithful, Logging, MayFollow, Turn.Heard, Turn.WellAnswered, Turn.Remembered, Stale, TurnOpen;
    newMessages' := newMessages;
    ghost var now := Now(agent, env, ctx, newMessages);
    FaithfulLogging(log, base, now);
    var result;
    result, turn := RunTurn(agent, env, ctx, config.toolExecution, firstTurn, pending, log.pending);
    LoggingHears(log, base, now.steered, now.followed, now.heard, env.heard);
    var turnResult :- result;
    FaithfulTurn(log, base, now, turn);
    newMessages' := newMessages + pending + [turnResult.message] + turnResult.toolResults;
    TurnSums(turn, [], newMessages);
    assert Now(agent, env, ctx, newMessages') == AfterTurn(now, turn, base.mode);
    o := Done(turnResult.message);
  }

  /** Announce the end of the run. */
  method EndRun(agent: Agent, env: Environment, ctx: LoopContext, newMessages: seq<Message>, ghost log: RunLog,
                ghost base: RunBase)
    returns (o: Outcome<seq<Message>>)
    requires Calm(agent, env) && TurnClosed(agent.seen, newMessages, agent.seen.restarts)
    requires Faithful(log, base, Now(agent, env, ctx, newMessages))
    modifies agent, agent.steeringQueue, agent.followUpQueue
    modifies env`script, env`settled, env`left, env`failures
    ensures Kept(agent, env) && env.Quiet() && Accounted(env, o)
    ensures o.Done? ==>
      && o.value == newMessages
      && Faithful(log, base, Now(agent, env, ctx, newMessages))
      && agent.seen.phase == Over && agent.seen.open.None?
  {
    hide Emitted, Governed, Faithful;
    var _ :- Emit(agent, env, AgentEnd(newMessages));
    o := Done(newMessages);
  }

  /** The state in which both loops re-enter. */
  ghost predicate AtRound(log: RunLog, base: RunBase, agent: Agent, env: Environment, ctx: LoopContext,
                          newMessages: seq<Message>, pending: seq<Message>, turnCount: nat, firstTurn: bool,
                          hasMoreToolCalls: bool)
    reads agent`seen, agent.steeringQueue`polls, agent.followUpQueue`polls, ctx`messages, env`heard
  {
    && AtTurn(agent.seen, firstTurn)
    && Faithful(log, base, Now(agent, env, ctx, newMessages))
    && pending == log.pending.Messages() && turnCount == |log.turns| && firstTurn == (turnCount == 0)
    && RoundReady(log, hasMoreToolCalls, base.skip)
  }

  /** A run has ended in one of the loop's three ways. */
  ghost predicate Ended(log: RunLog, base: RunBase, agent: Agent, env: Environment, ctx: LoopContext,
                        newMessages: seq<Message>)
    reads agent`seen, agent.steeringQueue`polls, agent.followUpQueue`polls, ctx`messages, env`heard
  {
    && agent.seen.Watching? && agent.seen.phase == Over && agent.seen.open.None?
    && Faithful(log, base, Now(agent, env, ctx, newMessages))
    && log.Complete(base.maxTurns, base.skip)
  }

  datatype RoundResult =
    | Stopped(newMessages: seq<Message>)
    | Continue(newMessages: seq<Message>, hasMoreToolCalls: bool, pendingMessages: seq<Message>)

  /** The exit of the loop that the log records as `exit`. */
  method Exit(agent: Agent, env: Environment, ctx: LoopContext, newMessages: seq<Message>, exit: Exit,
              ghost log0: RunLog, ghost base: RunBase)
    returns (o: Outcome<RoundResult>, ghost log: RunLog)
    requires Calm(agent, env) && AtTurn(agent.seen, false) && base.prompts == base.completed
    requires Faithful(log0, base, Now(agent, env, ctx, newMessages))
    requires log0.(exit := exit).Complete(base.maxTurns, base.skip)
    modifies agent, agent.steeringQueue, agent.followUpQueue
    modifies env`script, env`settled, env`left, env`failures
    ensures InRun(agent, env) && env.Quiet() && Accounted(env, o)
    ensures LoggedSoFar(log, base, agent, env) && log == log0.(exit := exit)
    ensures o.Done? ==> o.value.Stopped? && Ended(log, base, agent, env, ctx, o.value.newMessages)
  {
    hide Governed, Faithful, Logging, RunLog.Complete;
    log := log0.(exit := exit);
    ghost var now := Now(agent, env, ctx, newMessages);
    FaithfulExit(log0, base, now, exit);
    FaithfulCompleted(log, base, now);
    FaithfulLogging(log, base, now);
    var all :- EndRun(agent, env, ctx, newMessages, log, base);
    o := Done(Stopped(all));
  }

  /** After a turn: a failed response ends the run, otherwise steering is polled. */
  method AfterResponse(agent: Agent, env: Environment, ctx: LoopContext, config: LoopConfig, newMessages: seq<Message>,
                       message: AssistantMessage, turnCount: nat, ghost log0: RunLog, ghost turn: Turn,
                       ghost base: RunBase)
    returns (o: Outcome<RoundResult>, ghost log: RunLog)
    requires Calm(agent, env) && AtTurn(agent.seen, false) && base.prompts == base.completed
    requires Faithful(Logged(log0, turn), base, Now(agent, env, ctx, newMessages))
    requires turn.assistant == message && turnCount == |log0.turns| && !config.skipInitialSteeringPoll
    modifies agent, agent.steeringQueue, agent.followUpQueue, config
    modifies env`script, env`settled, env`left, env`failures
    ensures InRun(agent, env) && env.Quiet() && Accounted(env, o) && LoggedSoFar(log, base, agent, env)
    ensures o.Done? && o.value.Stopped? ==> Ended(log, base, agent, env, ctx, o.value.newMessages)
    ensures o.Done? && o.value.Continue? ==>
      && |env.script| < |old(env.script)|
      && AtRound(log, base, agent, env, ctx, o.value.newMessages, o.value.pendingMessages, turnCount + 1, false,
                 o.value.hasMoreToolCalls)
    ensures log.turns == log0.turns + [turn]
    ensures message.stop in {Error, Aborted} ==> !o.Done? || o.value.Stopped?
    ensures message.stop in {Error, Aborted} ==> log.exit == Errored && log.pending == NO_BATCH
    ensures message.stop !in {Error, Aborted} ==> log.pending == Batch(old(SteeringOffer(agent, config)), None)
    ensures message.stop !in {Error, Aborted} && o.Done? ==> o.value.Continue?
    ensures !config.skipInitialSteeringPoll
  {
    hide Governed, Faithful, Logging, RoundReady, ToolCalls;
    log := Logged(log0, turn);
    if Failed(message) {
      o, log := Exit(agent, env, ctx, newMessages, Errored, log, base);
      return;
    }
    var poll;
    poll, log := PollSteering(agent, env, ctx, config, newMessages, log, base);
    FaithfulLogging(log, base, Now(agent, env, ctx, newMessages));
    var pending :- poll;
    RoundAfterTurn(log0, turn, log.pending.steering.value, base.skip);
    o := Done(Continue(newMessages, |ToolCalls(message.content)| > 0, pending));
  }

  /** The body of the inner loop. */
  method InnerRound(agent: Agent, env: Environment, ctx: LoopContext, config: LoopConfig, newMessages: seq<Message>,
                    pendingMessages: seq<Message>, turnCount: nat, firstTurn: bool, hasMoreToolCalls: bool,
                    ghost log0: RunLog, ghost base: RunBase)
    returns (o: Outcome<RoundResult>, ghost log: RunLog)
    requires Calm(agent, env) && (hasMoreToolCalls || |pendingMessages| > 0)
    requires AtRound(log0, base, agent, env, ctx, newMessages, pendingMessages, turnCount, firstTurn, hasMoreToolCalls)
    requires Matches(config, ctx, base) && base.prompts == base.completed && !config.skipInitialSteeringPoll
    modifies agent, agent.steeringQueue, agent.followUpQueue, env, ctx, config
    ensures InRun(agent, env) && Accounted(env, o) && LoggedSoFar(log, base, agent, env) && (o.Done? ==> env.Quiet())
    ensures o.Done? && o.value.Stopped? ==> Ended(log, base, agent, env, ctx, o.value.newMessages)
    ensures o.Done? && o.value.Continue? ==>
      && |env.script| < |old(env.script)|
      && AtRound(log, base, agent, env, ctx, o.value.newMessages, o.value.pendingMessages, turnCount + 1, false,
                 o.value.hasMoreToolCalls)
    ensures First(log) == First(log0) && (log0.turns != [] ==> log.turns != []) && !config.skipInitialSteeringPoll
  {
    hide Faithful, Logging, Turn.Calls, TurnOpen, TurnClosed, Governed;
    log := log0;
    FaithfulLogging(log, base, Now(agent, env, ctx, newMessages));
    if AtCap(config.maxTurns, turnCount) {
      o, log := Exit(agent, env, ctx, newMessages, Capped, log, base);
      return;
    }
    var message, newMessages';
    ghost var turn;
    message, newMessages', turn :-
      RunLoggedTurn(agent, env, ctx, config, firstTurn, pendingMessages, newMessages, log, base);
    o, log := AfterResponse(agent, env, ctx, config, newMessages', message, turnCount, log0, turn, base);
  }

  /** The poll before the first round. */
  method FirstPoll(agent: Agent, env: Environment, ctx: LoopContext, config: LoopConfig, prompts: seq<Message>,
                   ghost base: RunBase)
    returns (o: Outcome<seq<Message>>, ghost log: RunLog)
    requires Calm(agent, env) && TurnOpen(agent.seen)
    requires base.prompts == prompts && Now(agent, env, ctx, prompts) == AtStart(base)
    requires base.skip == config.skipInitialSteeringPoll
    modifies agent, agent.steeringQueue, agent.followUpQueue, env`script, env`settled, env`left, config
    ensures InRun(agent, env) && env.Quiet() && Accounted(env, o) && LoggedSoFar(log, base, agent, env)
    ensures o.Done? ==> AtRound(log, base, agent, env, ctx, prompts, o.value, 0, true, true)
    ensures log == EMPTY_LOG.(pending := Batch(old(SteeringOffer(agent, config)), None))
    ensures !config.skipInitialSteeringPoll
  {
    hide Governed, Faithful, Logging;
    FaithfulStart(base);
    o, log := PollSteering(agent, env, ctx, config, prompts, EMPTY_LOG, base);
    FaithfulLogging(log, base, Now(agent, env, ctx, prompts));
  }

  /** The follow-up poll when the agent would otherwise stop. */
  method OuterRound(agent: Agent, env: Environment, ctx: LoopContext, newMessages: seq<Message>,
                    turnCount: nat, firstTurn: bool, ghost log0: RunLog, ghost base: RunBase)
    returns (o: Outcome<RoundResult>, ghost log: RunLog)
    requires Calm(agent, env) && base.prompts == base.completed
    requires AtRound(log0, base, agent, env, ctx, newMessages, [], turnCount, firstTurn, false)
    modifies agent, agent.steeringQueue, agent.followUpQueue
    modifies env`script, env`settled, env`left, env`failures
    ensures InRun(agent, env) && env.Quiet() && Accounted(env, o) && LoggedSoFar(log, base, agent, env)
    ensures o.Done? && o.value.Stopped? ==> Ended(log, base, agent, env, ctx, o.value.newMessages)
    ensures o.Done? && o.value.Continue? ==>
      && |env.script| < |old(env.script)|
      && AtRound(log, base, agent, env, ctx, newMessages, o.value.pendingMessages, turnCount, firstTurn, true)
      && o.value.newMessages == newMessages
    ensures log.turns == log0.turns && log.turns != []
    ensures log.pending == log0.pending.(followUps := Some(old(FollowUpOffer(agent))))
  {
    hide Governed, Faithful, Logging;
    var poll;
    poll, log := PollFollowUps(agent, env, ctx, newMessages, log0, base);
    FaithfulLogging(log, base, Now(agent, env, ctx, newMessages));
    RoundAfterFollowUps(log0, log.pending.followUps.value, base.skip);
    var followUpMessages :- poll;
    if |followUpMessages| > 0 {
      o := Done(Continue(newMessages, true, followUpMessages));
      return;
    }
    o, log := Exit(agent, env, ctx, newMessages, Finished, log, base);
  }

  /** The main loop. While nothing that it awaits fails, it returns, or goes on until the
      observation ends. */
  method RunLoop(agent: Agent, env: Environment, ctx: LoopContext, prompts: seq<Message>, config: LoopConfig,
                 ghost base: RunBase)
    returns (o: Outcome<seq<Message>>, ghost log: RunLog)
    requires Calm(agent, env) && TurnOpen(agent.seen) && base.prompts == prompts == base.completed
    requires Now(agent, env, ctx, prompts) == AtStart(base) && Matches(config, ctx, base)
    requires base.skip == config.skipInitialSteeringPoll
    modifies agent, agent.steeringQueue, agent.followUpQueue, env, ctx, config
    ensures InRun(agent, env) && Accounted(env, o) && LoggedSoFar(log, base, agent, env)
    ensures o.Done? ==> env.Quiet() && Ended(log, base, agent, env, ctx, o.value)
    ensures env.failures == old(env.failures) ==> o.Done? || env.script == []
    ensures First(log) == Batch(old(SteeringOffer(agent, config)), None)
  {
    hide Governed, Matches, LoggedSoFar, AtRound, Ended, SteeringOffer, FollowUpOffer, AtTurn, TurnOpen;
    var firstTurn := true;
    var turnCount: nat := 0;
    var newMessages := prompts;
    var pendingMessages;
    ghost var first := Batch(SteeringOffer(agent, config), None);
    pendingMessages, log :- FirstPoll(agent, env, ctx, config, prompts, base);

    // continues when queued follow-up messages arrive after the agent would stop
    while true
      invariant InRun(agent, env) && env.Quiet() && env.failures == old(env.failures)
      invariant AtRound(log, base, agent, env, ctx, newMessages, pendingMessages, turnCount, firstTurn, true)
      invariant First(log) == first && !config.skipInitialSteeringPoll
      decreases |env.script|
    {
      var hasMoreToolCalls := true;

      // processes tool calls and steering messages
      while hasMoreToolCalls || |pendingMessages| > 0
        invariant InRun(agent, env) && env.Quiet() && env.failures == old(env.failures)
        invariant AtRound(log, base, agent, env, ctx, newMessages, pendingMessages, turnCount, firstTurn,
                          hasMoreToolCalls)
        invariant First(log) == first && !config.skipInitialSteeringPoll
        decreases |env.script|
      {
        var round;
        ghost var log0 := log;
        round, log :-
          InnerRound(agent, env, ctx, config, newMessages, pendingMessages, turnCount, firstTurn, hasMoreToolCalls,
                     log0, base);
        if round.Stopped? {
          o := Done(round.newMessages);
          return;
        }
        turnCount, firstTurn := turnCount + 1, false;
        newMessages, hasMoreToolCalls, pendingMessages :=
          round.newMessages, round.hasMoreToolCalls, round.pendingMessages;
      }

      var round;
      round, log :- OuterRound(agent, env, ctx, newMessages, turnCount, firstTurn, log, base);
      if round.Stopped? {
        o := Done(round.newMessages);
        return;
      }
      pendingMessages := round.pendingMessages;
    }
  }
}
