/**
 * Everything outside the loop: users of the agent, the provider, tools, hooks and listeners.
 * A run is suspended in the environment at every `await`.
 */
module AgentEnvironment {
  import opened Wrappers
  import opened AgentEvents
  import opened AgentState

  /** How a tool's `execute` ends; `Crashed` when a listener of its updates failed. */
  datatype Execution = Returned(body: string) | Raised(error: string) | Crashed(error: string)

  /** What other code may do while a run is suspended, or between runs. */
  datatype Action =
    | Steer(message: Message)
    | FollowUp(message: Message)
    | ClearSteering
    | ClearFollowUp
    | SetSteeringMode(mode: QueueMode)
    | SetFollowUpMode(mode: QueueMode)
    | AbortRun
    | ResetAgent
    | AssignMessages(messages: seq<Message>)
    | ReportProgress(tool: nat)                 // a tool of this run reports a partial result
    | Settle(tool: nat, execution: Execution)   // a tool of this run finishes
    | ReportLate(tool: nat)                     // a tool that a failed run left behind reports
    | FinishLate(tool: nat)                     // or finishes

  function SteeringAfter(action: Action, queued: seq<Message>): seq<Message> {
    match action
    case Steer(m) => queued + [m]
    case ClearSteering => []
    case ResetAgent => []
    case _ => queued
  }

  function FollowUpsAfter(action: Action, queued: seq<Message>): seq<Message> {
    match action
    case FollowUp(m) => queued + [m]
    case ClearFollowUp => []
    case ResetAgent => []
    case _ => queued
  }

  function TranscriptAfter(action: Action, messages: seq<Message>): seq<Message> {
    match action
    case ResetAgent => []
    case AssignMessages(ms) => ms
    case _ => messages
  }

  /** The mode of a queue. */
  function ModeAfter(queue: Source, action: Action, mode: QueueMode): QueueMode {
    match action
    case SetSteeringMode(m) => if queue == Steering then m else mode
    case SetFollowUpMode(m) => if queue == FollowUps then m else mode
    case _ => mode
  }

  /** What the actions of users do to the queues, their modes and the transcript, one by one. */
  lemma UserActions(action: Action, steering: seq<Message>, followUps: seq<Message>, transcript: seq<Message>,
                    mode: QueueMode)
    ensures
      SteeringAfter(action, steering) ==
      (if action.Steer? then steering + [action.message]
       else if action in {ClearSteering, ResetAgent} then [] else steering)
    ensures
      FollowUpsAfter(action, followUps) ==
      (if action.FollowUp? then followUps + [action.message]
       else if action in {ClearFollowUp, ResetAgent} then [] else followUps)
    ensures
      TranscriptAfter(action, transcript) ==
      (if action.AssignMessages? then action.messages else if action.ResetAgent? then [] else transcript)
    ensures ModeAfter(Steering, action, mode) == if action.SetSteeringMode? then action.mode else mode
    ensures ModeAfter(FollowUps, action, mode) == if action.SetFollowUpMode? then action.mode else mode
  {
  }

  /** What progress, ends and late reports of tools do: an unsettled execution reports and settles
      once, one left behind reports late until it has finished, and any other report is nothing. */
  lemma ToolActions(i: nat, execution: Execution, running: seq<ToolCall>, settled: seq<Option<Execution>>,
                    left: seq<ToolCall>)
    requires |running| == |settled|
    ensures
      Reports(ReportProgress(i), running, settled, left) ==
      (if i < |running| && settled[i].None? then [Own(ToolUpdate(running[i].id, running[i].name))] else [])
    ensures
      Reports(ReportLate(i), running, settled, left) ==
      (if i < |left| then [Late(ToolUpdate(left[i].id, left[i].name))] else [])
    ensures
      SettledAfter(Settle(i, execution), settled) ==
      (if i < |settled| && settled[i].None? then settled[i := Some(execution)] else settled)
    ensures LeftAfter(FinishLate(i), left) == if i < |left| then left[..i] + left[i + 1..] else left
    ensures forall a: Action | !a.ReportProgress? && !a.ReportLate? :: Reports(a, running, settled, left) == []
    ensures forall a: Action | !a.Settle? :: SettledAfter(a, settled) == settled
    ensures forall a: Action | !a.FinishLate? :: LeftAfter(a, left) == left
  {
  }

  /** Tools touch neither queues nor transcript. */
  lemma OnlyTools(action: Action, messages: seq<Message>, mode: QueueMode)
    requires action.ReportProgress? || action.Settle? || action.ReportLate?
    ensures SteeringAfter(action, messages) == FollowUpsAfter(action, messages) == messages
    ensures TranscriptAfter(action, messages) == messages
    ensures ModeAfter(Steering, action, mode) == ModeAfter(FollowUps, action, mode) == mode
  {
  }

  /** What listeners receive while a run is active. */
  function Reports(action: Action, running: seq<ToolCall>, settled: seq<Option<Execution>>,
                   left: seq<ToolCall>): seq<Delivery>
  {
    match action
    case ReportProgress(i) =>
      if i < |running| && i < |settled| && settled[i].None? then [Own(ToolUpdate(running[i].id, running[i].name))]
      else []
    case ReportLate(i) =>
      if i < |left| then [Late(ToolUpdate(left[i].id, left[i].name))] else []
    case _ => []
  }

  /** A running tool settles once. */
  function SettledAfter(action: Action, settled: seq<Option<Execution>>): seq<Option<Execution>> {
    match action
    case Settle(i, execution) => if i < |settled| && settled[i].None? then settled[i := Some(execution)] else settled
    case _ => settled
  }

  function LeftAfter(action: Action, left: seq<ToolCall>): (r: seq<ToolCall>)
    ensures left == [] ==> r == []
  {
    match action
    case FinishLate(i) => if i < |left| then left[..i] + left[i + 1..] else left
    case _ => left
  }

  function LeftAfterAll(actions: seq<Action>, left: seq<ToolCall>): seq<ToolCall> {
    if actions == [] then left
    else LeftAfter(actions[|actions| - 1], LeftAfterAll(actions[..|actions| - 1], left))
  }

  function SettledAfterAll(actions: seq<Action>, settled: seq<Option<Execution>>): seq<Option<Execution>> {
    if actions == [] then settled
    else SettledAfter(actions[|actions| - 1], SettledAfterAll(actions[..|actions| - 1], settled))
  }

  /** What listeners receive while these actions happen. */
  function ReportsAll(actions: seq<Action>, running: seq<ToolCall>, settled: seq<Option<Execution>>,
                      left: seq<ToolCall>): seq<Delivery>
  {
    if actions == [] then []
    else
      var before := actions[..|actions| - 1];
      ReportsAll(before, running, settled, left) +
      Reports(actions[|actions| - 1], running, SettledAfterAll(before, settled), LeftAfterAll(before, left))
  }

  /** The calls whose executions have not settled. */
  function InFlight(running: seq<ToolCall>, settled: seq<Option<Execution>>): seq<ToolCall>
    requires |running| == |settled|
  {
    if running == [] then []
    else (if settled[0].None? then [running[0]] else []) + InFlight(running[1..], settled[1..])
  }

  datatype StreamEvent = Start(partial: AssistantMessage) | Delta(partial: AssistantMessage) | Finish

  datatype StreamAnswer = Yield(event: StreamEvent) | Closed

  /** The verdict of argument preparation, validation and the `beforeToolCall` hook. */
  datatype Gate = Admit | Invalid(error: string) | Blocked(reason: Option<string>)

  /** The answer of the `afterToolCall` hook. */
  datatype After = Keep | Override(body: Option<string>, isError: Option<bool>)

  /** One resumption of a suspended run: what others did meanwhile, and the answer the
      awaited party gives; each `await` reads the fields that concern it. */
  datatype Tick = Tick(
    actions: seq<Action>,
    fails: Option<string>,
    stream: StreamAnswer,
    final: AssistantMessage,
    gate: Gate,
    after: After)

  /** What the environment has told a run: events of a response, its final message, the gate of
      a call, the outcome of its execution, the answer of the hook after it. */
  datatype Answer =
    | Streamed(event: StreamEvent)
    | Final(message: Message)
    | Gated(gate: Gate)
    | Executed(call: ToolCall, execution: Execution)
    | Hooked(after: After)

  // ---------------------------------------------------------------- modes during a run

  /** A queue when a run begins. */
  datatype QueueStart = QueueStart(mode: QueueMode, polls: seq<Poll>)

  datatype Beginning = Beginning(script: seq<Tick>, steering: QueueStart, followUps: QueueStart)

  /** The queue is put into mode "all". */
  predicate Relaxing(queue: Source, action: Action) {
    match queue
    case Steering => action == SetSteeringMode(All)
    case FollowUps => action == SetFollowUpMode(All)
  }

  predicate Steady(queue: Source, tick: Tick) {
    forall a <- tick.actions :: !Relaxing(queue, a)
  }

  /** Nobody puts the queue into mode "all" while these ticks happen. */
  predicate AllSteady(queue: Source, ticks: seq<Tick>) {
    forall t <- ticks :: Steady(queue, t)
  }

  /** All these drains found the queue in one-at-a-time mode. */
  predicate OneByOne(polls: seq<Poll>) {
    forall p <- polls :: p.mode == OneAtATime
  }

  /** A queue that was in one-at-a-time mode at the beginning still is, and has been at every
      drain since, unless somebody has put it into the other mode. */
  predicate Disciplined(queue: Source, start: QueueStart, ticks: seq<Tick>, mode: QueueMode, polls: seq<Poll>) {
    && start.polls <= polls
    && (start.mode == OneAtATime && AllSteady(queue, ticks) ==>
          mode == OneAtATime && OneByOne(polls[|start.polls|..]))
  }

  predicate EndsWith<T(==)>(whole: seq<T>, rest: seq<T>) {
    |rest| <= |whole| && whole[|whole| - |rest|..] == rest
  }

  /** The ticks that have happened. */
  function Past(whole: seq<Tick>, rest: seq<Tick>): seq<Tick>
    requires |rest| <= |whole|
  {
    whole[..|whole| - |rest|]
  }

  /** Both queues are disciplined since the run began. */
  ghost predicate Ruled(began: Beginning, script: seq<Tick>, steeringMode: QueueMode, steered: seq<Poll>,
                        followUpMode: QueueMode, followed: seq<Poll>)
  {
    forall k: nat {:trigger Key(k)} :: Key(k) ==>
      && EndsWith(began.script, script)
      && Disciplined(Steering, began.steering, Past(began.script, script), steeringMode, steered)
      && Disciplined(FollowUps, began.followUps, Past(began.script, script), followUpMode, followed)
  }

  /** This tick is the last one that has happened. */
  predicate Latest(began: Beginning, script: seq<Tick>, tick: Tick) {
    |script| < |began.script| && Past(began.script, script)[|began.script| - |script| - 1] == tick
  }

  lemma RuledAtFirst(script: seq<Tick>, steeringMode: QueueMode, steered: seq<Poll>, followUpMode: QueueMode,
                     followed: seq<Poll>)
    ensures Ruled(Beginning(script, QueueStart(steeringMode, steered), QueueStart(followUpMode, followed)), script,
                  steeringMode, steered, followUpMode, followed)
  {
  }

  lemma RuledPast(began: Beginning, script: seq<Tick>, steeringMode: QueueMode, steered: seq<Poll>,
                  followUpMode: QueueMode, followed: seq<Poll>)
    requires Ruled(began, script, steeringMode, steered, followUpMode, followed)
    ensures |script| <= |began.script| && Past(began.script, script) + script == began.script
  {
    assert Key(0);
  }

  lemma RuledTick(began: Beginning, script: seq<Tick>, steeringMode: QueueMode, steered: seq<Poll>,
                  followUpMode: QueueMode, followed: seq<Poll>)
    requires script != [] && Ruled(began, script, steeringMode, steered, followUpMode, followed)
    ensures Ruled(began, script[1..], steeringMode, steered, followUpMode, followed)
    ensures Latest(began, script[1..], script[0])
  {
    hide Steady, OneByOne;
    assert Key(0);
    var whole := began.script;
    assert whole[|whole| - |script|] == script[0];
    assert Past(whole, script[1..]) == Past(whole, script) + [script[0]];
  }

  lemma RuledAction(began: Beginning, script: seq<Tick>, tick: Tick, action: Action, steeringMode: QueueMode,
                    steered: seq<Poll>, followUpMode: QueueMode, followed: seq<Poll>)
    requires Ruled(began, script, steeringMode, steered, followUpMode, followed)
    requires Latest(began, script, tick) && action in tick.actions
    ensures Ruled(began, script, ModeAfter(Steering, action, steeringMode), steered,
                  ModeAfter(FollowUps, action, followUpMode), followed)
  {
    hide OneByOne;
    assert Key(0);
    assert tick in Past(began.script, script);
  }

  lemma RuledPoll(began: Beginning, script: seq<Tick>, steeringMode: QueueMode, steered: seq<Poll>,
                  followUpMode: QueueMode, followed: seq<Poll>, found: seq<Message>)
    requires Ruled(began, script, steeringMode, steered, followUpMode, followed)
    ensures Ruled(began, script, steeringMode, steered + [Poll(steeringMode, found)], followUpMode, followed)
    ensures Ruled(began, script, steeringMode, steered, followUpMode, followed + [Poll(followUpMode, found)])
  {
    hide AllSteady;
    assert Key(0);
    OneMore(began.steering.polls, steered, Poll(steeringMode, found));
    OneMore(began.followUps.polls, followed, Poll(followUpMode, found));
  }

  lemma OneMore(start: seq<Poll>, polls: seq<Poll>, poll: Poll)
    requires start <= polls
    ensures start <= polls + [poll]
    ensures OneByOne((polls + [poll])[|start|..]) <==> OneByOne(polls[|start|..]) && poll.mode == OneAtATime
  {
    assert (polls + [poll])[|start|..] == polls[|start|..] + [poll];
    assert poll in polls[|start|..] + [poll];
    assert forall p <- polls[|start|..] :: p in polls[|start|..] + [poll];
  }

  // ---------------------------------------------------------------- the environment

  class Environment {
    var script: seq<Tick>                 // what happens at the coming awaits: finite, as every observation is
    var running: seq<ToolCall>            // tool executions started in this phase of the run
    var settled: seq<Option<Execution>>   // and how each has ended, if it has
    var left: seq<ToolCall>               // executions in flight that failed runs left behind
    ghost var began: Beginning            // how things stood when the current run began
    ghost var heard: seq<Answer>          // everything answered so far
    ghost var failures: seq<string>       // the exceptions thrown by awaited parties

    constructor (script: seq<Tick>)
      ensures this.script == script && Quiet() && left == [] && heard == [] && failures == []
    {
      this.script, running, settled, left, heard, failures := script, [], [], [], [], [];
      began := Beginning(script, QueueStart(All, []), QueueStart(All, []));
    }

    /** No execution of the current run is in flight. */
    ghost predicate Quiet()
      reads `running, `settled
    {
      |running| == |settled| && forall i | 0 <= i < |settled| :: settled[i].Some?
    }

    /** The executions in flight are among those the observer knows to be running. */
    ghost predicate Consistent(o: Observer)
      reads `running, `settled
    {
      && |running| == |settled|
      && o.Watching?
      && forall i | 0 <= i < |settled| && settled[i].None? :: o.phase == InTurn && Running(o, running[i].id)
    }

    /** Users of the agent, and executions left behind that finish: they never touch the event
        history of a run. */
    method Interfere(agent: Agent, action: Action)
      requires agent.Valid() && !action.ReportProgress? && !action.Settle? && !action.ReportLate?
      modifies agent`activeRun, agent`messages, agent`isStreaming, agent`streamingMessage, agent`pendingToolCalls
      modifies agent`errorMessage, agent`disturbed, agent.steeringQueue, agent.followUpQueue, this`left
      ensures agent.Valid() && agent.activeRun.Some? == old(agent.activeRun).Some?
      ensures old(agent.Idle()) ==> agent.Idle()
      ensures agent.steeringQueue.polls == old(agent.steeringQueue.polls)
      ensures agent.followUpQueue.polls == old(agent.followUpQueue.polls)
      ensures agent.steeringQueue.mode == ModeAfter(Steering, action, old(agent.steeringQueue.mode))
      ensures agent.followUpQueue.mode == ModeAfter(FollowUps, action, old(agent.followUpQueue.mode))
      ensures agent.steeringQueue.messages == SteeringAfter(action, old(agent.steeringQueue.messages))
      ensures agent.followUpQueue.messages == FollowUpsAfter(action, old(agent.followUpQueue.messages))
      ensures agent.messages == TranscriptAfter(action, old(agent.messages))
      ensures left == LeftAfter(action, old(left))
      ensures old(agent.disturbed) ==> agent.disturbed
    {
      hide AllTaken;
      match action {
        case Steer(m) => agent.steeringQueue.Enqueue(m);
        case FollowUp(m) => agent.followUpQueue.Enqueue(m);
        case ClearSteering => agent.steeringQueue.Clear();
        case ClearFollowUp => agent.followUpQueue.Clear();
        case SetSteeringMode(mode) => agent.steeringQueue.SetMode(mode);
        case SetFollowUpMode(mode) => agent.followUpQueue.SetMode(mode);
        case AbortRun => agent.Abort();
        case ResetAgent => agent.Reset();
        case AssignMessages(ms) => agent.SetMessages(ms);
        case FinishLate(i) => left := LeftAfter(action, left);
      }
    }

    /** The run is over, or has failed: its executions in flight go on without it. */
    method Leave()
      requires |running| == |settled|
      modifies `running, `settled, `left
      ensures Quiet() && left == old(left) + InFlight(old(running), old(settled))
    {
      left := left + InFlight(running, settled);
      running, settled := [], [];
    }

    /** A running tool reports progress. */
    method Report(agent: Agent, call: ToolCall)
      requires Active(agent, this)
      requires agent.seen.phase == InTurn && Running(agent.seen, call.id)
      modifies agent`messages, agent`streamingMessage, agent`pendingToolCalls, agent`errorMessage
      modifies agent`trace, agent`seen, agent`reduced, agent`delivered
      ensures agent.Valid() && agent.seen == old(agent.seen) && agent.messages == old(agent.messages)
      ensures agent.trace == old(agent.trace) + [ToolUpdate(call.id, call.name)]
      ensures agent.delivered == old(agent.delivered) + [Own(ToolUpdate(call.id, call.name))]
    {
      agent.ReduceEvent(ToolUpdate(call.id, call.name));
    }

    /** Progress and end of the executions of this run. */
    method PerformTool(agent: Agent, action: Action)
      requires Active(agent, this)
      requires action.ReportProgress? || action.Settle?
      modifies this`settled, agent`messages, agent`streamingMessage, agent`pendingToolCalls, agent`errorMessage
      modifies agent`trace, agent`seen, agent`reduced, agent`delivered
      ensures agent.Valid() && Consistent(agent.seen) && agent.seen == old(agent.seen)
      ensures old(Quiet()) ==> Quiet() && agent.trace == old(agent.trace)
      ensures agent.messages == old(agent.messages)
      ensures agent.delivered == old(agent.delivered) + Reports(action, running, old(settled), left)
      ensures settled == SettledAfter(action, old(settled))
    {
      hide AllTaken, Count, Reduce, Step, Agent.Recorded;
      match action {
        case ReportProgress(i) =>
          if i < |settled| && settled[i].None? {
            Report(agent, running[i]);
          }
        case Settle(i, execution) =>
          settled := SettledAfter(action, settled);
      }
    }

    /** One action during a run. A late report goes to the listeners of the active run. */
    method Perform(agent: Agent, action: Action)
      requires Active(agent, this)
      modifies this`settled, this`left, agent, agent.steeringQueue, agent.followUpQueue
      ensures agent.Valid() && agent.activeRun.Some? && Consistent(agent.seen)
      ensures agent.seen == old(agent.seen) && agent.base == old(agent.base)
      ensures old(Quiet()) ==> Quiet() && agent.trace == old(agent.trace)
      ensures agent.steeringQueue.polls == old(agent.steeringQueue.polls)
      ensures agent.followUpQueue.polls == old(agent.followUpQueue.polls)
      ensures agent.steeringQueue.mode == ModeAfter(Steering, action, old(agent.steeringQueue.mode))
      ensures agent.followUpQueue.mode == ModeAfter(FollowUps, action, old(agent.followUpQueue.mode))
      ensures agent.steeringQueue.messages == SteeringAfter(action, old(agent.steeringQueue.messages))
      ensures agent.followUpQueue.messages == FollowUpsAfter(action, old(agent.followUpQueue.messages))
      ensures agent.messages == TranscriptAfter(action, old(agent.messages))
      ensures agent.delivered == old(agent.delivered) + Reports(action, running, old(settled), old(left))
      ensures agent.late == (old(agent.late) || (action.ReportLate? && action.tool < |old(left)|))
      ensures settled == SettledAfter(action, old(settled)) && left == LeftAfter(action, old(left))
      ensures old(agent.disturbed) ==> agent.disturbed
    {
      hide Agent.Valid, Running, SteeringAfter, FollowUpsAfter, TranscriptAfter, ModeAfter;
      if action.ReportProgress? || action.Settle? || action.ReportLate? {
        OnlyTools(action, agent.steeringQueue.messages, agent.steeringQueue.mode);
        OnlyTools(action, agent.followUpQueue.messages, agent.followUpQueue.mode);
        OnlyTools(action, agent.messages, All);
        if !action.ReportLate? {
          PerformTool(agent, action);
        } else if action.tool < |left| {
          agent.ReduceLate(ToolUpdate(left[action.tool].id, left[action.tool].name));
        }
      } else {
        Interfere(agent, action);
      }
    }

    /** A run begins. */
    ghost method Begin(agent: Agent)
      modifies `began
      ensures Governed(agent, this)
      ensures began == Standing(agent, this)
    {
      var s, f := agent.steeringQueue, agent.followUpQueue;
      began := Standing(agent, this);
      RuledAtFirst(script, s.mode, s.polls, f.mode, f.polls);
    }

    /** One action of the tick that has come. */
    method PerformNext(agent: Agent, tick: Tick, action: Action, ghost governed: bool)
      requires Active(agent, this) && action in tick.actions
      requires governed ==> Governed(agent, this) && Latest(began, script, tick)
      modifies this`settled, this`left, agent, agent.steeringQueue, agent.followUpQueue
      ensures Paused(agent, this) && (governed ==> Governed(agent, this))
      ensures settled == SettledAfter(action, old(settled)) && left == LeftAfter(action, old(left))
      ensures agent.delivered == old(agent.delivered) + Reports(action, running, old(settled), old(left))
    {
      hide Reports, SteeringAfter, FollowUpsAfter, TranscriptAfter, ModeAfter, Agent.Valid, Running, Latest, Ruled;
      ghost var steering, followUps := agent.steeringQueue, agent.followUpQueue;
      if governed {
        RuledAction(began, script, tick, action, steering.mode, steering.polls, followUps.mode, followUps.polls);
      }
      Perform(agent, action);
    }

    /** Suspend until the next tick; `Cut` when the observation ends first. */
    method Await(agent: Agent) returns (o: Outcome<Tick>)
      requires Active(agent, this)
      modifies this`script, this`settled, this`left, agent, agent.steeringQueue, agent.followUpQueue
      ensures Suspended(agent, this) && !o.Threw? && (o.Cut? <==> old(script) == []) && (o.Cut? ==> script == [])
      ensures o.Done? ==> o.value == old(script)[0] && script == old(script)[1..]
      ensures o.Done? ==> HaveHappened(agent, this, o.value.actions)
    {
      hide LeftAfter, SettledAfter, Reports, Active, Latest, Ruled;
      if script == [] {
        return Cut;
      }
      ghost var governed, steering, followUps := Governed(agent, this), agent.steeringQueue, agent.followUpQueue;
      var tick := script[0];
      if governed {
        RuledTick(began, script, steering.mode, steering.polls, followUps.mode, followUps.polls);
      }
      script := script[1..];
      for k := 0 to |tick.actions|
        invariant script == old(script)[1..] && Paused(agent, this)
        invariant HaveHappened(agent, this, tick.actions[..k])
        invariant governed ==> Governed(agent, this) && Latest(began, script, tick)
      {
        assert tick.actions[..k + 1][..k] == tick.actions[..k];
        PerformNext(agent, tick, tick.actions[k], governed);
      }
      assert tick.actions[..|tick.actions|] == tick.actions;
      return Done(tick);
    }

    /** Await a party that may throw. */
    method AwaitParty(agent: Agent) returns (o: Outcome<Tick>)
      requires Active(agent, this)
      modifies this`script, this`settled, this`left, this`failures, agent, agent.steeringQueue, agent.followUpQueue
      ensures Suspended(agent, this) && Accounted(this, o) && (o.Cut? <==> old(script) == [])
      ensures !o.Cut? ==> script == old(script)[1..] && HaveHappened(agent, this, old(script)[0].actions)
      ensures o.Done? ==> o.value == old(script)[0] && o.value.fails.None?
      ensures o.Threw? ==> old(script)[0].fails == Some(o.error)
    {
      hide HaveHappened, Agent.Valid, Governed;
      var tick :- Await(agent);
      if tick.fails.Some? {
        failures := failures + [tick.fails.value];
        return Threw(tick.fails.value);
      }
      return Done(tick);
    }

    /** The next event of a response, or its end. */
    method AwaitEvent(agent: Agent) returns (o: Outcome<StreamAnswer>)
      requires Active(agent, this)
      modifies this`script, this`settled, this`left, this`failures, this`heard, agent, agent.steeringQueue
      modifies agent.followUpQueue
      ensures Suspended(agent, this) && Accounted(this, o)
      ensures o.Done? ==> old(script) != [] && o.value == old(script)[0].stream && |script| < |old(script)|
      ensures heard == old(heard) +
              (if o.Done? && o.value.Yield? && !o.value.event.Finish? then [Streamed(o.value.event)] else [])
    {
      var tick :- AwaitParty(agent);
      if tick.stream.Yield? && !tick.stream.event.Finish? {
        heard := heard + [Streamed(tick.stream.event)];
      }
      return Done(tick.stream);
    }

    method AwaitFinal(agent: Agent) returns (o: Outcome<AssistantMessage>)
      requires Active(agent, this)
      modifies this`script, this`settled, this`left, this`failures, this`heard, agent, agent.steeringQueue
      modifies agent.followUpQueue
      ensures Suspended(agent, this) && Accounted(this, o)
      ensures o.Done? ==> old(script) != [] && o.value == old(script)[0].final && |script| < |old(script)|
      ensures heard == old(heard) + (if o.Done? then [Final(o.value)] else [])
    {
      var tick :- AwaitParty(agent);
      heard := heard + [Final(tick.final)];
      return Done(tick.final);
    }

    /** What stops a call, including an exception, is an answer and not a failure. */
    method AwaitGate(agent: Agent) returns (o: Outcome<Gate>)
      requires Active(agent, this)
      modifies this`script, this`settled, this`left, this`heard, agent, agent.steeringQueue, agent.followUpQueue
      ensures Suspended(agent, this) && Accounted(this, o) && !o.Threw?
      ensures (o.Cut? <==> old(script) == []) && (!o.Cut? ==> TickTaken(agent, this))
      ensures o.Done? ==> o.value == old(script)[0].gate && |script| < |old(script)|
      ensures heard == old(heard) + (if o.Done? then [Gated(o.value)] else [])
    {
      var tick :- Await(agent);
      heard := heard + [Gated(tick.gate)];
      return Done(tick.gate);
    }

    method AwaitHook(agent: Agent) returns (o: Outcome<After>)
      requires Active(agent, this)
      modifies this`script, this`settled, this`left, this`failures, this`heard, agent, agent.steeringQueue
      modifies agent.followUpQueue
      ensures Suspended(agent, this) && Accounted(this, o)
      ensures (o.Cut? <==> old(script) == []) && (!o.Cut? ==> TickTaken(agent, this))
      ensures o.Threw? ==> old(script)[0].fails == Some(o.error)
      ensures o.Done? ==> old(script)[0].fails.None? && o.value == old(script)[0].after && |script| < |old(script)|
      ensures heard == old(heard) + (if o.Done? then [Hooked(o.value)] else [])
    {
      var tick :- AwaitParty(agent);
      heard := heard + [Hooked(tick.after)];
      return Done(tick.after);
    }

    /** Await the execution of the `k`-th call launched in this phase. */
    method AwaitExecution(agent: Agent, k: nat) returns (o: Outcome<Execution>)
      requires Active(agent, this) && k < |settled|
      modifies this`script, this`settled, this`left, this`failures, this`heard, agent, agent.steeringQueue
      modifies agent.followUpQueue
      ensures Suspended(agent, this) && Accounted(this, o)
      ensures o.Done? ==> settled[k] == Some(o.value) && !o.value.Crashed?
      ensures o.Threw? ==> settled[k] == Some(Crashed(o.error))
      ensures heard == old(heard) + (if o.Done? then [Executed(running[k], o.value)] else [])
    {
      hide Governed, HaveHappened, Agent.Valid;
      while settled[k].None?
        invariant Suspended(agent, this) && heard == old(heard) && failures == old(failures)
        decreases |script|
      {
        var _ :- Await(agent);
      }
      var execution := settled[k].value;
      if execution.Crashed? {
        failures := failures + [execution.error];
        return Threw(execution.error);
      }
      heard := heard + [Executed(running[k], execution)];
      return Done(execution);
    }
  }

  /** A run is active, and consistent with the executions it has in flight. */
  ghost predicate Active(agent: Agent, env: Environment)
    reads agent, agent.steeringQueue, agent.followUpQueue, env`running, env`settled
  {
    agent.Valid() && agent.activeRun.Some? && env.Consistent(agent.seen)
  }

  /** How things stand now. */
  ghost function Standing(agent: Agent, env: Environment): Beginning
    reads env`script, agent.steeringQueue`mode, agent.steeringQueue`polls
    reads agent.followUpQueue`mode, agent.followUpQueue`polls
  {
    Beginning(env.script, QueueStart(agent.steeringQueue.mode, agent.steeringQueue.polls),
              QueueStart(agent.followUpQueue.mode, agent.followUpQueue.polls))
  }

  /** The queues are disciplined since the run began. */
  ghost predicate Governed(agent: Agent, env: Environment)
    reads env`began, env`script, agent.steeringQueue`mode, agent.steeringQueue`polls
    reads agent.followUpQueue`mode, agent.followUpQueue`polls
  {
    Ruled(env.began, env.script, agent.steeringQueue.mode, agent.steeringQueue.polls,
          agent.followUpQueue.mode, agent.followUpQueue.polls)
  }

  /** And none is in flight. */
  ghost predicate Calm(agent: Agent, env: Environment)
    reads agent, agent.steeringQueue, agent.followUpQueue, env`running, env`settled
  {
    Active(agent, env) && env.Quiet()
  }

  // ---------------------------------------------------------------- what every await keeps

  /** What a whole run leaves alone, however far it got. With nothing left behind by failed runs,
      nothing is reported late. */
  twostate predicate Proceeded(agent: Agent, env: Environment)
    reads agent, agent.steeringQueue, agent.followUpQueue, env
  {
    && Active(agent, env)
    && agent.base == old(agent.base)
    && (old(agent.disturbed) ==> agent.disturbed)
    && |env.script| <= |old(env.script)|
    && old(env.heard) <= env.heard
    && env.began == old(env.began)
    && (old(env.left) == [] ==> env.left == [] && agent.late == old(agent.late))
  }

  /** And the discipline of its queues. */
  twostate predicate InRun(agent: Agent, env: Environment)
    reads agent, agent.steeringQueue, agent.followUpQueue, env
  {
    Proceeded(agent, env) && (old(Governed(agent, env)) ==> Governed(agent, env))
  }

  /** No queue has been drained. */
  twostate predicate Undrained(agent: Agent)
    reads agent.steeringQueue`polls, agent.followUpQueue`polls
  {
    && agent.steeringQueue.polls == old(agent.steeringQueue.polls)
    && agent.followUpQueue.polls == old(agent.followUpQueue.polls)
  }

  /** What every step of a run that drains no queue leaves alone. */
  twostate predicate Kept(agent: Agent, env: Environment)
    reads agent, agent.steeringQueue, agent.followUpQueue, env
  {
    InRun(agent, env) && Undrained(agent)
  }

  /** What the actions of others leave alone: moreover the observer, and executions that have
      settled. */
  twostate predicate Paused(agent: Agent, env: Environment)
    reads agent, agent.steeringQueue, agent.followUpQueue, env
  {
    && Proceeded(agent, env) && Undrained(agent)
    && agent.seen == old(agent.seen)
    && (old(env.Quiet()) ==> env.Quiet() && agent.trace == old(agent.trace))
    && StillSettled(env)
  }

  /** A suspension. */
  twostate predicate Suspended(agent: Agent, env: Environment)
    reads agent, agent.steeringQueue, agent.followUpQueue, env
  {
    Kept(agent, env) && Paused(agent, env)
  }

  /** What actions do to the executions, and what listeners receive meanwhile. */
  twostate predicate HaveHappened(agent: Agent, env: Environment, actions: seq<Action>)
    reads agent`delivered, env`running, env`settled, env`left
  {
    && env.settled == SettledAfterAll(actions, old(env.settled))
    && env.left == LeftAfterAll(actions, old(env.left))
    && agent.delivered == old(agent.delivered) + ReportsAll(actions, env.running, old(env.settled), old(env.left))
  }

  /** Exactly one tick has happened. */
  twostate predicate TickTaken(agent: Agent, env: Environment)
    reads agent`delivered, env`script, env`running, env`settled, env`left
  {
    && old(env.script) != [] && env.script == old(env.script)[1..]
    && HaveHappened(agent, env, old(env.script)[0].actions)
  }

  twostate predicate StillSettled(env: Environment)
    reads env
  {
    && |env.settled| == |old(env.settled)|
    && forall i | 0 <= i < |env.settled| && old(env.settled)[i].Some? :: env.settled[i] == old(env.settled)[i]
  }

  /** Code is cut off only when the script ends, and throws exactly what one awaited party has
      thrown. */
  twostate predicate Accounted<T>(env: Environment, new o: Outcome<T>)
    reads env
  {
    && (o.Cut? ==> env.script == [])
    && (if o.Threw? then env.failures == old(env.failures) + [o.error] else env.failures == old(env.failures))
  }
}
