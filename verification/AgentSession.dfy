/**
 * The public operations of the agent wrapper: prompt and continue, the run lifecycle around
 * the loop, and whole sessions of them.
 */
module AgentSession {
  import opened Wrappers
  import opened AgentEvents
  import opened AgentState
  import opened AgentEnvironment
  import opened TurnLogs
  import opened RunLogs
  import opened AgentLoop
  import G = GrammarTheorems
  import R = RunTheorems

  // ---------------------------------------------------------------- what is known about a run

  /** The loop has returned `newMessages`: how, and what its observer and its context hold. All
      that the environment has said since the run began is in the log. */
  ghost predicate Completed(log: RunLog, base: RunBase, newMessages: seq<Message>, memory: seq<Message>,
                            seen: Observer, heard: seq<Answer>)
  {
    && log.Complete(base.maxTurns, base.skip)
    && newMessages == base.prompts + Transcript(log.turns)
    && memory == base.memory + Memory(log.turns)
    && seen.Watching? && seen.phase == Over && seen.open.None?
    && seen.completed == newMessages
    && seen.restarts == base.restarts + StaleCount(log.turns)
    && AllAnswered(log.turns, base.mode, base.tools)
    && heard == base.heard + TurnsHeard(log.turns, base.mode, base.tools)
  }

  ghost function Base(prompts: seq<Message>, context: seq<Message>, agent: Agent, env: Environment, tools: seq<string>,
                      maxTurns: Option<real>, mode: ToolExecution, skip: bool): RunBase
    reads agent.steeringQueue`polls, agent.followUpQueue`polls, env`heard
  {
    RunBase(prompts, context + prompts, prompts, 0, agent.steeringQueue.polls, agent.followUpQueue.polls,
            env.heard, maxTurns, mode, tools, skip)
  }

  /** Where a run of the agent begins. */
  ghost function BaseOf(prompts: seq<Message>, agent: Agent, env: Environment, skip: bool): RunBase
    reads agent, agent.steeringQueue`polls, agent.followUpQueue`polls, env`heard
  {
    Base(prompts, agent.messages, agent, env, agent.tools, agent.maxTurns, agent.toolExecution, skip)
  }

  /** A run seen from outside: where it began, its log, the loop's final context, how the loop
      ended; how things stood when it began, and the ticks that happened until the loop ended; the
      events of the loop, the messages they have completed, and what listeners have received. */
  datatype RunReport = RunReport(messages: seq<Message>, base: RunBase, log: RunLog, memory: seq<Message>,
                                 result: Outcome<seq<Message>>, began: Beginning, ticks: seq<Tick>,
                                 trace: seq<AgentEvent>, said: seq<Message>, delivered: seq<Delivery>)

  /** What listeners have received of a run, however far it got: the events are legal, and only
      updates of tools that failed runs have left behind came besides. */
  ghost predicate Heeded(run: RunReport) {
    && Observe(run.trace).Watching? && Observe(run.trace).completed == run.said
    && OwnEvents(run.delivered) == run.trace && LateUpdates(run.delivered)
  }

  /** What the queues have given, however far the run got: a queue that was in one-at-a-time mode
      at the beginning gave at most one message between two responses, unless somebody has put
      it into the other mode meanwhile. */
  ghost predicate Delivering(run: RunReport) {
    && (run.began.steering.mode == OneAtATime && AllSteady(Steering, run.ticks) ==> R.AtMostOne(Steering, run.log))
    && (run.began.followUps.mode == OneAtATime && AllSteady(FollowUps, run.ticks) ==> R.AtMostOne(FollowUps, run.log))
  }

  /** The main statement about one run, once it is settled with outcome `o`: its log balances
      the queues and is backed by what the environment has said; the events were legal; if the
      loop returned, log, events and context agree; and nobody having reset or assigned the
      transcript, it is the one the run began with, what was said, and after a failure the
      failure message. */
  ghost predicate Reported(run: RunReport, agent: Agent, env: Environment, o: Outcome<()>)
    reads agent, agent.steeringQueue`polls, agent.followUpQueue`polls, env`heard
  {
    && LoggedSoFar(run.log, run.base, agent, env)
    && Heeded(run) && Delivering(run)
    && run.ticks <= run.began.script
    && (run.result.Cut? ==> o.Cut?)
    && (run.result.Done? ==>
          && o.Done? && run.said == run.result.value
          && Completed(run.log, run.base, run.said, run.memory, Observe(run.trace), env.heard))
    && (!run.result.Threw? ==>
          && agent.trace == run.trace && agent.delivered == run.delivered
          && (!agent.disturbed ==> agent.messages == run.messages + run.said))
    && (run.result.Threw? && !o.Cut? && !agent.disturbed ==>
          exists aborted :: agent.messages == run.messages + run.said + [FailureMessage(run.result.error, aborted)])
  }

  /** A run that the end of the observation has cut off, in its loop or in its failure handler: the
      state between the last event and now is still described by `TranscriptAgrees`,
      `PendingAgrees` and `ListenersAgree`. */
  ghost predicate StillObserved(run: RunReport, agent: Agent)
    reads agent
  {
    && agent.activeRun.Some? && agent.seen.Watching? && agent.base.streaming.None?
    && (run.result.Cut? ==> agent.base == View(run.messages, None, {}, None))
  }

  /** The first poll of a run, if it was made: steering only, and not at all when the caller
      asked to skip it. */
  predicate FirstPolled(log: RunLog, skip: bool) {
    First(log).followUps.None? && (skip ==> First(log).steering.None?)
  }

  function ErrorOf<T>(o: Outcome<T>): seq<string> {
    if o.Threw? then [o.error] else []
  }

  /** A run fails, and its failure handler after it, only when something that they await does;
      both are cut off only when the observation ends. */
  twostate predicate RunAccounted(env: Environment, new run: RunReport, new o: Outcome<()>)
    reads env
  {
    && env.failures == old(env.failures) + ErrorOf(run.result) + ErrorOf(o)
    && (o.Cut? ==> env.script == [])
    && (o.Threw? ==> run.result.Threw?)
  }

  // ---------------------------------------------------------------- running the loop

  lemma RunOpens()
    ensures
      var begun := Step(UNSEEN, AgentStart);
      && begun.Watching? && TurnOpen(Step(begun, TurnStart))
      && Step(begun, TurnStart).completed == [] && Step(begun, TurnStart).restarts == 0
  {
  }

  /** Announce the run and the prompts. */
  method Announce(agent: Agent, env: Environment, prompts: seq<Message>) returns (o: Outcome<()>)
    requires Calm(agent, env) && agent.seen == UNSEEN
    modifies agent, agent.steeringQueue, agent.followUpQueue
    modifies env`script, env`settled, env`left, env`failures
    ensures Kept(agent, env) && env.Quiet() && Accounted(env, o)
    ensures o.Done? ==> TurnOpen(agent.seen) && agent.seen.completed == prompts && agent.seen.restarts == 0
  {
    hide Emitted, Step, MayOpen;
    RunOpens();
    var _ :- Emit(agent, env, AgentStart);
    var _ :- Emit(agent, env, TurnStart);
    for i := 0 to |prompts|
      invariant Kept(agent, env) && env.Quiet() && env.failures == old(env.failures)
      invariant TurnOpen(agent.seen) && agent.seen.completed == prompts[..i] && agent.seen.restarts == 0
    {
      MessageAdded(agent.seen, prompts[i]);
      assert prompts[..i + 1] == prompts[..i] + [prompts[i]];
      var _ :- EmitWholeMessage(agent, env, prompts[i]);
    }
    assert prompts[..|prompts|] == prompts;
    return Done(());
  }

  method RunAgentLoop(agent: Agent, env: Environment, prompts: seq<Message>, context: seq<Message>, tools: seq<string>,
                      config: LoopConfig)
    returns (o: Outcome<seq<Message>>, ghost log: RunLog, ghost memory: seq<Message>)
    requires Calm(agent, env) && agent.seen == UNSEEN
    modifies agent, agent.steeringQueue, agent.followUpQueue, env, config
    ensures InRun(agent, env) && Accounted(env, o) && (o.Done? ==> env.Quiet())
    ensures
      var base := old(Base(prompts, context, agent, env, tools, config.maxTurns, config.toolExecution,
                           config.skipInitialSteeringPoll));
      && LoggedSoFar(log, base, agent, env)
      && (o.Done? ==> Completed(log, base, o.value, memory, agent.seen, env.heard))
    ensures FirstPolled(log, old(config.skipInitialSteeringPoll))
  {
    hide Faithful, Logging, RunLog.Complete, TurnOpen, Front, Governed;
    log, memory := EMPTY_LOG, [];
    ghost var base := Base(prompts, context, agent, env, tools, config.maxTurns, config.toolExecution,
                           config.skipInitialSteeringPoll);
    FaithfulStart(base);
    FaithfulLogging(EMPTY_LOG, base, AtStart(base));
    var ctx := new LoopContext(context + prompts, tools);
    var _ :- Announce(agent, env, prompts);
    o, log := RunLoop(agent, env, ctx, prompts, config, base);
    memory := ctx.messages;
    if o.Done? {
      FaithfulSums(log, base, Now(agent, env, ctx, o.value));
    }
  }

  /** Continue from the context as it is, unless it is empty or ends with an assistant message. */
  method RunAgentLoopContinue(agent: Agent, env: Environment, context: seq<Message>, tools: seq<string>,
                              config: LoopConfig)
    returns (o: Outcome<seq<Message>>, ghost log: RunLog, ghost memory: seq<Message>)
    requires Calm(agent, env) && agent.seen == UNSEEN
    modifies agent, agent.steeringQueue, agent.followUpQueue, env, config
    ensures InRun(agent, env) && (o.Done? ==> env.Quiet())
    ensures
      var base := old(Base([], context, agent, env, tools, config.maxTurns, config.toolExecution,
                           config.skipInitialSteeringPoll));
      && LoggedSoFar(log, base, agent, env)
      && (o.Done? ==> Completed(log, base, o.value, memory, agent.seen, env.heard))
    ensures context != [] && !context[|context| - 1].Assistant? ==> Accounted(env, o)
    ensures context == [] || context[|context| - 1].Assistant? ==> o.Threw? && log == EMPTY_LOG && unchanged(env)
    ensures FirstPolled(log, old(config.skipInitialSteeringPoll))
  {
    hide Faithful, Logging, RunLog.Complete, Governed;
    log, memory := EMPTY_LOG, [];
    ghost var base := Base([], context, agent, env, tools, config.maxTurns, config.toolExecution,
                           config.skipInitialSteeringPoll);
    FaithfulStart(base);
    FaithfulLogging(EMPTY_LOG, base, AtStart(base));
    if |context| == 0 {
      o := Threw("Cannot continue: no messages in context");
      return;
    }
    if context[|context| - 1].Assistant? {
      o := Threw("Cannot continue from message role: assistant");
      return;
    }
    o, log, memory := RunAgentLoop(agent, env, [], context, tools, config);
  }

  // ---------------------------------------------------------------- the lifecycle

  /** The failure handler; a failing listener makes it fail in turn. Executions in flight go on. */
  method HandleRunFailure(agent: Agent, env: Environment, error: string) returns (o: Outcome<()>)
    requires agent.Valid() && agent.activeRun.Some? && |env.running| == |env.settled|
    modifies agent, agent.steeringQueue, agent.followUpQueue
    modifies env`script, env`running, env`settled, env`left, env`failures
    ensures agent.Valid() && agent.activeRun.Some? && env.Quiet() && Accounted(env, o)
    ensures old(agent.disturbed) ==> agent.disturbed
    ensures !agent.disturbed ==>
      && agent.messages == old(agent.messages) + [FailureMessage(error, old(agent.activeRun).value.aborted)]
      && agent.errorMessage == Some(error)
    ensures agent.steeringQueue.polls == old(agent.steeringQueue.polls)
    ensures agent.followUpQueue.polls == old(agent.followUpQueue.polls)
    ensures agent.base.streaming.None? && agent.seen == UNSEEN
    ensures (o.Cut? <==> old(env.script) == []) && (!o.Cut? ==> env.script == old(env.script)[1..])
    ensures o.Threw? ==> old(env.script)[0].fails == Some(o.error)
    ensures old(env.script) != [] ==>
      env.left == LeftAfterAll(old(env.script)[0].actions, old(env.left) + InFlight(old(env.running), old(env.settled)))
  {
    hide InFlight, LeftAfterAll, ReportsAll, SettledAfterAll, Agent.Recorded;
    env.Leave();
    agent.RecordFailure(error);
    ghost var base := agent.base;
    var listeners := env.AwaitParty(agent);
    assert !agent.disturbed ==> agent.Current() == base by {
      assert agent.Recorded() && agent.trace == [];
      NothingReduced(agent);
    }
    var _ :- listeners;
    return Done(());
  }

  lemma NothingReduced(agent: Agent)
    requires agent.Recorded() && agent.trace == []
    ensures agent.reduced == agent.base
  {
    assert Key(0);
  }

  /** The end of `runWithLifecycle`: handle a failure, and in any case finish the run, unless
      the observation ends while it is still active. */
  method SettleRun(agent: Agent, env: Environment, result: Outcome<seq<Message>>) returns (o: Outcome<()>)
    requires agent.Valid() && agent.activeRun.Some? && |env.running| == |env.settled|
    requires (result.Done? ==> env.Quiet()) && (result.Cut? ==> env.script == [])
    modifies agent, agent.steeringQueue, agent.followUpQueue
    modifies env`script, env`running, env`settled, env`left, env`failures
    ensures agent.Valid() && (if o.Cut? then agent.activeRun.Some? else agent.Idle() && env.Quiet())
    ensures Accounted(env, o) && (result.Cut? ==> o.Cut?) && (o.Threw? ==> result.Threw?)
    ensures old(agent.disturbed) ==> agent.disturbed
    ensures result.Done? ==>
      && o == Done(()) && agent.disturbed == old(agent.disturbed)
      && env.left == old(env.left)
    ensures !result.Threw? ==>
      && agent.messages == old(agent.messages) && agent.trace == old(agent.trace) && agent.base == old(agent.base)
      && agent.seen == old(agent.seen) && agent.delivered == old(agent.delivered) && agent.late == old(agent.late)
    ensures result.Threw? && o.Cut? ==> agent.base.streaming.None? && agent.seen == UNSEEN
    ensures result.Threw? && !o.Cut? && !agent.disturbed ==>
      agent.messages == old(agent.messages) + [FailureMessage(result.error, old(agent.activeRun).value.aborted)]
    ensures result.Threw? ==>
      (o.Cut? <==> old(env.script) == []) && (!o.Cut? ==> env.script == old(env.script)[1..])
    ensures result.Threw? && old(env.script) != [] ==>
      env.left == LeftAfterAll(old(env.script)[0].actions, old(env.left) + InFlight(old(env.running), old(env.settled)))
    ensures agent.steeringQueue.polls == old(agent.steeringQueue.polls)
    ensures agent.followUpQueue.polls == old(agent.followUpQueue.polls)
  {
    hide InFlight, LeftAfterAll, Agent.Recorded;
    o := Done(());
    if result.Cut? {
      return Cut;
    }
    if result.Threw? {
      o := HandleRunFailure(agent, env, result.error);
      if o.Cut? {
        return;
      }
    }
    agent.FinishRun();
  }

  /** In an undisturbed run the agent's transcript is the one it began with and the messages
      the observer has seen completed. */
  lemma TranscriptAgrees(agent: Agent)
    requires agent.Valid() && agent.activeRun.Some? && agent.seen.Watching? && agent.base.streaming.None?
    ensures agent.seen == Observe(agent.trace)
    ensures !agent.disturbed ==> agent.messages == agent.base.messages + agent.seen.completed
    ensures !agent.disturbed ==> agent.streamingMessage == agent.seen.open
  {
    assert Key(0);
    ReducerAgrees(agent.base, agent.trace);
  }

  /** In an undisturbed run the agent's pending tool calls are, when the ids of the turn are
      distinct, exactly those started and not ended in it. */
  lemma PendingAgrees(agent: Agent)
    requires agent.Valid() && agent.activeRun.Some? && !agent.disturbed && agent.base.pending == {}
    requires agent.seen.Watching? && Distinct(agent.seen.started)
    ensures agent.pendingToolCalls ==
            set id | id in G.StartedThisTurn(agent.trace) && id !in G.EndedThisTurn(agent.trace)
  {
    assert Key(0);
    G.PendingToolCalls(agent.base, agent.trace);
  }

  /** In an undisturbed run the agent's error is that of the last turn of the run that ended with
      one, and what it was at the beginning if none has. */
  lemma ErrorAgrees(agent: Agent) returns (k: int)
    requires agent.Valid() && agent.activeRun.Some? && !agent.disturbed
    ensures -1 <= k < |agent.trace| && forall i | k < i < |agent.trace| :: !G.ReportsError(agent.trace[i])
    ensures k >= 0 ==> G.ReportsError(agent.trace[k]) && agent.errorMessage == agent.trace[k].message.error
    ensures k == -1 ==> agent.errorMessage == agent.base.error
  {
    assert Key(0);
    k := G.ErrorIsLast(agent.base, agent.trace);
  }

  /** What listeners have received of a run is legal exactly when every late report among it had
      the id of an execution running in this run; it is the run's own events when none was late. */
  lemma ListenersAgree(agent: Agent)
    requires agent.Valid() && agent.seen.Watching?
    ensures LateUpdates(agent.delivered)
    ensures Observe(Events(agent.delivered)).Watching? <==> G.Welcome(agent.delivered)
    ensures G.Welcome(agent.delivered) ==> Observe(Events(agent.delivered)) == Observe(agent.trace)
    ensures !agent.late ==> G.Welcome(agent.delivered) && Events(agent.delivered) == agent.trace
  {
    assert Key(0);
    G.LateReports(agent.delivered);
  }

  /** The run as it is when the loop has ended. */
  ghost function ReportOf(agent: Agent, env: Environment, base: RunBase, log: RunLog, memory: seq<Message>,
                          result: Outcome<seq<Message>>): RunReport
    requires agent.seen.Watching? && |env.script| <= |env.began.script|
    reads agent, env`script, env`began
  {
    RunReport(agent.base.messages, base, log, memory, result, env.began, Past(env.began.script, env.script),
              agent.trace, agent.seen.completed, agent.delivered)
  }

  /** What holds of every run when its loop has ended. */
  lemma LoopReported(agent: Agent, env: Environment, base: RunBase, log: RunLog, memory: seq<Message>,
                     result: Outcome<seq<Message>>)
    requires Active(agent, env) && Governed(agent, env) && LoggedSoFar(log, base, agent, env)
    requires base.steered == env.began.steering.polls && base.followed == env.began.followUps.polls
    ensures |env.script| <= |env.began.script|
    ensures
      var run := ReportOf(agent, env, base, log, memory, result);
      Heeded(run) && Delivering(run) && run.ticks <= run.began.script && (NoneLate(run.delivered) <==> !agent.late)
  {
    hide Logging, R.AtMostOne, AllSteady;
    var s, f := agent.steeringQueue, agent.followUpQueue;
    R.OneAtATimeDelivery(log, base, env.heard, env.began, env.script, s.mode, s.polls, f.mode, f.polls);
    RecordedFacts(agent);
  }

  lemma RecordedFacts(agent: Agent)
    requires agent.Recorded()
    ensures agent.seen == Observe(agent.trace) && agent.trace == OwnEvents(agent.delivered)
    ensures LateUpdates(agent.delivered) && (agent.late <==> !NoneLate(agent.delivered))
  {
    assert Key(0);
  }

  /** Settle a run and report it. */
  method ReportRun(agent: Agent, env: Environment, result: Outcome<seq<Message>>, ghost base: RunBase,
                   ghost log: RunLog, ghost memory: seq<Message>)
    returns (o: Outcome<()>, ghost run: RunReport)
    requires Active(agent, env) && LoggedSoFar(log, base, agent, env) && Governed(agent, env)
    requires base.steered == env.began.steering.polls && base.followed == env.began.followUps.polls
    requires agent.base == View(agent.base.messages, None, {}, None)
    requires result.Cut? ==> env.script == []
    requires result.Done? ==> env.Quiet() && Completed(log, base, result.value, memory, agent.seen, env.heard)
    modifies agent, agent.steeringQueue, agent.followUpQueue
    modifies env`script, env`running, env`settled, env`left, env`failures
    ensures agent.Valid() && (if o.Cut? then StillObserved(run, agent) else agent.Idle() && env.Quiet())
    ensures run.messages == old(agent.base).messages && run.base == base && run.log == log && run.result == result
    ensures run.began == env.began
    ensures Reported(run, agent, env, o) && Accounted(env, o) && (o.Threw? ==> result.Threw?)
    ensures !old(agent.late) ==> NoneLate(run.delivered)
    ensures result.Done? ==> env.left == old(env.left)
  {
    hide Logging, RunLog.Complete, Agent.Recorded, InFlight, LeftAfterAll, Governed, Heeded, Delivering, Past;
    LoopReported(agent, env, base, log, memory, result);
    TranscriptAgrees(agent);
    run := ReportOf(agent, env, base, log, memory, result);
    o := SettleRun(agent, env, result);
  }

  /** Begin a run of an idle agent. */
  method OpenRun(agent: Agent, env: Environment, skipInitialSteeringPoll: bool) returns (config: LoopConfig)
    requires agent.Valid() && agent.Idle() && env.Quiet()
    modifies agent`activeRun, agent`isStreaming, agent`streamingMessage, agent`errorMessage, agent`trace, agent`seen
    modifies agent`base, agent`reduced, agent`disturbed, agent`delivered, agent`late, env`began
    ensures Calm(agent, env) && agent.seen == UNSEEN
    ensures agent.base == View(agent.messages, None, {}, None) && !agent.late
    ensures agent.trace == [] && agent.delivered == []
    ensures Governed(agent, env) && env.began == Standing(agent, env)
    ensures fresh(config) && config.skipInitialSteeringPoll == skipInitialSteeringPoll
    ensures config.maxTurns == agent.maxTurns && config.toolExecution == agent.toolExecution
  {
    hide Agent.Recorded, AllTaken, Count, Ruled;
    var begun := agent.BeginRun();
    env.Begin(agent);
    config := new LoopConfig(agent.maxTurns, agent.toolExecution, skipInitialSteeringPoll);
  }

  method RunPromptMessages(agent: Agent, env: Environment, prompts: seq<Message>, skipInitialSteeringPoll: bool)
    returns (o: Outcome<()>, ghost run: RunReport)
    requires agent.Valid() && agent.Idle() && env.Quiet()
    modifies agent, agent.steeringQueue, agent.followUpQueue, env
    ensures agent.Valid() && (if o.Cut? then StillObserved(run, agent) else agent.Idle() && env.Quiet())
    ensures run.messages == old(agent.messages) && run.began == old(Standing(agent, env))
    ensures run.base == old(BaseOf(prompts, agent, env, skipInitialSteeringPoll))
    ensures Reported(run, agent, env, o) && RunAccounted(env, run, o)
    ensures old(env.left) == [] ==> NoneLate(run.delivered) && (run.result.Done? ==> env.left == [])
    ensures FirstPolled(run.log, skipInitialSteeringPoll)
  {
    hide Completed, LoggedSoFar, Reported, FirstPolled, Agent.Valid, Running, Ruled, Governed;
    var config := OpenRun(agent, env, skipInitialSteeringPoll);
    var result;
    ghost var log, memory;
    result, log, memory := RunAgentLoop(agent, env, prompts, agent.messages, agent.tools, config);
    o, run := ReportRun(agent, env, result, old(BaseOf(prompts, agent, env, skipInitialSteeringPoll)), log, memory);
  }

  method RunContinuation(agent: Agent, env: Environment) returns (o: Outcome<()>, ghost run: RunReport)
    requires agent.Valid() && agent.Idle() && env.Quiet()
    modifies agent, agent.steeringQueue, agent.followUpQueue, env
    ensures agent.Valid() && (if o.Cut? then StillObserved(run, agent) else agent.Idle() && env.Quiet())
    ensures run.messages == old(agent.messages) && run.began == old(Standing(agent, env))
    ensures run.base == old(BaseOf([], agent, env, false))
    ensures Reported(run, agent, env, o)
    ensures old(agent.messages != [] && !agent.messages[|agent.messages| - 1].Assistant?) ==>
      RunAccounted(env, run, o)
    ensures old(env.left) == [] ==> NoneLate(run.delivered) && (run.result.Done? ==> env.left == [])
    ensures FirstPolled(run.log, false)
  {
    hide Completed, LoggedSoFar, Reported, FirstPolled, Agent.Valid, Running, Ruled, Governed;
    var config := OpenRun(agent, env, false);
    var result;
    ghost var log, memory;
    result, log, memory := RunAgentLoopContinue(agent, env, agent.messages, agent.tools, config);
    o, run := ReportRun(agent, env, result, old(BaseOf([], agent, env, false)), log, memory);
  }

  // ---------------------------------------------------------------- the public operations

  /** Start a run with these messages, unless one is active. */
  method Prompt(agent: Agent, env: Environment, messages: seq<Message>)
    returns (o: Outcome<()>, ghost run: Option<RunReport>)
    requires agent.Valid() && (agent.activeRun.None? ==> agent.Idle() && env.Quiet())
    modifies agent, agent.steeringQueue, agent.followUpQueue, env
    ensures agent.Valid()
    ensures old(agent.activeRun).Some? ==> o.Threw? && run.None? && unchanged(agent) && unchanged(env)
    ensures old(agent.activeRun).None? ==>
      && run.Some? && (if o.Cut? then StillObserved(run.value, agent) else agent.Idle() && env.Quiet())
      && Reported(run.value, agent, env, o) && RunAccounted(env, run.value, o)
      && run.value.messages == old(agent.messages) && run.value.began == old(Standing(agent, env))
      && run.value.base == old(BaseOf(messages, agent, env, false))
      && run.value.base.prompts == messages && run.value.base.memory == old(agent.messages) + messages
      && run.value.base.tools == old(agent.tools) && run.value.base.maxTurns == old(agent.maxTurns)
      && run.value.base.mode == old(agent.toolExecution) && !run.value.base.skip
      && (env.failures == old(env.failures) ==> run.value.result.Done? || env.script == [])
      && (old(env.left) == [] ==> NoneLate(run.value.delivered) && (run.value.result.Done? ==> env.left == []))
      && FirstPolled(run.value.log, false)
  {
    hide Reported, FirstPolled, Agent.Recorded;
    run := None;
    if agent.activeRun.Some? {
      o := Threw("Agent is already processing a prompt.");
      return;
    }
    ghost var report;
    o, report := RunPromptMessages(agent, env, messages, false);
    CutReported(report, agent, env, o);
    run := Some(report);
  }

  lemma CutReported(run: RunReport, agent: Agent, env: Environment, o: Outcome<()>)
    requires Reported(run, agent, env, o)
    ensures run.result.Cut? ==> o.Cut?
  {
    hide LoggedSoFar, Completed;
  }

  /** What `continue` says of the run it has begun, whose first poll is skipped if `skip`. */
  twostate predicate Continued(agent: Agent, env: Environment, new o: Outcome<()>, new run: RunReport, skip: bool)
    reads agent, agent.steeringQueue, agent.followUpQueue, env
  {
    && (if o.Cut? then StillObserved(run, agent) else agent.Idle() && env.Quiet())
    && Reported(run, agent, env, o) && RunAccounted(env, run, o)
    && run.messages == old(agent.messages) && FirstPolled(run.log, skip)
    && run.began.script == old(env.script)
    && run.began.steering.mode == old(agent.steeringQueue.mode)
    && run.began.followUps.mode == old(agent.followUpQueue.mode)
    && (old(env.left) == [] ==> NoneLate(run.delivered) && (run.result.Done? ==> env.left == []))
  }

  /** After an assistant message: the queued steering messages, or else the queued follow-ups,
      become the prompts of a run. */
  method ContinueFromQueues(agent: Agent, env: Environment) returns (o: Outcome<()>, ghost run: Option<RunReport>)
    requires agent.Valid() && agent.Idle() && env.Quiet()
    modifies agent, agent.steeringQueue, agent.followUpQueue, env
    ensures agent.Valid()
    ensures
      var s, f := old(Standing(agent, env).steering), old(Standing(agent, env).followUps);
      var steering := old(Poll(agent.steeringQueue.mode, agent.steeringQueue.messages));
      var followUps := old(Poll(agent.followUpQueue.mode, agent.followUpQueue.messages));
      && (run.None? <==> steering.found == [] && followUps.found == [])
      && (run.None? ==> o.Threw? && unchanged(env) && agent.Idle())
      && (run.Some? ==>
            && Continued(agent, env, o, run.value, steering.found != [])
            && run.value.base.prompts == (if steering.found != [] then steering.Taken() else followUps.Taken())
            && run.value.base.steered == s.polls + [steering]
            && run.value.base.followed == f.polls + (if steering.found != [] then [] else [followUps])
            // the skip flag suppresses a second steering drain
            && run.value.base.skip == (steering.found != []))
  {
    hide Reported, FirstPolled, Agent.Recorded, AllTaken, Governed;
    run := None;
    ghost var report;
    var queuedSteering := agent.steeringQueue.Drain();
    if |queuedSteering| > 0 {
      o, report := RunPromptMessages(agent, env, queuedSteering, true);
      run := Some(report);
      return;
    }
    var queuedFollowUps := agent.followUpQueue.Drain();
    if |queuedFollowUps| > 0 {
      o, report := RunPromptMessages(agent, env, queuedFollowUps, false);
      run := Some(report);
      return;
    }
    o := Threw("Cannot continue from message role: assistant");
  }

  /** Continue from the current transcript; after an assistant message, with what is queued. */
  method Continue(agent: Agent, env: Environment) returns (o: Outcome<()>, ghost run: Option<RunReport>)
    requires agent.Valid() && (agent.activeRun.None? ==> agent.Idle() && env.Quiet())
    modifies agent, agent.steeringQueue, agent.followUpQueue, env
    ensures agent.Valid()
    ensures old(agent.activeRun).Some? ==> o.Threw? && run.None? && unchanged(agent) && unchanged(env)
    ensures run.None? ==> o.Threw? && unchanged(env)
    ensures old(agent.activeRun).None? ==>
      var tail := old(agent.messages) != [] && old(agent.messages[|agent.messages| - 1].Assistant?);
      var steering := old(Poll(agent.steeringQueue.mode, agent.steeringQueue.messages));
      var followUps := old(Poll(agent.followUpQueue.mode, agent.followUpQueue.messages));
      var before := old(agent.steeringQueue.polls);
      && (run.None? <==> old(agent.messages) == [] || (tail && steering.found == [] && followUps.found == []))
      && (run.None? ==> agent.Idle() && env.Quiet())
      && (run.Some? ==>
            && Continued(agent, env, o, run.value, tail && steering.found != [])
            && run.value.base.steered == (if tail then before + [steering] else before)
            && run.value.base.prompts ==
               (if !tail then [] else if steering.found != [] then steering.Taken() else followUps.Taken()))
  {
    hide Reported, FirstPolled, Agent.Recorded, AllTaken, Governed, Front;
    run := None;
    if agent.activeRun.Some? {
      o := Threw("Agent is already processing. Wait for completion before continuing.");
      return;
    }
    if |agent.messages| == 0 {
      o := Threw("No messages to continue from");
      return;
    }
    if agent.messages[|agent.messages| - 1].Assistant? {
      o, run := ContinueFromQueues(agent, env);
      return;
    }
    ghost var report;
    o, report := RunContinuation(agent, env);
    run := Some(report);
  }

  /** What a run from `continue` has said before its first response: at most one steering message
      and at most one follow-up from queues that are in one-at-a-time mode and stay so. */
  lemma ContinuedBeforeFirst(run: RunReport, steering: Poll, followUps: Poll)
    requires Delivering(run) && FirstPolled(run.log, steering.found != [])
    requires run.base.prompts == (if steering.found != [] then steering.Taken() else followUps.Taken())
    requires steering.mode == run.began.steering.mode && followUps.mode == run.began.followUps.mode
    requires run.log.turns != []
    ensures
      var first := First(run.log).Messages();
      && run.base.prompts + first + [run.log.turns[0].assistant] <= run.base.prompts + Transcript(run.log.turns)
      && (steering.found != [] ==> first == [] && (steering.mode == OneAtATime ==> |run.base.prompts| == 1))
      && (steering.found == [] ==>
            && (followUps.mode == OneAtATime ==> |run.base.prompts| <= 1)
            && (steering.mode == OneAtATime && AllSteady(Steering, run.ticks) ==> |first| <= 1))
  {
    R.BeforeFirstResponse(run.base, run.log);
  }

  /** What a user of the agent may do between runs. */
  datatype Command = PromptWith(messages: seq<Message>) | ContinueRun | Act(action: Action)

  /** Any history of prompts, continuations and other calls, with failing and aborted runs that
      leave executions behind: whenever no run is active, nothing is streaming and no tool call
      is pending; and a run stays active for good only when the observation ends inside it. */
  method Session(agent: Agent, env: Environment, commands: seq<Command>) returns (finished: bool)
    requires agent.Valid() && agent.Idle() && env.Quiet()
    modifies agent, agent.steeringQueue, agent.followUpQueue, env
    ensures agent.Valid()
    ensures finished == agent.activeRun.None?
    ensures if agent.activeRun.None? then agent.Idle() && env.Quiet() else env.script == []
  {
    hide Reported, FirstPolled, Agent.Recorded, Front, AllTaken, Governed;
    for i := 0 to |commands|
      invariant agent.Valid() && agent.Idle() && env.Quiet()
    {
      var o: Outcome<()> := Done(());
      ghost var run;
      match commands[i] {
        case PromptWith(messages) => o, run := Prompt(agent, env, messages);
        case ContinueRun => o, run := Continue(agent, env);
        case Act(action) =>
          // while no run is active the reports of a tool reach nobody
          if !action.ReportProgress? && !action.Settle? && !action.ReportLate? {
            env.Interfere(agent, action);
          }
      }
      if o.Cut? {
        return false;
      }
    }
    return true;
  }
}
