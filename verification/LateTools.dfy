/** A tool that outlives its run, played through on a script. */
module LateTools {
  import opened Wrappers
  import opened AgentEvents
  import opened AgentState
  import opened AgentEnvironment
  import opened TurnLogs
  import opened AgentLoop
  import opened AgentSession
  import R = RunTheorems

  /** A tick in which nothing happens besides. */
  function Calmly(final: AssistantMessage): Tick {
    Tick([], None, Closed, final, Admit, Keep)
  }

  /** Two admitted calls of a response; the first returns, the hook after it fails, and the run's
      failure is reported; then the next run begins and the second tool reports. */
  function Outliving(final: AssistantMessage, body: string, error: string): seq<Tick> {
    var calm := Calmly(final);
    [calm, calm, calm, calm, calm.(actions := [Settle(0, Returned(body))]), calm.(fails := Some(error)), calm,
     calm, calm.(actions := [ReportLate(0)])]
  }

  lemma NothingHappens(settled: seq<Option<Execution>>, running: seq<ToolCall>, left: seq<ToolCall>)
    ensures SettledAfterAll([], settled) == settled && LeftAfterAll([], left) == left
    ensures ReportsAll([], running, settled, left) == []
  {
  }

  lemma OneHappens(action: Action, settled: seq<Option<Execution>>, running: seq<ToolCall>, left: seq<ToolCall>)
    ensures SettledAfterAll([action], settled) == SettledAfter(action, settled)
    ensures LeftAfterAll([action], left) == LeftAfter(action, left)
    ensures ReportsAll([action], running, settled, left) == Reports(action, running, settled, left)
  {
    assert [action][..0] == [];
    assert [] + Reports(action, running, settled, left) == Reports(action, running, settled, left);
  }

  lemma TwoStarted(s0: Observer, first: ToolCall, second: ToolCall)
    requires AtToolPhase(s0, [first, second])
    ensures
      var s1 := Step(s0, ToolStart(first.id, first.name));
      var s2 := Step(s1, ToolStart(second.id, second.name));
      s1.Watching? && s2.Watching? && s2.phase == InTurn && Owing(s2, [first, second], 0)
  {
    hide Owing, Ids;
    var s1 := Begun(s0, first.id);
    OwingNothing(s0);
    assert [] + [first] == [first] && [first] + [second] == [first, second];
    OwingBegun(s0, [], first);
    OwingBegun(s1, [first], second);
  }

  lemma OwingNothing(s: Observer)
    requires s.Watching? && s.started == [] && s.ended == []
    ensures Owing(s, [], 0)
  {
  }

  /** Announce a call and have its gate admit it, nothing else happening. */
  method AdmitCalmly(agent: Agent, env: Environment, call: ToolCall, ghost final: AssistantMessage)
    requires Calm(agent, env) && Step(agent.seen, ToolStart(call.id, call.name)).Watching? && env.left == []
    requires |env.script| >= 2 && env.script[0] == Calmly(final) == env.script[1]
    modifies agent, agent.steeringQueue, agent.followUpQueue
    modifies env`script, env`settled, env`left, env`failures, env`heard
    ensures InRun(agent, env) && env.Quiet() && env.left == [] && env.script == old(env.script)[2..]
    ensures agent.seen == Step(old(agent.seen), ToolStart(call.id, call.name))
  {
    hide Governed, Step, SettledAfterAll, LeftAfterAll, ReportsAll;
    NothingHappens(env.settled, env.running, env.left);
    var started := Emit(agent, env, ToolStart(call.id, call.name));
    var gate := env.AwaitGate(agent);
  }

  /** The first tool returns, and the hook after it fails. */
  method FailFirst(agent: Agent, env: Environment, first: ToolCall, second: ToolCall, final: AssistantMessage,
                   body: string, error: string)
    returns (o: Outcome<After>)
    requires Active(agent, env) && env.left == []
    requires env.running == [first, second] && env.settled == [None, None]
    requires env.script == Outliving(final, body, error)[4..]
    modifies agent, agent.steeringQueue, agent.followUpQueue
    modifies env`script, env`settled, env`left, env`failures, env`heard
    ensures InRun(agent, env) && o == Threw(error) && env.script == Outliving(final, body, error)[6..]
    ensures env.settled == [Some(Returned(body)), None] && env.left == []
  {
    hide Governed, SettledAfterAll, LeftAfterAll, ReportsAll, Reports, Running, Agent.Valid, Environment.Consistent;
    OneHappens(Settle(0, Returned(body)), env.settled, env.running, env.left);
    var tick := env.Await(agent);
    NothingHappens(env.settled, env.running, env.left);
    o := env.AwaitHook(agent);
  }

  /** The tool phase of that response, call by call as `ExecuteToolCallsParallel` goes about it, up
      to the failure: both tools have been launched, and only the first has settled. */
  method LaunchTwo(agent: Agent, env: Environment, first: ToolCall, second: ToolCall, final: AssistantMessage,
                   body: string, error: string)
    returns (o: Outcome<After>)
    requires Calm(agent, env) && AtToolPhase(agent.seen, [first, second]) && env.left == []
    requires env.script == Outliving(final, body, error)
    modifies agent, agent.steeringQueue, agent.followUpQueue, env
    ensures InRun(agent, env) && o == Threw(error) && env.script == Outliving(final, body, error)[6..]
    ensures env.running == [first, second] && env.settled == [Some(Returned(body)), None] && env.left == []
  {
    hide Governed, Step, AtToolPhase, Owing, Running, Agent.Valid, Environment.Quiet;
    TwoStarted(agent.seen, first, second);
    AdmitCalmly(agent, env, first, final);
    AdmitCalmly(agent, env, second, final);
    Launch(agent, env, [first, second]);
    assert env.settled == [None, None];
    o := FailFirst(agent, env, first, second, final, body, error);
  }

  /** The failed run is over and has left the second tool behind: `Prompt` may be called. */
  method FailWithToolRunning(agent: Agent, env: Environment, first: ToolCall, second: ToolCall,
                             final: AssistantMessage, body: string, error: string)
    requires Calm(agent, env) && AtToolPhase(agent.seen, [first, second]) && env.left == []
    requires env.script == Outliving(final, body, error)
    modifies agent, agent.steeringQueue, agent.followUpQueue, env
    ensures agent.Valid() && agent.Idle() && env.Quiet()
    ensures env.left == [second] && env.script == Outliving(final, body, error)[7..]
  {
    hide Governed, AtToolPhase, LeftAfterAll, InFlight, Agent.Valid;
    var failed := LaunchTwo(agent, env, first, second, final, body, error);
    R.SecondLeft(first, second, body);
    NothingHappens(env.settled, env.running, [second]);
    assert [] + [second] == [second];
    var settled := SettleRun(agent, env, Threw(error));
  }

  /** The next run begins, and a tool left behind reports. */
  method BeginReported(agent: Agent, env: Environment, tool: ToolCall, final: AssistantMessage)
    requires agent.Valid() && agent.Idle() && env.Quiet() && env.left == [tool]
    requires var calm := Calmly(final); env.script == [calm, calm.(actions := [ReportLate(0)])]
    modifies agent, agent.steeringQueue, agent.followUpQueue, env
    ensures agent.Valid() && agent.activeRun.Some? && agent.trace == [AgentStart, TurnStart]
    ensures agent.delivered == R.OPENING + Reports(ReportLate(0), [], [], [tool])
  {
    hide Governed, Step, SettledAfterAll, LeftAfterAll, ReportsAll, Agent.Valid;
    var config := OpenRun(agent, env, false);
    RunOpens();
    NothingHappens(env.settled, env.running, env.left);
    var begun := Emit(agent, env, AgentStart);
    OneHappens(ReportLate(0), env.settled, env.running, env.left);
    begun := Emit(agent, env, TurnStart);
  }

  /** This run's own events are legal, but its listeners have received an update of an execution
      that they never saw start. */
  method ToolOutlivesItsRun(agent: Agent, env: Environment, first: ToolCall, second: ToolCall,
                            final: AssistantMessage, body: string, error: string)
    requires Calm(agent, env) && AtToolPhase(agent.seen, [first, second]) && env.left == []
    requires env.script == Outliving(final, body, error)
    modifies agent, agent.steeringQueue, agent.followUpQueue, env
    ensures agent.Valid() && agent.activeRun.Some?
    ensures agent.trace == [AgentStart, TurnStart] && Observe(agent.trace).Watching?
    ensures Observe(Events(agent.delivered)).Broken?
  {
    hide AtToolPhase, Observe, Events, Agent.Valid, Reports;
    FailWithToolRunning(agent, env, first, second, final, body, error);
    BeginReported(agent, env, second, final);
    R.OpeningObserved();
    R.ReportIntoNextRun(first, second, body);
  }
}
