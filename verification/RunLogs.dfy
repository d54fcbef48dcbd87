/** What a run leaves behind, as values: the log of its turns, and how far it has got. */
module RunLogs {
  import opened Wrappers
  import opened AgentEvents
  import opened AgentState
  import opened AgentEnvironment
  import opened TurnLogs

  /** How the messages for one turn were polled: from the steering queue, and from the follow-up
      queue when that gave nothing and the agent would otherwise stop. */
  datatype Batch = Batch(steering: Option<Poll>, followUps: Option<Poll>) {

    function PollOf(queue: Source): Option<Poll> {
      match queue
      case Steering => steering
      case FollowUps => followUps
    }

    /** What one queue gave. */
    function From(queue: Source): seq<Message> {
      if PollOf(queue).Some? then PollOf(queue).value.Taken() else []
    }

    /** What is injected. */
    function Messages(): seq<Message> {
      From(Steering) + From(FollowUps)
    }
  }

  /** One turn: the injected batch, the stream and its final message, the gates and fates of the
      tool calls, and their results. */
  datatype Turn = Turn(
    batch: Batch,
    events: seq<StreamEvent>,
    assistant: AssistantMessage,
    gates: seq<Option<Gate>>,
    fates: seq<Fate>,
    results: seq<Message>)
  {
    function Calls(): seq<ToolCall> {
      ToolCalls(assistant.content)
    }

    /** What the turn adds to the transcript. */
    function Said(): seq<Message> {
      batch.Messages() + [assistant] + results
    }

    /** What it adds to the loop's own context. */
    function Remembered(): seq<Message> {
      batch.Messages() + Stale(events) + [assistant] + results
    }

    /** The response's calls have been dealt with, as far as the turn is concerned. */
    predicate WellAnswered(mode: ToolExecution, tools: seq<string>) {
      CallsAnswered(assistant, gates, fates, results, mode, tools)
    }

    /** What the environment has said in this turn, in the order in which the loop waited for it. */
    function Heard(mode: ToolExecution): seq<Answer>
      requires |gates| == |fates| <= |Calls()|
    {
      StreamHeard(events) + [Final(assistant)] + ToolsHeard(mode, Calls(), gates, fates)
    }
  }

  /** A failed response runs no tools; otherwise each call is judged by its gate and answered, in
      the mode's order. */
  predicate CallsAnswered(message: AssistantMessage, gates: seq<Option<Gate>>, fates: seq<Fate>, results: seq<Message>,
                          mode: ToolExecution, tools: seq<string>)
  {
    if Failed(message) then results == [] && gates == [] && fates == []
    else
      var calls := ToolCalls(message.content);
      && |fates| == |calls|
      && Judged(calls, tools, gates, fates)
      && Within(Order(mode, fates), |fates|)
      && results == Replies(calls, fates, Order(mode, fates))
  }

  lemma TurnSums(t: Turn, memory: seq<Message>, said: seq<Message>)
    ensures memory + t.batch.Messages() + Stale(t.events) + [t.assistant] + t.results == memory + t.Remembered()
    ensures said + t.batch.Messages() + [t.assistant] + t.results == said + t.Said()
  {
  }

  function Transcript(turns: seq<Turn>): seq<Message> {
    if turns == [] then [] else Transcript(turns[..|turns| - 1]) + turns[|turns| - 1].Said()
  }

  function Memory(turns: seq<Turn>): seq<Message> {
    if turns == [] then [] else Memory(turns[..|turns| - 1]) + turns[|turns| - 1].Remembered()
  }

  function StaleCount(turns: seq<Turn>): nat {
    if turns == [] then 0 else StaleCount(turns[..|turns| - 1]) + |Stale(turns[|turns| - 1].events)|
  }

  function DrawnBy(queue: Source, batch: Batch): seq<Poll> {
    if batch.PollOf(queue).Some? then [batch.PollOf(queue).value] else []
  }

  /** The drains of one queue for these turns. */
  function Drawn(queue: Source, turns: seq<Turn>): seq<Poll> {
    if turns == [] then [] else Drawn(queue, turns[..|turns| - 1]) + DrawnBy(queue, turns[|turns| - 1].batch)
  }

  /** Another turn with this batch may follow: the steering queue has been polled, unless the first
      poll was to be skipped; the run had not failed, and there were tool results or injected
      messages to respond to. Follow-ups are polled only when there are no more calls and
      steering has given nothing. */
  predicate MayFollow(turns: seq<Turn>, batch: Batch, skip: bool) {
    if turns == [] then batch.followUps.None? && (batch.steering.Some? <==> !skip)
    else
      var t := turns[|turns| - 1];
      && batch.steering.Some?
      && !Failed(t.assistant)
      && (t.Calls() != [] || batch.Messages() != [])
      && (batch.followUps.Some? ==> t.Calls() == [] && batch.From(Steering) == [])
  }

  predicate Chained(turns: seq<Turn>, skip: bool) {
    turns == [] ||
    (Chained(turns[..|turns| - 1], skip) && MayFollow(turns[..|turns| - 1], turns[|turns| - 1].batch, skip))
  }

  predicate AllAnswered(turns: seq<Turn>, mode: ToolExecution, tools: seq<string>) {
    turns == [] || (AllAnswered(turns[..|turns| - 1], mode, tools) && turns[|turns| - 1].WellAnswered(mode, tools))
  }

  /** Everything heard in these turns. */
  function TurnsHeard(turns: seq<Turn>, mode: ToolExecution, tools: seq<string>): seq<Answer>
    requires AllAnswered(turns, mode, tools)
  {
    if turns == [] then []
    else TurnsHeard(turns[..|turns| - 1], mode, tools) + turns[|turns| - 1].Heard(mode)
  }

  lemma TurnsHeardSnoc(turns: seq<Turn>, t: Turn, mode: ToolExecution, tools: seq<string>)
    requires AllAnswered(turns, mode, tools) && t.WellAnswered(mode, tools)
    ensures AllAnswered(turns + [t], mode, tools)
    ensures TurnsHeard(turns + [t], mode, tools) == TurnsHeard(turns, mode, tools) + t.Heard(mode)
  {
    assert (turns + [t])[..|turns|] == turns;
  }

  lemma TurnsSnoc(turns: seq<Turn>, t: Turn, skip: bool)
    ensures Transcript(turns + [t]) == Transcript(turns) + t.Said()
    ensures Memory(turns + [t]) == Memory(turns) + t.Remembered()
    ensures StaleCount(turns + [t]) == StaleCount(turns) + |Stale(t.events)|
    ensures Chained(turns + [t], skip) == (Chained(turns, skip) && MayFollow(turns, t.batch, skip))
  {
    assert (turns + [t])[..|turns|] == turns;
  }

  datatype Exit = NotYet | Finished | Errored | Capped

  /** A run so far: its completed turns, the batch polled and not yet in a completed turn, and
      how it ended. */
  datatype RunLog = RunLog(turns: seq<Turn>, pending: Batch, exit: Exit) {

    /** Why the run ended. */
    predicate Complete(maxTurns: Option<real>, skip: bool) {
      && turns != []
      && match exit
         case NotYet => false
         // both queues have been polled after the last turn, steering first, and were empty
         case Finished =>
           && !Failed(turns[|turns| - 1].assistant) && turns[|turns| - 1].Calls() == []
           && pending.steering.Some? && pending.steering.value.found == []
           && pending.followUps.Some? && pending.followUps.value.found == []
         case Errored => Failed(turns[|turns| - 1].assistant) && pending == NO_BATCH
         case Capped => AtCap(maxTurns, |turns|) && MayFollow(turns, pending, skip)
    }
  }

  /** `maxTurns` caps the run only when it is a positive number. */
  predicate AtCap(maxTurns: Option<real>, turns: nat) {
    maxTurns.Some? && maxTurns.value > 0.0 && turns as real >= maxTurns.value
  }

  /** The number of turns is below the cap rounded up, plus one. */
  predicate WithinCap(maxTurns: Option<real>, turns: nat) {
    maxTurns.Some? && maxTurns.value > 0.0 ==> turns as real < maxTurns.value + 1.0
  }

  /** Where a run starts: the prompts, the copies of the transcript, the histories of the queues
      and of the environment's answers, and what is fixed for the run; `skip` when the first
      steering poll is left out. */
  datatype RunBase = RunBase(
    prompts: seq<Message>,
    memory: seq<Message>,
    completed: seq<Message>,
    restarts: nat,
    steered: seq<Poll>,
    followed: seq<Poll>,
    heard: seq<Answer>,
    maxTurns: Option<real>,
    mode: ToolExecution,
    tools: seq<string>,
    skip: bool)

  /** The same quantities later: the loop's `newMessages` and context, what the observer has
      seen completed, the histories. */
  datatype Snapshot = Snapshot(
    newMessages: seq<Message>,
    memory: seq<Message>,
    completed: seq<Message>,
    restarts: nat,
    steered: seq<Poll>,
    followed: seq<Poll>,
    heard: seq<Answer>)

  const NO_BATCH := Batch(None, None)
  const EMPTY_LOG := RunLog([], NO_BATCH, NotYet)

  /** Conservation: the queues have been drained for the turns' batches and the pending one, in
      this order, and at no other time. */
  ghost predicate Ledger(log: RunLog, base: RunBase, steered: seq<Poll>, followed: seq<Poll>) {
    && steered == base.steered + Drawn(Steering, log.turns) + DrawnBy(Steering, log.pending)
    && followed == base.followed + Drawn(FollowUps, log.turns) + DrawnBy(FollowUps, log.pending)
  }

  /** Every turn was polled for, justified and answered, and the cap was kept. */
  ghost predicate Sound(log: RunLog, base: RunBase) {
    && Chained(log.turns, base.skip) && AllAnswered(log.turns, base.mode, base.tools)
    && WithinCap(base.maxTurns, |log.turns|)
    && (log.pending.followUps.Some? ==> log.pending.From(Steering) == [])
  }

  /** Between turns every copy of the transcript agrees with the log, and the turns are made of
      what the environment has said, and of nothing else. */
  ghost predicate Agreed(log: RunLog, base: RunBase, now: Snapshot) {
    && now.newMessages == base.prompts + Transcript(log.turns)
    && now.completed == base.completed + Transcript(log.turns)
    && now.memory == base.memory + Memory(log.turns)
    && now.restarts == base.restarts + StaleCount(log.turns)
    && AllAnswered(log.turns, base.mode, base.tools)
    && now.heard == base.heard + TurnsHeard(log.turns, base.mode, base.tools)
  }

  /** What the environment has said begins with what the completed turns are made of. */
  ghost predicate Backed(log: RunLog, base: RunBase, heard: seq<Answer>) {
    AllAnswered(log.turns, base.mode, base.tools) && base.heard + TurnsHeard(log.turns, base.mode, base.tools) <= heard
  }

  /** The log so far holds however far the run got. (Like `Faithful`, sealed by a `Key`.) */
  ghost predicate Logging(log: RunLog, base: RunBase, steered: seq<Poll>, followed: seq<Poll>,
                          heard: seq<Answer>)
  {
    forall k: nat {:trigger Key(k)} :: Key(k) ==>
      Ledger(log, base, steered, followed) && Sound(log, base) && Backed(log, base, heard)
  }

  ghost predicate Faithful(log: RunLog, base: RunBase, now: Snapshot) {
    forall k: nat {:trigger Key(k)} :: Key(k) ==>
      Ledger(log, base, now.steered, now.followed) && Sound(log, base) && Agreed(log, base, now)
  }

  function AtStart(base: RunBase): Snapshot {
    Snapshot(base.prompts, base.memory, base.completed, base.restarts, base.steered, base.followed, base.heard)
  }

  lemma FaithfulStart(base: RunBase)
    ensures Faithful(EMPTY_LOG, base, AtStart(base))
  {
  }

  lemma FaithfulLogging(log: RunLog, base: RunBase, now: Snapshot)
    requires Faithful(log, base, now)
    ensures Logging(log, base, now.steered, now.followed, now.heard)
  {
    hide Ledger, Sound, TurnsHeard;
    assert Key(0);
  }

  /** What is said later does not matter to the completed turns. */
  lemma LoggingHears(log: RunLog, base: RunBase, steered: seq<Poll>, followed: seq<Poll>,
                     heard: seq<Answer>, more: seq<Answer>)
    requires Logging(log, base, steered, followed, heard) && heard <= more
    ensures Logging(log, base, steered, followed, more)
  {
    hide Ledger, Sound, TurnsHeard;
    assert Key(0);
  }

  lemma FaithfulSums(log: RunLog, base: RunBase, now: Snapshot)
    requires Faithful(log, base, now)
    ensures Ledger(log, base, now.steered, now.followed) && Sound(log, base) && Agreed(log, base, now)
  {
    assert Key(0);
  }

  lemma FaithfulCompleted(log: RunLog, base: RunBase, now: Snapshot)
    requires Faithful(log, base, now) && base.prompts == base.completed
    ensures now.newMessages == now.completed
  {
    assert Key(0);
  }

  lemma FaithfulExit(log: RunLog, base: RunBase, now: Snapshot, exit: Exit)
    requires Faithful(log, base, now)
    ensures Faithful(log.(exit := exit), base, now)
  {
    assert Key(0);
  }

  /** The steering queue has been polled, or that poll skipped. */
  lemma FaithfulSteering(log: RunLog, base: RunBase, now: Snapshot, poll: Option<Poll>)
    requires Faithful(log, base, now) && log.pending == NO_BATCH
    ensures Faithful(log.(pending := Batch(poll, None)), base, now.(steered := now.steered + AsSeq(poll)))
  {
    hide Chained, AllAnswered, TurnsHeard, Drawn, Transcript, Memory, StaleCount, MayFollow;
    assert Key(0);
    assert DrawnBy(Steering, Batch(poll, None)) == AsSeq(poll);
    assert DrawnBy(Steering, log.pending) == DrawnBy(FollowUps, log.pending) ==
           DrawnBy(FollowUps, Batch(poll, None)) == [];
  }

  /** Then the follow-up queue. */
  lemma FaithfulFollowUps(log: RunLog, base: RunBase, now: Snapshot, poll: Poll)
    requires Faithful(log, base, now) && log.pending.followUps.None? && log.pending.From(Steering) == []
    ensures Faithful(log.(pending := log.pending.(followUps := Some(poll))), base,
                     now.(followed := now.followed + [poll]))
  {
    hide Chained, AllAnswered, TurnsHeard, Drawn, Transcript, Memory, StaleCount, MayFollow;
    assert Key(0);
    var batch := log.pending.(followUps := Some(poll));
    assert DrawnBy(FollowUps, log.pending) == [] && DrawnBy(FollowUps, batch) == [poll];
    assert DrawnBy(Steering, batch) == DrawnBy(Steering, log.pending);
  }

  function Logged(log: RunLog, t: Turn): RunLog {
    log.(turns := log.turns + [t], pending := NO_BATCH)
  }

  function AfterTurn(now: Snapshot, t: Turn, mode: ToolExecution): Snapshot
    requires |t.gates| == |t.fates| <= |t.Calls()|
  {
    now.(newMessages := now.newMessages + t.Said(), completed := now.completed + t.Said(),
         memory := now.memory + t.Remembered(), restarts := now.restarts + |Stale(t.events)|,
         heard := now.heard + t.Heard(mode))
  }

  lemma FaithfulTurn(log: RunLog, base: RunBase, now: Snapshot, t: Turn)
    requires Faithful(log, base, now)
    requires t.batch == log.pending && MayFollow(log.turns, t.batch, base.skip) && t.WellAnswered(base.mode, base.tools)
    requires !AtCap(base.maxTurns, |log.turns|)
    ensures Faithful(Logged(log, t), base, AfterTurn(now, t, base.mode))
  {
    hide MayFollow, Transcript, Memory, StaleCount, TurnsHeard, Drawn, DrawnBy;
    assert Key(0);
    AgreedTurn(log, base, now, t);
    TurnsSnoc(log.turns, t, base.skip);
    DrawnSnoc(Steering, log.turns, t, base.steered);
    DrawnSnoc(FollowUps, log.turns, t, base.followed);
  }

  lemma AgreedTurn(log: RunLog, base: RunBase, now: Snapshot, t: Turn)
    requires Agreed(log, base, now) && t.WellAnswered(base.mode, base.tools)
    ensures Agreed(Logged(log, t), base, AfterTurn(now, t, base.mode))
  {
    hide Transcript, Memory, StaleCount, Stale, AllAnswered, TurnsHeard, Turn.Said, Turn.Remembered, Turn.Heard;
    TurnsSnoc(log.turns, t, base.skip);
    TurnsHeardSnoc(log.turns, t, base.mode, base.tools);
    Associate(base.prompts, Transcript(log.turns), t.Said());
    Associate(base.completed, Transcript(log.turns), t.Said());
    Associate(base.memory, Memory(log.turns), t.Remembered());
    Associate(base.heard, TurnsHeard(log.turns, base.mode, base.tools), t.Heard(base.mode));
  }

  lemma DrawnSnoc(source: Source, turns: seq<Turn>, t: Turn, before: seq<Poll>)
    ensures before + Drawn(source, turns + [t]) + DrawnBy(source, NO_BATCH) ==
            before + Drawn(source, turns) + DrawnBy(source, t.batch)
  {
    assert (turns + [t])[..|turns|] == turns;
    var d := Drawn(source, turns);
    assert before + (d + DrawnBy(source, t.batch)) + [] == before + d + DrawnBy(source, t.batch);
  }

  /** What holds between two rounds of the inner loop. */
  predicate RoundReady(log: RunLog, hasMoreToolCalls: bool, skip: bool) {
    if log.turns == [] then hasMoreToolCalls && MayFollow([], log.pending, skip)
    else
      var t := log.turns[|log.turns| - 1];
      && !Failed(t.assistant)
      && (hasMoreToolCalls || log.pending.Messages() != [] ==> MayFollow(log.turns, log.pending, skip))
      && (!hasMoreToolCalls ==> t.Calls() == [] && log.pending.steering.Some? && log.pending.followUps.None?)
  }

  lemma RoundAfterTurn(log: RunLog, t: Turn, poll: Poll, skip: bool)
    requires !Failed(t.assistant)
    ensures RoundReady(Logged(log, t).(pending := Batch(Some(poll), None)), |t.Calls()| > 0, skip)
  {
  }

  /** After the follow-up poll: the run goes on, or both queues were empty. */
  lemma RoundAfterFollowUps(log: RunLog, poll: Poll, skip: bool)
    requires log.turns != [] && RoundReady(log, false, skip) && log.pending.Messages() == []
    ensures
      var next := log.(pending := log.pending.(followUps := Some(poll)));
      && next.pending.Messages() == poll.Taken()
      && (poll.Taken() != [] ==> RoundReady(next, true, skip))
      && (poll.Taken() == [] ==> next.(exit := Finished).Complete(None, skip))
  {
  }

  /** The first polled batch, wherever it is now. */
  function First(log: RunLog): Batch {
    if log.turns == [] then log.pending else log.turns[0].batch
  }
}
