/**
 * The mutable state of the agent wrapper: the pending-message queues and the `Agent` object
 * with its event reducer.
 */
module AgentState {
  import opened Wrappers
  import opened AgentEvents

  datatype QueueMode = All | OneAtATime

  /** The messages a drain takes from the front of a queue. */
  function Front(mode: QueueMode, messages: seq<Message>): seq<Message> {
    if mode == All || messages == [] then messages else messages[..1]
  }

  /** The two queues. */
  datatype Source = Steering | FollowUps

  /** One drain of a queue: the queue's mode then, and the messages that it held. */
  datatype Poll = Poll(mode: QueueMode, found: seq<Message>) {

    function Taken(): (r: seq<Message>)
      ensures mode == All ==> r == found
      ensures mode == OneAtATime ==> r == if found == [] then [] else [found[0]]
    {
      Front(mode, found)
    }
  }

  /** Everything that these drains have taken out, in order. */
  function AllTaken(polls: seq<Poll>): seq<Message> {
    if polls == [] then [] else AllTaken(polls[..|polls| - 1]) + polls[|polls| - 1].Taken()
  }

  lemma AllTakenSnoc(polls: seq<Poll>, poll: Poll, rest: seq<Message>)
    ensures AllTaken(polls) + (poll.Taken() + rest) == AllTaken(polls + [poll]) + rest
  {
    hide Front;
    assert (polls + [poll])[..|polls|] == polls;
    Associate(AllTaken(polls), poll.Taken(), rest);
  }

  lemma FirstOfQueue(messages: seq<Message>)
    requires messages != []
    ensures messages[..1] == [messages[0]] && messages == [messages[0]] + messages[1..]
  {
  }

  class PendingMessageQueue {
    var messages: seq<Message>
    var mode: QueueMode
    ghost var accepted: seq<Message>  // everything enqueued and never cleared
    ghost var polls: seq<Poll>        // all drains, in order

    /** Conservation: accepted messages are those drained so far followed by those still queued. */
    ghost predicate Valid()
      reads this
    {
      accepted == AllTaken(polls) + messages
    }

    constructor (mode: QueueMode)
      ensures Valid() && messages == [] && polls == [] && this.mode == mode
    {
      this.messages, this.mode := [], mode;
      accepted, polls := [], [];
    }

    method Enqueue(message: Message)
      requires Valid()
      modifies `messages, `accepted
      ensures Valid() && messages == old(messages) + [message]
      ensures accepted == old(accepted) + [message]
    {
      messages := messages + [message];
      accepted := accepted + [message];
    }

    method Drain() returns (drained: seq<Message>)
      requires Valid()
      modifies `messages, `polls
      ensures Valid()
      ensures mode == All ==> drained == old(messages) && messages == []
      ensures mode == OneAtATime && old(messages) != [] ==>
              drained == [old(messages)[0]] && messages == old(messages)[1..]
      ensures old(messages) == [] ==> drained == [] && messages == []
      ensures drained == Front(mode, old(messages)) && old(messages) == drained + messages
      ensures polls == old(polls) + [Poll(mode, old(messages))]
    {
      hide AllTaken;
      ghost var poll := Poll(mode, messages);
      if mode == All {
        drained := messages;
        messages := [];
      } else if messages == [] {
        drained := [];
      } else {
        FirstOfQueue(messages);
        drained := [messages[0]];
        messages := messages[1..];
      }
      AllTakenSnoc(polls, poll, messages);
      polls := polls + [poll];
    }

    method Clear()
      requires Valid()
      modifies `messages, `accepted
      ensures Valid() && messages == []
      ensures accepted == AllTaken(polls)
    {
      messages := [];
      accepted := AllTaken(polls);
    }

    method SetMode(mode: QueueMode)
      requires Valid()
      modifies `mode
      ensures Valid() && this.mode == mode
    {
      this.mode := mode;
    }
  }

  datatype ToolExecution = Sequential | Parallel

  datatype Run = Run(aborted: bool)

  function FailureMessage(error: string, aborted: bool): AssistantMessage {
    Assistant([Text("")], if aborted then Aborted else Error, Some(error))
  }

  class Agent {
    var messages: seq<Message>
    var isStreaming: bool
    var streamingMessage: Option<Message>
    var pendingToolCalls: set<string>
    var errorMessage: Option<string>
    var activeRun: Option<Run>
    var tools: seq<string>
    var maxTurns: Option<real>
    var toolExecution: ToolExecution
    const steeringQueue: PendingMessageQueue
    const followUpQueue: PendingMessageQueue

    ghost var trace: seq<AgentEvent>    // the events of the current run
    ghost var seen: Observer            // what an observer of the trace knows
    ghost var base: View                // the event-driven state when the run began
    ghost var reduced: View             // and what the reducer makes of the trace
    ghost var disturbed: bool           // somebody has reset or assigned the transcript since
    ghost var delivered: seq<Delivery>  // what listeners have received since the run began
    ghost var late: bool                // and whether a late report was among it

    ghost function Current(): View
      reads this
    {
      View(messages, streamingMessage, pendingToolCalls, errorMessage)
    }

    /** The ghost bookkeeping is faithful to the trace. */
    ghost predicate Recorded()
      reads `trace, `seen, `base, `reduced, `delivered, `late
    {
      forall k: nat {:trigger Key(k)} :: Key(k) ==>
        && seen == Observe(trace) && reduced == ReduceAll(base, trace)
        && trace == OwnEvents(delivered) && LateUpdates(delivered) && (late <==> !NoneLate(delivered))
    }

    /** During a run the state is what the reducer makes of the run's events. */
    ghost predicate Valid()
      reads this, steeringQueue, followUpQueue
    {
      && steeringQueue != followUpQueue
      && steeringQueue.Valid() && followUpQueue.Valid()
      && Recorded()
      && (activeRun.Some? && !disturbed ==> Current() == reduced)
    }

    /** Between runs nothing is streaming and no tool call is pending. */
    ghost predicate Idle()
      reads this
    {
      activeRun.None? && !isStreaming && streamingMessage.None? && pendingToolCalls == {}
    }

    constructor (steeringMode: QueueMode, followUpMode: QueueMode, messages: seq<Message>, tools: seq<string>,
                 toolExecution: ToolExecution, maxTurns: Option<real>)
      ensures Valid() && Idle() && this.messages == messages
      ensures fresh(steeringQueue) && fresh(followUpQueue)
      ensures steeringQueue.messages == [] && steeringQueue.mode == steeringMode
      ensures followUpQueue.messages == [] && followUpQueue.mode == followUpMode
      ensures this.tools == tools && this.toolExecution == toolExecution && this.maxTurns == maxTurns
    {
      this.messages, this.tools := messages, tools;
      isStreaming, streamingMessage, pendingToolCalls, errorMessage, activeRun := false, None, {}, None, None;
      this.toolExecution, this.maxTurns := toolExecution, maxTurns;
      steeringQueue := new PendingMessageQueue(steeringMode);
      followUpQueue := new PendingMessageQueue(followUpMode);
      trace, seen, disturbed, delivered, late := [], UNSEEN, false, [], false;
      base, reduced := View(messages, None, {}, None), View(messages, None, {}, None);
    }

    ghost method Record(e: AgentEvent)
      requires Recorded()
      modifies `trace, `seen, `reduced, `delivered
      ensures Recorded()
      ensures trace == old(trace) + [e] && seen == Step(old(seen), e) && reduced == Reduce(old(reduced), e)
      ensures delivered == old(delivered) + [Own(e)]
    {
      hide Step, Reduce;
      assert Key(0);
      ObserveAppend(trace, e);
      ReduceAppend(base, trace, e);
      DeliverySnoc(delivered, Own(e));
      trace, seen, reduced, delivered := trace + [e], Step(seen, e), Reduce(reduced, e), delivered + [Own(e)];
    }

    ghost method RecordLate(e: AgentEvent)
      requires Recorded() && e.ToolUpdate?
      modifies `delivered, `late
      ensures Recorded() && late && delivered == old(delivered) + [Late(e)]
    {
      hide Observe, ReduceAll, Events, OwnEvents, NoneLate, LateUpdates;
      assert Key(0);
      DeliverySnoc(delivered, Late(e));
      delivered, late := delivered + [Late(e)], true;
    }

    /** The synchronous part of `processEvents` for a late report: an update of a tool changes
        no state. */
    method ReduceLate(e: AgentEvent)
      requires Valid() && e.ToolUpdate?
      modifies `delivered, `late
      ensures Valid() && late && delivered == old(delivered) + [Late(e)]
    {
      RecordLate(e);
    }

    /** The synchronous part of `processEvents`: reduce the event into the state. */
    method ReduceEvent(e: AgentEvent)
      requires Valid()
      modifies `messages, `streamingMessage, `pendingToolCalls, `errorMessage, `trace, `seen, `reduced, `delivered
      ensures Valid()
      ensures Current() == Reduce(old(Current()), e)
      ensures trace == old(trace) + [e] && seen == Step(old(seen), e) && delivered == old(delivered) + [Own(e)]
    {
      hide Step, Recorded, AllTaken;
      Record(e);
      match e {
        case MessageStart(m) => streamingMessage := Some(m);
        case MessageUpdate(m) => streamingMessage := Some(m);
        case MessageEnd(m) =>
          streamingMessage := None;
          messages := messages + [m];
        case ToolStart(id, _) => pendingToolCalls := pendingToolCalls + {id};
        case ToolEnd(id, _, _, _) => pendingToolCalls := pendingToolCalls - {id};
        case TurnEnd(m, _) =>
          if m.Assistant? && m.error.Some? && m.error.value != "" {
            errorMessage := m.error;
          }
        case AgentEnd(_) => streamingMessage := None;
        case _ =>
      }
    }

    /** `runWithLifecycle` up to its `try`: refuse while a run is active, else begin one. */
    method BeginRun() returns (begun: bool)
      requires Valid()
      modifies `activeRun, `isStreaming, `streamingMessage, `errorMessage
      modifies `trace, `seen, `base, `reduced, `disturbed, `delivered, `late
      ensures Valid() && begun == old(activeRun).None? && activeRun.Some?
      ensures !begun ==> Current() == old(Current()) && activeRun == old(activeRun) && isStreaming == old(isStreaming)
      ensures begun ==>
        && Current() == base == View(messages, None, pendingToolCalls, None)
        && trace == [] && seen == UNSEEN && !disturbed && isStreaming && delivered == [] && !late
    {
      if activeRun.Some? {
        return false;
      }
      activeRun := Some(Run(false));
      isStreaming, streamingMessage, errorMessage := true, None, None;
      Rebase();
      disturbed := false;
      return true;
    }

    /** Begin a new event history from the current state. */
    ghost method Rebase()
      modifies `trace, `seen, `base, `reduced, `delivered, `late
      ensures Recorded() && trace == [] && seen == UNSEEN && base == reduced == Current()
      ensures delivered == [] && !late
    {
      trace, seen, base, reduced, delivered, late := [], UNSEEN, Current(), Current(), [], false;
    }

    /** `handleRunFailure` up to its listeners: push the failure message and reduce the
        `agent_end` that reports it. It is not part of the loop's event history. */
    method RecordFailure(error: string)
      requires Valid() && activeRun.Some?
      modifies `messages, `errorMessage, `streamingMessage, `trace, `seen, `base, `reduced, `delivered, `late
      ensures Valid() && trace == [] && seen == UNSEEN && base == Current()
      ensures messages == old(messages) + [FailureMessage(error, activeRun.value.aborted)]
      ensures
        var m := messages[|messages| - 1];
        && m.Assistant? && m.content == [Text("")] && m.error == Some(error)
        && m.stop == if activeRun.value.aborted then Aborted else Error
      ensures errorMessage == Some(error) && streamingMessage == None
    {
      messages := messages + [FailureMessage(error, activeRun.value.aborted)];
      errorMessage := Some(error);
      streamingMessage := None;
      Rebase();
    }

    method FinishRun()
      requires Valid()
      modifies `isStreaming, `streamingMessage, `pendingToolCalls, `activeRun
      ensures Valid() && Idle()
    {
      isStreaming, streamingMessage, pendingToolCalls, activeRun := false, None, {}, None;
    }

    method Abort()
      requires Valid()
      modifies `activeRun
      ensures Valid() && activeRun.Some? == old(activeRun).Some?
      ensures activeRun.Some? ==> activeRun.value.aborted
    {
      if activeRun.Some? {
        activeRun := Some(Run(true));
      }
    }

    /** Clear transcript, runtime state and queues; an active run stays active. */
    method Reset()
      requires Valid()
      modifies `messages, `isStreaming, `streamingMessage, `pendingToolCalls, `errorMessage, `disturbed
      modifies steeringQueue`messages, steeringQueue`accepted, followUpQueue`messages, followUpQueue`accepted
      ensures Valid() && disturbed
      ensures Current() == View([], None, {}, None) && !isStreaming
      ensures steeringQueue.messages == [] && followUpQueue.messages == []
    {
      hide Recorded, AllTaken;
      messages, isStreaming, streamingMessage, pendingToolCalls, errorMessage := [], false, None, {}, None;
      disturbed := true;
      followUpQueue.Clear();
      steeringQueue.Clear();
    }

    method SetMessages(messages: seq<Message>)
      requires Valid()
      modifies `messages, `disturbed
      ensures Valid() && disturbed && this.messages == messages
    {
      this.messages := messages;
      disturbed := true;
    }
  }
}
