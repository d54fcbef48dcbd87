/**
 * Messages and lifecycle events of the agent, and two independent readings of an event
 * sequence: the grammar an observer may rely on (`Observe`) and the state reducer of
 * the `Agent` wrapper (`ReduceAll`).
 */
module AgentEvents {
  import opened Wrappers

  datatype StopReason = Stop | Length | ToolUse | Error | Aborted

  datatype ToolCall = ToolCall(id: string, name: string, arguments: string)

  datatype Block = Text(text: string) | Thinking(thinking: string) | Call(call: ToolCall)

  datatype Message =
    | User(text: string)
    | Assistant(content: seq<Block>, stop: StopReason, error: Option<string>)
    | ToolResult(callId: string, toolName: string, body: string, isError: bool)
    | Custom(text: string)

  type AssistantMessage = m: Message | m.Assistant? witness Assistant([], Stop, None)

  datatype AgentEvent =
    | AgentStart
    | AgentEnd(messages: seq<Message>)
    | TurnStart
    | TurnEnd(message: Message, toolResults: seq<Message>)
    | MessageStart(message: Message)
    | MessageUpdate(message: Message)
    | MessageEnd(message: Message)
    | ToolStart(id: string, name: string)
    | ToolUpdate(id: string, name: string)
    | ToolEnd(id: string, name: string, body: string, isError: bool)

  /** The tool calls of a message's content, in source order. */
  function ToolCalls(content: seq<Block>): seq<ToolCall> {
    if content == [] then []
    else (if content[0].Call? then [content[0].call] else []) + ToolCalls(content[1..])
  }

  function Ids(calls: seq<ToolCall>): seq<string> {
    seq(|calls|, i requires 0 <= i < |calls| => calls[i].id)
  }

  function AnsweredIds(results: seq<Message>): seq<string>
    requires forall m <- results :: m.ToolResult?
  {
    seq(|results|, i requires 0 <= i < |results| => results[i].callId)
  }

  predicate Failed(m: AssistantMessage) {
    m.stop == Error || m.stop == Aborted
  }

  // ---------------------------------------------------------------- the event grammar

  datatype Phase = Fresh | Gap | InTurn | Over

  /** What an observer knows after a prefix of a run's events; `Broken` once the prefix
      has left the grammar. `restarts` counts message starts inside an open message. */
  datatype Observer =
    | Broken
    | Watching(
        phase: Phase,
        completed: seq<Message>,     // messages ended so far, in order
        open: Option<Message>,       // the message being streamed
        restarts: nat,
        last: Option<Message>,       // this turn: last completed message that is not a tool result
        started: seq<string>,        // this turn: ids of tool executions started, in order
        ended: seq<string>,          // this turn: ids of those ended, in order
        due: Option<string>,         // tool execution ended, its result message not yet complete
        results: seq<Message>)       // this turn: completed tool results

  const UNSEEN := Watching(Fresh, [], None, 0, None, [], [], None, [])

  function Count(ids: seq<string>, id: string): nat {
    if ids == [] then 0 else Count(ids[..|ids| - 1], id) + (if ids[|ids| - 1] == id then 1 else 0)
  }

  lemma CountSnoc(ids: seq<string>, id: string, x: string)
    ensures Count(ids + [id], x) == Count(ids, x) + (if id == x then 1 else 0)
  {
    assert (ids + [id])[..|ids|] == ids;
  }

  /** More executions of this id have been started than ended. */
  predicate Running(o: Observer, id: string)
    requires o.Watching?
  {
    Count(o.ended, id) < Count(o.started, id)
  }

  predicate MayOpen(o: Observer, m: Message)
    requires o.Watching?
  {
    if o.due.Some? then o.open.None? && m.ToolResult? && m.callId == o.due.value
    else o.started == []
  }

  predicate MayClose(o: Observer, m: Message)
    requires o.Watching?
  {
    o.open.Some? && (o.open.value == m || (m.Assistant? && o.due.None?))
  }

  /** Execution of the next tool call of this turn's assistant message may be announced. */
  predicate MayStartTool(o: Observer, id: string, name: string)
    requires o.Watching?
  {
    && o.open.None? && o.due.None?
    && o.last.Some? && o.last.value.Assistant?
    && !Failed(o.last.value)
    && var calls := ToolCalls(o.last.value.content);
       |o.started| < |calls| && calls[|o.started|].id == id && calls[|o.started|].name == name
  }

  /** A turn may end when nothing is open and every tool call has run and been answered. */
  predicate MayEndTurn(o: Observer, m: Message, toolResults: seq<Message>)
    requires o.Watching?
  {
    && o.open.None? && o.due.None? && |o.ended| == |o.started|
    && o.last == Some(m) && m.Assistant?
    && toolResults == o.results
    && o.started == (if Failed(m) then [] else Ids(ToolCalls(m.content)))
  }

  function Step(o: Observer, e: AgentEvent): Observer {
    if o.Broken? then Broken
    else match e
      case AgentStart => if o.phase == Fresh then o.(phase := Gap) else Broken
      case TurnStart =>
        if o.phase == Gap
        then o.(phase := InTurn, last := None, started := [], ended := [], results := [])
        else Broken
      case MessageStart(m) =>
        if o.phase == InTurn && MayOpen(o, m)
        then o.(open := Some(m), restarts := o.restarts + (if o.open.Some? then 1 else 0))
        else Broken
      case MessageUpdate(m) =>
        if o.phase == InTurn && o.open.Some? && o.due.None? then o.(open := Some(m)) else Broken
      case MessageEnd(m) =>
        if o.phase == InTurn && MayClose(o, m) then
          var o' := o.(open := None, completed := o.completed + [m]);
          if o.due.Some? then o'.(due := None, results := o.results + [m]) else o'.(last := Some(m))
        else Broken
      case ToolStart(id, name) =>
        if o.phase == InTurn && MayStartTool(o, id, name)
        then o.(started := o.started + [id])
        else Broken
      case ToolUpdate(id, _) =>
        if o.phase == InTurn && Running(o, id) then o else Broken
      case ToolEnd(id, _, _, _) =>
        if o.phase == InTurn && o.open.None? && o.due.None? && Running(o, id)
        then o.(ended := o.ended + [id], due := Some(id))
        else Broken
      case TurnEnd(m, rs) =>
        if o.phase == InTurn && MayEndTurn(o, m, rs) then o.(phase := Gap) else Broken
      case AgentEnd(ms) =>
        if o.phase == Gap && ms == o.completed then o.(phase := Over) else Broken
  }

  function Observe(trace: seq<AgentEvent>): Observer {
    if trace == [] then UNSEEN else Step(Observe(trace[..|trace| - 1]), trace[|trace| - 1])
  }

  lemma ObserveAppend(trace: seq<AgentEvent>, e: AgentEvent)
    ensures Observe(trace + [e]) == Step(Observe(trace), e)
  {
    assert (trace + [e])[..|trace|] == trace;
  }

  // ---------------------------------------------------------------- the state reducer

  /** The event-driven part of the agent's public state. */
  datatype View = View(
    messages: seq<Message>,
    streaming: Option<Message>,
    pending: set<string>,
    error: Option<string>)

  /** One step of the reducer inside `Agent.processEvents`. */
  function Reduce(v: View, e: AgentEvent): View {
    match e
    case MessageStart(m) => v.(streaming := Some(m))
    case MessageUpdate(m) => v.(streaming := Some(m))
    case MessageEnd(m) => v.(streaming := None, messages := v.messages + [m])
    case ToolStart(id, _) => v.(pending := v.pending + {id})
    case ToolEnd(id, _, _, _) => v.(pending := v.pending - {id})
    case TurnEnd(m, _) =>
      if m.Assistant? && m.error.Some? && m.error.value != "" then v.(error := m.error) else v
    case AgentEnd(_) => v.(streaming := None)
    case _ => v
  }

  function ReduceAll(v: View, trace: seq<AgentEvent>): View {
    if trace == [] then v else Reduce(ReduceAll(v, trace[..|trace| - 1]), trace[|trace| - 1])
  }

  lemma ReduceAppend(v: View, trace: seq<AgentEvent>, e: AgentEvent)
    ensures ReduceAll(v, trace + [e]) == Reduce(ReduceAll(v, trace), e)
  {
    assert (trace + [e])[..|trace|] == trace;
  }

  lemma {:induction false} ReducerAgrees(v: View, trace: seq<AgentEvent>)
    requires v.streaming.None? && Observe(trace).Watching?
    ensures ReduceAll(v, trace).messages == v.messages + Observe(trace).completed
    ensures ReduceAll(v, trace).streaming == Observe(trace).open
  {
    if trace != [] {
      ReducerAgrees(v, trace[..|trace| - 1]);
    }
  }

  // ---------------------------------------------------------------- what listeners receive

  /** An event of the run itself, or a late report of a tool execution that a failed run left
      behind: it goes to the listeners of whatever run is active by then. */
  datatype Delivery = Own(event: AgentEvent) | Late(event: AgentEvent)

  function Events(deliveries: seq<Delivery>): seq<AgentEvent> {
    if deliveries == [] then []
    else Events(deliveries[..|deliveries| - 1]) + [deliveries[|deliveries| - 1].event]
  }

  function OwnEvents(deliveries: seq<Delivery>): seq<AgentEvent> {
    if deliveries == [] then []
    else
      var last := deliveries[|deliveries| - 1];
      OwnEvents(deliveries[..|deliveries| - 1]) + (if last.Own? then [last.event] else [])
  }

  predicate NoneLate(deliveries: seq<Delivery>) {
    forall d <- deliveries :: d.Own?
  }

  /** Only progress of a tool can be reported late. */
  predicate LateUpdates(deliveries: seq<Delivery>) {
    forall d <- deliveries :: d.Late? ==> d.event.ToolUpdate?
  }

  lemma DeliverySnoc(deliveries: seq<Delivery>, d: Delivery)
    ensures Events(deliveries + [d]) == Events(deliveries) + [d.event]
    ensures OwnEvents(deliveries + [d]) ==
            if d.Own? then OwnEvents(deliveries) + [d.event] else OwnEvents(deliveries)
    ensures NoneLate(deliveries + [d]) <==> NoneLate(deliveries) && d.Own?
    ensures LateUpdates(deliveries + [d]) <==> LateUpdates(deliveries) && (d.Late? ==> d.event.ToolUpdate?)
  {
    var all := deliveries + [d];
    assert all[..|deliveries|] == deliveries;
    assert OwnEvents(deliveries) + [] == OwnEvents(deliveries);
    assert forall x :: x in all <==> x in deliveries || x == d;
  }
}
