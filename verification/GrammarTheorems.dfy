/** What the event grammar means, said without the observer, and what the reducer makes of it. */
module GrammarTheorems {
  import opened Wrappers
  import opened AgentEvents

  function Last<T>(s: seq<T>): T
    requires s != []
  {
    s[|s| - 1]
  }

  function Init<T>(s: seq<T>): seq<T>
    requires s != []
  {
    s[..|s| - 1]
  }

  function TurnsStarted(trace: seq<AgentEvent>): nat {
    if trace == [] then 0 else TurnsStarted(Init(trace)) + (if Last(trace).TurnStart? then 1 else 0)
  }

  function TurnsEnded(trace: seq<AgentEvent>): nat {
    if trace == [] then 0 else TurnsEnded(Init(trace)) + (if Last(trace).TurnEnd? then 1 else 0)
  }

  /** How many messages are open, if every start opened one more. */
  function OpenMessages(trace: seq<AgentEvent>): int {
    if trace == [] then 0
    else OpenMessages(Init(trace)) +
         (if Last(trace).MessageStart? then 1 else if Last(trace).MessageEnd? then -1 else 0)
  }

  /** The ids of the tool executions started, or ended, since the last turn start. */
  function StartedThisTurn(trace: seq<AgentEvent>): seq<string> {
    if trace == [] || Last(trace).TurnStart? then []
    else StartedThisTurn(Init(trace)) + (if Last(trace).ToolStart? then [Last(trace).id] else [])
  }

  function EndedThisTurn(trace: seq<AgentEvent>): seq<string> {
    if trace == [] || Last(trace).TurnStart? then []
    else EndedThisTurn(Init(trace)) + (if Last(trace).ToolEnd? then [Last(trace).id] else [])
  }

  /** Every prefix of a legal trace is legal. */
  lemma {:induction false} PrefixLegal(trace: seq<AgentEvent>, n: nat)
    requires n <= |trace| && Observe(trace).Watching?
    ensures Observe(trace[..n]).Watching?
    ensures Observe(trace[..n]).restarts <= Observe(trace).restarts
  {
    if n == |trace| {
      assert trace[..n] == trace;
    } else {
      assert trace[..n] == Init(trace)[..n];
      PrefixLegal(Init(trace), n);
    }
  }

  /** How one event moves between the phases of a run. */
  lemma PhaseStep(o: Observer, e: AgentEvent)
    requires Step(o, e).Watching?
    ensures o.Watching? && o.phase != Over && Step(o, e).phase != Fresh
    ensures e.AgentStart? <==> o.phase == Fresh
    ensures e.AgentEnd? <==> Step(o, e).phase == Over
    ensures e.TurnStart? ==> o.phase != InTurn && Step(o, e).phase == InTurn
    ensures e.TurnEnd? ==> o.phase == InTurn && Step(o, e).phase != InTurn
    ensures !e.TurnStart? && !e.TurnEnd? ==> (o.phase == InTurn <==> Step(o, e).phase == InTurn)
  {
    hide MayStartTool, MayEndTurn, MayClose, MayOpen, Running;
  }

  lemma {:induction false} Brackets(trace: seq<AgentEvent>)
    requires Observe(trace).Watching?
    ensures Observe(trace).phase == Fresh <==> trace == []
    ensures trace != [] ==> trace[0].AgentStart? && forall i | 0 < i < |trace| :: !trace[i].AgentStart?
    ensures forall i | 0 <= i < |trace| - 1 :: !trace[i].AgentEnd?
    ensures Observe(trace).phase == Over <==> trace != [] && Last(trace).AgentEnd?
    ensures TurnsStarted(trace) == TurnsEnded(trace) + (if Observe(trace).phase == InTurn then 1 else 0)
  {
    hide Step;
    if trace != [] {
      PhaseStep(Observe(Init(trace)), Last(trace));
      Brackets(Init(trace));
    }
  }

  /** A completed run begins with its only `agent_start`, ends with its only `agent_end`, and
      its turns are balanced: every prefix has at most one open turn, the whole has none. */
  lemma RunGrammar(trace: seq<AgentEvent>)
    requires Observe(trace).Watching? && Observe(trace).phase == Over
    ensures |trace| >= 2 && trace[0].AgentStart? && Last(trace).AgentEnd?
    ensures forall i | 0 < i < |trace| - 1 :: !trace[i].AgentStart? && !trace[i].AgentEnd?
    ensures TurnsStarted(trace) == TurnsEnded(trace)
    ensures forall n | 0 <= n <= |trace| ::
      TurnsEnded(trace[..n]) <= TurnsStarted(trace[..n]) <= TurnsEnded(trace[..n]) + 1
  {
    Brackets(trace);
    forall n | 0 <= n <= |trace|
      ensures TurnsEnded(trace[..n]) <= TurnsStarted(trace[..n]) <= TurnsEnded(trace[..n]) + 1
    {
      PrefixLegal(trace, n);
      Brackets(trace[..n]);
    }
  }

  lemma {:induction false} Depth(trace: seq<AgentEvent>)
    requires Observe(trace).Watching?
    ensures OpenMessages(trace) == Observe(trace).restarts + (if Observe(trace).open.Some? then 1 else 0)
  {
    if trace != [] {
      Depth(Init(trace));
    }
  }

  lemma {:induction false} FirstRestart(trace: seq<AgentEvent>) returns (n: nat)
    requires Observe(trace).Watching? && Observe(trace).restarts > 0
    ensures n <= |trace| && OpenMessages(trace[..n]) >= 2
  {
    var before := Init(trace);
    if Observe(before).restarts > 0 {
      n := FirstRestart(before);
      assert trace[..n] == before[..n];
    } else {
      n := |trace|;
      assert trace[..n] == trace;
      Depth(trace);
    }
  }

  /** No two messages are ever open at once exactly when no response restarted. */
  lemma OneMessageAtATime(trace: seq<AgentEvent>)
    requires Observe(trace).Watching?
    ensures Observe(trace).restarts == 0 <==> forall n | 0 <= n <= |trace| :: OpenMessages(trace[..n]) <= 1
  {
    if Observe(trace).restarts == 0 {
      forall n | 0 <= n <= |trace| ensures OpenMessages(trace[..n]) <= 1 {
        PrefixLegal(trace, n);
        Depth(trace[..n]);
      }
    } else {
      var n := FirstRestart(trace);
    }
  }

  /** The messages of the `message_end` events, in order. */
  function MessagesEnded(trace: seq<AgentEvent>): seq<Message> {
    if trace == [] then []
    else MessagesEnded(Init(trace)) + (if Last(trace).MessageEnd? then [Last(trace).message] else [])
  }

  /** The completed messages, which make up the transcript, are those ended, in order; and the
      reducer's transcript grows by them. */
  lemma {:induction false} CompletedMeans(v: View, trace: seq<AgentEvent>)
    requires Observe(trace).Watching?
    ensures Observe(trace).completed == MessagesEnded(trace)
    ensures ReduceAll(v, trace).messages == v.messages + MessagesEnded(trace)
  {
    hide MayStartTool, MayEndTurn, MayClose, MayOpen, Running;
    if trace == [] {
      assert v.messages + [] == v.messages;
    } else {
      CompletedMeans(v, Init(trace));
      Associate(v.messages, MessagesEnded(Init(trace)), if Last(trace).MessageEnd? then [Last(trace).message] else []);
    }
  }

  /** The end of a turn whose assistant message carries an error. */
  predicate ReportsError(e: AgentEvent) {
    e.TurnEnd? && e.message.Assistant? && e.message.error.Some? && e.message.error.value != ""
  }

  /** The reduced error is that of the last turn that ended with one; without any it is what it was. */
  lemma {:induction false} ErrorIsLast(v: View, trace: seq<AgentEvent>) returns (k: int)
    ensures -1 <= k < |trace| && forall i | k < i < |trace| :: !ReportsError(trace[i])
    ensures k == -1 ==> ReduceAll(v, trace).error == v.error
    ensures k >= 0 ==> ReportsError(trace[k]) && ReduceAll(v, trace).error == trace[k].message.error
  {
    k := -1;
    if trace != [] {
      if ReportsError(Last(trace)) {
        k := |trace| - 1;
      } else {
        k := ErrorIsLast(v, Init(trace));
        assert forall i | 0 <= i < |trace| - 1 :: trace[i] == Init(trace)[i];
      }
    }
  }

  lemma {:induction false} ToolBooks(trace: seq<AgentEvent>)
    requires Observe(trace).Watching?
    ensures Observe(trace).started == StartedThisTurn(trace) && Observe(trace).ended == EndedThisTurn(trace)
  {
    hide MayStartTool, MayEndTurn, MayClose, MayOpen, Running;
    if trace != [] {
      ToolBooks(Init(trace));
    }
  }

  lemma {:induction false} AnswerBooks(trace: seq<AgentEvent>)
    requires Observe(trace).Watching?
    ensures
      var o := Observe(trace);
      && (forall m <- o.results :: m.ToolResult?)
      && (o.due.Some? ==> o.phase == InTurn)
      && (o.due.Some? && o.open.Some? ==> o.open.value.ToolResult? && o.open.value.callId == o.due.value)
      && o.ended == AnsweredIds(o.results) + (if o.due.Some? then [o.due.value] else [])
  {
    if trace != [] {
      AnswerBooks(Init(trace));
      var o, e := Observe(Init(trace)), Last(trace);
      if e.MessageEnd? && o.due.Some? {
        assert AnsweredIds(o.results + [e.message]) == AnsweredIds(o.results) + [e.message.callId];
      }
    }
  }

  /** An event adds at most one start, or one end of a running execution. */
  lemma BooksStep(o: Observer, e: AgentEvent)
    requires o.Watching? && Step(o, e).Watching?
    ensures
      var n := Step(o, e);
      || (n.started == o.started && n.ended == o.ended)
      || (n.started == [] && n.ended == [])
      || (e.ToolStart? && n.started == o.started + [e.id] && n.ended == o.ended)
      || (e.ToolEnd? && n.started == o.started && n.ended == o.ended + [e.id] && Running(o, e.id))
  {
  }

  lemma {:induction false} CountBooks(trace: seq<AgentEvent>, x: string)
    requires Observe(trace).Watching?
    ensures Count(Observe(trace).ended, x) <= Count(Observe(trace).started, x)
  {
    if trace != [] {
      CountBooks(Init(trace), x);
      CountBook(Observe(Init(trace)), Last(trace), x);
    }
  }

  lemma CountBook(o: Observer, e: AgentEvent, x: string)
    requires o.Watching? && Step(o, e).Watching? && Count(o.ended, x) <= Count(o.started, x)
    ensures Count(Step(o, e).ended, x) <= Count(Step(o, e).started, x)
  {
    BooksStep(o, e);
    if e.ToolStart? {
      CountSnoc(o.started, e.id, x);
    } else if e.ToolEnd? {
      CountSnoc(o.ended, e.id, x);
    }
  }

  lemma {:induction false} CountMultiset(ids: seq<string>, x: string)
    ensures Count(ids, x) == multiset(ids)[x]
  {
    if ids != [] {
      CountMultiset(Init(ids), x);
      assert ids == Init(ids) + [Last(ids)];
    }
  }

  /** Sub-multisets of equal size are equal. */
  lemma SameBag(a: seq<string>, b: seq<string>)
    requires |a| == |b| && forall x :: Count(a, x) <= Count(b, x)
    ensures multiset(a) == multiset(b)
  {
    forall x ensures multiset(a)[x] <= multiset(b)[x] {
      CountMultiset(a, x);
      CountMultiset(b, x);
    }
    assert multiset(a) <= multiset(b);
    assert |multiset(b) - multiset(a)| == 0;
  }

  /** When a turn ends, its message is the assistant's; a failed one has run no tool; otherwise
      its calls have been started in source order, each has ended exactly once within the turn,
      and each has been answered by exactly one result message, in the order of the ends. */
  lemma TurnEndMeaning(trace: seq<AgentEvent>, m: Message, toolResults: seq<Message>)
    requires Observe(trace + [TurnEnd(m, toolResults)]).Watching?
    ensures m.Assistant?
    ensures m.stop == Error || m.stop == Aborted ==> StartedThisTurn(trace) == []
    ensures m.stop != Error && m.stop != Aborted ==> StartedThisTurn(trace) == Ids(ToolCalls(m.content))
    ensures multiset(EndedThisTurn(trace)) == multiset(StartedThisTurn(trace))
    ensures (forall r <- toolResults :: r.ToolResult?) && AnsweredIds(toolResults) == EndedThisTurn(trace)
  {
    ObserveAppend(trace, TurnEnd(m, toolResults));
    ToolBooks(trace);
    AnswerBooks(trace);
    forall x ensures Count(EndedThisTurn(trace), x) <= Count(StartedThisTurn(trace), x) {
      CountBooks(trace, x);
    }
    SameBag(EndedThisTurn(trace), StartedThisTurn(trace));
  }

  lemma {:induction false} CountPositive(ids: seq<string>, x: string)
    ensures Count(ids, x) > 0 <==> x in ids
  {
    if ids != [] {
      CountPositive(Init(ids), x);
      assert ids == Init(ids) + [Last(ids)];
    }
  }

  /** The pending tool calls the reducer keeps are among the running ones. */
  lemma {:induction false} PendingRuns(v: View, trace: seq<AgentEvent>, x: string)
    requires v.pending == {} && Observe(trace).Watching?
    requires x in ReduceAll(v, trace).pending
    ensures Running(Observe(trace), x)
  {
    var before, e := Init(trace), Last(trace);
    var o := Observe(before);
    if x in ReduceAll(v, before).pending {
      PendingRuns(v, before, x);
    }
    CountBooks(before, x);
    match e {
      case ToolStart(id, _) => RunningStart(o, id, x);
      case ToolEnd(id, _, _, _) => RunningEnd(o, id, x);
      case TurnStart => NothingRunning(before);
      case _ =>
    }
  }

  lemma RunningStart(o: Observer, id: string, x: string)
    requires o.Watching? && Count(o.ended, x) <= Count(o.started, x)
    ensures Running(o, x) || x == id ==> Running(o.(started := o.started + [id]), x)
  {
    CountSnoc(o.started, id, x);
  }

  lemma RunningEnd(o: Observer, id: string, x: string)
    requires o.Watching?
    ensures Running(o, x) && x != id ==> Running(o.(ended := o.ended + [id]), x)
  {
    CountSnoc(o.ended, id, x);
  }

  lemma NonePending(v: View, trace: seq<AgentEvent>)
    requires v.pending == {} && Observe(trace).Watching? && Observe(trace).phase in {Fresh, Gap, Over}
    ensures ReduceAll(v, trace).pending == {}
  {
    NothingRunning(trace);
    forall x ensures x !in ReduceAll(v, trace).pending {
      if x in ReduceAll(v, trace).pending {
        PendingRuns(v, trace, x);
      }
    }
  }

  /** The ids started and not ended. */
  function Unended(started: seq<string>, ended: seq<string>): set<string> {
    set id | id in started && id !in ended
  }

  lemma UnendedStart(started: seq<string>, ended: seq<string>, id: string)
    requires id !in ended
    ensures Unended(started + [id], ended) == Unended(started, ended) + {id}
  {
  }

  lemma UnendedEnd(started: seq<string>, ended: seq<string>, id: string)
    ensures Unended(started, ended + [id]) == Unended(started, ended) - {id}
  {
  }

  /** One event within a turn. */
  lemma PendingStep(v: View, o: Observer, e: AgentEvent)
    requires o.Watching? && Step(o, e).Watching? && Distinct(Step(o, e).started) && !e.TurnStart?
    requires forall x :: Count(o.ended, x) <= Count(o.started, x)
    requires v.pending == Unended(o.started, o.ended)
    ensures Reduce(v, e).pending == Unended(Step(o, e).started, Step(o, e).ended)
  {
    if e.ToolStart? {
      DistinctInit(o.started, e.id);
      CountPositive(o.started, e.id);
      CountPositive(o.ended, e.id);
      UnendedStart(o.started, o.ended, e.id);
    } else if e.ToolEnd? {
      UnendedEnd(o.started, o.ended, e.id);
    }
  }

  /** When the ids started in a turn are distinct, the pending tool calls are exactly the ids
      started and not ended. */
  lemma {:induction false} PendingToolCalls(v: View, trace: seq<AgentEvent>)
    requires v.pending == {} && Observe(trace).Watching? && Distinct(Observe(trace).started)
    ensures ReduceAll(v, trace).pending == set id | id in StartedThisTurn(trace) && id !in EndedThisTurn(trace)
  {
    ToolBooks(trace);
    if trace != [] {
      var before, e := Init(trace), Last(trace);
      if e.TurnStart? {
        NonePending(v, before);
      } else {
        forall x ensures Count(Observe(before).ended, x) <= Count(Observe(before).started, x) {
          CountBooks(before, x);
        }
        DistinctBefore(Observe(before), e);
        PendingToolCalls(v, before);
        ToolBooks(before);
        PendingStep(ReduceAll(v, before), Observe(before), e);
      }
    }
  }

  lemma DistinctBefore(o: Observer, e: AgentEvent)
    requires o.Watching? && Step(o, e).Watching? && Distinct(Step(o, e).started) && !e.TurnStart?
    ensures Distinct(o.started)
  {
    if e.ToolStart? {
      DistinctInit(o.started, e.id);
    }
  }

  lemma DistinctInit(ids: seq<string>, id: string)
    requires Distinct(ids + [id])
    ensures Distinct(ids) && id !in ids
  {
    forall i | 0 <= i < |ids| ensures ids[i] != id {
      assert (ids + [id])[i] == ids[i] && (ids + [id])[|ids|] == id;
    }
    forall i, j | 0 <= i < j < |ids| ensures ids[i] != ids[j] {
      assert (ids + [id])[i] == ids[i] && (ids + [id])[j] == ids[j];
    }
  }

  /** Between turns no execution is running. */
  lemma NothingRunning(trace: seq<AgentEvent>)
    requires Observe(trace).Watching? && Observe(trace).phase in {Fresh, Gap, Over}
    ensures forall id :: !Running(Observe(trace), id)
  {
    Settled(trace);
    var o := Observe(trace);
    forall x ensures Count(o.ended, x) <= Count(o.started, x) {
      CountBooks(trace, x);
    }
    SameBag(o.ended, o.started);
    forall id ensures !Running(o, id) {
      CountMultiset(o.ended, id);
      CountMultiset(o.started, id);
    }
  }

  lemma {:induction false} Settled(trace: seq<AgentEvent>)
    requires Observe(trace).Watching? && Observe(trace).phase != InTurn
    ensures |Observe(trace).ended| == |Observe(trace).started|
  {
    if trace != [] && Observe(Init(trace)).phase != InTurn {
      Settled(Init(trace));
    }
  }

  // ---------------------------------------------------------------- late reports

  /** The observer of the run's own events knows an execution with this id to be running. */
  predicate Expected(o: Observer, id: string) {
    o.Watching? && o.phase == InTurn && Running(o, id)
  }

  /** Every late report has an id that an execution of the current run has at that moment. */
  predicate Welcome(deliveries: seq<Delivery>)
    requires LateUpdates(deliveries)
  {
    forall k | 0 <= k < |deliveries| && deliveries[k].Late? ::
      Expected(Observe(OwnEvents(deliveries[..k])), deliveries[k].event.id)
  }

  lemma WelcomeSnoc(deliveries: seq<Delivery>, d: Delivery)
    requires LateUpdates(deliveries + [d])
    ensures LateUpdates(deliveries)
    ensures Welcome(deliveries + [d]) <==>
            Welcome(deliveries) && (d.Late? ==> Expected(Observe(OwnEvents(deliveries)), d.event.id))
  {
    hide Expected, Observe, OwnEvents;
    var all := deliveries + [d];
    DeliverySnoc(deliveries, d);
    assert all[..|deliveries|] == deliveries;
    assert forall k | 0 <= k < |deliveries| :: all[..k] == deliveries[..k] && all[k] == deliveries[k];
    assert all[|deliveries|] == d;
  }

  /** Listeners see a legal event sequence exactly when every late report has the id of an
      execution that is running in their own run; they then see what the run's own events show.
      In particular nothing is lost when nothing is late. */
  lemma {:induction false} LateReports(deliveries: seq<Delivery>)
    requires LateUpdates(deliveries) && Observe(OwnEvents(deliveries)).Watching?
    ensures Observe(Events(deliveries)).Watching? <==> Welcome(deliveries)
    ensures Welcome(deliveries) ==> Observe(Events(deliveries)) == Observe(OwnEvents(deliveries))
    ensures NoneLate(deliveries) ==> Welcome(deliveries) && Events(deliveries) == OwnEvents(deliveries)
  {
    if deliveries != [] {
      var before, d := deliveries[..|deliveries| - 1], deliveries[|deliveries| - 1];
      assert deliveries == before + [d];
      WelcomeSnoc(before, d);
      DeliverySnoc(before, d);
      ObserveAppend(Events(before), d.event);
      ObserveAppend(OwnEvents(before), d.event);
      LateReports(before);
      LateStep(Observe(OwnEvents(before)), d);
    }
  }

  lemma LateStep(o: Observer, d: Delivery)
    requires o.Watching? && (d.Late? ==> d.event.ToolUpdate?)
    ensures d.Late? ==> Step(o, d.event) == if Expected(o, d.event.id) then o else Broken
    ensures Step(Broken, d.event) == Broken
  {
  }
}
