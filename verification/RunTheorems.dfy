/**
 * What the log of a run implies: independence of the schedule, turn bounds, how runs end, queue
 * conservation, reports of executions that failed runs left behind.
 */
module RunTheorems {
  import opened Wrappers
  import opened AgentEvents
  import opened AgentState
  import opened AgentEnvironment
  import opened TurnLogs
  import opened RunLogs
  import G = GrammarTheorems

  // ---------------------------------------------------------------- independence of the schedule

  lemma SplitLast<T>(a: seq<T>, x: T, b: seq<T>, y: T)
    requires a + [x] == b + [y]
    ensures a == b && x == y
  {
    assert (a + [x])[|a|] == x && (b + [y])[|b|] == y;
    assert (a + [x])[..|a|] == a && (b + [y])[..|b|] == b;
  }

  /** One call's fate is known from its verdict and, if it ran, from its outcome. */
  lemma SameFate(fate: Fate, fate': Fate, verdict: Preparation)
    requires Befits(fate, verdict) && Befits(fate', verdict)
    ensures fate.Ran? == fate'.Ran? && (!fate.Ran? ==> fate == fate')
  {
  }

  /** The gates, and what the executions of the admitted calls gave, determine every fate. */
  lemma {:induction false} JudgedDetermines(calls: seq<ToolCall>, tools: seq<string>, gates: seq<Option<Gate>>,
                                            fates: seq<Fate>, fates': seq<Fate>)
    requires Judged(calls, tools, gates, fates) && Judged(calls, tools, gates, fates')
    requires RunFates(fates) == RunFates(fates')
    ensures fates == fates'
  {
    hide Verdict, Befits;
    if fates != [] {
      var n := |fates| - 1;
      var f, f' := RunFates(fates[..n]), RunFates(fates'[..n]);
      SameFate(fates[n], fates'[n], Verdict(calls[n], tools, gates[n]));
      if fates[n].Ran? {
        SplitLast(f, fates[n], f', fates'[n]);
      } else {
        assert f + [] == f && f' + [] == f';
      }
      JudgedPrefix(calls, tools, gates, fates);
      JudgedPrefix(calls, tools, gates, fates');
      JudgedDetermines(calls, tools, gates[..n], fates[..n], fates'[..n]);
      assert fates == fates[..n] + [fates[n]] && fates' == fates'[..n] + [fates'[n]];
    }
  }

  lemma JudgedPrefix(calls: seq<ToolCall>, tools: seq<string>, gates: seq<Option<Gate>>, fates: seq<Fate>)
    requires Judged(calls, tools, gates, fates) && fates != []
    ensures Judged(calls, tools, gates[..|fates| - 1], fates[..|fates| - 1])
  {
    hide Befits, Verdict;
  }

  /** The same response, the same gates and the same outcomes of executions and hooks give the
      same results, whatever the schedule of the executions was. */
  lemma ScheduleIndependent(t: Turn, u: Turn, mode: ToolExecution, tools: seq<string>)
    requires t.WellAnswered(mode, tools) && u.WellAnswered(mode, tools)
    requires t.assistant == u.assistant && t.gates == u.gates && RunFates(t.fates) == RunFates(u.fates)
    ensures t.fates == u.fates && t.results == u.results
  {
    hide Order, Replies;
    if !Failed(t.assistant) {
      JudgedDetermines(t.Calls(), tools, t.gates, t.fates, u.fates);
    }
  }

  predicate OfTools(answers: seq<Answer>) {
    forall a <- answers :: a.Gated? || a.Executed? || a.Hooked?
  }

  predicate OfStream(answers: seq<Answer>) {
    forall a <- answers :: a.Streamed?
  }

  lemma {:induction false} StreamKind(events: seq<StreamEvent>)
    ensures OfStream(StreamHeard(events)) && |StreamHeard(events)| == |events|
  {
    if events != [] {
      StreamKind(events[..|events| - 1]);
    }
  }

  lemma {:induction false} StreamDetermined(events: seq<StreamEvent>, events': seq<StreamEvent>)
    requires StreamHeard(events) == StreamHeard(events')
    ensures events == events'
  {
    StreamKind(events);
    StreamKind(events');
    if events != [] {
      var n := |events| - 1;
      SplitLast(StreamHeard(events[..n]), Streamed(events[n]), StreamHeard(events'[..n]), Streamed(events'[n]));
      StreamDetermined(events[..n], events'[..n]);
      assert events == events[..n] + [events[n]] && events' == events'[..n] + [events'[n]];
    }
  }

  lemma {:induction false} CallsKind(calls: seq<ToolCall>, gates: seq<Option<Gate>>, fates: seq<Fate>)
    requires |gates| == |fates| <= |calls|
    ensures OfTools(CallsHeard(calls, gates, fates))
  {
    if fates != [] {
      var n := |fates| - 1;
      CallsKind(calls, gates[..n], fates[..n]);
    }
  }

  lemma {:induction false} GatesKind(gates: seq<Option<Gate>>)
    ensures OfTools(GatesHeard(gates))
  {
    if gates != [] {
      GatesKind(gates[..|gates| - 1]);
    }
  }

  lemma {:induction false} RunsKind(runnable: seq<ToolCall>, done: seq<Fate>)
    requires |done| <= |runnable|
    ensures OfTools(RunsHeard(runnable, done))
  {
    if done != [] {
      RunsKind(runnable, done[..|done| - 1]);
    }
  }

  lemma ToolsKind(mode: ToolExecution, calls: seq<ToolCall>, gates: seq<Option<Gate>>, fates: seq<Fate>)
    requires |gates| == |fates| <= |calls|
    ensures OfTools(ToolsHeard(mode, calls, gates, fates))
  {
    hide CallsHeard, GatesHeard, RunsHeard;
    CallsKind(calls, gates, fates);
    GatesKind(gates);
    RunFatesLength(calls, fates);
    RunsKind(Runnable(calls, fates), RunFates(fates));
  }

  /** What sequential execution hears determines gates and fates. */
  lemma {:induction false} CallsDetermined(calls: seq<ToolCall>, tools: seq<string>, gates: seq<Option<Gate>>,
                                           fates: seq<Fate>, gates': seq<Option<Gate>>, fates': seq<Fate>)
    requires Judged(calls, tools, gates, fates) && Judged(calls, tools, gates', fates') && |fates| == |fates'|
    requires CallsHeard(calls, gates, fates) == CallsHeard(calls, gates', fates')
    ensures gates == gates' && fates == fates'
  {
    hide Verdict, Befits, CallsHeard, RunHeard, GateHeard;
    if fates != [] {
      var n := |fates| - 1;
      var a, b := CallsHeard(calls, gates[..n], fates[..n]), CallsHeard(calls, gates'[..n], fates'[..n]);
      CallsHeardLast(calls, gates, fates);
      CallsHeardLast(calls, gates', fates');
      UnaskedNeverRuns(calls[n], tools, gates[n], fates[n]);
      UnaskedNeverRuns(calls[n], tools, gates'[n], fates'[n]);
      SameSegment(calls[n], gates[n], fates[n], gates'[n], fates'[n], a, b);
      SameFate(fates[n], fates'[n], Verdict(calls[n], tools, gates[n]));
      JudgedPrefix(calls, tools, gates, fates);
      JudgedPrefix(calls, tools, gates', fates');
      CallsDetermined(calls, tools, gates[..n], fates[..n], gates'[..n], fates'[..n]);
      assert gates == gates[..n] + [gates[n]] && gates' == gates'[..n] + [gates'[n]];
      assert fates == fates[..n] + [fates[n]] && fates' == fates'[..n] + [fates'[n]];
    }
  }

  lemma CallsHeardLast(calls: seq<ToolCall>, gates: seq<Option<Gate>>, fates: seq<Fate>)
    requires |gates| == |fates| <= |calls| && fates != []
    ensures
      var n := |fates| - 1;
      CallsHeard(calls, gates, fates) ==
      CallsHeard(calls, gates[..n], fates[..n]) + GateHeard(gates[n]) + RunHeard(calls[n], fates[n])
  {
    hide RunHeard;
  }

  lemma UnaskedNeverRuns(call: ToolCall, tools: seq<string>, gate: Option<Gate>, fate: Fate)
    requires Befits(fate, Verdict(call, tools, gate))
    ensures gate.None? ==> !fate.Ran?
  {
  }

  /** The answers about one call can be told from those before it. */
  lemma SameSegment(call: ToolCall, gate: Option<Gate>, fate: Fate, gate': Option<Gate>, fate': Fate,
                    a: seq<Answer>, b: seq<Answer>)
    requires a + GateHeard(gate) + RunHeard(call, fate) == b + GateHeard(gate') + RunHeard(call, fate')
    requires gate.Some? == gate'.Some? && (gate.None? ==> !fate.Ran? && !fate'.Ran?)
    ensures a == b && gate == gate' && fate.Ran? == fate'.Ran?
    ensures fate.Ran? ==> fate == fate'
  {
    var l: seq<Answer>, r: seq<Answer> := a + GateHeard(gate), b + GateHeard(gate');
    var h: seq<Answer>, h': seq<Answer> := RunHeard(call, fate), RunHeard(call, fate');
    assert fate.Ran? ==> (l + h)[|l + h| - 1].Hooked?;
    assert fate'.Ran? ==> (r + h')[|r + h'| - 1].Hooked?;
    assert !fate.Ran? ==> l + h == l;
    assert !fate'.Ran? ==> r + h' == r;
    if gate.None? {
      assert l == a && r == b;
    } else {
      assert l[|l| - 1] == Gated(gate.value) && r[|r| - 1] == Gated(gate'.value);
      if fate.Ran? {
        SameRun(call, fate, call, fate', l, r);
      }
      SplitLast(a, Gated(gate.value), b, Gated(gate'.value));
    }
  }

  lemma SameRun(call: ToolCall, fate: Fate, call': ToolCall, fate': Fate, a: seq<Answer>, b: seq<Answer>)
    requires fate.Ran? && fate'.Ran?
    requires a + RunHeard(call, fate) == b + RunHeard(call', fate')
    ensures a == b && call == call' && fate == fate'
  {
    var x, y := Executed(call, fate.execution), Hooked(fate.after);
    var x', y' := Executed(call', fate'.execution), Hooked(fate'.after);
    assert a + [x, y] == a + [x] + [y] && b + [x', y'] == b + [x'] + [y'];
    SplitLast(a + [x], y, b + [x'], y');
    SplitLast(a, x, b, x');
  }

  /** Both have asked about the same calls. */
  predicate SameAsked(gates: seq<Option<Gate>>, gates': seq<Option<Gate>>) {
    |gates| == |gates'| && forall i | 0 <= i < |gates| :: gates[i].Some? == gates'[i].Some?
  }

  lemma {:induction false} GatesLength(gates: seq<Option<Gate>>, gates': seq<Option<Gate>>)
    requires SameAsked(gates, gates')
    ensures |GatesHeard(gates)| == |GatesHeard(gates')|
  {
    if gates != [] {
      GatesLength(gates[..|gates| - 1], gates'[..|gates| - 1]);
    }
  }

  lemma {:induction false} GatesDetermined(gates: seq<Option<Gate>>, gates': seq<Option<Gate>>)
    requires SameAsked(gates, gates') && GatesHeard(gates) == GatesHeard(gates')
    ensures gates == gates'
  {
    if gates != [] {
      var n := |gates| - 1;
      var g, g' := gates[..n], gates'[..n];
      if gates[n].Some? {
        SplitLast(GatesHeard(g), Gated(gates[n].value), GatesHeard(g'), Gated(gates'[n].value));
      } else {
        assert GatesHeard(g) + [] == GatesHeard(g) && GatesHeard(g') + [] == GatesHeard(g');
      }
      GatesDetermined(g, g');
      assert gates == g + [gates[n]] && gates' == g' + [gates'[n]];
    }
  }

  lemma {:induction false} RunsDetermined(runnable: seq<ToolCall>, done: seq<Fate>, runnable': seq<ToolCall>,
                                          done': seq<Fate>)
    requires |done| <= |runnable| && |done'| <= |runnable'|
    requires (forall f <- done :: f.Ran?) && (forall f <- done' :: f.Ran?)
    requires RunsHeard(runnable, done) == RunsHeard(runnable', done')
    ensures done == done'
  {
    RunsLength(runnable, done);
    RunsLength(runnable', done');
    if done != [] {
      var n, n' := |done| - 1, |done'| - 1;
      assert done[n] in done && done'[n'] in done';
      SameRun(runnable[n], done[n], runnable'[n'], done'[n'], RunsHeard(runnable, done[..n]),
              RunsHeard(runnable', done'[..n']));
      assert (forall f <- done[..n] :: f in done) && (forall f <- done'[..n'] :: f in done');
      RunsDetermined(runnable, done[..n], runnable', done'[..n']);
      assert done == done[..n] + [done[n]] && done' == done'[..n'] + [done'[n']];
    }
  }

  lemma {:induction false} RunsLength(runnable: seq<ToolCall>, done: seq<Fate>)
    requires |done| <= |runnable| && forall f <- done :: f.Ran?
    ensures |RunsHeard(runnable, done)| == 2 * |done|
  {
    if done != [] {
      var n := |done| - 1;
      assert done[n] in done && forall f <- done[..n] :: f in done;
      RunsLength(runnable, done[..n]);
    }
  }

  /** What is heard while calls are dealt with determines gates and fates, in both modes. */
  lemma ToolsDetermined(mode: ToolExecution, calls: seq<ToolCall>, tools: seq<string>, gates: seq<Option<Gate>>,
                        fates: seq<Fate>, gates': seq<Option<Gate>>, fates': seq<Fate>)
    requires Judged(calls, tools, gates, fates) && Judged(calls, tools, gates', fates') && |fates| == |fates'|
    requires ToolsHeard(mode, calls, gates, fates) == ToolsHeard(mode, calls, gates', fates')
    ensures gates == gates' && fates == fates'
  {
    hide Judged, CallsHeard, GatesHeard, RunsHeard, RunFates, Runnable;
    SameLengths(calls, tools, gates, fates, gates', fates');
    if mode == Sequential {
      CallsDetermined(calls, tools, gates, fates, gates', fates');
    } else {
      RunFatesLength(calls, fates);
      RunFatesLength(calls, fates');
      var l, r := GatesHeard(gates), RunsHeard(Runnable(calls, fates), RunFates(fates));
      var l', r' := GatesHeard(gates'), RunsHeard(Runnable(calls, fates'), RunFates(fates'));
      GatesLength(gates, gates');
      assert l == (l + r)[..|l|] && l' == (l' + r')[..|l'|];
      assert r == (l + r)[|l|..] && r' == (l' + r')[|l'|..];
      GatesDetermined(gates, gates');
      RunsDetermined(Runnable(calls, fates), RunFates(fates), Runnable(calls, fates'), RunFates(fates'));
      JudgedDetermines(calls, tools, gates, fates, fates');
    }
  }

  lemma SameLengths(calls: seq<ToolCall>, tools: seq<string>, gates: seq<Option<Gate>>, fates: seq<Fate>,
                    gates': seq<Option<Gate>>, fates': seq<Fate>)
    requires Judged(calls, tools, gates, fates) && Judged(calls, tools, gates', fates') && |fates| == |fates'|
    ensures |gates| == |fates| <= |calls| && SameAsked(gates, gates')
  {
    hide Befits, Verdict;
  }

  /** The last final message splits what has been heard. */
  lemma SplitAtFinal(a: seq<Answer>, m: Message, b: seq<Answer>, a': seq<Answer>, m': Message, b': seq<Answer>)
    requires a + [Final(m)] + b == a' + [Final(m')] + b' && OfTools(b) && OfTools(b')
    ensures a == a' && m == m' && b == b'
  {
    var all := a + [Final(m)] + b;
    assert all[|a|] == Final(m) && all[|a'|] == Final(m');
    if |a'| < |a| {
      AfterFinal(a', m', b', |a|);
    } else if |a| < |a'| {
      AfterFinal(a, m, b, |a'|);
    } else {
      assert all[..|a|] == a && (a' + [Final(m')] + b')[..|a|] == a';
      assert all[|a| + 1..] == b && (a' + [Final(m')] + b')[|a| + 1..] == b';
    }
  }

  lemma AfterFinal(a: seq<Answer>, m: Message, b: seq<Answer>, k: nat)
    requires OfTools(b) && |a| < k <= |a| + |b|
    ensures !(a + [Final(m)] + b)[k].Final?
  {
    assert (a + [Final(m)] + b)[k] == b[k - |a| - 1] && b[k - |a| - 1] in b;
  }

  predicate EndsStreaming(answers: seq<Answer>) {
    answers != [] && answers[|answers| - 1].Streamed?
  }

  lemma SplitStream(a: seq<Answer>, s: seq<Answer>, a': seq<Answer>, s': seq<Answer>)
    requires a + s == a' + s' && OfStream(s) && OfStream(s') && !EndsStreaming(a) && !EndsStreaming(a')
    ensures a == a' && s == s'
  {
    assert a != [] ==> (a + s)[|a| - 1] == a[|a| - 1];
    assert a' != [] ==> (a' + s')[|a'| - 1] == a'[|a'| - 1];
    if |a'| < |a| {
      StreamedAt(a', s', |a| - 1);
    } else if |a| < |a'| {
      StreamedAt(a, s, |a'| - 1);
    } else {
      assert (a + s)[..|a|] == a && (a' + s')[..|a|] == a';
      assert (a + s)[|a|..] == s && (a' + s')[|a|..] == s';
    }
  }

  lemma StreamedAt(a: seq<Answer>, s: seq<Answer>, k: int)
    requires OfStream(s) && |a| <= k < |a| + |s|
    ensures (a + s)[k].Streamed?
  {
    assert (a + s)[k] == s[k - |a|] && s[k - |a|] in s;
  }

  lemma TurnSizes(t: Turn, mode: ToolExecution, tools: seq<string>)
    requires t.WellAnswered(mode, tools)
    ensures |t.gates| == |t.fates| <= |t.Calls()|
  {
  }

  /** What is heard in the last turn of two runs that have heard the same. */
  lemma LastTurnDetermined(before: seq<Answer>, t: Turn, before': seq<Answer>, u: Turn, mode: ToolExecution,
                           tools: seq<string>)
    requires t.WellAnswered(mode, tools) && u.WellAnswered(mode, tools)
    requires !EndsStreaming(before) && !EndsStreaming(before')
    requires before + t.Heard(mode) == before' + u.Heard(mode)
    ensures before == before' && t.(batch := u.batch) == u
  {
    hide StreamHeard, ToolsHeard, Judged, Within, Replies, Order, ToolCalls;
    TurnSizes(t, mode, tools);
    TurnSizes(u, mode, tools);
    var tools1, tools2 := ToolsHeard(mode, t.Calls(), t.gates, t.fates), ToolsHeard(mode, u.Calls(), u.gates, u.fates);
    ToolsKind(mode, t.Calls(), t.gates, t.fates);
    ToolsKind(mode, u.Calls(), u.gates, u.fates);
    AssociateFour(before, StreamHeard(t.events), [Final(t.assistant)], tools1);
    AssociateFour(before', StreamHeard(u.events), [Final(u.assistant)], tools2);
    SplitAtFinal(before + StreamHeard(t.events), t.assistant, tools1, before' + StreamHeard(u.events), u.assistant,
                 tools2);
    StreamKind(t.events);
    StreamKind(u.events);
    SplitStream(before, StreamHeard(t.events), before', StreamHeard(u.events));
    StreamDetermined(t.events, u.events);
    if !Failed(t.assistant) {
      ToolsDetermined(mode, t.Calls(), tools, t.gates, t.fates, u.gates, u.fates);
    }
  }

  lemma {:induction false} TurnsEndQuietly(turns: seq<Turn>, mode: ToolExecution, tools: seq<string>)
    requires AllAnswered(turns, mode, tools)
    ensures !EndsStreaming(TurnsHeard(turns, mode, tools))
    ensures turns != [] ==> TurnsHeard(turns, mode, tools) != []
  {
    hide StreamHeard, ToolsHeard;
    if turns != [] {
      var t := turns[|turns| - 1];
      var rest := ToolsHeard(mode, t.Calls(), t.gates, t.fates);
      ToolsKind(mode, t.Calls(), t.gates, t.fates);
      assert rest != [] ==> rest[|rest| - 1] in rest;
    }
  }

  /** Independence of the schedule, for whole runs: two runs that have been told the same, by
      provider, gates, executions and hooks, have made the same turns, up to the queued messages
      injected into them; when, and in which order, executions settled does not matter. */
  lemma {:induction false} RunsDependOnAnswers(turns: seq<Turn>, turns': seq<Turn>, mode: ToolExecution,
                                               tools: seq<string>)
    requires AllAnswered(turns, mode, tools) && AllAnswered(turns', mode, tools)
    requires TurnsHeard(turns, mode, tools) == TurnsHeard(turns', mode, tools)
    ensures |turns| == |turns'| && forall i | 0 <= i < |turns| :: turns[i].(batch := turns'[i].batch) == turns'[i]
  {
    hide Turn.Heard, Turn.WellAnswered;
    TurnsEndQuietly(turns, mode, tools);
    TurnsEndQuietly(turns', mode, tools);
    if turns != [] && turns' != [] {
      var ts, us := turns[..|turns| - 1], turns'[..|turns'| - 1];
      TurnsEndQuietly(ts, mode, tools);
      TurnsEndQuietly(us, mode, tools);
      LastTurnDetermined(TurnsHeard(ts, mode, tools), turns[|ts|], TurnsHeard(us, mode, tools), turns'[|us|], mode,
                         tools);
      RunsDependOnAnswers(ts, us, mode, tools);
      assert forall i | 0 <= i < |ts| :: turns[i] == ts[i] && turns'[i] == us[i];
    }
  }

  // ---------------------------------------------------------------- whole runs

  lemma {:induction false} MemoryLength(turns: seq<Turn>)
    ensures |Memory(turns)| == |Transcript(turns)| + StaleCount(turns)
  {
    if turns != [] {
      MemoryLength(turns[..|turns| - 1]);
    }
  }

  lemma {:induction false} MemoryWithoutStale(turns: seq<Turn>)
    requires StaleCount(turns) == 0
    ensures Memory(turns) == Transcript(turns)
  {
    if turns != [] {
      var t := turns[|turns| - 1];
      MemoryWithoutStale(turns[..|turns| - 1]);
      assert Stale(t.events) == [];
      assert t.batch.Messages() + [] + [t.assistant] + t.results == t.Said();
    }
  }

  /** The loop's context and the transcript agree iff no response restarted. */
  lemma ContextAgrees(base: RunBase, log: RunLog)
    ensures base.memory + Memory(log.turns) == base.memory + Transcript(log.turns) <==> StaleCount(log.turns) == 0
  {
    MemoryLength(log.turns);
    if StaleCount(log.turns) == 0 {
      MemoryWithoutStale(log.turns);
    } else {
      assert |base.memory + Memory(log.turns)| != |base.memory + Transcript(log.turns)|;
    }
  }

  function ToolTurns(turns: seq<Turn>): nat {
    if turns == [] then 0 else ToolTurns(turns[..|turns| - 1]) + (if turns[|turns| - 1].Calls() != [] then 1 else 0)
  }

  /** The messages injected from both queues. */
  function Delivered(turns: seq<Turn>): nat {
    if turns == [] then 0 else Delivered(turns[..|turns| - 1]) + |turns[|turns| - 1].batch.Messages()|
  }

  /** A run makes at most one turn more than it has turns with tool calls, the last one not
      counted, and injected messages: with finitely many of both it ends, whatever the cap. */
  lemma {:induction false} TurnsAreJustified(turns: seq<Turn>, skip: bool)
    requires turns != [] && Chained(turns, skip)
    ensures |turns| <= 1 + ToolTurns(turns[..|turns| - 1]) + Delivered(turns)
  {
    var n := |turns| - 1;
    if n > 0 {
      TurnsAreJustified(turns[..n], skip);
      assert MayFollow(turns[..n], turns[n].batch, skip);
    }
  }

  /** Only the last response of a run can have failed, whether with an error or by abortion. */
  lemma FailureIsLast(turns: seq<Turn>, skip: bool, i: nat)
    requires Chained(turns, skip) && i < |turns|
    ensures turns[i].assistant.stop == Error || turns[i].assistant.stop == Aborted ==> i == |turns| - 1
  {
    hide Chained, Turn.Calls, Batch.Messages, Batch.From;
    if i + 1 < |turns| {
      TurnFollows(turns, skip, i + 1);
    }
  }

  /** Why runs end. With an error exactly when the last response failed, with an error or by
      abortion; it has then run no tools. Normally only after a response without tool calls and
      with both queues empty. By the cap only when that many turns have been made and there was
      something left to respond to. */
  lemma EndsFor(log: RunLog, base: RunBase)
    requires Sound(log, base) && log.Complete(base.maxTurns, base.skip)
    ensures log.turns != [] && log.exit != NotYet
    ensures
      var last := log.turns[|log.turns| - 1];
      && (log.exit == Errored <==> last.assistant.stop == Error || last.assistant.stop == Aborted)
      && (log.exit == Errored ==> last.results == [] && last.fates == [] && last.gates == [])
      && (log.exit == Errored ==> log.pending.steering.None? && log.pending.followUps.None?)
      && (log.exit == Finished ==> ToolCalls(last.assistant.content) == [])
      && (log.exit == Finished ==> log.pending.steering.Some? && log.pending.steering.value.found == [])
      && (log.exit == Finished ==> log.pending.followUps.Some? && log.pending.followUps.value.found == [])
      && (log.exit == Capped ==> ToolCalls(last.assistant.content) != [] || log.pending.Messages() != [])
    ensures log.exit == Capped ==>
      && base.maxTurns.Some? && base.maxTurns.value > 0.0
      && |log.turns| as real >= base.maxTurns.value
  {
    hide Chained, Judged, Replies, Order, ToolCalls, Batch.Messages, Batch.From;
    assert AllAnswered(log.turns, base.mode, base.tools);
  }

  /** With a positive cap a run makes at most the cap's ceiling of turns, and one that the cap
      ends has made exactly that many. */
  lemma CapBounds(log: RunLog, base: RunBase, ceiling: nat)
    requires Sound(log, base) && base.maxTurns.Some? && base.maxTurns.value > 0.0
    requires ceiling as real - 1.0 < base.maxTurns.value <= ceiling as real
    ensures |log.turns| <= ceiling
    ensures AtCap(base.maxTurns, |log.turns|) ==> |log.turns| == ceiling
  {
    var n := |log.turns|;
    assert n > ceiling ==> n as real >= ceiling as real + 1.0;
    assert n < ceiling ==> n as real <= ceiling as real - 1.0;
  }

  /** The messages a run has injected from one queue. */
  function Injected(queue: Source, turns: seq<Turn>): seq<Message> {
    if turns == [] then []
    else Injected(queue, turns[..|turns| - 1]) + turns[|turns| - 1].batch.From(queue)
  }

  lemma {:induction false} AllTakenAppend(a: seq<Poll>, b: seq<Poll>)
    ensures AllTaken(a + b) == AllTaken(a) + AllTaken(b)
  {
    hide Poll.Taken;
    if b == [] {
      assert a + b == a;
    } else {
      var n := |b| - 1;
      AllTakenAppend(a, b[..n]);
      assert (a + b)[..|a + b| - 1] == a + b[..n];
    }
  }

  lemma TakenByBatch(batch: Batch, queue: Source)
    ensures AllTaken(DrawnBy(queue, batch)) == batch.From(queue)
  {
    hide Poll.Taken;
    var d := DrawnBy(queue, batch);
    if d != [] {
      assert d[..0] == [];
    }
  }

  lemma {:induction false} DrawnInjected(queue: Source, turns: seq<Turn>)
    ensures AllTaken(Drawn(queue, turns)) == Injected(queue, turns)
  {
    hide DrawnBy, Batch.From;
    if turns != [] {
      var n := |turns| - 1;
      DrawnInjected(queue, turns[..n]);
      AllTakenAppend(Drawn(queue, turns[..n]), DrawnBy(queue, turns[n].batch));
      TakenByBatch(turns[n].batch, queue);
    }
  }

  /** What one queue has given out since the run began. */
  lemma GivenOut(queue: Source, log: RunLog, before: seq<Poll>, polls: seq<Poll>)
    requires polls == before + Drawn(queue, log.turns) + DrawnBy(queue, log.pending)
    ensures AllTaken(polls) == AllTaken(before) + Injected(queue, log.turns) + log.pending.From(queue)
  {
    hide AllTaken, Drawn, DrawnBy, Injected, Batch.From;
    AllTakenAppend(before + Drawn(queue, log.turns), DrawnBy(queue, log.pending));
    AllTakenAppend(before, Drawn(queue, log.turns));
    DrawnInjected(queue, log.turns);
    TakenByBatch(log.pending, queue);
  }

  /** Conservation over a run, at any point of it: every steering message enqueued and not
      cleared was drained before the run, is in the transcript of a turn, is pending, or is
      still queued, in this order; and likewise for follow-ups. */
  lemma QueuesConserved(agent: Agent, log: RunLog, base: RunBase, heard: seq<Answer>)
    requires agent.Valid() && Logging(log, base, agent.steeringQueue.polls, agent.followUpQueue.polls, heard)
    ensures agent.steeringQueue.accepted ==
            AllTaken(base.steered) + Injected(Steering, log.turns) + log.pending.From(Steering) +
              agent.steeringQueue.messages
    ensures agent.followUpQueue.accepted ==
            AllTaken(base.followed) + Injected(FollowUps, log.turns) + log.pending.From(FollowUps) +
              agent.followUpQueue.messages
  {
    hide Agent.Recorded, Sound, Backed, Drawn, DrawnBy, Injected, AllTaken, Batch.From;
    assert Key(0);
    GivenOut(Steering, log, base.steered, agent.steeringQueue.polls);
    GivenOut(FollowUps, log, base.followed, agent.followUpQueue.polls);
  }

  /** However a run ends, also by a failure, no more than its pending batch is lost: that is part
      of one queue only, and at most one message if the polls of the batch found their queues in
      one-at-a-time mode. */
  lemma LosesAtMostPending(agent: Agent, log: RunLog, base: RunBase, heard: seq<Answer>)
    requires agent.Valid() && Logging(log, base, agent.steeringQueue.polls, agent.followUpQueue.polls, heard)
    ensures
      var accepted := |agent.steeringQueue.accepted| + |agent.followUpQueue.accepted|;
      var before := |AllTaken(base.steered)| + |AllTaken(base.followed)|;
      var injected := |Injected(Steering, log.turns)| + |Injected(FollowUps, log.turns)|;
      var queued := |agent.steeringQueue.messages| + |agent.followUpQueue.messages|;
      && accepted == before + injected + queued + |log.pending.Messages()|
      && (OneByOne(DrawnBy(Steering, log.pending) + DrawnBy(FollowUps, log.pending)) ==>
            accepted <= before + injected + queued + 1)
    ensures log.pending.From(Steering) == [] || log.pending.From(FollowUps) == []
  {
    hide Agent.Valid, Drawn, Injected, AllTaken, Logging;
    QueuesConserved(agent, log, base, heard);
    PendingPolls(log, base, agent.steeringQueue.polls, agent.followUpQueue.polls, heard);
    var polls := DrawnBy(Steering, log.pending) + DrawnBy(FollowUps, log.pending);
    assert log.pending.steering.Some? ==> log.pending.steering.value in polls;
    assert log.pending.followUps.Some? ==> log.pending.followUps.value in polls;
  }

  lemma PendingPolls(log: RunLog, base: RunBase, steered: seq<Poll>, followed: seq<Poll>, heard: seq<Answer>)
    requires Logging(log, base, steered, followed, heard)
    ensures Chained(log.turns, base.skip) && (log.pending.followUps.Some? ==> log.pending.From(Steering) == [])
    ensures Ledger(log, base, steered, followed)
  {
    hide Ledger, Chained, AllAnswered, Backed;
    assert Key(0);
  }

  /** A run that ended drops nothing unless the cap ended it, and then only the batch polled last. */
  lemma OnlyTheCapDrops(agent: Agent, log: RunLog, base: RunBase, heard: seq<Answer>)
    requires agent.Valid() && Logging(log, base, agent.steeringQueue.polls, agent.followUpQueue.polls, heard)
    requires log.Complete(base.maxTurns, base.skip) && log.exit != Capped
    ensures agent.steeringQueue.accepted ==
            AllTaken(base.steered) + Injected(Steering, log.turns) + agent.steeringQueue.messages
    ensures agent.followUpQueue.accepted ==
            AllTaken(base.followed) + Injected(FollowUps, log.turns) + agent.followUpQueue.messages
  {
    hide Agent.Valid, Logging, AllTaken, Injected;
    QueuesConserved(agent, log, base, heard);
    var s, f := AllTaken(base.steered) + Injected(Steering, log.turns),
                AllTaken(base.followed) + Injected(FollowUps, log.turns);
    assert s + [] == s && f + [] == f;
  }

  // ---------------------------------------------------------------- polls and turns

  /** How many turns had no steering poll. */
  function Skipped(turns: seq<Turn>, skip: bool): nat {
    if skip && turns != [] then 1 else 0
  }

  /** The steering queue is polled once for every turn, but for a first one to be skipped. */
  lemma {:induction false} PolledPerTurn(turns: seq<Turn>, skip: bool)
    requires Chained(turns, skip)
    ensures |Drawn(Steering, turns)| == |turns| - Skipped(turns, skip)
    ensures forall i | Skipped(turns, skip) <= i < |turns| ::
      turns[i].batch.steering == Some(Drawn(Steering, turns)[i - Skipped(turns, skip)])
  {
    hide Turn.Calls, Failed, Batch.Messages, Batch.From;
    if turns != [] {
      var n := |turns| - 1;
      PolledPerTurn(turns[..n], skip);
      assert MayFollow(turns[..n], turns[n].batch, skip);
      assert forall i | 0 <= i < n :: turns[i] == turns[..n][i];
    }
  }

  lemma {:induction false} DrawnMember(queue: Source, turns: seq<Turn>, i: nat)
    requires i < |turns| && turns[i].batch.PollOf(queue).Some?
    ensures turns[i].batch.PollOf(queue).value in Drawn(queue, turns)
  {
    var n := |turns| - 1;
    if i < n {
      DrawnMember(queue, turns[..n], i);
    } else {
      assert turns[i].batch.PollOf(queue).value in DrawnBy(queue, turns[i].batch);
    }
  }

  lemma {:induction false} TurnFollows(turns: seq<Turn>, skip: bool, i: nat)
    requires Chained(turns, skip) && i < |turns|
    ensures MayFollow(turns[..i], turns[i].batch, skip)
  {
    hide MayFollow;
    var n := |turns| - 1;
    if i < n {
      TurnFollows(turns[..n], skip, i);
      assert turns[..n][..i] == turns[..i];
    }
  }

  /** Every turn's batch comes from the queues: for each turn, but for a first one to be skipped,
      the next drain of the steering queue; follow-ups are drained only after a response without
      tool calls and a steering poll that gave nothing. */
  lemma BatchPolled(log: RunLog, base: RunBase, steered: seq<Poll>, followed: seq<Poll>, heard: seq<Answer>, i: nat)
    requires Logging(log, base, steered, followed, heard) && i < |log.turns|
    ensures
      var batch, s := log.turns[i].batch, if base.skip then 1 else 0;
      && (batch.steering.None? <==> i < s)
      && (s <= i ==> |base.steered| + i - s < |steered| && batch.steering == Some(steered[|base.steered| + i - s]))
      && (batch.followUps.Some? ==>
            batch.followUps.value in followed && i > 0 && log.turns[i - 1].Calls() == [] && batch.From(Steering) == [])
  {
    hide Logging, Batch.From, Batch.Messages, Turn.Calls, Drawn;
    PendingPolls(log, base, steered, followed, heard);
    PolledPerTurn(log.turns, base.skip);
    TurnFollows(log.turns, base.skip, i);
    if log.turns[i].batch.followUps.Some? {
      DrawnMember(FollowUps, log.turns, i);
    }
  }

  /** After every response that did not fail, a run that ends by itself polls the steering queue
      again: what it finds is taken, all of it or only the first message, as the queue's mode says,
      and is injected before the next response, or dropped by the cap. */
  lemma ResponsePolls(log: RunLog, base: RunBase, steered: seq<Poll>, followed: seq<Poll>, heard: seq<Answer>, i: nat)
    requires Logging(log, base, steered, followed, heard) && log.Complete(base.maxTurns, base.skip)
    requires i < |log.turns| && log.turns[i].assistant.stop != Error && log.turns[i].assistant.stop != Aborted
    ensures
      var k := |base.steered| + i + 1 - (if base.skip then 1 else 0);
      var batch := if i + 1 < |log.turns| then log.turns[i + 1].batch else log.pending;
      && k < |steered| && batch.steering == Some(steered[k])
      && (steered[k].mode == All ==> batch.From(Steering) == steered[k].found)
      && (steered[k].mode == OneAtATime && steered[k].found != [] ==> batch.From(Steering) == [steered[k].found[0]])
      && (steered[k].found == [] ==> batch.From(Steering) == [])
  {
    hide Logging, Batch.Messages, Turn.Calls, Drawn, Front, Chained;
    if i + 1 < |log.turns| {
      BatchPolled(log, base, steered, followed, heard, i + 1);
    } else {
      PendingPolls(log, base, steered, followed, heard);
      PolledPerTurn(log.turns, base.skip);
      assert DrawnBy(Steering, log.pending) == [log.pending.steering.value];
    }
  }

  /** A run that ends normally has found both queues empty, steering first. */
  lemma FinishedEmpty(log: RunLog, base: RunBase, steered: seq<Poll>, followed: seq<Poll>, heard: seq<Answer>)
    requires Logging(log, base, steered, followed, heard)
    requires log.Complete(base.maxTurns, base.skip) && log.exit == Finished
    ensures steered != [] && steered[|steered| - 1].found == []
    ensures followed != [] && followed[|followed| - 1].found == []
  {
    hide Logging, Drawn, Chained;
    PendingPolls(log, base, steered, followed, heard);
    assert DrawnBy(Steering, log.pending) == [log.pending.steering.value];
    assert DrawnBy(FollowUps, log.pending) == [log.pending.followUps.value];
  }

  /** Every batch of the log holds at most one message of this queue. */
  predicate AtMostOne(queue: Source, log: RunLog) {
    (forall i | 0 <= i < |log.turns| :: |log.turns[i].batch.From(queue)| <= 1) && |log.pending.From(queue)| <= 1
  }

  lemma OneByOneBatches(queue: Source, log: RunLog, before: seq<Poll>, polls: seq<Poll>)
    requires polls == before + Drawn(queue, log.turns) + DrawnBy(queue, log.pending)
    requires OneByOne(polls[|before|..])
    ensures AtMostOne(queue, log)
  {
    hide Drawn;
    var since := Drawn(queue, log.turns) + DrawnBy(queue, log.pending);
    assert polls[|before|..] == since;
    forall i | 0 <= i < |log.turns| ensures |log.turns[i].batch.From(queue)| <= 1 {
      if log.turns[i].batch.PollOf(queue).Some? {
        DrawnMember(queue, log.turns, i);
        assert log.turns[i].batch.PollOf(queue).value in since;
      }
    }
    assert log.pending.PollOf(queue).Some? ==> log.pending.PollOf(queue).value in since;
  }

  /** A queue that is in one-at-a-time mode when the run begins gives at most one message between
      two responses as long as nobody puts it into the other mode during the run, whatever
      the mode of the other queue is. */
  lemma OneAtATimeDelivery(log: RunLog, base: RunBase, heard: seq<Answer>, began: Beginning, script: seq<Tick>,
                           steeringMode: QueueMode, steered: seq<Poll>, followUpMode: QueueMode, followed: seq<Poll>)
    requires Logging(log, base, steered, followed, heard)
    requires Ruled(began, script, steeringMode, steered, followUpMode, followed)
    requires base.steered == began.steering.polls && base.followed == began.followUps.polls
    ensures |script| <= |began.script|
    ensures
      var ticks := Past(began.script, script);
      && (began.steering.mode == OneAtATime && AllSteady(Steering, ticks) ==> AtMostOne(Steering, log))
      && (began.followUps.mode == OneAtATime && AllSteady(FollowUps, ticks) ==> AtMostOne(FollowUps, log))
  {
    hide Logging, AllSteady, OneByOne, Drawn, DrawnBy, AtMostOne, Chained;
    PendingPolls(log, base, steered, followed, heard);
    assert Key(0);
    var ticks := Past(began.script, script);
    if began.steering.mode == OneAtATime && AllSteady(Steering, ticks) {
      OneByOneBatches(Steering, log, base.steered, steered);
    }
    if began.followUps.mode == OneAtATime && AllSteady(FollowUps, ticks) {
      OneByOneBatches(FollowUps, log, base.followed, followed);
    }
  }

  /** Injected messages are in the transcript, right before the response they were polled for. */
  lemma {:induction false} InjectedIsSaid(turns: seq<Turn>, i: nat) returns (before: seq<Message>, after: seq<Message>)
    requires i < |turns|
    ensures Transcript(turns) == before + turns[i].batch.Messages() + [turns[i].assistant] + turns[i].results + after
    ensures before == Transcript(turns[..i])
  {
    var n := |turns| - 1;
    if i == n {
      before, after := Transcript(turns[..n]), [];
    } else {
      var rest;
      before, rest := InjectedIsSaid(turns[..n], i);
      assert turns[..n][..i] == turns[..i];
      after := rest + turns[n].Said();
    }
  }

  /** Before its first response a run has said its prompts and the first polled batch, and
      nothing else. */
  lemma BeforeFirstResponse(base: RunBase, log: RunLog)
    requires log.turns != []
    ensures base.prompts + First(log).Messages() + [log.turns[0].assistant] <= base.prompts + Transcript(log.turns)
  {
    var before, after := InjectedIsSaid(log.turns, 0);
    var t := log.turns[0];
    assert before == [];
    assert base.prompts + Transcript(log.turns) ==
           base.prompts + t.batch.Messages() + [t.assistant] + (t.results + after);
  }

  // ---------------------------------------------------------------- executions left behind

  /** A report of an execution that a failed run left behind: the listeners of the run active by
      then see it, and their event sequence stays legal exactly when this run is itself executing
      a call with that id. */
  lemma LateReportBreaks(delivered: seq<Delivery>, left: seq<ToolCall>, i: nat, running: seq<ToolCall>,
                         settled: seq<Option<Execution>>)
    requires LateUpdates(delivered) && Observe(Events(delivered)).Watching? && Observe(OwnEvents(delivered)).Watching?
    requires i < |left|
    ensures
      var next := delivered + Reports(ReportLate(i), running, settled, left);
      Observe(Events(next)).Watching? <==> G.Expected(Observe(OwnEvents(delivered)), left[i].id)
  {
    hide G.Expected, Observe, Events, OwnEvents;
    var d := Late(ToolUpdate(left[i].id, left[i].name));
    DeliverySnoc(delivered, d);
    G.LateReports(delivered);
    G.LateReports(delivered + [d]);
    G.WelcomeSnoc(delivered, d);
  }

  lemma SecondLeft(first: ToolCall, second: ToolCall, body: string)
    ensures InFlight([first, second], [Some(Returned(body)), None]) == [second]
  {
    var running: seq<ToolCall>, settled: seq<Option<Execution>> := [first, second], [Some(Returned(body)), None];
    assert running[1..] == [second] && settled[1..] == [None];
    assert running[1..][1..] == [] && settled[1..][1..] == [];
    assert InFlight(running[1..], settled[1..]) == [second];
  }

  const OPENING := [Own(AgentStart), Own(TurnStart)]

  lemma NothingObserved()
    ensures Observe([]) == UNSEEN
  {
  }

  lemma OpeningObserved()
    ensures LateUpdates(OPENING) && Events(OPENING) == OwnEvents(OPENING) == [AgentStart, TurnStart]
    ensures Observe([AgentStart, TurnStart]) == UNSEEN.(phase := InTurn)
  {
    hide Observe;
    var first := [Own(AgentStart)];
    assert first[..0] == [];
    assert Events(first) == [AgentStart] && OwnEvents(first) == [AgentStart];
    assert OPENING == first + [Own(TurnStart)];
    DeliverySnoc(first, Own(TurnStart));
    NothingObserved();
    ObserveAppend([], AgentStart);
    ObserveAppend([AgentStart], TurnStart);
    assert [] + [AgentStart] == [AgentStart] && [AgentStart] + [TurnStart] == [AgentStart, TurnStart];
  }

  /** Two calls in parallel; the hook after the first fails while the second is running. The
      second is left behind, and when it reports, the next run's listeners, who have only seen
      this run and its first turn start, get an update of an execution that they never saw start. */
  lemma ReportIntoNextRun(first: ToolCall, second: ToolCall, body: string)
    ensures InFlight([first, second], [Some(Returned(body)), None]) == [second]
    ensures Observe(Events(OPENING)).Watching?
    ensures Observe(Events(OPENING + Reports(ReportLate(0), [], [], [second]))).Broken?
  {
    hide Observe, Events, OwnEvents, Reports, InFlight, LateUpdates;
    SecondLeft(first, second, body);
    OpeningObserved();
    LateReportBreaks(OPENING, [second], 0, [], []);
  }
}
