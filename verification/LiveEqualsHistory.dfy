/** The main result about the two views: see `LiveViewEqualsHistory`. */
module LiveEqualsHistory {
  import opened Prelude
  import opened Conversation
  import opened SendMessage
  import opened ChatPanes
  import opened LiveRows
  import opened ToolSchedule
  import opened TurnEvents
  import opened History
  import opened LiveHistory
  import TurnScheduler

  // ── The history of what a turn adds ─────────────────────────────────────────

  /** The history row of a live row, with the output of its tool looked up. */
  function HistFor(r: Row, outputs: map<string, string>): HistMsg {
    HistMsg(r.role, r.text, None, if r.tool.Some? then Lookup(outputs, r.tool.value) else None)
  }

  function HistRows(rows: seq<Row>, outputs: map<string, string>): seq<HistMsg> {
    seq(|rows|, i requires 0 <= i < |rows| => HistFor(rows[i], outputs))
  }

  lemma HistRowsAppend(a: seq<Row>, b: seq<Row>, outputs: map<string, string>)
    ensures HistRows(a + b, outputs) == HistRows(a, outputs) + HistRows(b, outputs)
  {}

  lemma {:induction false} ToolRowsAre(content: seq<Block>, n: nat, outputs: map<string, string>)
    requires n <= |content|
    ensures ToolRows(content, n, outputs) == HistRows(ToolRowsFor(NamedUses(ToolUses(content[..n]))), outputs)
  {
    if n > 0 {
      ToolRowsAre(content, n - 1, outputs);
      assert content[..n] == content[..n - 1] + [content[n - 1]];
      ToolUsesAppend(content[..n - 1], [content[n - 1]]);
      assert [content[n - 1]][1..] == [];
      var before := ToolRowsFor(NamedUses(ToolUses(content[..n - 1])));
      var after := ToolRowsFor(NamedUses(ToolUses(content[..n])));
      if content[n - 1].ToolUse? {
        assert after == before + [ToolRowFor((content[n - 1].id, content[n - 1].name))];
      }
    }
  }

  lemma TextThenTools(text: string, tools: seq<Row>, outputs: map<string, string>)
    ensures HistRows(TextRows(text) + tools, outputs)
         == (if text == "" then [] else [TextHist(AssistantRow, text)]) + HistRows(tools, outputs)
  {
    HistRowsAppend(TextRows(text), tools, outputs);
    assert HistRows(TextRows(text), outputs) == if text == "" then [] else [TextHist(AssistantRow, text)];
  }

  lemma AssistantRows(call: Call, outputs: map<string, string>)
    ensures MessageRows(AssistantMessage(call), outputs) == HistRows(ReplyRows(call), outputs)
  {
    var tools := ToolRowsFor(NamedUses(Uses(call)));
    AllToolRowsAre(call.blocks, outputs);
    TextThenTools(JoinedText(call.blocks), tools, outputs);
  }

  lemma AllToolRowsAre(content: seq<Block>, outputs: map<string, string>)
    ensures ToolRows(content, |content|, outputs) == HistRows(ToolRowsFor(NamedUses(ToolUses(content))), outputs)
  {
    ToolRowsAre(content, |content|, outputs);
    assert content[..|content|] == content;
  }

  lemma {:induction false} NoJoinedText(content: seq<Block>)
    requires forall b <- content :: b.ToolResult?
    ensures JoinedText(content) == ""
  {
    if content != [] {
      assert content[0] in content;
      NoJoinedText(content[1..]);
    }
  }

  lemma LogRowsOfPair(a: ApiMessage, b: ApiMessage, outputs: map<string, string>)
    ensures LogRows([a, b], outputs) == MessageRows(a, outputs) + MessageRows(b, outputs)
  {
    assert [a, b][..1] == [a] && [a][..0] == [];
    assert LogRows([a], outputs) == [] + MessageRows(a, outputs) == MessageRows(a, outputs);
  }

  lemma ExchangeRows(call: Call, exec: Executor, cancelAt: Option<nat>, sample: nat, outputs: map<string, string>)
    ensures LogRows(Exchange(call, exec, cancelAt, sample), outputs) == HistRows(ReplyRows(call), outputs)
  {
    var pair := Exchange(call, exec, cancelAt, sample);
    ResultsAnswer(Uses(call), 0, exec, cancelAt, sample);
    assert Uses(call)[0..] == Uses(call);
    NoJoinedText(pair[1].content);
    LogRowsOfPair(pair[0], pair[1], outputs);
    AssistantRows(call, outputs);
  }

  lemma FinalRows(call: Call, outputs: map<string, string>)
    ensures LogRows([AssistantMessage(call)], outputs) == HistRows(ReplyRows(call), outputs)
  {
    AssistantRows(call, outputs);
    assert [AssistantMessage(call)][..0] == [];
    assert LogRows([AssistantMessage(call)], outputs) == [] + MessageRows(AssistantMessage(call), outputs);
  }

  /** The history rows of what is added are those of the replies from `n` up to the last one used. */
  ghost predicate HistoryOfCalls(calls: seq<Call>, n: nat, out: Outcome, outputs: map<string, string>) {
    n <= out.used <= |calls| &&
    LogRows(out.messages, outputs) == HistRows(CallRows(calls, n, out.used), outputs)
  }

  lemma LastCallRows(calls: seq<Call>, n: nat, out: Outcome, outputs: map<string, string>)
    requires n < |calls| && out.used == n + 1 && out.messages == [AssistantMessage(calls[n])]
    ensures HistoryOfCalls(calls, n, out, outputs)
  {
    assert CallRows(calls, n, n + 1) == ReplyRows(calls[n]) + [] == ReplyRows(calls[n]);
    FinalRows(calls[n], outputs);
  }

  lemma MoreCallRows(calls: seq<Call>, n: nat, out: Outcome, rest: Outcome, exec: Executor, cancelAt: Option<nat>,
                     sample: nat, outputs: map<string, string>)
    requires n < |calls| && HistoryOfCalls(calls, n + 1, rest, outputs)
    requires out.used == rest.used && out.messages == Exchange(calls[n], exec, cancelAt, sample) + rest.messages
    ensures HistoryOfCalls(calls, n, out, outputs)
  {
    ExchangeRows(calls[n], exec, cancelAt, sample, outputs);
    LogRowsAppend(Exchange(calls[n], exec, cancelAt, sample), rest.messages, outputs);
    HistRowsAppend(ReplyRows(calls[n]), CallRows(calls, n + 1, out.used), outputs);
  }

  /** The history of the messages a completed turn adds. */
  lemma {:induction false} LoopHistory(calls: seq<Call>, n: nat, exec: Executor, cancelAt: Option<nat>, sample: nat,
                                       outputs: map<string, string>)
    requires n <= |calls| && Loop(calls, n, exec, cancelAt, sample).status.Completed?
    ensures HistoryOfCalls(calls, n, Loop(calls, n, exec, cancelAt, sample), outputs)
    decreases |calls| - n
  {
    CompletedLoop(calls, n, exec, cancelAt, sample);
    var out := Loop(calls, n, exec, cancelAt, sample);
    if !RunsTools(calls[n]) {
      LastCallRows(calls, n, out, outputs);
    } else {
      var next := sample + 1 + |Uses(calls[n])|;
      LoopHistory(calls, n + 1, exec, cancelAt, next, outputs);
      MoreCallRows(calls, n, out, Loop(calls, n + 1, exec, cancelAt, next), exec, cancelAt, sample + 1, outputs);
    }
  }

  // ── The results of what a turn adds ─────────────────────────────────────────

  /** Tool results as (id, output). */
  function Pairs(results: seq<Event>): seq<(string, string)>
    requires forall e <- results :: e.ToolFinished?
  {
    seq(|results|, k requires 0 <= k < |results| => (results[k].id, results[k].output))
  }

  lemma {:induction false} ResultsAreResults(events: seq<Event>)
    ensures forall e <- Results(events) :: e.ToolFinished?
  {
    if events != [] {
      ResultsAreResults(events[..|events| - 1]);
    }
  }

  ghost predicate Agree(results: seq<Event>, answers: seq<(string, string)>) {
    (forall e <- results :: e.ToolFinished?) && Pairs(results) == answers
  }

  lemma AgreeConcat(r1: seq<Event>, a1: seq<(string, string)>, r2: seq<Event>, a2: seq<(string, string)>)
    requires Agree(r1, a1) && Agree(r2, a2)
    ensures Agree(r1 + r2, a1 + a2)
  {
    assert Pairs(r1 + r2) == Pairs(r1) + Pairs(r2);
  }

  /** The messages and the events of a turn carry the same results, and nothing is left printed. */
  ghost predicate SameResults(events: seq<Event>, messages: Log) {
    Agree(Results(events), LogAnswers(messages)) && Printed(events).None?
  }

  lemma {:induction false} PrintedAppend(a: seq<Event>, b: seq<Event>)
    requires Printed(a).None?
    ensures Printed(a + b) == Printed(b)
    decreases |b|
  {
    if b == [] {
      assert a + b == a;
    } else {
      assert (a + b)[..|a + b| - 1] == a + b[..|b| - 1];
      PrintedAppend(a, b[..|b| - 1]);
    }
  }

  lemma SameResultsConcat(e1: seq<Event>, m1: Log, e2: seq<Event>, m2: Log)
    requires SameResults(e1, m1) && SameResults(e2, m2)
    ensures SameResults(e1 + e2, m1 + m2)
  {
    ResultsAppend(e1, e2);
    AnswersAppend(m1, m2);
    PrintedAppend(e1, e2);
    AgreeConcat(Results(e1), LogAnswers(m1), Results(e2), LogAnswers(m2));
  }

  lemma {:induction false} StreamedHasNoResults(streamed: seq<Event>)
    requires forall e <- streamed :: IsStreamed(e)
    ensures Results(streamed) == [] && Printed(streamed) == None
  {
    if streamed != [] {
      assert IsStreamed(streamed[|streamed| - 1]);
      StreamedHasNoResults(streamed[..|streamed| - 1]);
    }
  }

  lemma {:induction false} LinesHaveNoResults(seen: seq<Event>, id: string, lines: seq<string>)
    ensures Results(seen + LineEvents(id, lines)) == Results(seen)
    decreases |lines|
  {
    if lines == [] {
      assert seen + [] == seen;
    } else {
      LinesHaveNoResults(seen + [ToolLine(id, lines[0])], id, lines[1..]);
      SeenSnoc(seen, ToolLine(id, lines[0]));
      Assoc(seen, [ToolLine(id, lines[0])], LineEvents(id, lines[1..]));
    }
  }

  lemma RunResult(id: string, run: ToolRun)
    ensures Results(RunEvents(id, run)) == [ToolFinished(id, run.result)]
    ensures Printed(RunEvents(id, run)) == None
  {
    var lines := LineEvents(id, run.lines);
    LinesHaveNoResults([], id, run.lines);
    assert [] + lines == lines;
    SeenSnoc(lines, ToolFinished(id, run.result));
    PrintedSnoc(lines, ToolFinished(id, run.result));
  }

  lemma PrintedSnoc(seen: seq<Event>, e: Event)
    requires e.ToolFinished?
    ensures Printed(seen + [e]) == None
  {
    assert (seen + [e])[|seen|] == e;
  }

  /** The answers in one user message. */
  lemma OneMessage(results: seq<Block>)
    ensures LogAnswers([ApiMessage(User, results)]) == AnswersIn(results, |results|)
  {
    assert [ApiMessage(User, results)][..0] == [];
    assert LogAnswers([ApiMessage(User, results)]) == [] + AnswersIn(results, |results|);
  }

  lemma ResultsCons(run: seq<Event>, e: Event, more: seq<Event>, first: Block, later: seq<Block>)
    requires e.ToolFinished? && Results(run) == [e] && Printed(run).None?
    requires first.ToolResult? && first.toolUseId == e.id && FirstText(first.content) == e.output
    requires SameResults(more, [ApiMessage(User, later)])
    ensures SameResults(run + more, [ApiMessage(User, [first] + later)])
  {
    OneMessage(later);
    OneMessage([first] + later);
    ResultsAppend(run, more);
    PrintedAppend(run, more);
    AnswersInCons(first, later, |later|);
    AgreeConcat([e], [(e.id, e.output)], Results(more), AnswersIn(later, |later|));
  }

  lemma OneToolAnswers(id: string, run: ToolRun, more: seq<Event>, later: seq<Block>)
    requires SameResults(more, [ApiMessage(User, later)])
    ensures SameResults(RunEvents(id, run) + more, [ApiMessage(User, [ResultBlock(id, run.result)] + later)])
  {
    RunResult(id, run);
    ResultsCons(RunEvents(id, run), ToolFinished(id, run.result), more, ResultBlock(id, run.result), later);
  }

  /** Uninterrupted tools: each contributes its result, once, to both. */
  lemma {:induction false} ToolsAnswer(uses: seq<Block>, k: nat, exec: Executor, cancelAt: Option<nat>, sample: nat)
    requires forall b <- uses :: b.ToolUse?
    requires k <= |uses| && !Fired(cancelAt, sample + |uses| - k)
    ensures SameResults(ToolEvents(uses, k, exec, cancelAt, sample, false),
                        [ApiMessage(User, ToolResults(uses, k, exec, cancelAt, sample))])
    decreases |uses| - k
  {
    if k == |uses| {
      OneMessage([]);
    } else {
      ToolsAnswer(uses, k + 1, exec, cancelAt, sample + 1);
      OneToolAnswers(uses[k].id, exec(uses[k].id), ToolEvents(uses, k + 1, exec, cancelAt, sample + 1, false),
                     ToolResults(uses, k + 1, exec, cancelAt, sample + 1));
    }
  }

  lemma {:induction false} AnswersInCons(first: Block, rest: seq<Block>, n: nat)
    requires n <= |rest| && first.ToolResult?
    ensures AnswersIn([first] + rest, n + 1) == [(first.toolUseId, FirstText(first.content))] + AnswersIn(rest, n)
  {
    if n > 0 {
      AnswersInCons(first, rest, n - 1);
      assert ([first] + rest)[n] == rest[n - 1];
    } else {
      assert AnswersIn([first] + rest, 0) == [];
      assert ([first] + rest)[0] == first;
    }
  }

  lemma AssistantAnswersNothing(call: Call)
    ensures LogAnswers([AssistantMessage(call)]) == []
  {
    assert [AssistantMessage(call)][..0] == [];
  }

  lemma ExchangeAnswers(call: Call, exec: Executor, cancelAt: Option<nat>, sample: nat)
    requires Assembled(call) && !Fired(cancelAt, sample + |Uses(call)|)
    ensures SameResults(ExchangeEvents(call, exec, cancelAt, sample), Exchange(call, exec, cancelAt, sample))
  {
    StreamedHasNoResults(call.streamed);
    AssistantAnswersNothing(call);
    assert SameResults(call.streamed, [AssistantMessage(call)]);
    ToolsAnswer(Uses(call), 0, exec, cancelAt, sample);
    var results := [ApiMessage(User, ToolResults(Uses(call), 0, exec, cancelAt, sample))];
    SameResultsConcat(call.streamed, [AssistantMessage(call)],
                      ToolEvents(Uses(call), 0, exec, cancelAt, sample, false), results);
    assert Exchange(call, exec, cancelAt, sample) == [AssistantMessage(call)] + results;
  }

  ghost predicate OutcomeAnswers(out: Outcome) {
    SameResults(out.events, out.messages)
  }

  lemma MoreAnswers(call: Call, out: Outcome, rest: Outcome, exec: Executor, cancelAt: Option<nat>, sample: nat)
    requires Assembled(call) && !Fired(cancelAt, sample + |Uses(call)|) && OutcomeAnswers(rest)
    requires out.messages == Exchange(call, exec, cancelAt, sample) + rest.messages
    requires out.events == ExchangeEvents(call, exec, cancelAt, sample) + rest.events
    ensures OutcomeAnswers(out)
  {
    ExchangeAnswers(call, exec, cancelAt, sample);
    SameResultsConcat(ExchangeEvents(call, exec, cancelAt, sample), Exchange(call, exec, cancelAt, sample),
                      rest.events, rest.messages);
  }

  lemma {:induction false} LoopAnswers(calls: seq<Call>, n: nat, exec: Executor, cancelAt: Option<nat>, sample: nat)
    requires n <= |calls| && forall call <- calls :: Assembled(call)
    requires Loop(calls, n, exec, cancelAt, sample).status.Completed?
    ensures OutcomeAnswers(Loop(calls, n, exec, cancelAt, sample))
    decreases |calls| - n
  {
    CompletedLoop(calls, n, exec, cancelAt, sample);
    var out := Loop(calls, n, exec, cancelAt, sample);
    var call := calls[n];
    assert Assembled(call);
    if !RunsTools(call) {
      StreamedHasNoResults(call.streamed);
      AssistantAnswersNothing(call);
    } else {
      var next := sample + 1 + |Uses(call)|;
      LoopAnswers(calls, n + 1, exec, cancelAt, next);
      MoreAnswers(call, out, Loop(calls, n + 1, exec, cancelAt, next), exec, cancelAt, sample + 1);
    }
  }

  // ── Outputs of the old log and of the turn ──────────────────────────────────

  ghost predicate IsAnswered(answers: seq<(string, string)>, id: string) {
    exists k :: 0 <= k < |answers| && answers[k].0 == id
  }

  /** A tool id the log speaks of, as a call or as a result. */
  ghost predicate Mentions(log: Log, id: string) {
    || (exists m, b :: m in log && b in m.content && b.ToolUse? && b.id == id)
    || IsAnswered(LogAnswers(log), id)
  }

  lemma {:induction false} FilledOther(outputs: map<string, string>, answers: seq<(string, string)>, id: string)
    requires !IsAnswered(answers, id)
    ensures Lookup(Filled(outputs, answers), id) == Lookup(outputs, id)
  {
    if answers != [] {
      var n := |answers| - 1;
      assert answers[n].0 != id;
      assert !IsAnswered(answers[..n], id);
      FilledOther(outputs, answers[..n], id);
    }
  }

  /** The results of a turn, by the ids it announced. */
  ghost predicate ResultsOf(ids: seq<string>, results: seq<Event>) {
    && |results| <= |ids| && Distinct(ids)
    && forall k :: 0 <= k < |results| ==> results[k].ToolFinished? && results[k].id == ids[k]
  }

  /** An id that no old answer has is looked up among the new ones. */
  lemma NewLookup(before: seq<(string, string)>, after: seq<(string, string)>, id: string)
    requires !IsAnswered(before, id)
    ensures IsAnswered(after, id) <==> Lookup(Filled(map[], before + after), id).Some?
    ensures forall k :: 0 <= k < |after| && after[k].0 == id && (forall j :: k < j < |after| ==> after[j].0 != id) ==>
      Lookup(Filled(map[], before + after), id) == Some(after[k].1)
  {
    var filled := Filled(map[], before);
    FilledOther(map[], before, id);
    FilledAppend(map[], before, after);
    FilledAgrees(filled, map[], after, id);
    LastAnswerWins(after, id);
  }

  lemma {:induction false} FilledAgrees(o1: map<string, string>, o2: map<string, string>,
                                        answers: seq<(string, string)>, id: string)
    requires Lookup(o1, id) == Lookup(o2, id)
    ensures Lookup(Filled(o1, answers), id) == Lookup(Filled(o2, answers), id)
  {
    if answers != [] {
      FilledAgrees(o1, o2, answers[..|answers| - 1], id);
    }
  }

  lemma TurnLookup(log: Log, added: Log, ids: seq<string>, results: seq<Event>, k: nat)
    requires ResultsOf(ids, results) && LogAnswers(added) == Pairs(results)
    requires k < |ids| && !Mentions(log, ids[k])
    ensures Lookup(Outputs(log + added), ids[k]) == if k < |results| then Some(results[k].output) else None
  {
    var pairs := Pairs(results);
    AnswersAppend(log, added);
    NewLookup(LogAnswers(log), pairs, ids[k]);
    forall j | 0 <= j < |pairs| ensures pairs[j].0 == ids[j] {}
  }

  lemma OldLookup(log: Log, added: Log, ids: seq<string>, results: seq<Event>, id: string)
    requires ResultsOf(ids, results) && LogAnswers(added) == Pairs(results)
    requires id !in ids
    ensures Lookup(Outputs(log + added), id) == Lookup(Outputs(log), id)
  {
    AnswersAppend(log, added);
    FilledAppend(map[], LogAnswers(log), Pairs(results));
    forall k | 0 <= k < |results| ensures Pairs(results)[k].0 != id {
      assert Pairs(results)[k].0 == ids[k];
    }
    FilledOther(Outputs(log), Pairs(results), id);
  }

  lemma {:induction false} SameToolRows(content: seq<Block>, n: nat, o1: map<string, string>, o2: map<string, string>)
    requires n <= |content|
    requires forall b <- content :: b.ToolUse? ==> Lookup(o1, b.id) == Lookup(o2, b.id)
    ensures ToolRows(content, n, o1) == ToolRows(content, n, o2)
  {
    if n > 0 {
      SameToolRows(content, n - 1, o1, o2);
      assert content[n - 1] in content;
    }
  }

  lemma {:induction false} SameLogRows(log: Log, o1: map<string, string>, o2: map<string, string>)
    requires forall m, b :: m in log && b in m.content && b.ToolUse? ==> Lookup(o1, b.id) == Lookup(o2, b.id)
    ensures LogRows(log, o1) == LogRows(log, o2)
  {
    if log != [] {
      var m := log[|log| - 1];
      assert m in log;
      SameLogRows(log[..|log| - 1], o1, o2);
      SameToolRows(m.content, |m.content|, o1, o2);
    }
  }

  /** A turn with ids of its own does not change the rows of the log it started from. */
  lemma OldRowsKept(log: Log, added: Log, ids: seq<string>, results: seq<Event>)
    requires ResultsOf(ids, results) && LogAnswers(added) == Pairs(results)
    requires forall id <- ids :: !Mentions(log, id)
    ensures LogRows(log, Outputs(log + added)) == LogRows(log, Outputs(log))
  {
    forall m, b | m in log && b in m.content && b.ToolUse?
      ensures Lookup(Outputs(log + added), b.id) == Lookup(Outputs(log), b.id)
    {
      if b.id in ids {
        assert Mentions(log, b.id);
      } else {
        OldLookup(log, added, ids, results, b.id);
      }
    }
    SameLogRows(log, Outputs(log + added), Outputs(log));
  }

  // ── The two views agree ─────────────────────────────────────────────────────

  /** A live row that is not running and shows what a history row says. */
  predicate Shows(r: Row, h: HistMsg) {
    r.role == h.role && r.text == h.text && r.output == h.output && !r.running
  }

  ghost predicate Match(rows: seq<Row>, hist: seq<HistMsg>) {
    |rows| == |hist| && forall i :: 0 <= i < |rows| ==> Shows(rows[i], hist[i])
  }

  /** A completed turn, on a log and on the rows that show it; all its tool ids are new. */
  datatype Turn = Turn(log: Log, base: seq<Row>, calls: seq<Call>, exec: Executor, cancelAt: Option<nat>, cost: nat)

  ghost function Out(t: Turn): Outcome {
    Loop(t.calls, 0, t.exec, t.cancelAt, 0)
  }

  /** The rows before the turn show the log before it, and the turn's tool ids are new and distinct. */
  ghost predicate GoodStart(t: Turn) {
    && Match(t.base, LogRows(t.log, Outputs(t.log)))
    && Distinct(StartedIds(Out(t).events))
    && Quiet(t.base, StartedIds(Out(t).events))
    && forall id <- StartedIds(Out(t).events) :: !Mentions(t.log, id)
  }

  ghost predicate CleanTurn(t: Turn) {
    && (forall call <- t.calls :: Assembled(call))
    && Out(t).status.Completed?
    && GoodStart(t)
  }

  /** What the client shows when the turn is done. */
  ghost function Shown(t: Turn): seq<Row> {
    LiveFold(Live(t.base, false), Out(t).events + [TurnDone(t.cost)]).rows
  }

  /** The log the turn leaves: its own copy, taken without the markers, and what it added. */
  ghost function LogLeft(t: Turn): Log {
    TurnScheduler.LogAfter(Snapshot(t.log), TurnScheduler.Script(t.calls, t.exec, t.cancelAt))
  }

  /** What `/history` says when the turn is done. */
  ghost function HistoryAfter(t: Turn): seq<HistMsg> {
    LogRows(LogLeft(t), Outputs(LogLeft(t)))
  }

  /** What it would say on top of the whole old log. */
  ghost function HistoryOnTop(t: Turn): seq<HistMsg> {
    var log := t.log + Out(t).messages;
    LogRows(log, Outputs(log))
  }

  /** The rows before `done`. */
  ghost function Streaming(t: Turn): seq<Row> {
    LiveFold(Live(t.base, false), Out(t).events).rows
  }

  lemma ShownIsStopped(t: Turn)
    ensures Shown(t) == AllStopped(Streaming(t))
  {
    var events := Out(t).events + [TurnDone(t.cost)];
    LiveFoldSnoc(Live(t.base, false), events, |Out(t).events|);
    assert events[..|Out(t).events|] == Out(t).events && events[..|events|] == events;
  }

  lemma TurnSchedule(t: Turn) returns (pos: seq<nat>)
    requires CleanTurn(t)
    ensures Scheduled(Streaming(t), ProgressOf(|t.base|, Out(t).events), pos)
    ensures Streaming(t)[..|t.base|] == t.base
    ensures BareRows(Streaming(t)) == BareFold(Live(BareRows(t.base), false), Out(t).events).rows
    ensures ResultsOf(StartedIds(Out(t).events), Results(Out(t).events))
  {
    forall call | call in t.calls ensures Streams(call) {
      AssembledStreams(call);
    }
    var events := Out(t).events;
    LoopIsOrderly(t.calls, 0, t.exec, t.cancelAt, 0);
    assert events[..|events|] == events;
    forall k | 0 <= k < |events| ensures !Terminal(events[k]) {
      assert events[k] in events;
    }
    pos := FoldIsScheduled(t.base, events, |events|);
    forall e | e in events ensures !e.TurnInterrupted? && !e.TurnFailed? {
      assert !Terminal(e);
    }
    BareFolds(Live(t.base, false), events);
    var p := ProgressOf(|t.base|, events);
    forall k | 0 <= k < |p.results| ensures p.results[k].ToolFinished? && p.results[k].id == p.ids[k] {
      assert ToolState(Streaming(t)[pos[k]], p, k);
    }
  }

  /** The history after the turn: the old rows, and the replies' rows with their outputs. */
  lemma HistoryGrows(t: Turn)
    requires CleanTurn(t) && ResultsOf(StartedIds(Out(t).events), Results(Out(t).events))
    ensures var log := t.log + Out(t).messages;
            && Out(t).used <= |t.calls|
            && HistoryOnTop(t)
               == LogRows(t.log, Outputs(t.log)) + HistRows(CallRows(t.calls, 0, Out(t).used), Outputs(log))
  {
    var added := Out(t).messages;
    LoopAnswers(t.calls, 0, t.exec, t.cancelAt, 0);
    OldRowsKept(t.log, added, StartedIds(Out(t).events), Results(Out(t).events));
    LogRowsAppend(t.log, added, Outputs(t.log + added));
    LoopHistory(t.calls, 0, t.exec, t.cancelAt, 0, Outputs(t.log + added));
  }

  /** Every row of the turn shows the output the history looks up. */
  lemma OutputsAgree(t: Turn, pos: seq<nat>, i: nat)
    requires CleanTurn(t) && ResultsOf(StartedIds(Out(t).events), Results(Out(t).events))
    requires Scheduled(Streaming(t), ProgressOf(|t.base|, Out(t).events), pos)
    requires |t.base| <= i < |Streaming(t)|
    ensures Streaming(t)[i].output
         == HistFor(Bare(Streaming(t)[i]), Outputs(t.log + Out(t).messages)).output
  {
    var p := ProgressOf(|t.base|, Out(t).events);
    LoopAnswers(t.calls, 0, t.exec, t.cancelAt, 0);
    if i in pos {
      var k :| 0 <= k < |pos| && pos[k] == i;
      assert ToolState(Streaming(t)[pos[k]], p, k);
      assert p.ids[k] in p.ids;
      TurnLookup(t.log, Out(t).messages, p.ids, p.results, k);
    } else {
      assert IsPlain(Streaming(t)[i]);
    }
  }

  /** Rows that have the expected faces and outputs match. */
  lemma MatchByFaces(base: seq<Row>, rows: seq<Row>, added: seq<Row>, before: seq<HistMsg>,
                     outputs: map<string, string>)
    requires Match(base, before) && |base| <= |rows| && rows[..|base|] == base
    requires BareRows(rows) == BareRows(base) + added
    requires forall i :: |base| <= i < |rows| ==> rows[i].output == HistFor(Bare(rows[i]), outputs).output
    ensures Match(AllStopped(rows), before + HistRows(added, outputs))
  {
    var hist := before + HistRows(added, outputs);
    forall i | 0 <= i < |rows| ensures Shows(AllStopped(rows)[i], hist[i]) {
      if i < |base| {
        assert rows[i] == rows[..|base|][i];
        assert Shows(base[i], before[i]);
      } else {
        assert BareRows(rows)[i] == added[i - |base|];
      }
    }
  }

  /** One row with another face is enough for the views to differ. */
  lemma NoMatchByFace(base: seq<Row>, rows: seq<Row>, added: seq<Row>, before: seq<HistMsg>,
                      outputs: map<string, string>, i: nat)
    requires Match(base, before) && i < |rows| && i < |base| + |added|
    requires !SameFace(BareRows(rows)[i], (BareRows(base) + added)[i])
    ensures !Match(AllStopped(rows), before + HistRows(added, outputs))
  {
    var hist := before + HistRows(added, outputs);
    if i < |base| {
      assert Shows(base[i], before[i]);
    }
    assert !Shows(AllStopped(rows)[i], hist[i]);
  }

  lemma TextFirstAgrees(t: Turn)
    requires CleanTurn(t) && Out(t).used <= |t.calls|
    requires forall k :: 0 <= k < Out(t).used ==> TextFirst(t.calls[k].streamed)
    ensures Match(Shown(t), HistoryOnTop(t))
  {
    var pos := TurnSchedule(t);
    ShownIsStopped(t);
    HistoryGrows(t);
    LoopShows(BareRows(t.base), t.calls, 0, t.exec, t.cancelAt, 0);
    forall i | |t.base| <= i < |Streaming(t)|
      ensures Streaming(t)[i].output == HistFor(Bare(Streaming(t)[i]), Outputs(t.log + Out(t).messages)).output
    {
      OutputsAgree(t, pos, i);
    }
    MatchByFaces(t.base, Streaming(t), CallRows(t.calls, 0, Out(t).used), LogRows(t.log, Outputs(t.log)),
                 Outputs(t.log + Out(t).messages));
  }

  lemma LateTextDisagrees(t: Turn, bad: nat)
    requires CleanTurn(t)
    requires bad < Out(t).used <= |t.calls| && !TextFirst(t.calls[bad].streamed)
    ensures !Match(Shown(t), HistoryOnTop(t))
  {
    var pos := TurnSchedule(t);
    ShownIsStopped(t);
    HistoryGrows(t);
    assert Out(t).events + [] == Out(t).events;
    var i := LoopShowsOther(BareRows(t.base), t.calls, 0, bad, t.exec, t.cancelAt, 0, []);
    NoMatchByFace(t.base, Streaming(t), CallRows(t.calls, 0, Out(t).used), LogRows(t.log, Outputs(t.log)),
                  Outputs(t.log + Out(t).messages), i);
  }

  // ── The markers a turn takes out of the log ─────────────────────────────────

  predicate NoMarkers(log: Log) {
    forall m <- log :: !IsMarker(m)
  }

  predicate IsMarkerRow(role: RowRole) {
    role == InterruptedRow || role == ErrorRow
  }

  lemma {:induction false} SnapshotIsWhole(log: Log)
    requires NoMarkers(log)
    ensures Snapshot(log) == log
  {
    if log != [] {
      assert log[0] in log;
      SnapshotIsWhole(log[1..]);
    }
  }

  lemma {:induction false} SnapshotHasNoMarkers(log: Log)
    ensures NoMarkers(Snapshot(log))
  {
    if log != [] {
      SnapshotHasNoMarkers(log[1..]);
    }
  }

  lemma {:induction false} NoToolMarkerRows(content: seq<Block>, n: nat, outputs: map<string, string>)
    requires n <= |content|
    ensures forall h <- ToolRows(content, n, outputs) :: h.role == ToolRow
  {
    if n > 0 {
      NoToolMarkerRows(content, n - 1, outputs);
    }
  }

  lemma {:induction false} NoMarkerRows(log: Log, outputs: map<string, string>)
    requires NoMarkers(log)
    ensures forall h <- LogRows(log, outputs) :: !IsMarkerRow(h.role)
  {
    if log != [] {
      var m := log[|log| - 1];
      assert m in log;
      NoMarkerRows(log[..|log| - 1], outputs);
      NoToolMarkerRows(m.content, |m.content|, outputs);
      assert forall h <- MessageRows(m, outputs) :: !IsMarkerRow(h.role);
    }
  }

  /** A marker in the log has a row of its own. */
  lemma {:induction false} MarkerRow(log: Log, outputs: map<string, string>) returns (i: nat)
    requires !NoMarkers(log)
    ensures i < |LogRows(log, outputs)| && IsMarkerRow(LogRows(log, outputs)[i].role)
  {
    var front, m := log[..|log| - 1], log[|log| - 1];
    if IsMarker(m) {
      i := |LogRows(front, outputs)|;
    } else {
      var x :| x in log && IsMarker(x);
      assert x in front;
      i := MarkerRow(front, outputs);
    }
  }

  /** What the turn leaves in the log has no marker, whatever was there before. */
  lemma LogLeftIs(t: Turn)
    requires Out(t).status.Completed?
    ensures LogLeft(t) == Snapshot(t.log) + Out(t).messages && NoMarkers(LogLeft(t))
  {
    SnapshotHasNoMarkers(t.log);
    LoopRoles(t.calls, 0, t.exec, t.cancelAt, 0);
    assert Snapshot(t.log) + Out(t).messages + [] == Snapshot(t.log) + Out(t).messages;
  }

  /** The client goes on showing a marker the turn took out of the log. */
  lemma MarkerDisagrees(t: Turn)
    requires CleanTurn(t) && !NoMarkers(t.log)
    ensures !Match(Shown(t), HistoryAfter(t))
  {
    var i := MarkerRow(t.log, Outputs(t.log));
    var pos := TurnSchedule(t);
    ShownIsStopped(t);
    assert Shows(t.base[i], LogRows(t.log, Outputs(t.log))[i]);
    assert Streaming(t)[i] == Streaming(t)[..|t.base|][i];
    assert IsMarkerRow(Shown(t)[i].role);
    LogLeftIs(t);
    NoMarkerRows(LogLeft(t), Outputs(LogLeft(t)));
    assert i < |HistoryAfter(t)| ==> HistoryAfter(t)[i] in HistoryAfter(t);
  }

  /** Every reply the turn used streamed its text before its tool calls. */
  ghost predicate RepliesTextFirst(t: Turn)
    requires Out(t).used <= |t.calls|
  {
    forall k :: 0 <= k < Out(t).used ==> TextFirst(t.calls[k].streamed)
  }

  /**
    For every completed turn, with any number of model calls, tools and chunks: the live rows
    and `/history` of the log the turn leaves agree, row by row, exactly when the log held no
    `interrupted` or `error` row and every reply of the turn streamed its text before its tools.
   */
  lemma LiveViewEqualsHistory(t: Turn)
    requires CleanTurn(t)
    ensures Out(t).used <= |t.calls|
    ensures Match(Shown(t), HistoryAfter(t)) <==> NoMarkers(t.log) && RepliesTextFirst(t)
  {
    LoopHistory(t.calls, 0, t.exec, t.cancelAt, 0, map[]);
    if !NoMarkers(t.log) {
      MarkerDisagrees(t);
    } else {
      SnapshotIsWhole(t.log);
      LogLeftIs(t);
      if RepliesTextFirst(t) {
        TextFirstAgrees(t);
      } else {
        var bad :| 0 <= bad < Out(t).used && !TextFirst(t.calls[bad].streamed);
        LateTextDisagrees(t, bad);
      }
    }
  }

  /** The same, for the rows a chat pane shows: it reaches the live view whatever fresh ids it hands out. */
  lemma PaneShowsHistory(t: Turn, p: Pane)
    requires CleanTurn(t)
    requires Tidy(p) && p.replaying.None? && !p.hasAssistant && View(p.messages) == t.base
    ensures var q := HandleAll(p, Out(t).events + [TurnDone(t.cost)]);
            && q.replaying.None? && Out(t).used <= |t.calls|
            && (Match(View(q.messages), HistoryAfter(t)) <==> NoMarkers(t.log) && RepliesTextFirst(t))
  {
    var events := Out(t).events + [TurnDone(t.cost)];
    forall call | call in t.calls ensures Streams(call) {
      AssembledStreams(call);
    }
    LoopIsOrderly(t.calls, 0, t.exec, t.cancelAt, 0);
    forall n | 0 <= n < |Out(t).events| ensures InTurn(events[n]) {
      assert OrderlyAt(Out(t).events, n);
    }
    PaneFolds(p, events);
    LiveViewEqualsHistory(t);
  }

  // ── A marker that is lost ───────────────────────────────────────────────────

  /** A turn was interrupted, and the user wrote again: one more reply, with its text first. */
  function AfterInterrupt(): Turn {
    var reply := Call([Text("x")], [TextChunk("x")], Stopped(OtherStop("end_turn")));
    Turn(
      [ApiMessage(User, [Text("a")]), ApiMessage(Interrupted, [Text("interrupted")]), ApiMessage(User, [Text("b")])],
      [PlainRow(UserRow, "a"), PlainRow(InterruptedRow, "interrupted"), PlainRow(UserRow, "b")],
      [reply], id => ToolRun([], ""), None, 0)
  }

  lemma OneBlock(text: string)
    ensures JoinedText([Text(text)]) == text && ToolUses([Text(text)]) == []
  {
    assert [Text(text)][1..] == [] && text + "" == text;
  }

  lemma OneMoreRow(log: Log, m: ApiMessage, row: HistMsg, outputs: map<string, string>)
    requires MessageRows(m, outputs) == [row]
    ensures LogRows(log + [m], outputs) == LogRows(log, outputs) + [row]
  {
    assert (log + [m])[..|log|] == log;
  }

  lemma AfterInterruptRows()
    ensures var t := AfterInterrupt(); Match(t.base, LogRows(t.log, Outputs(t.log)))
  {
    var t := AfterInterrupt();
    var outputs := Outputs(t.log);
    OneBlock("a");
    OneBlock("b");
    OneMoreRow([], t.log[0], TextHist(UserRow, "a"), outputs);
    OneMoreRow(t.log[..1], t.log[1], TextHist(InterruptedRow, "interrupted"), outputs);
    OneMoreRow(t.log[..2], t.log[2], TextHist(UserRow, "b"), outputs);
    assert t.log[..1] == [] + [t.log[0]] && t.log[..2] == t.log[..1] + [t.log[1]] && t.log == t.log[..2] + [t.log[2]];
  }

  lemma AfterInterruptReply()
    ensures var call := AfterInterrupt().calls[0];
            Assembled(call) && Uses(call) == [] && StartedIds(call.streamed) == []
  {
    var call := AfterInterrupt().calls[0];
    OneBlock("x");
    assert call.streamed[..0] == [];
    assert StreamedText(call.streamed) == "" + "x";
    assert StreamedTools(call.streamed) == [] + [];
  }

  lemma AfterInterruptOut()
    ensures var t := AfterInterrupt();
            Out(t) == Outcome([AssistantMessage(t.calls[0])], t.calls[0].streamed, Completed, 1)
  {
    AfterInterruptReply();
  }

  lemma AfterInterruptIsClean()
    ensures CleanTurn(AfterInterrupt())
  {
    AfterInterruptRows();
    AfterInterruptReply();
    AfterInterruptOut();
  }

  /** An ordinary turn after an interrupted one: its replies are in order, and still the views differ. */
  lemma MarkerRowIsLost()
    ensures var t := AfterInterrupt();
            CleanTurn(t) && Out(t).used == 1 && RepliesTextFirst(t) && !Match(Shown(t), HistoryAfter(t))
  {
    var t := AfterInterrupt();
    AfterInterruptIsClean();
    AfterInterruptOut();
    assert t.log[1] in t.log && IsMarker(t.log[1]);
    MarkerDisagrees(t);
  }
}
