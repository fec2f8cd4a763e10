/**
  The live view without ids: what a row shows, and how the events of a turn change it. The
  chat pane's fold (module ChatPanes) is proved to act on these rows exactly like `LiveStep`,
  whatever fresh ids it hands out.
 */
module LiveRows {
  import opened Prelude
  import opened Conversation
  import opened ChatPanes

  /** What a row shows, and which tool call it belongs to. Costs are not compared. */
  datatype Row = Row(role: RowRole, text: string, tool: Option<string>, output: Option<string>, running: bool)

  /** `open`: text that arrives next belongs to the last row. */
  datatype Live = Live(rows: seq<Row>, open: bool)

  function ViewOf(m: Message): Row {
    Row(m.role, m.text, if m.id.ToolId? then Some(m.id.id) else None, m.output, m.running)
  }

  function View(rows: Rows): (v: seq<Row>)
    ensures |v| == |rows|
    ensures forall i :: 0 <= i < |rows| ==> v[i] == ViewOf(rows[i])
  {
    seq(|rows|, i requires 0 <= i < |rows| => ViewOf(rows[i]))
  }

  /** Events a turn itself can emit. */
  predicate InTurn(e: Event) {
    && !e.Ready? && !e.ReplayEnd? && !e.BgCompleted? && !e.BgProgressed? && !e.PeerMessaged?
  }

  predicate SomeRunning(rows: seq<Row>) {
    exists i :: 0 <= i < |rows| && rows[i].running
  }

  function AllStopped(rows: seq<Row>): seq<Row> {
    seq(|rows|, i requires 0 <= i < |rows| => rows[i].(running := false))
  }

  function Grown(r: Row, line: string): Row {
    r.(output := Some((if r.output.Some? then r.output.value else "") + line + "\n"))
  }

  function WithLine(rows: seq<Row>, id: string, line: string): seq<Row> {
    seq(|rows|, i requires 0 <= i < |rows| => if rows[i].tool == Some(id) then Grown(rows[i], line) else rows[i])
  }

  function FindTool(rows: seq<Row>, id: string, i: nat): (r: int)
    requires i <= |rows|
    ensures r == -1 || i <= r < |rows|
    decreases |rows| - i
  {
    if i == |rows| then -1 else if rows[i].tool == Some(id) then i else FindTool(rows, id, i + 1)
  }

  predicate Waits(r: Row) {
    r.role == ToolRow && !r.running && r.output.None?
  }

  function FindWaiting(rows: seq<Row>, i: nat): (r: int)
    requires i <= |rows|
    ensures r == -1 || i <= r < |rows|
    decreases |rows| - i
  {
    if i == |rows| then -1 else if Waits(rows[i]) then i else FindWaiting(rows, i + 1)
  }

  function Finished(rows: seq<Row>, id: string, output: string): seq<Row> {
    var done := FindTool(rows, id, 0);
    var next := FindWaiting(rows, done + 1);
    seq(|rows|, i requires 0 <= i < |rows| =>
      if i == done then rows[i].(output := Some(output), running := false)
      else if i == next then rows[i].(running := true)
      else rows[i])
  }

  function PlainRow(role: RowRole, text: string): Row {
    Row(role, text, None, None, false)
  }

  function LiveStep(l: Live, e: Event): Live {
    match e
    case TextChunk(chunk) =>
      if l.open && l.rows != [] then
        var last := |l.rows| - 1;
        l.(rows := l.rows[last := l.rows[last].(text := l.rows[last].text + chunk)])
      else Live(l.rows + [PlainRow(AssistantRow, chunk)], true)
    case ToolStarted(id, tool) =>
      Live(l.rows + [Row(ToolRow, tool, Some(id), None, !SomeRunning(l.rows))], false)
    case ToolLine(id, line) => l.(rows := WithLine(l.rows, id, line))
    case ToolFinished(id, output) => l.(rows := Finished(l.rows, id, output))
    case TurnDone(_) => Live(AllStopped(l.rows), false)
    case TurnInterrupted(_) => Live(AllStopped(l.rows) + [PlainRow(InterruptedRow, "interrupted")], false)
    case TurnFailed(message) => Live(AllStopped(l.rows) + [PlainRow(ErrorRow, message)], false)
    case _ => l
  }

  function LiveFold(l: Live, events: seq<Event>): Live
    decreases |events|
  {
    if events == [] then l else LiveFold(LiveStep(l, events[0]), events[1..])
  }

  lemma {:induction false} LiveFoldAppend(l: Live, a: seq<Event>, b: seq<Event>)
    ensures LiveFold(l, a + b) == LiveFold(LiveFold(l, a), b)
    decreases |a|
  {
    if a == [] {
      assert a + b == b;
    } else {
      assert (a + b)[1..] == a[1..] + b;
      LiveFoldAppend(LiveStep(l, a[0]), a[1..], b);
    }
  }

  // ── The pane acts like the live view ────────────────────────────────────────

  /** Ids handed out are below `nextUid`; the streaming id is the last row's exactly while text is open. */
  ghost predicate Tidy(p: Pane) {
    var rows := Target(p);
    && p.streamingId.Uid? && p.streamingId.n < p.nextUid
    && (forall i :: 0 <= i < |rows| && rows[i].id.Uid? ==> rows[i].id.n < p.nextUid)
    && (forall i :: 0 <= i < |rows| && rows[i].id == p.streamingId ==> p.hasAssistant && i == |rows| - 1)
    && (p.hasAssistant ==> rows != [] && rows[|rows| - 1].id == p.streamingId)
  }

  function LiveOf(p: Pane): Live {
    Live(View(Target(p)), p.hasAssistant)
  }

  lemma {:induction false} FindToolView(rows: Rows, id: string, i: nat)
    requires i <= |rows|
    ensures FindTool(View(rows), id, i) == FindId(rows, ToolId(id), i)
    decreases |rows| - i
  {
    if i < |rows| {
      FindToolView(rows, id, i + 1);
    }
  }

  lemma {:induction false} FindWaitingView(rows: Rows, i: nat)
    requires i <= |rows|
    ensures FindWaiting(View(rows), i) == FindQueued(rows, i)
    decreases |rows| - i
  {
    if i < |rows| {
      FindWaitingView(rows, i + 1);
    }
  }

  lemma FinishToolView(rows: Rows, id: string, output: string)
    ensures View(FinishTool(rows, ToolId(id), output)) == Finished(View(rows), id, output)
  {
    FindToolView(rows, id, 0);
    FindWaitingView(rows, FindId(rows, ToolId(id), 0) + 1);
  }

  lemma {:induction false} StampCostView(rows: Rows, n: nat, cost: nat)
    requires n <= |rows|
    ensures View(StampCost(rows, n, cost)) == View(rows)
    ensures |StampCost(rows, n, cost)| == |rows|
    ensures forall i :: 0 <= i < |rows| ==> StampCost(rows, n, cost)[i].id == rows[i].id
  {
    if n > 0 && rows[n - 1].role != AssistantRow {
      StampCostView(rows, n - 1, cost);
    }
  }

  lemma StopRunningView(rows: Rows)
    ensures View(StopRunning(rows)) == AllStopped(View(rows))
  {}

  lemma AnyRunningView(rows: Rows)
    ensures AnyRunning(rows) <==> SomeRunning(View(rows))
  {
    if AnyRunning(rows) {
      var i :| 0 <= i < |rows| && rows[i].running;
      assert View(rows)[i].running;
    }
    if SomeRunning(View(rows)) {
      var i :| 0 <= i < |View(rows)| && View(rows)[i].running;
      assert rows[i].running;
    }
  }

  lemma AppendView(rows: Rows, m: Message)
    ensures View(AppendMsg(rows, m)) == View(rows) + [ViewOf(m)]
  {}

  lemma TextActs(p: Pane, chunk: string)
    requires Tidy(p)
    ensures Tidy(Handle(p, TextChunk(chunk)))
    ensures LiveOf(Handle(p, TextChunk(chunk))) == LiveStep(LiveOf(p), TextChunk(chunk))
  {
    var rows := Target(p);
    if p.hasAssistant {
      AddTextView(rows, p.streamingId, chunk);
    } else {
      AppendView(rows, NewRow(p.streamingId, AssistantRow, chunk));
    }
  }

  /** Text goes to the last row when only that one has the id. */
  lemma AddTextView(rows: Rows, id: Id, chunk: string)
    requires rows != [] && forall i :: 0 <= i < |rows| ==> (rows[i].id == id <==> i == |rows| - 1)
    ensures var v, last := View(rows), |rows| - 1;
            View(AddText(rows, id, chunk)) == v[last := v[last].(text := v[last].text + chunk)]
  {}

  lemma ToolActs(p: Pane, id: string, tool: string)
    requires Tidy(p)
    ensures Tidy(Handle(p, ToolStarted(id, tool)))
    ensures LiveOf(Handle(p, ToolStarted(id, tool))) == LiveStep(LiveOf(p), ToolStarted(id, tool))
  {
    AnyRunningView(Target(p));
    AppendView(Target(p), NewRow(ToolId(id), ToolRow, tool).(running := !AnyRunning(Target(p))));
  }

  lemma DoneActs(p: Pane, cost: nat)
    requires Tidy(p)
    ensures Tidy(Handle(p, TurnDone(cost)))
    ensures LiveOf(Handle(p, TurnDone(cost))) == LiveStep(LiveOf(p), TurnDone(cost))
  {
    var stopped := StopRunning(Target(p));
    StopRunningView(Target(p));
    StampCostView(stopped, |stopped|, cost);
  }

  /** A fresh row at the end, after which the streaming id is fresh too. */
  lemma SealedAppend(p: Pane, rows: Rows, role: RowRole, text: string)
    requires forall i :: 0 <= i < |rows| && rows[i].id.Uid? ==> rows[i].id.n < p.nextUid
    ensures var q := Sealed(AppendFresh(p, rows, role, text));
            Tidy(q) && LiveOf(q) == Live(View(rows) + [PlainRow(role, text)], false)
  {
    AppendView(rows, NewRow(Uid(p.nextUid), role, text));
  }

  lemma InterruptedActs(p: Pane, cost: nat)
    requires Tidy(p)
    ensures Tidy(Handle(p, TurnInterrupted(cost)))
    ensures LiveOf(Handle(p, TurnInterrupted(cost))) == LiveStep(LiveOf(p), TurnInterrupted(cost))
  {
    var stopped := StopRunning(Target(p));
    StopRunningView(Target(p));
    StampCostView(stopped, |stopped|, cost);
    var stamped := StampCost(stopped, |stopped|, cost);
    forall i | 0 <= i < |stamped| && stamped[i].id.Uid? ensures stamped[i].id.n < p.nextUid {
      assert stamped[i].id == Target(p)[i].id;
    }
    SealedAppend(p.(status := ReadyStatus), stamped, InterruptedRow, "interrupted");
  }

  lemma FailedActs(p: Pane, message: string)
    requires Tidy(p)
    ensures Tidy(Handle(p, TurnFailed(message)))
    ensures LiveOf(Handle(p, TurnFailed(message))) == LiveStep(LiveOf(p), TurnFailed(message))
  {
    StopRunningView(Target(p));
    SealedAppend(p.(status := ReadyStatus), StopRunning(Target(p)), ErrorRow, message);
  }

  /** An update that keeps every id keeps the pane tidy. */
  lemma SameIds(p: Pane, rows: Rows)
    requires Tidy(p) && |rows| == |Target(p)|
    requires forall i :: 0 <= i < |rows| ==> rows[i].id == Target(p)[i].id
    ensures Tidy(WithTarget(p, rows)) && LiveOf(WithTarget(p, rows)) == Live(View(rows), p.hasAssistant)
  {}

  lemma ToolOutputActs(p: Pane, e: Event)
    requires Tidy(p) && (e.ToolLine? || e.ToolFinished?)
    ensures Tidy(Handle(p, e)) && LiveOf(Handle(p, e)) == LiveStep(LiveOf(p), e)
  {
    var rows := Target(p);
    if e.ToolLine? {
      SameIds(p, AddLine(rows, ToolId(e.id), e.line));
      assert View(AddLine(rows, ToolId(e.id), e.line)) == WithLine(View(rows), e.id, e.line);
    } else {
      SameIds(p, FinishTool(rows, ToolId(e.id), e.output));
      FinishToolView(rows, e.id, e.output);
    }
  }

  lemma ReplayKept(p: Pane, e: Event)
    requires InTurn(e)
    ensures Handle(p, e).replaying.Some? <==> p.replaying.Some?
  {}

  /** Folding a turn's event into the pane is folding it into the live view. */
  lemma PaneActs(p: Pane, e: Event)
    requires Tidy(p) && InTurn(e)
    ensures Tidy(Handle(p, e))
    ensures LiveOf(Handle(p, e)) == LiveStep(LiveOf(p), e)
    ensures Handle(p, e).replaying.Some? <==> p.replaying.Some?
  {
    ReplayKept(p, e);
    if e.TextChunk? { TextActs(p, e.text); }
    else if e.ToolStarted? { ToolActs(p, e.id, e.tool); }
    else if e.ToolLine? || e.ToolFinished? { ToolOutputActs(p, e); }
    else if e.TurnDone? { DoneActs(p, e.cost); }
    else if e.TurnInterrupted? { InterruptedActs(p, e.cost); }
    else if e.TurnFailed? { FailedActs(p, e.message); }
  }

  lemma {:induction false} PaneFolds(p: Pane, events: seq<Event>)
    requires Tidy(p) && forall e <- events :: InTurn(e)
    ensures Tidy(HandleAll(p, events))
    ensures LiveOf(HandleAll(p, events)) == LiveFold(LiveOf(p), events)
    ensures HandleAll(p, events).replaying.Some? <==> p.replaying.Some?
    decreases |events|
  {
    if events != [] {
      PaneActs(p, events[0]);
      PaneFolds(Handle(p, events[0]), events[1..]);
    }
  }
}
