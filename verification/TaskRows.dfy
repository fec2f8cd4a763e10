/**
  The live view with the rows that background tasks and peers put in between (mobile/App.tsx).
  A row remembers which completed task it stands for; open text goes to its own row, which need
  not be the last one. The chat pane's fold is proved to act on these rows like `TaskStep`.
 */
module TaskRows {
  import opened Prelude
  import opened Conversation
  import opened ChatPanes
  import opened LiveRows

  datatype TaskRow = TaskRow(row: Row, task: Option<string>)

  /** `open`: where text that arrives next is added. */
  datatype TaskLive = TaskLive(rows: seq<TaskRow>, open: Option<nat>)

  function TaskOf(m: Message): Option<string> {
    if m.id.BgId? then Some(m.id.taskId) else None
  }

  function TaskView(rows: Rows): (v: seq<TaskRow>)
    ensures |v| == |rows|
    ensures forall i :: 0 <= i < |rows| ==> v[i] == TaskRow(ViewOf(rows[i]), TaskOf(rows[i]))
  {
    seq(|rows|, i requires 0 <= i < |rows| => TaskRow(ViewOf(rows[i]), TaskOf(rows[i])))
  }

  function Faces(rows: seq<TaskRow>): (f: seq<Row>)
    ensures |f| == |rows| && forall i :: 0 <= i < |rows| ==> f[i] == rows[i].row
  {
    seq(|rows|, i requires 0 <= i < |rows| => rows[i].row)
  }

  /** The same rows with new faces. */
  function Refaced(rows: seq<TaskRow>, faces: seq<Row>): (r: seq<TaskRow>)
    requires |faces| == |rows|
    ensures |r| == |rows| && forall i :: 0 <= i < |rows| ==> r[i] == TaskRow(faces[i], rows[i].task)
  {
    seq(|rows|, i requires 0 <= i < |rows| => TaskRow(faces[i], rows[i].task))
  }

  function Stopped(rows: seq<TaskRow>): (r: seq<TaskRow>)
    ensures |r| == |rows|
  {
    Refaced(rows, AllStopped(Faces(rows)))
  }

  predicate HasTask(rows: seq<TaskRow>, task: string) {
    exists i :: 0 <= i < |rows| && rows[i].task == Some(task)
  }

  function Appended(l: TaskLive, row: Row, task: Option<string>): TaskLive {
    l.(rows := l.rows + [TaskRow(row, task)])
  }

  /** Everything the server buffers and fans out. */
  predicate Buffered(e: Event) {
    !e.Ready? && !e.ReplayEnd?
  }

  function TaskStep(l: TaskLive, e: Event): TaskLive {
    var faces := Faces(l.rows);
    match e
    case TextChunk(chunk) =>
      if l.open.Some? && l.open.value < |l.rows| then
        var at := l.open.value;
        l.(rows := l.rows[at := l.rows[at].(row := l.rows[at].row.(text := l.rows[at].row.text + chunk))])
      else Appended(l, PlainRow(AssistantRow, chunk), None).(open := Some(|l.rows|))
    case ToolStarted(id, tool) =>
      Appended(l, Row(ToolRow, tool, Some(id), None, !SomeRunning(faces)), None).(open := None)
    case ToolLine(id, line) => l.(rows := Refaced(l.rows, WithLine(faces, id, line)))
    case ToolFinished(id, output) => l.(rows := Refaced(l.rows, Finished(faces, id, output)))
    case TurnDone(_) => TaskLive(Stopped(l.rows), None)
    case TurnInterrupted(_) => Appended(TaskLive(Stopped(l.rows), None), PlainRow(InterruptedRow, "interrupted"), None)
    case TurnFailed(message) => Appended(TaskLive(Stopped(l.rows), None), PlainRow(ErrorRow, message), None)
    case BgCompleted(taskId, text) =>
      if HasTask(l.rows, taskId) then l else Appended(l, PlainRow(BgCompleteRow, text), Some(taskId))
    case BgProgressed(text) => Appended(l, PlainRow(BgProgressRow, text), None)
    case PeerMessaged(text) => Appended(l, PlainRow(PeerMessageRow, text), None)
    case _ => l
  }

  function TaskFold(l: TaskLive, events: seq<Event>): TaskLive {
    if events == [] then l else TaskStep(TaskFold(l, events[..|events| - 1]), events[|events| - 1])
  }

  // ── The pane acts like this view ────────────────────────────────────────────

  /** Ids handed out are below `nextUid`; while text is open exactly one row has the streaming id. */
  ghost predicate OneOpen(p: Pane) {
    var rows := Target(p);
    && p.streamingId.Uid? && p.streamingId.n < p.nextUid
    && (forall i :: 0 <= i < |rows| && rows[i].id.Uid? ==> rows[i].id.n < p.nextUid)
    && (p.hasAssistant <==> HasId(rows, p.streamingId))
    && (forall i, j :: 0 <= i < |rows| && 0 <= j < |rows| && rows[i].id == p.streamingId && rows[j].id == p.streamingId
          ==> i == j)
  }

  function OpenRow(p: Pane): Option<nat> {
    var at := FindId(Target(p), p.streamingId, 0);
    if p.hasAssistant && at >= 0 then Some(at) else None
  }

  function TaskLiveOf(p: Pane): TaskLive {
    TaskLive(TaskView(Target(p)), OpenRow(p))
  }

  lemma {:induction false} FindIdIs(rows: Rows, id: Id, from: nat, at: nat)
    requires from <= at < |rows| && rows[at].id == id && forall i :: from <= i < at ==> rows[i].id != id
    ensures FindId(rows, id, from) == at
    decreases at - from
  {
    if from < at {
      FindIdIs(rows, id, from + 1, at);
    }
  }

  lemma {:induction false} FindsNone(rows: Rows, id: Id, from: nat)
    requires from <= |rows| && !HasId(rows, id)
    ensures FindId(rows, id, from) == -1
    decreases |rows| - from
  {
    if from < |rows| {
      FindsNone(rows, id, from + 1);
    }
  }

  /** The open row is where the streaming id is. */
  lemma OpenRowIs(p: Pane)
    requires OneOpen(p)
    ensures OpenRow(p).Some? <==> p.hasAssistant
    ensures forall i :: 0 <= i < |Target(p)| ==> (Target(p)[i].id == p.streamingId <==> OpenRow(p) == Some(i))
  {
    var rows := Target(p);
    if p.hasAssistant {
      var at :| 0 <= at < |rows| && rows[at].id == p.streamingId;
      FindIdIs(rows, p.streamingId, 0, at);
    }
  }

  lemma FacesOfView(rows: Rows)
    ensures Faces(TaskView(rows)) == View(rows)
  {}

  lemma TaskViewAppend(rows: Rows, m: Message)
    ensures TaskView(AppendMsg(rows, m)) == TaskView(rows) + [TaskRow(ViewOf(m), TaskOf(m))]
  {}

  /** Rows with the same ids show the same tasks. */
  lemma TaskViewReface(rows: Rows, others: Rows)
    requires |others| == |rows| && forall i :: 0 <= i < |rows| ==> others[i].id == rows[i].id
    ensures TaskView(others) == Refaced(TaskView(rows), View(others))
  {}

  /** A pane whose list got a row that does not have the streaming id. */
  lemma OtherRowAdded(p: Pane, q: Pane, m: Message)
    requires OneOpen(p) && m.id != p.streamingId && Target(q) == AppendMsg(Target(p), m)
    requires q.streamingId == p.streamingId && q.hasAssistant == p.hasAssistant && q.nextUid >= p.nextUid
    requires m.id.Uid? ==> m.id.n < q.nextUid
    ensures OneOpen(q) && TaskLiveOf(q) == Appended(TaskLiveOf(p), ViewOf(m), TaskOf(m))
  {
    var rows, more := Target(p), Target(q);
    forall i | 0 <= i < |rows| ensures more[i] == rows[i] {}
    if p.hasAssistant {
      var at :| 0 <= at < |rows| && rows[at].id == p.streamingId;
      assert more[at].id == p.streamingId;
    }
    TaskViewAppend(rows, m);
    OpenRowIs(p);
    OpenRowIs(q);
    if OpenRow(p).Some? {
      assert more[OpenRow(p).value].id == p.streamingId;
    }
  }

  /** A sealed pane: whatever streams next starts a new row. */
  lemma SealedPane(q: Pane, rows: Rows)
    requires Target(q) == rows && !q.hasAssistant && q.streamingId.Uid? && q.streamingId.n + 1 == q.nextUid
    requires forall i :: 0 <= i < |rows| && rows[i].id.Uid? ==> rows[i].id.n < q.streamingId.n
    ensures OneOpen(q) && TaskLiveOf(q) == TaskLive(TaskView(rows), None)
  {
    forall i | 0 <= i < |rows| ensures rows[i].id != q.streamingId {}
  }

  /** An update that keeps every id. */
  lemma SameIdsUpdate(p: Pane, q: Pane)
    requires OneOpen(p) && |Target(q)| == |Target(p)|
    requires forall i :: 0 <= i < |Target(p)| ==> Target(q)[i].id == Target(p)[i].id
    requires q.streamingId == p.streamingId && q.hasAssistant == p.hasAssistant && q.nextUid == p.nextUid
    ensures OneOpen(q) && TaskLiveOf(q) == TaskLive(Refaced(TaskLiveOf(p).rows, View(Target(q))), OpenRow(p))
  {
    if p.hasAssistant {
      var at :| 0 <= at < |Target(p)| && Target(p)[at].id == p.streamingId;
      assert Target(q)[at].id == p.streamingId;
    }
    TaskViewReface(Target(p), Target(q));
    OpenRowIs(p);
    OpenRowIs(q);
    if OpenRow(p).Some? {
      assert Target(q)[OpenRow(p).value].id == p.streamingId;
    }
  }

  lemma HasTaskView(rows: Rows, task: string)
    ensures HasTask(TaskView(rows), task) <==> HasId(rows, BgId(task))
  {
    if HasTask(TaskView(rows), task) {
      var i :| 0 <= i < |rows| && TaskView(rows)[i].task == Some(task);
      assert rows[i].id == BgId(task);
    }
    if HasId(rows, BgId(task)) {
      var i :| 0 <= i < |rows| && rows[i].id == BgId(task);
      assert TaskView(rows)[i].task == Some(task);
    }
  }

  /** What an event leaves: a pane in order, showing what the view's step shows. */
  ghost predicate Follows(p: Pane, e: Event) {
    OneOpen(Handle(p, e)) && TaskLiveOf(Handle(p, e)) == TaskStep(TaskLiveOf(p), e)
  }

  lemma OpenTextFollows(p: Pane, chunk: string)
    requires OneOpen(p) && p.hasAssistant
    ensures Follows(p, TextChunk(chunk))
  {
    var q := Handle(p, TextChunk(chunk));
    OpenRowIs(p);
    SameIdsUpdate(p, q);
    var at, l := OpenRow(p).value, TaskLiveOf(p);
    assert TaskLiveOf(q).rows
        == l.rows[at := l.rows[at].(row := l.rows[at].row.(text := l.rows[at].row.text + chunk))];
  }

  lemma NewTextFollows(p: Pane, chunk: string)
    requires OneOpen(p) && !p.hasAssistant
    ensures Follows(p, TextChunk(chunk))
  {
    var q := Handle(p, TextChunk(chunk));
    var rows, more := Target(p), Target(q);
    var m := NewRow(p.streamingId, AssistantRow, chunk);
    TaskViewAppend(rows, m);
    forall i | 0 <= i < |rows| ensures more[i] == rows[i] && more[i].id != p.streamingId {
      assert !HasId(rows, p.streamingId);
    }
    assert more[|rows|].id == p.streamingId;
    FindIdIs(more, p.streamingId, 0, |rows|);
  }

  lemma ToolFollows(p: Pane, id: string, tool: string)
    requires OneOpen(p)
    ensures Follows(p, ToolStarted(id, tool))
  {
    var m := NewRow(ToolId(id), ToolRow, tool).(running := !AnyRunning(Target(p)));
    AnyRunningView(Target(p));
    FacesOfView(Target(p));
    TaskViewAppend(Target(p), m);
    SealedPane(Handle(p, ToolStarted(id, tool)), AppendMsg(Target(p), m));
  }

  lemma LineFollows(p: Pane, id: string, line: string)
    requires OneOpen(p)
    ensures Follows(p, ToolLine(id, line))
  {
    FacesOfView(Target(p));
    SameIdsUpdate(p, Handle(p, ToolLine(id, line)));
    assert View(AddLine(Target(p), ToolId(id), line)) == WithLine(View(Target(p)), id, line);
  }

  lemma FinishFollows(p: Pane, id: string, output: string)
    requires OneOpen(p)
    ensures Follows(p, ToolFinished(id, output))
  {
    FacesOfView(Target(p));
    SameIdsUpdate(p, Handle(p, ToolFinished(id, output)));
    FinishToolView(Target(p), id, output);
  }

  lemma StoppedView(rows: Rows, cost: nat)
    ensures var stopped := StopRunning(rows);
            && TaskView(stopped) == Stopped(TaskView(rows))
            && TaskView(StampCost(stopped, |stopped|, cost)) == Stopped(TaskView(rows))
  {
    var stopped := StopRunning(rows);
    FacesOfView(rows);
    StopRunningView(rows);
    TaskViewReface(rows, stopped);
    StampCostView(stopped, |stopped|, cost);
    TaskViewReface(stopped, StampCost(stopped, |stopped|, cost));
  }

  /** Ids of stopped and stamped rows are those of the rows. */
  lemma StoppedIds(rows: Rows, cost: nat, low: nat)
    requires forall i :: 0 <= i < |rows| && rows[i].id.Uid? ==> rows[i].id.n < low
    ensures var r := StampCost(StopRunning(rows), |rows|, cost);
            |r| == |rows| && forall i :: 0 <= i < |r| && r[i].id.Uid? ==> r[i].id.n < low
  {
    StampCostView(StopRunning(rows), |rows|, cost);
    forall i | 0 <= i < |rows| ensures StampCost(StopRunning(rows), |rows|, cost)[i].id == rows[i].id {}
  }

  lemma DoneFollows(p: Pane, cost: nat)
    requires OneOpen(p)
    ensures Follows(p, TurnDone(cost))
  {
    StoppedView(Target(p), cost);
    StoppedIds(Target(p), cost, p.nextUid);
    SealedPane(Handle(p, TurnDone(cost)), StampCost(StopRunning(Target(p)), |Target(p)|, cost));
  }

  /** A row with a fresh id at the end, and the pane sealed. */
  lemma SealedAfterRow(q: Pane, rows: Rows, low: nat, role: RowRole, text: string)
    requires forall i :: 0 <= i < |rows| && rows[i].id.Uid? ==> rows[i].id.n < low
    requires Target(q) == AppendMsg(rows, NewRow(Uid(low), role, text)) && !q.hasAssistant
    requires q.streamingId == Uid(low + 1) && q.nextUid == low + 2
    ensures OneOpen(q)
    ensures TaskLiveOf(q) == Appended(TaskLive(TaskView(rows), None), PlainRow(role, text), None)
  {
    TaskViewAppend(rows, NewRow(Uid(low), role, text));
    SealedPane(q, AppendMsg(rows, NewRow(Uid(low), role, text)));
  }

  lemma InterruptedFollows(p: Pane, cost: nat)
    requires OneOpen(p)
    ensures Follows(p, TurnInterrupted(cost))
  {
    var rows := Target(p);
    StoppedView(rows, cost);
    StoppedIds(rows, cost, p.nextUid);
    SealedAfterRow(Handle(p, TurnInterrupted(cost)), StampCost(StopRunning(rows), |rows|, cost), p.nextUid,
                   InterruptedRow, "interrupted");
  }

  lemma FailedFollows(p: Pane, message: string)
    requires OneOpen(p)
    ensures Follows(p, TurnFailed(message))
  {
    StoppedView(Target(p), 0);
    SealedAfterRow(Handle(p, TurnFailed(message)), StopRunning(Target(p)), p.nextUid, ErrorRow, message);
  }

  lemma BackgroundFollows(p: Pane, e: Event)
    requires OneOpen(p) && (e.BgCompleted? || e.BgProgressed? || e.PeerMessaged?)
    ensures Follows(p, e)
  {
    match e {
      case BgCompleted(taskId, text) =>
        HasTaskView(Target(p), taskId);
        if !HasId(Target(p), BgId(taskId)) {
          OtherRowAdded(p, Handle(p, e), NewRow(BgId(taskId), BgCompleteRow, text));
        }
      case BgProgressed(text) => OtherRowAdded(p, Handle(p, e), NewRow(Uid(p.nextUid), BgProgressRow, text));
      case PeerMessaged(text) => OtherRowAdded(p, Handle(p, e), NewRow(Uid(p.nextUid), PeerMessageRow, text));
    }
  }

  /** Folding an event into the pane is folding it into the view; only the current list changes. */
  lemma PaneFollows(p: Pane, e: Event)
    requires OneOpen(p) && Buffered(e)
    ensures Follows(p, e)
    ensures Handle(p, e).replaying.Some? <==> p.replaying.Some?
    ensures p.replaying.Some? ==> Handle(p, e).messages == p.messages
    ensures Handle(p, e).staggerQueue == p.staggerQueue && Handle(p, e).nextUid >= p.nextUid
  {
    OnlyTarget(p, e);
    match e {
      case TextChunk(chunk) =>
        if p.hasAssistant { OpenTextFollows(p, chunk); } else { NewTextFollows(p, chunk); }
      case ToolStarted(id, tool) => ToolFollows(p, id, tool);
      case ToolLine(id, line) => LineFollows(p, id, line);
      case ToolFinished(id, output) => FinishFollows(p, id, output);
      case TurnDone(cost) => DoneFollows(p, cost);
      case TurnInterrupted(cost) => InterruptedFollows(p, cost);
      case TurnFailed(message) => FailedFollows(p, message);
      case BgCompleted(_, _) => BackgroundFollows(p, e);
      case BgProgressed(_) => BackgroundFollows(p, e);
      case PeerMessaged(_) => BackgroundFollows(p, e);
      case _ =>
    }
  }

  lemma OnlyTarget(p: Pane, e: Event)
    requires Buffered(e)
    ensures Handle(p, e).replaying.Some? <==> p.replaying.Some?
    ensures p.replaying.Some? ==> Handle(p, e).messages == p.messages
    ensures Handle(p, e).staggerQueue == p.staggerQueue && Handle(p, e).nextUid >= p.nextUid
  {}
}
