/**
  What a replay of the running turn rebuilds, when the rows it starts from were cut at the last
  user, background or peer row the client had seen (mobile/App.tsx).
 */
module Replays {
  import opened Prelude
  import opened Conversation
  import opened ChatPanes
  import opened LiveRows
  import opened ToolSchedule
  import opened TaskRows
  import opened Cuts

  // ── Turns as a client can see them ──────────────────────────────────────────

  /** Tool output only ever follows the announcement of its tool. */
  ghost predicate Announced(events: seq<Event>) {
    forall n :: 0 <= n < |events| && (events[n].ToolLine? || events[n].ToolFinished?) ==>
      events[n].id in StartedIds(events[..n])
  }

  predicate DistinctTasks(rows: seq<TaskRow>) {
    forall i, j :: 0 <= i < j < |rows| && rows[i].task.Some? ==> rows[i].task != rows[j].task
  }

  /** Rows of completed tasks are background completions, as the pane makes them. */
  predicate TaskRoles(rows: seq<TaskRow>) {
    forall i :: 0 <= i < |rows| && rows[i].task.Some? ==> rows[i].row.role == BgCompleteRow
  }

  /**
    The events of a turn so far, background and peer events among them, for a client whose rows
    were `base` when it started: nothing runs, and the turn's tool ids are new. The row of what
    triggered the turn may be missing.
   */
  ghost predicate TurnSoFar(base: seq<TaskRow>, events: seq<Event>) {
    && DistinctTasks(base) && TaskRoles(base)
    && Quiet(Faces(base), StartedIds(events))
    && (forall e <- events :: Buffered(e))
    && Announced(events)
  }

  /** After `n` events of the turn. */
  function Seen(start: seq<TaskRow>, events: seq<Event>, n: nat): TaskLive
    requires n <= |events|
  {
    TaskFold(TaskLive(start, None), events[..n])
  }

  lemma SeenNext(start: seq<TaskRow>, events: seq<Event>, n: nat)
    requires n < |events|
    ensures Seen(start, events, n + 1) == TaskStep(Seen(start, events, n), events[n])
  {
    assert events[..n + 1][..n] == events[..n];
  }

  // ── Roles and tasks only grow ───────────────────────────────────────────────

  lemma StepGrows(l: TaskLive, e: Event)
    ensures Grows(l.rows, TaskStep(l, e).rows) && |TaskStep(l, e).rows| <= |l.rows| + 1
  {}

  /** Every step keeps the roles of completed tasks' rows. */
  lemma StepKeepsTaskRoles(l: TaskLive, e: Event)
    requires TaskRoles(l.rows)
    ensures TaskRoles(TaskStep(l, e).rows)
  {
    var after := TaskStep(l, e).rows;
    StepGrows(l, e);
    forall i | 0 <= i < |after| && after[i].task.Some? ensures after[i].row.role == BgCompleteRow {
      if i < |l.rows| {
        assert l.rows[i].task.Some?;
      }
    }
  }

  lemma {:induction false} Growing(start: seq<TaskRow>, events: seq<Event>, m: nat, n: nat)
    requires m <= n <= |events|
    ensures Grows(Seen(start, events, m).rows, Seen(start, events, n).rows)
    decreases n
  {
    if m < n {
      Growing(start, events, m, n - 1);
      SeenNext(start, events, n - 1);
      StepGrows(Seen(start, events, n - 1), events[n - 1]);
    }
  }

  // ── Counting rows ───────────────────────────────────────────────────────────

  /** The rows that are not a completed task's. */
  function PlainRows(rows: seq<TaskRow>): nat {
    if rows == [] then 0
    else PlainRows(rows[..|rows| - 1]) + (if rows[|rows| - 1].task.None? then 1 else 0)
  }

  lemma {:induction false} PlainRowsGrow(a: seq<TaskRow>, b: seq<TaskRow>)
    requires Grows(a, b)
    ensures PlainRows(a) <= PlainRows(b)
    ensures |a| == |b| ==> PlainRows(a) == PlainRows(b)
    ensures (exists i :: |a| <= i < |b| && b[i].task.None?) ==> PlainRows(a) < PlainRows(b)
    decreases |b|
  {
    if b != [] {
      if |a| < |b| {
        PlainRowsGrow(a, b[..|b| - 1]);
        if i :| |a| <= i < |b| && b[i].task.None? {
          assert i < |b| - 1 ==> b[..|b| - 1][i].task.None?;
        }
      } else {
        PlainRowsGrow(a[..|a| - 1], b[..|b| - 1]);
      }
    }
  }

  predicate OpenIsRow(l: TaskLive) {
    l.open.Some? ==> l.open.value < |l.rows|
  }

  /** How many plain rows an event adds; `open`: text has a row to go to. */
  function Adds(e: Event, open: bool): nat {
    match e
    case TextChunk(_) => if open then 0 else 1
    case ToolStarted(_, _) | TurnInterrupted(_) | TurnFailed(_) | BgProgressed(_) | PeerMessaged(_) => 1
    case _ => 0
  }

  function OpenAfter(e: Event, open: bool): bool {
    match e
    case TextChunk(_) => true
    case ToolStarted(_, _) | TurnDone(_) | TurnInterrupted(_) | TurnFailed(_) => false
    case _ => open
  }

  lemma OneMore(rows: seq<TaskRow>, last: TaskRow)
    ensures PlainRows(rows + [last]) == PlainRows(rows) + if last.task.None? then 1 else 0
  {
    assert (rows + [last])[..|rows|] == rows;
  }

  lemma StoppedGrows(rows: seq<TaskRow>)
    ensures Grows(rows, Stopped(rows)) && PlainRows(Stopped(rows)) == PlainRows(rows)
  {
    PlainRowsGrow(rows, Stopped(rows));
  }

  /** An event adds as many plain rows whatever rows there are. */
  lemma StepAdds(l: TaskLive, e: Event)
    requires OpenIsRow(l)
    ensures OpenIsRow(TaskStep(l, e)) && TaskStep(l, e).open.Some? == OpenAfter(e, l.open.Some?)
    ensures PlainRows(TaskStep(l, e).rows) == PlainRows(l.rows) + Adds(e, l.open.Some?)
  {
    StepGrows(l, e);
    var after := TaskStep(l, e).rows;
    if |after| == |l.rows| {
      PlainRowsGrow(l.rows, after);
    } else {
      var front := after[..|l.rows|];
      PlainRowsGrow(l.rows, front);
      assert after == front + [after[|l.rows|]];
      OneMore(front, after[|l.rows|]);
    }
  }

  /** Two folds of the same events add as many plain rows. */
  lemma {:induction false} FoldsAddAlike(a: seq<TaskRow>, b: seq<TaskRow>, events: seq<Event>, n: nat)
    requires n <= |events|
    ensures OpenIsRow(Seen(a, events, n)) && OpenIsRow(Seen(b, events, n))
    ensures Seen(a, events, n).open.Some? == Seen(b, events, n).open.Some?
    ensures PlainRows(Seen(a, events, n).rows) - PlainRows(a) == PlainRows(Seen(b, events, n).rows) - PlainRows(b)
    decreases n
  {
    if n > 0 {
      FoldsAddAlike(a, b, events, n - 1);
      SeenNext(a, events, n - 1);
      SeenNext(b, events, n - 1);
      StepAdds(Seen(a, events, n - 1), events[n - 1]);
      StepAdds(Seen(b, events, n - 1), events[n - 1]);
    }
  }

  function Tasks(rows: seq<TaskRow>): set<string> {
    set r | r in rows && r.task.Some? :: r.task.value
  }

  function Completed(events: seq<Event>): set<string> {
    set e | e in events && e.BgCompleted? :: e.taskId
  }

  lemma {:induction false} CountRows(rows: seq<TaskRow>)
    requires DistinctTasks(rows)
    ensures |rows| == PlainRows(rows) + |Tasks(rows)|
  {
    if rows != [] {
      var front, last := rows[..|rows| - 1], rows[|rows| - 1];
      CountRows(front);
      assert rows == front + [last];
      if last.task.Some? {
        assert Tasks(rows) == Tasks(front) + {last.task.value};
        assert last.task.value !in Tasks(front);
      } else {
        assert Tasks(rows) == Tasks(front);
      }
    }
  }

  lemma SameTasks(a: seq<TaskRow>, b: seq<TaskRow>)
    requires Grows(a, b)
    ensures Tasks(a) <= Tasks(b)
    ensures |a| == |b| ==> Tasks(a) == Tasks(b)
    ensures DistinctTasks(b) ==> DistinctTasks(a)
    ensures |a| == |b| && DistinctTasks(a) ==> DistinctTasks(b)
  {
    forall t | t in Tasks(a) ensures t in Tasks(b) {
      var i :| 0 <= i < |a| && a[i].task == Some(t);
      assert b[i] in b;
    }
    if |a| == |b| {
      forall t | t in Tasks(b) ensures t in Tasks(a) {
        var i :| 0 <= i < |b| && b[i].task == Some(t);
        assert a[i] in a;
      }
    }
  }

  lemma AddedTask(rows: seq<TaskRow>, last: TaskRow)
    requires DistinctTasks(rows) && (last.task.Some? ==> !HasTask(rows, last.task.value))
    ensures DistinctTasks(rows + [last])
    ensures Tasks(rows + [last]) == Tasks(rows) + if last.task.Some? then {last.task.value} else {}
  {
    assert forall r :: r in rows + [last] <==> r in rows || r == last;
  }

  lemma HasTaskIs(rows: seq<TaskRow>, task: string)
    ensures HasTask(rows, task) <==> task in Tasks(rows)
  {
    if HasTask(rows, task) {
      var i :| 0 <= i < |rows| && rows[i].task == Some(task);
      assert rows[i] in rows;
    }
  }

  lemma StepTasks(l: TaskLive, e: Event)
    requires DistinctTasks(l.rows)
    ensures DistinctTasks(TaskStep(l, e).rows)
    ensures Tasks(TaskStep(l, e).rows) == Tasks(l.rows) + if e.BgCompleted? then {e.taskId} else {}
  {
    StepGrows(l, e);
    var after := TaskStep(l, e).rows;
    if |after| == |l.rows| {
      SameTasks(l.rows, after);
      if e.BgCompleted? {
        HasTaskIs(l.rows, e.taskId);
      }
    } else {
      var front := after[..|l.rows|];
      SameTasks(l.rows, front);
      assert after == front + [after[|l.rows|]];
      HasTaskIs(l.rows, if e.BgCompleted? then e.taskId else "");
      HasTaskIs(front, if e.BgCompleted? then e.taskId else "");
      AddedTask(front, after[|l.rows|]);
    }
  }

  lemma {:induction false} FoldTasks(start: seq<TaskRow>, events: seq<Event>, n: nat)
    requires DistinctTasks(start) && n <= |events|
    ensures DistinctTasks(Seen(start, events, n).rows)
    ensures Tasks(Seen(start, events, n).rows) == Tasks(start) + Completed(events[..n])
    decreases n
  {
    if n > 0 {
      FoldTasks(start, events, n - 1);
      SeenNext(start, events, n - 1);
      StepTasks(Seen(start, events, n - 1), events[n - 1]);
      assert events[..n] == events[..n - 1] + [events[n - 1]];
    }
  }

  /** The rows a turn leaves are such rows as a turn can start from, as far as completed tasks go. */
  lemma {:induction false} RowsForNextTurn(base: seq<TaskRow>, events: seq<Event>, n: nat)
    requires DistinctTasks(base) && TaskRoles(base) && n <= |events|
    ensures DistinctTasks(Seen(base, events, n).rows) && TaskRoles(Seen(base, events, n).rows)
    decreases n
  {
    FoldTasks(base, events, n);
    if n > 0 {
      RowsForNextTurn(base, events, n - 1);
      SeenNext(base, events, n - 1);
      StepKeepsTaskRoles(Seen(base, events, n - 1), events[n - 1]);
    } else {
      assert events[..0] == [];
    }
  }

  // ── What a turn leaves alone ────────────────────────────────────────────────

  predicate IsTaskFace(r: TaskRow) {
    r.task.Some? ==> r.row.role == BgCompleteRow && r.row.tool.None? && !r.row.running
  }

  /** `base` as it was, then the turn's rows; the open row and the announced tools are among them. */
  ghost predicate Extends(l: TaskLive, base: seq<TaskRow>, ids: seq<string>) {
    && |base| <= |l.rows| && l.rows[..|base|] == base
    && (l.open.Some? ==> |base| <= l.open.value < |l.rows| && l.rows[l.open.value].task.None?)
    && (forall i :: |base| <= i < |l.rows| ==> IsTaskFace(l.rows[i]))
    && (forall id <- ids :: exists i :: |base| <= i < |l.rows| && l.rows[i].row.tool == Some(id))
  }

  /** Rows no event of the turn changes: those before it, and those of completed tasks. */
  ghost predicate Settled(base: seq<TaskRow>, rows: seq<TaskRow>, i: nat)
    requires i < |rows|
  {
    i < |base| || rows[i].task.Some?
  }

  ghost predicate KeepsSettled(base: seq<TaskRow>, rows: seq<TaskRow>, after: seq<TaskRow>) {
    |rows| <= |after| && forall i :: 0 <= i < |rows| && Settled(base, rows, i) ==> after[i] == rows[i]
  }

  lemma {:induction false} FindsTool(rows: seq<Row>, id: string, from: nat, low: nat, at: nat)
    requires from <= at < |rows| && low <= at && rows[at].tool == Some(id)
    requires forall i :: from <= i < low ==> rows[i].tool != Some(id)
    ensures from <= FindTool(rows, id, from) <= at
    ensures low <= FindTool(rows, id, from) || from > low
    decreases |rows| - from
  {
    if rows[from].tool != Some(id) {
      FindsTool(rows, id, from + 1, low, at);
    }
  }

  /** New faces on the rows of the turn that are no task's, tools kept. */
  lemma RefacedExtends(l: TaskLive, faces: seq<Row>, open: Option<nat>, base: seq<TaskRow>, ids: seq<string>)
    requires Extends(l, base, ids) && |faces| == |l.rows|
    requires open.None? || open == l.open
    requires forall i :: 0 <= i < |l.rows| && Settled(base, l.rows, i) ==> faces[i] == l.rows[i].row
    requires forall i :: 0 <= i < |l.rows| ==> faces[i].tool == l.rows[i].row.tool
    ensures Extends(TaskLive(Refaced(l.rows, faces), open), base, ids)
    ensures KeepsSettled(base, l.rows, Refaced(l.rows, faces))
  {
    var rows := Refaced(l.rows, faces);
    forall i | 0 <= i < |base| ensures rows[i] == base[i] {
      assert Settled(base, l.rows, i) && l.rows[..|base|][i] == base[i];
    }
    forall i | |base| <= i < |rows| ensures IsTaskFace(rows[i]) {
      if rows[i].task.Some? {
        assert Settled(base, l.rows, i);
      }
    }
    forall id | id in ids ensures exists i :: |base| <= i < |rows| && rows[i].row.tool == Some(id) {
      var i :| |base| <= i < |l.rows| && l.rows[i].row.tool == Some(id);
      assert rows[i].row.tool == Some(id);
    }
  }

  lemma AppendedExtends(l: TaskLive, row: TaskRow, open: Option<nat>, base: seq<TaskRow>, ids: seq<string>)
    requires Extends(l, base, ids) && IsTaskFace(row)
    requires open.None? || open == l.open || (open == Some(|l.rows|) && row.task.None?)
    ensures Extends(TaskLive(l.rows + [row], open), base, ids)
    ensures row.row.tool.Some? ==> Extends(TaskLive(l.rows + [row], open), base, ids + [row.row.tool.value])
  {
    var rows := l.rows + [row];
    assert rows[..|base|] == l.rows[..|base|];
    forall id | id in ids ensures exists i :: |base| <= i < |rows| && rows[i].row.tool == Some(id) {
      var i :| |base| <= i < |l.rows| && l.rows[i].row.tool == Some(id);
      assert rows[i].row.tool == Some(id);
    }
    assert rows[|l.rows|] == row;
  }

  lemma SettledFace(l: TaskLive, base: seq<TaskRow>, ids: seq<string>, i: nat)
    requires Extends(l, base, ids) && Quiet(Faces(base), ids)
    requires i < |l.rows| && Settled(base, l.rows, i)
    ensures !l.rows[i].row.running && (l.rows[i].row.tool.Some? ==> l.rows[i].row.tool.value !in ids)
    ensures l.open != Some(i)
    ensures i >= |base| ==> l.rows[i].row.role != ToolRow
  {
    if i < |base| {
      assert l.rows[..|base|][i] == base[i] && Faces(base)[i] == base[i].row;
    }
  }

  lemma StoppedExtends(l: TaskLive, base: seq<TaskRow>, ids: seq<string>)
    requires Extends(l, base, ids) && Quiet(Faces(base), ids)
    ensures Extends(TaskLive(Stopped(l.rows), None), base, ids) && KeepsSettled(base, l.rows, Stopped(l.rows))
  {
    var faces := AllStopped(Faces(l.rows));
    forall i | 0 <= i < |l.rows| && Settled(base, l.rows, i) ensures faces[i] == l.rows[i].row {
      SettledFace(l, base, ids, i);
    }
    RefacedExtends(l, faces, None, base, ids);
  }

  /** The tool's row is found among the turn's. */
  lemma FindsOwnTool(l: TaskLive, id: string, base: seq<TaskRow>, ids: seq<string>)
    requires Extends(l, base, ids) && Quiet(Faces(base), ids) && id in ids
    ensures var at := FindTool(Faces(l.rows), id, 0); at >= |base| && l.rows[at].row.tool == Some(id)
  {
    var faces := Faces(l.rows);
    forall i | 0 <= i < |base| ensures faces[i].tool != Some(id) {
      SettledFace(l, base, ids, i);
    }
    var at :| |base| <= at < |l.rows| && l.rows[at].row.tool == Some(id);
    FindsTool(faces, id, 0, |base|, at);
    FoundIsTool(faces, id, 0);
  }

  lemma LineExtends(l: TaskLive, id: string, line: string, base: seq<TaskRow>, ids: seq<string>)
    requires Extends(l, base, ids) && Quiet(Faces(base), ids) && id in ids
    ensures Extends(TaskStep(l, ToolLine(id, line)), base, ids)
    ensures KeepsSettled(base, l.rows, TaskStep(l, ToolLine(id, line)).rows)
  {
    var touched := WithLine(Faces(l.rows), id, line);
    forall i | 0 <= i < |l.rows| && Settled(base, l.rows, i) ensures touched[i] == l.rows[i].row {
      SettledFace(l, base, ids, i);
    }
    RefacedExtends(l, touched, l.open, base, ids);
  }

  lemma FinishExtends(l: TaskLive, id: string, output: string, base: seq<TaskRow>, ids: seq<string>)
    requires Extends(l, base, ids) && Quiet(Faces(base), ids) && id in ids
    ensures Extends(TaskStep(l, ToolFinished(id, output)), base, ids)
    ensures KeepsSettled(base, l.rows, TaskStep(l, ToolFinished(id, output)).rows)
  {
    var faces := Faces(l.rows);
    var touched := Finished(faces, id, output);
    FindsOwnTool(l, id, base, ids);
    WaitingIsLater(faces, FindTool(faces, id, 0) + 1);
    forall i | 0 <= i < |l.rows| && Settled(base, l.rows, i) ensures touched[i] == l.rows[i].row {
      SettledFace(l, base, ids, i);
    }
    RefacedExtends(l, touched, l.open, base, ids);
  }

  lemma {:induction false} FoundIsTool(rows: seq<Row>, id: string, from: nat)
    requires from <= |rows|
    ensures FindTool(rows, id, from) >= 0 ==> rows[FindTool(rows, id, from)].tool == Some(id)
    decreases |rows| - from
  {
    if from < |rows| {
      FoundIsTool(rows, id, from + 1);
    }
  }

  lemma {:induction false} WaitingIsLater(rows: seq<Row>, from: nat)
    requires from <= |rows|
    ensures FindWaiting(rows, from) >= 0 ==> FindWaiting(rows, from) >= from && Waits(rows[FindWaiting(rows, from)])
    decreases |rows| - from
  {
    if from < |rows| {
      WaitingIsLater(rows, from + 1);
    }
  }

  lemma TextExtends(l: TaskLive, chunk: string, base: seq<TaskRow>, ids: seq<string>)
    requires Extends(l, base, ids) && Quiet(Faces(base), ids)
    ensures Extends(TaskStep(l, TextChunk(chunk)), base, ids)
    ensures KeepsSettled(base, l.rows, TaskStep(l, TextChunk(chunk)).rows)
  {
    if l.open.Some? {
      var at, faces := l.open.value, Faces(l.rows);
      var touched := faces[at := faces[at].(text := faces[at].text + chunk)];
      assert TaskStep(l, TextChunk(chunk)).rows == Refaced(l.rows, touched);
      forall i | 0 <= i < |l.rows| && Settled(base, l.rows, i) ensures touched[i] == l.rows[i].row {
        SettledFace(l, base, ids, i);
      }
      RefacedExtends(l, touched, l.open, base, ids);
    } else {
      AppendedExtends(l, TaskRow(PlainRow(AssistantRow, chunk), None), Some(|l.rows|), base, ids);
    }
  }

  lemma StepExtends(l: TaskLive, e: Event, base: seq<TaskRow>, ids: seq<string>)
    requires Extends(l, base, ids) && Buffered(e)
    requires Quiet(Faces(base), if e.ToolStarted? then ids + [e.id] else ids)
    requires e.ToolLine? || e.ToolFinished? ==> e.id in ids
    ensures Extends(TaskStep(l, e), base, if e.ToolStarted? then ids + [e.id] else ids)
    ensures KeepsSettled(base, l.rows, TaskStep(l, e).rows)
  {
    assert Quiet(Faces(base), ids);
    var stopped := TaskLive(Stopped(l.rows), None);
    match e {
      case TextChunk(chunk) => TextExtends(l, chunk, base, ids);
      case ToolStarted(id, tool) =>
        var row := Row(ToolRow, tool, Some(id), None, !SomeRunning(Faces(l.rows)));
        AppendedExtends(l, TaskRow(row, None), None, base, ids);
      case ToolLine(id, line) => LineExtends(l, id, line, base, ids);
      case ToolFinished(id, output) => FinishExtends(l, id, output, base, ids);
      case TurnDone(_) => StoppedExtends(l, base, ids);
      case TurnInterrupted(_) =>
        StoppedExtends(l, base, ids);
        AppendedExtends(stopped, TaskRow(PlainRow(InterruptedRow, "interrupted"), None), None, base, ids);
      case TurnFailed(message) =>
        StoppedExtends(l, base, ids);
        AppendedExtends(stopped, TaskRow(PlainRow(ErrorRow, message), None), None, base, ids);
      case BgCompleted(taskId, text) =>
        AppendedExtends(l, TaskRow(PlainRow(BgCompleteRow, text), Some(taskId)), l.open, base, ids);
      case BgProgressed(text) => AppendedExtends(l, TaskRow(PlainRow(BgProgressRow, text), None), l.open, base, ids);
      case PeerMessaged(text) => AppendedExtends(l, TaskRow(PlainRow(PeerMessageRow, text), None), l.open, base, ids);
      case _ =>
    }
  }

  lemma QuietPrefix(base: seq<Row>, events: seq<Event>, n: nat)
    requires Quiet(base, StartedIds(events)) && n <= |events|
    ensures Quiet(base, StartedIds(events[..n]))
  {
    StartedIdsPrefix(events, n);
    forall id | id in StartedIds(events[..n]) ensures id in StartedIds(events) {
      var k :| 0 <= k < |StartedIds(events[..n])| && StartedIds(events[..n])[k] == id;
      assert StartedIds(events)[k] == id;
    }
  }

  lemma {:induction false} TurnExtends(base: seq<TaskRow>, events: seq<Event>, n: nat)
    requires TurnSoFar(base, events) && n <= |events|
    ensures Extends(Seen(base, events, n), base, StartedIds(events[..n]))
    ensures n > 0 ==> KeepsSettled(base, Seen(base, events, n - 1).rows, Seen(base, events, n).rows)
    decreases n
  {
    if n > 0 {
      TurnExtends(base, events, n - 1);
      SeenNext(base, events, n - 1);
      assert events[..n][..n - 1] == events[..n - 1];
      assert events[n - 1] in events;
      QuietPrefix(Faces(base), events, n);
      StepExtends(Seen(base, events, n - 1), events[n - 1], base, StartedIds(events[..n - 1]));
    }
  }
}
