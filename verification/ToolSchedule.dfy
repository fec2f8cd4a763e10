/**
  How the tools of a turn show up: the server answers tool calls in the order it announced
  them (core/src/lib.rs), and the client marks exactly the one being executed as running
  (mobile/App.tsx).
 */
module ToolSchedule {
  import opened Prelude
  import opened Conversation
  import opened ChatPanes
  import opened LiveRows

  // ── Event traces of a turn ──────────────────────────────────────────────────

  function StartedIds(events: seq<Event>): seq<string> {
    if events == [] then []
    else StartedIds(events[..|events| - 1])
         + (if events[|events| - 1].ToolStarted? then [events[|events| - 1].id] else [])
  }

  /** The tool results, in the order they arrived. */
  function Results(events: seq<Event>): seq<Event> {
    if events == [] then []
    else Results(events[..|events| - 1])
         + (if events[|events| - 1].ToolFinished? then [events[|events| - 1]] else [])
  }

  /** What the tool being executed has printed so far. */
  function Printed(events: seq<Event>): Option<string> {
    if events == [] then None
    else
      var before := Printed(events[..|events| - 1]);
      match events[|events| - 1]
      case ToolLine(_, line) => Some((if before.Some? then before.value else "") + line + "\n")
      case ToolFinished(_, _) => None
      case _ => before
  }

  predicate Terminal(e: Event) {
    e.TurnDone? || e.TurnInterrupted? || e.TurnFailed?
  }

  predicate Distinct(ids: seq<string>) {
    forall i, j :: 0 <= i < j < |ids| ==> ids[i] != ids[j]
  }

  /** After `events`, the tool being executed is the earliest one announced that has no result. */
  predicate IsCurrentTool(events: seq<Event>, id: string) {
    |Results(events)| < |StartedIds(events)| && StartedIds(events)[|Results(events)|] == id
  }

  /** Output and results come from the tool being executed, and nothing follows the end of the turn. */
  ghost predicate OrderlyAt(events: seq<Event>, n: int)
    requires 0 <= n < |events|
  {
    var e := events[n];
    && InTurn(e)
    && (e.ToolLine? || e.ToolFinished? ==> IsCurrentTool(events[..n], e.id))
    && (Terminal(e) ==> n == |events| - 1)
  }

  ghost predicate Orderly(events: seq<Event>) {
    forall n :: 0 <= n < |events| ==> OrderlyAt(events, n)
  }

  lemma {:induction false} StartedIdsAppend(a: seq<Event>, b: seq<Event>)
    ensures StartedIds(a + b) == StartedIds(a) + StartedIds(b)
    decreases |b|
  {
    if b == [] {
      assert a + b == a;
    } else {
      assert (a + b)[..|a + b| - 1] == a + b[..|b| - 1];
      StartedIdsAppend(a, b[..|b| - 1]);
    }
  }

  lemma {:induction false} ResultsAppend(a: seq<Event>, b: seq<Event>)
    ensures Results(a + b) == Results(a) + Results(b)
    decreases |b|
  {
    if b == [] {
      assert a + b == a;
    } else {
      assert (a + b)[..|a + b| - 1] == a + b[..|b| - 1];
      ResultsAppend(a, b[..|b| - 1]);
    }
  }

  // ── The rows of the tools ───────────────────────────────────────────────────

  /**
    How far a turn has come: `base` rows precede it, `ids` were announced, `results` arrived,
    and the tool being executed has `printed` something.
   */
  datatype Progress = Progress(base: nat, ids: seq<string>, results: seq<Event>, printed: Option<string>)

  function ProgressOf(base: nat, seen: seq<Event>): Progress {
    Progress(base, StartedIds(seen), Results(seen), Printed(seen))
  }

  ghost predicate Sound(t: Progress) {
    && |t.results| <= |t.ids|
    && Distinct(t.ids)
    && (|t.results| == |t.ids| ==> t.printed.None?)
  }

  /** A row no tool event touches. */
  predicate IsPlain(r: Row) {
    r.role != ToolRow && r.tool.None? && r.output.None? && !r.running
  }

  /** The row of the `k`-th announced tool: finished with its result, running, or waiting. */
  ghost predicate ToolState(r: Row, t: Progress, k: int)
    requires 0 <= k < |t.ids|
  {
    && r.role == ToolRow && r.tool == Some(t.ids[k])
    && (r.running <==> k == |t.results|)
    && (k < |t.results| ==>
          t.results[k].ToolFinished? && t.results[k].id == t.ids[k] && r.output == Some(t.results[k].output))
    && (k == |t.results| ==> r.output == t.printed)
    && (k > |t.results| ==> r.output.None?)
  }

  /** The announced tools sit at `pos`, in order; every other row of the turn is plain. */
  ghost predicate Scheduled(rows: seq<Row>, t: Progress, pos: seq<nat>) {
    && t.base <= |rows|
    && |pos| == |t.ids|
    && (forall k :: 0 <= k < |pos| ==> t.base <= pos[k] < |rows|)
    && (forall j, k :: 0 <= j < k < |pos| ==> pos[j] < pos[k])
    && (forall k :: 0 <= k < |pos| ==> ToolState(rows[pos[k]], t, k))
    && (forall i :: t.base <= i < |rows| && i !in pos ==> IsPlain(rows[i]))
    && (forall i :: 0 <= i < t.base ==> !rows[i].running && (rows[i].tool.Some? ==> rows[i].tool.value !in t.ids))
  }

  lemma {:induction false} FindToolIs(rows: seq<Row>, id: string, i: nat, at: nat)
    requires i <= at < |rows| && rows[at].tool == Some(id)
    requires forall j :: i <= j < at ==> rows[j].tool != Some(id)
    ensures FindTool(rows, id, i) == at
    decreases at - i
  {
    if i < at {
      FindToolIs(rows, id, i + 1, at);
    }
  }

  lemma {:induction false} FindWaitingIs(rows: seq<Row>, i: nat, at: nat)
    requires i <= at <= |rows| && (at < |rows| ==> Waits(rows[at]))
    requires forall j :: i <= j < at ==> !Waits(rows[j])
    ensures FindWaiting(rows, i) == if at < |rows| then at else -1
    decreases at - i
  {
    if i < at {
      FindWaitingIs(rows, i + 1, at);
    }
  }

  /** The row of the `f`-th tool is the only one with its id. */
  lemma FindsTool(rows: seq<Row>, t: Progress, pos: seq<nat>, f: nat)
    requires Scheduled(rows, t, pos) && Sound(t) && f < |t.ids|
    ensures FindTool(rows, t.ids[f], 0) == pos[f]
    ensures forall i :: 0 <= i < |rows| && rows[i].tool == Some(t.ids[f]) ==> i == pos[f]
  {
    forall i | 0 <= i < |rows| && rows[i].tool == Some(t.ids[f]) ensures i == pos[f] {
      if i in pos {
        var k :| 0 <= k < |pos| && pos[k] == i;
        assert ToolState(rows[pos[k]], t, k);
      }
    }
    assert ToolState(rows[pos[f]], t, f);
    FindToolIs(rows, t.ids[f], 0, pos[f]);
  }

  function Line(t: Progress, line: string): Progress {
    t.(printed := Some((if t.printed.Some? then t.printed.value else "") + line + "\n"))
  }

  lemma LineKeepsSchedule(rows: seq<Row>, t: Progress, pos: seq<nat>, line: string)
    requires Scheduled(rows, t, pos) && Sound(t) && |t.results| < |t.ids|
    ensures Scheduled(WithLine(rows, t.ids[|t.results|], line), Line(t, line), pos)
  {
    var f := |t.results|;
    FindsTool(rows, t, pos, f);
    var grown := WithLine(rows, t.ids[f], line);
    forall k | 0 <= k < |pos| ensures ToolState(grown[pos[k]], Line(t, line), k) {
      assert ToolState(rows[pos[k]], t, k);
    }
  }

  function Finish(t: Progress, e: Event): Progress {
    t.(results := t.results + [e], printed := None)
  }

  /** A result finishes the row of the tool being executed and promotes that of the next one. */
  lemma FinishTouches(rows: seq<Row>, t: Progress, pos: seq<nat>, id: string)
    requires Scheduled(rows, t, pos) && Sound(t) && |t.results| < |t.ids| && id == t.ids[|t.results|]
    ensures var f := |t.results|;
            && FindTool(rows, id, 0) == pos[f]
            && FindWaiting(rows, pos[f] + 1) == if f + 1 < |t.ids| then pos[f + 1] else -1
  {
    var f := |t.results|;
    FindsTool(rows, t, pos, f);
    var at := if f + 1 < |t.ids| then pos[f + 1] else |rows|;
    assert forall k :: 0 <= k < |pos| ==> pos[k] <= pos[f] || at <= pos[k];
    assert forall j :: pos[f] < j < at ==> IsPlain(rows[j]);
    if f + 1 < |t.ids| {
      assert ToolState(rows[pos[f + 1]], t, f + 1);
    }
    FindWaitingIs(rows, pos[f] + 1, at);
  }

  lemma FinishKeepsSchedule(rows: seq<Row>, t: Progress, pos: seq<nat>, e: Event)
    requires Scheduled(rows, t, pos) && Sound(t) && |t.results| < |t.ids|
    requires e.ToolFinished? && e.id == t.ids[|t.results|]
    ensures Scheduled(Finished(rows, e.id, e.output), Finish(t, e), pos)
  {
    FinishTouches(rows, t, pos, e.id);
    var done := Finished(rows, e.id, e.output);
    forall k | 0 <= k < |pos| ensures ToolState(done[pos[k]], Finish(t, e), k) {
      assert ToolState(rows[pos[k]], t, k);
    }
  }

  /** Something runs exactly while an announced tool has no result. */
  lemma RunningIsCurrent(rows: seq<Row>, t: Progress, pos: seq<nat>)
    requires Scheduled(rows, t, pos) && |t.results| <= |t.ids|
    ensures forall i :: 0 <= i < |rows| && rows[i].running ==> |t.results| < |t.ids| && i == pos[|t.results|]
    ensures |t.results| < |t.ids| ==> rows[pos[|t.results|]].running
    ensures SomeRunning(rows) <==> |t.results| < |t.ids|
  {
    forall i | 0 <= i < |rows| && rows[i].running ensures |t.results| < |t.ids| && i == pos[|t.results|] {
      assert i in pos;
      var k :| 0 <= k < |pos| && pos[k] == i;
      assert ToolState(rows[pos[k]], t, k);
    }
    if |t.results| < |t.ids| {
      assert ToolState(rows[pos[|t.results|]], t, |t.results|);
    }
  }

  function Announce(t: Progress, id: string): Progress {
    t.(ids := t.ids + [id])
  }

  lemma AnnounceKeepsSchedule(rows: seq<Row>, t: Progress, pos: seq<nat>, id: string, tool: string)
    requires Scheduled(rows, t, pos) && Sound(t)
    requires forall i :: 0 <= i < t.base && rows[i].tool.Some? ==> rows[i].tool.value != id
    ensures Scheduled(rows + [Row(ToolRow, tool, Some(id), None, !SomeRunning(rows))], Announce(t, id), pos + [|rows|])
  {
    RunningIsCurrent(rows, t, pos);
    var more := rows + [Row(ToolRow, tool, Some(id), None, !SomeRunning(rows))];
    var pos' := pos + [|rows|];
    forall k | 0 <= k < |pos'| ensures ToolState(more[pos'[k]], Announce(t, id), k) {
      if k < |pos| {
        assert ToolState(rows[pos[k]], t, k);
      }
    }
    forall i | t.base <= i < |more| && i !in pos' ensures IsPlain(more[i]) {
      assert |rows| == pos'[|pos|];
      assert forall k :: 0 <= k < |pos| ==> pos[k] == pos'[k];
      assert i != |rows| && i !in pos;
    }
  }

  /** What the fold keeps: the schedule, and that open text is a plain last row. */
  ghost predicate LiveInv(l: Live, t: Progress, pos: seq<nat>) {
    && Scheduled(l.rows, t, pos)
    && Sound(t)
    && (l.open ==> |l.rows| > t.base && |l.rows| - 1 !in pos)
  }

  lemma TextKeepsSchedule(l: Live, t: Progress, pos: seq<nat>, chunk: string)
    requires LiveInv(l, t, pos)
    ensures LiveInv(LiveStep(l, TextChunk(chunk)), t, pos)
  {
    var l' := LiveStep(l, TextChunk(chunk));
    forall k | 0 <= k < |pos| ensures ToolState(l'.rows[pos[k]], t, k) {
      assert ToolState(l.rows[pos[k]], t, k);
    }
  }

  lemma FinishedKeepsFront(rows: seq<Row>, id: string, output: string, n: nat)
    requires FindTool(rows, id, 0) == n
    ensures forall i :: 0 <= i < n ==> Finished(rows, id, output)[i] == rows[i]
  {}

  /** What one more event adds to the progress of a turn. */
  function After(t: Progress, e: Event): Progress {
    match e
    case ToolStarted(id, _) => Announce(t, id)
    case ToolLine(_, line) => Line(t, line)
    case ToolFinished(_, _) => Finish(t, e)
    case _ => t
  }

  lemma ProgressSnoc(base: nat, seen: seq<Event>, e: Event)
    ensures ProgressOf(base, seen + [e]) == After(ProgressOf(base, seen), e)
  {
    assert (seen + [e])[..|seen + [e]| - 1] == seen;
  }

  /** Output or the result of the tool being executed. */
  lemma CurrentToolStep(l: Live, t: Progress, pos: seq<nat>, e: Event)
    requires LiveInv(l, t, pos) && (e.ToolLine? || e.ToolFinished?)
    requires |t.results| < |t.ids| && t.ids[|t.results|] == e.id
    ensures LiveInv(LiveStep(l, e), After(t, e), pos)
    ensures forall i :: 0 <= i < t.base ==> LiveStep(l, e).rows[i] == l.rows[i]
  {
    FindsTool(l.rows, t, pos, |t.results|);
    if e.ToolLine? {
      LineKeepsSchedule(l.rows, t, pos, e.line);
    } else {
      FinishKeepsSchedule(l.rows, t, pos, e);
      FinishedKeepsFront(l.rows, e.id, e.output, pos[|t.results|]);
    }
  }

  lemma AnnounceStep(l: Live, t: Progress, pos: seq<nat>, e: Event)
    requires LiveInv(l, t, pos) && e.ToolStarted? && Distinct(t.ids + [e.id])
    requires forall i :: 0 <= i < t.base && l.rows[i].tool.Some? ==> l.rows[i].tool.value != e.id
    ensures LiveInv(LiveStep(l, e), After(t, e), pos + [|l.rows|])
    ensures forall i :: 0 <= i < t.base ==> LiveStep(l, e).rows[i] == l.rows[i]
  {
    AnnounceKeepsSchedule(l.rows, t, pos, e.id, e.tool);
  }

  lemma OtherStep(l: Live, t: Progress, pos: seq<nat>, e: Event)
    requires LiveInv(l, t, pos) && InTurn(e) && !Terminal(e)
    requires !e.ToolStarted? && !e.ToolLine? && !e.ToolFinished?
    ensures LiveInv(LiveStep(l, e), t, pos)
    ensures forall i :: 0 <= i < t.base ==> LiveStep(l, e).rows[i] == l.rows[i]
  {
    if e.TextChunk? {
      TextKeepsSchedule(l, t, pos, e.text);
    }
  }

  /** One event of an orderly turn. */
  lemma StepKeepsSchedule(l: Live, t: Progress, pos: seq<nat>, e: Event) returns (pos': seq<nat>)
    requires LiveInv(l, t, pos) && InTurn(e) && !Terminal(e) && Distinct(After(t, e).ids)
    requires e.ToolLine? || e.ToolFinished? ==> |t.results| < |t.ids| && t.ids[|t.results|] == e.id
    requires forall i :: 0 <= i < t.base && l.rows[i].tool.Some? ==> l.rows[i].tool.value !in After(t, e).ids
    ensures LiveInv(LiveStep(l, e), After(t, e), pos')
    ensures forall i :: 0 <= i < t.base ==> LiveStep(l, e).rows[i] == l.rows[i]
  {
    pos' := pos;
    if e.ToolStarted? {
      assert After(t, e).ids[|t.ids|] == e.id;
      AnnounceStep(l, t, pos, e);
      pos' := pos + [|l.rows|];
    } else if e.ToolLine? || e.ToolFinished? {
      CurrentToolStep(l, t, pos, e);
    } else {
      OtherStep(l, t, pos, e);
    }
  }

  lemma {:induction false} LiveFoldSnoc(l: Live, events: seq<Event>, n: nat)
    requires n < |events|
    ensures LiveFold(l, events[..n + 1]) == LiveStep(LiveFold(l, events[..n]), events[n])
  {
    assert events[..n + 1] == events[..n] + [events[n]];
    LiveFoldAppend(l, events[..n], [events[n]]);
    var m := LiveFold(l, events[..n]);
    assert LiveFold(m, [events[n]]) == LiveFold(LiveStep(m, events[n]), []);
  }

  /** The rows a turn starts from: nothing runs, and no row belongs to one of the turn's tools. */
  ghost predicate Quiet(rows: seq<Row>, ids: seq<string>) {
    forall i :: 0 <= i < |rows| ==> !rows[i].running && (rows[i].tool.Some? ==> rows[i].tool.value !in ids)
  }

  lemma {:induction false} StartedIdsPrefix(events: seq<Event>, n: nat)
    requires n <= |events|
    ensures StartedIds(events[..n]) <= StartedIds(events)
    ensures Distinct(StartedIds(events)) ==> Distinct(StartedIds(events[..n]))
  {
    assert events == events[..n] + events[n..];
    StartedIdsAppend(events[..n], events[n..]);
    var ids := StartedIds(events[..n]);
    if Distinct(StartedIds(events)) {
      forall i, j | 0 <= i < j < |ids| ensures ids[i] != ids[j] {
        assert ids[i] == StartedIds(events)[i] && ids[j] == StartedIds(events)[j];
      }
    }
  }

  /** Every prefix of an orderly turn leaves the rows scheduled, and the rows before it alone. */
  lemma {:induction false} FoldIsScheduled(base: seq<Row>, events: seq<Event>, n: nat) returns (pos: seq<nat>)
    requires Orderly(events) && Distinct(StartedIds(events)) && Quiet(base, StartedIds(events))
    requires n <= |events| && forall k :: 0 <= k < n ==> !Terminal(events[k])
    ensures LiveInv(LiveFold(Live(base, false), events[..n]), ProgressOf(|base|, events[..n]), pos)
    ensures LiveFold(Live(base, false), events[..n]).rows[..|base|] == base
    decreases n
  {
    if n == 0 {
      pos := [];
    } else {
      var before := FoldIsScheduled(base, events, n - 1);
      var l := LiveFold(Live(base, false), events[..n - 1]);
      LiveFoldSnoc(Live(base, false), events, n - 1);
      assert OrderlyAt(events, n - 1);
      assert events[..n] == events[..n - 1] + [events[n - 1]];
      ProgressSnoc(|base|, events[..n - 1], events[n - 1]);
      StartedIdsPrefix(events, n);
      forall i | 0 <= i < |base| ensures l.rows[i] == base[i] {
        assert l.rows[..|base|][i] == base[i];
      }
      pos := StepKeepsSchedule(l, ProgressOf(|base|, events[..n - 1]), before, events[n - 1]);
    }
  }

  // ── The main result about running tools ─────────────────────────────────────

  /** The tools shown as running, top to bottom. */
  function RunningTools(rows: seq<Row>): seq<Option<string>> {
    if rows == [] then []
    else RunningTools(rows[..|rows| - 1]) + (if rows[|rows| - 1].running then [rows[|rows| - 1].tool] else [])
  }

  lemma {:induction false} NoneRunning(rows: seq<Row>)
    requires forall i :: 0 <= i < |rows| ==> !rows[i].running
    ensures RunningTools(rows) == []
  {
    if rows != [] {
      NoneRunning(rows[..|rows| - 1]);
    }
  }

  lemma {:induction false} OneRunning(rows: seq<Row>, at: nat)
    requires at < |rows| && rows[at].running
    requires forall i :: 0 <= i < |rows| && i != at ==> !rows[i].running
    ensures RunningTools(rows) == [rows[at].tool]
  {
    var front := rows[..|rows| - 1];
    if at == |rows| - 1 {
      NoneRunning(front);
    } else {
      OneRunning(front, at);
    }
  }

  /** The earliest tool announced that has no result yet, as long as the turn has not ended. */
  function CurrentTools(events: seq<Event>): seq<Option<string>> {
    if events != [] && Terminal(events[|events| - 1]) then []
    else if |Results(events)| < |StartedIds(events)| then [Some(StartedIds(events)[|Results(events)|])]
    else []
  }

  /** Exactly the tool the server is executing runs on the client. */
  ghost predicate Follows(rows: seq<Row>, seen: seq<Event>) {
    RunningTools(rows) == CurrentTools(seen)
  }

  lemma OnlyLastEnds(events: seq<Event>, k: nat)
    requires Orderly(events) && k < |events| - 1
    ensures !Terminal(events[k])
  {
    assert OrderlyAt(events, k);
  }

  lemma EndStops(l: Live, e: Event)
    requires Terminal(e)
    ensures RunningTools(LiveStep(l, e).rows) == []
  {
    NoneRunning(LiveStep(l, e).rows);
  }

  lemma ScheduleShows(rows: seq<Row>, t: Progress, pos: seq<nat>)
    requires Scheduled(rows, t, pos) && |t.results| <= |t.ids|
    ensures RunningTools(rows) == if |t.results| < |t.ids| then [Some(t.ids[|t.results|])] else []
  {
    RunningIsCurrent(rows, t, pos);
    if |t.results| < |t.ids| {
      assert ToolState(rows[pos[|t.results|]], t, |t.results|);
      OneRunning(rows, pos[|t.results|]);
    } else {
      NoneRunning(rows);
    }
  }

  /**
    At every point of every orderly turn the client shows exactly one tool as running, the
    earliest announced without a result; none when all have one; and none after the end.
   */
  lemma RunningFollowsServer(base: seq<Row>, events: seq<Event>, n: nat)
    requires Orderly(events) && Distinct(StartedIds(events)) && Quiet(base, StartedIds(events))
    requires n <= |events|
    ensures Follows(LiveFold(Live(base, false), events[..n]).rows, events[..n])
  {
    if n > 0 && Terminal(events[n - 1]) {
      FollowsAtTheEnd(base, events, n);
    } else {
      FollowsBefore(base, events, n);
    }
  }

  lemma FollowsAtTheEnd(base: seq<Row>, events: seq<Event>, n: nat)
    requires 0 < n <= |events| && Terminal(events[n - 1])
    ensures Follows(LiveFold(Live(base, false), events[..n]).rows, events[..n])
  {
    LiveFoldSnoc(Live(base, false), events, n - 1);
    EndFollows(LiveFold(Live(base, false), events[..n - 1]), events, n);
  }

  lemma FollowsBefore(base: seq<Row>, events: seq<Event>, n: nat)
    requires Orderly(events) && Distinct(StartedIds(events)) && Quiet(base, StartedIds(events))
    requires n <= |events| && (n > 0 ==> !Terminal(events[n - 1]))
    ensures Follows(LiveFold(Live(base, false), events[..n]).rows, events[..n])
  {
    NotEnded(events, n);
    var pos := FoldIsScheduled(base, events, n);
    ScheduleFollows(LiveFold(Live(base, false), events[..n]).rows, |base|, events[..n], pos);
  }

  lemma EndFollows(l: Live, events: seq<Event>, n: nat)
    requires 0 < n <= |events| && Terminal(events[n - 1])
    ensures Follows(LiveStep(l, events[n - 1]).rows, events[..n])
  {
    assert events[..n][n - 1] == events[n - 1];
    EndStops(l, events[n - 1]);
  }

  lemma NotEnded(events: seq<Event>, n: nat)
    requires Orderly(events) && n <= |events| && (n > 0 ==> !Terminal(events[n - 1]))
    ensures forall k :: 0 <= k < n ==> !Terminal(events[k])
  {
    forall k | 0 <= k < n ensures !Terminal(events[k]) {
      if k < |events| - 1 {
        OnlyLastEnds(events, k);
      }
    }
  }

  lemma ScheduleFollows(rows: seq<Row>, base: nat, seen: seq<Event>, pos: seq<nat>)
    requires Scheduled(rows, ProgressOf(base, seen), pos) && Sound(ProgressOf(base, seen))
    requires seen != [] ==> !Terminal(seen[|seen| - 1])
    ensures Follows(rows, seen)
  {
    ScheduleShows(rows, ProgressOf(base, seen), pos);
  }
}
