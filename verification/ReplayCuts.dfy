/**
  Which cuts a replay can start from without repeating rows: the exact condition under which
  the rows a resumed client rebuilds are those of a client that stayed (mobile/App.tsx).
 */
module ReplayCuts {
  import opened Prelude
  import opened Conversation
  import opened ChatPanes
  import opened LiveRows
  import opened ToolSchedule
  import opened TaskRows
  import opened Cuts
  import opened Replays

  /** The rows a resumed replay starts from, after a client has seen `j` events from `start` on. */
  function Renewed(start: seq<TaskRow>, events: seq<Event>, j: nat): seq<TaskRow>
    requires j <= |events|
  {
    Cut(Stopped(Seen(start, events, j).rows))
  }

  // ── Cuts that lose and repeat nothing ───────────────────────────────────────

  /** All of `base`, and after it only the rows of completed tasks. */
  ghost predicate OnlyTasks(base: seq<TaskRow>, rows: seq<TaskRow>) {
    |base| <= |rows| && forall i :: |base| <= i < |rows| ==> rows[i].task.Some?
  }

  /**
    The cut a client makes after `j` events leaves the rows before the turn, and of the turn only
    completed tasks' rows.
   */
  ghost predicate Clean(base: seq<TaskRow>, events: seq<Event>, j: nat)
    requires j <= |events|
  {
    OnlyTasks(base, Renewed(base, events, j))
  }

  /** The turn itself looked like `cut` after `q` events. */
  ghost predicate Reached(base: seq<TaskRow>, events: seq<Event>, cut: seq<TaskRow>, q: nat) {
    q <= |events| && OnlyTasks(base, cut) && Seen(base, events, q) == TaskLive(cut, None)
  }

  /** A cut that the turn went through in its first `n` events. */
  ghost predicate Good(base: seq<TaskRow>, events: seq<Event>, cut: seq<TaskRow>, n: nat) {
    Firm(cut) && exists q: nat :: q <= n && Reached(base, events, cut, q)
  }

  lemma WhereReached(base: seq<TaskRow>, events: seq<Event>, cut: seq<TaskRow>, n: nat) returns (q: nat)
    requires Good(base, events, cut, n)
    ensures q <= n && Reached(base, events, cut, q)
  {
    q :| q <= n && Reached(base, events, cut, q);
  }

  lemma BaseIsReached(base: seq<TaskRow>, events: seq<Event>)
    ensures Reached(base, events, base, 0)
  {
    assert events[..0] == [];
  }

  /** Rows of which only completed tasks were added are left alone by everything that stops rows. */
  lemma OnlyTasksStopped(base: seq<TaskRow>, l: TaskLive, ids: seq<string>)
    requires Extends(l, base, ids) && Quiet(Faces(base), ids) && OnlyTasks(base, l.rows)
    ensures Stopped(l.rows) == l.rows && l.open.None?
    ensures forall i :: |base| <= i < |l.rows| ==> l.rows[i].row.role == BgCompleteRow && l.rows[i].row.tool.None?
  {
    forall i | 0 <= i < |l.rows| ensures Stopped(l.rows)[i] == l.rows[i] {
      SettledFace(l, base, ids, i);
    }
  }

  lemma TurnStopped(base: seq<TaskRow>, events: seq<Event>, j: nat)
    requires TurnSoFar(base, events) && j <= |events| && OnlyTasks(base, Seen(base, events, j).rows)
    ensures var l := Seen(base, events, j);
            && Stopped(l.rows) == l.rows && l.open.None?
            && forall i :: |base| <= i < |l.rows| ==> l.rows[i].row.role == BgCompleteRow && l.rows[i].row.tool.None?
  {
    TurnExtends(base, events, j);
    QuietPrefix(Faces(base), events, j);
    OnlyTasksStopped(base, Seen(base, events, j), StartedIds(events[..j]));
  }

  /** Rows with the same tasks, and as many, are alike in this. */
  lemma OnlyTasksAlike(base: seq<TaskRow>, a: seq<TaskRow>, b: seq<TaskRow>)
    requires Grows(a, b) && |a| == |b|
    ensures OnlyTasks(base, a) <==> OnlyTasks(base, b)
  {
    forall i | 0 <= i < |a| ensures a[i].task == b[i].task {}
  }

  lemma OnlyTasksEarlier(base: seq<TaskRow>, events: seq<Event>, m: nat, n: nat)
    requires TurnSoFar(base, events) && m <= n <= |events| && OnlyTasks(base, Seen(base, events, n).rows)
    ensures OnlyTasks(base, Seen(base, events, m).rows)
  {
    Growing(base, events, m, n);
    TurnExtends(base, events, m);
  }

  // ── What a clean cut means ──────────────────────────────────────────────────

  /** The event brings a user, background or peer row. */
  ghost predicate BringsAnchor(base: seq<TaskRow>, events: seq<Event>, a: nat)
    requires a < |events|
  {
    var rows, after := Seen(base, events, a).rows, Seen(base, events, a + 1).rows;
    |after| > |rows| && IsAnchor(after[|rows|].row.role)
  }

  /** At every such event so far, all the rows the turn had made were those of completed tasks. */
  ghost predicate CleanSoFar(base: seq<TaskRow>, events: seq<Event>, j: nat)
    requires j <= |events|
  {
    forall a: nat :: a < j && BringsAnchor(base, events, a) ==> OnlyTasks(base, Seen(base, events, a + 1).rows)
  }

  ghost predicate HasTurnAnchor(base: seq<TaskRow>, rows: seq<TaskRow>) {
    exists i :: |base| <= i < |rows| && IsAnchor(rows[i].row.role)
  }

  /** The turn has brought such a row. */
  ghost predicate SawAnchor(base: seq<TaskRow>, events: seq<Event>, j: nat)
    requires j <= |events|
  {
    HasTurnAnchor(base, Seen(base, events, j).rows)
  }

  /** A cut now keeps all rows from before the turn, and none of the turn's is plain for want of an anchor. */
  ghost predicate HoldsBase(base: seq<TaskRow>, events: seq<Event>, j: nat)
    requires j <= |events|
  {
    SawAnchor(base, events, j) || EndsWithAnchor(base) || (NoAnchors(base) && |Seen(base, events, j).rows| == |base|)
  }

  lemma RowsBetween(base: seq<TaskRow>, rows: seq<TaskRow>, after: seq<TaskRow>)
    requires |base| <= |rows| && Grows(rows, after) && |after| <= |rows| + 1
    ensures HasTurnAnchor(base, after) <==>
              HasTurnAnchor(base, rows) || (|after| > |rows| && IsAnchor(after[|rows|].row.role))
  {
    if HasTurnAnchor(base, rows) {
      var i :| |base| <= i < |rows| && IsAnchor(rows[i].row.role);
      assert IsAnchor(after[i].row.role);
    }
    if HasTurnAnchor(base, after) {
      var i :| |base| <= i < |after| && IsAnchor(after[i].row.role);
      assert i < |rows| ==> IsAnchor(rows[i].row.role);
    }
  }

  lemma SawNext(base: seq<TaskRow>, events: seq<Event>, j: nat)
    requires j < |events|
    ensures Grows(Seen(base, events, j).rows, Seen(base, events, j + 1).rows)
    ensures |Seen(base, events, j + 1).rows| <= |Seen(base, events, j).rows| + 1
    ensures |base| <= |Seen(base, events, j).rows| && Grows(base, Seen(base, events, j).rows)
    ensures SawAnchor(base, events, j + 1) <==> SawAnchor(base, events, j) || BringsAnchor(base, events, j)
  {
    SeenNext(base, events, j);
    StepGrows(Seen(base, events, j), events[j]);
    Growing(base, events, 0, j);
    BaseIsReached(base, events);
    RowsBetween(base, Seen(base, events, j).rows, Seen(base, events, j + 1).rows);
  }

  lemma CleanSoFarNext(base: seq<TaskRow>, events: seq<Event>, j: nat)
    requires TurnSoFar(base, events) && j < |events|
    ensures CleanSoFar(base, events, j + 1) <==>
              if BringsAnchor(base, events, j) then OnlyTasks(base, Seen(base, events, j + 1).rows)
              else CleanSoFar(base, events, j)
  {
    if BringsAnchor(base, events, j) && OnlyTasks(base, Seen(base, events, j + 1).rows) {
      forall a: nat | a <= j && BringsAnchor(base, events, a) ensures OnlyTasks(base, Seen(base, events, a + 1).rows) {
        OnlyTasksEarlier(base, events, a + 1, j + 1);
      }
    }
  }

  /** With rows that are all left, a cut is clean when the turn has made only completed tasks' rows. */
  lemma WholeIsClean(base: seq<TaskRow>, rows: seq<TaskRow>)
    requires Cut(rows) == rows
    ensures OnlyTasks(base, Cut(Stopped(rows))) <==> OnlyTasks(base, rows)
  {
    StoppedGrows(rows);
    SameRolesSameCut(rows, Stopped(rows));
    OnlyTasksAlike(base, rows, Stopped(rows));
  }

  /** Without any anchor row, that means none at all. */
  lemma NoAnchorsIsClean(base: seq<TaskRow>, events: seq<Event>, j: nat)
    requires TurnSoFar(base, events) && j <= |events| && NoAnchors(Seen(base, events, j).rows)
    ensures Clean(base, events, j) <==> |Seen(base, events, j).rows| == |base|
  {
    var rows := Seen(base, events, j).rows;
    TurnExtends(base, events, j);
    CutsNothing(rows);
    WholeIsClean(base, rows);
    if OnlyTasks(base, rows) {
      TurnStopped(base, events, j);
    }
  }

  lemma SameCutIsClean(base: seq<TaskRow>, rows: seq<TaskRow>, after: seq<TaskRow>)
    requires Grows(rows, after) && |Cut(rows)| == |Cut(after)|
    ensures OnlyTasks(base, Cut(Stopped(rows))) <==> OnlyTasks(base, Cut(Stopped(after)))
  {
    StoppedGrows(rows);
    StoppedGrows(after);
    SameRolesSameCut(rows, Stopped(rows));
    SameRolesSameCut(after, Stopped(after));
    OnlyTasksAlike(base, Cut(Stopped(rows)), Cut(Stopped(after)));
  }

  lemma CleanNext(base: seq<TaskRow>, events: seq<Event>, j: nat)
    requires TurnSoFar(base, events) && j < |events|
    ensures if BringsAnchor(base, events, j)
            then Clean(base, events, j + 1) <==> OnlyTasks(base, Seen(base, events, j + 1).rows)
            else !NoAnchors(Seen(base, events, j).rows) ==> (Clean(base, events, j + 1) <==> Clean(base, events, j))
    ensures !BringsAnchor(base, events, j) && NoAnchors(Seen(base, events, j).rows) ==>
              NoAnchors(Seen(base, events, j + 1).rows)
  {
    var rows, after := Seen(base, events, j).rows, Seen(base, events, j + 1).rows;
    SawNext(base, events, j);
    CutNext(rows, after);
    if BringsAnchor(base, events, j) {
      WholeIsClean(base, after);
    } else if !NoAnchors(rows) {
      SameCutIsClean(base, rows, after);
    }
  }

  /** An anchor row is the turn's, or it was there before. */
  lemma AnchorsOf(base: seq<TaskRow>, events: seq<Event>, j: nat)
    requires j <= |events|
    ensures NoAnchors(Seen(base, events, j).rows) <==> NoAnchors(base) && !SawAnchor(base, events, j)
    ensures Grows(base, Seen(base, events, j).rows)
  {
    Growing(base, events, 0, j);
    BaseIsReached(base, events);
    var rows := Seen(base, events, j).rows;
    if !NoAnchors(base) {
      var i :| 0 <= i < |base| && IsAnchor(base[i].row.role);
      assert IsAnchor(rows[i].row.role);
    }
  }

  lemma BaseIsClean(base: seq<TaskRow>, events: seq<Event>)
    requires TurnSoFar(base, events)
    ensures Renewed(base, events, 0) == Cut(base) && (Clean(base, events, 0) <==> Firm(base))
    ensures Clean(base, events, 0) <==> HoldsBase(base, events, 0)
  {
    BaseIsReached(base, events);
    TurnStopped(base, events, 0);
    FirmIs(base);
  }

  /**
    When a cut is clean, in terms of the events seen: at every background or peer row of the turn,
    all the rows the turn had made were those of completed tasks; and there was such a row, or
    the rows before the turn end with a user, background or peer row, or they hold none and the
    turn has shown nothing.
   */
  lemma {:induction false} CleanMeans(base: seq<TaskRow>, events: seq<Event>, j: nat)
    requires TurnSoFar(base, events) && j <= |events|
    ensures Clean(base, events, j) <==> CleanSoFar(base, events, j) && HoldsBase(base, events, j)
    decreases j
  {
    if j == 0 {
      BaseIsClean(base, events);
    } else {
      CleanMeans(base, events, j - 1);
      CleanNext(base, events, j - 1);
      CleanSoFarNext(base, events, j - 1);
      SawNext(base, events, j - 1);
      AnchorsOf(base, events, j - 1);
      AnchorsOf(base, events, j);
      if NoAnchors(Seen(base, events, j).rows) {
        NoAnchorsIsClean(base, events, j);
        NothingBrought(base, events, j);
      }
    }
  }

  lemma NothingBrought(base: seq<TaskRow>, events: seq<Event>, j: nat)
    requires j <= |events| && NoAnchors(Seen(base, events, j).rows)
    ensures forall a: nat :: a < j ==> !BringsAnchor(base, events, a)
    ensures !EndsWithAnchor(base)
  {
    AnchorsOf(base, events, j);
    forall a: nat | a < j ensures !BringsAnchor(base, events, a) {
      Growing(base, events, a + 1, j);
    }
  }

  // ── A clean cut is a state the turn went through ────────────────────────────

  lemma WholeIsReached(base: seq<TaskRow>, events: seq<Event>, j: nat)
    requires TurnSoFar(base, events) && j <= |events| && Clean(base, events, j)
    requires Firm(Seen(base, events, j).rows)
    ensures Reached(base, events, Renewed(base, events, j), j)
  {
    WholeIsClean(base, Seen(base, events, j).rows);
    TurnStopped(base, events, j);
  }

  /** With a clean cut, an event that brings no anchor left the cut as it was. */
  lemma CleanBefore(base: seq<TaskRow>, rows: seq<TaskRow>, after: seq<TaskRow>)
    requires Grows(rows, after) && |Cut(rows)| == |Cut(after)|
    requires KeepsSettled(base, rows, after) && OnlyTasks(base, Cut(Stopped(after)))
    ensures Cut(Stopped(rows)) == Cut(Stopped(after))
  {
    StoppedGrows(rows);
    StoppedGrows(after);
    SameRolesSameCut(rows, Stopped(rows));
    SameRolesSameCut(after, Stopped(after));
    forall i | 0 <= i < |Cut(rows)| ensures Stopped(rows)[i] == Stopped(after)[i] {
      assert Cut(Stopped(after))[i] == Stopped(after)[i];
      assert Settled(base, rows, i);
    }
  }

  lemma CleanStays(base: seq<TaskRow>, events: seq<Event>, j: nat)
    requires TurnSoFar(base, events) && j < |events| && Clean(base, events, j + 1)
    requires !Firm(Seen(base, events, j + 1).rows)
    ensures Renewed(base, events, j) == Renewed(base, events, j + 1)
  {
    var rows, after := Seen(base, events, j).rows, Seen(base, events, j + 1).rows;
    SawNext(base, events, j);
    CutNext(rows, after);
    TurnExtends(base, events, j + 1);
    CleanBefore(base, rows, after);
  }

  lemma {:induction false} CleanIsReached(base: seq<TaskRow>, events: seq<Event>, j: nat) returns (q: nat)
    requires TurnSoFar(base, events) && j <= |events| && Clean(base, events, j)
    ensures q <= j && Reached(base, events, Renewed(base, events, j), q)
    decreases j
  {
    if Firm(Seen(base, events, j).rows) {
      q := j;
      WholeIsReached(base, events, j);
    } else if j == 0 {
      BaseIsClean(base, events);
      BaseIsReached(base, events);
      assert false;
    } else {
      CleanStays(base, events, j - 1);
      q := CleanIsReached(base, events, j - 1);
    }
  }

  // ── What a replay makes of such a cut ───────────────────────────────────────

  lemma OnlyTasksBefore(base: seq<TaskRow>, events: seq<Event>, cut: seq<TaskRow>, q: nat, m: nat)
    requires TurnSoFar(base, events) && Reached(base, events, cut, q) && m <= q
    ensures OnlyTasks(base, Seen(base, events, m).rows) && Seen(base, events, m).open.None?
    ensures Grows(Seen(base, events, m).rows, cut)
  {
    Growing(base, events, m, q);
    TurnExtends(base, events, m);
  }

  /** An event that only adds a completed task's row does nothing when that row is there. */
  lemma RepeatedEvent(base: seq<TaskRow>, events: seq<Event>, cut: seq<TaskRow>, q: nat, m: nat)
    requires TurnSoFar(base, events) && Reached(base, events, cut, q) && m < q
    ensures TaskStep(TaskLive(cut, None), events[m]) == TaskLive(cut, None)
  {
    var l, e := Seen(base, events, m), events[m];
    OnlyTasksBefore(base, events, cut, q, m);
    OnlyTasksBefore(base, events, cut, q, m + 1);
    SeenNext(base, events, m);
    TurnExtends(base, events, m);
    TurnStopped(base, events, m);
    TurnStopped(base, events, q);
    assert e in events;
    if e.ToolLine? || e.ToolFinished? {
      NoToolYet(base, l, StartedIds(events[..m]), e.id);
    } else if e.BgCompleted? {
      StaysTask(l, e, cut);
    } else {
      AddsNoRow(base, l, e);
    }
  }

  lemma NoToolYet(base: seq<TaskRow>, l: TaskLive, ids: seq<string>, id: string)
    requires Extends(l, base, ids)
    requires forall i :: |base| <= i < |l.rows| ==> l.rows[i].row.tool.None?
    ensures id !in ids
  {}

  lemma StaysTask(l: TaskLive, e: Event, cut: seq<TaskRow>)
    requires e.BgCompleted? && Grows(TaskStep(l, e).rows, cut)
    ensures HasTask(cut, e.taskId)
  {
    var after := TaskStep(l, e).rows;
    assert HasTask(after, e.taskId) by {
      if !HasTask(l.rows, e.taskId) {
        assert after[|l.rows|].task == Some(e.taskId);
      }
    }
    var i :| 0 <= i < |after| && after[i].task == Some(e.taskId);
    assert cut[i].task == Some(e.taskId);
  }

  lemma AddsNoRow(base: seq<TaskRow>, l: TaskLive, e: Event)
    requires OnlyTasks(base, l.rows) && OnlyTasks(base, TaskStep(l, e).rows) && l.open.None? && !e.BgCompleted?
    ensures !e.TextChunk? && !e.ToolStarted? && !e.TurnInterrupted? && !e.TurnFailed?
    ensures !e.BgProgressed? && !e.PeerMessaged?
  {
    var after := TaskStep(l, e).rows;
    if |after| > |l.rows| {
      assert after[|l.rows|].task.Some?;
    }
  }

  /** Replaying `m` events onto a cut reached after `q`: nothing, until it is past the cut. */
  ghost predicate ReplaysTo(base: seq<TaskRow>, events: seq<Event>, cut: seq<TaskRow>, q: nat, m: nat)
    requires m <= |events|
  {
    Seen(cut, events, m) == if m <= q then TaskLive(cut, None) else Seen(base, events, m)
  }

  lemma ReplayNext(base: seq<TaskRow>, events: seq<Event>, cut: seq<TaskRow>, q: nat, m: nat)
    requires TurnSoFar(base, events) && Reached(base, events, cut, q) && m < |events|
    requires ReplaysTo(base, events, cut, q, m)
    ensures ReplaysTo(base, events, cut, q, m + 1)
  {
    SeenNext(cut, events, m);
    if m < q {
      RepeatedEvent(base, events, cut, q, m);
    } else {
      SeenNext(base, events, m);
    }
  }

  lemma {:induction false} ReplayOfReached(base: seq<TaskRow>, events: seq<Event>, cut: seq<TaskRow>, q: nat, m: nat)
    requires TurnSoFar(base, events) && Reached(base, events, cut, q) && m <= |events|
    ensures ReplaysTo(base, events, cut, q, m)
    decreases m
  {
    if m > 0 {
      ReplayOfReached(base, events, cut, q, m - 1);
      ReplayNext(base, events, cut, q, m - 1);
    } else {
      ReplayOfNothing(base, events, cut, q);
    }
  }

  lemma ReplayOfNothing(base: seq<TaskRow>, events: seq<Event>, cut: seq<TaskRow>, q: nat)
    ensures ReplaysTo(base, events, cut, q, 0)
  {
    assert events[..0] == [];
  }

  /** From a good cut a whole replay shows what the turn shows. */
  lemma GoodReplays(base: seq<TaskRow>, events: seq<Event>, cut: seq<TaskRow>)
    requires TurnSoFar(base, events) && Good(base, events, cut, |events|)
    ensures Seen(cut, events, |events|) == Seen(base, events, |events|)
  {
    var q := WhereReached(base, events, cut, |events|);
    ReplayOfReached(base, events, cut, q, |events|);
  }

  // ── Cuts that repeat rows ───────────────────────────────────────────────────

  /** All of `base` is in the cut, and a plain row of the turn: a replay adds that again. */
  ghost predicate Bad(base: seq<TaskRow>, events: seq<Event>, cut: seq<TaskRow>) {
    && Firm(cut) && DistinctTasks(cut)
    && PlainRows(cut) > PlainRows(base)
    && Tasks(base) <= Tasks(cut) <= Tasks(base) + Completed(events)
  }

  lemma CompletedPrefix(events: seq<Event>, n: nat)
    requires n <= |events|
    ensures Completed(events[..n]) <= Completed(events)
  {
    assert forall e :: e in events[..n] ==> e in events;
  }

  /** What the cuts have in common that keep their start. */
  lemma CutTasks(start: seq<TaskRow>, events: seq<Event>, j: nat)
    requires DistinctTasks(start) && j <= |events| && Grows(start, Renewed(start, events, j))
    ensures var cut := Renewed(start, events, j);
            Firm(cut) && DistinctTasks(cut) && Tasks(start) <= Tasks(cut) <= Tasks(start) + Completed(events)
  {
    var rows, cut := Seen(start, events, j).rows, Renewed(start, events, j);
    CutIsFirm(Stopped(rows));
    FoldTasks(start, events, j);
    StoppedGrows(rows);
    SameTasks(rows, Stopped(rows));
    SameTasks(cut, Stopped(rows));
    SameTasks(start, cut);
    CompletedPrefix(events, j);
  }

  /** A cut that starts from rows no cut takes away keeps them. */
  lemma RenewedGrows(start: seq<TaskRow>, events: seq<Event>, j: nat)
    requires Firm(start) && j <= |events|
    ensures Grows(start, Renewed(start, events, j))
  {
    Growing(start, events, 0, j);
    BaseIsReached(start, events);
    StoppedGrows(Seen(start, events, j).rows);
    CutGrows(start, Stopped(Seen(start, events, j).rows));
  }

  lemma UncleanIsBad(base: seq<TaskRow>, events: seq<Event>, j: nat)
    requires TurnSoFar(base, events) && j <= |events| && !Clean(base, events, j)
    requires Grows(base, Renewed(base, events, j))
    ensures Bad(base, events, Renewed(base, events, j))
  {
    CutTasks(base, events, j);
    PlainRowsGrow(base, Renewed(base, events, j));
  }

  lemma BadStays(base: seq<TaskRow>, events: seq<Event>, cut: seq<TaskRow>, j: nat)
    requires Bad(base, events, cut) && j <= |events|
    ensures Bad(base, events, Renewed(cut, events, j))
  {
    RenewedGrows(cut, events, j);
    CutTasks(cut, events, j);
    PlainRowsGrow(cut, Renewed(cut, events, j));
  }

  /** From a bad cut a whole replay shows more rows than the turn has. */
  lemma BadRepeats(base: seq<TaskRow>, events: seq<Event>, cut: seq<TaskRow>)
    requires TurnSoFar(base, events) && Bad(base, events, cut)
    ensures |Seen(cut, events, |events|).rows| > |Seen(base, events, |events|).rows|
  {
    var n := |events|;
    assert events[..n] == events;
    FoldsAddAlike(cut, base, events, n);
    FoldTasks(cut, events, n);
    FoldTasks(base, events, n);
    CountRows(Seen(cut, events, n).rows);
    CountRows(Seen(base, events, n).rows);
    assert Tasks(cut) + Completed(events) == Tasks(base) + Completed(events);
  }

  // ── Any number of cuts ──────────────────────────────────────────────────────

  lemma SeenBeforeCut(base: seq<TaskRow>, events: seq<Event>, cut: seq<TaskRow>, q: nat, j: nat)
    requires TurnSoFar(base, events) && Reached(base, events, cut, q) && Firm(cut) && j <= q
    ensures Renewed(cut, events, j) == cut
  {
    ReplayOfReached(base, events, cut, q, j);
    TurnStopped(base, events, q);
  }

  /** Once a cut is good, what was clean later was clean before. */
  lemma CleanEarlier(base: seq<TaskRow>, events: seq<Event>, cut: seq<TaskRow>, q: nat, j: nat, n: nat)
    requires TurnSoFar(base, events) && Reached(base, events, cut, q) && Firm(cut)
    requires q <= j <= n <= |events| && Clean(base, events, n)
    ensures Clean(base, events, j)
  {
    CleanMeans(base, events, n);
    CleanMeans(base, events, j);
    AnchorsOf(base, events, j);
    if !SawAnchor(base, events, j) && !EndsWithAnchor(base) {
      FirmBase(base, events, cut, q, j);
      Growing(base, events, j, n);
      if SawAnchor(base, events, n) {
        FirstAnchorIsClean(base, events, j, n);
      }
    }
  }

  /** A good cut before any anchor row of the turn is `base` itself, which then holds none. */
  lemma FirmBase(base: seq<TaskRow>, events: seq<Event>, cut: seq<TaskRow>, q: nat, j: nat)
    requires TurnSoFar(base, events) && Reached(base, events, cut, q) && Firm(cut) && q <= j <= |events|
    requires !SawAnchor(base, events, j) && !EndsWithAnchor(base)
    ensures NoAnchors(base)
  {
    TurnStopped(base, events, q);
    TurnExtends(base, events, q);
    Growing(base, events, q, j);
    assert |cut| == |base| && cut == base;
    FirmIs(base);
  }

  /** Nothing plain was shown before the first anchor row, if all cuts are clean. */
  lemma FirstAnchorIsClean(base: seq<TaskRow>, events: seq<Event>, j: nat, n: nat)
    requires TurnSoFar(base, events) && j <= n <= |events| && CleanSoFar(base, events, n)
    requires !SawAnchor(base, events, j) && SawAnchor(base, events, n)
    ensures |Seen(base, events, j).rows| == |base|
    decreases n
  {
    SawNext(base, events, n - 1);
    if SawAnchor(base, events, n - 1) {
      FirstAnchorIsClean(base, events, j, n - 1);
    } else {
      OnlyTasksEarlier(base, events, j, n);
      TurnStopped(base, events, j);
      TurnExtends(base, events, j);
      var rows := Seen(base, events, j).rows;
      assert |rows| > |base| ==> IsAnchor(rows[|base|].row.role);
    }
  }

  /** One more cut, after `j` events seen from a good one on: the farthest event seen decides. */
  lemma GoodThen(base: seq<TaskRow>, events: seq<Event>, cut: seq<TaskRow>, n: nat, j: nat)
    requires TurnSoFar(base, events) && Good(base, events, cut, n) && n <= |events| && j <= |events|
    requires Clean(base, events, n)
    ensures var far := if j > n then j else n;
            if Clean(base, events, far) then Good(base, events, Renewed(cut, events, j), far)
            else Bad(base, events, Renewed(cut, events, j))
  {
    var q := WhereReached(base, events, cut, n);
    if j <= q {
      SeenBeforeCut(base, events, cut, q, j);
    } else {
      ReplayOfReached(base, events, cut, q, j);
      RenewedGrows(cut, events, j);
      if j <= n {
        CleanEarlier(base, events, cut, q, j, n);
      }
      if Clean(base, events, j) {
        var p := CleanIsReached(base, events, j);
        CutIsFirm(Stopped(Seen(base, events, j).rows));
      } else {
        TurnExtends(base, events, q);
        assert Grows(base, cut);
        UncleanIsBad(base, events, j);
      }
    }
  }

  /** What has gone wrong once stays wrong: beyond a good cut no farther event makes an unclean one clean. */
  lemma UncleanStays(base: seq<TaskRow>, events: seq<Event>, cut: seq<TaskRow>, n: nat, j: nat, far: nat)
    requires TurnSoFar(base, events) && Good(base, events, cut, n) && n <= j <= far <= |events|
    requires !Clean(base, events, j)
    ensures !Clean(base, events, far)
  {
    var q := WhereReached(base, events, cut, n);
    if Clean(base, events, far) {
      CleanEarlier(base, events, cut, q, j, far);
    }
  }
}
