/**
  Rows a resumed client loses: those after the last user, background or peer row, when the
  turn they belong to is not the one that is replayed (mobile/App.tsx).
 */
module LostRows {
  import opened Prelude
  import opened Conversation
  import opened ChatPanes
  import opened LiveRows
  import opened ToolSchedule
  import opened TaskRows
  import opened Cuts
  import opened Replays
  import opened ReplayCuts

  // ── What the first cut takes away ───────────────────────────────────────────

  /** The first cut leaves all rows from before the turn: it takes none, or the turn has brought an anchor. */
  ghost predicate KeepsBase(base: seq<TaskRow>, events: seq<Event>, k: nat)
    requires k <= |events|
  {
    Firm(base) || SawAnchor(base, events, k)
  }

  lemma KeptBaseGrows(base: seq<TaskRow>, events: seq<Event>, k: nat)
    requires k <= |events| && KeepsBase(base, events, k)
    ensures Grows(base, Renewed(base, events, k))
  {
    var rows := Seen(base, events, k).rows;
    if Firm(base) {
      RenewedGrows(base, events, k);
    } else {
      AnchorsOf(base, events, k);
      StoppedGrows(rows);
      var some :| |base| <= some < |rows| && IsAnchor(rows[some].row.role);
      var at := HasLastAnchor(Stopped(rows), some);
      CutsAt(Stopped(rows), at);
    }
  }

  /** The rows after the last anchor are no anchors; a cut takes them all. */
  lemma FrontOf(base: seq<TaskRow>)
    requires !Firm(base)
    ensures |Cut(base)| < |base| && EndsWithAnchor(Cut(base))
    ensures forall i :: |Cut(base)| <= i < |base| ==> !IsAnchor(base[i].row.role)
  {
    FirmIs(base);
    var some :| 0 <= some < |base| && IsAnchor(base[some].row.role);
    var at := HasLastAnchor(base, some);
    CutsAt(base, at);
  }

  lemma BaseUntouched(base: seq<TaskRow>, events: seq<Event>, k: nat, i: nat)
    requires TurnSoFar(base, events) && k <= |events| && i < |base|
    ensures |base| <= |Seen(base, events, k).rows|
    ensures Seen(base, events, k).rows[i] == base[i] && Stopped(Seen(base, events, k).rows)[i] == base[i]
  {
    var l := Seen(base, events, k);
    TurnExtends(base, events, k);
    QuietPrefix(Faces(base), events, k);
    assert l.rows[..|base|][i] == base[i];
    SettledFace(l, base, StartedIds(events[..k]), i);
  }

  lemma StoppedAnchor(rows: seq<TaskRow>, at: nat)
    requires LastAnchor(rows, at)
    ensures LastAnchor(Stopped(rows), at)
  {
    StoppedGrows(rows);
  }

  lemma AnchorStays(base: seq<TaskRow>, rows: seq<TaskRow>, at: nat)
    requires LastAnchor(base, at) && Grows(base, rows) && !HasTurnAnchor(base, rows)
    ensures LastAnchor(rows, at)
  {
    forall i | at < i < |rows| ensures !IsAnchor(rows[i].row.role) {
      assert i < |base| ==> rows[i].row.role == base[i].row.role;
    }
  }

  /** Before any anchor of the turn, the cut is that of the rows before it. */
  lemma CutsToFront(base: seq<TaskRow>, events: seq<Event>, k: nat)
    requires TurnSoFar(base, events) && k <= |events|
    requires !NoAnchors(base) && !SawAnchor(base, events, k)
    ensures Renewed(base, events, k) == Cut(base)
  {
    var rows := Seen(base, events, k).rows;
    var some: nat :| some < |base| && IsAnchor(base[some].row.role);
    var at := HasLastAnchor(base, some);
    CutsAt(base, at);
    AnchorsOf(base, events, k);
    AnchorStays(base, rows, at);
    StoppedAnchor(rows, at);
    CutsAt(Stopped(rows), at);
    forall i: nat | i <= at ensures Stopped(rows)[i] == base[i] {
      BaseUntouched(base, events, k, i);
    }
    assert Stopped(rows)[..at + 1] == base[..at + 1];
  }

  // ── The same turn on fewer rows ─────────────────────────────────────────────

  lemma FrontTurn(base: seq<TaskRow>, events: seq<Event>)
    requires TurnSoFar(base, events)
    ensures TurnSoFar(Cut(base), events)
  {
    var front := Cut(base);
    forall i | 0 <= i < |front| ensures front[i] == base[i] && Faces(front)[i] == Faces(base)[i] {}
  }

  ghost predicate SameHasTask(a: seq<TaskRow>, b: seq<TaskRow>) {
    forall t :: HasTask(a, t) <==> HasTask(b, t)
  }

  /** What comes after `a` in `x` has the roles and tasks of what comes after `b` in `y`. */
  ghost predicate SameMade(a: seq<TaskRow>, x: seq<TaskRow>, b: seq<TaskRow>, y: seq<TaskRow>) {
    && |a| <= |x| && |b| <= |y| && |x| - |a| == |y| - |b|
    && Grows(x[|a|..], y[|b|..])
  }

  lemma SameMadeAt(a: seq<TaskRow>, x: seq<TaskRow>, b: seq<TaskRow>, y: seq<TaskRow>, i: nat)
    requires SameMade(a, x, b, y) && |b| <= i < |y|
    ensures y[i].row.role == x[|a| + (i - |b|)].row.role && y[i].task == x[|a| + (i - |b|)].task
  {
    assert y[i] == y[|b|..][i - |b|];
  }

  lemma SameMadeNext(
    a: seq<TaskRow>, x: seq<TaskRow>, after: seq<TaskRow>, b: seq<TaskRow>, y: seq<TaskRow>, later: seq<TaskRow>)
    requires SameMade(a, x, b, y) && Grows(x, after) && Grows(y, later)
    requires |after| - |x| == |later| - |y| <= 1
    requires |after| > |x| ==> later[|y|].row.role == after[|x|].row.role && later[|y|].task == after[|x|].task
    ensures SameMade(a, after, b, later)
  {
    forall i | 0 <= i < |later| - |b|
      ensures later[|b|..][i].row.role == after[|a|..][i].row.role && later[|b|..][i].task == after[|a|..][i].task
    {
      if i < |y| - |b| {
        SameMadeAt(a, x, b, y, |b| + i);
      }
    }
  }

  /** The turn made the same rows, roles and tasks, on `a` and on `b`. */
  ghost predicate Alike(a: seq<TaskRow>, x: TaskLive, b: seq<TaskRow>, y: TaskLive) {
    && SameMade(a, x.rows, b, y.rows)
    && OpenIsRow(x) && OpenIsRow(y) && x.open.Some? == y.open.Some?
    && SameHasTask(x.rows, y.rows)
  }

  /** Whether an event adds a row, and what to. */
  function MadeBy(l: TaskLive, e: Event): Option<(RowRole, Option<string>)> {
    match e
    case TextChunk(_) => if l.open.Some? && l.open.value < |l.rows| then None else Some((AssistantRow, None))
    case ToolStarted(_, _) => Some((ToolRow, None))
    case TurnInterrupted(_) => Some((InterruptedRow, None))
    case TurnFailed(_) => Some((ErrorRow, None))
    case BgCompleted(task, _) => if HasTask(l.rows, task) then None else Some((BgCompleteRow, Some(task)))
    case BgProgressed(_) => Some((BgProgressRow, None))
    case PeerMessaged(_) => Some((PeerMessageRow, None))
    case _ => None
  }

  lemma StepMakes(l: TaskLive, e: Event)
    ensures var after, made := TaskStep(l, e).rows, MadeBy(l, e);
            && Grows(l.rows, after)
            && if made.None? then |after| == |l.rows|
               else |after| == |l.rows| + 1
                    && after[|l.rows|].row.role == made.value.0 && after[|l.rows|].task == made.value.1
  {}

  lemma HasTaskAfter(l: TaskLive, e: Event, t: string)
    ensures HasTask(TaskStep(l, e).rows, t) <==> HasTask(l.rows, t) || (e.BgCompleted? && e.taskId == t)
  {
    StepMakes(l, e);
    var after := TaskStep(l, e).rows;
    if HasTask(l.rows, t) {
      var i :| 0 <= i < |l.rows| && l.rows[i].task == Some(t);
      assert after[i].task == Some(t);
    } else if e.BgCompleted? && e.taskId == t {
      assert after[|l.rows|].task == Some(t);
    }
    if HasTask(after, t) {
      var i :| 0 <= i < |after| && after[i].task == Some(t);
      assert i < |l.rows| ==> l.rows[i].task == Some(t);
    }
  }

  lemma MakesAlike(x: TaskLive, y: TaskLive, e: Event)
    requires OpenIsRow(x) && OpenIsRow(y) && x.open.Some? == y.open.Some? && SameHasTask(x.rows, y.rows)
    ensures MadeBy(x, e) == MadeBy(y, e)
  {}

  lemma HasTasksAlike(x: TaskLive, y: TaskLive, e: Event)
    requires SameHasTask(x.rows, y.rows)
    ensures SameHasTask(TaskStep(x, e).rows, TaskStep(y, e).rows)
  {
    forall t ensures HasTask(TaskStep(x, e).rows, t) <==> HasTask(TaskStep(y, e).rows, t) {
      HasTaskAfter(x, e, t);
      HasTaskAfter(y, e, t);
    }
  }

  lemma StepAlike(a: seq<TaskRow>, x: TaskLive, b: seq<TaskRow>, y: TaskLive, e: Event)
    requires Alike(a, x, b, y)
    ensures Alike(a, TaskStep(x, e), b, TaskStep(y, e))
  {
    var u, v := TaskStep(x, e), TaskStep(y, e);
    StepMakes(x, e);
    StepMakes(y, e);
    StepAdds(x, e);
    StepAdds(y, e);
    MakesAlike(x, y, e);
    HasTasksAlike(x, y, e);
    SameMadeNext(a, x.rows, u.rows, b, y.rows, v.rows);
  }

  lemma {:induction false} TurnAlike(a: seq<TaskRow>, b: seq<TaskRow>, events: seq<Event>, n: nat)
    requires SameHasTask(a, b) && n <= |events|
    ensures Alike(a, Seen(a, events, n), b, Seen(b, events, n))
    decreases n
  {
    if n > 0 {
      TurnAlike(a, b, events, n - 1);
      SeenNext(a, events, n - 1);
      SeenNext(b, events, n - 1);
      StepAlike(a, Seen(a, events, n - 1), b, Seen(b, events, n - 1), events[n - 1]);
    } else {
      assert events[..0] == [];
    }
  }

  lemma FrontHasTasks(base: seq<TaskRow>)
    requires TaskRoles(base) && !Firm(base)
    ensures SameHasTask(Cut(base), base)
  {
    FrontOf(base);
    forall t | HasTask(base, t) ensures HasTask(Cut(base), t) {
      var i :| 0 <= i < |base| && base[i].task == Some(t);
      assert IsAnchor(base[i].row.role);
      assert Cut(base)[i].task == Some(t);
    }
    forall t | HasTask(Cut(base), t) ensures HasTask(base, t) {
      var i :| 0 <= i < |Cut(base)| && Cut(base)[i].task == Some(t);
      assert base[i].task == Some(t);
    }
  }

  lemma SawStays(base: seq<TaskRow>, events: seq<Event>, j: nat, n: nat)
    requires j <= n <= |events|
    ensures SawAnchor(base, events, j) ==> SawAnchor(base, events, n)
  {
    Growing(base, events, j, n);
    if SawAnchor(base, events, j) {
      var rows := Seen(base, events, j).rows;
      var i: nat :| |base| <= i < |rows| && IsAnchor(rows[i].row.role);
      assert IsAnchor(Seen(base, events, n).rows[i].row.role);
    }
  }

  /** Anchors come in alike. */
  lemma SawAlike(base: seq<TaskRow>, events: seq<Event>, j: nat)
    requires TaskRoles(base) && !Firm(base) && j <= |events|
    ensures SawAnchor(Cut(base), events, j) <==> SawAnchor(base, events, j)
  {
    var front := Cut(base);
    var x, y := Seen(front, events, j).rows, Seen(base, events, j).rows;
    FrontHasTasks(base);
    TurnAlike(front, base, events, j);
    if SawAnchor(front, events, j) {
      var i: nat :| |front| <= i < |x| && IsAnchor(x[i].row.role);
      SameMadeAt(front, x, base, y, |base| + (i - |front|));
    }
    if SawAnchor(base, events, j) {
      var i: nat :| |base| <= i < |y| && IsAnchor(y[i].row.role);
      SameMadeAt(front, x, base, y, i);
    }
  }

  // ── Cuts that have lost rows ────────────────────────────────────────────────

  /** The first anchor row from `low` on. */
  predicate FirstAnchor(rows: seq<TaskRow>, low: nat, at: nat) {
    low <= at < |rows| && IsAnchor(rows[at].row.role) && forall i :: low <= i < at ==> !IsAnchor(rows[i].row.role)
  }

  lemma {:induction false} HasFirstAnchor(rows: seq<TaskRow>, low: nat, some: nat) returns (at: nat)
    requires low <= some < |rows| && IsAnchor(rows[some].row.role)
    ensures at <= some && FirstAnchor(rows, low, at)
    decreases some - low
  {
    if IsAnchor(rows[low].row.role) {
      at := low;
    } else {
      at := HasFirstAnchor(rows, low + 1, some);
    }
  }

  lemma FirstAnchorGrows(a: seq<TaskRow>, b: seq<TaskRow>, low: nat, at: nat)
    requires Grows(a, b) && FirstAnchor(a, low, at)
    ensures FirstAnchor(b, low, at)
  {
    forall i | low <= i < at ensures !IsAnchor(b[i].row.role) {
      assert !IsAnchor(a[i].row.role);
    }
  }

  /** After `front` the cut has its first anchor where the turn has it on `front`. */
  ghost predicate AnchorsAlike(front: seq<TaskRow>, events: seq<Event>, cut: seq<TaskRow>, at: nat) {
    FirstAnchor(cut, |front|, at) && FirstAnchor(Seen(front, events, |events|).rows, |front|, at)
  }

  /**
    Only `front` is left of the rows before the turn; what follows is nothing, or begins as the
    turn does on `front`.
   */
  ghost predicate Lost(front: seq<TaskRow>, events: seq<Event>, cut: seq<TaskRow>) {
    Firm(cut) && (cut == front || exists at: nat :: AnchorsAlike(front, events, cut, at))
  }

  lemma LostOnce(front: seq<TaskRow>, events: seq<Event>, j: nat)
    requires j <= |events| && SawAnchor(front, events, j)
    ensures Lost(front, events, Renewed(front, events, j))
  {
    var rows, cut := Seen(front, events, j).rows, Renewed(front, events, j);
    CutIsFirm(Stopped(rows));
    var some: nat :| |front| <= some < |rows| && IsAnchor(rows[some].row.role);
    var at := HasFirstAnchor(rows, |front|, some);
    Growing(front, events, j, |events|);
    FirstAnchorGrows(rows, Seen(front, events, |events|).rows, |front|, at);
    FirstAnchorCut(rows, |front|, at);
    assert AnchorsAlike(front, events, cut, at);
  }

  lemma FirstAnchorCut(rows: seq<TaskRow>, low: nat, at: nat)
    requires FirstAnchor(rows, low, at)
    ensures FirstAnchor(Cut(Stopped(rows)), low, at)
  {
    StoppedGrows(rows);
    FirstAnchorGrows(rows, Stopped(rows), low, at);
    var last := HasLastAnchor(Stopped(rows), at);
    CutsAt(Stopped(rows), last);
  }

  lemma LostAgain(front: seq<TaskRow>, events: seq<Event>, cut: seq<TaskRow>, j: nat, at: nat)
    requires j <= |events| && Firm(cut) && AnchorsAlike(front, events, cut, at)
    ensures Lost(front, events, Renewed(cut, events, j))
  {
    CutIsFirm(Stopped(Seen(cut, events, j).rows));
    RenewedGrows(cut, events, j);
    FirstAnchorGrows(cut, Renewed(cut, events, j), |front|, at);
    assert AnchorsAlike(front, events, Renewed(cut, events, j), at);
  }

  /** Rows once lost stay lost; until an anchor of the turn has been seen, the cut stays what it is. */
  lemma LostStays(front: seq<TaskRow>, events: seq<Event>, cut: seq<TaskRow>, j: nat)
    requires TurnSoFar(front, events) && EndsWithAnchor(front) && Lost(front, events, cut) && j <= |events|
    ensures Lost(front, events, Renewed(cut, events, j))
    ensures cut == front && !SawAnchor(front, events, j) ==> Renewed(cut, events, j) == front
  {
    if cut != front {
      var at: nat :| AnchorsAlike(front, events, cut, at);
      LostAgain(front, events, cut, j, at);
    } else if SawAnchor(front, events, j) {
      LostOnce(front, events, j);
    } else {
      FirmIs(front);
      assert !NoAnchors(front) by {
        assert IsAnchor(front[|front| - 1].row.role);
      }
      CutsToFront(front, events, j);
    }
  }

  /** The turn on all rows has its first anchor later, by as many rows as are lost. */
  lemma LaterAnchor(base: seq<TaskRow>, events: seq<Event>, at: nat)
    requires TurnSoFar(base, events) && !Firm(base)
    requires FirstAnchor(Seen(Cut(base), events, |events|).rows, |Cut(base)|, at)
    ensures var rows := Seen(base, events, |events|).rows; at < |rows| && !IsAnchor(rows[at].row.role)
  {
    var front, n := Cut(base), |events|;
    var rows := Seen(base, events, n).rows;
    FrontOf(base);
    FrontHasTasks(base);
    TurnAlike(front, base, events, n);
    AnchorsOf(base, events, n);
    if at < |base| {
      assert rows[at].row.role == base[at].row.role;
    } else {
      SameMadeAt(front, Seen(front, events, n).rows, base, rows, at);
    }
  }

  lemma AnchorTooEarly(base: seq<TaskRow>, events: seq<Event>, cut: seq<TaskRow>, at: nat)
    requires TurnSoFar(base, events) && !Firm(base) && AnchorsAlike(Cut(base), events, cut, at)
    ensures Faces(Seen(cut, events, |events|).rows) != Faces(Seen(base, events, |events|).rows)
  {
    var n := |events|;
    LaterAnchor(base, events, at);
    Growing(cut, events, 0, n);
    BaseIsReached(cut, events);
    assert IsAnchor(Faces(Seen(cut, events, n).rows)[at].role);
    assert !IsAnchor(Faces(Seen(base, events, n).rows)[at].role);
  }

  /**
    From a cut that has lost rows a replay never shows the rows of the turn: there are fewer, or
    the first anchor row of the turn comes too early.
   */
  lemma LostDiffers(base: seq<TaskRow>, events: seq<Event>, cut: seq<TaskRow>)
    requires TurnSoFar(base, events) && !Firm(base) && Lost(Cut(base), events, cut)
    ensures Faces(Seen(cut, events, |events|).rows) != Faces(Seen(base, events, |events|).rows)
    ensures cut == Cut(base) ==>
              |Seen(cut, events, |events|).rows| + (|base| - |cut|) == |Seen(base, events, |events|).rows|
  {
    var front, n := Cut(base), |events|;
    FrontOf(base);
    if cut == front {
      FrontHasTasks(base);
      TurnAlike(front, base, events, n);
      assert |Faces(Seen(cut, events, n).rows)| < |Faces(Seen(base, events, n).rows)|;
    } else {
      var at: nat :| AnchorsAlike(front, events, cut, at);
      AnchorTooEarly(base, events, cut, at);
    }
  }
}
