/**
  When a client that drops and resumes in the middle of a turn ends with the rows of one that
  never dropped, and what it ends with otherwise (mobile/App.tsx).
 */
module ReconnectTheorems {
  import opened Prelude
  import opened Conversation
  import opened ChatPanes
  import opened LiveRows
  import opened ToolSchedule
  import opened TaskRows
  import opened Cuts
  import opened Replays
  import opened ReplayCuts
  import opened LostRows
  import opened Reconnect
  import History
  import Reconcile

  // ── Good, bad and lost cuts over many connections ───────────────────────────

  ghost predicate AllBroken(events: seq<Event>, broken: seq<Broken>) {
    forall c <- broken :: BrokenIn(events, c)
  }

  /** The farther of `n` events and those a connection put on screen. */
  function Farther(n: nat, c: Broken): nat {
    if OnScreen(c).Some? && OnScreen(c).value > n then OnScreen(c).value else n
  }

  /** The most events of the turn the client ever had on screen. */
  function Peak(n: nat, broken: seq<Broken>): nat
    decreases |broken|
  {
    if broken == [] then n else Peak(Farther(n, broken[0]), broken[1..])
  }

  lemma {:induction false} PeakBounds(events: seq<Event>, n: nat, broken: seq<Broken>)
    requires AllBroken(events, broken) && n <= |events|
    ensures n <= Peak(n, broken) <= |events|
    decreases |broken|
  {
    if broken != [] {
      assert BrokenIn(events, broken[0]);
      PeakBounds(events, Farther(n, broken[0]), broken[1..]);
    }
  }

  lemma {:induction false} BadStaysBad(base: seq<TaskRow>, events: seq<Event>, cut: seq<TaskRow>, broken: seq<Broken>)
    requires Bad(base, events, cut) && AllBroken(events, broken)
    ensures Bad(base, events, LastCut(cut, events, broken))
    decreases |broken|
  {
    if broken != [] {
      var c := broken[0];
      assert BrokenIn(events, c);
      if OnScreen(c).Some? {
        BadStays(base, events, cut, OnScreen(c).value);
      }
      BadStaysBad(base, events, NextCut(cut, events, c), broken[1..]);
    }
  }

  /** From a good cut: good as long as the farthest point seen is clean, bad from the first one on that is not. */
  lemma {:induction false} LastCutIs(
    base: seq<TaskRow>, events: seq<Event>, cut: seq<TaskRow>, n: nat, broken: seq<Broken>)
    requires TurnSoFar(base, events) && AllBroken(events, broken)
    requires n <= |events| && Good(base, events, cut, n) && Clean(base, events, n)
    ensures n <= Peak(n, broken) <= |events|
    ensures var peak, last := Peak(n, broken), LastCut(cut, events, broken);
            if Clean(base, events, peak) then Good(base, events, last, peak) else Bad(base, events, last)
    decreases |broken|
  {
    PeakBounds(events, n, broken);
    if broken != [] {
      var c := broken[0];
      var far, next := Farther(n, c), NextCut(cut, events, c);
      assert BrokenIn(events, c);
      if OnScreen(c).Some? {
        GoodThen(base, events, cut, n, OnScreen(c).value);
      }
      if Clean(base, events, far) {
        LastCutIs(base, events, next, far, broken[1..]);
      } else {
        PeakBounds(events, far, broken[1..]);
        BadStaysBad(base, events, next, broken[1..]);
        UncleanStays(base, events, cut, n, far, Peak(n, broken));
      }
    }
  }

  /** From a cut that has lost rows: they stay lost, and until an anchor of the turn is seen nothing comes in. */
  lemma {:induction false} LostStaysLost(
    front: seq<TaskRow>, events: seq<Event>, cut: seq<TaskRow>, n: nat, broken: seq<Broken>)
    requires TurnSoFar(front, events) && EndsWithAnchor(front) && Lost(front, events, cut)
    requires n <= |events| && AllBroken(events, broken)
    ensures Peak(n, broken) <= |events| && Lost(front, events, LastCut(cut, events, broken))
    ensures cut == front && !SawAnchor(front, events, Peak(n, broken)) ==> LastCut(cut, events, broken) == front
    decreases |broken|
  {
    PeakBounds(events, n, broken);
    if broken != [] {
      var c := broken[0];
      var far, peak := Farther(n, c), Peak(n, broken);
      assert BrokenIn(events, c);
      if OnScreen(c).Some? {
        PeakBounds(events, far, broken[1..]);
        LostStays(front, events, cut, OnScreen(c).value);
        SawStays(front, events, OnScreen(c).value, peak);
      }
      LostStaysLost(front, events, NextCut(cut, events, c), far, broken[1..]);
    }
  }

  // ── What the last replay shows ──────────────────────────────────────────────

  /**
    `shown`, rebuilt by a client that dropped after `k` events and had at most `peak` on screen:
    the rows of the turn if cuts at both points are clean. Otherwise more rows, if the first cut
    keeps the rows from before the turn. If it does not, others; fewer by those it takes away,
    as long as no anchor of the turn was on screen.
   */
  ghost predicate Rebuilt(base: seq<TaskRow>, events: seq<Event>, k: nat, peak: nat, shown: TaskLive)
    requires k <= |events| && peak <= |events|
  {
    var turn := Seen(base, events, |events|);
    if Clean(base, events, k) && Clean(base, events, peak) then shown == turn
    else if KeepsBase(base, events, k) then |shown.rows| > |turn.rows|
    else
      && Faces(shown.rows) != Faces(turn.rows)
      && (!SawAnchor(base, events, peak) ==> |shown.rows| + (|base| - |Cut(base)|) == |turn.rows|)
  }

  lemma CleanKeepsBase(base: seq<TaskRow>, events: seq<Event>, k: nat)
    requires TurnSoFar(base, events) && k <= |events| && Clean(base, events, k)
    ensures KeepsBase(base, events, k)
  {
    CleanMeans(base, events, k);
    FirmIs(base);
  }

  lemma CleanDropRebuilds(base: seq<TaskRow>, events: seq<Event>, k: nat, broken: seq<Broken>)
    requires TurnSoFar(base, events) && k <= |events| && AllBroken(events, broken) && Clean(base, events, k)
    ensures Peak(k, broken) <= |events|
    ensures Rebuilt(base, events, k, Peak(k, broken),
                    Seen(LastCut(Renewed(base, events, k), events, broken), events, |events|))
  {
    var peak, last := Peak(k, broken), LastCut(Renewed(base, events, k), events, broken);
    CleanKeepsBase(base, events, k);
    CutIsFirm(Stopped(Seen(base, events, k).rows));
    var q := CleanIsReached(base, events, k);
    LastCutIs(base, events, Renewed(base, events, k), k, broken);
    if Clean(base, events, peak) {
      assert Good(base, events, last, |events|);
      GoodReplays(base, events, last);
    } else {
      BadRepeats(base, events, last);
    }
  }

  lemma UncleanDropRepeats(base: seq<TaskRow>, events: seq<Event>, k: nat, broken: seq<Broken>)
    requires TurnSoFar(base, events) && k <= |events| && AllBroken(events, broken)
    requires !Clean(base, events, k) && KeepsBase(base, events, k)
    ensures Peak(k, broken) <= |events|
    ensures Rebuilt(base, events, k, Peak(k, broken),
                    Seen(LastCut(Renewed(base, events, k), events, broken), events, |events|))
  {
    PeakBounds(events, k, broken);
    KeptBaseGrows(base, events, k);
    UncleanIsBad(base, events, k);
    BadStaysBad(base, events, Renewed(base, events, k), broken);
    BadRepeats(base, events, LastCut(Renewed(base, events, k), events, broken));
  }

  lemma UncleanDropLoses(base: seq<TaskRow>, events: seq<Event>, k: nat, broken: seq<Broken>)
    requires TurnSoFar(base, events) && k <= |events| && AllBroken(events, broken)
    requires !KeepsBase(base, events, k)
    ensures Peak(k, broken) <= |events|
    ensures Rebuilt(base, events, k, Peak(k, broken),
                    Seen(LastCut(Renewed(base, events, k), events, broken), events, |events|))
  {
    var front, peak := Cut(base), Peak(k, broken);
    PeakBounds(events, k, broken);
    FirmIs(base);
    FrontOf(base);
    FrontTurn(base, events);
    CutsToFront(base, events, k);
    CutIsFirm(base);
    LostStaysLost(front, events, front, k, broken);
    SawAlike(base, events, peak);
    LostDiffers(base, events, LastCut(front, events, broken));
    if Clean(base, events, k) {
      CleanKeepsBase(base, events, k);
    }
  }

  lemma LastCutDecides(base: seq<TaskRow>, events: seq<Event>, k: nat, broken: seq<Broken>)
    requires TurnSoFar(base, events) && k <= |events| && AllBroken(events, broken)
    ensures Peak(k, broken) <= |events|
    ensures Rebuilt(base, events, k, Peak(k, broken),
                    Seen(LastCut(Renewed(base, events, k), events, broken), events, |events|))
  {
    if Clean(base, events, k) {
      CleanDropRebuilds(base, events, k, broken);
    } else if KeepsBase(base, events, k) {
      UncleanDropRepeats(base, events, k, broken);
    } else {
      UncleanDropLoses(base, events, k, broken);
    }
  }

  // ── Any number of reconnects ────────────────────────────────────────────────

  lemma LastingConnection(p: Pane, cut: seq<TaskRow>, events: seq<Event>, n: nat)
    requires (forall e <- events :: Buffered(e)) && Resumable(p, cut) && n <= |events|
    ensures var q := HandleAll(p, ResumeFrames(events, n, |events|));
            TaskLiveOf(q) == Seen(cut, events, |events|) && (q.replaying.None? <==> n > 0)
  {
    if n > 0 {
      ResumedCatchesUp(p, cut, events, n, |events|);
    } else {
      ResumedTooEarly(p, cut, events, |events|);
    }
  }

  /**
    A client that has seen nothing of the turn joins it, its rows, cut as a resume cuts them,
    being `base`, perhaps still partly queued for the staggered appearance. However many of its
    connections break, the first one that lasts rebuilds the rows of the turn so far, exactly
    when a cut at the farthest point it had on screen is clean; otherwise it shows more. They
    are on screen exactly when there was something to replay.
   */
  lemma JoinsATurn(p: Pane, base: seq<TaskRow>, events: seq<Event>, broken: seq<Broken>, n: nat)
    requires TurnSoFar(base, events) && Resumable(p, base)
    requires AllBroken(events, broken) && n <= |events|
    ensures Peak(0, broken) <= |events|
    ensures var q := HandleAll(Drops(p, events, broken), ResumeFrames(events, n, |events|));
            var turn := Seen(base, events, |events|);
            && (q.replaying.None? <==> n > 0)
            && if Clean(base, events, Peak(0, broken)) then TaskLiveOf(q) == turn else |Target(q)| > |turn.rows|
  {
    ResumableIsFirm(p, base);
    BaseIsClean(base, events);
    DropsStayResumable(p, base, events, broken);
    LastingConnection(Drops(p, events, broken), LastCut(base, events, broken), events, n);
    LastCutDecides(base, events, 0, broken);
    assert Renewed(base, events, 0) == base;
  }

  /**
    When reconnects are invisible. A client follows a turn, background and peer events among it,
    for `k` events and drops; any number of further connections break, at any frame; the last
    one lasts. If the rows it had on screen when it dropped, and those at the farthest point it
    ever had on screen, cut at their last user, background or peer row, are those from before
    the turn and of the turn only completed tasks' rows, it ends with the rows of a client that
    followed the whole turn. Otherwise it has more, if the first cut keeps the rows from before
    the turn; if that takes some away, it ends without them. So it looks the same exactly in the
    first case. What it ends with is on screen exactly when the last connection found something
    to replay.
   */
  lemma ReconnectsAreInvisible(p: Pane, base: seq<TaskRow>, events: seq<Event>, k: nat, broken: seq<Broken>, n: nat)
    requires TurnSoFar(base, events) && k <= |events| && n <= |events|
    requires Following(p, base, events, 0) && AllBroken(events, broken)
    ensures Peak(k, broken) <= |events|
    ensures var before := Drops(HandleAll(p, events[..k]), events, broken);
            var dropped := HandleAll(before, ResumeFrames(events, n, |events|));
            var stayed := HandleAll(p, events);
            && stayed.replaying.None? && (dropped.replaying.None? <==> n > 0)
            && TaskLiveOf(stayed) == Seen(base, events, |events|)
            && Rebuilt(base, events, k, Peak(k, broken), TaskLiveOf(dropped))
            && (Faces(TaskView(Target(dropped))) == Faces(TaskView(Target(stayed))) <==>
                  Clean(base, events, k) && Clean(base, events, Peak(k, broken)))
  {
    FollowsOn(p, base, events, 0, k);
    assert events[0..k] == events[..k];
    var q, cut := HandleAll(p, events[..k]), Renewed(base, events, k);
    FollowerIsResumable(q, base, events, k);
    DropsStayResumable(q, cut, events, broken);
    LastingConnection(Drops(q, events, broken), LastCut(cut, events, broken), events, n);
    LastCutDecides(base, events, k, broken);
    FollowsOn(p, base, events, 0, |events|);
    assert events[0..|events|] == events == events[..|events|];
    var shown, turn := Seen(LastCut(cut, events, broken), events, |events|), Seen(base, events, |events|);
    assert |Faces(shown.rows)| == |shown.rows| && |Faces(turn.rows)| == |turn.rows|;
  }

  // ── Before any background or peer row of the turn ───────────────────────────

  /** As long as the turn has brought no anchor row, the rows before it decide. */
  lemma CleanBeforeAnchors(base: seq<TaskRow>, events: seq<Event>, j: nat)
    requires TurnSoFar(base, events) && j <= |events| && !SawAnchor(base, events, j)
    ensures Clean(base, events, j) <==>
              EndsWithAnchor(base) || (NoAnchors(base) && |Seen(base, events, j).rows| == |base|)
  {
    CleanMeans(base, events, j);
    forall a: nat | a < j ensures !BringsAnchor(base, events, a) {
      SawNext(base, events, a);
      SawStays(base, events, a + 1, j);
    }
  }

  /**
    A client that has seen no user, background or peer row of the turn: the rows agree if and only
    if those before the turn end with one, or they hold none and nothing of the turn was ever on
    screen. Otherwise the resumed client has more rows, when there is none, or fewer, by all
    those after the last one.
   */
  lemma ReconnectsBeforeAnchors(p: Pane, base: seq<TaskRow>, events: seq<Event>, k: nat, broken: seq<Broken>, n: nat)
    requires TurnSoFar(base, events) && k <= |events| && n <= |events|
    requires Following(p, base, events, 0) && AllBroken(events, broken)
    requires Peak(k, broken) <= |events| && !SawAnchor(base, events, Peak(k, broken))
    ensures var before := Drops(HandleAll(p, events[..k]), events, broken);
            var dropped := HandleAll(before, ResumeFrames(events, n, |events|));
            var stayed := HandleAll(p, events);
            if EndsWithAnchor(base) || (NoAnchors(base) && |Seen(base, events, Peak(k, broken)).rows| == |base|)
            then TaskLiveOf(dropped) == TaskLiveOf(stayed)
            else if NoAnchors(base) then |Target(dropped)| > |Target(stayed)|
            else |Target(dropped)| + (|base| - |Cut(base)|) == |Target(stayed)| && |Cut(base)| < |base|
  {
    var peak := Peak(k, broken);
    ReconnectsAreInvisible(p, base, events, k, broken, n);
    PeakBounds(events, k, broken);
    SawStays(base, events, k, peak);
    CleanBeforeAnchors(base, events, k);
    CleanBeforeAnchors(base, events, peak);
    Growing(base, events, k, peak);
    AnchorsOf(base, events, k);
    FirmIs(base);
    if !Firm(base) {
      FrontOf(base);
    }
  }

  lemma {:induction false} NoAnchorsAdded(base: seq<TaskRow>, events: seq<Event>, j: nat)
    requires j <= |events| && forall e <- events :: InTurn(e)
    ensures !SawAnchor(base, events, j)
    decreases j
  {
    if j > 0 {
      NoAnchorsAdded(base, events, j - 1);
      SawNext(base, events, j - 1);
      SeenNext(base, events, j - 1);
      assert events[j - 1] in events;
    } else {
      BaseIsReached(base, events);
    }
  }

  /**
    Without background and peer events in the turn, a cut is clean if and only if the rows before
    the turn end with an anchor, or hold none and the turn has shown nothing.
   */
  lemma PlainTurnsAreClean(base: seq<TaskRow>, events: seq<Event>, j: nat)
    requires TurnSoFar(base, events) && j <= |events| && forall e <- events :: InTurn(e)
    ensures !SawAnchor(base, events, j)
    ensures Clean(base, events, j) <==>
              EndsWithAnchor(base) || (NoAnchors(base) && |Seen(base, events, j).rows| == |base|)
  {
    NoAnchorsAdded(base, events, j);
    CleanBeforeAnchors(base, events, j);
  }

  // ── Runs ────────────────────────────────────────────────────────────────────

  /** A pane that shows a question and its answer. */
  function Answered(q: string, a: string): (p: Pane)
    ensures TaskView(p.messages) == [TaskRow(PlainRow(UserRow, q), None), TaskRow(PlainRow(AssistantRow, a), None)]
  {
    Pane([NewRow(Uid(0), UserRow, q), NewRow(Uid(1), AssistantRow, a)], None, Uid(2), false, [], ReadyStatus, 3)
  }

  /**
    A turn that another client or a peer message started: the row that triggered it is not there.
    After a drop the last answer is gone, although nothing but text was streamed.
   */
  lemma AnswerIsLost(q: string, a: string, x: string)
    ensures var events, p := [TextChunk(x)], Answered(q, a);
            var dropped := HandleAll(HandleAll(p, events[..1]), ResumeFrames(events, 1, 1));
            var stayed := HandleAll(p, events);
            && dropped.replaying.None? && stayed.replaying.None?
            && Faces(TaskView(stayed.messages))
               == [PlainRow(UserRow, q), PlainRow(AssistantRow, a), PlainRow(AssistantRow, x)]
            && Faces(TaskView(dropped.messages)) == [PlainRow(UserRow, q), PlainRow(AssistantRow, x)]
  {
    var events, p := [TextChunk(x)], Answered(q, a);
    var base := TaskView(p.messages);
    TextAfterAnswer(q, a, x);
    QuestionLeft(base, events);
    OneTextChunk(base, x);
    OneTextChunk(base[..1], x);
    FollowsOn(p, base, events, 0, 1);
    assert events[0..1] == events[..1] == events;
    FollowerIsResumable(HandleAll(p, events), base, events, 1);
    ResumedCatchesUp(HandleAll(p, events), base[..1], events, 1, 1);
  }

  lemma TextAfterAnswer(q: string, a: string, x: string)
    ensures TurnSoFar(TaskView(Answered(q, a).messages), [TextChunk(x)])
    ensures Following(Answered(q, a), TaskView(Answered(q, a).messages), [TextChunk(x)], 0)
  {
    assert [TextChunk(x)][..0] == [];
  }

  lemma OneTextChunk(base: seq<TaskRow>, x: string)
    ensures Seen(base, [TextChunk(x)], 1).rows == base + [TaskRow(PlainRow(AssistantRow, x), None)]
  {
    SeenNext(base, [TextChunk(x)], 0);
    BaseIsReached(base, [TextChunk(x)]);
  }

  lemma QuestionLeft(base: seq<TaskRow>, events: seq<Event>)
    requires |base| == 2 && base[0].row.role == UserRow && base[1].row.role == AssistantRow
    requires TurnSoFar(base, events) && |events| == 1 && events[0].TextChunk?
    ensures Renewed(base, events, 1) == base[..1]
  {
    CutsAt(base, 0);
    NoAnchorsAdded(base, events, 1);
    CutsToFront(base, events, 1);
  }

  /** A background task that completes before anything else of the turn is shown does no harm. */
  lemma EarlyCompletionIsClean(base: seq<TaskRow>, task: string, text: string, chunk: string)
    requires EndsWithAnchor(base)
    ensures Clean(base, [BgCompleted(task, text), TextChunk(chunk)], 2)
  {
    var events := [BgCompleted(task, text), TextChunk(chunk)];
    BaseIsReached(base, events);
    SeenNext(base, events, 0);
    SeenNext(base, events, 1);
    var one := Seen(base, events, 1).rows;
    CutAtLastButOne(base, one, TaskRow(PlainRow(AssistantRow, chunk), None));
  }

  lemma CutAtLastButOne(base: seq<TaskRow>, rows: seq<TaskRow>, last: TaskRow)
    requires base <= rows && EndsWithAnchor(rows) && !IsAnchor(last.row.role)
    requires OnlyTasks(base, rows)
    ensures OnlyTasks(base, Cut(Stopped(rows + [last])))
  {
    CutsAt(Stopped(rows + [last]), |rows| - 1);
  }

  /** One that completes after some text has been shown makes a resumed client repeat that text. */
  lemma LateCompletionIsNotClean(base: seq<TaskRow>, task: string, text: string, chunk: string)
    requires !HasTask(base, task)
    ensures !Clean(base, [TextChunk(chunk), BgCompleted(task, text)], 2)
  {
    var events := [TextChunk(chunk), BgCompleted(task, text)];
    BaseIsReached(base, events);
    SeenNext(base, events, 0);
    SeenNext(base, events, 1);
    var one, rows := Seen(base, events, 1).rows, Seen(base, events, 2).rows;
    assert one == base + [TaskRow(PlainRow(AssistantRow, chunk), None)];
    assert !HasTask(one, task);
    assert rows == one + [TaskRow(PlainRow(BgCompleteRow, text), Some(task))];
    CutsAt(Stopped(rows), |one|);
    assert Renewed(base, events, 2)[|base|].task.None?;
  }

  // ── A turn that ends while the client is away ───────────────────────────────

  /**
    A client drops after `k` events, and the turn ends before it is back: the greeting leaves
    on screen what it had seen, running marks included. An idle load then shows the
    server's rows, but a row of the common prefix that was marked as running stays marked.
   */
  lemma TurnEndedMeanwhile(p: Pane, base: seq<TaskRow>, events: seq<Event>, k: nat, hist: seq<History.HistMsg>)
    requires (forall e <- events :: Buffered(e)) && k <= |events| && Following(p, base, events, 0)
    ensures var q := Handle(HandleAll(p, events[..k]), Ready(false));
            var common := Reconcile.Common(q.messages, Reconcile.ServerRows(hist));
            var r := Reconcile.Drain(Reconcile.Load(q, hist));
            && q.replaying.None? && TaskView(q.messages) == Seen(base, events, k).rows
            && (Reconcile.Kept(q, hist) ==>
                  && Reconcile.Reconciled(r.messages, hist)
                  && forall i :: 0 <= i < |r.messages| ==>
                       (r.messages[i].running <==> i < common && Seen(base, events, k).rows[i].row.running))
  {
    FollowsOn(p, base, events, 0, k);
    assert events[0..k] == events[..k];
    var q := Handle(HandleAll(p, events[..k]), Ready(false));
    if Reconcile.Kept(q, hist) {
      Reconcile.ReconcileIsCorrect(q, hist);
      Reconcile.LoadedRows(q, hist);
    }
  }
}
