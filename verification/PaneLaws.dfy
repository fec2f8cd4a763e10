/** What a chat pane is left with after the events of a turn, beyond its rows (mobile/App.tsx). */
module PaneLaws {
  import opened Prelude
  import opened Conversation
  import opened ChatPanes
  import History
  import Reconcile
  import SendMessage
  import TurnEvents
  import TurnScheduler

  // ── The cost of a turn ──────────────────────────────────────────────────────

  /** The last answer among the rows. */
  predicate LastAnswer(rows: Rows, i: nat) {
    i < |rows| && rows[i].role == AssistantRow && forall j :: i < j < |rows| ==> rows[j].role != AssistantRow
  }

  /** The cost goes on the last assistant row of `rows[..n]`, and nothing else changes. */
  lemma {:induction false} CostOnLastRow(rows: Rows, n: nat, cost: nat)
    requires n <= |rows|
    ensures |StampCost(rows, n, cost)| == |rows|
    ensures forall i :: 0 <= i < |rows| ==>
      StampCost(rows, n, cost)[i] ==
        if i < n && rows[i].role == AssistantRow && (forall j :: i < j < n ==> rows[j].role != AssistantRow)
        then rows[i].(cost := Some(cost)) else rows[i]
  {
    if n > 0 && rows[n - 1].role != AssistantRow {
      CostOnLastRow(rows, n - 1, cost);
    }
  }

  // ── The end of a turn ───────────────────────────────────────────────────────

  predicate EndsTurn(e: Event) {
    e.TurnDone? || e.TurnInterrupted? || e.TurnFailed?
  }

  function CostOf(e: Event): Option<nat> {
    match e
    case TurnDone(cost) => Some(cost)
    case TurnInterrupted(cost) => Some(cost)
    case _ => None
  }

  /** The row an end adds, if any. */
  function EndRow(e: Event): Option<(RowRole, string)> {
    match e
    case TurnInterrupted(_) => Some((InterruptedRow, "interrupted"))
    case TurnFailed(message) => Some((ErrorRow, message))
    case _ => None
  }

  /** Nothing runs, the last answer has the cost if there is one to stamp, and nothing else has changed. */
  ghost predicate Settles(rows: Rows, after: Rows, cost: Option<nat>) {
    && |rows| <= |after|
    && forall i: nat :: i < |rows| ==>
         after[i] == rows[i].(running := false,
                              cost := if LastAnswer(rows, i) && cost.Some? then cost else rows[i].cost)
  }

  lemma StampSettles(rows: Rows, cost: nat)
    ensures Settles(rows, StampCost(StopRunning(rows), |rows|, cost), Some(cost))
    ensures |StampCost(StopRunning(rows), |rows|, cost)| == |rows|
  {
    CostOnLastRow(StopRunning(rows), |rows|, cost);
    forall i: nat | i < |rows| ensures LastAnswer(StopRunning(rows), i) <==> LastAnswer(rows, i) {
      LastAnswerStopped(rows, i);
    }
  }

  /** All rows after the end of a turn; one that was interrupted or failed has a row that says so. */
  ghost predicate Ended(rows: Rows, after: Rows, e: Event) {
    && |after| == |rows| + (if EndRow(e).Some? then 1 else 0) && Settles(rows, after, CostOf(e))
    && (EndRow(e).Some? ==>
          var last := after[|rows|];
          && last.role == EndRow(e).value.0 && last.text == EndRow(e).value.1 && !last.running
          && last.prevRole == (if rows == [] then None else Some(rows[|rows| - 1].role)))
  }

  lemma EndedWithRow(rows: Rows, settled: Rows, e: Event, id: Id)
    requires Settles(rows, settled, CostOf(e)) && |settled| == |rows| && EndRow(e).Some?
    ensures Ended(rows, AppendMsg(settled, NewRow(id, EndRow(e).value.0, EndRow(e).value.1)), e)
  {
    if rows != [] {
      assert settled[|rows| - 1].role == rows[|rows| - 1].role;
    }
  }

  /** Where the rows of each kind of end come from. */
  lemma EndsAs(p: Pane, e: Event)
    requires EndsTurn(e)
    ensures var stopped := StopRunning(Target(p));
            var settled := if CostOf(e).Some? then StampCost(stopped, |stopped|, CostOf(e).value) else stopped;
            Target(Handle(p, e)) ==
              if EndRow(e).Some?
              then AppendMsg(settled, NewRow(Uid(p.nextUid), EndRow(e).value.0, EndRow(e).value.1)) else settled
  {}

  /** The end of a turn, in every state. */
  lemma EndedRows(p: Pane, e: Event)
    requires EndsTurn(e)
    ensures Ended(Target(p), Target(Handle(p, e)), e)
  {
    var rows := Target(p);
    EndsAs(p, e);
    if CostOf(e).Some? {
      StampSettles(rows, CostOf(e).value);
      if EndRow(e).Some? {
        EndedWithRow(rows, StampCost(StopRunning(rows), |rows|, CostOf(e).value), e, Uid(p.nextUid));
      }
    } else {
      EndedWithRow(rows, StopRunning(rows), e, Uid(p.nextUid));
    }
  }

  lemma LastAnswerStopped(rows: Rows, i: nat)
    ensures LastAnswer(StopRunning(rows), i) <==> LastAnswer(rows, i)
  {
    assert forall j :: 0 <= j < |rows| ==> StopRunning(rows)[j].role == rows[j].role;
  }

  /** A row of the user's own, as it stands at the end of the list. */
  ghost predicate OwnRow(m: Message, rows: Rows, text: string) {
    && m.role == UserRow && m.text == text && m.cost.None? && m.output.None? && !m.running
    && m.prevRole == if rows == [] then None else Some(rows[|rows| - 1].role)
  }

  /**
    After any events that end with the end of a turn the pane is ready: it is not busy, unless it
    replays, and takes the next message.
   */
  lemma ReadyAfterTurn(p: Pane, events: seq<Event>, e: Event, text: string)
    requires EndsTurn(e) && text != ""
    ensures var q := HandleAll(p, events + [e]);
            var sent := Send(q, text, true);
            && q.status == ReadyStatus && (Reconcile.Busy(q) <==> q.replaying.Some?)
            && |sent.messages| == |q.messages| + 1 && sent.messages[..|q.messages|] == q.messages
            && OwnRow(sent.messages[|q.messages|], q.messages, text)
            && sent.status == StreamingStatus && !sent.hasAssistant
  {
    HandleSnoc(p, events, e);
  }

  /** What a pane does with a message of its own, in every state. */
  lemma SendDecides(p: Pane, text: string, connected: bool)
    ensures var q, n := Send(p, text, connected), |p.messages|;
            if text == "" || p.status == StreamingStatus then q == p
            else
              && |q.messages| == n + (if connected then 1 else 2) && q.messages[..n] == p.messages
              && OwnRow(q.messages[n], p.messages, text)
              && (!connected ==> q.messages[n + 1].role == ErrorRow && q.messages[n + 1].text == "network error"
                                 && q.messages[n + 1].prevRole == Some(UserRow))
              && q.status == (if connected then StreamingStatus else ErrorStatus)
              && q.replaying == p.replaying && q.staggerQueue == p.staggerQueue
  {}

  // ── Busy or not ─────────────────────────────────────────────────────────────

  /** What the last event that tells says: a turn is on, or it is over. */
  function LastSign(events: seq<Event>): Option<bool> {
    if events == [] then None
    else
      var last := events[|events| - 1];
      if last.TextChunk? || last.ToolStarted? then Some(true)
      else if EndsTurn(last) then Some(false)
      else LastSign(events[..|events| - 1])
  }

  lemma HandleSnoc(p: Pane, front: seq<Event>, last: Event)
    ensures HandleAll(p, front + [last]) == Handle(HandleAll(p, front), last)
  {
    HandleAppend(p, front, [last]);
    assert [last][1..] == [];
    assert HandleAll(HandleAll(p, front), [last]) == Handle(HandleAll(p, front), last);
  }

  lemma StatusAfter(p: Pane, e: Event)
    requires p.replaying.None? && !e.Ready?
    ensures var q := Handle(p, e);
            && q.replaying.None?
            && q.status == if e.TextChunk? || e.ToolStarted? then StreamingStatus
                           else if EndsTurn(e) then ReadyStatus else p.status
  {}

  lemma UnseenAfter(p: Pane, e: Event)
    requires p.replaying.Some? && !e.Ready? && !e.ReplayEnd?
    ensures var q := Handle(p, e);
            && q.messages == p.messages && q.staggerQueue == p.staggerQueue && q.replaying.Some?
            && q.status == if EndsTurn(e) then ReadyStatus else p.status
  {}

  /**
    Outside a replay the status follows the turn: streaming after output of the model, ready after
    the end, and otherwise as before.
   */
  lemma {:induction false} StatusFollowsTurn(p: Pane, events: seq<Event>)
    requires p.replaying.None? && forall e <- events :: !e.Ready?
    ensures var q := HandleAll(p, events);
            && q.replaying.None?
            && q.status == if LastSign(events).None? then p.status
                           else if LastSign(events).value then StreamingStatus else ReadyStatus
    decreases |events|
  {
    if events != [] {
      var front, last := events[..|events| - 1], events[|events| - 1];
      StatusFollowsTurn(p, front);
      assert events == front + [last];
      HandleSnoc(p, front, last);
      StatusAfter(HandleAll(p, front), last);
    }
  }

  // ── Greetings ───────────────────────────────────────────────────────────────

  predicate NoAnchorFrom(rows: Rows, n: nat) {
    forall i :: n <= i < |rows| ==> rows[i].role !in {UserRow, BgCompleteRow, BgProgressRow, PeerMessageRow}
  }

  /** `shadow` is `rows` up to the last user, background or peer row, or all of them when there is none. */
  ghost predicate UpToAnchor(rows: Rows, shadow: Rows) {
    && shadow <= rows && NoAnchorFrom(rows, |shadow|)
    && if NoAnchorFrom(rows, 0) then shadow == rows
       else shadow != [] && shadow[|shadow| - 1].role in {UserRow, BgCompleteRow, BgProgressRow, PeerMessageRow}
  }

  lemma {:induction false} CutIsUpToAnchor(rows: Rows, n: nat)
    requires n <= |rows| && NoAnchorFrom(rows, n)
    ensures UpToAnchor(rows, AnchorCut(rows, n))
  {
    if n > 0 && !IsAnchor(rows[n - 1].role) {
      CutIsUpToAnchor(rows, n - 1);
    }
  }

  /**
    A pane is busy after a greeting if and only if a turn is on. Then nothing on screen runs and
    the shadow starts from the rows up to the last user, background or peer row; otherwise
    the rows stay and a stale shadow goes.
   */
  lemma GreetingDecides(p: Pane, resumed: bool)
    ensures var q := Handle(p, Ready(resumed));
            && (Reconcile.Busy(q) <==> resumed) && !q.hasAssistant
            && q.status == (if resumed then StreamingStatus else ReadyStatus)
            && if resumed then
                 && q.replaying.Some? && UpToAnchor(q.messages, q.replaying.value) && q.staggerQueue == []
                 && p.messages <= Merged(p) && |q.messages| == |Merged(p)|
                 && (forall i :: 0 <= i < |q.messages| ==> q.messages[i] == Merged(p)[i].(running := false))
               else q.replaying.None? && q.messages == p.messages && q.staggerQueue == p.staggerQueue
  {
    var cleaned := StopRunning(Merged(p));
    CutIsUpToAnchor(cleaned, |cleaned|);
  }

  // ── Single events ───────────────────────────────────────────────────────────

  function WithEnds(lines: seq<string>): seq<string> {
    seq(|lines|, i requires 0 <= i < |lines| => lines[i] + "\n")
  }

  function LineEvents(id: string, lines: seq<string>): seq<Event> {
    seq(|lines|, i requires 0 <= i < |lines| => ToolLine(id, lines[i]))
  }

  lemma OneMoreLine(rows: Rows, so: Rows, id: Id, front: seq<string>, last: string)
    requires |so| == |rows|
    requires forall i :: 0 <= i < |rows| ==>
      so[i] == if rows[i].id == id && front != []
               then rows[i].(output := Some(OutputSoFar(rows[i]) + Concat(WithEnds(front)))) else rows[i]
    ensures forall i :: 0 <= i < |rows| ==>
      AddLine(so, id, last)[i] ==
        if rows[i].id == id
        then rows[i].(output := Some(OutputSoFar(rows[i]) + (Concat(WithEnds(front)) + (last + "\n")))) else rows[i]
  {
    forall i | 0 <= i < |rows| && rows[i].id == id
      ensures OutputSoFar(so[i]) + last + "\n" == OutputSoFar(rows[i]) + (Concat(WithEnds(front)) + (last + "\n"))
    {
      assert front == [] ==> WithEnds(front) == [];
      Assoc(OutputSoFar(so[i]), last, "\n");
      Assoc(OutputSoFar(rows[i]), Concat(WithEnds(front)), last + "\n");
    }
  }

  /** What a tool prints is collected in its row, line by line; all other rows stay. */
  lemma {:induction false} LinesAreCollected(p: Pane, id: string, lines: seq<string>)
    ensures var rows, after := Target(p), Target(HandleAll(p, LineEvents(id, lines)));
            && |after| == |rows|
            && forall i :: 0 <= i < |rows| ==>
                 after[i] == if rows[i].id == ToolId(id) && lines != []
                             then rows[i].(output := Some(OutputSoFar(rows[i]) + Concat(WithEnds(lines)))) else rows[i]
    decreases |lines|
  {
    if lines != [] {
      var front, last := lines[..|lines| - 1], lines[|lines| - 1];
      LinesAreCollected(p, id, front);
      assert LineEvents(id, lines) == LineEvents(id, front) + [ToolLine(id, last)];
      HandleAppend(p, LineEvents(id, front), [ToolLine(id, last)]);
      var q := HandleAll(p, LineEvents(id, front));
      assert [ToolLine(id, last)][1..] == [];
      assert HandleAll(q, [ToolLine(id, last)]) == Handle(q, ToolLine(id, last));
      assert WithEnds(lines) == WithEnds(front) + [last + "\n"];
      ConcatSnoc(WithEnds(front), last + "\n");
      OneMoreLine(Target(p), Target(q), ToolId(id), front, last);
    }
  }

  /** The row of a background or peer event, and the message that stands for it in the log. */
  function Announced(e: Event): Option<(RowRole, ApiMessage)> {
    match e
    case BgCompleted(_, text) => Some((BgCompleteRow, ApiMessage(BgComplete, [Text(text)])))
    case BgProgressed(text) => Some((BgProgressRow, ApiMessage(BgProgress, [Text(text)])))
    case PeerMessaged(text) => Some((PeerMessageRow, ApiMessage(PeerMessage, [Text(text)])))
    case _ => None
  }

  /**
    A background or peer event adds one row at the end, of its own role, with the text the
    history shows for the message in the log; a task that has its row already adds none.
   */
  lemma BackgroundRowIsHistory(p: Pane, e: Event)
    requires Announced(e).Some?
    ensures var rows, after := Target(p), Target(Handle(p, e));
            var hist := History.MessageRows(Announced(e).value.1, map[]);
            if e.BgCompleted? && HasId(rows, BgId(e.taskId)) then after == rows
            else
              && |after| == |rows| + 1 && after[..|rows|] == rows && |hist| == 1
              && after[|rows|].role == Announced(e).value.0 == hist[0].role
              && after[|rows|].text == hist[0].text == e.text && !after[|rows|].running
              && (e.BgCompleted? ==> after[|rows|].id == BgId(e.taskId))
  {
    var content := [Text(e.text)];
    assert content[1..] == [];
    assert JoinedText(content) == e.text + "" == e.text;
  }

  /** While a replay rebuilds the rows, nothing on screen moves; at its end they are all there at once. */
  lemma {:induction false} ReplayIsUnseen(p: Pane, events: seq<Event>)
    requires p.replaying.Some? && forall e <- events :: !e.Ready? && !e.ReplayEnd?
    ensures var q := HandleAll(p, events);
            && q.messages == p.messages && q.staggerQueue == p.staggerQueue && q.replaying.Some?
            && (q.status == p.status || (q.status == ReadyStatus && exists e <- events :: EndsTurn(e)))
            && Handle(q, ReplayEnd) == q.(messages := q.replaying.value, replaying := None)
    decreases |events|
  {
    if events != [] {
      var front, last := events[..|events| - 1], events[|events| - 1];
      ReplayIsUnseen(p, front);
      assert events == front + [last];
      HandleSnoc(p, front, last);
      UnseenAfter(HandleAll(p, front), last);
      assert last in events && forall e <- front :: e in events;
    }
  }

  /**
    However a turn ends, the frame it sends ends the turn on the client, with the row the history
    shows for what it writes to the log; a completed turn has neither.
   */
  lemma EndRowIsHistory(status: SendMessage.Status, cost: nat)
    requires !status.Pending?
    ensures var sent, rows := TurnEvents.EndEvent(status, cost), History.LogRows(TurnScheduler.Marker(status), map[]);
            && |sent| == 1 && EndsTurn(sent[0]) && (sent[0].TurnDone? <==> status.Completed?)
            && (CostOf(sent[0]) == if status.Errored? then None else Some(cost))
            && rows == if EndRow(sent[0]).None? then []
                       else [History.TextHist(EndRow(sent[0]).value.0, EndRow(sent[0]).value.1)]
  {
    if status.Errored? {
      assert [Text(status.error)][1..] == [];
      assert JoinedText([Text(status.error)]) == status.error + "" == status.error;
    }
  }
}
