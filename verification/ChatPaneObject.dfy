/** The chat pane as the client runs it: state and refs updated in place (mobile/App.tsx). */
module ChatPaneObject {
  import opened Prelude
  import opened Conversation
  import opened ChatPanes
  import opened History
  import opened Reconcile

  class ChatPane {
    var messages: Rows
    var replaying: Option<Rows>
    var streamingId: Id
    var hasAssistant: bool
    var staggerQueue: Rows
    var status: ConnStatus
    var nextUid: nat

    function State(): Pane
      reads this
    {
      Pane(messages, replaying, streamingId, hasAssistant, staggerQueue, status, nextUid)
    }

    constructor (cached: Rows)
      ensures State() == Pane(Cached(cached), None, Uid(0), false, [], Connecting, 1)
    {
      messages, replaying, streamingId, hasAssistant := Cached(cached), None, Uid(0), false;
      staggerQueue, status, nextUid := [], Connecting, 1;
    }

    /** An id no row has yet. */
    method FreshId() returns (id: Id)
      modifies this`nextUid
      ensures id == Uid(old(nextUid)) && nextUid == old(nextUid) + 1
    {
      id := Uid(nextUid);
      nextUid := nextUid + 1;
    }

    /** Where `applyMsgs` applies an update. */
    function Current(): Rows
      reads this
    {
      if replaying.Some? then replaying.value else messages
    }

    method ApplyMsgs(rows: Rows)
      modifies this`messages, this`replaying
      ensures State() == WithTarget(old(State()), rows)
    {
      if replaying.Some? {
        replaying := Some(rows);
      } else {
        messages := rows;
      }
    }

    /** A turn boundary or a tool row: what is streamed next starts a fresh row. */
    method Seal()
      modifies this`hasAssistant, this`streamingId, this`nextUid
      ensures State() == Sealed(old(State()))
    {
      hasAssistant := false;
      streamingId := FreshId();
    }

    method AppendRow(rows: Rows, role: RowRole, text: string)
      modifies this`messages, this`replaying, this`nextUid
      ensures State() == AppendFresh(old(State()), rows, role, text)
    {
      var id := FreshId();
      ApplyMsgs(AppendMsg(rows, NewRow(id, role, text)));
    }

    /** The reverse scan for the last assistant row. */
    method WithCost(rows: Rows, cost: nat) returns (r: Rows)
      ensures r == ChatPanes.StampCost(rows, |rows|, cost)
    {
      var n: nat := |rows|;
      while n > 0
        invariant n <= |rows|
        invariant ChatPanes.StampCost(rows, n, cost) == ChatPanes.StampCost(rows, |rows|, cost)
      {
        if rows[n - 1].role == AssistantRow {
          return rows[n - 1 := rows[n - 1].(cost := Some(cost))];
        }
        n := n - 1;
      }
      return rows;
    }

    /** The scan for the last anchor row. */
    method CutAtAnchor(rows: Rows) returns (r: Rows)
      ensures r == AnchorCut(rows, |rows|)
    {
      var n: nat := |rows|;
      while n > 0
        invariant n <= |rows|
        invariant AnchorCut(rows, n) == AnchorCut(rows, |rows|)
      {
        if IsAnchor(rows[n - 1].role) {
          return rows[..n];
        }
        n := n - 1;
      }
      return rows;
    }

    method OnReady(resumed: bool)
      modifies this
      ensures State() == Handle(old(State()), Ready(resumed))
    {
      status := if resumed then StreamingStatus else ReadyStatus;
      if resumed {
        var staggered := staggerQueue;
        staggerQueue := [];
        messages := StopRunning(messages + NotIn(staggered, messages));
        var anchor := CutAtAnchor(messages);
        replaying := Some(anchor);
      } else {
        replaying := None;
      }
      Seal();
    }

    method OnText(chunk: string)
      modifies this
      ensures State() == Handle(old(State()), TextChunk(chunk))
    {
      Wake();
      if !hasAssistant {
        hasAssistant := true;
        ApplyMsgs(AppendMsg(Current(), NewRow(streamingId, AssistantRow, chunk)));
      } else {
        ApplyMsgs(AddText(Current(), streamingId, chunk));
      }
    }

    /** Model output outside a replay means a turn is running. */
    method Wake()
      modifies this`status
      ensures status == if replaying.None? then StreamingStatus else old(status)
    {
      if replaying.None? && status != StreamingStatus {
        status := StreamingStatus;
      }
    }

    method OnToolUse(id: string, tool: string)
      modifies this
      ensures State() == Handle(old(State()), ToolStarted(id, tool))
    {
      Wake();
      Seal();
      var anyRunning := AnyRunning(Current());
      ApplyMsgs(AppendMsg(Current(), NewRow(ToolId(id), ToolRow, tool).(running := !anyRunning)));
    }

    /** The scan for the tool to run next, after the one at `completed`. */
    method NextQueued(rows: Rows, completed: int) returns (nextQueued: int)
      requires -1 <= completed < |rows|
      ensures nextQueued == FindQueued(rows, completed + 1)
    {
      nextQueued := -1;
      var i := completed + 1;
      while i < |rows|
        invariant completed + 1 <= i <= |rows|
        invariant FindQueued(rows, i) == FindQueued(rows, completed + 1)
      {
        if IsQueued(rows[i]) {
          return i;
        }
        i := i + 1;
      }
    }

    method OnToolResult(id: string, output: string)
      modifies this`messages, this`replaying
      ensures State() == Handle(old(State()), ToolFinished(id, output))
    {
      var rows := Current();
      var completed := FindId(rows, ToolId(id), 0);
      var nextQueued := NextQueued(rows, completed);
      ApplyMsgs(seq(|rows|, i requires 0 <= i < |rows| =>
        if i == completed then rows[i].(output := Some(output), running := false)
        else if i == nextQueued then rows[i].(running := true)
        else rows[i]));
    }

    method OnDone(cost: nat)
      modifies this
      ensures State() == Handle(old(State()), TurnDone(cost))
    {
      status := ReadyStatus;
      var rows := WithCost(StopRunning(Current()), cost);
      ApplyMsgs(rows);
      Seal();
    }

    method OnInterrupted(cost: nat)
      modifies this
      ensures State() == Handle(old(State()), TurnInterrupted(cost))
    {
      status := ReadyStatus;
      var rows := WithCost(StopRunning(Current()), cost);
      AppendRow(rows, InterruptedRow, "interrupted");
      Seal();
    }

    method OnError(message: string)
      modifies this
      ensures State() == Handle(old(State()), TurnFailed(message))
    {
      AppendRow(StopRunning(Current()), ErrorRow, message);
      status := ReadyStatus;
      Seal();
    }

    /** `handleStreamEvent` */
    method HandleStreamEvent(e: Event)
      modifies this
      ensures State() == Handle(old(State()), e)
      ensures e.TurnDone? || e.TurnInterrupted? || e.TurnFailed? ==> status == ReadyStatus && !hasAssistant
    {
      match e {
        case Ready(resumed) => OnReady(resumed);
        case ReplayEnd =>
          if replaying.Some? {
            messages := replaying.value;
            replaying := None;
          }
        case TextChunk(chunk) => OnText(chunk);
        case ToolStarted(id, tool) => OnToolUse(id, tool);
        case ToolLine(id, line) => ApplyMsgs(AddLine(Current(), ToolId(id), line));
        case ToolFinished(id, output) => OnToolResult(id, output);
        case TurnDone(cost) => OnDone(cost);
        case TurnInterrupted(cost) => OnInterrupted(cost);
        case TurnFailed(message) => OnError(message);
        case BgCompleted(taskId, text) =>
          if !HasId(Current(), BgId(taskId)) {
            ApplyMsgs(AppendMsg(Current(), NewRow(BgId(taskId), BgCompleteRow, text)));
          }
        case BgProgressed(text) => AppendRow(Current(), BgProgressRow, text);
        case PeerMessaged(text) => AppendRow(Current(), PeerMessageRow, text);
        case InterruptAck =>
        case OtherEvent =>
      }
    }

    /** The user's own message; the frame goes out when there is a connection. */
    method SendMessage(text: string, connected: bool)
      modifies this
      ensures State() == Send(old(State()), text, connected)
    {
      if text == "" || status == StreamingStatus {
        return;
      }
      var id := FreshId();
      messages := AppendMsg(messages, NewRow(id, UserRow, text));
      status := StreamingStatus;
      Seal();
      if !connected {
        id := FreshId();
        messages := AppendMsg(messages, NewRow(id, ErrorRow, "network error"));
        status := ErrorStatus;
      }
    }

    method ClearConversation()
      modifies this`messages, this`status
      ensures State() == Cleared(old(State()))
      ensures messages == [] && status == ReadyStatus
    {
      messages := [];
      status := ReadyStatus;
    }

    /** `tickHistoryStagger` */
    method TickHistoryStagger()
      modifies this`messages, this`staggerQueue
      ensures State() == Tick(old(State()))
    {
      if staggerQueue == [] {
        return;
      }
      var next := staggerQueue[0];
      staggerQueue := staggerQueue[1..];
      if !HasId(messages, next.id) {
        messages := messages + [next];
      }
    }

    /** How many rows match the server's, from the top. */
    method CommonPrefix(msgs: Rows) returns (common: nat)
      ensures common == Common(messages, msgs)
    {
      common := 0;
      while common < |messages| && common < |msgs| && SameEvent(messages[common], msgs[common])
        invariant common <= |messages| && common <= |msgs|
        invariant CommonFrom(messages, msgs, common) == Common(messages, msgs)
      {
        common := common + 1;
      }
    }

    /** A successful `loadHistory`. */
    method LoadHistory(hist: seq<HistMsg>)
      modifies this`messages, this`staggerQueue
      ensures State() == Load(old(State()), hist)
      ensures exists kept: nat :: Loads(old(State()), hist, kept, State())
    {
      LoadFields(State(), hist);
      var msgs := ServerRows(hist);
      staggerQueue := [];
      var common := CommonPrefix(msgs);
      if common == |msgs| {
        if common == |messages| || status.StreamingStatus? || replaying.Some? {
          WholePrefix(messages);
          return;
        }
        messages := messages[..common];
      } else {
        var suffix := msgs[common..];
        if |suffix| > 1 {
          staggerQueue := suffix[1..];
        }
        SuffixParts(msgs, common);
        messages := messages[..common] + [suffix[0]];
      }
    }
  }

  lemma WholePrefix(rows: Rows)
    ensures rows[..|rows|] == rows
  {}

  lemma SuffixParts(msgs: Rows, common: nat)
    requires common < |msgs|
    ensures msgs[common..][0] == msgs[common]
    ensures msgs[common + 1..] == if |msgs[common..]| > 1 then msgs[common..][1..] else []
  {}
}
