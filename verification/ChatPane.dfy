/**
  The mobile chat pane (mobile/App.tsx): the list of rows, the fold of stream events into it
  and the shadow list a replay is rebuilt into. A React state updater runs at once.
 */
module ChatPanes {
  import opened Prelude
  import opened Conversation

  datatype RowRole =
    | UserRow | AssistantRow | ToolRow | SessionRow | InterruptedRow | ErrorRow
    | BgCompleteRow | BgProgressRow | PeerMessageRow

  /** Row ids by where they come from: `uid()`, a tool call, a history index, a background task. */
  datatype Id = Uid(n: nat) | ToolId(id: string) | HistId(index: nat) | BgId(taskId: string)

  datatype Message = Message(
    id: Id,
    role: RowRole,
    text: string,
    cost: Option<nat>,
    output: Option<string>,
    running: bool,
    prevRole: Option<RowRole>)

  type Rows = seq<Message>

  function NewRow(id: Id, role: RowRole, text: string): Message {
    Message(id, role, text, None, None, false, None)
  }

  function LastRole(rows: Rows): Option<RowRole> {
    if rows == [] then None else Some(rows[|rows| - 1].role)
  }

  /** `appendMsg` */
  function AppendMsg(rows: Rows, m: Message): Rows {
    rows + [m.(prevRole := LastRole(rows))]
  }

  function StopRunning(rows: Rows): (r: Rows) {
    seq(|rows|, i requires 0 <= i < |rows| => rows[i].(running := false))
  }

  predicate HasId(rows: Rows, id: Id) {
    exists i :: 0 <= i < |rows| && rows[i].id == id
  }

  predicate AnyRunning(rows: Rows) {
    exists i :: 0 <= i < |rows| && rows[i].running
  }

  /** The chunk goes to every row with the id. */
  function AddText(rows: Rows, id: Id, chunk: string): Rows {
    seq(|rows|, i requires 0 <= i < |rows| =>
      if rows[i].id == id then rows[i].(text := rows[i].text + chunk) else rows[i])
  }

  function OutputSoFar(m: Message): string {
    if m.output.Some? then m.output.value else ""
  }

  function AddLine(rows: Rows, id: Id, line: string): Rows {
    seq(|rows|, i requires 0 <= i < |rows| =>
      if rows[i].id == id then rows[i].(output := Some(OutputSoFar(rows[i]) + line + "\n")) else rows[i])
  }

  /** The first row with the id, from `i` on; -1 when there is none. */
  function FindId(rows: Rows, id: Id, i: nat): (r: int)
    requires i <= |rows|
    ensures r == -1 || i <= r < |rows|
    decreases |rows| - i
  {
    if i == |rows| then -1 else if rows[i].id == id then i else FindId(rows, id, i + 1)
  }

  predicate IsQueued(m: Message) {
    m.role == ToolRow && !m.running && m.output.None?
  }

  /** The first queued tool row from `i` on; -1 when there is none. */
  function FindQueued(rows: Rows, i: nat): (r: int)
    requires i <= |rows|
    ensures r == -1 || i <= r < |rows|
    decreases |rows| - i
  {
    if i == |rows| then -1 else if IsQueued(rows[i]) then i else FindQueued(rows, i + 1)
  }

  /** `tool_result`: finish the tool's row and promote the next queued one. */
  function FinishTool(rows: Rows, id: Id, output: string): Rows {
    var done := FindId(rows, id, 0);
    var next := FindQueued(rows, done + 1);
    seq(|rows|, i requires 0 <= i < |rows| =>
      if i == done then rows[i].(output := Some(output), running := false)
      else if i == next then rows[i].(running := true)
      else rows[i])
  }

  /** Stamp the cost on the last assistant row of `rows[..n]`. */
  function StampCost(rows: Rows, n: nat, cost: nat): Rows
    requires n <= |rows|
  {
    if n == 0 then rows
    else if rows[n - 1].role == AssistantRow then rows[n - 1 := rows[n - 1].(cost := Some(cost))]
    else StampCost(rows, n - 1, cost)
  }

  predicate IsAnchor(role: RowRole) {
    role == UserRow || role == BgCompleteRow || role == BgProgressRow || role == PeerMessageRow
  }

  /** Everything up to and including the last anchor row of `rows[..n]`; all rows when there is none. */
  function AnchorCut(rows: Rows, n: nat): Rows
    requires n <= |rows|
  {
    if n == 0 then rows
    else if IsAnchor(rows[n - 1].role) then rows[..n]
    else AnchorCut(rows, n - 1)
  }

  /** The queued rows whose id no row on screen has. */
  function NotIn(queue: Rows, rows: Rows): Rows {
    if queue == [] then []
    else (if HasId(rows, queue[0].id) then [] else [queue[0]]) + NotIn(queue[1..], rows)
  }

  datatype ConnStatus = Connecting | ReadyStatus | StreamingStatus | ErrorStatus

  /** The state and refs `handleStreamEvent` works on. */
  datatype Pane = Pane(
    messages: Rows,
    replaying: Option<Rows>,
    streamingId: Id,
    hasAssistant: bool,
    staggerQueue: Rows,
    status: ConnStatus,
    nextUid: nat)

  /** The list an update goes to: the shadow while a replay window is open. */
  function Target(p: Pane): Rows {
    if p.replaying.Some? then p.replaying.value else p.messages
  }

  function WithTarget(p: Pane, rows: Rows): Pane {
    if p.replaying.Some? then p.(replaying := Some(rows)) else p.(messages := rows)
  }

  /** Anything streamed from here on starts a fresh assistant row. */
  function Sealed(p: Pane): Pane {
    p.(hasAssistant := false, streamingId := Uid(p.nextUid), nextUid := p.nextUid + 1)
  }

  /** Append a row under a fresh `uid()`. */
  function AppendFresh(p: Pane, rows: Rows, role: RowRole, text: string): Pane {
    WithTarget(p, AppendMsg(rows, NewRow(Uid(p.nextUid), role, text))).(nextUid := p.nextUid + 1)
  }

  /** The visible rows with the staggered ones folded in. */
  function Merged(p: Pane): Rows {
    p.messages + NotIn(p.staggerQueue, p.messages)
  }

  function OnReady(p: Pane, resumed: bool): Pane {
    var q := p.(status := if resumed then StreamingStatus else ReadyStatus);
    if resumed then
      var cleaned := StopRunning(Merged(p));
      Sealed(q.(messages := cleaned, staggerQueue := [], replaying := Some(AnchorCut(cleaned, |cleaned|))))
    else
      Sealed(q.(replaying := None))
  }

  /** `handleStreamEvent`. The history reload a `done` triggers is a step of its own. */
  function Handle(p: Pane, e: Event): Pane {
    var woken :=
      if p.replaying.None? && p.status != StreamingStatus && (e.TextChunk? || e.ToolStarted?)
      then p.(status := StreamingStatus) else p;
    match e
    case Ready(resumed) => OnReady(p, resumed)
    case ReplayEnd =>
      if p.replaying.Some? then p.(messages := p.replaying.value, replaying := None) else p
    case TextChunk(chunk) =>
      if woken.hasAssistant then WithTarget(woken, AddText(Target(woken), woken.streamingId, chunk))
      else WithTarget(woken.(hasAssistant := true),
                      AppendMsg(Target(woken), NewRow(woken.streamingId, AssistantRow, chunk)))
    case ToolStarted(id, tool) =>
      var rows := Target(woken);
      var row := NewRow(ToolId(id), ToolRow, tool).(running := !AnyRunning(rows));
      WithTarget(Sealed(woken), AppendMsg(rows, row))
    case ToolLine(id, line) => WithTarget(p, AddLine(Target(p), ToolId(id), line))
    case ToolFinished(id, output) => WithTarget(p, FinishTool(Target(p), ToolId(id), output))
    case TurnDone(cost) =>
      var stopped := StopRunning(Target(p));
      Sealed(WithTarget(p.(status := ReadyStatus), StampCost(stopped, |stopped|, cost)))
    case TurnInterrupted(cost) =>
      var stopped := StopRunning(Target(p));
      Sealed(AppendFresh(p.(status := ReadyStatus), StampCost(stopped, |stopped|, cost), InterruptedRow, "interrupted"))
    case TurnFailed(message) =>
      Sealed(AppendFresh(p.(status := ReadyStatus), StopRunning(Target(p)), ErrorRow, message))
    case BgCompleted(taskId, text) =>
      if HasId(Target(p), BgId(taskId)) then p
      else WithTarget(p, AppendMsg(Target(p), NewRow(BgId(taskId), BgCompleteRow, text)))
    case BgProgressed(text) => AppendFresh(p, Target(p), BgProgressRow, text)
    case PeerMessaged(text) => AppendFresh(p, Target(p), PeerMessageRow, text)
    case InterruptAck | OtherEvent => p
  }

  /** The client's own message, already trimmed; without an open connection an error row follows. */
  function Send(p: Pane, text: string, connected: bool): Pane {
    if text == "" || p.status == StreamingStatus then p
    else
      var row := AppendMsg(p.messages, NewRow(Uid(p.nextUid), UserRow, text));
      var sent := Sealed(p.(messages := row, status := StreamingStatus, nextUid := p.nextUid + 1));
      if connected then sent
      else
        sent.(messages := AppendMsg(sent.messages, NewRow(Uid(sent.nextUid), ErrorRow, "network error")),
              status := ErrorStatus, nextUid := sent.nextUid + 1)
  }

  /** The server has cleared the conversation. */
  function Cleared(p: Pane): Pane {
    p.(messages := [], status := ReadyStatus)
  }

  function HandleAll(p: Pane, events: seq<Event>): Pane
    decreases |events|
  {
    if events == [] then p else HandleAll(Handle(p, events[0]), events[1..])
  }

  lemma {:induction false} HandleAppend(p: Pane, a: seq<Event>, b: seq<Event>)
    ensures HandleAll(p, a + b) == HandleAll(HandleAll(p, a), b)
    decreases |a|
  {
    if a == [] {
      assert a + b == b;
    } else {
      assert (a + b)[1..] == a[1..] + b;
      HandleAppend(Handle(p, a[0]), a[1..], b);
    }
  }
}
