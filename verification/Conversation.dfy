/**
  The persisted conversation log (core/src/lib.rs) and the events a turn emits.
  Tool input and tool labels are opaque strings; a cost is an opaque number.
 */
module Conversation {
  import opened Prelude

  datatype Role =
    | User | Assistant | Interrupted | Error
    | BgComplete | BgProgress | PeerMessage | OtherRole(name: string)

  /** One JSON value inside a tool result: only a `text` member is ever read. */
  datatype Part = TextPart(text: string) | OtherPart

  datatype Block =
    | Text(text: string)
    | ToolUse(id: string, name: string, input: string)
    | ToolResult(toolUseId: string, content: seq<Part>)

  datatype ApiMessage = ApiMessage(role: Role, content: seq<Block>)

  type Log = seq<ApiMessage>

  /** Server events, in the shape the client receives them. */
  datatype Event =
    | Ready(resumed: bool)
    | ReplayEnd
    | TextChunk(text: string)
    | ToolStarted(id: string, tool: string)
    | ToolLine(id: string, line: string)
    | ToolFinished(id: string, output: string)
    | TurnDone(cost: nat)
    | TurnInterrupted(cost: nat)
    | InterruptAck
    | TurnFailed(message: string)
    | BgCompleted(taskId: string, text: string)
    | BgProgressed(text: string)
    | PeerMessaged(text: string)
    | OtherEvent

  /** The text of a tool result: the `text` of its first part, or nothing. */
  function FirstText(content: seq<Part>): string {
    if content != [] && content[0].TextPart? then content[0].text else ""
  }

  /** All text blocks of a message, run together. */
  function JoinedText(content: seq<Block>): string {
    if content == [] then ""
    else (if content[0].Text? then content[0].text else "") + JoinedText(content[1..])
  }

  /** The tool-use blocks of a message, in order. */
  function ToolUses(content: seq<Block>): (uses: seq<Block>)
    ensures forall b <- uses :: b.ToolUse?
  {
    if content == [] then []
    else if content[0].ToolUse? then [content[0]] + ToolUses(content[1..])
    else ToolUses(content[1..])
  }

  lemma {:induction false} ToolUsesAppend(a: seq<Block>, b: seq<Block>)
    ensures ToolUses(a + b) == ToolUses(a) + ToolUses(b)
  {
    if a == [] {
      assert a + b == b;
    } else {
      assert (a + b)[1..] == a[1..] + b;
      ToolUsesAppend(a[1..], b);
    }
  }

  lemma {:induction false} JoinedTextAppend(a: seq<Block>, b: seq<Block>)
    ensures JoinedText(a + b) == JoinedText(a) + JoinedText(b)
  {
    if a == [] {
      assert a + b == b;
    } else {
      assert (a + b)[1..] == a[1..] + b;
      JoinedTextAppend(a[1..], b);
    }
  }

  // ── Tool calls are paired ───────────────────────────────────────────────────

  /** `reply` carries exactly the results of `uses`, same ids, same order. */
  predicate Answers(uses: seq<Block>, reply: ApiMessage)
    requires forall b <- uses :: b.ToolUse?
  {
    && reply.role == User
    && |reply.content| == |uses|
    && forall k :: 0 <= k < |uses| ==>
      reply.content[k].ToolResult? && reply.content[k].toolUseId == uses[k].id
  }

  predicate PairedAt(log: Log, i: int)
    requires 0 <= i < |log|
  {
    log[i].role == Assistant && ToolUses(log[i].content) != [] ==>
      i + 1 < |log| && Answers(ToolUses(log[i].content), log[i + 1])
  }

  /** Every assistant message with tool calls is immediately followed by their results. */
  predicate Paired(log: Log) {
    forall i :: 0 <= i < |log| ==> PairedAt(log, i)
  }

  lemma PairedConcat(a: Log, b: Log)
    requires Paired(a) && Paired(b)
    ensures Paired(a + b)
  {
    forall i | 0 <= i < |a + b| ensures PairedAt(a + b, i) {
      if i < |a| {
        assert PairedAt(a, i);
      } else {
        assert PairedAt(b, i - |a|);
      }
    }
  }

  /** A message no tool call can come from. */
  predicate Plain(m: ApiMessage) {
    m.role == Assistant ==> ToolUses(m.content) == []
  }

  lemma PairedExtend(log: Log, more: Log)
    requires Paired(log)
    requires forall m <- more :: Plain(m)
    ensures Paired(log + more)
  {
    forall i | 0 <= i < |more| ensures PairedAt(more, i) {
      assert more[i] in more;
    }
    PairedConcat(log, more);
  }

  // ── The snapshot a turn starts from ─────────────────────────────────────────

  predicate IsMarker(m: ApiMessage) {
    m.role == Interrupted || m.role == Error
  }

  /** The log without its `interrupted` and `error` rows: what the model is sent. */
  function Snapshot(log: Log): (s: Log) {
    if log == [] then []
    else if IsMarker(log[0]) then Snapshot(log[1..])
    else [log[0]] + Snapshot(log[1..])
  }

  lemma {:induction false} SnapshotKeepsPairs(log: Log)
    requires Paired(log)
    ensures Paired(Snapshot(log))
    ensures log != [] && !IsMarker(log[0]) ==> Snapshot(log) != [] && Snapshot(log)[0] == log[0]
  {
    if log != [] {
      var rest := log[1..];
      forall i | 0 <= i < |rest| ensures PairedAt(rest, i) {
        assert PairedAt(log, i + 1);
      }
      SnapshotKeepsPairs(rest);
      if !IsMarker(log[0]) {
        var s := Snapshot(log);
        assert s == [log[0]] + Snapshot(rest);
        forall i | 0 <= i < |s| ensures PairedAt(s, i) {
          if i == 0 {
            assert PairedAt(log, 0);
          } else {
            assert PairedAt(Snapshot(rest), i - 1);
          }
        }
      }
    }
  }

  lemma {:induction false} SnapshotAppend(a: Log, b: Log)
    ensures Snapshot(a + b) == Snapshot(a) + Snapshot(b)
  {
    if a == [] {
      assert a + b == b;
    } else {
      assert (a + b)[1..] == a[1..] + b;
      SnapshotAppend(a[1..], b);
    }
  }
}
