/** The chat messages sent to an OpenAI-compatible model (`messages_to_openai` in core/src/lib.rs). */
module OpenAiRequest {
  import opened Prelude
  import opened Conversation
  import opened SendMessage
  import opened Compaction
  import opened RequestContents

  // ── The loops of the source ─────────────────────────────────────────────────

  method PushUser(start: seq<ChatMessage>, content: seq<Block>) returns (out: seq<ChatMessage>)
    ensures out == start + OfUser(content)
  {
    out := start;
    var texts := Texts(content);
    if texts != [] {
      out := out + [ChatUser(JoinLines(texts))];
    }
    ghost var front := out;
    for k := 0 to |content|
      invariant out == front + ToolMessages(content, k)
    {
      match content[k] {
        case ToolResult(id, result) =>
          out := out + [ChatTool(id, FirstText(result))];
        case _ =>
      }
    }
    assert front == start + (if texts == [] then [] else [ChatUser(JoinLines(texts))]);
  }

  /** What one message becomes. */
  method PushMessage(start: seq<ChatMessage>, m: ApiMessage) returns (out: seq<ChatMessage>)
    ensures out == start + OfMessage(m)
  {
    out := start;
    match m.role {
      case User =>
        out := PushUser(out, m.content);
      case Assistant =>
        var text := JoinedText(m.content);
        out := out + [ChatAssistant(if text == "" then None else Some(text), CallsOf(ToolUses(m.content)))];
      case _ =>
        assert start + [] == start;
    }
  }

  lemma FromNext(out: seq<ChatMessage>, messages: Log, i: nat)
    requires i < |messages|
    ensures out + From(messages, i) == out + OfMessage(messages[i]) + From(messages, i + 1)
  {
    Assoc(out, OfMessage(messages[i]), From(messages, i + 1));
  }

  method MessagesToOpenAi(system: string, messages: Log) returns (out: seq<ChatMessage>)
    ensures out == [ChatSystem(system)] + From(messages, 0)
    ensures out[0] == ChatSystem(system) && RendersAll(messages, out[1..])
  {
    out := [ChatSystem(system)];
    for i := 0 to |messages|
      invariant out + From(messages, i) == [ChatSystem(system)] + From(messages, 0)
    {
      FromNext(out, messages, i);
      out := PushMessage(out, messages[i]);
    }
    assert out + [] == out;
    RequestSaysTheMessages(messages);
    assert out[1..] == From(messages, 0);
  }

  // ── Each call is answered once, in order ────────────────────────────────────

  function CallsIn(m: ChatMessage): seq<FunctionCall> {
    if m.ChatAssistant? then m.calls else []
  }

  predicate IsAnswer(m: ChatMessage, call: FunctionCall) {
    m.ChatTool? && m.callId == call.id
  }

  /** The answers to `calls` start at `at`, one each, in order, and no other answer follows. */
  ghost predicate AnswersAt(out: seq<ChatMessage>, at: nat, calls: seq<FunctionCall>) {
    && at + |calls| <= |out|
    && (forall k :: 0 <= k < |calls| ==> IsAnswer(out[at + k], calls[k]))
    && (at + |calls| < |out| ==> !out[at + |calls|].ChatTool?)
  }

  /** Right after a message come the answers to its calls. */
  ghost predicate AnsweredAt(out: seq<ChatMessage>, i: nat)
    requires i < |out|
  {
    out[i].ChatTool? || AnswersAt(out, i + 1, CallsIn(out[i]))
  }

  /** Every tool message belongs to a call: the request starts with none, and each call has its own. */
  ghost predicate AllAnswered(out: seq<ChatMessage>) {
    && (out != [] ==> !out[0].ChatTool?)
    && forall i :: 0 <= i < |out| ==> AnsweredAt(out, i)
  }

  lemma AnswersInFront(a: seq<ChatMessage>, b: seq<ChatMessage>, at: nat, calls: seq<FunctionCall>)
    requires AnswersAt(a, at, calls) && (b != [] ==> !b[0].ChatTool?)
    ensures AnswersAt(a + b, at, calls)
  {
    forall k | 0 <= k < |calls| ensures IsAnswer((a + b)[at + k], calls[k]) {
      assert (a + b)[at + k] == a[at + k];
    }
  }

  lemma AnswersBehind(a: seq<ChatMessage>, b: seq<ChatMessage>, at: nat, calls: seq<FunctionCall>)
    requires AnswersAt(b, at, calls)
    ensures AnswersAt(a + b, |a| + at, calls)
  {
    forall k | 0 <= k < |calls| ensures IsAnswer((a + b)[|a| + at + k], calls[k]) {
      assert (a + b)[|a| + at + k] == b[at + k];
    }
  }

  lemma AnsweredConcat(a: seq<ChatMessage>, b: seq<ChatMessage>)
    requires AllAnswered(a) && AllAnswered(b)
    ensures AllAnswered(a + b)
  {
    var out := a + b;
    forall i | 0 <= i < |out| ensures AnsweredAt(out, i) {
      if i < |a| {
        assert AnsweredAt(a, i) && out[i] == a[i];
        if !a[i].ChatTool? {
          AnswersInFront(a, b, i + 1, CallsIn(a[i]));
        }
      } else {
        assert AnsweredAt(b, i - |a|) && out[i] == b[i - |a|];
        if !out[i].ChatTool? {
          AnswersBehind(a, b, i - |a| + 1, CallsIn(out[i]));
        }
      }
    }
  }

  /** The tool results of a message are those of the calls just before it. */
  predicate ClosedAt(log: Log, i: int)
    requires 0 <= i < |log|
  {
    log[i].role == User && (exists b <- log[i].content :: b.ToolResult?) ==>
      i > 0 && log[i - 1].role == Assistant && Answers(ToolUses(log[i - 1].content), log[i])
  }

  /** No result without its call. */
  predicate Closed(log: Log) {
    forall i :: 0 <= i < |log| ==> ClosedAt(log, i)
  }

  lemma {:induction false} NoToolMessages(content: seq<Block>, n: nat)
    requires n <= |content| && forall b <- content :: !b.ToolResult?
    ensures ToolMessages(content, n) == []
  {
    if n > 0 {
      assert content[n - 1] in content;
      NoToolMessages(content, n - 1);
    }
  }

  lemma {:induction false} OnlyToolMessages(content: seq<Block>, n: nat)
    requires n <= |content| && forall b <- content :: b.ToolResult?
    ensures |ToolMessages(content, n)| == n
    ensures forall k :: 0 <= k < n ==>
      ToolMessages(content, n)[k] == ChatTool(content[k].toolUseId, FirstText(content[k].content))
  {
    if n > 0 {
      assert content[n - 1] in content;
      OnlyToolMessages(content, n - 1);
    }
  }

  lemma {:induction false} NoTexts(content: seq<Block>)
    requires forall b <- content :: b.ToolResult?
    ensures Texts(content) == []
  {
    if content != [] {
      assert content[0] in content;
      NoTexts(content[1..]);
    }
  }

  /** A message that answers nothing and calls nothing. */
  lemma PlainIsAnswered(m: ApiMessage)
    requires m.role == Assistant ==> ToolUses(m.content) == []
    requires m.role == User ==> forall b <- m.content :: !b.ToolResult?
    ensures AllAnswered(OfMessage(m))
  {
    if m.role == User {
      NoToolMessages(m.content, |m.content|);
    }
  }

  lemma PairIsAnswered(m: ApiMessage, reply: ApiMessage)
    requires m.role == Assistant && Answers(ToolUses(m.content), reply)
    ensures AllAnswered(OfMessage(m) + OfMessage(reply))
  {
    forall b | b in reply.content ensures b.ToolResult? {
      var k :| 0 <= k < |reply.content| && reply.content[k] == b;
    }
    NoTexts(reply.content);
    OnlyToolMessages(reply.content, |reply.content|);
    var out := OfMessage(m) + OfMessage(reply);
    assert |out| == 1 + |reply.content|;
    forall i | 0 <= i < |out| ensures AnsweredAt(out, i) {
    }
  }

  lemma PairThenRest(log: Log, i: nat)
    requires i + 1 < |log| && log[i].role == Assistant && Answers(ToolUses(log[i].content), log[i + 1])
    requires AllAnswered(From(log, i + 2))
    ensures AllAnswered(From(log, i))
  {
    var first, second, rest := OfMessage(log[i]), OfMessage(log[i + 1]), From(log, i + 2);
    PairIsAnswered(log[i], log[i + 1]);
    AnsweredConcat(first + second, rest);
    Assoc(first, second, rest);
    assert From(log, i) == first + From(log, i + 1) && From(log, i + 1) == second + rest;
  }

  lemma PlainThenRest(log: Log, i: nat)
    requires i < |log| && AllAnswered(From(log, i + 1))
    requires log[i].role == Assistant ==> ToolUses(log[i].content) == []
    requires log[i].role == User ==> forall b <- log[i].content :: !b.ToolResult?
    ensures AllAnswered(From(log, i))
  {
    PlainIsAnswered(log[i]);
    AnsweredConcat(OfMessage(log[i]), From(log, i + 1));
  }

  lemma {:induction false} SuffixIsAnswered(log: Log, i: nat)
    requires Paired(log) && Closed(log) && i <= |log|
    requires i < |log| && log[i].role == User ==> forall b <- log[i].content :: !b.ToolResult?
    ensures AllAnswered(From(log, i))
    decreases |log| - i
  {
    if i < |log| {
      assert PairedAt(log, i);
      if log[i].role == Assistant && ToolUses(log[i].content) != [] {
        StartsPlain(log, i + 2);
        SuffixIsAnswered(log, i + 2);
        PairThenRest(log, i);
      } else {
        StartsPlain(log, i + 1);
        SuffixIsAnswered(log, i + 1);
        PlainThenRest(log, i);
      }
    }
  }

  /** After anything but a call, no results. */
  lemma StartsPlain(log: Log, i: nat)
    requires Closed(log) && 0 < i <= |log|
    requires log[i - 1].role == Assistant ==> ToolUses(log[i - 1].content) == []
    ensures i < |log| && log[i].role == User ==> forall b <- log[i].content :: !b.ToolResult?
  {
    if i < |log| {
      assert ClosedAt(log, i);
    }
  }

  /** For a paired and closed log, every tool call of the request is answered once, in order, right after it. */
  lemma RequestIsAnswered(system: string, log: Log)
    requires Paired(log) && Closed(log)
    ensures AllAnswered([ChatSystem(system)] + From(log, 0))
  {
    if log != [] {
      assert ClosedAt(log, 0);
    }
    SuffixIsAnswered(log, 0);
    AnsweredConcat([ChatSystem(system)], From(log, 0));
  }

  // ── The logs that reach it ──────────────────────────────────────────────────

  /** A persisted-only message holds no tool results. */
  predicate TextOnly(log: Log) {
    forall m <- log :: ApiRole(m.role) != m.role ==> forall b <- m.content :: !b.ToolResult?
  }

  lemma CompactionKeepsClosed(messages: Log, keepFull: nat)
    requires Closed(messages) && TextOnly(messages)
    ensures Closed(CompactHistory(messages, keepFull))
  {
    var c := CompactHistory(messages, keepFull);
    forall i | 0 <= i < |c| && c[i].role == User && (exists b <- c[i].content :: b.ToolResult?)
      ensures i > 0 && c[i - 1].role == Assistant && Answers(ToolUses(c[i - 1].content), c[i])
    {
      CompactionIsExact(messages, keepFull, i);
      var b :| b in c[i].content && b.ToolResult?;
      var k :| 0 <= k < |c[i].content| && c[i].content[k] == b;
      assert SameKind(messages[i].content[k], c[i].content[k]);
      assert messages[i].content[k] in messages[i].content;
      assert messages[i] in messages;
      assert ClosedAt(messages, i);
      CompactionIsExact(messages, keepFull, i - 1);
      ShapeKeepsAnswer(messages[i - 1], messages[i], c[i - 1], c[i]);
    }
  }

  /** What the model is sent after compaction answers each tool call once, in order. */
  lemma CompactedRequestIsAnswered(system: string, messages: Log, keepFull: nat)
    requires Paired(messages) && Closed(messages) && TextOnly(messages)
    ensures AllAnswered([ChatSystem(system)] + From(CompactHistory(messages, keepFull), 0))
  {
    CompactionKeepsPairs(messages, keepFull);
    CompactionKeepsClosed(messages, keepFull);
    RequestIsAnswered(system, CompactHistory(messages, keepFull));
  }

  lemma ClosedConcat(a: Log, b: Log)
    requires Closed(a) && Closed(b)
    ensures Closed(a + b)
  {
    forall i | 0 <= i < |a + b| ensures ClosedAt(a + b, i) {
      if i < |a| {
        assert ClosedAt(a, i);
      } else {
        assert ClosedAt(b, i - |a|);
      }
    }
  }

  /** Whatever a turn adds to its log brings no result without its call. */
  lemma {:induction false} LoopIsClosed(calls: seq<Call>, n: nat, exec: Executor, cancelAt: Option<nat>, sample: nat)
    requires n <= |calls|
    ensures Closed(Loop(calls, n, exec, cancelAt, sample).messages)
    decreases |calls| - n
  {
    if n < |calls| && !Fired(cancelAt, sample) && RunsTools(calls[n]) {
      var uses := Uses(calls[n]);
      var pair := Exchange(calls[n], exec, cancelAt, sample + 1);
      ResultsAnswer(uses, 0, exec, cancelAt, sample + 1);
      assert uses[0..] == uses;
      assert ClosedAt(pair, 0) && ClosedAt(pair, 1);
      LoopIsClosed(calls, n + 1, exec, cancelAt, sample + 1 + |uses|);
      ClosedConcat(pair, Loop(calls, n + 1, exec, cancelAt, sample + 1 + |uses|).messages);
    }
  }

  lemma SnapshotSnoc(front: Log, last: ApiMessage)
    ensures Snapshot(front + [last]) == Snapshot(front) + (if IsMarker(last) then [] else [last])
  {
    SnapshotAppend(front, [last]);
    assert [last][1..] == [];
  }

  /** The snapshot a turn starts from keeps every result next to its call. */
  lemma {:induction false} SnapshotIsClosed(log: Log)
    requires Closed(log)
    ensures Closed(Snapshot(log))
    decreases |log|
  {
    if log != [] {
      var n := |log| - 1;
      var front, last := log[..n], log[n];
      assert log == front + [last];
      forall i | 0 <= i < n ensures ClosedAt(front, i) {
        assert ClosedAt(log, i);
      }
      SnapshotIsClosed(front);
      SnapshotSnoc(front, last);
      assert ClosedAt(log, n);
      if n > 0 {
        assert front == front[..n - 1] + [front[n - 1]];
        SnapshotSnoc(front[..n - 1], front[n - 1]);
      }
      var s := Snapshot(front);
      forall i | 0 <= i < |Snapshot(log)| ensures ClosedAt(Snapshot(log), i) {
        if i < |s| {
          assert ClosedAt(s, i);
        }
      }
    }
  }

  lemma {:induction false} SnapshotIsPart(log: Log)
    ensures forall m <- Snapshot(log) :: m in log
  {
    if log != [] {
      SnapshotIsPart(log[1..]);
    }
  }

  /** A log whose compacted request is answered. */
  ghost predicate Ready(log: Log) {
    Paired(log) && Closed(log) && TextOnly(log)
  }

  lemma SnapshotIsReady(log: Log)
    requires Ready(log)
    ensures Ready(Snapshot(log))
  {
    SnapshotKeepsPairs(log);
    SnapshotIsClosed(log);
    SnapshotIsPart(log);
  }

  /** What a turn has added at any point keeps its log ready. */
  lemma GrownIsReady(base: Log, calls: seq<Call>, exec: Executor, cancelAt: Option<nat>)
    requires Ready(base)
    requires var out := Loop(calls, 0, exec, cancelAt, 0);
             out.used <= |calls| && forall k :: 0 <= k < out.used ==> Answered(calls[k])
    ensures Ready(base + Loop(calls, 0, exec, cancelAt, 0).messages)
  {
    var added := Loop(calls, 0, exec, cancelAt, 0).messages;
    LoopPairs(calls, 0, exec, cancelAt, 0);
    LoopIsClosed(calls, 0, exec, cancelAt, 0);
    LoopRoles(calls, 0, exec, cancelAt, 0);
    PairedConcat(base, added);
    ClosedConcat(base, added);
  }

  /**
    At every point of a turn, with an interrupt anywhere: as long as every reply with tool calls
    stopped for `tool_use`, the request made from the turn's messages answers each call once.
   */
  lemma TurnRequestIsAnswered(system: string, base: Log, calls: seq<Call>, exec: Executor, cancelAt: Option<nat>,
                              keepFull: nat)
    requires Ready(base)
    requires var out := Loop(calls, 0, exec, cancelAt, 0);
             out.used <= |calls| && forall k :: 0 <= k < out.used ==> Answered(calls[k])
    ensures var messages := base + Loop(calls, 0, exec, cancelAt, 0).messages;
            AllAnswered([ChatSystem(system)] + From(CompactHistory(messages, keepFull), 0))
  {
    GrownIsReady(base, calls, exec, cancelAt);
    CompactedRequestIsAnswered(system, base + Loop(calls, 0, exec, cancelAt, 0).messages, keepFull);
  }
}
