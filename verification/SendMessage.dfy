/**
  The tool loop of one turn (`send_message` in core/src/lib.rs).

  The environment of a turn is a script: the model's replies in order, what each tool run
  prints and returns, and the moment the cancel token fires. Time is counted in samples of
  the token, so a fired token stays fired. When the script is used up the turn is `Pending`,
  so every statement about all scripts is also a statement about every point of the loop.
 */
module SendMessage {
  import opened Prelude
  import opened Conversation

  /** The stop reason of a reply: `tool_use` or any other. */
  datatype StopReason = ToolUseStop | OtherStop(name: string)

  datatype CallEnd = Stopped(reason: StopReason) | CutShort | CallFailed(error: string)

  /** One model call: the assembled blocks, the events streamed live, and how the stream ended. */
  datatype Call = Call(blocks: seq<Block>, streamed: seq<Event>, end: CallEnd)

  datatype ToolRun = ToolRun(lines: seq<string>, result: string)

  type Executor = string -> ToolRun

  datatype Status = Completed | WasInterrupted | Errored(error: string) | Pending

  /** `used` counts the model calls that were made. */
  datatype Outcome = Outcome(messages: Log, events: seq<Event>, status: Status, used: nat)

  predicate Fired(cancelAt: Option<nat>, sample: nat) {
    cancelAt.Some? && cancelAt.value <= sample
  }

  function ResultBlock(id: string, text: string): Block {
    ToolResult(id, [TextPart(text)])
  }

  function LineEvents(id: string, lines: seq<string>): seq<Event> {
    if lines == [] then [] else [ToolLine(id, lines[0])] + LineEvents(id, lines[1..])
  }

  function RunEvents(id: string, run: ToolRun): seq<Event> {
    LineEvents(id, run.lines) + [ToolFinished(id, run.result)]
  }

  /** The results of the tool calls of one reply, from the `k`-th on. */
  function ToolResults(uses: seq<Block>, k: nat, exec: Executor, cancelAt: Option<nat>, sample: nat)
    : (results: seq<Block>)
    requires forall b <- uses :: b.ToolUse?
    requires k <= |uses|
    decreases |uses| - k
  {
    if k == |uses| then []
    else
      [ResultBlock(uses[k].id, if Fired(cancelAt, sample) then "interrupted" else exec(uses[k].id).result)]
      + ToolResults(uses, k + 1, exec, cancelAt, sample + 1)
  }

  /** The events of running them: an interrupt is acknowledged once. */
  function ToolEvents(uses: seq<Block>, k: nat, exec: Executor, cancelAt: Option<nat>, sample: nat, acked: bool)
    : seq<Event>
    requires forall b <- uses :: b.ToolUse?
    requires k <= |uses|
    decreases |uses| - k
  {
    if k == |uses| then []
    else if !Fired(cancelAt, sample) then
      RunEvents(uses[k].id, exec(uses[k].id)) + ToolEvents(uses, k + 1, exec, cancelAt, sample + 1, acked)
    else
      (if acked then [] else [InterruptAck]) + ToolEvents(uses, k + 1, exec, cancelAt, sample + 1, true)
  }

  lemma {:induction false} ResultsAnswer(uses: seq<Block>, k: nat, exec: Executor, cancelAt: Option<nat>, sample: nat)
    requires forall b <- uses :: b.ToolUse?
    requires k <= |uses|
    ensures Answers(uses[k..], ApiMessage(User, ToolResults(uses, k, exec, cancelAt, sample)))
    decreases |uses| - k
  {
    if k < |uses| {
      ResultsAnswer(uses, k + 1, exec, cancelAt, sample + 1);
    }
  }

  function Uses(call: Call): (uses: seq<Block>)
    ensures forall b <- uses :: b.ToolUse?
  {
    ToolUses(call.blocks)
  }

  function AssistantMessage(call: Call): ApiMessage {
    ApiMessage(Assistant, call.blocks)
  }

  /** Whether the loop goes on to run tools after this reply. */
  predicate RunsTools(call: Call) {
    call.end == Stopped(ToolUseStop) && Uses(call) != []
  }

  function Before(messages: Log, events: seq<Event>, rest: Outcome): Outcome {
    rest.(messages := messages + rest.messages, events := events + rest.events)
  }

  lemma BeforeTwice(m: Log, e: seq<Event>, m2: Log, e2: seq<Event>, rest: Outcome)
    ensures Before(m, e, Before(m2, e2, rest)) == Before(m + m2, e + e2, rest)
  {
    Assoc(m, m2, rest.messages);
    Assoc(e, e2, rest.events);
  }

  /** The messages a turn adds to its log from the `n`-th model call on, and the events it emits. */
  function Loop(calls: seq<Call>, n: nat, exec: Executor, cancelAt: Option<nat>, sample: nat): Outcome
    requires n <= |calls|
    decreases |calls| - n
  {
    if Fired(cancelAt, sample) then Outcome([], [InterruptAck], WasInterrupted, n)
    else if n == |calls| then Outcome([], [], Pending, n)
    else
      var streamed := calls[n].streamed;
      match calls[n].end
      case CutShort => Outcome([], streamed + [InterruptAck], WasInterrupted, n + 1)
      case CallFailed(e) => Outcome([], streamed, Errored(e), n + 1)
      case Stopped(_) =>
        if !RunsTools(calls[n]) then Outcome([AssistantMessage(calls[n])], streamed, Completed, n + 1)
        else
          Before(Exchange(calls[n], exec, cancelAt, sample + 1), ExchangeEvents(calls[n], exec, cancelAt, sample + 1),
                 Loop(calls, n + 1, exec, cancelAt, sample + 1 + |Uses(calls[n])|))
  }

  /** An assistant message with tool calls, and the user message that answers it. */
  function Exchange(call: Call, exec: Executor, cancelAt: Option<nat>, sample: nat): Log {
    [AssistantMessage(call), ApiMessage(User, ToolResults(Uses(call), 0, exec, cancelAt, sample))]
  }

  function ExchangeEvents(call: Call, exec: Executor, cancelAt: Option<nat>, sample: nat): seq<Event> {
    call.streamed + ToolEvents(Uses(call), 0, exec, cancelAt, sample, false)
  }

  // ── The loop as the source runs it ──────────────────────────────────────────

  function ResultAt(id: string, exec: Executor, fired: bool): Block {
    ResultBlock(id, if fired then "interrupted" else exec(id).result)
  }

  function EventsAt(id: string, exec: Executor, fired: bool, acked: bool): seq<Event> {
    if !fired then RunEvents(id, exec(id)) else if acked then [] else [InterruptAck]
  }

  lemma ToolsStep(r: seq<Block>, e: seq<Event>, uses: seq<Block>, k: nat, exec: Executor, cancelAt: Option<nat>,
                  sample: nat, acked: bool)
    requires forall b <- uses :: b.ToolUse?
    requires k < |uses|
    ensures var fired := Fired(cancelAt, sample);
            && r + ToolResults(uses, k, exec, cancelAt, sample)
               == r + [ResultAt(uses[k].id, exec, fired)] + ToolResults(uses, k + 1, exec, cancelAt, sample + 1)
            && e + ToolEvents(uses, k, exec, cancelAt, sample, acked)
               == e + EventsAt(uses[k].id, exec, fired, acked)
                  + ToolEvents(uses, k + 1, exec, cancelAt, sample + 1, acked || fired)
  {
    var fired := Fired(cancelAt, sample);
    Assoc(r, [ResultAt(uses[k].id, exec, fired)], ToolResults(uses, k + 1, exec, cancelAt, sample + 1));
    Assoc(e, EventsAt(uses[k].id, exec, fired, acked),
          ToolEvents(uses, k + 1, exec, cancelAt, sample + 1, acked || fired));
  }

  method RunTools(uses: seq<Block>, exec: Executor, cancelAt: Option<nat>, start: nat)
    returns (results: seq<Block>, events: seq<Event>, sample: nat)
    requires forall b <- uses :: b.ToolUse?
    ensures results == ToolResults(uses, 0, exec, cancelAt, start)
    ensures events == ToolEvents(uses, 0, exec, cancelAt, start, false)
    ensures sample == start + |uses|
  {
    results, events, sample := [], [], start;
    var ackSent := false;
    for k := 0 to |uses|
      invariant sample == start + k
      invariant results + ToolResults(uses, k, exec, cancelAt, sample) == ToolResults(uses, 0, exec, cancelAt, start)
      invariant events + ToolEvents(uses, k, exec, cancelAt, sample, ackSent)
             == ToolEvents(uses, 0, exec, cancelAt, start, false)
    {
      var id := uses[k].id;
      ToolsStep(results, events, uses, k, exec, cancelAt, sample, ackSent);
      ghost var step := events + EventsAt(id, exec, Fired(cancelAt, sample), ackSent);
      if Fired(cancelAt, sample) {
        if !ackSent {
          events := events + [InterruptAck];
          ackSent := true;
        }
        results := results + [ResultBlock(id, "interrupted")];
      } else {
        var run := exec(id);
        events := events + RunEvents(id, run);
        results := results + [ResultBlock(id, run.result)];
      }
      assert events == step;
      sample := sample + 1;
    }
  }

  lemma LoopStep(m: Log, e: seq<Event>, calls: seq<Call>, n: nat, exec: Executor, cancelAt: Option<nat>, sample: nat)
    requires n < |calls| && !Fired(cancelAt, sample) && RunsTools(calls[n])
    ensures var uses := Uses(calls[n]);
            Before(m, e, Loop(calls, n, exec, cancelAt, sample)) ==
            Before(m + [AssistantMessage(calls[n])]
                   + [ApiMessage(User, ToolResults(uses, 0, exec, cancelAt, sample + 1))],
                   e + calls[n].streamed + ToolEvents(uses, 0, exec, cancelAt, sample + 1, false),
                   Loop(calls, n + 1, exec, cancelAt, sample + 1 + |uses|))
  {
    var uses := Uses(calls[n]);
    var pair := Exchange(calls[n], exec, cancelAt, sample + 1);
    var ran := ToolEvents(uses, 0, exec, cancelAt, sample + 1, false);
    BeforeTwice(m, e, pair, calls[n].streamed + ran, Loop(calls, n + 1, exec, cancelAt, sample + 1 + |uses|));
    assert m + [pair[0]] + [pair[1]] == m + pair;
    Assoc(e, calls[n].streamed, ran);
  }

  /** `send_message`: grows its copy of the log and emits events until the turn stops. */
  method SendMessage(start: Log, calls: seq<Call>, exec: Executor, cancelAt: Option<nat>) returns (out: Outcome)
    ensures out == Before(start, [], Loop(calls, 0, exec, cancelAt, 0))
  {
    var messages, events := start, [];
    var sample: nat, turn: nat := 0, 0;
    ghost var whole := Before(start, [], Loop(calls, 0, exec, cancelAt, 0));
    while true
      invariant turn <= |calls|
      invariant whole == Before(messages, events, Loop(calls, turn, exec, cancelAt, sample))
      decreases |calls| - turn
    {
      if Fired(cancelAt, sample) {
        return Outcome(messages, events + [InterruptAck], WasInterrupted, turn);
      }
      if turn == |calls| {
        return Outcome(messages, events, Pending, turn);
      }
      var call := calls[turn];
      if RunsTools(call) {
        LoopStep(messages, events, calls, turn, exec, cancelAt, sample);
      }
      turn, sample := turn + 1, sample + 1;
      events := events + call.streamed;
      match call.end {
        case CutShort =>
          return Outcome(messages, events + [InterruptAck], WasInterrupted, turn);
        case CallFailed(error) =>
          return Outcome(messages, events, Errored(error), turn);
        case Stopped(reason) =>
          var toolUses := ToolUses(call.blocks);
          messages := messages + [ApiMessage(Assistant, call.blocks)];
          if reason != ToolUseStop || toolUses == [] {
            return Outcome(messages, events, Completed, turn);
          }
          var results, ran;
          results, ran, sample := RunTools(toolUses, exec, cancelAt, sample);
          events := events + ran;
          messages := messages + [ApiMessage(User, results)];
      }
    }
  }

  // ── Tool calls stay paired ──────────────────────────────────────────────────

  /** A reply whose tool calls the loop will answer. */
  predicate Answered(call: Call) {
    call.end.Stopped? && Uses(call) != [] ==> call.end.reason == ToolUseStop
  }

  lemma ExchangePaired(call: Call, exec: Executor, cancelAt: Option<nat>, sample: nat)
    ensures Paired(Exchange(call, exec, cancelAt, sample))
  {
    var pair := Exchange(call, exec, cancelAt, sample);
    ResultsAnswer(Uses(call), 0, exec, cancelAt, sample);
    assert Uses(call)[0..] == Uses(call);
    assert PairedAt(pair, 0) && PairedAt(pair, 1);
  }

  /** With a paired front, a log is paired exactly when its back is. */
  lemma PairedSuffix(front: Log, back: Log)
    requires Paired(front)
    ensures Paired(front + back) <==> Paired(back)
  {
    if Paired(back) {
      PairedConcat(front, back);
    }
    if Paired(front + back) {
      forall i | 0 <= i < |back| ensures PairedAt(back, i) {
        assert PairedAt(front + back, |front| + i);
      }
    }
  }

  /**
    At every point of the loop, with an interrupt at any sample: the messages added so far
    are paired exactly when every reply consumed so far that carries tool calls stopped for
    `tool_use`.
   */
  lemma {:induction false} LoopPairs(calls: seq<Call>, n: nat, exec: Executor, cancelAt: Option<nat>, sample: nat)
    requires n <= |calls|
    ensures var out := Loop(calls, n, exec, cancelAt, sample);
            n <= out.used <= |calls| &&
            (Paired(out.messages) <==> forall k :: n <= k < out.used ==> Answered(calls[k]))
    decreases |calls| - n
  {
    var out := Loop(calls, n, exec, cancelAt, sample);
    if n < |calls| && !Fired(cancelAt, sample) && calls[n].end.Stopped? {
      if RunsTools(calls[n]) {
        var pair := Exchange(calls[n], exec, cancelAt, sample + 1);
        var rest := Loop(calls, n + 1, exec, cancelAt, sample + 1 + |Uses(calls[n])|);
        assert out.messages == pair + rest.messages && out.used == rest.used;
        LoopPairs(calls, n + 1, exec, cancelAt, sample + 1 + |Uses(calls[n])|);
        ExchangePaired(calls[n], exec, cancelAt, sample + 1);
        PairedSuffix(pair, rest.messages);
        assert Answered(calls[n]);
      } else {
        assert out.messages == [AssistantMessage(calls[n])];
        assert PairedAt(out.messages, 0) <==> Uses(calls[n]) == [];
      }
    }
  }

  /** A turn only ever adds assistant messages and user messages with tool results. */
  lemma {:induction false} LoopRoles(calls: seq<Call>, n: nat, exec: Executor, cancelAt: Option<nat>, sample: nat)
    requires n <= |calls|
    ensures forall m <- Loop(calls, n, exec, cancelAt, sample).messages :: m.role == Assistant || m.role == User
    decreases |calls| - n
  {
    if n < |calls| && !Fired(cancelAt, sample) && RunsTools(calls[n]) {
      LoopRoles(calls, n + 1, exec, cancelAt, sample + 1 + |Uses(calls[n])|);
    }
  }
}
