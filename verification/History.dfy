/**
  The projection of the message log into the rows of `GET /history`
  (`messages_to_history` in core/src/app.rs). The label of a tool row is the tool's name.
 */
module History {
  import opened Prelude
  import opened Conversation
  import opened ChatPanes

  datatype HistMsg = HistMsg(role: RowRole, text: string, cost: Option<nat>, output: Option<string>)

  function TextHist(role: RowRole, text: string): HistMsg {
    HistMsg(role, text, None, None)
  }

  // ── Tool outputs ────────────────────────────────────────────────────────────

  /** The tool results of a message, as (id, text), in order. */
  function AnswersIn(content: seq<Block>, n: nat): seq<(string, string)>
    requires n <= |content|
  {
    if n == 0 then []
    else AnswersIn(content, n - 1)
         + (if content[n - 1].ToolResult? then [(content[n - 1].toolUseId, FirstText(content[n - 1].content))] else [])
  }

  function MessageAnswers(m: ApiMessage): seq<(string, string)> {
    if m.role == User then AnswersIn(m.content, |m.content|) else []
  }

  /** All tool results in the user messages of a log, in order. */
  function LogAnswers(log: Log): seq<(string, string)> {
    if log == [] then [] else LogAnswers(log[..|log| - 1]) + MessageAnswers(log[|log| - 1])
  }

  /** A map filled with answers in order: the last one for an id wins. */
  function Filled(outputs: map<string, string>, answers: seq<(string, string)>): map<string, string> {
    if answers == [] then outputs
    else
      var last := answers[|answers| - 1];
      Filled(outputs, answers[..|answers| - 1])[last.0 := last.1]
  }

  function Outputs(log: Log): map<string, string> {
    Filled(map[], LogAnswers(log))
  }

  function Lookup(outputs: map<string, string>, id: string): Option<string> {
    if id in outputs then Some(outputs[id]) else None
  }

  // ── Rows ────────────────────────────────────────────────────────────────────

  function ToolRows(content: seq<Block>, n: nat, outputs: map<string, string>): seq<HistMsg>
    requires n <= |content|
  {
    if n == 0 then []
    else ToolRows(content, n - 1, outputs)
         + (if content[n - 1].ToolUse?
            then [HistMsg(ToolRow, content[n - 1].name, None, Lookup(outputs, content[n - 1].id))] else [])
  }

  function MessageRows(m: ApiMessage, outputs: map<string, string>): seq<HistMsg> {
    var text := JoinedText(m.content);
    match m.role
    case User => if text == "" then [] else [TextHist(UserRow, text)]
    case Interrupted => [TextHist(InterruptedRow, "interrupted")]
    case BgComplete => [TextHist(BgCompleteRow, text)]
    case BgProgress => [TextHist(BgProgressRow, text)]
    case PeerMessage => [TextHist(PeerMessageRow, text)]
    case Error => [TextHist(ErrorRow, text)]
    case Assistant =>
      (if text == "" then [] else [TextHist(AssistantRow, text)]) + ToolRows(m.content, |m.content|, outputs)
    case OtherRole(_) => []
  }

  function LogRows(log: Log, outputs: map<string, string>): seq<HistMsg> {
    if log == [] then [] else LogRows(log[..|log| - 1], outputs) + MessageRows(log[|log| - 1], outputs)
  }

  /** The cost goes on the last assistant row of `rows[..n]`. */
  function WithCost(rows: seq<HistMsg>, n: nat, cost: nat): seq<HistMsg>
    requires n <= |rows|
  {
    if n == 0 then rows
    else if rows[n - 1].role == AssistantRow then rows[n - 1 := rows[n - 1].(cost := Some(cost))]
    else WithCost(rows, n - 1, cost)
  }

  function HistoryRows(log: Log, lastCost: Option<nat>): seq<HistMsg> {
    var rows := LogRows(log, Outputs(log));
    if lastCost.Some? then WithCost(rows, |rows|, lastCost.value) else rows
  }

  // ── The loops of the source ─────────────────────────────────────────────────

  lemma {:induction false} FilledAppend(outputs: map<string, string>, a: seq<(string, string)>,
                                        b: seq<(string, string)>)
    ensures Filled(outputs, a + b) == Filled(Filled(outputs, a), b)
    decreases |b|
  {
    if b == [] {
      assert a + b == a;
    } else {
      assert (a + b)[..|a + b| - 1] == a + b[..|b| - 1];
      FilledAppend(outputs, a, b[..|b| - 1]);
    }
  }

  method CollectOutputs(messages: Log) returns (outputs: map<string, string>)
    ensures outputs == Outputs(messages)
  {
    outputs := map[];
    for i := 0 to |messages|
      invariant outputs == Outputs(messages[..i])
    {
      assert messages[..i + 1][..i] == messages[..i];
      FilledAppend(map[], LogAnswers(messages[..i]), MessageAnswers(messages[i]));
      if messages[i].role == User {
        outputs := CollectAnswers(outputs, messages[i].content);
      }
    }
    assert messages[..|messages|] == messages;
  }

  lemma FilledSnoc(outputs: map<string, string>, answers: seq<(string, string)>, id: string, text: string)
    ensures Filled(outputs, answers + [(id, text)]) == Filled(outputs, answers)[id := text]
  {
    assert (answers + [(id, text)])[..|answers|] == answers;
  }

  /** The tool results of one user message. */
  method CollectAnswers(start: map<string, string>, content: seq<Block>) returns (outputs: map<string, string>)
    ensures outputs == Filled(start, AnswersIn(content, |content|))
  {
    outputs := start;
    for k := 0 to |content|
      invariant outputs == Filled(start, AnswersIn(content, k))
    {
      match content[k] {
        case ToolResult(id, result) =>
          FilledSnoc(start, AnswersIn(content, k), id, FirstText(result));
          outputs := outputs[id := FirstText(result)];
        case _ =>
          assert AnswersIn(content, k) + [] == AnswersIn(content, k);
      }
    }
  }

  method MessagesToHistory(messages: Log, lastCost: Option<nat>) returns (result: seq<HistMsg>)
    ensures result == HistoryRows(messages, lastCost)
  {
    var outputs := CollectOutputs(messages);
    result := [];
    for i := 0 to |messages|
      invariant result == LogRows(messages[..i], outputs)
    {
      assert messages[..i + 1][..i] == messages[..i];
      result := PushMessage(result, messages[i], outputs);
    }
    assert messages[..|messages|] == messages;
    if lastCost.Some? {
      result := StampCost(result, lastCost.value);
    }
  }

  /** The rows of one message. */
  method PushMessage(start: seq<HistMsg>, m: ApiMessage, outputs: map<string, string>) returns (result: seq<HistMsg>)
    ensures result == start + MessageRows(m, outputs)
  {
    result := start;
    var text := JoinedText(m.content);
    match m.role {
      case User => if text != "" { result := result + [TextHist(UserRow, text)]; }
      case Interrupted => result := result + [TextHist(InterruptedRow, "interrupted")];
      case BgComplete => result := result + [TextHist(BgCompleteRow, text)];
      case BgProgress => result := result + [TextHist(BgProgressRow, text)];
      case PeerMessage => result := result + [TextHist(PeerMessageRow, text)];
      case Error => result := result + [TextHist(ErrorRow, text)];
      case Assistant =>
        ghost var front := if text == "" then [] else [TextHist(AssistantRow, text)];
        Assoc(start, front, ToolRows(m.content, |m.content|, outputs));
        if text != "" { result := result + [TextHist(AssistantRow, text)]; }
        result := PushToolRows(result, m.content, outputs);
      case OtherRole(_) =>
    }
  }

  method PushToolRows(start: seq<HistMsg>, content: seq<Block>, outputs: map<string, string>)
    returns (result: seq<HistMsg>)
    ensures result == start + ToolRows(content, |content|, outputs)
  {
    result := start;
    for k := 0 to |content|
      invariant result == start + ToolRows(content, k, outputs)
    {
      if content[k].ToolUse? {
        result := result + [HistMsg(ToolRow, content[k].name, None, Lookup(outputs, content[k].id))];
      }
    }
  }

  /** The reverse scan for the last assistant row. */
  method StampCost(rows: seq<HistMsg>, cost: nat) returns (result: seq<HistMsg>)
    ensures result == WithCost(rows, |rows|, cost)
  {
    var n: nat := |rows|;
    while n > 0
      invariant n <= |rows|
      invariant WithCost(rows, n, cost) == WithCost(rows, |rows|, cost)
    {
      if rows[n - 1].role == AssistantRow {
        return rows[n - 1 := rows[n - 1].(cost := Some(cost))];
      }
      n := n - 1;
    }
    return rows;
  }

  // ── What the projection means ───────────────────────────────────────────────

  lemma {:induction false} AnswersAppend(a: Log, b: Log)
    ensures LogAnswers(a + b) == LogAnswers(a) + LogAnswers(b)
    decreases |b|
  {
    if b == [] {
      assert a + b == a;
    } else {
      assert (a + b)[..|a + b| - 1] == a + b[..|b| - 1];
      AnswersAppend(a, b[..|b| - 1]);
    }
  }

  lemma {:induction false} LogRowsAppend(a: Log, b: Log, outputs: map<string, string>)
    ensures LogRows(a + b, outputs) == LogRows(a, outputs) + LogRows(b, outputs)
    decreases |b|
  {
    if b == [] {
      assert a + b == a;
    } else {
      var front, last := b[..|b| - 1], b[|b| - 1];
      assert (a + b)[..|a + b| - 1] == a + front && (a + b)[|a + b| - 1] == last;
      LogRowsAppend(a, front, outputs);
      Assoc(LogRows(a, outputs), LogRows(front, outputs), MessageRows(last, outputs));
    }
  }

  /** An id's output is the text of its last answer; an id without an answer has none. */
  lemma {:induction false} LastAnswerWins(answers: seq<(string, string)>, id: string)
    ensures id in Filled(map[], answers) <==> exists k :: 0 <= k < |answers| && answers[k].0 == id
    ensures forall k ::
              0 <= k < |answers| && answers[k].0 == id && (forall j :: k < j < |answers| ==> answers[j].0 != id)
              ==> id in Filled(map[], answers) && Filled(map[], answers)[id] == answers[k].1
  {
    if answers != [] {
      var n := |answers| - 1;
      LastAnswerWins(answers[..n], id);
      if answers[n].0 != id && (exists k :: 0 <= k < |answers| && answers[k].0 == id) {
        var k :| 0 <= k < |answers| && answers[k].0 == id;
        assert answers[..n][k].0 == id;
      }
    }
  }

  /** The cost goes on the last assistant row of `rows[..n]`, and nothing else changes. */
  lemma {:induction false} CostOnLastAnswer(rows: seq<HistMsg>, n: nat, cost: nat)
    requires n <= |rows|
    ensures |WithCost(rows, n, cost)| == |rows|
    ensures forall i :: 0 <= i < |rows| ==>
      WithCost(rows, n, cost)[i] ==
        if i < n && rows[i].role == AssistantRow && (forall j :: i < j < n ==> rows[j].role != AssistantRow)
        then rows[i].(cost := Some(cost)) else rows[i]
  {
    if n > 0 && rows[n - 1].role != AssistantRow {
      CostOnLastAnswer(rows, n - 1, cost);
    }
  }
}
