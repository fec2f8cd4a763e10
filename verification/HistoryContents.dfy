/**
  What the rows of `GET /history` say (`messages_to_history` in core/src/app.rs), read off the blocks
  of the log one by one.
 */
module HistoryContents {
  import opened Prelude
  import opened Conversation
  import opened Blocks
  import opened ChatPanes
  import opened History

  // ── The output of a call ────────────────────────────────────────────────────

  /** The last of the first `n` blocks that is a result for `id`. */
  function LastIn(content: seq<Block>, n: nat, id: string): Option<Block>
    requires n <= |content|
    ensures LastIn(content, n, id).Some? ==> LastIn(content, n, id).value.ToolResult?
  {
    if n == 0 then None
    else if content[n - 1].ToolResult? && content[n - 1].toolUseId == id then Some(content[n - 1])
    else LastIn(content, n - 1, id)
  }

  /** The last result for `id` in the user messages of a log. */
  function LastResult(log: Log, id: string): Option<Block>
    ensures LastResult(log, id).Some? ==> LastResult(log, id).value.ToolResult?
  {
    if log == [] then None
    else
      var last := log[|log| - 1];
      if last.role == User && LastIn(last.content, |last.content|, id).Some?
      then LastIn(last.content, |last.content|, id)
      else LastResult(log[..|log| - 1], id)
  }

  ghost predicate IsOutput(log: Log, id: string, output: Option<string>) {
    var result := LastResult(log, id);
    if result.None? then output.None? else output.Some? && Says(result.value, output.value)
  }

  lemma {:induction false} FilledFrom(start: map<string, string>, content: seq<Block>, n: nat, id: string)
    requires n <= |content|
    ensures var last := LastIn(content, n, id);
            Lookup(Filled(start, AnswersIn(content, n)), id)
            == if last.Some? then Some(FirstText(last.value.content)) else Lookup(start, id)
  {
    if n > 0 {
      FilledFrom(start, content, n - 1, id);
      var b := content[n - 1];
      if b.ToolResult? {
        FilledSnoc(start, AnswersIn(content, n - 1), b.toolUseId, FirstText(b.content));
      } else {
        assert AnswersIn(content, n) == AnswersIn(content, n - 1) + [] == AnswersIn(content, n - 1);
      }
    }
  }

  lemma {:induction false} OutputIsLastResult(log: Log, id: string)
    ensures Lookup(Outputs(log), id)
         == if LastResult(log, id).Some? then Some(FirstText(LastResult(log, id).value.content)) else None
  {
    if log != [] {
      var front, last := log[..|log| - 1], log[|log| - 1];
      OutputIsLastResult(front, id);
      FilledAppend(map[], LogAnswers(front), MessageAnswers(last));
      if last.role == User {
        FilledFrom(Outputs(front), last.content, |last.content|, id);
      }
    }
  }

  // ── The rows of a message ───────────────────────────────────────────────────

  /** The role of the row a message of text becomes. */
  function RowOf(role: Role): Option<RowRole> {
    match role
    case User => Some(UserRow)
    case Assistant => Some(AssistantRow)
    case Interrupted => Some(InterruptedRow)
    case Error => Some(ErrorRow)
    case BgComplete => Some(BgCompleteRow)
    case BgProgress => Some(BgProgressRow)
    case PeerMessage => Some(PeerMessageRow)
    case OtherRole(_) => None
  }

  /** What that row says; a message of the user or the assistant without text has none. */
  function TextOf(m: ApiMessage): Option<string> {
    if m.role == Interrupted then Some("interrupted")
    else if (m.role == User || m.role == Assistant) && WholeText(m.content) == "" then None
    else Some(WholeText(m.content))
  }

  /** One row for each call of an assistant message, in order, with the output it got in `log`. */
  ghost predicate ShowsCalls(log: Log, content: seq<Block>, rows: seq<HistMsg>) {
    && |rows| == Rank(content, CallKind, |content|)
    && forall k :: 0 <= k < |content| && content[k].ToolUse? ==>
         Rank(content, CallKind, k) < |rows| &&
         var row := rows[Rank(content, CallKind, k)];
         && row.role == ToolRow && row.text == content[k].name && row.cost.None?
         && IsOutput(log, content[k].id, row.output)
  }

  /** At most one row of text, and then those of the calls. */
  ghost predicate Shows(log: Log, m: ApiMessage, rows: seq<HistMsg>) {
    var said := RowOf(m.role).Some? && TextOf(m).Some?;
    && (said ==> rows != [] && rows[0] == HistMsg(RowOf(m.role).value, TextOf(m).value, None, None))
    && var calls := if said then rows[1..] else rows;
       if m.role == Assistant then ShowsCalls(log, m.content, calls) else calls == []
  }

  ghost predicate ShowsAll(log: Log, rows: seq<HistMsg>, groups: seq<seq<HistMsg>>) {
    && |groups| == |log| && rows == Flat(groups)
    && forall i :: 0 <= i < |log| ==> Shows(log, log[i], groups[i])
  }

  lemma {:induction false} ToolRowsAt(content: seq<Block>, n: nat, outputs: map<string, string>)
    requires n <= |content|
    ensures |ToolRows(content, n, outputs)| == Rank(content, CallKind, n)
    ensures forall k :: 0 <= k < n && content[k].ToolUse? ==>
      && Rank(content, CallKind, k) < |ToolRows(content, n, outputs)|
      && ToolRows(content, n, outputs)[Rank(content, CallKind, k)]
         == HistMsg(ToolRow, content[k].name, None, Lookup(outputs, content[k].id))
  {
    if n > 0 {
      ToolRowsAt(content, n - 1, outputs);
    }
  }

  lemma CallsAreShown(log: Log, content: seq<Block>)
    ensures ShowsCalls(log, content, ToolRows(content, |content|, Outputs(log)))
  {
    ToolRowsAt(content, |content|, Outputs(log));
    forall k | 0 <= k < |content| && content[k].ToolUse?
      ensures IsOutput(log, content[k].id, Lookup(Outputs(log), content[k].id))
    {
      OutputIsLastResult(log, content[k].id);
    }
  }

  lemma MessageIsShown(log: Log, m: ApiMessage)
    ensures Shows(log, m, MessageRows(m, Outputs(log)))
  {
    JoinedIsWhole(m.content);
    if m.role == Assistant {
      CallsAreShown(log, m.content);
      var tools := ToolRows(m.content, |m.content|, Outputs(log));
      assert MessageRows(m, Outputs(log)) == (if TextOf(m).None? then [] else [TextHist(AssistantRow, TextOf(m).value)])
                                             + tools;
      assert TextOf(m).Some? ==> MessageRows(m, Outputs(log))[1..] == tools;
    }
  }

  lemma {:induction false} RowsAreFlat(log: Log, outputs: map<string, string>, groups: seq<seq<HistMsg>>)
    requires |groups| == |log| && forall i :: 0 <= i < |log| ==> groups[i] == MessageRows(log[i], outputs)
    ensures LogRows(log, outputs) == Flat(groups)
  {
    if log != [] {
      RowsAreFlat(log[..|log| - 1], outputs, groups[..|log| - 1]);
    }
  }

  /**
    The history says what the log says, message by message: each role has its own row, with the
    text of the message; each call has a row with its name and the last result given for its id.
   */
  lemma HistorySaysTheLog(log: Log) returns (groups: seq<seq<HistMsg>>)
    ensures ShowsAll(log, HistoryRows(log, None), groups)
  {
    groups := seq(|log|, i requires 0 <= i < |log| => MessageRows(log[i], Outputs(log)));
    RowsAreFlat(log, Outputs(log), groups);
    forall i | 0 <= i < |log| ensures Shows(log, log[i], groups[i]) {
      MessageIsShown(log, log[i]);
    }
  }
}
