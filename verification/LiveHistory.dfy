/**
  The live view of a completed turn against `GET /history` of the log it leaves
  (core/src/lib.rs, core/src/app.rs, mobile/App.tsx).
 */
module LiveHistory {
  import opened Prelude
  import opened Conversation
  import opened SendMessage
  import opened ChatPanes
  import opened LiveRows
  import opened ToolSchedule
  import opened TurnEvents
  import opened History

  // ── What a reply streams ────────────────────────────────────────────────────

  /** The text streamed, run together. */
  function StreamedText(events: seq<Event>): string {
    if events == [] then ""
    else
      var last := events[|events| - 1];
      StreamedText(events[..|events| - 1]) + (if last.TextChunk? then last.text else "")
  }

  /** The tools announced, as (id, name). */
  function StreamedTools(events: seq<Event>): seq<(string, string)> {
    if events == [] then []
    else
      var last := events[|events| - 1];
      StreamedTools(events[..|events| - 1]) + (if last.ToolStarted? then [(last.id, last.tool)] else [])
  }

  function NamedUses(uses: seq<Block>): seq<(string, string)>
    requires forall b <- uses :: b.ToolUse?
  {
    seq(|uses|, k requires 0 <= k < |uses| => (uses[k].id, uses[k].name))
  }

  predicate IsStreamed(e: Event) {
    (e.TextChunk? && e.text != "") || e.ToolStarted?
  }

  /** The events streamed live and the blocks assembled tell of the same text and the same tools. */
  ghost predicate Assembled(call: Call) {
    && (forall e <- call.streamed :: IsStreamed(e))
    && StreamedText(call.streamed) == JoinedText(call.blocks)
    && StreamedTools(call.streamed) == NamedUses(Uses(call))
  }

  /** No text after a tool call. */
  ghost predicate TextFirst(streamed: seq<Event>) {
    forall i, j :: 0 <= i < j < |streamed| && streamed[i].ToolStarted? ==> !streamed[j].TextChunk?
  }

  lemma {:induction false} StreamedIds(events: seq<Event>)
    ensures var tools := StreamedTools(events);
            StartedIds(events) == seq(|tools|, k requires 0 <= k < |tools| => tools[k].0)
  {
    if events != [] {
      StreamedIds(events[..|events| - 1]);
    }
  }

  lemma AssembledStreams(call: Call)
    requires Assembled(call)
    ensures Streams(call)
  {
    StreamedIds(call.streamed);
    assert StartedIds(call.streamed) == Ids(Uses(call));
  }

  // ── Rows without outputs ────────────────────────────────────────────────────

  function Bare(r: Row): Row {
    r.(output := None, running := false)
  }

  function BareRows(rows: seq<Row>): (bare: seq<Row>)
    ensures |bare| == |rows| && forall i :: 0 <= i < |rows| ==> bare[i] == Bare(rows[i])
  {
    seq(|rows|, i requires 0 <= i < |rows| => Bare(rows[i]))
  }

  function ToolRowFor(tool: (string, string)): Row {
    Row(ToolRow, tool.1, Some(tool.0), None, false)
  }

  /** What an event does to rows, outputs and running marks aside. */
  function BareStep(l: Live, e: Event): Live {
    match e
    case TextChunk(_) => LiveStep(l, e)
    case ToolStarted(id, tool) => Live(l.rows + [ToolRowFor((id, tool))], false)
    case TurnDone(_) => l.(open := false)
    case _ => l
  }

  function BareFold(l: Live, events: seq<Event>): Live {
    if events == [] then l else BareStep(BareFold(l, events[..|events| - 1]), events[|events| - 1])
  }

  lemma {:induction false} BareFoldAppend(l: Live, a: seq<Event>, b: seq<Event>)
    ensures BareFold(l, a + b) == BareFold(BareFold(l, a), b)
    decreases |b|
  {
    if b == [] {
      assert a + b == a;
    } else {
      assert (a + b)[..|a + b| - 1] == a + b[..|b| - 1];
      BareFoldAppend(l, a, b[..|b| - 1]);
    }
  }

  function BareLive(l: Live): Live {
    Live(BareRows(l.rows), l.open)
  }

  lemma BareActs(l: Live, e: Event)
    requires !e.TurnInterrupted? && !e.TurnFailed?
    ensures BareLive(LiveStep(l, e)) == BareStep(BareLive(l), e)
  {
    assert BareRows(LiveStep(l, e).rows) == BareStep(BareLive(l), e).rows;
  }

  lemma {:induction false} BareFolds(l: Live, events: seq<Event>)
    requires forall e <- events :: !e.TurnInterrupted? && !e.TurnFailed?
    ensures BareLive(LiveFold(l, events)) == BareFold(BareLive(l), events)
    decreases |events|
  {
    if events != [] {
      var front, last := events[..|events| - 1], events[|events| - 1];
      assert events == front + [last] && last in events;
      BareFolds(l, front);
      LiveFoldAppend(l, front, [last]);
      assert LiveFold(LiveFold(l, front), [last]) == LiveFold(LiveStep(LiveFold(l, front), last), []);
      BareActs(LiveFold(l, front), last);
    }
  }

  /** Rows that are sealed stay as they are. */
  lemma {:induction false} SealedRowsStay(l: Live, events: seq<Event>)
    requires !l.open
    ensures var l' := BareFold(l, events);
            |l.rows| <= |l'.rows| && l'.rows[..|l.rows|] == l.rows && (l'.open ==> |l.rows| < |l'.rows|)
    decreases |events|
  {
    if events != [] {
      SealedRowsStay(l, events[..|events| - 1]);
    }
  }

  // ── The rows of one reply ───────────────────────────────────────────────────

  function ToolRowsFor(tools: seq<(string, string)>): seq<Row> {
    seq(|tools|, k requires 0 <= k < |tools| => ToolRowFor(tools[k]))
  }

  function TextRows(text: string): seq<Row> {
    if text == "" then [] else [PlainRow(AssistantRow, text)]
  }

  /** The rows the history makes of a reply: its text in one row, then its tools. */
  function ReplyRows(call: Call): seq<Row> {
    TextRows(JoinedText(call.blocks)) + ToolRowsFor(NamedUses(Uses(call)))
  }

  lemma {:induction false} ChunksFold(rows: seq<Row>, events: seq<Event>)
    requires forall e <- events :: e.TextChunk? && e.text != ""
    ensures StreamedText(events) == "" <==> events == []
    ensures StreamedTools(events) == []
    ensures BareFold(Live(rows, false), events) == Live(rows + TextRows(StreamedText(events)), events != [])
    decreases |events|
  {
    if events == [] {
      assert rows + [] == rows;
    } else {
      var front, last := events[..|events| - 1], events[|events| - 1];
      assert last in events;
      ChunksFold(rows, front);
      var text := StreamedText(front);
      if front == [] {
        assert text + last.text == last.text;
        assert rows + [] + [PlainRow(AssistantRow, last.text)] == rows + TextRows(text + last.text);
      } else {
        var open := rows + [PlainRow(AssistantRow, text)];
        var longer := PlainRow(AssistantRow, text + last.text);
        assert open[|rows| := longer] == rows + [longer];
      }
    }
  }

  lemma {:induction false} ToolsFold(l: Live, events: seq<Event>)
    requires forall e <- events :: e.ToolStarted?
    ensures StreamedText(events) == ""
    ensures BareFold(l, events) == Live(l.rows + ToolRowsFor(StreamedTools(events)), l.open && events == [])
    ensures |StreamedTools(events)| == |events|
    decreases |events|
  {
    if events != [] {
      var front, last := events[..|events| - 1], events[|events| - 1];
      assert last in events;
      ToolsFold(l, front);
      assert ToolRowsFor(StreamedTools(events))
          == ToolRowsFor(StreamedTools(front)) + [ToolRowFor((last.id, last.tool))];
    } else {
      assert l.rows + [] == l.rows;
    }
  }

  lemma {:induction false} StreamedAppend(a: seq<Event>, b: seq<Event>)
    ensures StreamedText(a + b) == StreamedText(a) + StreamedText(b)
    ensures StreamedTools(a + b) == StreamedTools(a) + StreamedTools(b)
    decreases |b|
  {
    if b == [] {
      assert a + b == a;
    } else {
      assert (a + b)[..|a + b| - 1] == a + b[..|b| - 1];
      StreamedAppend(a, b[..|b| - 1]);
    }
  }

  /** Where the first tool is announced. */
  function FirstTool(events: seq<Event>, i: nat): (k: nat)
    requires i <= |events|
    ensures i <= k <= |events|
    ensures forall j :: i <= j < k ==> !events[j].ToolStarted?
    ensures k < |events| ==> events[k].ToolStarted?
    decreases |events| - i
  {
    if i == |events| || events[i].ToolStarted? then i else FirstTool(events, i + 1)
  }

  /** A reply with its text first streams exactly the rows the history makes of it. */
  lemma TextFirstReply(rows: seq<Row>, call: Call)
    requires Assembled(call) && TextFirst(call.streamed)
    ensures BareFold(Live(rows, false), call.streamed).rows == rows + ReplyRows(call)
    ensures Uses(call) != [] ==> !BareFold(Live(rows, false), call.streamed).open
  {
    var s := call.streamed;
    var k := FirstTool(s, 0);
    var chunks, tools := s[..k], s[k..];
    assert s == chunks + tools;
    forall e | e in chunks ensures e.TextChunk? && e.text != "" {
      var i :| 0 <= i < k && s[i] == e;
      assert IsStreamed(s[i]);
    }
    forall e | e in tools ensures e.ToolStarted? {
      var i :| 0 <= i < |tools| && tools[i] == e;
      assert IsStreamed(s[k + i]);
      if i > 0 {
        assert s[k].ToolStarted? && !s[k + i].TextChunk?;
      }
    }
    StreamedAppend(chunks, tools);
    BareFoldAppend(Live(rows, false), chunks, tools);
    ChunksFold(rows, chunks);
    var l := BareFold(Live(rows, false), chunks);
    ToolsFold(l, tools);
    assert StreamedText(s) == StreamedText(chunks) + "" == StreamedText(chunks);
    assert StreamedTools(s) == [] + StreamedTools(tools) == StreamedTools(tools);
    Assoc(rows, TextRows(StreamedText(s)), ToolRowsFor(StreamedTools(s)));
  }

  /** Role and text of a row. */
  predicate SameFace(a: Row, b: Row) {
    a.role == b.role && a.text == b.text
  }

  /** Text after a tool: the whole text is longer than what precedes the first tool. */
  lemma LateTextIsLonger(s: seq<Event>, k: nat, j: nat)
    requires k <= j < |s| && s[j].TextChunk? && s[j].text != ""
    ensures |StreamedText(s[..k])| < |StreamedText(s)|
  {
    assert s == s[..k] + (s[k..j] + ([s[j]] + s[j + 1..]));
    StreamedAppend(s[..k], s[k..j] + ([s[j]] + s[j + 1..]));
    StreamedAppend(s[k..j], [s[j]] + s[j + 1..]);
    StreamedAppend([s[j]], s[j + 1..]);
    assert [s[j]][..0] == [];
    assert StreamedText([s[j]]) == "" + s[j].text;
  }

  /** With text after a tool, the first row of the reply already shows something else. */
  lemma LateTextReply(rows: seq<Row>, call: Call, rest: seq<Event>)
    requires Assembled(call) && !TextFirst(call.streamed)
    ensures var shown := BareFold(Live(rows, false), call.streamed + rest).rows;
            |shown| > |rows| && ReplyRows(call) != [] && !SameFace(shown[|rows|], ReplyRows(call)[0])
  {
    var s := call.streamed;
    var i, j :| 0 <= i < j < |s| && s[i].ToolStarted? && s[j].TextChunk?;
    var k := FirstTool(s, 0);
    assert k <= i;
    assert IsStreamed(s[j]);
    LateTextIsLonger(s, k, j);
    forall e | e in s[..k] ensures e.TextChunk? && e.text != "" {
      var n :| 0 <= n < k && s[n] == e;
      assert IsStreamed(s[n]);
    }
    ChunksFold(rows, s[..k]);
    FirstRowSealed(rows, s, k, rest);
  }

  /** The rows shown once the first tool is announced: text so far, then the tool. */
  lemma FirstRowSealed(rows: seq<Row>, s: seq<Event>, k: nat, rest: seq<Event>)
    requires k < |s| && s[k].ToolStarted?
    requires BareFold(Live(rows, false), s[..k]).rows == rows + TextRows(StreamedText(s[..k]))
    ensures var shown := BareFold(Live(rows, false), s + rest).rows;
            |shown| > |rows| &&
            shown[|rows|] == (TextRows(StreamedText(s[..k])) + [ToolRowFor((s[k].id, s[k].tool))])[0]
  {
    var start := Live(rows, false);
    var l := BareFold(start, s[..k]);
    assert s[..k + 1][..k] == s[..k];
    var sealed := BareFold(start, s[..k + 1]);
    assert sealed == Live(l.rows + [ToolRowFor((s[k].id, s[k].tool))], false);
    assert s + rest == s[..k + 1] + (s[k + 1..] + rest);
    BareFoldAppend(start, s[..k + 1], s[k + 1..] + rest);
    SealedRowsStay(sealed, s[k + 1..] + rest);
    var shown := BareFold(start, s + rest).rows;
    assert shown[..|sealed.rows|][|rows|] == sealed.rows[|rows|];
  }

  // ── The rows of the whole turn ──────────────────────────────────────────────

  /** The rows the history makes of the replies from `n` up to `m`. */
  function CallRows(calls: seq<Call>, n: nat, m: nat): seq<Row>
    requires n <= m <= |calls|
    decreases m - n
  {
    if n == m then [] else ReplyRows(calls[n]) + CallRows(calls, n + 1, m)
  }

  /** Events that leave roles, texts and tools alone. */
  predicate Faceless(e: Event) {
    e.ToolLine? || e.ToolFinished? || e.InterruptAck?
  }

  lemma {:induction false} FacelessFold(l: Live, events: seq<Event>)
    requires forall e <- events :: Faceless(e)
    ensures BareFold(l, events) == l
  {
    if events != [] {
      assert events[|events| - 1] in events;
      FacelessFold(l, events[..|events| - 1]);
    }
  }

  lemma {:induction false} LinesFaceless(id: string, lines: seq<string>)
    ensures forall e <- LineEvents(id, lines) :: Faceless(e)
  {
    if lines != [] {
      LinesFaceless(id, lines[1..]);
    }
  }

  lemma {:induction false} ToolEventsFaceless(uses: seq<Block>, k: nat, exec: Executor, cancelAt: Option<nat>,
                                              sample: nat, acked: bool)
    requires forall b <- uses :: b.ToolUse?
    requires k <= |uses|
    ensures forall e <- ToolEvents(uses, k, exec, cancelAt, sample, acked) :: Faceless(e)
    decreases |uses| - k
  {
    if k < |uses| {
      LinesFaceless(uses[k].id, exec(uses[k].id).lines);
      ToolEventsFaceless(uses, k + 1, exec, cancelAt, sample + 1, acked || Fired(cancelAt, sample));
    }
  }

  /** A completed loop made its last call, or goes on after an exchange. */
  lemma CompletedLoop(calls: seq<Call>, n: nat, exec: Executor, cancelAt: Option<nat>, sample: nat)
    requires n <= |calls| && Loop(calls, n, exec, cancelAt, sample).status.Completed?
    ensures n < |calls| && !Fired(cancelAt, sample)
    ensures var out := Loop(calls, n, exec, cancelAt, sample);
            if RunsTools(calls[n]) then
              var rest := Loop(calls, n + 1, exec, cancelAt, sample + 1 + |Uses(calls[n])|);
              && rest.status.Completed? && out.used == rest.used
              && out.messages == Exchange(calls[n], exec, cancelAt, sample + 1) + rest.messages
              && out.events == ExchangeEvents(calls[n], exec, cancelAt, sample + 1) + rest.events
            else out == Outcome([AssistantMessage(calls[n])], calls[n].streamed, Completed, n + 1)
  {}

  lemma ExchangeShows(rows: seq<Row>, call: Call, exec: Executor, cancelAt: Option<nat>, sample: nat, rest: seq<Event>)
    requires Assembled(call) && TextFirst(call.streamed) && Uses(call) != []
    ensures BareFold(Live(rows, false), ExchangeEvents(call, exec, cancelAt, sample) + rest)
         == BareFold(Live(rows + ReplyRows(call), false), rest)
  {
    var start := Live(rows, false);
    var ran := ToolEvents(Uses(call), 0, exec, cancelAt, sample, false);
    TextFirstReply(rows, call);
    BareFoldAppend(start, call.streamed + ran, rest);
    BareFoldAppend(start, call.streamed, ran);
    ToolEventsFaceless(Uses(call), 0, exec, cancelAt, sample, false);
    FacelessFold(BareFold(start, call.streamed), ran);
  }

  /** With all texts first, the replies' rows are shown. */
  ghost predicate ShowsCalls(rows: seq<Row>, calls: seq<Call>, n: nat, out: Outcome) {
    n <= out.used <= |calls| &&
    ((forall k :: n <= k < out.used ==> TextFirst(calls[k].streamed)) ==>
      BareFold(Live(rows, false), out.events).rows == rows + CallRows(calls, n, out.used))
  }

  lemma ShowsLastCall(rows: seq<Row>, calls: seq<Call>, n: nat, out: Outcome)
    requires n < |calls| && Assembled(calls[n]) && out.used == n + 1 && out.events == calls[n].streamed
    ensures ShowsCalls(rows, calls, n, out)
  {
    assert CallRows(calls, n, n + 1) == ReplyRows(calls[n]) + [] == ReplyRows(calls[n]);
    if TextFirst(calls[n].streamed) {
      TextFirstReply(rows, calls[n]);
    }
  }

  lemma ShowsMoreCalls(rows: seq<Row>, calls: seq<Call>, n: nat, out: Outcome, later: Outcome, exec: Executor,
                       cancelAt: Option<nat>, sample: nat)
    requires n < |calls| && Assembled(calls[n]) && Uses(calls[n]) != []
    requires ShowsCalls(rows + ReplyRows(calls[n]), calls, n + 1, later)
    requires out.used == later.used && out.events == ExchangeEvents(calls[n], exec, cancelAt, sample) + later.events
    ensures ShowsCalls(rows, calls, n, out)
  {
    if forall k :: n <= k < out.used ==> TextFirst(calls[k].streamed) {
      ExchangeShows(rows, calls[n], exec, cancelAt, sample, later.events);
      Assoc(rows, ReplyRows(calls[n]), CallRows(calls, n + 1, out.used));
    }
  }

  /** What a turn still to come shows: the replies' rows, if all have their text first. */
  lemma {:induction false} LoopShows(rows: seq<Row>, calls: seq<Call>, n: nat, exec: Executor, cancelAt: Option<nat>,
                                     sample: nat)
    requires n <= |calls| && forall call <- calls :: Assembled(call)
    requires Loop(calls, n, exec, cancelAt, sample).status.Completed?
    ensures ShowsCalls(rows, calls, n, Loop(calls, n, exec, cancelAt, sample))
    decreases |calls| - n
  {
    CompletedLoop(calls, n, exec, cancelAt, sample);
    var out := Loop(calls, n, exec, cancelAt, sample);
    assert Assembled(calls[n]);
    if !RunsTools(calls[n]) {
      ShowsLastCall(rows, calls, n, out);
    } else {
      var next := sample + 1 + |Uses(calls[n])|;
      LoopShows(rows + ReplyRows(calls[n]), calls, n + 1, exec, cancelAt, next);
      ShowsMoreCalls(rows, calls, n, out, Loop(calls, n + 1, exec, cancelAt, next), exec, cancelAt, sample + 1);
    }
  }

  /** Row `i` of what is shown is not that row of the history. */
  ghost predicate ShowsOtherAt(rows: seq<Row>, calls: seq<Call>, n: nat, out: Outcome, rest: seq<Event>, i: nat) {
    n <= out.used <= |calls| &&
    var shown := BareFold(Live(rows, false), out.events + rest).rows;
    var history := rows + CallRows(calls, n, out.used);
    i < |shown| && i < |history| && !SameFace(shown[i], history[i])
  }

  lemma ShowsOtherLater(rows: seq<Row>, calls: seq<Call>, n: nat, out: Outcome, later: Outcome, exec: Executor,
                        cancelAt: Option<nat>, sample: nat, rest: seq<Event>, i: nat)
    requires n < |calls| && Assembled(calls[n]) && TextFirst(calls[n].streamed) && Uses(calls[n]) != []
    requires ShowsOtherAt(rows + ReplyRows(calls[n]), calls, n + 1, later, rest, i)
    requires out.used == later.used && out.events == ExchangeEvents(calls[n], exec, cancelAt, sample) + later.events
    ensures ShowsOtherAt(rows, calls, n, out, rest, i)
  {
    ExchangeShows(rows, calls[n], exec, cancelAt, sample, later.events + rest);
    Assoc(ExchangeEvents(calls[n], exec, cancelAt, sample), later.events, rest);
    Assoc(rows, ReplyRows(calls[n]), CallRows(calls, n + 1, out.used));
  }

  lemma ShowsOtherHere(rows: seq<Row>, calls: seq<Call>, n: nat, out: Outcome, more: seq<Event>, rest: seq<Event>)
    requires n < out.used <= |calls| && Assembled(calls[n]) && !TextFirst(calls[n].streamed)
    requires out.events == calls[n].streamed + more
    ensures ShowsOtherAt(rows, calls, n, out, rest, |rows|)
  {
    Assoc(calls[n].streamed, more, rest);
    LateTextReply(rows, calls[n], more + rest);
    assert (rows + CallRows(calls, n, out.used))[|rows|] == ReplyRows(calls[n])[0];
  }

  /** A reply with text after a tool spoils the turn at its own first row. */
  lemma {:induction false} LoopShowsOther(rows: seq<Row>, calls: seq<Call>, n: nat, bad: nat, exec: Executor,
                                          cancelAt: Option<nat>, sample: nat, rest: seq<Event>) returns (i: nat)
    requires n <= |calls| && forall call <- calls :: Assembled(call)
    requires Loop(calls, n, exec, cancelAt, sample).status.Completed?
    requires n <= bad < Loop(calls, n, exec, cancelAt, sample).used <= |calls| && !TextFirst(calls[bad].streamed)
    ensures ShowsOtherAt(rows, calls, n, Loop(calls, n, exec, cancelAt, sample), rest, i)
    decreases |calls| - n
  {
    CompletedLoop(calls, n, exec, cancelAt, sample);
    var out := Loop(calls, n, exec, cancelAt, sample);
    var call := calls[n];
    assert Assembled(call);
    if RunsTools(call) {
      var next := sample + 1 + |Uses(call)|;
      var later := Loop(calls, n + 1, exec, cancelAt, next);
      if TextFirst(call.streamed) {
        i := LoopShowsOther(rows + ReplyRows(call), calls, n + 1, bad, exec, cancelAt, next, rest);
        ShowsOtherLater(rows, calls, n, out, later, exec, cancelAt, sample + 1, rest, i);
      } else {
        i := |rows|;
        var ran := ToolEvents(Uses(call), 0, exec, cancelAt, sample + 1, false);
        Assoc(call.streamed, ran, later.events);
        ShowsOtherHere(rows, calls, n, out, ran + later.events, rest);
      }
    } else {
      i := |rows|;
      assert call.streamed + [] == call.streamed;
      ShowsOtherHere(rows, calls, n, out, [], rest);
    }
  }
}
