/** The event trace of one turn (send_message in core/src/lib.rs, spawn_turn in lair/src/agent.rs) is orderly. */
module TurnEvents {
  import opened Prelude
  import opened Conversation
  import opened SendMessage
  import opened LiveRows
  import opened ToolSchedule

  function Ids(uses: seq<Block>): (ids: seq<string>)
    requires forall b <- uses :: b.ToolUse?
    ensures |ids| == |uses| && forall k :: 0 <= k < |ids| ==> ids[k] == uses[k].id
  {
    seq(|uses|, k requires 0 <= k < |uses| => uses[k].id)
  }

  /** A model call streams text and tool announcements, and announces exactly the tools of its blocks. */
  ghost predicate Streams(call: Call) {
    && (forall e <- call.streamed :: e.TextChunk? || e.ToolStarted?)
    && (call.end.Stopped? ==> StartedIds(call.streamed) == Ids(Uses(call)))
  }

  /** The frame `spawn_turn` sends when the turn is over. */
  function EndEvent(status: Status, cost: nat): seq<Event> {
    match status
    case Completed => [TurnDone(cost)]
    case WasInterrupted => [TurnInterrupted(cost)]
    case Errored(e) => [TurnFailed(e)]
    case Pending => []
  }

  ghost predicate Unfinished(events: seq<Event>) {
    forall e <- events :: !Terminal(e)
  }

  ghost predicate Balanced(events: seq<Event>) {
    |Results(events)| == |StartedIds(events)|
  }

  /** Orderly so far, and the turn goes on. */
  ghost predicate OrderlySoFar(events: seq<Event>) {
    Orderly(events) && Unfinished(events)
  }

  lemma SeenSnoc(seen: seq<Event>, e: Event)
    ensures StartedIds(seen + [e]) == if e.ToolStarted? then StartedIds(seen) + [e.id] else StartedIds(seen)
    ensures Results(seen + [e]) == if e.ToolFinished? then Results(seen) + [e] else Results(seen)
  {
    assert (seen + [e])[..|seen + [e]| - 1] == seen;
  }

  lemma OrderlySnoc(events: seq<Event>, e: Event)
    requires OrderlySoFar(events) && InTurn(e)
    requires e.ToolLine? || e.ToolFinished? ==> IsCurrentTool(events, e.id)
    ensures Orderly(events + [e])
  {
    var more := events + [e];
    forall n | 0 <= n < |more| ensures OrderlyAt(more, n) {
      if n < |events| {
        assert OrderlyAt(events, n);
        assert more[..n] == events[..n];
        assert events[n] in events;
      } else {
        assert more[..n] == events;
      }
    }
  }

  lemma BalancedPrefix(a: seq<Event>, b: seq<Event>, id: string)
    requires Balanced(a) && IsCurrentTool(b, id)
    ensures IsCurrentTool(a + b, id)
  {
    StartedIdsAppend(a, b);
    ResultsAppend(a, b);
  }

  lemma OrderlyConcat(a: seq<Event>, b: seq<Event>)
    requires OrderlySoFar(a) && Balanced(a) && Orderly(b)
    ensures Orderly(a + b)
  {
    var ab := a + b;
    forall n | 0 <= n < |ab| ensures OrderlyAt(ab, n) {
      if n < |a| {
        assert OrderlyAt(a, n);
        assert ab[..n] == a[..n];
        assert a[n] in a;
      } else {
        assert OrderlyAt(b, n - |a|);
        assert ab[..n] == a + b[..n - |a|];
        if ab[n].ToolLine? || ab[n].ToolFinished? {
          BalancedPrefix(a, b[..n - |a|], ab[n].id);
        }
      }
    }
  }

  lemma {:induction false} StreamedIsOrderly(streamed: seq<Event>)
    requires forall e <- streamed :: e.TextChunk? || e.ToolStarted?
    ensures OrderlySoFar(streamed) && Results(streamed) == []
    decreases |streamed|
  {
    if streamed != [] {
      var front, last := streamed[..|streamed| - 1], streamed[|streamed| - 1];
      assert last in streamed;
      StreamedIsOrderly(front);
      OrderlySnoc(front, last);
      assert streamed == front + [last];
    }
  }

  lemma LineIsOrderly(seen: seq<Event>, id: string, line: string)
    requires OrderlySoFar(seen) && IsCurrentTool(seen, id)
    ensures var after := seen + [ToolLine(id, line)];
            && OrderlySoFar(after) && IsCurrentTool(after, id)
            && StartedIds(after) == StartedIds(seen) && Results(after) == Results(seen)
  {
    OrderlySnoc(seen, ToolLine(id, line));
    SeenSnoc(seen, ToolLine(id, line));
  }

  /** The tool being executed prints lines. */
  lemma {:induction false} LinesAreOrderly(seen: seq<Event>, id: string, lines: seq<string>)
    requires OrderlySoFar(seen) && IsCurrentTool(seen, id)
    ensures var after := seen + LineEvents(id, lines);
            && OrderlySoFar(after)
            && StartedIds(after) == StartedIds(seen) && Results(after) == Results(seen)
    decreases |lines|
  {
    if lines == [] {
      assert seen + [] == seen;
    } else {
      LineIsOrderly(seen, id, lines[0]);
      LinesAreOrderly(seen + [ToolLine(id, lines[0])], id, lines[1..]);
      Assoc(seen, [ToolLine(id, lines[0])], LineEvents(id, lines[1..]));
    }
  }

  lemma RunIsOrderly(seen: seq<Event>, id: string, run: ToolRun)
    requires OrderlySoFar(seen) && IsCurrentTool(seen, id)
    ensures var after := seen + RunEvents(id, run);
            && OrderlySoFar(after)
            && StartedIds(after) == StartedIds(seen) && |Results(after)| == |Results(seen)| + 1
  {
    LinesAreOrderly(seen, id, run.lines);
    var lined := seen + LineEvents(id, run.lines);
    OrderlySnoc(lined, ToolFinished(id, run.result));
    SeenSnoc(lined, ToolFinished(id, run.result));
    assert seen + RunEvents(id, run) == lined + [ToolFinished(id, run.result)];
  }

  /** A fired token stays fired: what is left of the reply's tools only acknowledges. */
  lemma {:induction false} FiredToolsSayNothing(uses: seq<Block>, k: nat, exec: Executor, cancelAt: Option<nat>,
                                                sample: nat)
    requires forall b <- uses :: b.ToolUse?
    requires k <= |uses| && Fired(cancelAt, sample)
    ensures ToolEvents(uses, k, exec, cancelAt, sample, true) == []
    decreases |uses| - k
  {
    if k < |uses| {
      FiredToolsSayNothing(uses, k + 1, exec, cancelAt, sample + 1);
    }
  }

  /** The tools of a reply run in order; if none is interrupted, each has its result at the end. */
  lemma {:induction false} ToolsAreOrderly(seen: seq<Event>, prior: nat, uses: seq<Block>, k: nat, exec: Executor,
                                           cancelAt: Option<nat>, sample: nat)
    requires forall b <- uses :: b.ToolUse?
    requires k <= |uses| && OrderlySoFar(seen)
    requires |StartedIds(seen)| == prior + |uses| && StartedIds(seen)[prior..] == Ids(uses)
    requires |Results(seen)| == prior + k
    ensures var after := seen + ToolEvents(uses, k, exec, cancelAt, sample, false);
            OrderlySoFar(after) && (Fired(cancelAt, sample + |uses| - k) || Balanced(after))
    decreases |uses| - k
  {
    var events := ToolEvents(uses, k, exec, cancelAt, sample, false);
    if k == |uses| {
      assert seen + events == seen;
    } else if Fired(cancelAt, sample) {
      FiredToolsSayNothing(uses, k + 1, exec, cancelAt, sample + 1);
      assert events == [InterruptAck];
      OrderlySnoc(seen, InterruptAck);
    } else {
      assert StartedIds(seen)[prior + k] == StartedIds(seen)[prior..][k] == uses[k].id;
      var run := exec(uses[k].id);
      RunIsOrderly(seen, uses[k].id, run);
      var after := seen + RunEvents(uses[k].id, run);
      ToolsAreOrderly(after, prior, uses, k + 1, exec, cancelAt, sample + 1);
      assert seen + events == after + ToolEvents(uses, k + 1, exec, cancelAt, sample + 1, false);
    }
  }

  lemma ExchangeIsOrderly(call: Call, exec: Executor, cancelAt: Option<nat>, sample: nat)
    requires Streams(call) && call.end.Stopped?
    ensures var events := ExchangeEvents(call, exec, cancelAt, sample);
            OrderlySoFar(events) && (Fired(cancelAt, sample + |Uses(call)|) || Balanced(events))
  {
    StreamedIsOrderly(call.streamed);
    assert StartedIds(call.streamed)[0..] == Ids(Uses(call));
    ToolsAreOrderly(call.streamed, 0, Uses(call), 0, exec, cancelAt, sample);
  }

  /** Whatever the model and the tools do, and whenever the token fires, the loop's events are orderly. */
  lemma {:induction false} LoopIsOrderly(calls: seq<Call>, n: nat, exec: Executor, cancelAt: Option<nat>, sample: nat)
    requires n <= |calls| && forall call <- calls :: Streams(call)
    ensures OrderlySoFar(Loop(calls, n, exec, cancelAt, sample).events)
    decreases |calls| - n
  {
    var out := Loop(calls, n, exec, cancelAt, sample);
    if Fired(cancelAt, sample) || n == |calls| {
      OrderlySnoc([], InterruptAck);
      assert [] + [InterruptAck] == [InterruptAck];
    } else {
      var call := calls[n];
      assert call in calls && Streams(call);
      StreamedIsOrderly(call.streamed);
      if call.end.CutShort? {
        OrderlySnoc(call.streamed, InterruptAck);
      } else if RunsTools(call) {
        var next := sample + 1 + |Uses(call)|;
        var front := ExchangeEvents(call, exec, cancelAt, sample + 1);
        var rest := Loop(calls, n + 1, exec, cancelAt, next);
        ExchangeIsOrderly(call, exec, cancelAt, sample + 1);
        LoopIsOrderly(calls, n + 1, exec, cancelAt, next);
        assert out.events == front + rest.events;
        if Fired(cancelAt, next) {
          assert rest.events == [InterruptAck];
          OrderlySnoc(front, InterruptAck);
        } else {
          OrderlyConcat(front, rest.events);
        }
      }
    }
  }

  /** All events of a turn, its end included. */
  ghost function TurnTrace(calls: seq<Call>, exec: Executor, cancelAt: Option<nat>, cost: nat): seq<Event> {
    var out := Loop(calls, 0, exec, cancelAt, 0);
    out.events + EndEvent(out.status, cost)
  }

  lemma TurnIsOrderly(calls: seq<Call>, exec: Executor, cancelAt: Option<nat>, cost: nat)
    requires forall call <- calls :: Streams(call)
    ensures Orderly(TurnTrace(calls, exec, cancelAt, cost))
  {
    var out := Loop(calls, 0, exec, cancelAt, 0);
    LoopIsOrderly(calls, 0, exec, cancelAt, 0);
    var end := EndEvent(out.status, cost);
    if end == [] {
      assert out.events + end == out.events;
    } else {
      OrderlySnoc(out.events, end[0]);
      assert out.events + end == out.events + [end[0]];
    }
  }

  /**
    Client tool scheduling follows the server, for every turn `send_message` can run: at every
    point of its event trace at most one row runs, namely the earliest announced tool without a
    result, and none after `done`, `interrupted` or `error`.
   */
  lemma ClientFollowsServer(base: seq<Row>, calls: seq<Call>, exec: Executor, cancelAt: Option<nat>, cost: nat, n: nat)
    requires forall call <- calls :: Streams(call)
    requires var trace := TurnTrace(calls, exec, cancelAt, cost);
             Distinct(StartedIds(trace)) && Quiet(base, StartedIds(trace)) && n <= |trace|
    ensures var trace := TurnTrace(calls, exec, cancelAt, cost);
            Follows(LiveFold(Live(base, false), trace[..n]).rows, trace[..n])
  {
    TurnIsOrderly(calls, exec, cancelAt, cost);
    RunningFollowsServer(base, TurnTrace(calls, exec, cancelAt, cost), n);
  }
}
