/** What a turn adds to its log and tells its listeners, reply by reply (`send_message` in core/src/lib.rs). */
module TurnContents {
  import opened Prelude
  import opened Conversation
  import opened SendMessage

  // ── The tools of one reply ──────────────────────────────────────────────────

  /** How many of `count` tools run before the token fires, the first being asked at `sample`. */
  function Ran(count: nat, cancelAt: Option<nat>, sample: nat): nat {
    if cancelAt.None? || cancelAt.value >= sample + count then count
    else if cancelAt.value <= sample then 0
    else cancelAt.value - sample
  }

  /** One result for each call: from the first fired sample on it reads "interrupted". */
  ghost predicate Results(uses: seq<Block>, exec: Executor, cancelAt: Option<nat>, sample: nat, results: seq<Block>)
    requires forall b <- uses :: b.ToolUse?
  {
    && |results| == |uses|
    && forall j: nat :: j < |uses| ==>
         var text := if j < Ran(|uses|, cancelAt, sample) then exec(uses[j].id).result else "interrupted";
         results[j] == ToolResult(uses[j].id, [TextPart(text)])
  }

  function Shown(id: string, run: ToolRun): seq<Event> {
    seq(|run.lines|, i requires 0 <= i < |run.lines| => ToolLine(id, run.lines[i])) + [ToolFinished(id, run.result)]
  }

  /** What the tools that run show, one after the other. */
  function Runs(uses: seq<Block>, exec: Executor, n: nat): seq<seq<Event>>
    requires n <= |uses| && forall b <- uses :: b.ToolUse?
  {
    seq(n, j requires 0 <= j < n => Shown(uses[j].id, exec(uses[j].id)))
  }

  lemma {:induction false} ResultsFrom(uses: seq<Block>, k: nat, exec: Executor, cancelAt: Option<nat>, sample: nat)
    requires k <= |uses| && forall b <- uses :: b.ToolUse?
    ensures Results(uses[k..], exec, cancelAt, sample, ToolResults(uses, k, exec, cancelAt, sample))
    decreases |uses| - k
  {
    if k < |uses| {
      ResultsFrom(uses, k + 1, exec, cancelAt, sample + 1);
      assert uses[k..][1..] == uses[k + 1..];
      var results := ToolResults(uses, k, exec, cancelAt, sample);
      forall j: nat | 0 < j < |uses[k..]|
        ensures results[j] == ToolResults(uses, k + 1, exec, cancelAt, sample + 1)[j - 1]
        ensures uses[k..][j] == uses[k + 1..][j - 1]
      {}
    }
  }

  lemma {:induction false} LinesAreShown(id: string, lines: seq<string>)
    ensures LineEvents(id, lines) == seq(|lines|, i requires 0 <= i < |lines| => ToolLine(id, lines[i]))
  {
    if lines != [] {
      LinesAreShown(id, lines[1..]);
    }
  }

  lemma {:induction false} NoEventsAfterFiring(
    uses: seq<Block>, k: nat, exec: Executor, cancelAt: Option<nat>, sample: nat, acked: bool)
    requires k <= |uses| && (forall b <- uses :: b.ToolUse?) && Fired(cancelAt, sample)
    ensures ToolEvents(uses, k, exec, cancelAt, sample, acked) == if acked || k == |uses| then [] else [InterruptAck]
    decreases |uses| - k
  {
    if k < |uses| {
      NoEventsAfterFiring(uses, k + 1, exec, cancelAt, sample + 1, true);
    }
  }

  /** Runs until the token fires, then one acknowledgement. */
  ghost function Told(uses: seq<Block>, exec: Executor, cancelAt: Option<nat>, sample: nat): seq<Event>
    requires forall b <- uses :: b.ToolUse?
  {
    var ran := Ran(|uses|, cancelAt, sample);
    Flat(Runs(uses, exec, ran)) + if ran < |uses| then [InterruptAck] else []
  }

  lemma RunsCons(first: Block, more: seq<Block>, exec: Executor, n: nat)
    requires first.ToolUse? && (forall b <- more :: b.ToolUse?) && n <= |more|
    ensures Runs([first] + more, exec, n + 1) == [Shown(first.id, exec(first.id))] + Runs(more, exec, n)
  {
    var all, runs := [first] + more, Runs([first] + more, exec, n + 1);
    forall j: nat | j < n ensures runs[j + 1] == Runs(more, exec, n)[j] {
      assert all[j + 1] == more[j];
    }
  }

  lemma ToldNext(first: Block, more: seq<Block>, exec: Executor, cancelAt: Option<nat>, sample: nat)
    requires first.ToolUse? && (forall b <- more :: b.ToolUse?) && !Fired(cancelAt, sample)
    ensures Told([first] + more, exec, cancelAt, sample)
         == RunEvents(first.id, exec(first.id)) + Told(more, exec, cancelAt, sample + 1)
  {
    var ran := Ran(|more|, cancelAt, sample + 1);
    var run := RunEvents(first.id, exec(first.id));
    LinesAreShown(first.id, exec(first.id).lines);
    assert run == Shown(first.id, exec(first.id));
    assert Ran(|[first] + more|, cancelAt, sample) == ran + 1;
    RunsCons(first, more, exec, ran);
    FlatCons(run, Runs(more, exec, ran));
    Assoc(run, Flat(Runs(more, exec, ran)), if ran < |more| then [InterruptAck] else []);
  }

  /** The events of the tools from the `k`-th on. */
  lemma {:induction false} EventsFrom(uses: seq<Block>, k: nat, exec: Executor, cancelAt: Option<nat>, sample: nat)
    requires k <= |uses| && forall b <- uses :: b.ToolUse?
    ensures ToolEvents(uses, k, exec, cancelAt, sample, false) == Told(uses[k..], exec, cancelAt, sample)
    decreases |uses| - k
  {
    if Fired(cancelAt, sample) {
      NoEventsAfterFiring(uses, k, exec, cancelAt, sample, false);
      assert Runs(uses[k..], exec, 0) == [];
    } else if k < |uses| {
      EventsFrom(uses, k + 1, exec, cancelAt, sample + 1);
      assert uses[k..] == [uses[k]] + uses[k + 1..];
      ToldNext(uses[k], uses[k + 1..], exec, cancelAt, sample);
    } else {
      assert Runs(uses[k..], exec, 0) == [];
    }
  }

  // ── One reply ───────────────────────────────────────────────────────────────

  /** What a reply adds to the log; `sample` is when its first tool is asked for. */
  ghost predicate Adds(call: Call, exec: Executor, cancelAt: Option<nat>, sample: nat, added: Log) {
    if !call.end.Stopped? then added == []
    else
      && added != [] && added[0] == ApiMessage(Assistant, call.blocks)
      && if call.end.reason.ToolUseStop? && ToolUses(call.blocks) != [] then
           && |added| == 2 && added[1].role == User
           && Results(ToolUses(call.blocks), exec, cancelAt, sample, added[1].content)
         else |added| == 1
  }

  /** What it shows: what was streamed, the runs of its tools, and an acknowledgement if it was interrupted. */
  ghost predicate Tells(call: Call, exec: Executor, cancelAt: Option<nat>, sample: nat, events: seq<Event>) {
    var uses := ToolUses(call.blocks);
    match call.end
    case CutShort => events == call.streamed + [InterruptAck]
    case CallFailed(_) => events == call.streamed
    case Stopped(reason) =>
      events == call.streamed + if reason.ToolUseStop? then Told(uses, exec, cancelAt, sample) else []
  }

  lemma ReplyAddsAndTells(call: Call, exec: Executor, cancelAt: Option<nat>, sample: nat)
    requires RunsTools(call)
    ensures Adds(call, exec, cancelAt, sample, Exchange(call, exec, cancelAt, sample))
    ensures Tells(call, exec, cancelAt, sample, ExchangeEvents(call, exec, cancelAt, sample))
  {
    var uses := Uses(call);
    assert uses[0..] == uses;
    ResultsFrom(uses, 0, exec, cancelAt, sample);
    EventsFrom(uses, 0, exec, cancelAt, sample);
  }

  // ── The whole turn ──────────────────────────────────────────────────────────

  /** When the token is read before the `k`-th reply: once for each reply and each tool before. */
  function SampleAt(calls: seq<Call>, n: nat, k: nat, sample: nat): nat
    requires n <= k <= |calls|
    decreases k
  {
    if k == n then sample else SampleAt(calls, n, k - 1, sample) + 1 + |ToolUses(calls[k - 1].blocks)|
  }

  lemma {:induction false} SampleFromNext(calls: seq<Call>, n: nat, k: nat, sample: nat)
    requires n < k <= |calls|
    ensures SampleAt(calls, n, k, sample) == SampleAt(calls, n + 1, k, sample + 1 + |ToolUses(calls[n].blocks)|)
    decreases k
  {
    if k > n + 1 {
      SampleFromNext(calls, n, k - 1, sample);
    }
  }

  /** The loop went on after the `k`-th reply. */
  predicate GoesOn(call: Call) {
    call.end.Stopped? && call.end.reason.ToolUseStop? && ToolUses(call.blocks) != []
  }

  /** The reply read at sample `at`: it was asked for in time, and added and told what it should. */
  ghost predicate ReplyAt(
    call: Call, exec: Executor, cancelAt: Option<nat>, at: nat, last: bool, added: Log, told: seq<Event>)
  {
    && !Fired(cancelAt, at) && (!last ==> GoesOn(call))
    && Adds(call, exec, cancelAt, at + 1, added) && Tells(call, exec, cancelAt, at + 1, told)
  }

  ghost predicate Accounted(
    calls: seq<Call>, n: nat, exec: Executor, cancelAt: Option<nat>, sample: nat, used: nat,
    added: seq<Log>, told: seq<seq<Event>>, k: nat)
    requires n <= k < used <= |calls| && |added| == |told| == used - n
  {
    ReplyAt(calls[k], exec, cancelAt, SampleAt(calls, n, k, sample), k + 1 == used, added[k - n], told[k - n])
  }

  ghost predicate AllAccounted(
    calls: seq<Call>, n: nat, exec: Executor, cancelAt: Option<nat>, sample: nat, used: nat,
    added: seq<Log>, told: seq<seq<Event>>)
    requires n <= used <= |calls| && |added| == |told| == used - n
  {
    forall k: nat :: n <= k < used ==> Accounted(calls, n, exec, cancelAt, sample, used, added, told, k)
  }

  /** The replies used from `n` on, what each added and told, and why it stopped. */
  ghost predicate Account(
    calls: seq<Call>, n: nat, exec: Executor, cancelAt: Option<nat>, sample: nat, out: Outcome,
    added: seq<Log>, told: seq<seq<Event>>)
  {
    && n <= out.used <= |calls| && |added| == |told| == out.used - n
    && AllAccounted(calls, n, exec, cancelAt, sample, out.used, added, told)
    && out.messages == Flat(added)
    && EndsWell(calls, n, cancelAt, sample, out, told)
  }

  /** After the last reply used: its own end, or the token was read once more, or the turn is still on. */
  ghost predicate EndsWell(
    calls: seq<Call>, n: nat, cancelAt: Option<nat>, sample: nat, out: Outcome, told: seq<seq<Event>>)
    requires n <= out.used <= |calls|
  {
    if out.used > n && !GoesOn(calls[out.used - 1]) then
      && out.events == Flat(told)
      && match calls[out.used - 1].end
         case CutShort => out.status.WasInterrupted?
         case CallFailed(e) => out.status == Errored(e)
         case Stopped(_) => out.status.Completed?
    else if Fired(cancelAt, SampleAt(calls, n, out.used, sample)) then
      out.status.WasInterrupted? && out.events == Flat(told) + [InterruptAck]
    else out.status.Pending? && out.used == |calls| && out.events == Flat(told)
  }

  lemma LastReply(calls: seq<Call>, n: nat, exec: Executor, cancelAt: Option<nat>, sample: nat)
    returns (added: seq<Log>, told: seq<seq<Event>>)
    requires n < |calls| && !Fired(cancelAt, sample) && !RunsTools(calls[n])
    ensures Account(calls, n, exec, cancelAt, sample, Loop(calls, n, exec, cancelAt, sample), added, told)
  {
    var out := Loop(calls, n, exec, cancelAt, sample);
    added, told := [out.messages], [out.events];
    FlatSnoc([], out.messages);
    FlatSnoc([], out.events);
    assert [] + [out.messages] == added && [] + [out.events] == told;
    if calls[n].end.Stopped? && calls[n].end.reason.ToolUseStop? {
      assert Runs(ToolUses(calls[n].blocks), exec, 0) == [];
    }
  }

  lemma RepliesBehind(
    calls: seq<Call>, n: nat, exec: Executor, cancelAt: Option<nat>, sample: nat, used: nat,
    added: seq<Log>, told: seq<seq<Event>>, m: Log, e: seq<Event>, k: nat)
    requires n < k < used <= |calls| && |added| == |told| == used - n - 1
    requires Accounted(calls, n + 1, exec, cancelAt, sample + 1 + |Uses(calls[n])|, used, added, told, k)
    ensures Accounted(calls, n, exec, cancelAt, sample, used, [m] + added, [e] + told, k)
  {
    SampleFromNext(calls, n, k, sample);
    assert ([m] + added)[k - n] == added[k - (n + 1)] && ([e] + told)[k - n] == told[k - (n + 1)];
  }

  lemma EndsAfter(
    calls: seq<Call>, n: nat, cancelAt: Option<nat>, sample: nat, rest: Outcome, told: seq<seq<Event>>, e: seq<Event>)
    requires n < rest.used <= |calls| && GoesOn(calls[n])
    requires EndsWell(calls, n + 1, cancelAt, sample + 1 + |Uses(calls[n])|, rest, told)
    ensures EndsWell(calls, n, cancelAt, sample, Before([], e, rest), [e] + told)
  {
    FlatCons(e, told);
    SampleFromNext(calls, n, rest.used, sample);
    Assoc(e, Flat(told), [InterruptAck]);
  }

  lemma OneMoreReply(
    calls: seq<Call>, n: nat, exec: Executor, cancelAt: Option<nat>, sample: nat, rest: Outcome,
    added: seq<Log>, told: seq<seq<Event>>)
    requires n < |calls| && !Fired(cancelAt, sample) && RunsTools(calls[n])
    requires Account(calls, n + 1, exec, cancelAt, sample + 1 + |Uses(calls[n])|, rest, added, told)
    ensures var m := Exchange(calls[n], exec, cancelAt, sample + 1);
            var e := ExchangeEvents(calls[n], exec, cancelAt, sample + 1);
            Account(calls, n, exec, cancelAt, sample, Before(m, e, rest), [m] + added, [e] + told)
  {
    var m, e := Exchange(calls[n], exec, cancelAt, sample + 1), ExchangeEvents(calls[n], exec, cancelAt, sample + 1);
    ReplyAddsAndTells(calls[n], exec, cancelAt, sample + 1);
    Grown(calls, n, exec, cancelAt, sample, rest, added, told, m, e);
  }

  lemma Grown(
    calls: seq<Call>, n: nat, exec: Executor, cancelAt: Option<nat>, sample: nat, rest: Outcome,
    added: seq<Log>, told: seq<seq<Event>>, m: Log, e: seq<Event>)
    requires n < |calls| && ReplyAt(calls[n], exec, cancelAt, sample, false, m, e)
    requires Account(calls, n + 1, exec, cancelAt, sample + 1 + |Uses(calls[n])|, rest, added, told)
    ensures Account(calls, n, exec, cancelAt, sample, Before(m, e, rest), [m] + added, [e] + told)
  {
    FlatCons(m, added);
    EndsAfter(calls, n, cancelAt, sample, rest, told, e);
    GrownReplies(calls, n, exec, cancelAt, sample, rest.used, added, told, m, e);
  }

  lemma GrownReplies(
    calls: seq<Call>, n: nat, exec: Executor, cancelAt: Option<nat>, sample: nat, used: nat,
    added: seq<Log>, told: seq<seq<Event>>, m: Log, e: seq<Event>)
    requires n < used <= |calls| && |added| == |told| == used - n - 1
    requires ReplyAt(calls[n], exec, cancelAt, sample, false, m, e)
    requires AllAccounted(calls, n + 1, exec, cancelAt, sample + 1 + |Uses(calls[n])|, used, added, told)
    ensures AllAccounted(calls, n, exec, cancelAt, sample, used, [m] + added, [e] + told)
  {
    forall k: nat | n <= k < used ensures Accounted(calls, n, exec, cancelAt, sample, used, [m] + added, [e] + told, k) {
      if k > n {
        RepliesBehind(calls, n, exec, cancelAt, sample, used, added, told, m, e, k);
      }
    }
  }

  lemma LoopNext(calls: seq<Call>, n: nat, exec: Executor, cancelAt: Option<nat>, sample: nat)
    requires n < |calls| && !Fired(cancelAt, sample) && RunsTools(calls[n])
    ensures Loop(calls, n, exec, cancelAt, sample)
         == Before(Exchange(calls[n], exec, cancelAt, sample + 1), ExchangeEvents(calls[n], exec, cancelAt, sample + 1),
                   Loop(calls, n + 1, exec, cancelAt, sample + 1 + |Uses(calls[n])|))
  {}

  /**
    For every script, and so at every point of the loop: each reply used adds and tells what
    it should, in order and with nothing in between, and the turn stops when and as it should.
   */
  lemma {:induction false} LoopAccounts(calls: seq<Call>, n: nat, exec: Executor, cancelAt: Option<nat>, sample: nat)
    returns (added: seq<Log>, told: seq<seq<Event>>)
    requires n <= |calls|
    ensures Account(calls, n, exec, cancelAt, sample, Loop(calls, n, exec, cancelAt, sample), added, told)
    decreases |calls| - n
  {
    if Fired(cancelAt, sample) || n == |calls| {
      added, told := [], [];
    } else if !RunsTools(calls[n]) {
      added, told := LastReply(calls, n, exec, cancelAt, sample);
    } else {
      var next := sample + 1 + |Uses(calls[n])|;
      var more, later := LoopAccounts(calls, n + 1, exec, cancelAt, next);
      LoopNext(calls, n, exec, cancelAt, sample);
      OneMoreReply(calls, n, exec, cancelAt, sample, Loop(calls, n + 1, exec, cancelAt, next), more, later);
      added := [Exchange(calls[n], exec, cancelAt, sample + 1)] + more;
      told := [ExchangeEvents(calls[n], exec, cancelAt, sample + 1)] + later;
    }
  }
}
