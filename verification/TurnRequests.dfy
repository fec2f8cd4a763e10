/**
  The requests of reachable turns (lair/src/agent.rs, core/src/lib.rs): every one answers each
  of its tool calls once.
 */
module TurnRequests {
  import opened Prelude
  import opened Conversation
  import opened SendMessage
  import opened TurnGates
  import opened TurnScheduler
  import opened TurnLog
  import opened Compaction
  import Chat = OpenAiRequest
  import opened RequestContents

  ghost predicate Notices(log: Log) {
    forall m <- log :: IsNotice(m)
  }

  ghost predicate HoldsNotices(a: Actor) {
    match a
    case Folding(injections, _, _) => Notices(injections)
    case AutoFolding(drained, _) => Notices(drained)
    case _ => true
  }

  /** Log and running copies are ready to be sent; what is queued or in hand is text. */
  ghost predicate LogsReady(s: System) {
    && Chat.Ready(s.log) && Notices(s.gate.pendingInjections)
    && (forall i :: 0 <= i < |s.actors| ==> HoldsNotices(s.actors[i]))
    && (forall i :: 0 <= i < |s.actors| && s.actors[i].Running? ==> Chat.Ready(s.actors[i].base))
  }

  predicate OnlyText(m: ApiMessage) {
    forall b <- m.content :: b.Text?
  }

  lemma {:induction false} NoToolUses(content: seq<Block>)
    requires forall b <- content :: b.Text?
    ensures ToolUses(content) == []
  {
    if content != [] {
      assert content[0] in content;
      NoToolUses(content[1..]);
    }
  }

  /** Appending messages of text only. */
  lemma TextKeepsReady(log: Log, more: Log)
    requires Chat.Ready(log) && forall m <- more :: OnlyText(m)
    ensures Chat.Ready(log + more)
  {
    forall m | m in more ensures Plain(m) {
      NoToolUses(m.content);
    }
    PairedExtend(log, more);
    forall i | 0 <= i < |more| ensures Chat.ClosedAt(more, i) {
      assert more[i] in more && OnlyText(more[i]);
    }
    Chat.ClosedConcat(log, more);
  }

  lemma LogAfterIsReady(base: Log, script: Script)
    requires Chat.Ready(base) && forall call <- script.calls :: Answered(call)
    ensures Chat.Ready(LogAfter(base, script))
  {
    LoopPairs(script.calls, 0, script.exec, script.cancelAt, 0);
    Chat.GrownIsReady(base, script.calls, script.exec, script.cancelAt);
    TextKeepsReady(base + Result(script).messages, Marker(Result(script).status));
  }

  lemma FoldKeepsReady(log: Log, userMsg: Option<string>, injections: Log)
    requires Chat.Ready(log) && Notices(injections)
    ensures var user := if userMsg.Some? then [UserText(userMsg.value)] else [];
            Chat.Ready(log + user + injections)
  {
    var user := if userMsg.Some? then [UserText(userMsg.value)] else [];
    TextKeepsReady(log, user);
    TextKeepsReady(log + user, injections);
  }

  lemma LogStaysReady(s: System, step: Step)
    requires LogsReady(s) && Enabled(s, step) && WellStopped(step)
    ensures Chat.Ready(Apply(s, step).log)
  {
    match step {
      case EndTurn(i, script) => LogAfterIsReady(s.actors[i].base, script);
      case Advance(i) =>
        assert HoldsNotices(s.actors[i]);
        match s.actors[i] {
          case Folding(injections, userMsg, _) => FoldKeepsReady(s.log, userMsg, injections);
          case AutoFolding(drained, _) => TextKeepsReady(s.log, drained);
          case Appending(text, _) => TextKeepsReady(s.log, [UserText(text)]);
          case _ =>
        }
      case _ =>
    }
  }

  lemma HandsStayNotices(s: System, step: Step, i: nat)
    requires LogsReady(s) && Enabled(s, step) && i < |Apply(s, step).actors|
    ensures HoldsNotices(Apply(s, step).actors[i])
  {
    if i < |s.actors| {
      assert HoldsNotices(s.actors[i]);
    }
  }

  lemma BasesStayReady(s: System, step: Step, i: nat)
    requires Inv(s) && LogsReady(s) && Enabled(s, step)
    requires i < |Apply(s, step).actors| && Apply(s, step).actors[i].Running?
    ensures Chat.Ready(Apply(s, step).actors[i].base)
  {
    RunningBefore(s, step, i);
    if !s.actors[i].Running? {
      Chat.SnapshotIsReady(s.log);
    }
  }

  lemma StepKeepsReady(s: System, step: Step)
    requires Inv(s) && LogsReady(s) && Enabled(s, step) && WellStopped(step)
    ensures LogsReady(Apply(s, step))
  {
    var s' := Apply(s, step);
    LogStaysReady(s, step);
    forall i | 0 <= i < |s'.actors| ensures HoldsNotices(s'.actors[i]) {
      HandsStayNotices(s, step, i);
    }
    forall i | 0 <= i < |s'.actors| && s'.actors[i].Running? ensures Chat.Ready(s'.actors[i].base) {
      BasesStayReady(s, step, i);
    }
  }

  lemma {:induction false} RunKeepsReady(s: System, steps: seq<Step>)
    requires Inv(s) && LogsReady(s) && CanRun(s, steps)
    requires forall step <- steps :: WellStopped(step)
    ensures LogsReady(Run(s, steps))
    decreases |steps|
  {
    if steps != [] {
      assert WellStopped(steps[0]);
      StepKeepsInv(s, steps[0]);
      StepKeepsReady(s, steps[0]);
      RunKeepsReady(Apply(s, steps[0]), steps[1..]);
    }
  }

  lemma InitiallyReady()
    ensures Inv(INITIAL) && LogsReady(INITIAL)
  {}

  /**
    Every request of every reachable turn, compacted and at any point of its tool loop, answers
    each tool call once, in order, right after it, if replies with tool calls stop for `tool_use`.
   */
  lemma ReachableRequestsAreAnswered(steps: seq<Step>, i: nat, system: string, script: Script, keepFull: nat)
    requires CanRun(INITIAL, steps) && forall step <- steps :: WellStopped(step)
    requires i < |Run(INITIAL, steps).actors| && Run(INITIAL, steps).actors[i].Running?
    requires forall call <- script.calls :: Answered(call)
    ensures var messages := Run(INITIAL, steps).actors[i].base + Result(script).messages;
            Chat.AllAnswered([ChatSystem(system)] + From(CompactHistory(messages, keepFull), 0))
  {
    InitiallyReady();
    RunKeepsReady(INITIAL, steps);
    LoopPairs(script.calls, 0, script.exec, script.cancelAt, 0);
    Chat.TurnRequestIsAnswered(system, Run(INITIAL, steps).actors[i].base, script.calls, script.exec, script.cancelAt,
                               keepFull);
  }
}
