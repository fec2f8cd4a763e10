/**
  What the decisions of the turn gate come to (lair/src/agent.rs): when each of them is taken, and
  that the task they start works on the message they were taken for.
 */
module TurnTasks {
  import opened Prelude
  import opened Conversation
  import opened SendMessage
  import opened TurnGates
  import opened TurnScheduler

  // ── When a turn boundary does what ──────────────────────────────────────────

  /** An auto-turn is due: no user text waits, nobody interrupted, fewer than three in a row, something queued. */
  predicate AutoIsDue(trace: seq<Happening>, queue: Log) {
    QueuedIn(trace).None? && !InterruptedIn(trace) && AutoRun(trace) < 3 && queue != []
  }

  /**
    In every reachable state in which a turn has ended: its boundary starts the turn of the user
    text accepted meanwhile, if there is one; an auto-turn if and only if one is due; and it
    releases the gate if and only if there is neither. It takes the whole queue in any case.
   */
  lemma BoundaryDecides(steps: seq<Step>, i: nat)
    requires CanRun(INITIAL, steps)
    requires i < |Run(INITIAL, steps).actors| && Run(INITIAL, steps).actors[i].Ended?
    ensures var s := Run(INITIAL, steps);
            var s' := Apply(s, Advance(i));
            var trace, queued := s.trace, QueuedIn(s.trace);
            && |s'.trace| == |trace| + 1 && s'.trace[..|trace|] == trace
            && (s'.trace[|trace|] == Started(AutoTrigger) <==> AutoIsDue(trace, s.gate.pendingInjections))
            && (s'.trace[|trace|] == Released <==> queued.None? && !AutoIsDue(trace, s.gate.pendingInjections))
            && (queued.Some? ==> s'.trace[|trace|] == Started(UserTrigger(queued.value)))
            && s'.actors[i].injections == s.gate.pendingInjections && s'.actors[i].userMsg == queued
            && s'.gate.pendingInjections == [] && s'.log == s.log
            && (s'.gate.streaming <==> s'.trace[|trace|] != Released)
  {
    ReachableInv(steps);
    var s := Run(INITIAL, steps);
    assert OwnerAt(s, i);
    OwnerStreams(s, i);
  }

  /**
    A user message that is not empty: it starts a turn if and only if nobody owns the gate, waits
    for the boundary if somebody does and no other message waits, and else changes nothing.
   */
  lemma UserFrameDecides(steps: seq<Step>, text: string)
    requires CanRun(INITIAL, steps) && text != ""
    ensures var s := Run(INITIAL, steps);
            var s' := Apply(s, UserFrame(text));
            if forall i :: !OwnerAt(s, i) then
              && s'.trace == s.trace + [Started(UserTrigger(text))]
              && s'.actors == s.actors + [Spawned(UserTrigger(text), s.nextToken)]
              && s.nextToken !in s'.cancelled && s'.nextToken == s.nextToken + 1
              && s'.log == s.log && s'.gate.pendingInjections == s.gate.pendingInjections
            else if QueuedIn(s.trace).None? then
              && s'.trace == s.trace + [UserQueued(text)] && QueuedIn(s'.trace) == Some(text)
              && s' == s.(trace := s'.trace, gate := s.gate.(pendingUserMsg := Some(text)))
            else s' == s
  {
    ReachableInv(steps);
    var s := Run(INITIAL, steps);
    if !s.gate.streaming {
      assert forall i :: !OwnerAt(s, i);
    }
  }

  /** A background message is queued; an auto-turn starts at once if and only if nobody owns the gate. */
  lemma PushThenContinue(steps: seq<Step>, m: ApiMessage)
    requires CanRun(INITIAL, steps) && IsNotice(m)
    ensures var s := Run(INITIAL, steps);
            var pushed := Apply(s, Push(m));
            var s' := Apply(pushed, ContinueAuto);
            && pushed.pushed == s.pushed + [m]
            && s'.gate.pendingInjections == s.gate.pendingInjections + [m]
            && if forall i :: !OwnerAt(s, i) then
                 && s'.trace == s.trace + [Started(AutoTrigger)]
                 && s'.actors == s.actors + [Draining(s.nextToken)] && s.nextToken !in s'.cancelled
               else s' == pushed && s'.trace == s.trace && s'.actors == s.actors
  {
    ReachableInv(steps);
    var s := Run(INITIAL, steps);
    if !s.gate.streaming {
      assert forall i :: !OwnerAt(s, i);
    }
  }

  // ── What the last turn start was for ────────────────────────────────────────

  function LastStart(trace: seq<Happening>): Option<Trigger> {
    if trace == [] then None
    else if trace[|trace| - 1].Started? then Some(trace[|trace| - 1].trigger)
    else LastStart(trace[..|trace| - 1])
  }

  /** Whether the last turn start took up a user message that had been queued. */
  function TookQueued(trace: seq<Happening>): bool {
    if trace == [] then false
    else if trace[|trace| - 1].Started? then QueuedIn(trace[..|trace| - 1]).Some?
    else TookQueued(trace[..|trace| - 1])
  }

  lemma StartSnoc(trace: seq<Happening>, h: Happening)
    ensures LastStart(trace + [h]) == if h.Started? then Some(h.trigger) else LastStart(trace)
    ensures TookQueued(trace + [h]) == if h.Started? then QueuedIn(trace).Some? else TookQueued(trace)
  {
    assert (trace + [h])[..|trace + [h]| - 1] == trace;
  }

  /** How often a user message with just this text stands in the log. */
  function Copies(log: Log, text: string): nat {
    multiset(log)[ApiMessage(User, [Text(text)])]
  }

  /** Once for a message that started its turn at once, twice for one that was queued. */
  function Due(trace: seq<Happening>): nat {
    if TookQueued(trace) then 2 else 1
  }

  /** The turn start was for a user message, which stands in the log often enough. */
  predicate Written(trace: seq<Happening>, log: Log, less: nat) {
    var start := LastStart(trace);
    start.Some? && (start.value.UserTrigger? ==> Copies(log, start.value.text) + less >= Due(trace))
  }

  /** At every stage a task carries what the gate decided last. */
  ghost predicate Carries(s: System, a: Actor) {
    match a
    case Spawned(trigger, _) => LastStart(s.trace) == Some(trigger) && Written(s.trace, s.log, 1)
    case Appending(text, _) => LastStart(s.trace) == Some(UserTrigger(text)) && Written(s.trace, s.log, 1)
    case Snapshotting(_) => Written(s.trace, s.log, 0)
    case Running(_, base) => Written(s.trace, base, 0)
    case Ended(_) => LastStart(s.trace).Some?
    case Folding(_, userMsg, next) =>
      next.Some? ==> LastStart(s.trace) == Some(if userMsg.Some? then UserTrigger(userMsg.value) else AutoTrigger)
    case Draining(_) => LastStart(s.trace) == Some(AutoTrigger)
    case AutoFolding(_, _) => LastStart(s.trace) == Some(AutoTrigger)
    case Done => true
  }

  ghost predicate AllCarry(s: System) {
    forall i :: 0 <= i < |s.actors| ==> Carries(s, s.actors[i])
  }

  lemma BystandersCarry(s: System, a: Actor)
    requires !Owns(a)
    ensures Carries(s, a)
  {}

  /** The log only grew, and no turn started. */
  ghost predicate Undisturbed(s: System, s': System) {
    && LastStart(s'.trace) == LastStart(s.trace) && TookQueued(s'.trace) == TookQueued(s.trace)
    && s.log <= s'.log
  }

  lemma MoreCopies(log: Log, more: Log, text: string)
    ensures Copies(log + more, text) == Copies(log, text) + Copies(more, text)
  {}

  lemma StillCarries(s: System, s': System, a: Actor)
    requires Carries(s, a) && Undisturbed(s, s')
    ensures Carries(s', a)
  {
    var more := s'.log[|s.log|..];
    assert s'.log == s.log + more;
    if LastStart(s.trace).Some? && LastStart(s.trace).value.UserTrigger? {
      MoreCopies(s.log, more, LastStart(s.trace).value.text);
    }
  }

  /** A step of one task, when the others are bystanders or not disturbed. */
  lemma TaskMoves(s: System, s': System, i: nat, a: Actor)
    requires SingleOwner(s) && AllCarry(s) && i < |s.actors| && s'.actors == s.actors[i := a]
    requires Owns(s.actors[i]) || Undisturbed(s, s')
    requires Carries(s', a)
    ensures AllCarry(s')
  {
    assert Owns(s.actors[i]) ==> OwnerAt(s, i);
    forall j | 0 <= j < |s'.actors| && j != i ensures Carries(s', s'.actors[j]) {
      if Owns(s.actors[j]) {
        assert OwnerAt(s, j);
        StillCarries(s, s', s.actors[j]);
      } else {
        BystandersCarry(s', s.actors[j]);
      }
    }
  }

  lemma TaskJoins(s: System, s': System, a: Actor)
    requires SingleOwner(s) && !s.gate.streaming && s'.actors == s.actors + [a] && Carries(s', a)
    ensures AllCarry(s')
  {
    forall j | 0 <= j < |s'.actors| ensures Carries(s', s'.actors[j]) {
      if j < |s.actors| {
        assert !OwnerAt(s, j);
        BystandersCarry(s', s.actors[j]);
      }
    }
  }

  lemma NobodyMoves(s: System, s': System)
    requires AllCarry(s) && s'.actors == s.actors && Undisturbed(s, s')
    ensures AllCarry(s')
  {
    forall j | 0 <= j < |s'.actors| ensures Carries(s', s'.actors[j]) {
      StillCarries(s, s', s.actors[j]);
    }
  }

  /** The snapshot drops exactly the `interrupted` and `error` rows. */
  lemma {:induction false} SnapshotIs(log: Log, m: ApiMessage)
    ensures multiset(Snapshot(log))[m] == if m.role == Interrupted || m.role == Error then 0 else multiset(log)[m]
  {
    if log != [] {
      assert log == [log[0]] + log[1..];
      SnapshotIs(log[1..], m);
    }
  }

  // ── Every step keeps it ─────────────────────────────────────────────────────

  lemma UserFrameKeepsCarrying(s: System, text: string)
    requires Inv(s) && AllCarry(s) && text != ""
    ensures AllCarry(Apply(s, UserFrame(text)))
  {
    var s' := Apply(s, UserFrame(text));
    match UserMessageReply(s.gate) {
      case Claimed =>
        StartSnoc(s.trace, Started(UserTrigger(text)));
        TaskJoins(s, s', Spawned(UserTrigger(text), s.nextToken));
      case Queued =>
        StartSnoc(s.trace, UserQueued(text));
        NobodyMoves(s, s');
      case Refused =>
    }
  }

  lemma ContinueKeepsCarrying(s: System)
    requires Inv(s) && AllCarry(s)
    ensures AllCarry(Apply(s, ContinueAuto))
  {
    if MayContinue(s.gate) {
      StartSnoc(s.trace, Started(AutoTrigger));
      TaskJoins(s, Apply(s, ContinueAuto), Draining(s.nextToken));
    }
  }

  lemma InterruptKeepsCarrying(s: System)
    requires AllCarry(s)
    ensures AllCarry(Apply(s, InterruptFrame))
  {
    StartSnoc(s.trace, InterruptAccepted);
    NobodyMoves(s, Apply(s, InterruptFrame));
  }

  lemma FinalizeKeepsCarrying(s: System, i: nat)
    requires Inv(s) && AllCarry(s) && i < |s.actors| && s.actors[i].Ended?
    ensures AllCarry(Finalized(s, i))
  {
    var s' := Finalized(s, i);
    var h := s'.trace[|s.trace|];
    assert s'.trace == s.trace + [h];
    StartSnoc(s.trace, h);
    TaskMoves(s, s', i, s'.actors[i]);
  }

  lemma FoldKeepsCarrying(s: System, i: nat)
    requires Inv(s) && AllCarry(s) && i < |s.actors| && s.actors[i].Folding?
    ensures AllCarry(Advanced(s, i))
  {
    var s', a := Advanced(s, i), s.actors[i];
    assert Carries(s, a) && OwnerReady(s, a);
    if a.userMsg.Some? {
      MoreCopies(s.log, [ApiMessage(User, [Text(a.userMsg.value)])], a.userMsg.value);
      MoreCopies(s.log + [ApiMessage(User, [Text(a.userMsg.value)])], a.injections, a.userMsg.value);
    }
    TaskMoves(s, s', i, s'.actors[i]);
  }

  lemma AppendKeepsCarrying(s: System, i: nat)
    requires Inv(s) && AllCarry(s) && i < |s.actors| && s.actors[i].Appending?
    ensures AllCarry(Advanced(s, i))
  {
    var s', a := Advanced(s, i), s.actors[i];
    assert Carries(s, a);
    MoreCopies(s.log, [ApiMessage(User, [Text(a.text)])], a.text);
    TaskMoves(s, s', i, s'.actors[i]);
  }

  lemma SnapshotKeepsCarrying(s: System, i: nat)
    requires Inv(s) && AllCarry(s) && i < |s.actors|
    requires s.actors[i].Snapshotting? || (s.actors[i].Spawned? && s.actors[i].trigger.AutoTrigger?)
    ensures AllCarry(Advanced(s, i))
  {
    var s' := Advanced(s, i);
    assert Carries(s, s.actors[i]);
    if LastStart(s.trace).value.UserTrigger? {
      SnapshotIs(s.log, ApiMessage(User, [Text(LastStart(s.trace).value.text)]));
    }
    TaskMoves(s, s', i, s'.actors[i]);
  }

  lemma StartKeepsCarrying(s: System, i: nat)
    requires Inv(s) && AllCarry(s) && i < |s.actors| && s.actors[i].Spawned? && s.actors[i].trigger.UserTrigger?
    ensures AllCarry(Advanced(s, i))
  {
    assert Carries(s, s.actors[i]);
    TaskMoves(s, Advanced(s, i), i, Advanced(s, i).actors[i]);
  }

  lemma DrainKeepsCarrying(s: System, i: nat)
    requires Inv(s) && AllCarry(s) && i < |s.actors| && (s.actors[i].Draining? || s.actors[i].AutoFolding?)
    ensures AllCarry(Advanced(s, i))
  {
    assert Carries(s, s.actors[i]) && OwnerReady(s, s.actors[i]);
    TaskMoves(s, Advanced(s, i), i, Advanced(s, i).actors[i]);
  }

  lemma AdvanceKeepsCarrying(s: System, i: nat)
    requires Inv(s) && AllCarry(s) && Enabled(s, Advance(i))
    ensures AllCarry(Advanced(s, i))
  {
    match s.actors[i]
    case Spawned(UserTrigger(_), _) => StartKeepsCarrying(s, i);
    case Spawned(AutoTrigger, _) => SnapshotKeepsCarrying(s, i);
    case Appending(_, _) => AppendKeepsCarrying(s, i);
    case Snapshotting(_) => SnapshotKeepsCarrying(s, i);
    case Ended(_) => FinalizeKeepsCarrying(s, i);
    case Folding(_, _, _) => FoldKeepsCarrying(s, i);
    case _ => DrainKeepsCarrying(s, i);
  }

  lemma EndKeepsCarrying(s: System, i: nat, script: Script)
    requires Inv(s) && AllCarry(s) && Enabled(s, EndTurn(i, script))
    ensures AllCarry(Apply(s, EndTurn(i, script)))
  {
    assert Carries(s, s.actors[i]);
    TaskMoves(s, Apply(s, EndTurn(i, script)), i, Ended(s.actors[i].token));
  }

  lemma StepKeepsCarrying(s: System, step: Step)
    requires Inv(s) && AllCarry(s) && Enabled(s, step)
    ensures AllCarry(Apply(s, step))
  {
    match step
    case UserFrame(text) => if text != "" { UserFrameKeepsCarrying(s, text); }
    case InterruptFrame => InterruptKeepsCarrying(s);
    case Push(m) => NobodyMoves(s, Apply(s, step));
    case ContinueAuto => ContinueKeepsCarrying(s);
    case Advance(i) => AdvanceKeepsCarrying(s, i);
    case EndTurn(i, script) => EndKeepsCarrying(s, i, script);
  }

  lemma {:induction false} RunKeepsCarrying(s: System, steps: seq<Step>)
    requires Inv(s) && AllCarry(s) && CanRun(s, steps)
    ensures AllCarry(Run(s, steps))
    decreases |steps|
  {
    if steps != [] {
      StepKeepsInv(s, steps[0]);
      StepKeepsCarrying(s, steps[0]);
      RunKeepsCarrying(Apply(s, steps[0]), steps[1..]);
    }
  }

  /**
    In every reachable state: a task that is spawned has the trigger of the last turn start, and a
    turn that runs for a user message has that message in the log it works on, once if the frame
    started the turn itself, twice if it had been queued.
   */
  lemma TurnsHaveTheirMessage(steps: seq<Step>, i: nat)
    requires CanRun(INITIAL, steps) && i < |Run(INITIAL, steps).actors|
    ensures var s := Run(INITIAL, steps);
            var start := LastStart(s.trace);
            && (s.actors[i].Spawned? ==> start == Some(s.actors[i].trigger))
            && (s.actors[i].Running? ==> start.Some?)
            && (s.actors[i].Running? && start.value.UserTrigger? ==>
                  multiset(s.actors[i].base)[ApiMessage(User, [Text(start.value.text)])]
                  >= if TookQueued(s.trace) then 2 else 1)
  {
    InitialInv();
    RunKeepsCarrying(INITIAL, steps);
    assert Carries(Run(INITIAL, steps), Run(INITIAL, steps).actors[i]);
  }

  // ── What a turn leaves ──────────────────────────────────────────────────────

  /**
    In every run, the end of a turn writes back what the turn started from, what it added, and a
    last row that tells how it ended, unless it was completed. The user message it was for is
    still there.
   */
  lemma TurnWritesBack(steps: seq<Step>, i: nat, script: Script)
    requires CanRun(INITIAL, steps) && Enabled(Run(INITIAL, steps), EndTurn(i, script))
    ensures var s, out := Run(INITIAL, steps), Result(script);
            var log := Apply(s, EndTurn(i, script)).log;
            var start, grown := LastStart(s.trace), s.actors[i].base + out.messages;
            && grown <= log && (out.status.Completed? ==> log == grown)
            && (out.status.WasInterrupted? ==> log == grown + [ApiMessage(Interrupted, [Text("interrupted")])])
            && (forall e :: out.status == Errored(e) ==> log == grown + [ApiMessage(Error, [Text(e)])])
            && (start.Some? && start.value.UserTrigger? ==>
                  multiset(log)[ApiMessage(User, [Text(start.value.text)])] >= if TookQueued(s.trace) then 2 else 1)
  {
    var s, out := Run(INITIAL, steps), Result(script);
    TurnsHaveTheirMessage(steps, i);
    var log := Apply(s, EndTurn(i, script)).log;
    var more := log[|s.actors[i].base|..];
    assert log == s.actors[i].base + more;
    if LastStart(s.trace).value.UserTrigger? {
      MoreCopies(s.actors[i].base, more, LastStart(s.trace).value.text);
    }
  }
}
