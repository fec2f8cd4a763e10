/**
  What the interleavings of lair/src/agent.rs do to the message log: when a folded injection
  stays in it, and that tool calls stay paired in it.
 */
module TurnLog {
  import opened Prelude
  import opened Conversation
  import opened SendMessage
  import opened TurnGates
  import opened TurnScheduler

  // ── Injections in a log ─────────────────────────────────────────────────────

  function InjectionsOf(log: Log): Log {
    if log == [] then []
    else (if IsInjection(log[0]) then [log[0]] else []) + InjectionsOf(log[1..])
  }

  lemma {:induction false} InjectionsAppend(a: Log, b: Log)
    ensures InjectionsOf(a + b) == InjectionsOf(a) + InjectionsOf(b)
  {
    if a == [] {
      assert a + b == b;
    } else {
      assert (a + b)[1..] == a[1..] + b;
      InjectionsAppend(a[1..], b);
    }
  }

  lemma {:induction false} AllInjections(log: Log)
    requires forall m <- log :: IsInjection(m)
    ensures InjectionsOf(log) == log
  {
    if log != [] {
      AllInjections(log[1..]);
    }
  }

  lemma {:induction false} NoInjections(log: Log)
    requires forall m <- log :: !IsInjection(m)
    ensures InjectionsOf(log) == []
  {
    if log != [] {
      NoInjections(log[1..]);
    }
  }

  lemma {:induction false} SnapshotKeepsInjections(log: Log)
    ensures InjectionsOf(Snapshot(log)) == InjectionsOf(log)
  {
    if log != [] {
      SnapshotKeepsInjections(log[1..]);
    }
  }

  /** A turn adds no injection of its own. */
  lemma LogAfterInjections(base: Log, script: Script)
    ensures InjectionsOf(LogAfter(base, script)) == InjectionsOf(base)
  {
    var out := Result(script);
    LoopRoles(script.calls, 0, script.exec, script.cancelAt, 0);
    NoInjections(out.messages);
    NoInjections(Marker(out.status));
    InjectionsAppend(base, out.messages);
    InjectionsAppend(base + out.messages, Marker(out.status));
  }

  // ── What is queued or in hand are injections ────────────────────────────────

  ghost predicate Injections(log: Log) {
    forall m <- log :: IsInjection(m)
  }

  ghost predicate CarriesInjections(a: Actor) {
    match a
    case Folding(injections, _, _) => Injections(injections)
    case AutoFolding(drained, _) => Injections(drained)
    case _ => true
  }

  /** The log has lost nothing that a running turn knows of, and invents nothing. */
  ghost predicate LogInv(s: System) {
    && Injections(s.gate.pendingInjections)
    && (forall i :: 0 <= i < |s.actors| ==> CarriesInjections(s.actors[i]))
    && (forall i :: 0 <= i < |s.actors| && s.actors[i].Running? ==>
          InjectionsOf(s.actors[i].base) <= InjectionsOf(s.log))
    && |InjectionsOf(s.log)| <= |s.folded|
  }

  /** The missing injections: folded once, no longer in the log. */
  ghost function Deficit(s: System): int {
    |s.folded| - |InjectionsOf(s.log)|
  }

  /** The injections an actor's next step folds into the log. */
  function FoldedBy(a: Actor): Log {
    match a
    case Folding(injections, _, _) => injections
    case AutoFolding(drained, _) => drained
    case _ => []
  }

  lemma FinalFoldOnLog(s: System, i: nat)
    requires LogInv(s) && i < |s.actors| && s.actors[i].Folding?
    ensures InjectionsOf(Advanced(s, i).log) == InjectionsOf(s.log) + s.actors[i].injections
  {
    var a := s.actors[i];
    assert CarriesInjections(a);
    var user := if a.userMsg.Some? then [UserText(a.userMsg.value)] else [];
    NoInjections(user);
    AllInjections(a.injections);
    FoldOnLog(s.log, user, a.injections);
  }

  lemma FoldOnLog(log: Log, user: Log, injections: Log)
    requires InjectionsOf(user) == [] && InjectionsOf(injections) == injections
    ensures InjectionsOf(log + user + injections) == InjectionsOf(log) + injections
  {
    InjectionsAppend(log, user);
    InjectionsAppend(log + user, injections);
  }

  lemma AutoFoldOnLog(s: System, i: nat)
    requires LogInv(s) && i < |s.actors| && s.actors[i].AutoFolding?
    ensures InjectionsOf(Advanced(s, i).log) == InjectionsOf(s.log) + s.actors[i].drained
  {
    assert CarriesInjections(s.actors[i]);
    AllInjections(s.actors[i].drained);
    InjectionsAppend(s.log, s.actors[i].drained);
  }

  lemma AdvanceOnLog(s: System, i: nat)
    requires LogInv(s) && Enabled(s, Advance(i))
    ensures Advanced(s, i).folded == s.folded + FoldedBy(s.actors[i])
    ensures InjectionsOf(Advanced(s, i).log) == InjectionsOf(s.log) + FoldedBy(s.actors[i])
  {
    if s.actors[i].Folding? {
      FinalFoldOnLog(s, i);
    } else if s.actors[i].AutoFolding? {
      AutoFoldOnLog(s, i);
    } else if s.actors[i].Appending? {
      NoInjections([UserText(s.actors[i].text)]);
      InjectionsAppend(s.log, [UserText(s.actors[i].text)]);
    }
  }

  /** Only a turn's end can take an injection out of the log. */
  lemma StepOnLog(s: System, step: Step)
    requires LogInv(s) && Enabled(s, step)
    ensures var s' := Apply(s, step);
            if step.EndTurn? then
              s'.folded == s.folded && InjectionsOf(s'.log) == InjectionsOf(s.actors[step.actor].base)
            else
              && |s'.folded| - |s.folded| == |InjectionsOf(s'.log)| - |InjectionsOf(s.log)|
              && InjectionsOf(s.log) <= InjectionsOf(s'.log)
              && (InjectionsOf(s.log) == s.folded ==> InjectionsOf(s'.log) == s'.folded)
  {
    match step {
      case EndTurn(i, script) => LogAfterInjections(s.actors[i].base, script);
      case Advance(i) => AdvanceOnLog(s, i);
      case _ => assert Apply(s, step).folded == s.folded && Apply(s, step).log == s.log;
    }
  }

  lemma StepKeepsLogInv(s: System, step: Step)
    requires Inv(s) && LogInv(s) && Enabled(s, step)
    ensures LogInv(Apply(s, step))
  {
    var s' := Apply(s, step);
    StepOnLog(s, step);
    forall i | 0 <= i < |s'.actors| ensures CarriesInjections(s'.actors[i]) {
      StepKeepsHand(s, step, i);
    }
    forall i | 0 <= i < |s'.actors| && s'.actors[i].Running?
      ensures InjectionsOf(s'.actors[i].base) <= InjectionsOf(s'.log)
    {
      StepKeepsBase(s, step, i);
    }
  }

  lemma StepKeepsHand(s: System, step: Step, i: nat)
    requires LogInv(s) && Enabled(s, step) && i < |Apply(s, step).actors|
    ensures CarriesInjections(Apply(s, step).actors[i])
  {
    if i < |s.actors| {
      assert CarriesInjections(s.actors[i]);
    }
  }

  lemma StepKeepsBase(s: System, step: Step, i: nat)
    requires Inv(s) && LogInv(s) && Enabled(s, step)
    requires i < |Apply(s, step).actors| && Apply(s, step).actors[i].Running?
    ensures InjectionsOf(Apply(s, step).actors[i].base) <= InjectionsOf(Apply(s, step).log)
  {
    StepOnLog(s, step);
    RunningBefore(s, step, i);
    if s.actors[i].Running? {
      assert InjectionsOf(s.actors[i].base) <= InjectionsOf(s.log);
    } else {
      SnapshotKeepsInjections(s.log);
    }
  }

  /** A running turn was running before, while no other turn ended, or it just took its snapshot. */
  lemma RunningBefore(s: System, step: Step, i: nat)
    requires Inv(s) && Enabled(s, step)
    requires i < |Apply(s, step).actors| && Apply(s, step).actors[i].Running?
    ensures i < |s.actors|
    ensures if s.actors[i].Running? then !step.EndTurn? && Apply(s, step).actors[i].base == s.actors[i].base
            else !step.EndTurn? && Apply(s, step).actors[i].base == Snapshot(s.log) && Apply(s, step).log == s.log
  {
    if s.actors[i].Running? {
      assert OwnerAt(s, i);
      if step.EndTurn? {
        assert OwnerAt(s, step.actor);
      }
    }
  }

  // ── Survival ────────────────────────────────────────────────────────────────

  /** A turn ends although an injection was folded into the log after it took its snapshot. */
  ghost predicate EndsLate(s: System, step: Step)
    requires Enabled(s, step)
  {
    step.EndTurn? && InjectionsOf(s.actors[step.actor].base) != InjectionsOf(s.log)
  }

  ghost predicate NeverEndsLate(s: System, steps: seq<Step>)
    requires CanRun(s, steps)
    decreases |steps|
  {
    steps == [] || (!EndsLate(s, steps[0]) && NeverEndsLate(Apply(s, steps[0]), steps[1..]))
  }

  lemma {:induction false} DeficitPersists(s: System, steps: seq<Step>)
    requires Inv(s) && LogInv(s) && CanRun(s, steps)
    ensures Deficit(Run(s, steps)) >= Deficit(s)
    decreases |steps|
  {
    if steps != [] {
      StepOnLog(s, steps[0]);
      StepKeepsInv(s, steps[0]);
      StepKeepsLogInv(s, steps[0]);
      DeficitPersists(Apply(s, steps[0]), steps[1..]);
    }
  }

  lemma {:induction false} SurvivalFrom(s: System, steps: seq<Step>)
    requires Inv(s) && LogInv(s) && CanRun(s, steps) && InjectionsOf(s.log) == s.folded
    ensures InjectionsOf(Run(s, steps).log) == Run(s, steps).folded <==> NeverEndsLate(s, steps)
    decreases |steps|
  {
    if steps != [] {
      var s' := Apply(s, steps[0]);
      StepOnLog(s, steps[0]);
      StepKeepsInv(s, steps[0]);
      StepKeepsLogInv(s, steps[0]);
      if EndsLate(s, steps[0]) {
        assert InjectionsOf(s.actors[steps[0].actor].base) < InjectionsOf(s.log);
        DeficitPersists(s', steps[1..]);
      } else {
        SurvivalFrom(s', steps[1..]);
      }
    }
  }

  /**
    The log holds every injection ever folded into it, in fold order and once each, exactly
    when no turn ended after an injection was folded behind its snapshot.
   */
  lemma InjectionsSurvive(steps: seq<Step>)
    requires CanRun(INITIAL, steps)
    ensures InjectionsOf(Run(INITIAL, steps).log) == Run(INITIAL, steps).folded <==> NeverEndsLate(INITIAL, steps)
  {
    SurvivalFrom(INITIAL, steps);
  }

  // ── The same in terms of the schedule ───────────────────────────────────────

  ghost predicate InFlight(s: System, i: int) {
    0 <= i < |s.actors| && s.actors[i].Running?
  }

  /** A task that has released the gate folds injections while a turn is in flight. */
  ghost predicate FoldsBehind(s: System, step: Step)
    requires Enabled(s, step)
  {
    && step.Advance? && ReleasedAt(s, step.actor) && s.actors[step.actor].injections != []
    && exists i :: InFlight(s, i)
  }

  /** Between a turn's snapshot and its end nobody folds behind it; `late`: somebody has, since the last snapshot. */
  ghost predicate NoLateFold(s: System, steps: seq<Step>, late: bool)
    requires CanRun(s, steps)
    decreases |steps|
  {
    steps == [] || (
      && !(late && steps[0].EndTurn?)
      && NoLateFold(Apply(s, steps[0]), steps[1..], !steps[0].EndTurn? && (late || FoldsBehind(s, steps[0]))))
  }

  /** Some turn in flight took its snapshot before an injection was folded. */
  ghost predicate Behind(s: System) {
    exists i :: InFlight(s, i) && InjectionsOf(s.actors[i].base) != InjectionsOf(s.log)
  }

  lemma OnlyOneInFlight(s: System, i: nat)
    requires Inv(s) && OwnerAt(s, i)
    ensures forall j :: InFlight(s, j) ==> j == i
  {
    forall j | InFlight(s, j) ensures j == i {
      assert OwnerAt(s, j);
    }
  }

  lemma ReleasedFoldBehind(s: System, i: nat)
    requires Inv(s) && LogInv(s) && ReleasedAt(s, i)
    ensures Behind(Advanced(s, i)) <==> Behind(s) || FoldsBehind(s, Advance(i))
  {
    var s' := Advanced(s, i);
    FinalFoldOnLog(s, i);
    forall j ensures InFlight(s', j) <==> InFlight(s, j) {}
    forall j | InFlight(s, j)
      ensures s'.actors[j] == s.actors[j]
      ensures InjectionsOf(s.actors[j].base) != InjectionsOf(s'.log)
          <==> InjectionsOf(s.actors[j].base) != InjectionsOf(s.log) || s.actors[i].injections != []
    {
      assert InjectionsOf(s.actors[j].base) <= InjectionsOf(s.log);
    }
  }

  lemma OwnerStepBehind(s: System, i: nat)
    requires Inv(s) && OwnerAt(s, i) && Enabled(s, Advance(i))
    ensures !Behind(s) && !Behind(Advanced(s, i)) && !FoldsBehind(s, Advance(i))
  {
    OnlyOneInFlight(s, i);
    SnapshotKeepsInjections(s.log);
    assert forall j :: InFlight(Advanced(s, i), j) ==> j == i;
  }

  lemma StepBehind(s: System, step: Step)
    requires Inv(s) && LogInv(s) && Enabled(s, step)
    ensures Behind(Apply(s, step)) <==> !step.EndTurn? && (Behind(s) || FoldsBehind(s, step))
    ensures EndsLate(s, step) <==> step.EndTurn? && Behind(s)
  {
    match step {
      case EndTurn(i, script) =>
        assert InFlight(s, i) && OwnerAt(s, i);
        OnlyOneInFlight(s, i);
        assert forall j :: InFlight(Apply(s, step), j) ==> InFlight(s, j) && j != i;
      case Advance(i) =>
        if ReleasedAt(s, i) {
          ReleasedFoldBehind(s, i);
        } else {
          assert OwnerAt(s, i);
          OwnerStepBehind(s, i);
        }
      case _ =>
        var s' := Apply(s, step);
        assert s'.log == s.log;
        forall j ensures InFlight(s', j) <==> InFlight(s, j) {}
        forall j | InFlight(s, j) ensures s'.actors[j] == s.actors[j] {}
    }
  }

  lemma {:induction false} LateIsBehind(s: System, steps: seq<Step>)
    requires Inv(s) && LogInv(s) && CanRun(s, steps)
    ensures NeverEndsLate(s, steps) <==> NoLateFold(s, steps, Behind(s))
    decreases |steps|
  {
    if steps != [] {
      StepBehind(s, steps[0]);
      StepKeepsInv(s, steps[0]);
      StepKeepsLogInv(s, steps[0]);
      LateIsBehind(Apply(s, steps[0]), steps[1..]);
    }
  }

  lemma InitiallyNotBehind()
    ensures Inv(INITIAL) && LogInv(INITIAL) && !Behind(INITIAL)
  {}

  /**
    The log holds every injection ever folded into it exactly when no task that has released the
    gate folded injections between the snapshot and the end of another turn.
   */
  lemma InjectionsSurviveSchedule(steps: seq<Step>)
    requires CanRun(INITIAL, steps)
    ensures InjectionsOf(Run(INITIAL, steps).log) == Run(INITIAL, steps).folded <==> NoLateFold(INITIAL, steps, false)
  {
    InjectionsSurvive(steps);
    InitiallyNotBehind();
    LateIsBehind(INITIAL, steps);
  }

  // ── A lost injection ────────────────────────────────────────────────────────

  lemma {:induction false} OneMore(s: System, steps: seq<Step>, step: Step)
    requires CanRun(s, steps) && Enabled(Run(s, steps), step)
    ensures CanRun(s, steps + [step]) && Run(s, steps + [step]) == Apply(Run(s, steps), step)
    decreases |steps|
  {
    if steps == [] {
      assert steps + [step] == [step] && [step][1..] == [];
    } else {
      assert (steps + [step])[1..] == steps[1..] + [step];
      OneMore(Apply(s, steps[0]), steps[1..], step);
    }
  }

  /** A turn that answers at once and says nothing. */
  ghost function SilentTurn(): Script {
    Script([Call([], [], Stopped(OtherStop("end_turn")))], id => ToolRun([], ""), None)
  }

  lemma SilentTurnAfter(base: Log)
    ensures LogAfter(base, SilentTurn()) == base + [ApiMessage(Assistant, [])]
    ensures Result(SilentTurn()).status == Completed
  {
    var out := Result(SilentTurn());
    assert Uses(SilentTurn().calls[0]) == [];
    assert out == Outcome([ApiMessage(Assistant, [])], [], Completed, 1);
    assert base + out.messages + [] == base + out.messages;
  }

  const NOTICE: ApiMessage := ApiMessage(BgComplete, [Text("done")])
  const SILENCE: ApiMessage := ApiMessage(Assistant, [])

  /** The first user turn is running. */
  ghost const FIRST_TURN := System(
    Gate(true, [], None, 0, false, 1), [UserText("a")], [Running(1, [UserText("a")])], 2, {}, [], [],
    [Started(UserTrigger("a"))])

  /** It was interrupted and released the gate with an injection in its hand. */
  ghost const IN_HAND := System(
    Gate(false, [], None, 0, false, 1), [UserText("a"), SILENCE], [Folding([NOTICE], None, None)], 2, {1}, [NOTICE], [],
    [Started(UserTrigger("a")), InterruptAccepted, Released])

  /** A second user turn has taken its snapshot meanwhile. */
  ghost const SECOND_TURN := System(
    Gate(true, [], None, 0, false, 2), [UserText("a"), SILENCE, UserText("b")],
    [Folding([NOTICE], None, None), Running(2, [UserText("a"), SILENCE, UserText("b")])], 3, {1}, [NOTICE], [],
    [Started(UserTrigger("a")), InterruptAccepted, Released, Started(UserTrigger("b"))])

  lemma ToFirstTurn() returns (steps: seq<Step>)
    ensures CanRun(INITIAL, steps) && Run(INITIAL, steps) == FIRST_TURN
  {
    steps := [];
    var s := INITIAL;
    steps, s := Then(steps, s, UserFrame("a"));
    steps, s := Then(steps, s, Advance(0));
    steps, s := Then(steps, s, Advance(0));
    assert s.log == [UserText("a")];
    assert Snapshot(s.log) == [UserText("a")];
    steps, s := Then(steps, s, Advance(0));
    assert s.trace == [Started(UserTrigger("a"))];
  }

  lemma ToInHand() returns (steps: seq<Step>)
    ensures CanRun(INITIAL, steps) && Run(INITIAL, steps) == IN_HAND
  {
    var s := FIRST_TURN;
    steps := ToFirstTurn();
    steps, s := Then(steps, s, InterruptFrame);
    steps, s := Then(steps, s, Push(NOTICE));
    SilentTurnAfter([UserText("a")]);
    steps, s := Then(steps, s, EndTurn(0, SilentTurn()));
    assert s.gate.pendingInjections == [NOTICE] && Decide(s.gate) == NoNext;
    steps, s := Then(steps, s, Advance(0));
    assert s.actors == [Folding([NOTICE], None, None)];
  }

  lemma ToSecondTurn() returns (steps: seq<Step>)
    ensures CanRun(INITIAL, steps) && Run(INITIAL, steps) == SECOND_TURN
  {
    var s := IN_HAND;
    steps := ToInHand();
    steps, s := Then(steps, s, UserFrame("b"));
    assert s.actors == [Folding([NOTICE], None, None), Spawned(UserTrigger("b"), 2)];
    steps, s := Then(steps, s, Advance(1));
    steps, s := Then(steps, s, Advance(1));
    assert s.log == SECOND_TURN.log;
    SnapshotOfPlainLog(s.log);
    steps, s := Then(steps, s, Advance(1));
    assert s.actors == SECOND_TURN.actors;
  }

  lemma {:induction false} SnapshotOfPlainLog(log: Log)
    requires forall m <- log :: !IsMarker(m)
    ensures Snapshot(log) == log
  {
    if log != [] {
      SnapshotOfPlainLog(log[1..]);
    }
  }

  /** The released fold lands behind the snapshot, and the end of the second turn overwrites it. */
  lemma LateFoldLosesInjection() returns (steps: seq<Step>)
    ensures CanRun(INITIAL, steps)
    ensures InjectionsOf(Run(INITIAL, steps).log) == [] && Run(INITIAL, steps).folded == [NOTICE]
  {
    var s := SECOND_TURN;
    steps := ToSecondTurn();
    steps, s := Then(steps, s, Advance(0));
    var base := s.actors[1].base;
    LogAfterInjections(base, SilentTurn());
    NoInjections(base);
    SilentTurnAfter(base);
    steps, s := Then(steps, s, EndTurn(1, SilentTurn()));
  }

  lemma Then(steps: seq<Step>, s: System, step: Step) returns (steps': seq<Step>, s': System)
    requires CanRun(INITIAL, steps) && Run(INITIAL, steps) == s && Enabled(s, step)
    ensures steps' == steps + [step] && s' == Apply(s, step)
    ensures CanRun(INITIAL, steps') && Run(INITIAL, steps') == s'
  {
    OneMore(INITIAL, steps, step);
    steps', s' := steps + [step], Apply(s, step);
  }

  // ── Decision and fold as one step ───────────────────────────────────────────

  ghost predicate ReleasedAt(s: System, i: int) {
    0 <= i < |s.actors| && s.actors[i].Folding? && s.actors[i].next.None?
  }

  /** Whoever has released the gate folds before anything else happens. */
  ghost predicate PromptFolds(s: System, steps: seq<Step>)
    requires CanRun(s, steps)
    decreases |steps|
  {
    steps == [] || (
      && ((exists i :: ReleasedAt(s, i)) ==> steps[0].Advance? && ReleasedAt(s, steps[0].actor))
      && PromptFolds(Apply(s, steps[0]), steps[1..]))
  }

  ghost predicate BasesCurrent(s: System) {
    && (forall i :: 0 <= i < |s.actors| && s.actors[i].Running? ==>
          InjectionsOf(s.actors[i].base) == InjectionsOf(s.log))
    && (forall i :: ReleasedAt(s, i) ==> !s.gate.streaming)
  }

  lemma PromptStep(s: System, step: Step)
    requires Inv(s) && LogInv(s) && Enabled(s, step) && BasesCurrent(s)
    requires (exists i :: ReleasedAt(s, i)) ==> step.Advance? && ReleasedAt(s, step.actor)
    ensures BasesCurrent(Apply(s, step))
  {
    var s' := Apply(s, step);
    forall i | 0 <= i < |s'.actors| && s'.actors[i].Running?
      ensures InjectionsOf(s'.actors[i].base) == InjectionsOf(s'.log)
    {
      PromptBase(s, step, i);
    }
    forall i | ReleasedAt(s', i) ensures !s'.gate.streaming {
      if ReleasedAt(s, i) {
        assert !s.gate.streaming;
      }
    }
  }

  lemma PromptBase(s: System, step: Step, i: nat)
    requires Inv(s) && LogInv(s) && Enabled(s, step) && BasesCurrent(s)
    requires (exists i :: ReleasedAt(s, i)) ==> step.Advance? && ReleasedAt(s, step.actor)
    requires i < |Apply(s, step).actors| && Apply(s, step).actors[i].Running?
    ensures InjectionsOf(Apply(s, step).actors[i].base) == InjectionsOf(Apply(s, step).log)
  {
    RunningBefore(s, step, i);
    if s.actors[i].Running? {
      assert OwnerAt(s, i);
      if step.Advance? {
        OnlyOwnersAdvance(s, step.actor);
      }
    } else {
      SnapshotKeepsInjections(s.log);
    }
  }

  /** While the gate streams and whoever released it has folded, only its owner has steps of its own. */
  lemma OnlyOwnersAdvance(s: System, i: nat)
    requires Enabled(s, Advance(i)) && s.gate.streaming && BasesCurrent(s)
    ensures OwnerAt(s, i)
  {
    assert !ReleasedAt(s, i);
  }

  lemma {:induction false} PromptFrom(s: System, steps: seq<Step>)
    requires Inv(s) && LogInv(s) && BasesCurrent(s) && CanRun(s, steps) && PromptFolds(s, steps)
    ensures NeverEndsLate(s, steps)
    decreases |steps|
  {
    if steps != [] {
      PromptStep(s, steps[0]);
      StepKeepsInv(s, steps[0]);
      StepKeepsLogInv(s, steps[0]);
      PromptFrom(Apply(s, steps[0]), steps[1..]);
    }
  }

  /** If decision and fold are one step, no injection that reached the log is ever lost. */
  lemma PromptFoldsSurvive(steps: seq<Step>)
    requires CanRun(INITIAL, steps) && PromptFolds(INITIAL, steps)
    ensures InjectionsOf(Run(INITIAL, steps).log) == Run(INITIAL, steps).folded
  {
    PromptFrom(INITIAL, steps);
    InjectionsSurvive(steps);
  }

  // ── Tool calls stay paired ──────────────────────────────────────────────────

  /** Every reply that carries tool calls stops for `tool_use`. */
  ghost predicate WellStopped(step: Step) {
    step.EndTurn? ==> forall call <- step.script.calls :: Answered(call)
  }

  ghost predicate LogsPaired(s: System) {
    && Paired(s.log)
    && (forall i :: 0 <= i < |s.actors| && s.actors[i].Running? ==> Paired(s.actors[i].base))
  }

  lemma LogAfterPaired(base: Log, script: Script)
    requires Paired(base) && forall call <- script.calls :: Answered(call)
    ensures Paired(LogAfter(base, script))
  {
    var out := Result(script);
    LoopPairs(script.calls, 0, script.exec, script.cancelAt, 0);
    PairedConcat(base, out.messages);
    PairedExtend(base + out.messages, Marker(out.status));
  }

  lemma StepKeepsPairs(s: System, step: Step)
    requires LogInv(s) && LogsPaired(s) && Enabled(s, step) && WellStopped(step)
    ensures LogsPaired(Apply(s, step))
  {
    var s' := Apply(s, step);
    SnapshotKeepsPairs(s.log);
    match step {
      case EndTurn(i, script) => LogAfterPaired(s.actors[i].base, script);
      case Advance(i) =>
        assert CarriesInjections(s.actors[i]);
        match s.actors[i] {
          case Folding(injections, userMsg, _) =>
            var user := if userMsg.Some? then [UserText(userMsg.value)] else [];
            PairedExtend(s.log, user);
            PairedExtend(s.log + user, injections);
          case AutoFolding(drained, _) => PairedExtend(s.log, drained);
          case Appending(text, _) => PairedExtend(s.log, [UserText(text)]);
          case _ =>
        }
      case _ =>
    }
  }

  lemma {:induction false} PairsFrom(s: System, steps: seq<Step>)
    requires Inv(s) && LogInv(s) && LogsPaired(s) && CanRun(s, steps)
    requires forall step <- steps :: WellStopped(step)
    ensures LogsPaired(Run(s, steps))
    decreases |steps|
  {
    if steps != [] {
      assert WellStopped(steps[0]);
      StepKeepsInv(s, steps[0]);
      StepKeepsLogInv(s, steps[0]);
      StepKeepsPairs(s, steps[0]);
      PairsFrom(Apply(s, steps[0]), steps[1..]);
    }
  }

  /**
    In every interleaving, with interrupts anywhere: if replies with tool calls stop for
    `tool_use`, then the log and every running turn's copy of it stay paired.
   */
  lemma ToolCallsStayPaired(steps: seq<Step>)
    requires CanRun(INITIAL, steps)
    requires forall step <- steps :: WellStopped(step)
    ensures LogsPaired(Run(INITIAL, steps))
  {
    PairsFrom(INITIAL, steps);
  }
}
