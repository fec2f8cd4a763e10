/** What every run of the turn gate guarantees: the main results about lair/src/agent.rs. */
module TurnTheorems {
  import opened Prelude
  import opened Conversation
  import opened SendMessage
  import opened TurnGates
  import opened TurnScheduler

  // ── Single ownership ────────────────────────────────────────────────────────

  /** A turn is in flight: `send_message` works on its own copy of the log. */
  ghost predicate RunningAt(s: System, i: int) {
    0 <= i < |s.actors| && s.actors[i].Running?
  }

  /**
    In every reachable interleaving: the gate streams exactly when one task owns it, two turns
    never overlap, an idle gate is clean, and `try_continue_auto` never loses its race.
   */
  lemma SingleOwnership(steps: seq<Step>)
    requires CanRun(INITIAL, steps)
    ensures var s := Run(INITIAL, steps);
            && (s.gate.streaming <==> exists i :: OwnerAt(s, i))
            && (forall i, j :: OwnerAt(s, i) && OwnerAt(s, j) ==> i == j)
            && (forall i, j :: RunningAt(s, i) && RunningAt(s, j) ==> i == j)
            && (forall i :: 0 <= i < |s.actors| && s.actors[i].Draining? ==> s.gate.pendingInjections != [])
            && (!s.gate.streaming ==>
                  s.gate.pendingUserMsg == None && s.gate.autoDepth == 0 && !s.gate.interruptRequested)
  {
    ReachableInv(steps);
    var s := Run(INITIAL, steps);
    forall i, j | RunningAt(s, i) && RunningAt(s, j) ensures i == j {
      assert OwnerAt(s, i) && OwnerAt(s, j);
    }
    forall i | 0 <= i < |s.actors| && s.actors[i].Draining? ensures s.gate.pendingInjections != [] {
      assert OwnerReady(s, s.actors[i]);
    }
  }

  /**
    Nothing keeps a queued injection waiting at an idle gate: in every reachable state the three
    remaining guards of `try_continue_auto` hold by themselves.
   */
  lemma IdleGateContinues(steps: seq<Step>)
    requires CanRun(INITIAL, steps)
    ensures var g := Run(INITIAL, steps).gate;
            MayContinue(g) <==> !g.streaming && g.pendingInjections != []
  {
    ReachableInv(steps);
  }

  // ── Interrupts ──────────────────────────────────────────────────────────────

  /**
    An interrupt is accepted exactly while a turn owns the gate, and it cancels the token of
    that turn, whatever stage it is in: the newest token minted, and nobody else's.
   */
  lemma InterruptHitsTheOwner(steps: seq<Step>, i: nat)
    requires CanRun(INITIAL, steps)
    requires OwnerAt(Run(INITIAL, steps), i)
    ensures var s := Run(INITIAL, steps);
            var s' := Apply(s, InterruptFrame);
            && s'.cancelled == s.cancelled + {TokenOf(s.actors[i])}
            && TokenOf(s.actors[i]) + 1 == s.nextToken
            && s'.gate.interruptRequested
            && s'.actors == s.actors
  {
    ReachableInv(steps);
    OwnerStreams(Run(INITIAL, steps), i);
  }

  lemma InterruptOfIdleGateIsIgnored(steps: seq<Step>)
    requires CanRun(INITIAL, steps)
    requires forall i :: !OwnerAt(Run(INITIAL, steps), i)
    ensures Apply(Run(INITIAL, steps), InterruptFrame) == Run(INITIAL, steps)
  {
    ReachableInv(steps);
  }

  /** No turn start and no release strictly between `i` and `j`. */
  ghost predicate SameHold(trace: seq<Happening>, i: int, j: int)
    requires 0 <= i <= j <= |trace|
  {
    forall k :: i < k < j ==> !IsBoundary(trace[k])
  }

  lemma {:induction false} InterruptIsRemembered(trace: seq<Happening>, i: nat, j: nat)
    requires i < j <= |trace| && SameHold(trace, i, j) && trace[i] == InterruptAccepted
    ensures InterruptedIn(trace[..j])
    decreases j
  {
    assert trace[..j][..j - 1] == trace[..j - 1];
    if i < j - 1 {
      assert !IsBoundary(trace[j - 1]);
      InterruptIsRemembered(trace, i, j - 1);
    }
  }

  lemma {:induction false} QueuedIsRemembered(trace: seq<Happening>, i: nat, j: nat)
    requires i < j <= |trace| && SameHold(trace, i, j) && trace[i].UserQueued? && Lawful(trace)
    ensures QueuedIn(trace[..j]) == Some(trace[i].text)
    decreases j
  {
    assert trace[..j][..j - 1] == trace[..j - 1];
    if i < j - 1 {
      assert !IsBoundary(trace[j - 1]);
      QueuedIsRemembered(trace, i, j - 1);
      assert LawfulAt(trace, j - 1);
    }
  }

  /**
    In every run: after an accepted interrupt the next turn boundary starts no auto-turn, and
    after an accepted user message the next turn boundary starts the turn of that message.
   */
  lemma NextBoundary(steps: seq<Step>, i: nat, j: nat)
    requires CanRun(INITIAL, steps)
    requires i < j < |Run(INITIAL, steps).trace|
    requires SameHold(Run(INITIAL, steps).trace, i, j) && IsBoundary(Run(INITIAL, steps).trace[j])
    ensures var trace := Run(INITIAL, steps).trace;
            && (trace[i] == InterruptAccepted ==> trace[j] != Started(AutoTrigger))
            && (trace[i].UserQueued? ==> trace[j] == Started(UserTrigger(trace[i].text)))
  {
    ReachableInv(steps);
    var trace := Run(INITIAL, steps).trace;
    assert LawfulAt(trace, j);
    if trace[i] == InterruptAccepted {
      InterruptIsRemembered(trace, i, j);
    }
    if trace[i].UserQueued? {
      QueuedIsRemembered(trace, i, j);
    }
  }

  // ── Auto-turns are bounded ──────────────────────────────────────────────────

  function CountAutos(window: seq<Happening>): nat {
    if window == [] then 0
    else CountAutos(window[..|window| - 1]) + (if window[|window| - 1] == Started(AutoTrigger) then 1 else 0)
  }

  /** Neither a release nor a user turn in `trace[i..j]`. */
  ghost predicate OnlyAutos(trace: seq<Happening>, i: int, j: int)
    requires 0 <= i <= j <= |trace|
  {
    forall k :: i <= k < j ==> trace[k] != Released && (trace[k].Started? ==> trace[k].trigger == AutoTrigger)
  }

  lemma {:induction false} WindowFitsRun(trace: seq<Happening>, i: nat, j: nat)
    requires i <= j <= |trace| && OnlyAutos(trace, i, j)
    ensures CountAutos(trace[i..j]) <= AutoRun(trace[..j])
    decreases j
  {
    if i < j {
      assert trace[i..j][..j - i - 1] == trace[i..j - 1];
      assert trace[..j][..j - 1] == trace[..j - 1];
      assert trace[j - 1] != Released;
      WindowFitsRun(trace, i, j - 1);
    }
  }

  lemma {:induction false} RunIsBounded(trace: seq<Happening>, j: nat)
    requires j <= |trace| && Lawful(trace)
    ensures AutoRun(trace[..j]) <= MAX_AUTO_DEPTH
    decreases j
  {
    if j > 0 {
      assert trace[..j][..j - 1] == trace[..j - 1];
      assert LawfulAt(trace, j - 1);
      RunIsBounded(trace, j - 1);
    }
  }

  /** In every run, any stretch without a release or a user turn starts at most three auto-turns. */
  lemma AutoTurnsAreBounded(steps: seq<Step>, i: nat, j: nat)
    requires CanRun(INITIAL, steps)
    requires i <= j <= |Run(INITIAL, steps).trace| && OnlyAutos(Run(INITIAL, steps).trace, i, j)
    ensures CountAutos(Run(INITIAL, steps).trace[i..j]) <= 3
  {
    ReachableInv(steps);
    WindowFitsRun(Run(INITIAL, steps).trace, i, j);
    RunIsBounded(Run(INITIAL, steps).trace, j);
  }

  // ── Injections are conserved ────────────────────────────────────────────────

  /** The injections a task has taken from the queue and not yet folded into the log. */
  function Hand(a: Actor): multiset<ApiMessage> {
    match a
    case Folding(injections, _, _) => multiset(injections)
    case AutoFolding(drained, _) => multiset(drained)
    case _ => multiset{}
  }

  function InHands(actors: seq<Actor>): multiset<ApiMessage> {
    if actors == [] then multiset{} else Hand(actors[0]) + InHands(actors[1..])
  }

  lemma {:induction false} InHandsUpdate(actors: seq<Actor>, i: nat, a: Actor)
    requires i < |actors|
    ensures InHands(actors[i := a]) == InHands(actors) - Hand(actors[i]) + Hand(a)
    ensures Hand(actors[i]) <= InHands(actors)
    decreases i
  {
    var updated := actors[i := a];
    if i == 0 {
      assert updated[1..] == actors[1..];
    } else {
      assert updated[1..] == actors[1..][i - 1 := a];
      InHandsUpdate(actors[1..], i - 1, a);
    }
  }

  lemma {:induction false} InHandsJoin(actors: seq<Actor>, a: Actor)
    ensures InHands(actors + [a]) == InHands(actors) + Hand(a)
  {
    if actors != [] {
      assert (actors + [a])[1..] == actors[1..] + [a];
      InHandsJoin(actors[1..], a);
    }
  }

  /** Every message pushed is in the queue, in one task's hand, or folded into the log, exactly once. */
  ghost predicate Conserved(s: System) {
    multiset(s.pushed) == multiset(s.gate.pendingInjections) + InHands(s.actors) + multiset(s.folded)
  }

  /** One task's step conserves the messages if its own hand, the queue and the log balance. */
  lemma BalancedStep(s: System, s': System, i: nat, a: Actor)
    requires Conserved(s) && i < |s.actors| && s'.actors == s.actors[i := a] && s'.pushed == s.pushed
    requires multiset(s'.gate.pendingInjections) + Hand(a) + multiset(s'.folded)
          == multiset(s.gate.pendingInjections) + Hand(s.actors[i]) + multiset(s.folded)
    ensures Conserved(s')
  {
    InHandsUpdate(s.actors, i, a);
    var others := InHands(s.actors) - Hand(s.actors[i]);
    Rebalance(multiset(s.gate.pendingInjections), Hand(s.actors[i]), others, multiset(s.folded));
    Rebalance(multiset(s'.gate.pendingInjections), Hand(a), others, multiset(s'.folded));
    assert InHands(s.actors) == others + Hand(s.actors[i]);
    assert InHands(s'.actors) == others + Hand(a);
  }

  lemma Rebalance(queue: multiset<ApiMessage>, hand: multiset<ApiMessage>, others: multiset<ApiMessage>,
                  folded: multiset<ApiMessage>)
    ensures queue + (others + hand) + folded == (queue + hand + folded) + others
  {}

  lemma FoldConserves(s: System, i: nat)
    requires Enabled(s, Advance(i)) && Conserved(s) && (s.actors[i].Folding? || s.actors[i].AutoFolding?)
    ensures Conserved(Advanced(s, i))
  {
    var s' := Advanced(s, i);
    var moved := if s.actors[i].Folding? then s.actors[i].injections else s.actors[i].drained;
    assert multiset(s.folded + moved) == multiset(s.folded) + multiset(moved);
    BalancedStep(s, s', i, s'.actors[i]);
  }

  lemma FinalizeConserves(s: System, i: nat)
    requires i < |s.actors| && s.actors[i].Ended? && Conserved(s)
    ensures Conserved(Finalized(s, i))
  {
    BalancedStep(s, Finalized(s, i), i, Finalized(s, i).actors[i]);
  }

  lemma DrainConserves(s: System, i: nat)
    requires i < |s.actors| && s.actors[i].Draining? && Conserved(s)
    ensures Conserved(Advanced(s, i))
  {
    BalancedStep(s, Advanced(s, i), i, Advanced(s, i).actors[i]);
  }

  /** A step between two states in which the task holds nothing. */
  lemma EmptyHandedStep(s: System, s': System, i: nat, a: Actor)
    requires Conserved(s) && i < |s.actors| && s'.actors == s.actors[i := a]
    requires Hand(s.actors[i]) == multiset{} && Hand(a) == multiset{}
    requires s'.pushed == s.pushed && s'.folded == s.folded
    requires s'.gate.pendingInjections == s.gate.pendingInjections
    ensures Conserved(s')
  {
    InHandsUpdate(s.actors, i, a);
  }

  lemma SpawnedConserves(s: System, i: nat)
    requires i < |s.actors| && s.actors[i].Spawned? && Conserved(s)
    ensures Conserved(Advanced(s, i))
  {
    EmptyHandedStep(s, Advanced(s, i), i, Advanced(s, i).actors[i]);
  }

  lemma StartingConserves(s: System, i: nat)
    requires i < |s.actors| && (s.actors[i].Appending? || s.actors[i].Snapshotting?) && Conserved(s)
    ensures Conserved(Advanced(s, i))
  {
    EmptyHandedStep(s, Advanced(s, i), i, Advanced(s, i).actors[i]);
  }

  /** A new task holds nothing. */
  lemma JoinConserves(s: System, s': System, a: Actor)
    requires Conserved(s) && s'.actors == s.actors + [a] && Hand(a) == multiset{}
    requires s'.pushed == s.pushed && s'.folded == s.folded
    requires s'.gate.pendingInjections == s.gate.pendingInjections
    ensures Conserved(s')
  {
    InHandsJoin(s.actors, a);
  }

  lemma UserFrameConserves(s: System, text: string)
    requires Conserved(s)
    ensures Conserved(Apply(s, UserFrame(text)))
  {
    if text != "" && UserMessageReply(s.gate).Claimed? {
      JoinConserves(s, Apply(s, UserFrame(text)), Spawned(UserTrigger(text), s.nextToken));
    }
  }

  lemma ContinueConserves(s: System)
    requires Conserved(s)
    ensures Conserved(Apply(s, ContinueAuto))
  {
    if MayContinue(s.gate) {
      JoinConserves(s, Apply(s, ContinueAuto), Draining(s.nextToken));
    }
  }

  lemma AdvanceConserves(s: System, i: nat)
    requires Enabled(s, Advance(i)) && Conserved(s)
    ensures Conserved(Advanced(s, i))
  {
    if s.actors[i].Folding? || s.actors[i].AutoFolding? {
      FoldConserves(s, i);
    } else if s.actors[i].Ended? {
      FinalizeConserves(s, i);
    } else if s.actors[i].Draining? {
      DrainConserves(s, i);
    } else if s.actors[i].Spawned? {
      SpawnedConserves(s, i);
    } else {
      StartingConserves(s, i);
    }
  }

  lemma StepConserves(s: System, step: Step)
    requires Enabled(s, step) && Conserved(s)
    ensures Conserved(Apply(s, step))
  {
    match step
    case UserFrame(text) => UserFrameConserves(s, text);
    case ContinueAuto => ContinueConserves(s);
    case Push(m) =>
    case InterruptFrame =>
    case Advance(i) => AdvanceConserves(s, i);
    case EndTurn(i, script) => EmptyHandedStep(s, Apply(s, step), i, Apply(s, step).actors[i]);
  }

  lemma InitiallyConserved()
    ensures Conserved(INITIAL)
  {}

  lemma {:induction false} RunConserves(s: System, steps: seq<Step>)
    requires CanRun(s, steps) && Conserved(s)
    ensures Conserved(Run(s, steps))
    decreases |steps|
  {
    if steps != [] {
      StepConserves(s, steps[0]);
      RunConserves(Apply(s, steps[0]), steps[1..]);
    }
  }

  /** In every reachable state. */
  lemma InjectionsConserved(steps: seq<Step>)
    requires CanRun(INITIAL, steps)
    ensures Conserved(Run(INITIAL, steps))
  {
    InitiallyConserved();
    RunConserves(INITIAL, steps);
  }
}
