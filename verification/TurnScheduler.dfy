/**
  Everything that steps on one session's turn gate (lair/src/agent.rs), as a transition
  system. A step is one lock section of the gate or of the message log; between two steps of
  an actor any other actor may move. An API key is present, the startup prompt turn is not
  modelled, and nothing clears the log.
 */
module TurnScheduler {
  import opened Prelude
  import opened Conversation
  import opened SendMessage
  import opened TurnGates

  datatype Trigger = UserTrigger(text: string) | AutoTrigger

  /** Where a task is. `Folding` with `next == None` has released the gate already. */
  datatype Actor =
    | Spawned(trigger: Trigger, token: nat)
    | Appending(text: string, token: nat)
    | Snapshotting(token: nat)
    | Running(token: nat, base: Log)
    | Ended(token: nat)
    | Folding(injections: Log, userMsg: Option<string>, next: Option<nat>)
    | Draining(token: nat)
    | AutoFolding(drained: Log, token: nat)
    | Done

  /** What the gate decided, in the order it decided it. */
  datatype Happening = Started(trigger: Trigger) | Released | UserQueued(text: string) | InterruptAccepted

  /**
    `pushed`, `folded` and `trace` are history: the injections ever pushed, the injections
    folded into the log in fold order, and the gate's decisions.
   */
  datatype System = System(
    gate: Gate<nat>,
    log: Log,
    actors: seq<Actor>,
    nextToken: nat,
    cancelled: set<nat>,
    pushed: Log,
    folded: Log,
    trace: seq<Happening>)

  /** The environment of one turn: see module SendMessage. */
  datatype Script = Script(calls: seq<Call>, exec: Executor, cancelAt: Option<nat>)

  datatype Step =
    | UserFrame(text: string)
    | InterruptFrame
    | Push(message: ApiMessage)
    | ContinueAuto
    | Advance(actor: nat)
    | EndTurn(actor: nat, script: Script)

  const INITIAL := System(Gate(false, [], None, 0, false, 0), [], [], 1, {}, [], [], [])

  predicate IsInjection(m: ApiMessage) {
    m.role == BgComplete || m.role == BgProgress || m.role == PeerMessage
  }

  /** An injection as every producer builds it: text only. */
  predicate IsNotice(m: ApiMessage) {
    IsInjection(m) && forall b <- m.content :: b.Text?
  }

  ghost function Result(script: Script): Outcome {
    Loop(script.calls, 0, script.exec, script.cancelAt, 0)
  }

  ghost predicate Enabled(s: System, step: Step) {
    match step
    case UserFrame(_) | InterruptFrame | ContinueAuto => true
    case Push(m) => IsNotice(m)
    case Advance(i) => i < |s.actors| && !s.actors[i].Running? && !s.actors[i].Done?
    case EndTurn(i, script) =>
      && i < |s.actors| && s.actors[i].Running?
      && !Result(script).status.Pending?
      && (Result(script).status.WasInterrupted? ==> s.actors[i].token in s.cancelled)
  }

  function UserText(text: string): ApiMessage {
    ApiMessage(User, [Text(text)])
  }

  function Marker(status: Status): Log {
    match status
    case WasInterrupted => [ApiMessage(Interrupted, [Text("interrupted")])]
    case Errored(e) => [ApiMessage(Error, [Text(e)])]
    case _ => []
  }

  /** A turn overwrites the log with its own copy, grown by what it did. */
  ghost function LogAfter(base: Log, script: Script): Log {
    base + Result(script).messages + Marker(Result(script).status)
  }

  ghost function Moved(s: System, i: nat, a: Actor): System
    requires i < |s.actors|
  {
    s.(actors := s.actors[i := a])
  }

  ghost function Advanced(s: System, i: nat): System
    requires Enabled(s, Advance(i))
  {
    match s.actors[i]
    case Spawned(UserTrigger(text), t) => Moved(s, i, Appending(text, t)).(gate := ResetDepth(s.gate))
    case Spawned(AutoTrigger, t) => Moved(s, i, Running(t, Snapshot(s.log)))
    case Appending(text, t) => Moved(s, i, Snapshotting(t)).(log := s.log + [UserText(text)])
    case Snapshotting(t) => Moved(s, i, Running(t, Snapshot(s.log)))
    case Ended(_) => Finalized(s, i)
    case Folding(injections, userMsg, next) =>
      var user := if userMsg.Some? then [UserText(userMsg.value)] else [];
      var trigger := if userMsg.Some? then UserTrigger(userMsg.value) else AutoTrigger;
      Moved(s, i, if next.Some? then Spawned(trigger, next.value) else Done)
        .(log := s.log + user + injections, folded := s.folded + injections)
    case Draining(t) =>
      if s.gate.pendingInjections == [] then
        Moved(s, i, Done).(gate := LostRace(s.gate), trace := s.trace + [Released])
      else
        Moved(s, i, AutoFolding(s.gate.pendingInjections, t)).(gate := TakeInjections(s.gate))
    case AutoFolding(drained, t) =>
      Moved(s, i, Spawned(AutoTrigger, t)).(log := s.log + drained, folded := s.folded + drained)
  }

  /** The locked block of `finalize_turn`. */
  ghost function Finalized(s: System, i: nat): System
    requires i < |s.actors|
  {
    var hand := Folding(s.gate.pendingInjections, s.gate.pendingUserMsg,
                        if Decide(s.gate).NoNext? then None else Some(s.nextToken));
    var happened := match Decide(s.gate)
      case UserNext(text) => Started(UserTrigger(text))
      case AutoNext => Started(AutoTrigger)
      case NoNext => Released;
    Moved(s, i, hand).(
      gate := Finalize(s.gate, s.nextToken),
      nextToken := if Decide(s.gate).NoNext? then s.nextToken else s.nextToken + 1,
      trace := s.trace + [happened])
  }

  ghost function Apply(s: System, step: Step): System
    requires Enabled(s, step)
  {
    match step
    case UserFrame(text) =>
      if text == "" then s
      else (
        var g := AcceptUserMessage(s.gate, text, s.nextToken);
        match UserMessageReply(s.gate)
        case Claimed => s.(gate := g, actors := s.actors + [Spawned(UserTrigger(text), s.nextToken)],
                           nextToken := s.nextToken + 1, trace := s.trace + [Started(UserTrigger(text))])
        case Queued => s.(gate := g, trace := s.trace + [UserQueued(text)])
        case Refused => s
      )
    case InterruptFrame =>
      if s.gate.streaming then
        s.(gate := AcceptInterrupt(s.gate), cancelled := s.cancelled + {s.gate.cancel},
           trace := s.trace + [InterruptAccepted])
      else s
    case Push(m) => s.(gate := Injected(s.gate, m), pushed := s.pushed + [m])
    case ContinueAuto =>
      if MayContinue(s.gate) then
        s.(gate := ClaimAuto(s.gate, s.nextToken), actors := s.actors + [Draining(s.nextToken)],
           nextToken := s.nextToken + 1, trace := s.trace + [Started(AutoTrigger)])
      else s
    case Advance(i) => Advanced(s, i)
    case EndTurn(i, script) =>
      Moved(s, i, Ended(s.actors[i].token)).(log := LogAfter(s.actors[i].base, script))
  }

  ghost predicate CanRun(s: System, steps: seq<Step>)
    decreases |steps|
  {
    steps == [] || (Enabled(s, steps[0]) && CanRun(Apply(s, steps[0]), steps[1..]))
  }

  ghost function Run(s: System, steps: seq<Step>): System
    requires CanRun(s, steps)
    decreases |steps|
  {
    if steps == [] then s else Run(Apply(s, steps[0]), steps[1..])
  }

  // ── Reading the trace ───────────────────────────────────────────────────────

  predicate IsBoundary(h: Happening) {
    h.Started? || h.Released?
  }

  /** Auto-turns started since the last user turn or release. */
  function AutoRun(trace: seq<Happening>): nat {
    if trace == [] then 0
    else
      var before := AutoRun(trace[..|trace| - 1]);
      match trace[|trace| - 1]
      case Started(AutoTrigger) => before + 1
      case Started(UserTrigger(_)) => 0
      case Released => 0
      case _ => before
  }

  /** The user text accepted since the last turn start or release, if any. */
  function QueuedIn(trace: seq<Happening>): Option<string> {
    if trace == [] then None
    else
      match trace[|trace| - 1]
      case Started(_) => None
      case Released => None
      case UserQueued(text) => Some(text)
      case InterruptAccepted => QueuedIn(trace[..|trace| - 1])
  }

  /** Whether an interrupt was accepted since the last turn start or release. */
  function InterruptedIn(trace: seq<Happening>): bool {
    if trace == [] then false
    else
      match trace[|trace| - 1]
      case Started(_) => false
      case Released => false
      case UserQueued(_) => InterruptedIn(trace[..|trace| - 1])
      case InterruptAccepted => true
  }

  // ── The invariant ───────────────────────────────────────────────────────────

  /** Owners of the gate: everyone but the finished and those that have released it. */
  predicate Owns(a: Actor) {
    !a.Done? && (a.Folding? ==> a.next.Some?)
  }

  function TokenOf(a: Actor): nat
    requires Owns(a)
  {
    if a.Folding? then a.next.value else a.token
  }

  ghost predicate OwnerAt(s: System, i: int) {
    0 <= i < |s.actors| && Owns(s.actors[i])
  }

  /** `streaming` holds exactly when somebody owns the gate, and there is never more than one. */
  ghost predicate SingleOwner(s: System) {
    && (forall i, j :: OwnerAt(s, i) && OwnerAt(s, j) ==> i == j)
    && (s.gate.streaming <==> exists i :: OwnerAt(s, i))
  }

  /** The gate holds its owner's token, the newest one minted; its flag says whether it was cancelled. */
  ghost predicate TokensInOrder(s: System) {
    && s.gate.cancel + 1 == s.nextToken
    && (forall t <- s.cancelled :: t < s.nextToken)
    && (forall i :: OwnerAt(s, i) ==> TokenOf(s.actors[i]) == s.gate.cancel)
    && (s.gate.streaming ==> (s.gate.interruptRequested <==> s.gate.cancel in s.cancelled))
  }

  ghost predicate IdleIsClean(s: System) {
    !s.gate.streaming ==> s.gate.pendingUserMsg == None && s.gate.autoDepth == 0 && !s.gate.interruptRequested
  }

  /** What an owner in the middle of its work relies on. */
  ghost predicate OwnerReady(s: System, a: Actor) {
    match a
    case Spawned(UserTrigger(_), _) => s.gate.autoDepth == 0
    case Folding(_, userMsg, next) =>
      (userMsg.Some? ==> next.Some? && s.gate.autoDepth == 0)
    case Draining(_) => s.gate.pendingInjections != []
    case _ => true
  }

  ghost predicate AllReady(s: System) {
    forall i :: 0 <= i < |s.actors| ==> OwnerReady(s, s.actors[i])
  }

  /** The gate is a summary of its own decisions. */
  ghost predicate GateFollowsTrace(s: System) {
    && s.gate.autoDepth == AutoRun(s.trace)
    && s.gate.pendingUserMsg == QueuedIn(s.trace)
    && s.gate.interruptRequested == InterruptedIn(s.trace)
  }

  /** Every decision obeys the rules of the gate. */
  ghost predicate LawfulAt(trace: seq<Happening>, j: int)
    requires 0 <= j < |trace|
  {
    var before := trace[..j];
    && (IsBoundary(trace[j]) && QueuedIn(before).Some? ==> trace[j] == Started(UserTrigger(QueuedIn(before).value)))
    && (InterruptedIn(before) ==> trace[j] != Started(AutoTrigger))
    && (trace[j] == Started(AutoTrigger) ==> AutoRun(before) < MAX_AUTO_DEPTH)
    && (trace[j].UserQueued? ==> QueuedIn(before) == None)
  }

  ghost predicate Lawful(trace: seq<Happening>) {
    forall j :: 0 <= j < |trace| ==> LawfulAt(trace, j)
  }

  ghost predicate Inv(s: System) {
    && SingleOwner(s) && TokensInOrder(s) && IdleIsClean(s) && AllReady(s)
    && GateFollowsTrace(s) && Lawful(s.trace)
  }

  lemma LawfulSnoc(trace: seq<Happening>, h: Happening)
    requires Lawful(trace) && LawfulAt(trace + [h], |trace|)
    ensures Lawful(trace + [h])
  {
    forall j | 0 <= j < |trace + [h]| ensures LawfulAt(trace + [h], j) {
      if j < |trace| {
        assert LawfulAt(trace, j);
        assert (trace + [h])[..j] == trace[..j];
      }
    }
  }

  /** What one more decision does to the readings of the trace. */
  lemma TraceSnoc(trace: seq<Happening>, h: Happening)
    ensures (trace + [h])[..|trace|] == trace
    ensures AutoRun(trace + [h]) == match h
                                    case Started(AutoTrigger) => AutoRun(trace) + 1
                                    case Started(UserTrigger(_)) => 0
                                    case Released => 0
                                    case _ => AutoRun(trace)
    ensures QueuedIn(trace + [h]) == match h
                                     case UserQueued(text) => Some(text)
                                     case InterruptAccepted => QueuedIn(trace)
                                     case _ => None
    ensures InterruptedIn(trace + [h]) == match h
                                          case UserQueued(_) => InterruptedIn(trace)
                                          case InterruptAccepted => true
                                          case _ => false
  {
    assert (trace + [h])[..|trace + [h]| - 1] == trace;
  }

  lemma InitialInv()
    ensures Inv(INITIAL)
  {}

  // ── One owner: how the owner changes ────────────────────────────────────────

  /** The owner of `s` does something and stays the owner, or stops being it. */
  lemma OwnerMoves(s: System, s': System, i: nat, a: Actor)
    requires SingleOwner(s) && OwnerAt(s, i) && AllReady(s)
    requires s'.actors == s.actors[i := a] && s'.gate.streaming == Owns(a) && OwnerReady(s', a)
    ensures SingleOwner(s') && AllReady(s')
    ensures forall j :: OwnerAt(s', j) ==> j == i
  {
    assert forall j :: OwnerAt(s', j) && j != i ==> OwnerAt(s, j);
    assert Owns(a) ==> OwnerAt(s', i);
    forall j | 0 <= j < |s'.actors| ensures OwnerReady(s', s'.actors[j]) {
      assert OwnerReady(s, s.actors[j]);
      assert j != i ==> !OwnerAt(s, j);
    }
  }

  /** Somebody claims an idle gate. */
  lemma OwnerJoins(s: System, s': System, a: Actor)
    requires SingleOwner(s) && AllReady(s) && !s.gate.streaming
    requires s'.actors == s.actors + [a] && Owns(a) && s'.gate.streaming && OwnerReady(s', a)
    ensures SingleOwner(s') && AllReady(s')
    ensures forall j :: OwnerAt(s', j) ==> j == |s.actors|
  {
    assert forall j :: OwnerAt(s', j) && j < |s.actors| ==> OwnerAt(s, j);
    assert OwnerAt(s', |s.actors|);
    forall j | 0 <= j < |s'.actors| ensures OwnerReady(s', s'.actors[j]) {
      if j < |s.actors| {
        assert OwnerReady(s, s.actors[j]) && !OwnerAt(s, j);
      }
    }
  }

  /** A task that released the gate earlier finishes its fold. */
  lemma BystanderLeaves(s: System, i: nat)
    requires Inv(s) && Enabled(s, Advance(i)) && !Owns(s.actors[i])
    ensures Inv(Advanced(s, i))
  {
    var s' := Advanced(s, i);
    assert s.actors[i].Folding? && s'.actors == s.actors[i := Done];
    assert forall j :: OwnerAt(s', j) <==> OwnerAt(s, j);
    forall j | 0 <= j < |s'.actors| ensures OwnerReady(s', s'.actors[j]) {
      assert OwnerReady(s, s.actors[j]);
    }
  }

  lemma OwnerStreams(s: System, i: nat)
    requires SingleOwner(s) && OwnerAt(s, i)
    ensures s.gate.streaming
  {}

  lemma UserFrameKeepsInv(s: System, text: string)
    requires Inv(s) && text != ""
    ensures Inv(Apply(s, UserFrame(text)))
  {
    var s' := Apply(s, UserFrame(text));
    match UserMessageReply(s.gate) {
      case Claimed =>
        TraceSnoc(s.trace, Started(UserTrigger(text)));
        LawfulSnoc(s.trace, Started(UserTrigger(text)));
        OwnerJoins(s, s', Spawned(UserTrigger(text), s.nextToken));
      case Queued =>
        TraceSnoc(s.trace, UserQueued(text));
        LawfulSnoc(s.trace, UserQueued(text));
        assert forall j :: OwnerAt(s', j) <==> OwnerAt(s, j);
        assert forall j :: 0 <= j < |s.actors| ==> OwnerReady(s, s.actors[j]) ==> OwnerReady(s', s'.actors[j]);
      case Refused =>
    }
  }

  lemma InterruptKeepsInv(s: System)
    requires Inv(s)
    ensures Inv(Apply(s, InterruptFrame))
  {
    var s' := Apply(s, InterruptFrame);
    if s.gate.streaming {
      TraceSnoc(s.trace, InterruptAccepted);
      LawfulSnoc(s.trace, InterruptAccepted);
      assert forall j :: OwnerAt(s', j) <==> OwnerAt(s, j);
      assert forall j :: 0 <= j < |s.actors| ==> OwnerReady(s, s.actors[j]) ==> OwnerReady(s', s'.actors[j]);
    }
  }

  lemma PushKeepsInv(s: System, m: ApiMessage)
    requires Inv(s) && IsNotice(m)
    ensures Inv(Apply(s, Push(m)))
  {
    var s' := Apply(s, Push(m));
    assert forall j :: OwnerAt(s', j) <==> OwnerAt(s, j);
    assert forall j :: 0 <= j < |s.actors| ==> OwnerReady(s, s.actors[j]) ==> OwnerReady(s', s'.actors[j]);
  }

  lemma ContinueKeepsInv(s: System)
    requires Inv(s)
    ensures Inv(Apply(s, ContinueAuto))
  {
    var s' := Apply(s, ContinueAuto);
    if MayContinue(s.gate) {
      TraceSnoc(s.trace, Started(AutoTrigger));
      LawfulSnoc(s.trace, Started(AutoTrigger));
      OwnerJoins(s, s', Draining(s.nextToken));
    }
  }

  lemma FinalizeKeepsInv(s: System, i: nat)
    requires Inv(s) && i < |s.actors| && s.actors[i].Ended?
    ensures Inv(Finalized(s, i))
  {
    var s' := Finalized(s, i);
    assert OwnerAt(s, i);
    var h := s'.trace[|s.trace|];
    assert s'.trace == s.trace + [h];
    TraceSnoc(s.trace, h);
    LawfulSnoc(s.trace, h);
    OwnerMoves(s, s', i, s'.actors[i]);
  }

  /** The owner's other steps: they change neither trace nor token. */
  lemma OwnerStepKeepsInv(s: System, i: nat)
    requires Inv(s) && Enabled(s, Advance(i)) && Owns(s.actors[i]) && !s.actors[i].Ended?
    ensures Inv(Advanced(s, i))
  {
    var s' := Advanced(s, i);
    assert OwnerAt(s, i) && OwnerReady(s, s.actors[i]);
    OwnerStreams(s, i);
    OwnerMoves(s, s', i, s'.actors[i]);
  }

  lemma EndKeepsInv(s: System, i: nat, script: Script)
    requires Inv(s) && Enabled(s, EndTurn(i, script))
    ensures Inv(Apply(s, EndTurn(i, script)))
  {
    var s' := Apply(s, EndTurn(i, script));
    assert OwnerAt(s, i);
    OwnerStreams(s, i);
    OwnerMoves(s, s', i, s'.actors[i]);
  }

  lemma StepKeepsInv(s: System, step: Step)
    requires Inv(s) && Enabled(s, step)
    ensures Inv(Apply(s, step))
  {
    match step
    case UserFrame(text) => if text != "" { UserFrameKeepsInv(s, text); }
    case InterruptFrame => InterruptKeepsInv(s);
    case Push(m) => PushKeepsInv(s, m);
    case ContinueAuto => ContinueKeepsInv(s);
    case Advance(i) =>
      if !Owns(s.actors[i]) {
        BystanderLeaves(s, i);
      } else if s.actors[i].Ended? {
        FinalizeKeepsInv(s, i);
      } else {
        OwnerStepKeepsInv(s, i);
      }
    case EndTurn(i, script) => EndKeepsInv(s, i, script);
  }

  /** The invariant holds in every reachable state of every interleaving. */
  lemma {:induction false} RunKeepsInv(s: System, steps: seq<Step>)
    requires Inv(s) && CanRun(s, steps)
    ensures Inv(Run(s, steps))
    decreases |steps|
  {
    if steps != [] {
      StepKeepsInv(s, steps[0]);
      RunKeepsInv(Apply(s, steps[0]), steps[1..]);
    }
  }

  lemma ReachableInv(steps: seq<Step>)
    requires CanRun(INITIAL, steps)
    ensures Inv(Run(INITIAL, steps))
  {
    InitialInv();
    RunKeepsInv(INITIAL, steps);
  }
}
