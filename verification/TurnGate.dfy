/**
  The turn gate of a chat session (lair/src/agent.rs): who gets the next conversation turn
  is decided under one lock. `Gate` is the state under the lock, the functions are its lock
  sections, and class `TurnGate` is the object whose methods perform them in place.
 */
module TurnGates {
  import opened Prelude
  import opened Conversation

  const MAX_AUTO_DEPTH: nat := 3

  /** `T` is whatever identifies a cancellation token. */
  datatype Gate<T> = Gate(
    streaming: bool,
    pendingInjections: Log,
    pendingUserMsg: Option<string>,
    autoDepth: nat,
    interruptRequested: bool,
    cancel: T)

  function Begun<T>(g: Gate<T>, token: T): Gate<T> {
    g.(cancel := token, interruptRequested := false)
  }

  function Injected<T>(g: Gate<T>, m: ApiMessage): Gate<T> {
    g.(pendingInjections := g.pendingInjections + [m])
  }

  function AcceptInterrupt<T>(g: Gate<T>): Gate<T> {
    if g.streaming then g.(interruptRequested := true) else g
  }

  datatype UserReply = Claimed | Queued | Refused

  /** What a non-empty `user_message` frame does at the gate. */
  function UserMessageReply<T>(g: Gate<T>): UserReply {
    if !g.streaming then Claimed else if g.pendingUserMsg.None? then Queued else Refused
  }

  function AcceptUserMessage<T>(g: Gate<T>, text: string, token: T): Gate<T> {
    match UserMessageReply(g)
    case Claimed => Begun(g.(streaming := true, autoDepth := 0), token)
    case Queued => g.(pendingUserMsg := Some(text))
    case Refused => g
  }

  /** The guard of `try_continue_auto`. */
  predicate MayContinue<T>(g: Gate<T>) {
    && g.pendingInjections != []
    && !g.streaming
    && g.pendingUserMsg.None?
    && !g.interruptRequested
    && g.autoDepth < MAX_AUTO_DEPTH
  }

  function ClaimAuto<T>(g: Gate<T>, token: T): Gate<T> {
    if MayContinue(g) then Begun(g.(streaming := true, autoDepth := g.autoDepth + 1), token) else g
  }

  function TakeInjections<T>(g: Gate<T>): Gate<T> {
    g.(pendingInjections := [])
  }

  /** The exit of `try_continue_auto` when the queue turns out to be empty. */
  function LostRace<T>(g: Gate<T>): Gate<T> {
    g.(streaming := false, autoDepth := 0)
  }

  datatype Next = UserNext(text: string) | AutoNext | NoNext

  /** Who `finalize_turn` hands the gate to. */
  function Decide<T>(g: Gate<T>): Next {
    if g.pendingUserMsg.Some? then UserNext(g.pendingUserMsg.value)
    else if !g.interruptRequested && g.autoDepth < MAX_AUTO_DEPTH && g.pendingInjections != [] then AutoNext
    else NoNext
  }

  function Finalize<T>(g: Gate<T>, token: T): Gate<T> {
    var taken := g.(pendingInjections := [], pendingUserMsg := None);
    match Decide(g)
    case UserNext(_) => Begun(taken.(autoDepth := 0), token)
    case AutoNext => Begun(taken.(autoDepth := g.autoDepth + 1), token)
    case NoNext => taken.(streaming := false, autoDepth := 0, interruptRequested := false)
  }

  function ResetDepth<T>(g: Gate<T>): Gate<T> {
    g.(autoDepth := 0)
  }

  // ── The object ──────────────────────────────────────────────────────────────

  class CancellationToken {
    var cancelled: bool

    constructor ()
      ensures !cancelled
    {
      cancelled := false;
    }

    method Cancel()
      modifies this
      ensures cancelled
    {
      cancelled := true;
    }
  }

  class TurnGate {
    var streaming: bool
    var pendingInjections: Log
    var pendingUserMsg: Option<string>
    var autoDepth: nat
    var interruptRequested: bool
    var cancel: CancellationToken

    ghost function State(): Gate<CancellationToken>
      reads this
    {
      Gate(streaming, pendingInjections, pendingUserMsg, autoDepth, interruptRequested, cancel)
    }

    constructor ()
      ensures State() == Gate(false, [], None, 0, false, cancel)
      ensures fresh(cancel) && !cancel.cancelled
    {
      streaming, pendingInjections, pendingUserMsg := false, [], None;
      autoDepth, interruptRequested := 0, false;
      cancel := new CancellationToken();
    }

    method BeginTurn() returns (token: CancellationToken)
      modifies this
      ensures fresh(token) && !token.cancelled
      ensures State() == Begun(old(State()), token)
    {
      token := new CancellationToken();
      cancel := token;
      interruptRequested := false;
    }

    /** Only the token in the gate can be cancelled: `modifies` names no other. */
    method Interrupt() returns (accepted: bool)
      modifies this, cancel
      ensures accepted == old(streaming)
      ensures State() == AcceptInterrupt(old(State()))
      ensures cancel.cancelled == (old(cancel.cancelled) || accepted)
    {
      if !streaming {
        return false;
      }
      cancel.Cancel();
      interruptRequested := true;
      return true;
    }

    method Inject(m: ApiMessage)
      modifies this
      ensures State() == Injected(old(State()), m)
    {
      pendingInjections := pendingInjections + [m];
    }

    method UserMessage(text: string) returns (reply: UserReply, token: Option<CancellationToken>)
      modifies this
      ensures reply == UserMessageReply(old(State()))
      ensures token.Some? <==> reply.Claimed?
      ensures token.Some? ==> fresh(token.value) && !token.value.cancelled
      ensures State() == AcceptUserMessage(old(State()), text, cancel)
      ensures reply.Claimed? ==> token == Some(cancel)
      ensures reply == if !old(streaming) then Claimed else if old(pendingUserMsg.None?) then Queued else Refused
      ensures reply.Claimed? ==> streaming && autoDepth == 0 && !interruptRequested
      ensures pendingUserMsg == if reply.Queued? then Some(text) else old(pendingUserMsg)
    {
      if streaming {
        if pendingUserMsg.Some? {
          return Refused, None;
        }
        pendingUserMsg := Some(text);
        return Queued, None;
      }
      streaming := true;
      autoDepth := 0;
      var t := BeginTurn();
      return Claimed, Some(t);
    }

    method TryClaimAuto() returns (token: Option<CancellationToken>)
      modifies this
      ensures token.Some? <==> MayContinue(old(State()))
      ensures State() == ClaimAuto(old(State()), cancel)
      ensures token.Some? ==> token == Some(cancel) && fresh(token.value) && !token.value.cancelled
    {
      if pendingInjections == [] { return None; }
      if streaming { return None; }
      if pendingUserMsg.Some? { return None; }
      if interruptRequested { return None; }
      if autoDepth >= MAX_AUTO_DEPTH { return None; }
      streaming := true;
      autoDepth := autoDepth + 1;
      var t := BeginTurn();
      return Some(t);
    }

    method DrainInjections() returns (drained: Log)
      modifies this
      ensures drained == old(pendingInjections)
      ensures State() == TakeInjections(old(State()))
    {
      drained := pendingInjections;
      pendingInjections := [];
    }

    /** The locked block of `finalize_turn`. */
    method FinalizeTurn()
      returns (injections: Log, userMsg: Option<string>, shouldAuto: bool, next: Option<CancellationToken>)
      modifies this
      ensures injections == old(pendingInjections) && userMsg == old(pendingUserMsg)
      ensures shouldAuto == Decide(old(State())).AutoNext?
      ensures next.Some? <==> !Decide(old(State())).NoNext?
      ensures next.Some? ==> next == Some(cancel) && fresh(cancel) && !cancel.cancelled
      ensures State() == Finalize(old(State()), cancel)
      ensures shouldAuto <==>
        old(pendingUserMsg.None? && !interruptRequested && autoDepth < 3 && pendingInjections != [])
      ensures next.Some? <==> userMsg.Some? || shouldAuto
      ensures streaming == (next.Some? && old(streaming)) && !interruptRequested
      ensures autoDepth == if shouldAuto then old(autoDepth) + 1 else 0
      ensures pendingInjections == [] && pendingUserMsg.None?
    {
      injections := pendingInjections;
      pendingInjections := [];
      userMsg := pendingUserMsg;
      pendingUserMsg := None;
      shouldAuto := !interruptRequested && autoDepth < MAX_AUTO_DEPTH && userMsg.None? && injections != [];
      if userMsg.Some? {
        autoDepth := 0;
        var t := BeginTurn();
        next := Some(t);
      } else if shouldAuto {
        autoDepth := autoDepth + 1;
        var t := BeginTurn();
        next := Some(t);
      } else {
        streaming := false;
        autoDepth := 0;
        interruptRequested := false;
        next := None;
      }
    }
  }
}
