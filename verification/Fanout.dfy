/**
  The per-turn event buffer and the subscribers of a session (StreamState in core/src/app.rs,
  handle_stream in lair/src/agent.rs).
 */
module Fanout {
  import opened Prelude
  import opened Conversation
  import opened Reconnect

  /** One subscriber's unbounded channel; `open` while its receiver lives. */
  class Subscriber {
    var open: bool
    var received: seq<Event>
    /** What it was replayed when it subscribed, and from which event on it sees the stream. */
    ghost var replay: seq<Event>
    ghost var from: nat

    constructor (ghost replay: seq<Event>, ghost from: nat)
      ensures open && received == [] && this.replay == replay && this.from == from
    {
      open, received, this.replay, this.from := true, [], replay, from;
    }

    /** Sending succeeds while the receiver lives. */
    method Send(e: Event) returns (ok: bool)
      modifies this`received
      ensures ok == open
      ensures received == old(received) + if ok then [e] else []
    {
      ok := open;
      if open {
        received := received + [e];
      }
    }
  }

  predicate Unshared(subs: seq<Subscriber>) {
    forall i, j :: 0 <= i < j < |subs| ==> subs[i] != subs[j]
  }

  /** The subscribers still there, in order. */
  function StillOpen(subs: seq<Subscriber>): (r: seq<Subscriber>)
    reads subs
    ensures (forall s <- r :: s in subs && s.open) && (forall s <- subs :: s.open ==> s in r)
  {
    if subs == [] then []
    else StillOpen(subs[..|subs| - 1]) + (if subs[|subs| - 1].open then [subs[|subs| - 1]] else [])
  }

  lemma {:induction false} StillUnshared(subs: seq<Subscriber>)
    requires Unshared(subs)
    ensures Unshared(StillOpen(subs))
  {
    if subs != [] {
      var front, last := subs[..|subs| - 1], subs[|subs| - 1];
      StillUnshared(front);
      assert last !in front;
    }
  }

  /** Send to everybody, and keep those who could be reached. */
  method Retain(subs: seq<Subscriber>, e: Event) returns (kept: seq<Subscriber>)
    requires Unshared(subs)
    modifies subs`received
    ensures kept == old(StillOpen(subs))
    ensures forall s <- subs :: s.received == old(s.received) + if s.open then [e] else []
  {
    kept := [];
    assert subs[..0] == [];
    for i := 0 to |subs|
      invariant kept == old(StillOpen(subs[..i]))
      invariant forall k :: i <= k < |subs| ==> subs[k].received == old(subs[k].received)
      invariant forall k :: 0 <= k < i ==>
        subs[k].received == old(subs[k].received) + if subs[k].open then [e] else []
    {
      assert subs[..i + 1][..i] == subs[..i];
      var ok := subs[i].Send(e);
      if ok {
        kept := kept + [subs[i]];
      }
    }
    assert subs[..|subs|] == subs;
  }

  class StreamState {
    var buffer: seq<Event>
    var subs: seq<Subscriber>
    /** Every event of the session, and how many there were when the buffer was last cleared. */
    ghost var emitted: seq<Event>
    ghost var cleared: nat

    /** A subscriber's replay and channel together are all events since its starting point. */
    ghost predicate Valid()
      reads this, subs
    {
      && cleared <= |emitted| && buffer == emitted[cleared..]
      && Unshared(subs)
      && forall s <- subs :: s.open ==> s.from <= |emitted| && s.replay + s.received == emitted[s.from..]
    }

    constructor ()
      ensures Valid() && buffer == [] && subs == [] && emitted == []
    {
      buffer, subs, emitted, cleared := [], [], [], 0;
    }

    method BufferAndFanout(e: Event)
      requires Valid()
      modifies this, subs`received
      ensures Valid()
      ensures buffer == old(buffer) + [e] && emitted == old(emitted) + [e] && cleared == old(cleared)
      ensures subs == old(StillOpen(subs))
      ensures forall s <- old(subs) :: s.received == old(s.received) + if s.open then [e] else []
    {
      buffer := buffer + [e];
      emitted := emitted + [e];
      StillUnshared(subs);
      var kept := Retain(subs, e);
      forall s | s in kept ensures s.replay + s.received == emitted[s.from..] {
        assert s in old(subs) && s.open;
        Assoc(s.replay, old(s.received), [e]);
      }
      subs := kept;
    }

    /** `buffer.clear()`, at the start and at the end of every turn. */
    method ClearBuffer()
      requires Valid()
      modifies this`buffer, this`cleared
      ensures Valid() && buffer == []
      ensures cleared == |emitted|
    {
      buffer := [];
      cleared := |emitted|;
    }

    /** The locked section of `handle_stream`: subscribe, and take the replay of a turn that runs. */
    method Subscribe(streaming: bool) returns (sub: Subscriber, replay: seq<Event>)
      requires Valid()
      modifies this`subs
      ensures Valid() && fresh(sub) && subs == old(subs) + [sub]
      ensures sub.open && sub.received == [] && sub.replay == replay
      ensures replay == if streaming then buffer else []
      ensures sub.from == if streaming then cleared else |emitted|
    {
      replay := if streaming then buffer else [];
      sub := new Subscriber(replay, if streaming then cleared else |emitted|);
      assert sub !in subs;
      subs := subs + [sub];
    }
  }

  /** What goes out on a new connection before any live event. */
  method Greeting(resumed: bool, replay: seq<Event>) returns (frames: seq<Event>)
    ensures frames == [Ready(resumed), OtherEvent] + replay + (if replay == [] then [] else [ReplayEnd])
  {
    frames := [Ready(resumed), OtherEvent];
    if replay != [] {
      ghost var start := frames;
      for i := 0 to |replay|
        invariant frames == start + replay[..i]
      {
        frames := frames + [replay[i]];
      }
      frames := frames + [ReplayEnd];
    }
  }

  /**
    All that a client which subscribed in the current turn has been sent: exactly the frames
    the rebuilding of its rows is proved from.
   */
  lemma ConnectionSeesTheTurn(state: StreamState, s: Subscriber)
    requires state.Valid() && s in state.subs && s.open && s.from == state.cleared
    ensures |s.replay| <= |state.buffer|
    ensures [Ready(true), OtherEvent] + s.replay + (if s.replay == [] then [] else [ReplayEnd]) + s.received
         == ResumeFrames(state.buffer, |s.replay|, |state.buffer|)
  {
    var turn := state.buffer;
    assert turn == s.replay + s.received;
    assert turn[..|s.replay|] == s.replay && turn[|s.replay|..|turn|] == s.received;
  }
}
