/**
  A client that drops and resumes in the middle of a turn (handle_stream in lair/src/agent.rs,
  the shadow list of mobile/App.tsx): what its next replay starts from, wherever a connection broke.
 */
module Reconnect {
  import opened Prelude
  import opened Conversation
  import opened ChatPanes
  import opened LiveRows
  import opened ToolSchedule
  import opened TaskRows
  import opened Cuts
  import opened Replays
  import opened ReplayCuts

  // ── The traces this is about ────────────────────────────────────────────────

  /** The events of the turn itself, without those of background tasks and peers in between. */
  function OwnEvents(events: seq<Event>): seq<Event> {
    if events == [] then []
    else OwnEvents(events[..|events| - 1]) + (if InTurn(events[|events| - 1]) then [events[|events| - 1]] else [])
  }

  lemma SeenOne(seen: seq<Event>, e: Event)
    ensures StartedIds(seen + [e]) == StartedIds(seen) + if e.ToolStarted? then [e.id] else []
  {
    assert (seen + [e])[..|seen|] == seen;
  }

  /** All tools announced are the turn's own. */
  lemma {:induction false} OwnIds(events: seq<Event>)
    ensures StartedIds(OwnEvents(events)) == StartedIds(events)
  {
    if events != [] {
      var front, last := events[..|events| - 1], events[|events| - 1];
      OwnIds(front);
      SeenOne(OwnEvents(front), last);
      if !InTurn(last) {
        assert OwnEvents(events) == OwnEvents(front) + [] == OwnEvents(front);
      }
    }
  }

  lemma {:induction false} OwnPrefix(events: seq<Event>, i: nat)
    requires i <= |events|
    ensures OwnEvents(events[..i]) <= OwnEvents(events)
    decreases |events|
  {
    if i < |events| {
      OwnPrefix(events[..|events| - 1], i);
      assert events[..|events| - 1][..i] == events[..i];
    } else {
      assert events[..i] == events;
    }
  }

  /** An event of the turn itself, and what of the turn came before it. */
  lemma OwnAt(events: seq<Event>, i: nat)
    requires i < |events| && InTurn(events[i])
    ensures var before := OwnEvents(events[..i]);
            |before| < |OwnEvents(events)| && OwnEvents(events)[|before|] == events[i]
            && OwnEvents(events)[..|before|] == before
  {
    assert events[..i + 1][..i] == events[..i];
    assert OwnEvents(events[..i + 1]) == OwnEvents(events[..i]) + [events[i]];
    OwnPrefix(events, i + 1);
  }

  /** Every moment of an orderly turn, with background and peer events anywhere in between, is such a trace. */
  lemma OrderlyTurnSoFar(base: seq<TaskRow>, trace: seq<Event>, n: nat, events: seq<Event>)
    requires Orderly(trace) && n <= |trace| && OwnEvents(events) == trace[..n]
    requires forall e <- events :: Buffered(e)
    requires DistinctTasks(base) && TaskRoles(base) && Quiet(Faces(base), StartedIds(trace))
    ensures TurnSoFar(base, events)
  {
    OwnIds(events);
    QuietPrefix(Faces(base), trace, n);
    forall i | 0 <= i < |events| && (events[i].ToolLine? || events[i].ToolFinished?)
      ensures events[i].id in StartedIds(events[..i])
    {
      OwnAt(events, i);
      OwnIds(events[..i]);
      OrderlyOutput(trace, n, |OwnEvents(events[..i])|);
    }
  }

  lemma OrderlyOutput(trace: seq<Event>, n: nat, k: nat)
    requires Orderly(trace) && k < n <= |trace| && (trace[k].ToolLine? || trace[k].ToolFinished?)
    ensures trace[..n][k].id in StartedIds(trace[..n][..k])
  {
    assert OrderlyAt(trace, k);
    assert trace[..n][..k] == trace[..k];
  }

  // ── Where a resumed replay starts from ──────────────────────────────────────

  ghost predicate Bounded(rows: Rows, nextUid: nat) {
    forall i :: 0 <= i < |rows| && rows[i].id.Uid? ==> rows[i].id.n < nextUid
  }

  /** The shadow a `ready { resumed: true }` starts from. */
  function Shadow(p: Pane): Rows {
    var cleaned := StopRunning(Merged(p));
    AnchorCut(cleaned, |cleaned|)
  }

  /** Resuming now would rebuild the turn on top of `cut`. */
  ghost predicate Resumable(p: Pane, cut: seq<TaskRow>) {
    TaskView(Shadow(p)) == cut && Bounded(Merged(p), p.nextUid)
  }

  lemma {:induction false} CutView(rows: Rows, n: nat)
    requires n <= |rows|
    ensures AnchorCut(rows, n) == rows[..CutLen(TaskView(rows), n)]
  {
    if n > 0 {
      CutView(rows, n - 1);
    }
  }

  lemma EmptyQueueMerges(p: Pane)
    requires p.staggerQueue == []
    ensures Merged(p) == p.messages
  {}

  lemma ShadowOfList(p: Pane)
    requires p.staggerQueue == []
    ensures TaskView(Shadow(p)) == Cut(Stopped(TaskView(p.messages)))
  {
    EmptyQueueMerges(p);
    var cleaned := StopRunning(p.messages);
    StoppedView(p.messages, 0);
    CutView(cleaned, |cleaned|);
    assert TaskView(Shadow(p)) == TaskView(cleaned)[..CutLen(TaskView(cleaned), |cleaned|)];
  }

  /** What a replay starts from has been cut. */
  lemma ResumableIsFirm(p: Pane, cut: seq<TaskRow>)
    requires Resumable(p, cut)
    ensures Firm(cut)
  {
    var cleaned := StopRunning(Merged(p));
    CutView(cleaned, |cleaned|);
    assert cut == Cut(TaskView(cleaned));
    CutIsFirm(TaskView(cleaned));
  }

  // ── One connection ──────────────────────────────────────────────────────────

  /**
    What a client that connects after `n` events of the turn is sent until event `m`: the
    greeting, the task list, the replay, its end marker, then the live events. An empty
    replay has no end marker.
   */
  function ResumeFrames(events: seq<Event>, n: nat, m: nat): seq<Event>
    requires n <= m <= |events|
  {
    [Ready(true), OtherEvent] + events[..n] + (if n > 0 then [ReplayEnd] else []) + events[n..m]
  }

  /** The shadow is open, and holds the first `j` events of the turn on top of `cut`. */
  ghost predicate Rebuilding(p: Pane, cut: seq<TaskRow>, events: seq<Event>, j: nat)
    requires j <= |events|
  {
    && OneOpen(p) && p.replaying.Some? && p.staggerQueue == [] && Resumable(p, cut)
    && TaskLiveOf(p) == Seen(cut, events, j)
  }

  /** No shadow, nothing queued: the list itself holds the first `j` events on top of `start`. */
  ghost predicate Following(p: Pane, start: seq<TaskRow>, events: seq<Event>, j: nat)
    requires j <= |events|
  {
    OneOpen(p) && p.replaying.None? && p.staggerQueue == [] && TaskLiveOf(p) == Seen(start, events, j)
  }

  lemma Greeted(p: Pane, cut: seq<TaskRow>, events: seq<Event>)
    requires Resumable(p, cut)
    ensures Rebuilding(Handle(p, Ready(true)), cut, events, 0)
  {
    var q := Handle(p, Ready(true));
    var cleaned := StopRunning(Merged(p));
    CutView(cleaned, |cleaned|);
    EmptyQueueMerges(q);
    assert StopRunning(cleaned) == cleaned;
    assert events[..0] == [];
    forall i | 0 <= i < |Shadow(p)| && Shadow(p)[i].id.Uid? ensures Shadow(p)[i].id.n < p.nextUid {
      assert Shadow(p)[i] == cleaned[i] && cleaned[i].id == Merged(p)[i].id;
    }
    SealedPane(q, Shadow(p));
  }

  lemma RebuildStep(p: Pane, cut: seq<TaskRow>, events: seq<Event>, j: nat)
    requires j < |events| && Buffered(events[j]) && Rebuilding(p, cut, events, j)
    ensures Rebuilding(Handle(p, events[j]), cut, events, j + 1)
  {
    PaneFollows(p, events[j]);
    SeenNext(cut, events, j);
  }

  lemma FollowStep(p: Pane, start: seq<TaskRow>, events: seq<Event>, j: nat)
    requires j < |events| && Buffered(events[j]) && Following(p, start, events, j)
    ensures Following(Handle(p, events[j]), start, events, j + 1)
  {
    PaneFollows(p, events[j]);
    SeenNext(start, events, j);
  }

  lemma FollowerIsResumable(p: Pane, start: seq<TaskRow>, events: seq<Event>, j: nat)
    requires j <= |events| && Following(p, start, events, j)
    ensures Resumable(p, Renewed(start, events, j))
  {
    EmptyQueueMerges(p);
    ShadowOfList(p);
  }

  lemma {:induction false} FollowsOn(p: Pane, start: seq<TaskRow>, events: seq<Event>, j: nat, m: nat)
    requires (forall e <- events :: Buffered(e)) && j <= m <= |events| && Following(p, start, events, j)
    ensures Following(HandleAll(p, events[j..m]), start, events, m)
    decreases m - j
  {
    if j < m {
      FollowStep(p, start, events, j);
      assert events[j..m][1..] == events[j + 1..m];
      FollowsOn(Handle(p, events[j]), start, events, j + 1, m);
    }
  }

  lemma {:induction false} Rebuilds(p: Pane, cut: seq<TaskRow>, events: seq<Event>, j: nat, n: nat)
    requires (forall e <- events :: Buffered(e)) && j <= n <= |events| && Rebuilding(p, cut, events, j)
    ensures Rebuilding(HandleAll(p, events[j..n]), cut, events, n)
    decreases n - j
  {
    if j < n {
      RebuildStep(p, cut, events, j);
      assert events[j..n][1..] == events[j + 1..n];
      Rebuilds(Handle(p, events[j]), cut, events, j + 1, n);
    }
  }

  lemma Swapped(p: Pane, cut: seq<TaskRow>, events: seq<Event>, n: nat)
    requires n <= |events| && Rebuilding(p, cut, events, n)
    ensures Following(Handle(p, ReplayEnd), cut, events, n)
  {}

  lemma HandleTwo(p: Pane, e: Event, f: Event)
    ensures HandleAll(p, [e, f]) == Handle(Handle(p, e), f)
  {
    assert [e, f][1..] == [f] && [f][1..] == [];
    assert HandleAll(Handle(p, e), [f]) == HandleAll(Handle(Handle(p, e), f), []);
  }

  lemma HandleOne(p: Pane, e: Event)
    ensures HandleAll(p, [e]) == Handle(p, e)
  {
    assert HandleAll(Handle(p, e), [e][1..]) == Handle(p, e);
  }

  /** The greeting and the replay, cut short or complete. */
  lemma ReplayRebuilds(p: Pane, cut: seq<TaskRow>, events: seq<Event>, j: nat)
    requires (forall e <- events :: Buffered(e)) && j <= |events| && Resumable(p, cut)
    ensures Rebuilding(HandleAll(p, [Ready(true), OtherEvent] + events[..j]), cut, events, j)
  {
    var greeted := Handle(p, Ready(true));
    Greeted(p, cut, events);
    HandleAppend(p, [Ready(true), OtherEvent], events[..j]);
    HandleTwo(p, Ready(true), OtherEvent);
    assert Handle(greeted, OtherEvent) == greeted;
    Rebuilds(greeted, cut, events, 0, j);
    assert events[0..j] == events[..j];
  }

  /** A connection that lasts past its replay brings the client up to date. */
  lemma ResumedCatchesUp(p: Pane, cut: seq<TaskRow>, events: seq<Event>, n: nat, m: nat)
    requires (forall e <- events :: Buffered(e)) && 0 < n <= m <= |events| && Resumable(p, cut)
    ensures Following(HandleAll(p, ResumeFrames(events, n, m)), cut, events, m)
  {
    var front := [Ready(true), OtherEvent] + events[..n];
    var rebuilt := HandleAll(p, front);
    ReplayRebuilds(p, cut, events, n);
    HandleAppend(p, front + [ReplayEnd], events[n..m]);
    HandleAppend(p, front, [ReplayEnd]);
    HandleOne(rebuilt, ReplayEnd);
    Swapped(rebuilt, cut, events, n);
    FollowsOn(Handle(rebuilt, ReplayEnd), cut, events, n, m);
  }

  /** Without an end marker the shadow stays in place of the list. */
  lemma ResumedTooEarly(p: Pane, cut: seq<TaskRow>, events: seq<Event>, m: nat)
    requires (forall e <- events :: Buffered(e)) && m <= |events| && Resumable(p, cut)
    ensures Rebuilding(HandleAll(p, ResumeFrames(events, 0, m)), cut, events, m)
  {
    assert ResumeFrames(events, 0, m) == [Ready(true), OtherEvent] + events[..m];
    ReplayRebuilds(p, cut, events, m);
  }

  // ── Connections that break ──────────────────────────────────────────────────

  /** A connection made after `n` events, of whose frames up to event `m` only `got` arrived. */
  datatype Broken = Broken(n: nat, m: nat, got: nat)

  ghost predicate BrokenIn(events: seq<Event>, c: Broken) {
    c.n <= c.m <= |events| && c.got <= |ResumeFrames(events, c.n, c.m)|
  }

  /** How many events it put on screen; none when it broke before the end of its replay. */
  function OnScreen(c: Broken): Option<nat> {
    if c.n > 0 && c.got >= c.n + 3 then Some(c.got - 3) else None
  }

  /** What the next replay starts from. */
  ghost function NextCut(cut: seq<TaskRow>, events: seq<Event>, c: Broken): seq<TaskRow>
    requires BrokenIn(events, c)
  {
    if OnScreen(c).Some? then Renewed(cut, events, OnScreen(c).value) else cut
  }

  /** The first `k` frames, when they end in the replay. */
  lemma ReplayCut(events: seq<Event>, n: nat, m: nat, k: nat)
    requires n <= m <= |events| && 2 <= k <= |ResumeFrames(events, n, m)| && (k <= n + 2 || n == 0)
    ensures k - 2 <= |events| && ResumeFrames(events, n, m)[..k] == [Ready(true), OtherEvent] + events[..k - 2]
  {}

  /** The first `k` frames, when they end in the live events. */
  lemma LiveCut(events: seq<Event>, n: nat, m: nat, k: nat)
    requires 0 < n <= m <= |events| && n + 3 <= k <= |ResumeFrames(events, n, m)|
    ensures k - 3 <= m && ResumeFrames(events, n, m)[..k] == ResumeFrames(events, n, k - 3)
  {
    assert events[n..m][..k - 3 - n] == events[n..k - 3];
  }

  ghost predicate StaysResumable(p: Pane, cut: seq<TaskRow>, events: seq<Event>, c: Broken)
    requires BrokenIn(events, c)
  {
    Resumable(HandleAll(p, ResumeFrames(events, c.n, c.m)[..c.got]), NextCut(cut, events, c))
  }

  lemma BrokenInGreeting(p: Pane, cut: seq<TaskRow>, events: seq<Event>, c: Broken)
    requires Resumable(p, cut) && BrokenIn(events, c) && c.got <= 1
    ensures StaysResumable(p, cut, events, c)
  {
    if c.got == 1 {
      assert ResumeFrames(events, c.n, c.m)[..1] == [Ready(true)];
      Greeted(p, cut, events);
      HandleOne(p, Ready(true));
    }
  }

  lemma BrokenInReplay(p: Pane, cut: seq<TaskRow>, events: seq<Event>, c: Broken)
    requires (forall e <- events :: Buffered(e)) && Resumable(p, cut)
    requires BrokenIn(events, c) && c.got >= 2 && OnScreen(c).None?
    ensures StaysResumable(p, cut, events, c)
  {
    ReplayCut(events, c.n, c.m, c.got);
    ReplayRebuilds(p, cut, events, c.got - 2);
  }

  lemma BrokenLive(p: Pane, cut: seq<TaskRow>, events: seq<Event>, c: Broken)
    requires (forall e <- events :: Buffered(e)) && Resumable(p, cut)
    requires BrokenIn(events, c) && OnScreen(c).Some?
    ensures StaysResumable(p, cut, events, c)
  {
    var j := OnScreen(c).value;
    LiveCut(events, c.n, c.m, c.got);
    ResumedCatchesUp(p, cut, events, c.n, j);
    FollowerIsResumable(HandleAll(p, ResumeFrames(events, c.n, j)), cut, events, j);
  }

  /** A connection that breaks anywhere leaves the client able to resume. */
  lemma BrokenStaysResumable(p: Pane, cut: seq<TaskRow>, events: seq<Event>, c: Broken)
    requires (forall e <- events :: Buffered(e)) && Resumable(p, cut) && BrokenIn(events, c)
    ensures StaysResumable(p, cut, events, c)
  {
    if OnScreen(c).Some? {
      BrokenLive(p, cut, events, c);
    } else if c.got >= 2 {
      BrokenInReplay(p, cut, events, c);
    } else {
      BrokenInGreeting(p, cut, events, c);
    }
  }

  ghost function Drops(p: Pane, events: seq<Event>, broken: seq<Broken>): Pane
    requires forall c <- broken :: BrokenIn(events, c)
    decreases |broken|
  {
    if broken == [] then p
    else
      var c := broken[0];
      assert BrokenIn(events, c);
      Drops(HandleAll(p, ResumeFrames(events, c.n, c.m)[..c.got]), events, broken[1..])
  }

  ghost function LastCut(cut: seq<TaskRow>, events: seq<Event>, broken: seq<Broken>): seq<TaskRow>
    requires forall c <- broken :: BrokenIn(events, c)
    decreases |broken|
  {
    if broken == [] then cut
    else
      assert BrokenIn(events, broken[0]);
      LastCut(NextCut(cut, events, broken[0]), events, broken[1..])
  }

  lemma {:induction false} DropsStayResumable(p: Pane, cut: seq<TaskRow>, events: seq<Event>, broken: seq<Broken>)
    requires (forall e <- events :: Buffered(e)) && Resumable(p, cut)
    requires forall c <- broken :: BrokenIn(events, c)
    ensures Resumable(Drops(p, events, broken), LastCut(cut, events, broken))
    decreases |broken|
  {
    if broken != [] {
      var c := broken[0];
      assert BrokenIn(events, c);
      BrokenStaysResumable(p, cut, events, c);
      DropsStayResumable(HandleAll(p, ResumeFrames(events, c.n, c.m)[..c.got]), NextCut(cut, events, c), events,
                         broken[1..]);
    }
  }
}
