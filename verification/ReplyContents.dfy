/** What the two stream readers make of a reply, part by part (core/src/lib.rs). */
module ReplyContents {
  import opened Prelude
  import opened Conversation
  import opened ReplyAssembly
  import opened OpenAiReply

  // ── Parts ───────────────────────────────────────────────────────────────────

  /** How many of the first `n` chunks are not empty. */
  function Filled(chunks: seq<string>, n: nat): nat
    requires n <= |chunks|
  {
    if n == 0 then 0 else Filled(chunks, n - 1) + if chunks[n - 1] != "" then 1 else 0
  }

  /** One event for each chunk that is not empty, in order. */
  ghost predicate Streams(chunks: seq<string>, events: seq<Event>) {
    |events| == Filled(chunks, |chunks|) && forall k: nat :: k < |chunks| ==> StreamedAt(chunks, events, k)
  }

  ghost predicate StreamedAt(chunks: seq<string>, events: seq<Event>, k: nat)
    requires k < |chunks|
  {
    chunks[k] != "" ==> Filled(chunks, k) < |events| && events[Filled(chunks, k)] == TextChunk(chunks[k])
  }

  /** A call whose arguments are empty has the empty object as its input. */
  function InputOf(args: string): string {
    if args == "" then "{}" else args
  }

  ghost predicate PartSays(part: ReplyPart, blocks: seq<Block>, events: seq<Event>) {
    match part
    case TextRun(chunks) =>
      blocks == (if Concat(chunks) == "" then [] else [Text(Concat(chunks))]) && Streams(chunks, events)
    case ToolCall(id, name, fragments) =>
      blocks == [ToolUse(id, name, InputOf(Concat(fragments)))] && events == [ToolStarted(id, name)]
  }

  ghost predicate AllSay(
    parts: seq<ReplyPart>, blocks: seq<Block>, events: seq<Event>,
    blockGroups: seq<seq<Block>>, eventGroups: seq<seq<Event>>)
  {
    && |blockGroups| == |eventGroups| == |parts| && blocks == Flat(blockGroups) && events == Flat(eventGroups)
    && forall i :: 0 <= i < |parts| ==> PartSays(parts[i], blockGroups[i], eventGroups[i])
  }

  lemma {:induction false} FilledNext(first: string, rest: seq<string>, n: nat)
    requires n <= |rest|
    ensures Filled([first] + rest, n + 1) == Filled(rest, n) + if first != "" then 1 else 0
  {
    if n > 0 {
      FilledNext(first, rest, n - 1);
    }
  }

  lemma StreamsMore(first: string, rest: seq<string>, events: seq<Event>)
    requires Streams(rest, events)
    ensures Streams([first] + rest, (if first == "" then [] else [TextChunk(first)]) + events)
  {
    var chunks, all := [first] + rest, (if first == "" then [] else [TextChunk(first)]) + events;
    FilledNext(first, rest, |rest|);
    forall k: nat | k < |chunks| ensures StreamedAt(chunks, all, k) {
      if k > 0 {
        assert chunks[k] == rest[k - 1] && StreamedAt(rest, events, k - 1);
        FilledNext(first, rest, k - 1);
      }
    }
  }

  lemma {:induction false} ChunksAreStreamed(chunks: seq<string>)
    ensures Streams(chunks, ChunkEvents(chunks))
  {
    if chunks != [] {
      ChunksAreStreamed(chunks[1..]);
      StreamsMore(chunks[0], chunks[1..], ChunkEvents(chunks[1..]));
      assert chunks == [chunks[0]] + chunks[1..];
    }
  }

  lemma PartIsSaid(part: ReplyPart)
    ensures PartSays(part, BlockOf(part), EventsOf(part))
  {
    if part.TextRun? {
      ChunksAreStreamed(part.chunks);
    }
  }

  lemma {:induction false} PartsAreSaid(parts: seq<ReplyPart>)
    returns (blockGroups: seq<seq<Block>>, eventGroups: seq<seq<Event>>)
    ensures AllSay(parts, Blocks(parts), Events(parts), blockGroups, eventGroups)
  {
    blockGroups, eventGroups := [], [];
    if parts != [] {
      var b, e := PartsAreSaid(parts[1..]);
      PartIsSaid(parts[0]);
      FlatCons(BlockOf(parts[0]), b);
      FlatCons(EventsOf(parts[0]), e);
      blockGroups, eventGroups := [BlockOf(parts[0])] + b, [EventsOf(parts[0])] + e;
    }
  }

  /**
    What the Anthropic reader hands on, part by part: the texts whole, and live piece by piece;
    the calls with id, name and input. The stop reason is the last one given.
   */
  lemma AnthropicSays(parts: seq<ReplyPart>, frames: seq<Frame>)
    returns (blockGroups: seq<seq<Block>>, eventGroups: seq<seq<Event>>)
    requires Content(frames) == Frames(parts)
    ensures var r := Assemble(FRESH_ASSEMBLY, frames);
            && r.error.None? && AllSay(parts, r.blocks, r.events, blockGroups, eventGroups)
            && if forall f <- frames :: !f.StopReason? then r.stop == "end_turn"
               else exists k :: 0 <= k < |frames| && frames[k] == StopReason(r.stop)
                                && forall j :: k < j < |frames| ==> !frames[j].StopReason?
  {
    AnthropicAssembles(parts, frames);
    blockGroups, eventGroups := PartsAreSaid(parts);
    StopIsLast(frames, "end_turn");
  }

  lemma {:induction false} StopIsLast(frames: seq<Frame>, stop: string)
    ensures if forall f <- frames :: !f.StopReason? then StopAfter(frames, stop) == stop
            else exists k :: 0 <= k < |frames| && frames[k] == StopReason(StopAfter(frames, stop))
                             && forall j :: k < j < |frames| ==> !frames[j].StopReason?
    decreases |frames|
  {
    if frames != [] {
      var f, rest := frames[0], frames[1..];
      var next := if f.StopReason? then f.reason else stop;
      assert frames == [f] + rest;
      StopIsLast(rest, next);
      if exists g <- rest :: g.StopReason? {
        var k :| 0 <= k < |rest| && rest[k] == StopReason(StopAfter(rest, next))
                 && forall j :: k < j < |rest| ==> !rest[j].StopReason?;
        assert frames[k + 1] == StopReason(StopAfter(frames, stop));
        assert forall j :: k + 1 < j < |frames| ==> frames[j] == rest[j - 1];
      } else if f.StopReason? {
        assert frames[0] == StopReason(StopAfter(frames, stop));
        assert forall j :: 0 < j < |frames| ==> frames[j] == rest[j - 1] && rest[j - 1] in rest;
      }
    }
  }

  /** An `error` frame ends the reading: it says why, and nothing after it counts. */
  lemma ErrorEndsTheStream(frames: seq<Frame>, message: string, later: seq<Frame>)
    requires forall f <- frames :: !f.ErrorFrame?
    ensures var before := Assemble(FRESH_ASSEMBLY, frames);
            Assemble(FRESH_ASSEMBLY, frames + [ErrorFrame(message)] + later)
            == before.(error := Some("API stream error: " + message))
  {
    NoErrorYet(FRESH_ASSEMBLY, frames);
    AssembleAppend(FRESH_ASSEMBLY, frames + [ErrorFrame(message)], later);
    AssembleAppend(FRESH_ASSEMBLY, frames, [ErrorFrame(message)]);
    assert [ErrorFrame(message)][1..] == [];
  }

  lemma {:induction false} NoErrorYet(a: Assembly, frames: seq<Frame>)
    requires a.error.None? && forall f <- frames :: !f.ErrorFrame?
    ensures Assemble(a, frames).error.None?
    decreases |frames|
  {
    if frames != [] {
      assert frames[0] in frames;
      NoErrorYet(OnFrame(a, frames[0]), frames[1..]);
    }
  }

  // ── OpenAI ──────────────────────────────────────────────────────────────────

  /** The call at one index: nothing without a name, else a block and an event. */
  ghost predicate CallSays(fragments: seq<Fragment>, i: nat, blocks: seq<Block>, events: seq<Event>) {
    exists acc ::
      && MadeOf(acc, fragments, i)
      && blocks == (if acc.name == "" then [] else [ToolUse(acc.id, acc.name, InputOf(acc.args))])
      && events == (if acc.name == "" then [] else [ToolStarted(acc.id, acc.name)])
  }

  /** The calls by index, up to the largest one used. */
  ghost predicate CallsSay(
    fragments: seq<Fragment>, blocks: seq<Block>, events: seq<Event>,
    blockGroups: seq<seq<Block>>, eventGroups: seq<seq<Event>>)
  {
    && |blockGroups| == |eventGroups| && blocks == Flat(blockGroups) && events == Flat(eventGroups)
    && (forall f <- fragments :: f.index < |blockGroups|)
    && (|blockGroups| > 0 ==> exists f <- fragments :: f.index + 1 == |blockGroups|)
    && forall i: nat :: i < |blockGroups| ==> CallSays(fragments, i, blockGroups[i], eventGroups[i])
  }

  function CallBlocks(acc: Accum): seq<Block> {
    if acc.name == "" then [] else [ToolUse(acc.id, acc.name, InputOf(acc.args))]
  }

  function CallEvents(acc: Accum): seq<Event> {
    if acc.name == "" then [] else [ToolStarted(acc.id, acc.name)]
  }

  /** The blocks of the calls, one group each, and the events. */
  function BlockGroups(calls: seq<Accum>): seq<seq<Block>> {
    seq(|calls|, i requires 0 <= i < |calls| => CallBlocks(calls[i]))
  }

  function EventGroups(calls: seq<Accum>): seq<seq<Event>> {
    seq(|calls|, i requires 0 <= i < |calls| => CallEvents(calls[i]))
  }

  lemma GroupsCons(calls: seq<Accum>)
    requires calls != []
    ensures Flat(BlockGroups(calls)) == CallBlocks(calls[0]) + Flat(BlockGroups(calls[1..]))
    ensures Flat(EventGroups(calls)) == CallEvents(calls[0]) + Flat(EventGroups(calls[1..]))
  {
    assert BlockGroups(calls) == [CallBlocks(calls[0])] + BlockGroups(calls[1..]);
    assert EventGroups(calls) == [CallEvents(calls[0])] + EventGroups(calls[1..]);
    FlatCons(CallBlocks(calls[0]), BlockGroups(calls[1..]));
    FlatCons(CallEvents(calls[0]), EventGroups(calls[1..]));
  }

  lemma {:induction false} CallPartsAre(calls: seq<Accum>)
    ensures Blocks(CallParts(calls)) == Flat(BlockGroups(calls))
    ensures Events(CallParts(calls)) == Flat(EventGroups(calls))
  {
    if calls != [] {
      CallPartsAre(calls[1..]);
      FirstCall(calls);
      GroupsCons(calls);
    }
  }

  lemma FirstCall(calls: seq<Accum>)
    requires calls != []
    ensures Blocks(CallParts(calls)) == CallBlocks(calls[0]) + Blocks(CallParts(calls[1..]))
    ensures Events(CallParts(calls)) == CallEvents(calls[0]) + Events(CallParts(calls[1..]))
  {
    var tc := calls[0];
    assert calls[0..] == calls;
    UnfoldCalls([], [], calls, 0);
    if tc.name != "" {
      assert [] + Blocks(CallParts(calls)) == Blocks(CallParts(calls));
      assert [] + Events(CallParts(calls)) == Events(CallParts(calls));
    }
  }

  /** All fragments, chunk by chunk. */
  function FragmentsOf(chunks: seq<Chunk>): seq<Fragment> {
    Flat(seq(|chunks|, i requires 0 <= i < |chunks| => chunks[i].fragments))
  }

  lemma {:induction false} FragmentsAreFlat(chunks: seq<Chunk>)
    ensures AllFragments(chunks) == FragmentsOf(chunks)
  {
    if chunks != [] {
      var front := chunks[..|chunks| - 1];
      FragmentsAreFlat(front);
      assert seq(|chunks|, i requires 0 <= i < |chunks| => chunks[i].fragments)
          == seq(|front|, i requires 0 <= i < |front| => front[i].fragments) + [chunks[|chunks| - 1].fragments];
      FlatSnoc(seq(|front|, i requires 0 <= i < |front| => front[i].fragments), chunks[|chunks| - 1].fragments);
    }
  }

  /** The last finish reason given, `tool_calls` by the name the loop knows it by. */
  ghost predicate Finishes(chunks: seq<Chunk>, stop: string) {
    if forall c <- chunks :: c.finish.None? then stop == "end_turn"
    else exists k :: 0 <= k < |chunks| && FinishesAt(chunks, k, stop)
  }

  predicate FinishesAt(chunks: seq<Chunk>, k: nat, stop: string)
    requires k < |chunks|
  {
    && chunks[k].finish.Some?
    && (forall j :: k < j < |chunks| ==> chunks[j].finish.None?)
    && stop == if chunks[k].finish.value == "tool_calls" then "tool_use" else chunks[k].finish.value
  }

  lemma {:induction false} StopIsFinish(chunks: seq<Chunk>)
    ensures Finishes(chunks, StopOf(chunks))
  {
    if chunks != [] {
      var front, last := chunks[..|chunks| - 1], chunks[|chunks| - 1];
      assert chunks == front + [last];
      if last.finish.None? {
        StopIsFinish(front);
        if exists c <- front :: c.finish.Some? {
          var k :| 0 <= k < |front| && FinishesAt(front, k, StopOf(front));
          assert FinishesAt(chunks, k, StopOf(chunks));
        }
      } else {
        assert FinishesAt(chunks, |front|, StopOf(chunks)) && last in chunks;
      }
    }
  }

  /**
    What the OpenAI reader hands on: all its text in one block, live piece by piece, and then the
    calls by index, each with the last id and name given and all its arguments.
   */
  lemma OpenAiSays(chunks: seq<Chunk>)
    returns (blocks: seq<Block>, events: seq<Event>, blockGroups: seq<seq<Block>>, eventGroups: seq<seq<Event>>,
             live: seq<Event>)
    ensures var text := Concat(Contents(chunks));
            && Blocks(Parts(chunks)) == (if text == "" then [] else [Text(text)]) + blocks
            && Events(Parts(chunks)) == live + events && Streams(Contents(chunks), live)
            && CallsSay(FragmentsOf(chunks), blocks, events, blockGroups, eventGroups)
    ensures Finishes(chunks, StopOf(chunks))
  {
    var fragments := AllFragments(chunks);
    var calls := Accumulate(fragments);
    blocks, events, live := Blocks(CallParts(calls)), Events(CallParts(calls)), ChunkEvents(Contents(chunks));
    blockGroups, eventGroups := BlockGroups(calls), EventGroups(calls);
    FragmentsAreFlat(chunks);
    StopIsFinish(chunks);
    ChunksAreStreamed(Contents(chunks));
    CallPartsAre(calls);
    assert Parts(chunks)[1..] == CallParts(calls);
    CallsAreMadeOf(fragments, 0);
    if |calls| > 0 {
      CallsAreMadeOf(fragments, |calls| - 1);
    }
    forall i: nat | i < |calls| ensures CallSays(fragments, i, blockGroups[i], eventGroups[i]) {
      CallsAreMadeOf(fragments, i);
    }
  }
}
