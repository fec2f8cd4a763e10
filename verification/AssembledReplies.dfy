/** Replies as the two stream readers assemble them, and what that means for the two views of a turn. */
module AssembledReplies {
  import opened Prelude
  import opened Conversation
  import opened ReplyAssembly
  import opened SendMessage
  import opened LiveRows
  import opened LiveHistory
  import opened LiveEqualsHistory
  import OpenAi = OpenAiReply

  lemma OneEvent(e: Event)
    ensures StreamedText([e]) == if e.TextChunk? then e.text else ""
    ensures StreamedTools([e]) == if e.ToolStarted? then [(e.id, e.tool)] else []
  {
    assert [e][..0] == [];
  }

  lemma {:induction false} ChunksStreamed(chunks: seq<string>)
    ensures forall e <- ChunkEvents(chunks) :: e.TextChunk? && e.text != ""
    ensures StreamedText(ChunkEvents(chunks)) == Concat(chunks)
    ensures StreamedTools(ChunkEvents(chunks)) == []
  {
    if chunks != [] {
      ChunksStreamed(chunks[1..]);
      var first := if chunks[0] == "" then [] else [TextChunk(chunks[0])];
      StreamedAppend(first, ChunkEvents(chunks[1..]));
      if chunks[0] != "" {
        OneEvent(TextChunk(chunks[0]));
      }
    }
  }

  lemma PartStreamed(part: ReplyPart)
    ensures forall e <- EventsOf(part) :: IsStreamed(e)
    ensures StreamedText(EventsOf(part)) == JoinedText(BlockOf(part))
    ensures StreamedTools(EventsOf(part)) == NamedUses(ToolUses(BlockOf(part)))
  {
    match part {
      case TextRun(chunks) =>
        ChunksStreamed(chunks);
        if Concat(chunks) != "" {
          assert [Text(Concat(chunks))][1..] == [];
          assert Concat(chunks) + "" == Concat(chunks);
        }
      case ToolCall(id, name, fragments) =>
        OneEvent(ToolStarted(id, name));
        assert BlockOf(part)[1..] == [];
        assert "" + "" == "";
    }
  }

  /** Events and blocks tell of the same text and the same tools. */
  ghost predicate Tells(events: seq<Event>, blocks: seq<Block>) {
    && (forall e <- events :: IsStreamed(e))
    && StreamedText(events) == JoinedText(blocks)
    && StreamedTools(events) == NamedUses(ToolUses(blocks))
  }

  lemma TellsMore(e1: seq<Event>, b1: seq<Block>, e2: seq<Event>, b2: seq<Block>)
    requires Tells(e1, b1) && Tells(e2, b2)
    ensures Tells(e1 + e2, b1 + b2)
  {
    StreamedAppend(e1, e2);
    JoinedTextAppend(b1, b2);
    ToolUsesAppend(b1, b2);
    NamedAppend(ToolUses(b1), ToolUses(b2));
  }

  lemma NamedAppend(a: seq<Block>, b: seq<Block>)
    requires (forall u <- a :: u.ToolUse?) && (forall u <- b :: u.ToolUse?)
    ensures forall u <- a + b :: u.ToolUse?
    ensures NamedUses(a + b) == NamedUses(a) + NamedUses(b)
  {}

  lemma {:induction false} PartsStreamed(parts: seq<ReplyPart>)
    ensures Tells(Events(parts), Blocks(parts))
  {
    if parts != [] {
      PartStreamed(parts[0]);
      PartsStreamed(parts[1..]);
      TellsMore(EventsOf(parts[0]), BlockOf(parts[0]), Events(parts[1..]), Blocks(parts[1..]));
    }
  }

  /** A complete reply, however it is cut into deltas, satisfies what the views need of a model call. */
  lemma PartsAreAssembled(parts: seq<ReplyPart>, end: CallEnd)
    ensures Assembled(Call(Blocks(parts), Events(parts), end))
  {
    PartsStreamed(parts);
  }

  // ── Text before tools ───────────────────────────────────────────────────────

  /** No text run with any text in it after a tool call. */
  predicate TextLeads(parts: seq<ReplyPart>) {
    forall i, j :: 0 <= i < j < |parts| && parts[i].ToolCall? && parts[j].TextRun? ==> Concat(parts[j].chunks) == ""
  }

  predicate NoText(parts: seq<ReplyPart>) {
    forall j :: 0 <= j < |parts| && parts[j].TextRun? ==> Concat(parts[j].chunks) == ""
  }

  lemma NoChunks(chunks: seq<string>)
    ensures ChunkEvents(chunks) == [] <==> Concat(chunks) == ""
  {
    ChunksStreamed(chunks);
    if ChunkEvents(chunks) != [] {
      var e := ChunkEvents(chunks)[0];
      assert e in ChunkEvents(chunks);
      LateTextIsLonger(ChunkEvents(chunks), 0, 0);
    }
  }

  ghost predicate Silent(events: seq<Event>) {
    forall i :: 0 <= i < |events| ==> !events[i].TextChunk?
  }

  lemma SilentAppend(a: seq<Event>, b: seq<Event>)
    ensures Silent(a + b) <==> Silent(a) && Silent(b)
  {
    if Silent(a + b) {
      forall i | 0 <= i < |a| ensures !a[i].TextChunk? { assert (a + b)[i] == a[i]; }
      forall i | 0 <= i < |b| ensures !b[i].TextChunk? { assert (a + b)[|a| + i] == b[i]; }
    }
  }

  lemma PartSilent(part: ReplyPart)
    ensures Silent(EventsOf(part)) <==> (part.TextRun? ==> Concat(part.chunks) == "")
  {
    if part.TextRun? {
      ChunksStreamed(part.chunks);
      NoChunks(part.chunks);
      if EventsOf(part) != [] {
        assert EventsOf(part)[0] in ChunkEvents(part.chunks);
        assert !Silent(EventsOf(part));
      }
    }
  }

  lemma NoTextCons(parts: seq<ReplyPart>)
    requires parts != []
    ensures NoText(parts) <==> (parts[0].TextRun? ==> Concat(parts[0].chunks) == "") && NoText(parts[1..])
  {
    if NoText(parts) {
      forall j | 0 <= j < |parts[1..]| && parts[1..][j].TextRun? ensures Concat(parts[1..][j].chunks) == "" {
        assert parts[1..][j] == parts[j + 1];
      }
    }
    if NoText(parts[1..]) {
      forall j | 1 <= j < |parts| && parts[j].TextRun? ensures Concat(parts[j].chunks) == "" {
        assert parts[1..][j - 1] == parts[j];
      }
    }
  }

  lemma {:induction false} NoTextIsSilent(parts: seq<ReplyPart>)
    ensures Silent(Events(parts)) <==> NoText(parts)
  {
    if parts != [] {
      NoTextIsSilent(parts[1..]);
      PartSilent(parts[0]);
      NoTextCons(parts);
      SilentAppend(EventsOf(parts[0]), Events(parts[1..]));
    }
  }

  lemma TextLeadsCons(parts: seq<ReplyPart>)
    requires parts != []
    ensures TextLeads(parts) <==> TextLeads(parts[1..]) && (parts[0].ToolCall? ==> NoText(parts[1..]))
  {
    var rest := parts[1..];
    forall i | 0 <= i < |rest| ensures rest[i] == parts[i + 1] {}
    if TextLeads(parts) {
      forall i, j | 0 <= i < j < |rest| && rest[i].ToolCall? && rest[j].TextRun? ensures Concat(rest[j].chunks) == "" {
        assert parts[i + 1].ToolCall? && parts[j + 1].TextRun?;
      }
      if parts[0].ToolCall? {
        forall j | 0 <= j < |rest| && rest[j].TextRun? ensures Concat(rest[j].chunks) == "" {
          assert parts[j + 1].TextRun?;
        }
      }
    } else {
      var i, j :| 0 <= i < j < |parts| && parts[i].ToolCall? && parts[j].TextRun? && Concat(parts[j].chunks) != "";
      assert rest[j - 1].TextRun?;
      if i > 0 {
        assert rest[i - 1].ToolCall?;
      }
    }
  }

  lemma TextFirstChunks(chunks: seq<Event>, rest: seq<Event>)
    requires forall e <- chunks :: e.TextChunk?
    ensures TextFirst(chunks + rest) <==> TextFirst(rest)
  {
    var all := chunks + rest;
    forall i | 0 <= i < |all| ensures if i < |chunks| then all[i].TextChunk? else all[i] == rest[i - |chunks|] {
      if i < |chunks| {
        assert all[i] in chunks;
      }
    }
    if TextFirst(all) {
      forall i, j | 0 <= i < j < |rest| && rest[i].ToolStarted? ensures !rest[j].TextChunk? {
        assert all[|chunks| + i].ToolStarted? && all[|chunks| + j] == rest[j];
      }
    } else {
      var i, j :| 0 <= i < j < |all| && all[i].ToolStarted? && all[j].TextChunk?;
      assert rest[i - |chunks|].ToolStarted? && rest[j - |chunks|].TextChunk?;
    }
  }

  lemma TextFirstTool(id: string, name: string, rest: seq<Event>)
    ensures TextFirst([ToolStarted(id, name)] + rest) <==> TextFirst(rest) && Silent(rest)
  {
    var all := [ToolStarted(id, name)] + rest;
    forall i | 0 <= i < |rest| ensures all[i + 1] == rest[i] {}
    if TextFirst(all) {
      forall i, j | 0 <= i < j < |rest| && rest[i].ToolStarted? ensures !rest[j].TextChunk? {
        assert all[i + 1].ToolStarted? && all[j + 1] == rest[j];
      }
      forall j | 0 <= j < |rest| ensures !rest[j].TextChunk? {
        assert all[0].ToolStarted? && all[j + 1] == rest[j];
      }
    } else {
      var i, j :| 0 <= i < j < |all| && all[i].ToolStarted? && all[j].TextChunk?;
      assert rest[j - 1].TextChunk?;
    }
  }

  /** Text is streamed first exactly when no non-empty text run follows a tool call in the reply. */
  lemma {:induction false} TextFirstIffTextLeads(parts: seq<ReplyPart>)
    ensures TextFirst(Events(parts)) <==> TextLeads(parts)
  {
    if parts != [] {
      TextFirstIffTextLeads(parts[1..]);
      TextLeadsCons(parts);
      match parts[0] {
        case TextRun(chunks) =>
          ChunksStreamed(chunks);
          TextFirstChunks(ChunkEvents(chunks), Events(parts[1..]));
        case ToolCall(id, name, _) =>
          NoTextIsSilent(parts[1..]);
          TextFirstTool(id, name, Events(parts[1..]));
      }
    }
  }

  lemma {:induction false} CallsAreTools(calls: seq<OpenAi.Accum>)
    ensures forall p <- OpenAi.CallParts(calls) :: p.ToolCall?
  {
    if calls != [] {
      CallsAreTools(calls[1..]);
    }
  }

  lemma OpenAiTextLeads(chunks: seq<OpenAi.Chunk>)
    ensures TextLeads(OpenAi.Parts(chunks))
  {
    var tools := OpenAi.CallParts(OpenAi.Accumulate(OpenAi.AllFragments(chunks)));
    CallsAreTools(OpenAi.Accumulate(OpenAi.AllFragments(chunks)));
    forall j | 1 <= j < |OpenAi.Parts(chunks)| ensures OpenAi.Parts(chunks)[j].ToolCall? {
      assert OpenAi.Parts(chunks)[j] == tools[j - 1];
      assert tools[j - 1] in tools;
    }
  }

  // ── The two views ───────────────────────────────────────────────────────────

  function StopReasonOf(stop: string): StopReason {
    if stop == "tool_use" then ToolUseStop else OtherStop(stop)
  }

  /** The model call that the Anthropic reader's result is to the tool loop. */
  function CallRead(r: Assembly): Call {
    Call(r.blocks, r.events, if r.error.Some? then CallFailed(r.error.value) else Stopped(StopReasonOf(r.stop)))
  }

  /** The call is what the Anthropic reader makes of a stream that carries these parts. */
  ghost predicate ReadFrom(call: Call, frames: seq<Frame>, parts: seq<ReplyPart>) {
    Content(frames) == Frames(parts) && call == CallRead(Assemble(FRESH_ASSEMBLY, frames))
  }

  /** Such a call has the parts' blocks and events, stopped for the last reason given, and satisfies the views. */
  lemma ReadAsParts(call: Call, frames: seq<Frame>, parts: seq<ReplyPart>)
    requires ReadFrom(call, frames, parts)
    ensures call == Call(Blocks(parts), Events(parts), Stopped(StopReasonOf(StopAfter(frames, "end_turn"))))
    ensures Assembled(call)
    ensures TextFirst(call.streamed) <==> TextLeads(parts)
  {
    AnthropicAssembles(parts, frames);
    PartsAreAssembled(parts, call.end);
    TextFirstIffTextLeads(parts);
  }

  /** The call that the OpenAI reader's result is. */
  function OpenAiCall(chunks: seq<OpenAi.Chunk>): Call {
    var parts := OpenAi.Parts(chunks);
    Call(Blocks(parts), Events(parts), Stopped(StopReasonOf(OpenAi.StopOf(chunks))))
  }

  /**
    For turns whose replies were read from Anthropic streams, cut into deltas in any way: the
    live rows match the history exactly when the log held no marker and no reply puts text
    after a tool call.
   */
  lemma StreamedTurnsMatch(t: Turn, streams: seq<seq<Frame>>, replies: seq<seq<ReplyPart>>)
    requires |streams| == |replies| == |t.calls|
    requires forall k :: 0 <= k < |replies| ==> ReadFrom(t.calls[k], streams[k], replies[k])
    requires GoodStart(t) && Out(t).status.Completed?
    ensures Out(t).used <= |replies|
    ensures Match(Shown(t), HistoryAfter(t)) <==>
              NoMarkers(t.log) && forall k :: 0 <= k < Out(t).used ==> TextLeads(replies[k])
  {
    forall call | call in t.calls ensures Assembled(call) {
      var k :| 0 <= k < |t.calls| && t.calls[k] == call;
      ReadAsParts(call, streams[k], replies[k]);
    }
    LiveViewEqualsHistory(t);
    forall k | 0 <= k < Out(t).used ensures TextFirst(t.calls[k].streamed) <==> TextLeads(replies[k]) {
      ReadAsParts(t.calls[k], streams[k], replies[k]);
    }
  }

  /**
    With an OpenAI-compatible model the two views match exactly when the log held no marker:
    its reader puts the text first.
   */
  lemma OpenAiTurnsMatch(t: Turn, streams: seq<seq<OpenAi.Chunk>>)
    requires |streams| == |t.calls|
    requires forall k :: 0 <= k < |streams| ==> t.calls[k] == OpenAiCall(streams[k])
    requires GoodStart(t) && Out(t).status.Completed?
    ensures Match(Shown(t), HistoryAfter(t)) <==> NoMarkers(t.log)
  {
    forall call | call in t.calls ensures Assembled(call) && TextFirst(call.streamed) {
      var k :| 0 <= k < |t.calls| && t.calls[k] == call;
      assert call == OpenAiCall(streams[k]);
      PartsAreAssembled(OpenAi.Parts(streams[k]), call.end);
      OpenAiTextLeads(streams[k]);
      TextFirstIffTextLeads(OpenAi.Parts(streams[k]));
    }
    LiveViewEqualsHistory(t);
    forall k | 0 <= k < Out(t).used ensures TextFirst(t.calls[k].streamed) {
      assert t.calls[k] in t.calls;
    }
  }
}
