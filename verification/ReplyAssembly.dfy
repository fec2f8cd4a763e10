/**
  How one streamed model reply becomes content blocks and live events
  (stream_anthropic and stream_openai in core/src/lib.rs).
 */
module ReplyAssembly {
  import opened Prelude
  import opened Conversation

  /** A reply as the model means it: runs of text and tool calls, each cut into fragments. */
  datatype ReplyPart =
    | TextRun(chunks: seq<string>)
    | ToolCall(id: string, name: string, fragments: seq<string>)

  function ParseInput(json: string): string {
    if json == "" then "{}" else json
  }

  function BlockOf(part: ReplyPart): seq<Block> {
    match part
    case TextRun(chunks) =>
      if Concat(chunks) == "" then [] else [Text(Concat(chunks))]
    case ToolCall(id, name, fragments) =>
      [ToolUse(id, name, ParseInput(Concat(fragments)))]
  }

  /** One event for each non-empty chunk. */
  function ChunkEvents(chunks: seq<string>): seq<Event> {
    if chunks == [] then []
    else (if chunks[0] == "" then [] else [TextChunk(chunks[0])]) + ChunkEvents(chunks[1..])
  }

  function EventsOf(part: ReplyPart): seq<Event> {
    match part
    case TextRun(chunks) => ChunkEvents(chunks)
    case ToolCall(id, name, _) => [ToolStarted(id, name)]
  }

  function Blocks(parts: seq<ReplyPart>): seq<Block> {
    if parts == [] then [] else BlockOf(parts[0]) + Blocks(parts[1..])
  }

  function Events(parts: seq<ReplyPart>): seq<Event> {
    if parts == [] then [] else EventsOf(parts[0]) + Events(parts[1..])
  }

  lemma {:induction false} ChunkEventsAppend(a: seq<string>, b: seq<string>)
    ensures ChunkEvents(a + b) == ChunkEvents(a) + ChunkEvents(b)
  {
    if a == [] {
      assert a + b == b;
    } else {
      assert (a + b)[1..] == a[1..] + b;
      ChunkEventsAppend(a[1..], b);
    }
  }

  // ── Anthropic ───────────────────────────────────────────────────────────────

  /** One decoded SSE frame of an Anthropic stream. */
  datatype Frame =
    | BlockStart(kind: string, id: string, name: string)
    | TextDelta(text: string)
    | InputDelta(json: string)
    | BlockStop
    | StopReason(reason: string)
    | ErrorFrame(message: string)
    | OtherFrame

  datatype StreamingBlock = StreamingBlock(kind: string, text: string, id: string, name: string, input: string)

  /** The local variables of the streaming loop. */
  datatype Assembly = Assembly(
    current: Option<StreamingBlock>,
    blocks: seq<Block>,
    events: seq<Event>,
    stop: string,
    error: Option<string>)

  const FRESH_ASSEMBLY := Assembly(None, [], [], "end_turn", None)

  function OnFrame(a: Assembly, f: Frame): Assembly {
    match f
    case BlockStart(kind, id, name) =>
      a.(current := Some(StreamingBlock(kind, "", id, name, "")))
    case TextDelta(text) =>
      if a.current.None? || text == "" then a
      else a.(current := Some(a.current.value.(text := a.current.value.text + text)),
              events := a.events + [TextChunk(text)])
    case InputDelta(json) =>
      if a.current.None? then a
      else a.(current := Some(a.current.value.(input := a.current.value.input + json)))
    case BlockStop =>
      if a.current.None? then a
      else
        var cur := a.current.value;
        if cur.kind == "text" && cur.text != "" then
          a.(current := None, blocks := a.blocks + [Text(cur.text)])
        else if cur.kind == "tool_use" then
          a.(current := None,
             events := a.events + [ToolStarted(cur.id, cur.name)],
             blocks := a.blocks + [ToolUse(cur.id, cur.name, ParseInput(cur.input))])
        else
          a.(current := None)
    case StopReason(reason) => a.(stop := reason)
    case ErrorFrame(message) => a.(error := Some("API stream error: " + message))
    case OtherFrame => a
  }

  /** The loop over the frames; an `error` frame ends it at once. */
  function Assemble(a: Assembly, frames: seq<Frame>): Assembly
    decreases |frames|
  {
    if frames == [] || a.error.Some? then a else Assemble(OnFrame(a, frames[0]), frames[1..])
  }

  method StreamAnthropic(frames: seq<Frame>) returns (r: Assembly)
    ensures r == Assemble(FRESH_ASSEMBLY, frames)
  {
    var current: Option<StreamingBlock> := None;
    var blocks: seq<Block> := [];
    var events: seq<Event> := [];
    var stop := "end_turn";
    var i := 0;
    while i < |frames|
      invariant i <= |frames|
      invariant Assemble(FRESH_ASSEMBLY, frames)
             == Assemble(Assembly(current, blocks, events, stop, None), frames[i..])
    {
      assert frames[i..][1..] == frames[i + 1..];
      match frames[i] {
        case BlockStart(kind, id, name) =>
          current := Some(StreamingBlock(kind, "", id, name, ""));
        case TextDelta(text) =>
          if current.Some? && text != "" {
            current := Some(current.value.(text := current.value.text + text));
            events := events + [TextChunk(text)];
          }
        case InputDelta(json) =>
          if current.Some? {
            current := Some(current.value.(input := current.value.input + json));
          }
        case BlockStop =>
          if current.Some? {
            var cur := current.value;
            current := None;
            if cur.kind == "text" && cur.text != "" {
              blocks := blocks + [Text(cur.text)];
            } else if cur.kind == "tool_use" {
              events := events + [ToolStarted(cur.id, cur.name)];
              blocks := blocks + [ToolUse(cur.id, cur.name, ParseInput(cur.input))];
            }
          }
        case StopReason(reason) =>
          stop := reason;
        case ErrorFrame(message) =>
          return Assembly(current, blocks, events, stop, Some("API stream error: " + message));
        case OtherFrame =>
      }
      i := i + 1;
    }
    r := Assembly(current, blocks, events, stop, None);
  }

  /** The frames that carry a part of the reply. */
  function FramesOf(part: ReplyPart): seq<Frame> {
    match part
    case TextRun(chunks) =>
      [BlockStart("text", "", "")] + seq(|chunks|, i requires 0 <= i < |chunks| => TextDelta(chunks[i])) + [BlockStop]
    case ToolCall(id, name, fragments) =>
      [BlockStart("tool_use", id, name)] + seq(|fragments|, i requires 0 <= i < |fragments| => InputDelta(fragments[i]))
      + [BlockStop]
  }

  function Frames(parts: seq<ReplyPart>): seq<Frame> {
    if parts == [] then [] else FramesOf(parts[0]) + Frames(parts[1..])
  }

  lemma {:induction false} AssembleAppend(a: Assembly, x: seq<Frame>, y: seq<Frame>)
    ensures Assemble(a, x + y) == Assemble(Assemble(a, x), y)
    decreases |x|
  {
    if x == [] || a.error.Some? {
      assert x == [] ==> x + y == y;
    } else {
      assert (x + y)[1..] == x[1..] + y;
      AssembleAppend(OnFrame(a, x[0]), x[1..], y);
    }
  }

  lemma {:induction false} AssembleText(a: Assembly, chunks: seq<string>)
    requires a.current.Some? && a.error.None?
    ensures Assemble(a, seq(|chunks|, i requires 0 <= i < |chunks| => TextDelta(chunks[i])))
         == a.(current := Some(a.current.value.(text := a.current.value.text + Concat(chunks))),
               events := a.events + ChunkEvents(chunks))
    decreases |chunks|
  {
    var fs := seq(|chunks|, i requires 0 <= i < |chunks| => TextDelta(chunks[i]));
    if chunks != [] {
      var b := OnFrame(a, fs[0]);
      assert fs[1..] == seq(|chunks[1..]|, i requires 0 <= i < |chunks[1..]| => TextDelta(chunks[1..][i]));
      AssembleText(b, chunks[1..]);
      assert a.current.value.text + Concat(chunks) == b.current.value.text + Concat(chunks[1..]);
      assert a.events + ChunkEvents(chunks) == b.events + ChunkEvents(chunks[1..]);
    } else {
      assert a.current.value.text + "" == a.current.value.text;
    }
  }

  lemma {:induction false} AssembleInput(a: Assembly, fragments: seq<string>)
    requires a.current.Some? && a.error.None?
    ensures Assemble(a, seq(|fragments|, i requires 0 <= i < |fragments| => InputDelta(fragments[i])))
         == a.(current := Some(a.current.value.(input := a.current.value.input + Concat(fragments))))
    decreases |fragments|
  {
    var fs := seq(|fragments|, i requires 0 <= i < |fragments| => InputDelta(fragments[i]));
    if fragments != [] {
      var b := OnFrame(a, fs[0]);
      assert fs[1..] == seq(|fragments[1..]|, i requires 0 <= i < |fragments[1..]| => InputDelta(fragments[1..][i]));
      AssembleInput(b, fragments[1..]);
      assert a.current.value.input + Concat(fragments) == b.current.value.input + Concat(fragments[1..]);
    } else {
      assert a.current.value.input + "" == a.current.value.input;
    }
  }

  function Grown(a: Assembly, blocks: seq<Block>, events: seq<Event>): Assembly {
    a.(blocks := a.blocks + blocks, events := a.events + events)
  }

  lemma GrownTwice(a: Assembly, b1: seq<Block>, e1: seq<Event>, b2: seq<Block>, e2: seq<Event>)
    ensures Grown(Grown(a, b1, e1), b2, e2) == Grown(a, b1 + b2, e1 + e2)
  {
    assert (a.blocks + b1) + b2 == a.blocks + (b1 + b2);
    assert (a.events + e1) + e2 == a.events + (e1 + e2);
  }

  lemma AssemblePart(a: Assembly, part: ReplyPart)
    requires a.current.None? && a.error.None?
    ensures Assemble(a, FramesOf(part)) == Grown(a, BlockOf(part), EventsOf(part))
  {
    var fs := FramesOf(part);
    var b := OnFrame(a, fs[0]);
    var body := fs[1..|fs| - 1];
    assert fs[1..] == body + [BlockStop];
    AssembleAppend(b, body, [BlockStop]);
    match part {
      case TextRun(chunks) =>
        assert body == seq(|chunks|, i requires 0 <= i < |chunks| => TextDelta(chunks[i]));
        AssembleText(b, chunks);
        assert "" + Concat(chunks) == Concat(chunks);
        assert a.blocks + [] == a.blocks;
      case ToolCall(id, name, fragments) =>
        assert body == seq(|fragments|, i requires 0 <= i < |fragments| => InputDelta(fragments[i]));
        AssembleInput(b, fragments);
        assert "" + Concat(fragments) == Concat(fragments);
    }
  }

  /** However text and input are cut into deltas, the frames of the parts yield their blocks and events. */
  lemma {:induction false} PartsAssemble(a: Assembly, parts: seq<ReplyPart>)
    requires a.current.None? && a.error.None?
    ensures Assemble(a, Frames(parts)) == Grown(a, Blocks(parts), Events(parts))
    decreases |parts|
  {
    if parts == [] {
      assert a.blocks + [] == a.blocks && a.events + [] == a.events;
    } else {
      var b := Grown(a, BlockOf(parts[0]), EventsOf(parts[0]));
      calc {
        Assemble(a, Frames(parts));
        { AssembleAppend(a, FramesOf(parts[0]), Frames(parts[1..])); AssemblePart(a, parts[0]); }
        Assemble(b, Frames(parts[1..]));
        { PartsAssemble(b, parts[1..]); }
        Grown(b, Blocks(parts[1..]), Events(parts[1..]));
        { GrownTwice(a, BlockOf(parts[0]), EventsOf(parts[0]), Blocks(parts[1..]), Events(parts[1..])); }
        Grown(a, Blocks(parts), Events(parts));
      }
    }
  }

  // ── The frames around the parts ─────────────────────────────────────────────

  /** Frames that carry no part: `message_start`, `ping`, `message_stop` and the like, and the stop reason. */
  predicate IsContent(f: Frame) {
    !f.OtherFrame? && !f.StopReason?
  }

  function Content(frames: seq<Frame>): seq<Frame> {
    if frames == [] then []
    else (if IsContent(frames[0]) then [frames[0]] else []) + Content(frames[1..])
  }

  /** The last stop reason given, or `stop` when there is none. */
  function StopAfter(frames: seq<Frame>, stop: string): string
    decreases |frames|
  {
    if frames == [] then stop
    else StopAfter(frames[1..], if frames[0].StopReason? then frames[0].reason else stop)
  }

  lemma {:induction false} StopIsApart(a: Assembly, frames: seq<Frame>, stop: string)
    requires forall f <- frames :: IsContent(f)
    ensures Assemble(a.(stop := stop), frames) == Assemble(a, frames).(stop := stop)
    decreases |frames|
  {
    if frames != [] && a.error.None? {
      assert frames[0] in frames;
      assert OnFrame(a.(stop := stop), frames[0]) == OnFrame(a, frames[0]).(stop := stop);
      StopIsApart(OnFrame(a, frames[0]), frames[1..], stop);
    }
  }

  lemma {:induction false} ContentIsContent(frames: seq<Frame>)
    ensures forall f <- Content(frames) :: IsContent(f)
    ensures forall f <- frames :: IsContent(f) ==> f in Content(frames)
  {
    if frames != [] {
      ContentIsContent(frames[1..]);
      assert frames == [frames[0]] + frames[1..];
    }
  }

  /** Without an `error` frame, only the content frames and the last stop reason matter. */
  lemma {:induction false} OtherFramesAreIgnored(a: Assembly, frames: seq<Frame>)
    requires a.error.None? && forall f <- frames :: !f.ErrorFrame?
    ensures Assemble(a, frames) == Assemble(a, Content(frames)).(stop := StopAfter(frames, a.stop))
    decreases |frames|
  {
    if frames != [] {
      var f, rest := frames[0], frames[1..];
      assert f in frames;
      OtherFramesAreIgnored(OnFrame(a, f), rest);
      if f.StopReason? {
        ContentIsContent(rest);
        StopIsApart(a, Content(rest), f.reason);
        assert Content(frames) == Content(rest);
      } else if f.OtherFrame? {
        assert Content(frames) == Content(rest);
      } else {
        assert Content(frames) == [f] + Content(rest);
        assert Assemble(a, [f] + Content(rest)) == Assemble(OnFrame(a, f), Content(rest)) by {
          assert ([f] + Content(rest))[1..] == Content(rest);
        }
        assert OnFrame(a, f).stop == a.stop;
      }
    }
  }

  lemma {:induction false} FramesHaveNoErrors(parts: seq<ReplyPart>)
    ensures forall f <- Frames(parts) :: !f.ErrorFrame?
  {
    if parts != [] {
      FramesHaveNoErrors(parts[1..]);
    }
  }

  /**
    However text and input are cut into deltas, and whatever frames without content stand in
    between, the reader makes of a stream the blocks and events of the reply it carries, and
    its last stop reason.
   */
  lemma AnthropicAssembles(parts: seq<ReplyPart>, frames: seq<Frame>)
    requires Content(frames) == Frames(parts)
    ensures Assemble(FRESH_ASSEMBLY, frames)
         == Assembly(None, Blocks(parts), Events(parts), StopAfter(frames, "end_turn"), None)
  {
    FramesHaveNoErrors(parts);
    ContentIsContent(frames);
    forall f | f in frames ensures !f.ErrorFrame? {
      assert IsContent(f) ==> f in Content(frames);
    }
    OtherFramesAreIgnored(FRESH_ASSEMBLY, frames);
    PartsAssemble(FRESH_ASSEMBLY, parts);
    assert [] + Blocks(parts) == Blocks(parts) && [] + Events(parts) == Events(parts);
  }
}
