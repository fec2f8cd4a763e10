/** An OpenAI-compatible reply: text deltas and tool-call fragments by index (stream_openai in core/src/lib.rs). */
module OpenAiReply {
  import opened Prelude
  import opened Conversation
  import opened ReplyAssembly

  /** One fragment of a tool call; an absent member is the empty string. */
  datatype Fragment = Fragment(index: nat, id: string, name: string, args: string)

  /** One decoded chunk of the stream; an absent content is the empty string. */
  datatype Chunk = Chunk(content: string, fragments: seq<Fragment>, finish: Option<string>)

  datatype Accum = Accum(id: string, name: string, args: string)

  const NO_CALL := Accum("", "", "")

  function Add(acc: Accum, f: Fragment): Accum {
    Accum(if f.id != "" then f.id else acc.id, if f.name != "" then f.name else acc.name, acc.args + f.args)
  }

  /** Filled up with empty accumulators to at least `n`. */
  function Padded(calls: seq<Accum>, n: nat): (r: seq<Accum>)
    ensures |r| == if |calls| < n then n else |calls|
  {
    calls + seq(if |calls| < n then n - |calls| else 0, i => NO_CALL)
  }

  function AddFragment(calls: seq<Accum>, f: Fragment): seq<Accum> {
    var wide := Padded(calls, f.index + 1);
    wide[f.index := Add(wide[f.index], f)]
  }

  function Accumulate(fragments: seq<Fragment>): seq<Accum> {
    if fragments == [] then []
    else AddFragment(Accumulate(fragments[..|fragments| - 1]), fragments[|fragments| - 1])
  }

  function AllFragments(chunks: seq<Chunk>): seq<Fragment> {
    if chunks == [] then [] else AllFragments(chunks[..|chunks| - 1]) + chunks[|chunks| - 1].fragments
  }

  function Contents(chunks: seq<Chunk>): seq<string> {
    seq(|chunks|, i requires 0 <= i < |chunks| => chunks[i].content)
  }

  /** The last finish reason given, in the loop's own terms. */
  function StopOf(chunks: seq<Chunk>): string {
    if chunks == [] then "end_turn"
    else
      var last := chunks[|chunks| - 1];
      if last.finish.None? then StopOf(chunks[..|chunks| - 1])
      else if last.finish.value == "tool_calls" then "tool_use" else last.finish.value
  }

  /** The tool calls of the reply: accumulators without a name are dropped. */
  function CallParts(calls: seq<Accum>): seq<ReplyPart> {
    if calls == [] then []
    else (if calls[0].name == "" then [] else [ToolCall(calls[0].id, calls[0].name, [calls[0].args])])
         + CallParts(calls[1..])
  }

  /** The reply a stream of chunks stands for: all its text, then its tool calls by index. */
  function Parts(chunks: seq<Chunk>): seq<ReplyPart> {
    [TextRun(Contents(chunks))] + CallParts(Accumulate(AllFragments(chunks)))
  }

  // ── The loops of the source ─────────────────────────────────────────────────

  lemma {:induction false} AccumulateSnoc(fragments: seq<Fragment>, f: Fragment)
    ensures Accumulate(fragments + [f]) == AddFragment(Accumulate(fragments), f)
  {
    assert (fragments + [f])[..|fragments + [f]| - 1] == fragments;
  }

  lemma PadOnce(calls: seq<Accum>, n: nat)
    requires |calls| < n
    ensures Padded(calls + [NO_CALL], n) == Padded(calls, n)
  {}

  /** One fragment, added to the accumulator of its index. */
  method AddOne(start: seq<Accum>, f: Fragment) returns (calls: seq<Accum>)
    ensures calls == AddFragment(start, f)
  {
    calls := start;
    while |calls| <= f.index
      invariant Padded(calls, f.index + 1) == Padded(start, f.index + 1)
      decreases f.index + 1 - |calls|
    {
      PadOnce(calls, f.index + 1);
      calls := calls + [NO_CALL];
    }
    assert Padded(calls, f.index + 1) == calls;
    var acc := calls[f.index];
    if f.id != "" { acc := acc.(id := f.id); }
    if f.name != "" { acc := acc.(name := f.name); }
    acc := acc.(args := acc.args + f.args);
    calls := calls[f.index := acc];
  }

  lemma OneMoreFragment(before: seq<Fragment>, fragments: seq<Fragment>, i: nat)
    requires i < |fragments|
    ensures Accumulate(before + fragments[..i + 1]) == AddFragment(Accumulate(before + fragments[..i]), fragments[i])
  {
    var front := before + fragments[..i];
    assert before + fragments[..i + 1] == front + [fragments[i]];
    AccumulateSnoc(front, fragments[i]);
  }

  /** One chunk's fragments, added in order. */
  method AddFragments(start: seq<Accum>, ghost before: seq<Fragment>, fragments: seq<Fragment>)
    returns (calls: seq<Accum>)
    requires start == Accumulate(before)
    ensures calls == Accumulate(before + fragments)
  {
    calls := start;
    assert before + fragments[..0] == before;
    for i := 0 to |fragments|
      invariant calls == Accumulate(before + fragments[..i])
    {
      OneMoreFragment(before, fragments, i);
      calls := AddOne(calls, fragments[i]);
    }
    assert fragments[..|fragments|] == fragments;
  }

  lemma ContentsSnoc(chunks: seq<Chunk>, i: nat)
    requires i < |chunks|
    ensures Concat(Contents(chunks[..i + 1])) == Concat(Contents(chunks[..i])) + chunks[i].content
    ensures chunks[i].content == "" ==> ChunkEvents(Contents(chunks[..i + 1])) == ChunkEvents(Contents(chunks[..i]))
    ensures chunks[i].content != "" ==>
              ChunkEvents(Contents(chunks[..i + 1]))
              == ChunkEvents(Contents(chunks[..i])) + [TextChunk(chunks[i].content)]
    ensures AllFragments(chunks[..i + 1]) == AllFragments(chunks[..i]) + chunks[i].fragments
  {
    var c := chunks[i].content;
    assert chunks[..i + 1][..i] == chunks[..i];
    assert Contents(chunks[..i + 1]) == Contents(chunks[..i]) + [c];
    ConcatSnoc(Contents(chunks[..i]), c);
    ChunkEventsAppend(Contents(chunks[..i]), [c]);
    assert [c][1..] == [];
  }

  lemma StopSnoc(chunks: seq<Chunk>, i: nat)
    requires i < |chunks|
    ensures StopOf(chunks[..i + 1]) ==
      var finish := chunks[i].finish;
      if finish.None? then StopOf(chunks[..i]) else if finish.value == "tool_calls" then "tool_use" else finish.value
  {
    assert chunks[..i + 1][..i] == chunks[..i];
  }

  /** The loop over the stream: text goes out live, tool calls are only accumulated. */
  method ReadChunks(chunks: seq<Chunk>)
    returns (text: string, events: seq<Event>, calls: seq<Accum>, stop: string)
    ensures text == Concat(Contents(chunks))
    ensures events == ChunkEvents(Contents(chunks))
    ensures calls == Accumulate(AllFragments(chunks))
    ensures stop == StopOf(chunks)
  {
    text, events, calls, stop := "", [], [], "end_turn";
    assert Contents(chunks[..0]) == [];
    for i := 0 to |chunks|
      invariant text == Concat(Contents(chunks[..i]))
      invariant events == ChunkEvents(Contents(chunks[..i]))
      invariant calls == Accumulate(AllFragments(chunks[..i]))
      invariant stop == StopOf(chunks[..i])
    {
      ContentsSnoc(chunks, i);
      StopSnoc(chunks, i);
      if chunks[i].content != "" {
        events := events + [TextChunk(chunks[i].content)];
      }
      text := text + chunks[i].content;
      calls := AddFragments(calls, AllFragments(chunks[..i]), chunks[i].fragments);
      if chunks[i].finish.Some? {
        stop := if chunks[i].finish.value == "tool_calls" then "tool_use" else chunks[i].finish.value;
      }
    }
    assert chunks[..|chunks|] == chunks;
  }

  method EmitCalls(frontBlocks: seq<Block>, front: seq<Event>, calls: seq<Accum>)
    returns (blocks: seq<Block>, events: seq<Event>)
    ensures blocks == frontBlocks + Blocks(CallParts(calls))
    ensures events == front + Events(CallParts(calls))
  {
    blocks, events := frontBlocks, front;
    assert calls[0..] == calls;
    for i := 0 to |calls|
      invariant blocks + Blocks(CallParts(calls[i..])) == frontBlocks + Blocks(CallParts(calls))
      invariant events + Events(CallParts(calls[i..])) == front + Events(CallParts(calls))
    {
      var tc := calls[i];
      UnfoldCalls(blocks, events, calls, i);
      if tc.name != "" {
        events := events + [ToolStarted(tc.id, tc.name)];
        blocks := blocks + [ToolUse(tc.id, tc.name, ParseInput(tc.args))];
      }
    }
    assert blocks + [] == blocks && events + [] == events;
  }

  method StreamOpenAi(chunks: seq<Chunk>) returns (blocks: seq<Block>, events: seq<Event>, stop: string)
    ensures blocks == Blocks(Parts(chunks))
    ensures events == Events(Parts(chunks))
    ensures stop == StopOf(chunks)
  {
    var text, live, calls;
    text, live, calls, stop := ReadChunks(chunks);
    blocks := if text != "" then [Text(text)] else [];
    blocks, events := EmitCalls(blocks, live, calls);
    assert Parts(chunks)[1..] == CallParts(calls);
  }

  lemma UnfoldCalls(blocks: seq<Block>, events: seq<Event>, calls: seq<Accum>, i: nat)
    requires i < |calls|
    ensures var tc := calls[i];
            if tc.name == "" then CallParts(calls[i..]) == CallParts(calls[i + 1..])
            else
              && blocks + Blocks(CallParts(calls[i..]))
                 == blocks + [ToolUse(tc.id, tc.name, ParseInput(tc.args))] + Blocks(CallParts(calls[i + 1..]))
              && events + Events(CallParts(calls[i..]))
                 == events + [ToolStarted(tc.id, tc.name)] + Events(CallParts(calls[i + 1..]))
  {
    var tc := calls[i];
    assert calls[i..][0] == tc && calls[i..][1..] == calls[i + 1..];
    var rest := CallParts(calls[i + 1..]);
    if tc.name == "" {
      assert CallParts(calls[i..]) == [] + rest == rest;
    } else {
      var part := ToolCall(tc.id, tc.name, [tc.args]);
      assert CallParts(calls[i..]) == [part] + rest;
      assert ([part] + rest)[1..] == rest;
      assert Concat([tc.args]) == tc.args + "" == tc.args by { assert [tc.args][1..] == []; }
      Assoc(blocks, [ToolUse(tc.id, tc.name, ParseInput(tc.args))], Blocks(rest));
      Assoc(events, [ToolStarted(tc.id, tc.name)], Events(rest));
    }
  }

  // ── Only the order within an index matters ──────────────────────────────────

  /** The fragments of one tool call, in order. */
  function Only(fragments: seq<Fragment>, index: nat): seq<Fragment> {
    if fragments == [] then []
    else
      var last := fragments[|fragments| - 1];
      Only(fragments[..|fragments| - 1], index) + (if last.index == index then [last] else [])
  }

  /** What the fragments of one call add up to. */
  function Sum(fragments: seq<Fragment>): Accum {
    if fragments == [] then NO_CALL else Add(Sum(fragments[..|fragments| - 1]), fragments[|fragments| - 1])
  }

  lemma AddedAt(calls: seq<Accum>, f: Fragment, i: nat)
    requires i < |AddFragment(calls, f)|
    ensures AddFragment(calls, f)[i] == var was := if i < |calls| then calls[i] else NO_CALL;
                                        if i == f.index then Add(was, f) else was
  {}

  lemma {:induction false} AccumulatedAt(fragments: seq<Fragment>, i: nat)
    requires i < |Accumulate(fragments)|
    ensures Accumulate(fragments)[i] == Sum(Only(fragments, i))
  {
    var front, last := fragments[..|fragments| - 1], fragments[|fragments| - 1];
    if i < |Accumulate(front)| {
      AccumulatedAt(front, i);
    } else {
      AccumulatesWidth(front);
      WidthIsSharp(front, i);
    }
    AddedAt(Accumulate(front), last, i);
    if last.index == i {
      assert Only(fragments, i) == Only(front, i) + [last];
    } else {
      assert Only(fragments, i) == Only(front, i);
    }
  }

  /** One more than the largest index used. */
  function Width(fragments: seq<Fragment>): nat {
    if fragments == [] then 0
    else
      var before, index := Width(fragments[..|fragments| - 1]), fragments[|fragments| - 1].index;
      if before <= index then index + 1 else before
  }

  lemma {:induction false} AccumulatesWidth(fragments: seq<Fragment>)
    ensures |Accumulate(fragments)| == Width(fragments)
  {
    if fragments != [] {
      AccumulatesWidth(fragments[..|fragments| - 1]);
    }
  }

  lemma {:induction false} WidthIsSharp(fragments: seq<Fragment>, i: nat)
    ensures i >= Width(fragments) ==> Only(fragments, i) == []
    ensures i + 1 == Width(fragments) ==> Only(fragments, i) != []
  {
    if fragments != [] {
      WidthIsSharp(fragments[..|fragments| - 1], i);
    }
  }

  lemma WidthReached(a: seq<Fragment>, b: seq<Fragment>, i: nat)
    requires Only(a, i) == Only(b, i) && i + 1 == Width(a)
    ensures Width(a) <= Width(b)
  {
    WidthIsSharp(a, i);
    WidthIsSharp(b, i);
  }

  lemma SameWidth(a: seq<Fragment>, b: seq<Fragment>)
    requires forall i: nat :: Only(a, i) == Only(b, i)
    ensures Width(a) <= Width(b)
  {
    var w := Width(a);
    if w > 0 {
      WidthReached(a, b, w - 1);
    }
  }

  /** The arguments of one call, fragment by fragment. */
  function ArgsOf(fragments: seq<Fragment>, index: nat): seq<string> {
    seq(|fragments|, k requires 0 <= k < |fragments| =>
      if fragments[k].index == index then fragments[k].args else "")
  }

  /** `value` is the last non-empty one of `given`, or empty when there is none. */
  predicate LastGiven(given: seq<string>, value: string) {
    if forall k :: 0 <= k < |given| ==> given[k] == "" then value == ""
    else exists k :: 0 <= k < |given| && given[k] != "" && given[k] == value
                     && forall j :: k < j < |given| ==> given[j] == ""
  }

  function IdsOf(fragments: seq<Fragment>, index: nat): seq<string> {
    seq(|fragments|, k requires 0 <= k < |fragments| => if fragments[k].index == index then fragments[k].id else "")
  }

  function NamesOf(fragments: seq<Fragment>, index: nat): seq<string> {
    seq(|fragments|, k requires 0 <= k < |fragments| => if fragments[k].index == index then fragments[k].name else "")
  }

  lemma LastGivenSnoc(given: seq<string>, value: string, last: string)
    requires LastGiven(given, value)
    ensures LastGiven(given + [last], if last != "" then last else value)
  {
    var more := given + [last];
    if last != "" {
      assert more[|given|] == last;
    } else if exists k :: 0 <= k < |given| && given[k] != "" {
      var k :| 0 <= k < |given| && given[k] != "" && given[k] == value
               && forall j :: k < j < |given| ==> given[j] == "";
      assert more[k] == value;
    }
  }

  lemma GivenSnoc(front: seq<Fragment>, last: Fragment, index: nat)
    ensures var fragments, mine := front + [last], last.index == index;
            && ArgsOf(fragments, index) == ArgsOf(front, index) + [if mine then last.args else ""]
            && IdsOf(fragments, index) == IdsOf(front, index) + [if mine then last.id else ""]
            && NamesOf(fragments, index) == NamesOf(front, index) + [if mine then last.name else ""]
  {}

  /** `acc` is made of the fragments of one call. */
  ghost predicate MadeOf(acc: Accum, fragments: seq<Fragment>, index: nat) {
    && acc.args == Concat(ArgsOf(fragments, index))
    && LastGiven(IdsOf(fragments, index), acc.id) && LastGiven(NamesOf(fragments, index), acc.name)
  }

  lemma MadeOfSnoc(acc: Accum, front: seq<Fragment>, last: Fragment, index: nat)
    requires MadeOf(acc, front, index)
    ensures MadeOf(if last.index == index then Add(acc, last) else acc, front + [last], index)
  {
    var mine := last.index == index;
    GivenSnoc(front, last, index);
    ConcatSnoc(ArgsOf(front, index), if mine then last.args else "");
    LastGivenSnoc(IdsOf(front, index), acc.id, if mine then last.id else "");
    LastGivenSnoc(NamesOf(front, index), acc.name, if mine then last.name else "");
  }

  lemma {:induction false} SumIs(fragments: seq<Fragment>, index: nat)
    ensures MadeOf(Sum(Only(fragments, index)), fragments, index)
  {
    if fragments != [] {
      var front, last := fragments[..|fragments| - 1], fragments[|fragments| - 1];
      assert fragments == front + [last];
      SumIs(front, index);
      MadeOfSnoc(Sum(Only(front, index)), front, last, index);
      SumSnoc(front, last, index);
    }
  }

  lemma SumSnoc(front: seq<Fragment>, last: Fragment, index: nat)
    ensures var before, after := Sum(Only(front, index)), Sum(Only(front + [last], index));
            if last.index == index then after == Add(before, last) else after == before
  {
    assert (front + [last])[..|front|] == front;
    if last.index == index {
      assert (Only(front, index) + [last])[..|Only(front, index)|] == Only(front, index);
    } else {
      assert Only(front, index) + [] == Only(front, index);
    }
  }

  /**
    What a tool call is made of: the arguments of all its fragments in order, and the last id and
    name given. There are as many calls as the largest index says.
   */
  lemma CallsAreMadeOf(fragments: seq<Fragment>, i: nat)
    ensures forall f <- fragments :: f.index < |Accumulate(fragments)|
    ensures i < |Accumulate(fragments)| ==> MadeOf(Accumulate(fragments)[i], fragments, i)
    ensures i + 1 == |Accumulate(fragments)| ==> exists f <- fragments :: f.index == i
  {
    AccumulatesWidth(fragments);
    WidthIsLargest(fragments);
    if i < |Accumulate(fragments)| {
      AccumulatedAt(fragments, i);
      SumIs(fragments, i);
    }
  }

  lemma {:induction false} WidthIsLargest(fragments: seq<Fragment>)
    ensures forall f <- fragments :: f.index < Width(fragments)
    ensures Width(fragments) > 0 ==> exists f <- fragments :: f.index + 1 == Width(fragments)
  {
    if fragments != [] {
      var front, last := fragments[..|fragments| - 1], fragments[|fragments| - 1];
      WidthIsLargest(front);
      assert fragments == front + [last];
      assert last in fragments && forall f <- front :: f in fragments;
    }
  }

  /** However fragments of different tool calls are interleaved, the calls come out the same. */
  lemma InterleavingIsIrrelevant(a: seq<Fragment>, b: seq<Fragment>)
    requires forall i: nat :: Only(a, i) == Only(b, i)
    ensures Accumulate(a) == Accumulate(b)
  {
    AccumulatesWidth(a);
    AccumulatesWidth(b);
    SameWidth(a, b);
    SameWidth(b, a);
    forall i | 0 <= i < |Accumulate(a)| ensures Accumulate(a)[i] == Accumulate(b)[i] {
      AccumulatedAt(a, i);
      AccumulatedAt(b, i);
    }
  }
}
