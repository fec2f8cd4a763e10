/** Cutting a character stream into server-sent events as it arrives (`pop_sse_event` in core/src/lib.rs). */
module Sse {
  import opened Prelude
  import Utf8

  // ── Where an event ends ─────────────────────────────────────────────────────

  predicate LfAt(s: string, i: nat) {
    i + 2 <= |s| && s[i] == '\n' && s[i + 1] == '\n'
  }

  predicate CrLfAt(s: string, i: nat) {
    i + 4 <= |s| && s[i] == '\r' && s[i + 1] == '\n' && s[i + 2] == '\r' && s[i + 3] == '\n'
  }

  /** `find("\n\n")`, from `i` on. */
  function FindLf(s: string, i: nat): (r: Option<nat>)
    requires i <= |s|
    ensures r.Some? ==> i <= r.value && LfAt(s, r.value) && forall k: nat :: i <= k < r.value ==> !LfAt(s, k)
    ensures r.None? ==> forall k: nat :: i <= k ==> !LfAt(s, k)
    decreases |s| - i
  {
    if i == |s| then None else if LfAt(s, i) then Some(i) else FindLf(s, i + 1)
  }

  /** `find("\r\n\r\n")`, from `i` on. */
  function FindCrLf(s: string, i: nat): (r: Option<nat>)
    requires i <= |s|
    ensures r.Some? ==> i <= r.value && CrLfAt(s, r.value) && forall k: nat :: i <= k < r.value ==> !CrLfAt(s, k)
    ensures r.None? ==> forall k: nat :: i <= k ==> !CrLfAt(s, k)
    decreases |s| - i
  {
    if i == |s| then None else if CrLfAt(s, i) then Some(i) else FindCrLf(s, i + 1)
  }

  ghost predicate HasLf(s: string) {
    exists i: nat :: LfAt(s, i)
  }

  ghost predicate HasCrLf(s: string) {
    exists i: nat :: CrLfAt(s, i)
  }

  /** The first complete block and how long it is with its blank line; `\n\n` is looked for first, anywhere. */
  datatype Cut = NoCut | CutAt(at: nat, len: nat)

  function FirstCut(s: string): (c: Cut)
    ensures c.CutAt? ==> c.len > 0 && c.at + c.len <= |s|
    ensures c == if HasLf(s) then CutAt(FindLf(s, 0).value, 2)
                 else if HasCrLf(s) then CutAt(FindCrLf(s, 0).value, 4) else NoCut
  {
    var lf := FindLf(s, 0);
    if lf.Some? then CutAt(lf.value, 2)
    else
      var crlf := FindCrLf(s, 0);
      if crlf.Some? then CutAt(crlf.value, 4) else NoCut
  }

  /** The blocks cut out of a buffer, and what stays in it. */
  datatype Drained = Drained(blocks: seq<string>, rest: string)

  function Before(blocks: seq<string>, d: Drained): Drained {
    Drained(blocks + d.blocks, d.rest)
  }

  /** Take blocks out until none is complete. */
  function Drain(s: string): Drained
    decreases |s|
  {
    match FirstCut(s)
    case NoCut => Drained([], s)
    case CutAt(at, len) => Before([s[..at]], Drain(s[at + len..]))
  }

  /** Draining after every chunk. */
  function Feed(rest: string, chunks: seq<string>): Drained
    decreases |chunks|
  {
    if chunks == [] then Drained([], rest)
    else
      var d := Drain(rest + chunks[0]);
      Before(d.blocks, Feed(d.rest, chunks[1..]))
  }

  // ── When it does not matter where the stream is cut into chunks ─────────────

  /** Every cut of `a` at `\r\n\r\n` is final: nothing that is still to come, `b` included, holds `\n\n`. */
  ghost predicate Steady(a: string, b: string)
    decreases |a|
  {
    match FirstCut(a)
    case NoCut => true
    case CutAt(at, len) => (HasLf(a) || !HasLf(a + b)) && Steady(a[at + len..], b)
  }

  lemma BeforeSame(blocks: seq<string>, d: Drained, e: Drained)
    ensures Before(blocks, d) == Before(blocks, e) <==> d == e
  {
    assert (blocks + d.blocks)[|blocks|..] == d.blocks;
    assert (blocks + e.blocks)[|blocks|..] == e.blocks;
  }

  lemma BeforeTwice(a: seq<string>, b: seq<string>, d: Drained)
    ensures Before(a, Before(b, d)) == Before(a + b, d)
  {
    Assoc(a, b, d.blocks);
  }

  /** A cut at `\n\n`, or at `\r\n\r\n` with no `\n\n` to come, is made in the longer buffer too. */
  lemma CutExtends(a: string, b: string)
    requires FirstCut(a).CutAt? && (HasLf(a) || !HasLf(a + b))
    ensures FirstCut(a + b) == FirstCut(a)
  {
    var s := a + b;
    if HasLf(a) {
      var at := FindLf(a, 0).value;
      assert LfAt(s, at);
      forall k: nat | k < at ensures !LfAt(s, k) {
        assert !LfAt(a, k);
      }
      assert FindLf(s, 0) == Some(at);
    } else {
      var at := FindCrLf(a, 0).value;
      assert CrLfAt(s, at);
      forall k: nat | k < at ensures !CrLfAt(s, k) {
        assert !CrLfAt(a, k);
      }
      assert FindCrLf(s, 0) == Some(at);
    }
  }

  /** Otherwise the longer buffer is cut later. */
  lemma CutMoves(a: string, b: string)
    requires FirstCut(a).CutAt? && !HasLf(a) && HasLf(a + b)
    ensures FirstCut(a + b).CutAt? && FirstCut(a + b).at > FirstCut(a).at
  {
    var s := a + b;
    var lf := FindLf(s, 0).value;
    assert !LfAt(a, lf);
  }

  lemma UnfoldDrain(s: string)
    requires FirstCut(s).CutAt?
    ensures var c := FirstCut(s); Drain(s) == Before([s[..c.at]], Drain(s[c.at + c.len..]))
  {}

  lemma SameFirstBlock(a: string, b: string)
    requires FirstCut(a).CutAt? && (HasLf(a) || !HasLf(a + b))
    ensures var c := FirstCut(a); Drain(a + b) == Before([a[..c.at]], Drain(a[c.at + c.len..] + b))
  {
    var c := FirstCut(a);
    CutExtends(a, b);
    CutParts(a, b, c.at, c.at + c.len);
    DrainAs(a + b, c, a[..c.at], a[c.at + c.len..] + b);
  }

  lemma DrainAs(s: string, c: Cut, block: string, rest: string)
    requires c.CutAt? && FirstCut(s) == c && block == s[..c.at] && rest == s[c.at + c.len..]
    ensures Drain(s) == Before([block], Drain(rest))
  {}

  lemma CutParts(a: string, b: string, at: nat, end: nat)
    requires at <= end <= |a|
    ensures (a + b)[end..] == a[end..] + b && (a + b)[..at] == a[..at]
  {}

  /** One chunk boundary: with final cuts, draining before it gives the same blocks and rest. */
  lemma {:induction false} DrainSplits(a: string, b: string)
    requires Steady(a, b)
    ensures Drain(a + b) == Before(Drain(a).blocks, Drain(Drain(a).rest + b))
    decreases |a|
  {
    var c := FirstCut(a);
    if c.CutAt? {
      var d := Drain(a[c.at + c.len..]);
      SameFirstBlock(a, b);
      DrainSplits(a[c.at + c.len..], b);
      BeforeTwice([a[..c.at]], d.blocks, Drain(d.rest + b));
    }
  }

  /** Every chunk boundary is harmless. */
  ghost predicate SteadyFeed(rest: string, chunks: seq<string>)
    decreases |chunks|
  {
    chunks == [] ||
    (Steady(rest + chunks[0], Concat(chunks[1..])) && SteadyFeed(Drain(rest + chunks[0]).rest, chunks[1..]))
  }

  lemma {:induction false} DrainsAll(s: string)
    ensures FirstCut(Drain(s).rest).NoCut?
    decreases |s|
  {
    var c := FirstCut(s);
    if c.CutAt? {
      DrainsAll(s[c.at + c.len..]);
    }
  }

  /** The differing block is the first one that differs, so later chunks cannot make up for it. */
  lemma {:induction false} UnsteadyDiffers(a: string, b: string, later: Drained)
    requires !Steady(a, b)
    ensures Drain(a + b) != Before(Drain(a).blocks, later)
    decreases |a|
  {
    var c := FirstCut(a);
    var next := a[c.at + c.len..];
    var d := Drain(next);
    UnfoldDrain(a);
    BeforeTwice([a[..c.at]], d.blocks, later);
    if HasLf(a) || !HasLf(a + b) {
      SameFirstBlock(a, b);
      UnsteadyDiffers(next, b, later);
      BeforeSame([a[..c.at]], Drain(next + b), Before(d.blocks, later));
    } else {
      CutMoves(a, b);
      UnfoldDrain(a + b);
      assert Drain(a + b).blocks[0] == (a + b)[..FirstCut(a + b).at];
      assert Before([a[..c.at]], Before(d.blocks, later)).blocks[0] == a[..c.at];
    }
  }

  /**
    For any stream and any cut into chunks, draining after every chunk gives the blocks and the
    rest of one drain of the whole stream exactly when every cut made at `\r\n\r\n` is final.
   */
  lemma {:induction false} ChunkingIsInvisible(rest: string, chunks: seq<string>)
    requires FirstCut(rest).NoCut?
    ensures Feed(rest, chunks) == Drain(rest + Concat(chunks)) <==> SteadyFeed(rest, chunks)
    decreases |chunks|
  {
    if chunks == [] {
      assert rest + "" == rest;
    } else {
      var a, b := rest + chunks[0], Concat(chunks[1..]);
      var d := Drain(a);
      Assoc(rest, chunks[0], b);
      DrainsAll(a);
      ChunkingIsInvisible(d.rest, chunks[1..]);
      if Steady(a, b) {
        DrainSplits(a, b);
        BeforeSame(d.blocks, Feed(d.rest, chunks[1..]), Drain(d.rest + b));
      } else {
        UnsteadyDiffers(a, b, Feed(d.rest, chunks[1..]));
      }
    }
  }

  // ── Streams with one kind of line ending ────────────────────────────────────

  ghost predicate OneEnding(s: string) {
    !HasLf(s) || !HasCrLf(s)
  }

  lemma SuffixEnding(s: string, n: nat)
    requires OneEnding(s) && n <= |s|
    ensures OneEnding(s[n..])
  {
    if HasLf(s[n..]) && HasCrLf(s[n..]) {
      var i: nat :| LfAt(s[n..], i);
      var j: nat :| CrLfAt(s[n..], j);
      assert LfAt(s, n + i) && CrLfAt(s, n + j);
    }
  }

  lemma {:induction false} OneEndingIsSteady(a: string, b: string)
    requires OneEnding(a + b)
    ensures Steady(a, b) && OneEnding(Drain(a).rest + b)
    decreases |a|
  {
    var c := FirstCut(a);
    if c.CutAt? {
      if !HasLf(a) {
        assert CrLfAt(a + b, c.at);
      }
      SuffixEnding(a + b, c.at + c.len);
      assert (a + b)[c.at + c.len..] == a[c.at + c.len..] + b;
      OneEndingIsSteady(a[c.at + c.len..], b);
    }
  }

  lemma {:induction false} OneEndingFeeds(rest: string, chunks: seq<string>)
    requires OneEnding(rest + Concat(chunks))
    ensures SteadyFeed(rest, chunks)
    decreases |chunks|
  {
    if chunks != [] {
      Assoc(rest, chunks[0], Concat(chunks[1..]));
      OneEndingIsSteady(rest + chunks[0], Concat(chunks[1..]));
      OneEndingFeeds(Drain(rest + chunks[0]).rest, chunks[1..]);
    }
  }

  /** A stream without carriage returns, or with blank lines of one kind, may be cut anywhere. */
  lemma CrFreeChunkingIsInvisible(chunks: seq<string>)
    requires '\r' !in Concat(chunks) || OneEnding(Concat(chunks))
    ensures Feed("", chunks) == Drain(Concat(chunks))
  {
    var whole := Concat(chunks);
    assert "" + whole == whole;
    if HasCrLf(whole) {
      var i: nat :| CrLfAt(whole, i);
      assert whole[i] in whole;
    }
    OneEndingFeeds("", chunks);
    ChunkingIsInvisible("", chunks);
  }

  /** With both kinds in one stream a chunk boundary shows. */
  lemma MixedEndingsDepend()
    ensures var chunks := ["x\r\n\r\n", "y\n\n"]; Feed("", chunks) != Drain("" + Concat(chunks))
  {
    var a, b := "x\r\n\r\n", "y\n\n";
    var chunks := [a, b];
    assert chunks[1..] == [b] && [b][1..] == [];
    assert Concat([b]) == b + "" == b;
    assert "" + a == a;
    assert CrLfAt(a, 1) && LfAt(a + b, 6);
    assert !HasLf(a) by {
      forall i: nat ensures !LfAt(a, i) {}
    }
    assert !Steady(a, b);
    ChunkingIsInvisible("", chunks);
  }

  // ── What is in a block ──────────────────────────────────────────────────────

  function FindNewline(s: string, i: nat): (r: nat)
    requires i <= |s|
    ensures i <= r <= |s|
    decreases |s| - i
  {
    if i == |s| || s[i] == '\n' then i else FindNewline(s, i + 1)
  }

  /** `str::lines`: a `\r` before the line feed goes with it. */
  function Lines(s: string): seq<string> {
    if s == "" then []
    else
      var end := FindNewline(s, 0);
      if end == |s| then [s]
      else [if end > 0 && s[end - 1] == '\r' then s[..end - 1] else s[..end]] + Lines(s[end + 1..])
  }

  predicate IsWhitespace(c: char) {
    || '\t' <= c <= '\r' || c == ' ' || c == '\U{85}' || c == '\U{A0}' || c == '\U{1680}'
    || '\U{2000}' <= c <= '\U{200A}' || c == '\U{2028}' || c == '\U{2029}' || c == '\U{202F}'
    || c == '\U{205F}' || c == '\U{3000}'
  }

  function TrimStart(s: string): string {
    if s != "" && IsWhitespace(s[0]) then TrimStart(s[1..]) else s
  }

  function TrimSpaces(s: string): string {
    if s != "" && s[0] == ' ' then TrimSpaces(s[1..]) else s
  }

  datatype Field = EventField(value: string) | DataField(value: string) | OtherField

  /** One line: leading blanks of the value are dropped, however many. */
  function FieldOf(line: string): Field {
    if "event:" <= line then EventField(TrimStart(line[6..]))
    else if "data:" <= line then DataField(TrimSpaces(line[5..]))
    else OtherField
  }

  function FieldsOf(lines: seq<string>): (r: seq<Field>)
    ensures |r| == |lines|
  {
    seq(|lines|, i requires 0 <= i < |lines| => FieldOf(lines[i]))
  }

  datatype SseEvent = SseEvent(kind: string, data: string)

  function WithField(e: SseEvent, f: Field): SseEvent {
    match f
    case EventField(value) => e.(kind := value)
    case DataField(value) => e.(data := (if e.data == "" then "" else e.data + "\n") + value)
    case OtherField => e
  }

  function EventOf(fields: seq<Field>): SseEvent {
    if fields == [] then SseEvent("", "")
    else WithField(EventOf(fields[..|fields| - 1]), fields[|fields| - 1])
  }

  function Parse(block: string): SseEvent {
    EventOf(FieldsOf(Lines(block)))
  }

  function DataValues(fields: seq<Field>): seq<string> {
    if fields == [] then []
    else
      var last := fields[|fields| - 1];
      DataValues(fields[..|fields| - 1]) + (if last.DataField? then [last.value] else [])
  }

  /** The data of an event in the standard: its data lines, joined by line feeds. */
  function Joined(values: seq<string>): string {
    if values == [] then ""
    else if |values| == 1 then values[0]
    else Joined(values[..|values| - 1]) + "\n" + values[|values| - 1]
  }

  /** Joining as the code does it: no line feed after data that is still empty. */
  function JoinedSoFar(values: seq<string>): string {
    if values == [] then ""
    else
      var before := JoinedSoFar(values[..|values| - 1]);
      (if before == "" then "" else before + "\n") + values[|values| - 1]
  }

  lemma {:induction false} DataIsJoinedSoFar(fields: seq<Field>)
    ensures EventOf(fields).data == JoinedSoFar(DataValues(fields))
  {
    if fields != [] {
      var front, last := fields[..|fields| - 1], fields[|fields| - 1];
      DataIsJoinedSoFar(front);
      var before := DataValues(front);
      if last.DataField? {
        var values := before + [last.value];
        assert DataValues(fields) == values;
        assert values[..|values| - 1] == before;
      } else {
        assert DataValues(fields) == before + [] == before;
      }
    }
  }

  lemma {:induction false} JoinsCompare(values: seq<string>)
    ensures if |values| <= 1 || values[0] != "" then JoinedSoFar(values) == Joined(values)
            else |JoinedSoFar(values)| < |Joined(values)|
    ensures values != [] && values[0] != "" ==> Joined(values) != ""
  {
    if values != [] {
      var front := values[..|values| - 1];
      JoinsCompare(front);
      if |values| == 2 {
        assert front == [values[0]] && Joined(front) == values[0];
      }
    }
  }

  /**
    Data lines are joined by line feeds as section 9.2.6 of the HTML Living Standard has it,
    exactly unless an empty line is the first of several.
   */
  lemma DataIsJoined(fields: seq<Field>)
    ensures var values := DataValues(fields);
            EventOf(fields).data == Joined(values) <==> |values| <= 1 || values[0] != ""
  {
    DataIsJoinedSoFar(fields);
    JoinsCompare(DataValues(fields));
  }

  // ── The buffer the source works on ──────────────────────────────────────────

  function ParseAll(blocks: seq<string>): (r: seq<SseEvent>)
    ensures |r| == |blocks|
  {
    seq(|blocks|, i requires 0 <= i < |blocks| => Parse(blocks[i]))
  }

  class SseBuffer {
    var buffer: string

    constructor ()
      ensures buffer == ""
    {
      buffer := "";
    }

    method ParseBlock(block: string) returns (e: SseEvent)
      ensures e == Parse(block)
    {
      var lines := Lines(block);
      var eventType, data := "", "";
      for i := 0 to |lines|
        invariant SseEvent(eventType, data) == EventOf(FieldsOf(lines)[..i])
      {
        assert FieldsOf(lines)[..i + 1][..i] == FieldsOf(lines)[..i];
        match FieldOf(lines[i]) {
          case EventField(value) =>
            eventType := value;
          case DataField(value) =>
            if data != "" {
              data := data + "\n";
            }
            data := data + value;
          case OtherField =>
        }
      }
      assert FieldsOf(lines)[..|lines|] == FieldsOf(lines);
      e := SseEvent(eventType, data);
    }

    /** `pop_sse_event` */
    method Pop() returns (e: Option<SseEvent>)
      modifies this
      ensures match old(FirstCut(buffer))
        case NoCut => e == None && buffer == old(buffer)
        case CutAt(at, len) => e == Some(Parse(old(buffer[..at]))) && buffer == old(buffer[at + len..])
    {
      match FirstCut(buffer) {
        case NoCut =>
          return None;
        case CutAt(at, len) =>
          var block := buffer[..at];
          buffer := buffer[at + len..];
          var event := ParseBlock(block);
          return Some(event);
      }
    }

    /** A chunk of bytes arrives, decoded by itself, and every complete event is taken out. */
    method Receive(chunk: seq<Byte>) returns (events: seq<SseEvent>)
      modifies this
      ensures events == ParseAll(Drain(old(buffer) + Utf8.DecodeLossy(chunk)).blocks)
      ensures buffer == Drain(old(buffer) + Utf8.DecodeLossy(chunk)).rest
    {
      buffer := buffer + Utf8.DecodeLossy(chunk);
      events := [];
      ghost var whole := Drain(buffer);
      ghost var blocks: seq<string> := [];
      assert Before([], whole) == whole;
      while true
        invariant whole == Before(blocks, Drain(buffer))
        invariant events == ParseAll(blocks)
        decreases |buffer|
      {
        ghost var c, was := FirstCut(buffer), buffer;
        var e := Pop();
        if e.None? {
          assert blocks + [] == blocks;
          return;
        }
        BeforeTwice(blocks, [was[..c.at]], Drain(buffer));
        blocks := blocks + [was[..c.at]];
        events := events + [e.value];
      }
    }

    /** Chunk after chunk. */
    method ReceiveAll(chunks: seq<seq<Byte>>) returns (events: seq<SseEvent>)
      modifies this
      ensures events == ParseAll(Feed(old(buffer), Utf8.DecodeAll(chunks)).blocks)
      ensures buffer == Feed(old(buffer), Utf8.DecodeAll(chunks)).rest
    {
      events := [];
      ghost var texts := Utf8.DecodeAll(chunks);
      ghost var whole := Feed(buffer, texts);
      ghost var blocks: seq<string> := [];
      assert texts[0..] == texts && Before([], whole) == whole;
      for i := 0 to |chunks|
        invariant whole == Before(blocks, Feed(buffer, texts[i..]))
        invariant events == ParseAll(blocks)
      {
        ghost var d := Drain(buffer + texts[i]);
        FeedNext(blocks, buffer, texts, i);
        ParseAllAppend(blocks, d.blocks);
        var more := Receive(chunks[i]);
        blocks := blocks + d.blocks;
        events := events + more;
      }
      assert blocks + [] == blocks;
    }
  }

  lemma ParseAllAppend(a: seq<string>, b: seq<string>)
    ensures ParseAll(a + b) == ParseAll(a) + ParseAll(b)
  {}

  lemma FeedNext(blocks: seq<string>, rest: string, chunks: seq<string>, i: nat)
    requires i < |chunks|
    ensures var d := Drain(rest + chunks[i]);
            Before(blocks, Feed(rest, chunks[i..])) == Before(blocks + d.blocks, Feed(d.rest, chunks[i + 1..]))
  {
    var d := Drain(rest + chunks[i]);
    assert chunks[i..][1..] == chunks[i + 1..];
    BeforeTwice(blocks, d.blocks, Feed(d.rest, chunks[i + 1..]));
  }

  /**
    Bytes in chunks: when no chunk begins inside a character, the blocks and the rest are those
    of the whole text exactly when every cut made at `\r\n\r\n` is final.
   */
  lemma ByteChunkingIsInvisible(text: string, chunks: seq<seq<Byte>>)
    requires Utf8.Joined(chunks) == Utf8.Encode(text) && Utf8.AtBoundaries(chunks)
    ensures Feed("", Utf8.DecodeAll(chunks)) == Drain(text) <==> SteadyFeed("", Utf8.DecodeAll(chunks))
    ensures OneEnding(text) ==> Feed("", Utf8.DecodeAll(chunks)) == Drain(text)
  {
    Utf8.DecodingChunkByChunk(text, chunks);
    EmptyFront(text);
    ChunkingIsInvisible("", Utf8.DecodeAll(chunks));
    if OneEnding(text) {
      OneEndingFeeds("", Utf8.DecodeAll(chunks));
    }
  }
}
