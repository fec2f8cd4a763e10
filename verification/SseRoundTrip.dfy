/** Server-sent events written out and read back (`pop_sse_event` in core/src/lib.rs). */
module SseRoundTrip {
  import opened Prelude
  import opened Sse

  /** A line as it can stand in an event: it neither ends early nor loses its last character. */
  predicate IsLine(s: string) {
    s != "" && '\n' !in s && '\r' !in s
  }

  /** The lines, each but the last followed by `sep`. */
  function Written(lines: seq<string>, sep: string): string {
    if lines == [] then ""
    else if |lines| == 1 then lines[0]
    else lines[0] + (sep + Written(lines[1..], sep))
  }

  predicate IsSeparator(sep: string) {
    sep == "\n" || sep == "\r\n"
  }

  // ── Lines ───────────────────────────────────────────────────────────────────

  lemma {:induction false} NewlineIsAt(s: string, i: nat, at: nat)
    requires i <= at <= |s| && (at < |s| ==> s[at] == '\n') && forall k :: i <= k < at ==> s[k] != '\n'
    ensures FindNewline(s, i) == at
    decreases at - i
  {
    if i < at {
      NewlineIsAt(s, i + 1, at);
    }
  }

  lemma FirstEnds(line: string, sep: string, rest: string)
    requires IsLine(line) && IsSeparator(sep)
    ensures FindNewline(line + (sep + rest), 0) == |line| + |sep| - 1
  {
    var s := line + (sep + rest);
    assert forall k :: 0 <= k < |line| ==> s[k] == line[k] && s[k] in line;
    NewlineIsAt(s, 0, |line| + |sep| - 1);
  }

  lemma FirstLine(line: string, sep: string, rest: string)
    requires IsLine(line) && IsSeparator(sep)
    ensures Lines(line + (sep + rest)) == [line] + Lines(rest)
  {
    var s := line + (sep + rest);
    var end := |line| + |sep| - 1;
    FirstEnds(line, sep, rest);
    assert s[end + 1..] == rest && s[..|line|] == line;
    assert line[|line| - 1] in line;
    assert s[end - 1] == if sep == "\n" then line[|line| - 1] else '\r';
  }

  lemma OneLine(line: string)
    requires IsLine(line)
    ensures Lines(line) == [line]
  {
    forall k | 0 <= k < |line| ensures line[k] != '\n' {
      assert line[k] in line;
    }
    NewlineIsAt(line, 0, |line|);
  }

  lemma {:induction false} LinesAreRead(lines: seq<string>, sep: string)
    requires IsSeparator(sep) && forall l <- lines :: IsLine(l)
    ensures Lines(Written(lines, sep)) == lines
  {
    if lines != [] {
      var first, rest := lines[0], lines[1..];
      assert lines == [first] + rest;
      assert first in lines && forall l <- rest :: l in lines;
      if rest == [] {
        OneLine(first);
      } else {
        LinesAreRead(rest, sep);
        FirstLine(first, sep, Written(rest, sep));
      }
    }
  }

  // ── One event ───────────────────────────────────────────────────────────────

  /** A kind without blanks in front, and data lines without spaces in front. */
  predicate Writable(kind: string, data: seq<string>) {
    && '\n' !in kind && '\r' !in kind && (kind != "" ==> !IsWhitespace(kind[0]))
    && forall v <- data :: '\n' !in v && '\r' !in v && (v != "" ==> v[0] != ' ')
  }

  /** The lines of an event, each value after some spaces or none. */
  function EventLines(kind: string, data: seq<string>, gap: string): seq<string> {
    ["event:" + gap + kind] + seq(|data|, i requires 0 <= i < |data| => "data:" + gap + data[i])
  }

  predicate IsGap(gap: string) {
    forall i :: 0 <= i < |gap| ==> gap[i] == ' '
  }

  lemma {:induction false} GapIsDropped(gap: string, value: string)
    requires IsGap(gap)
    ensures TrimStart(gap + value) == TrimStart(value) && TrimSpaces(gap + value) == TrimSpaces(value)
  {
    if gap == "" {
      assert gap + value == value;
    } else {
      assert (gap + value)[0] == ' ' && (gap + value)[1..] == gap[1..] + value;
      GapIsDropped(gap[1..], value);
    }
  }

  lemma KindIsRead(kind: string, gap: string)
    requires IsGap(gap) && (kind != "" ==> !IsWhitespace(kind[0]))
    ensures FieldOf("event:" + gap + kind) == EventField(kind)
  {
    var line := "event:" + gap + kind;
    assert "event:" <= line && line[6..] == gap + kind;
    GapIsDropped(gap, kind);
  }

  lemma DataIsRead(value: string, gap: string)
    requires IsGap(gap) && (value != "" ==> value[0] != ' ')
    ensures FieldOf("data:" + gap + value) == DataField(value)
  {
    var line := "data:" + gap + value;
    assert "data:" <= line && line[5..] == gap + value;
    assert line[0] == 'd' && "event:"[0] == 'e';
    GapIsDropped(gap, value);
  }

  /** The kind of an event is the last one given. */
  lemma {:induction false} LastKindCounts(fields: seq<Field>)
    ensures if forall f <- fields :: !f.EventField? then EventOf(fields).kind == ""
            else exists k :: 0 <= k < |fields| && fields[k] == EventField(EventOf(fields).kind)
                             && forall j :: k < j < |fields| ==> !fields[j].EventField?
  {
    if fields != [] {
      var front, last := fields[..|fields| - 1], fields[|fields| - 1];
      assert fields == front + [last];
      LastKindCounts(front);
      if last.EventField? {
        assert fields[|front|] == EventField(EventOf(fields).kind);
      } else if exists f <- front :: f.EventField? {
        var k :| 0 <= k < |front| && front[k] == EventField(EventOf(front).kind)
                 && forall j :: k < j < |front| ==> !front[j].EventField?;
        assert fields[k] == EventField(EventOf(fields).kind);
      }
    }
  }

  lemma {:induction false} ValuesOf(data: seq<string>)
    ensures DataValues(seq(|data|, i requires 0 <= i < |data| => DataField(data[i]))) == data
    ensures EventOf(seq(|data|, i requires 0 <= i < |data| => DataField(data[i]))).kind == ""
  {
    if data != [] {
      var front := data[..|data| - 1];
      ValuesOf(front);
      assert seq(|data|, i requires 0 <= i < |data| => DataField(data[i]))
          == seq(|front|, i requires 0 <= i < |front| => DataField(front[i])) + [DataField(data[|data| - 1])];
    }
  }

  /** A kind given first stays, whatever data follow. */
  lemma {:induction false} KindFirst(kind: string, fields: seq<Field>)
    requires forall f <- fields :: f.DataField?
    ensures EventOf([EventField(kind)] + fields).kind == kind
    ensures DataValues([EventField(kind)] + fields) == DataValues(fields)
  {
    var all := [EventField(kind)] + fields;
    if fields != [] {
      var front := fields[..|fields| - 1];
      assert all[..|all| - 1] == [EventField(kind)] + front;
      assert fields[|fields| - 1] in fields;
      KindFirst(kind, front);
    } else {
      assert all[..0] == [];
    }
  }

  function DataFields(data: seq<string>): seq<Field> {
    seq(|data|, i requires 0 <= i < |data| => DataField(data[i]))
  }

  lemma DataLineIsRead(kind: string, data: seq<string>, gap: string, i: nat)
    requires Writable(kind, data) && IsGap(gap) && i < |data|
    ensures FieldOf(EventLines(kind, data, gap)[i + 1]) == DataField(data[i])
  {
    assert data[i] in data;
    assert EventLines(kind, data, gap)[i + 1] == "data:" + gap + data[i];
    DataIsRead(data[i], gap);
  }

  lemma FieldsAre(kind: string, data: seq<string>, gap: string)
    requires Writable(kind, data) && IsGap(gap)
    ensures FieldsOf(EventLines(kind, data, gap)) == [EventField(kind)] + DataFields(data)
  {
    KindIsRead(kind, gap);
    forall i: nat | i < |data| ensures FieldsOf(EventLines(kind, data, gap))[i + 1] == DataFields(data)[i] {
      DataLineIsRead(kind, data, gap, i);
    }
  }

  lemma FieldsMean(kind: string, data: seq<string>)
    requires |data| <= 1 || data[0] != ""
    ensures EventOf([EventField(kind)] + DataFields(data)) == SseEvent(kind, Joined(data))
  {
    ValuesOf(data);
    KindFirst(kind, DataFields(data));
    DataIsJoined([EventField(kind)] + DataFields(data));
  }

  /** An event written line by line is read back: its kind, and its data joined by line feeds. */
  lemma EventIsReadBack(kind: string, data: seq<string>, gap: string, sep: string)
    requires Writable(kind, data) && IsGap(gap) && IsSeparator(sep)
    requires |data| <= 1 || data[0] != ""
    ensures Parse(Written(EventLines(kind, data, gap), sep)) == SseEvent(kind, Joined(data))
  {
    LinesOfEvent(kind, data, gap);
    LinesAreRead(EventLines(kind, data, gap), sep);
    FieldsAre(kind, data, gap);
    FieldsMean(kind, data);
  }

  lemma LinesOfEvent(kind: string, data: seq<string>, gap: string)
    requires Writable(kind, data) && IsGap(gap)
    ensures forall l <- EventLines(kind, data, gap) :: IsLine(l)
  {
    var lines := EventLines(kind, data, gap);
    forall l | l in lines ensures IsLine(l) {
      var i :| 0 <= i < |lines| && lines[i] == l;
      if i > 0 {
        assert data[i - 1] in data;
      }
    }
  }

  // ── A whole stream ──────────────────────────────────────────────────────────

  datatype Sent = Sent(kind: string, data: seq<string>)

  predicate Sendable(e: Sent) {
    Writable(e.kind, e.data) && (|e.data| <= 1 || e.data[0] != "")
  }

  function Block(e: Sent): string {
    Written(EventLines(e.kind, e.data, " "), "\n")
  }

  /** Every event is followed by a blank line. */
  function Stream(events: seq<Sent>): string {
    if events == [] then "" else Block(events[0]) + ("\n\n" + Stream(events[1..]))
  }

  function MeantBy(e: Sent): SseEvent {
    SseEvent(e.kind, Joined(e.data))
  }

  function Meant(events: seq<Sent>): seq<SseEvent> {
    seq(|events|, i requires 0 <= i < |events| => MeantBy(events[i]))
  }

  /** No line feed stands at the end of a block or next to another. */
  predicate Solid(s: string) {
    && s != "" && s[0] != '\n' && s[|s| - 1] != '\n'
    && forall i :: 0 <= i < |s| - 1 ==> !(s[i] == '\n' && s[i + 1] == '\n')
  }

  lemma {:induction false} WrittenIsSolid(lines: seq<string>)
    requires lines != [] && forall l <- lines :: IsLine(l)
    ensures Solid(Written(lines, "\n"))
  {
    var first := lines[0];
    assert first in lines;
    assert forall k :: 0 <= k < |first| ==> first[k] in first;
    if |lines| > 1 {
      var rest := Written(lines[1..], "\n");
      WrittenIsSolid(lines[1..]);
      var s := first + ("\n" + rest);
      forall i | 0 <= i < |s| - 1 ensures !(s[i] == '\n' && s[i + 1] == '\n') {
        if i > |first| {
          assert s[i] == rest[i - |first| - 1] && s[i + 1] == rest[i - |first|];
        }
      }
    }
  }

  lemma SolidIsCut(block: string, rest: string)
    requires Solid(block)
    ensures Drain(block + ("\n\n" + rest)) == Before([block], Drain(rest))
  {
    var s := block + ("\n\n" + rest);
    assert LfAt(s, |block|);
    forall k: nat | k < |block| ensures !LfAt(s, k) {
      assert s[k] == block[k];
      if k + 1 < |block| {
        assert s[k + 1] == block[k + 1];
      }
    }
    assert FindLf(s, 0) == Some(|block|);
    assert s[..|block|] == block && s[|block| + 2..] == rest;
  }

  lemma OneMoreBlock(block: string, d: Drained)
    ensures ParseAll(Before([block], d).blocks) == [Parse(block)] + ParseAll(d.blocks)
  {
    ParseAllAppend([block], d.blocks);
    assert ParseAll([block]) == [Parse(block)];
  }

  lemma FirstEvent(e: Sent, rest: string)
    requires Sendable(e)
    ensures Drain(Block(e) + ("\n\n" + rest)) == Before([Block(e)], Drain(rest)) && Parse(Block(e)) == MeantBy(e)
  {
    LinesOfEvent(e.kind, e.data, " ");
    WrittenIsSolid(EventLines(e.kind, e.data, " "));
    SolidIsCut(Block(e), rest);
    EventIsReadBack(e.kind, e.data, " ", "\n");
  }

  /** Draining the stream gives the events. */
  ghost predicate Gives(d: Drained, events: seq<Sent>) {
    d.rest == "" && ParseAll(d.blocks) == Meant(events)
  }

  lemma GivesMore(block: string, d: Drained, e: Sent, events: seq<Sent>)
    requires Gives(d, events) && Parse(block) == MeantBy(e)
    ensures Gives(Before([block], d), [e] + events)
  {
    OneMoreBlock(block, d);
    assert Meant([e] + events) == [MeantBy(e)] + Meant(events);
  }

  lemma {:induction false} StreamIsDrained(events: seq<Sent>)
    requires forall e <- events :: Sendable(e)
    ensures Gives(Drain(Stream(events)), events)
  {
    if events != [] {
      var e, rest := events[0], events[1..];
      assert events == [e] + rest;
      StreamIsDrained(rest);
      FirstEvent(e, Stream(rest));
      GivesMore(Block(e), Drain(Stream(rest)), e, rest);
    }
  }

  lemma NoCrWritten(lines: seq<string>)
    requires forall l <- lines :: IsLine(l)
    ensures '\r' !in Written(lines, "\n")
  {
    if lines != [] {
      assert lines[0] in lines;
      NoCrWritten(lines[1..]);
    }
  }

  lemma {:induction false} NoCrInStream(events: seq<Sent>)
    requires forall e <- events :: Sendable(e)
    ensures '\r' !in Stream(events)
  {
    if events != [] {
      assert events[0] in events;
      LinesOfEvent(events[0].kind, events[0].data, " ");
      NoCrWritten(EventLines(events[0].kind, events[0].data, " "));
      NoCrInStream(events[1..]);
    }
  }

  /** However a stream of events is cut into chunks, exactly these events are read, and nothing is left over. */
  lemma StreamIsReadBack(events: seq<Sent>, chunks: seq<string>)
    requires (forall e <- events :: Sendable(e)) && Concat(chunks) == Stream(events)
    ensures ParseAll(Feed("", chunks).blocks) == Meant(events) && Feed("", chunks).rest == ""
  {
    NoCrInStream(events);
    CrFreeChunkingIsInvisible(chunks);
    StreamIsDrained(events);
  }
}
