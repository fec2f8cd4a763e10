/** UTF-8, and its lossy decoding piece by piece (`String::from_utf8_lossy` on every chunk in core/src/lib.rs). */
module Utf8 {
  import opened Prelude

  const REPLACEMENT := '\U{FFFD}'

  // ── Encoding ────────────────────────────────────────────────────────────────

  function Width(c: char): (w: nat)
    ensures 1 <= w <= 4
  {
    if c < '\U{80}' then 1 else if c < '\U{800}' then 2 else if c < '\U{10000}' then 3 else 4
  }

  /** The `k`-th continuation byte from the right. */
  function Tail(v: nat): Byte {
    0x80 + v % 64
  }

  function EncodeChar(c: char): (b: seq<Byte>)
    ensures |b| == Width(c)
  {
    var v := c as int;
    match Width(c)
    case 1 => [v]
    case 2 => [0xC0 + v / 64, Tail(v)]
    case 3 => [0xE0 + v / 4096, Tail(v / 64), Tail(v)]
    case _ => [0xF0 + v / 262144, Tail(v / 4096), Tail(v / 64), Tail(v)]
  }

  function Encode(text: string): seq<Byte> {
    if text == "" then [] else EncodeChar(text[0]) + Encode(text[1..])
  }

  predicate IsContinuation(b: Byte) {
    0x80 <= b < 0xC0
  }

  // ── Lossy decoding ──────────────────────────────────────────────────────────

  /** How many bytes a sequence with this first byte has; 0 when no sequence starts with it. */
  function Announces(b: Byte): nat {
    if b < 0x80 then 1
    else if 0xC2 <= b < 0xE0 then 2
    else if 0xE0 <= b < 0xF0 then 3
    else if 0xF0 <= b < 0xF5 then 4
    else 0
  }

  /** The second bytes that keep sequences shortest, free of surrogates and in range. */
  predicate SecondFits(first: Byte, second: Byte) {
    if first == 0xE0 then 0xA0 <= second < 0xC0
    else if first == 0xED then 0x80 <= second < 0xA0
    else if first == 0xF0 then 0x90 <= second < 0xC0
    else if first == 0xF4 then 0x80 <= second < 0x90
    else IsContinuation(second)
  }

  /** The bytes at the front that belong together: a whole sequence, or as much of one as there is. */
  function Belonging(b: seq<Byte>): (n: nat)
    requires b != []
    ensures 1 <= n <= |b| && n <= 4
  {
    var w := Announces(b[0]);
    if w < 2 || |b| < 2 || !SecondFits(b[0], b[1]) then 1
    else if w < 3 || |b| < 3 || !IsContinuation(b[2]) then 2
    else if w < 4 || |b| < 4 || !IsContinuation(b[3]) then 3
    else 4
  }

  function CodePoint(b: seq<Byte>): nat
    requires 1 <= |b| <= 4
  {
    var first: nat := b[0];
    if |b| == 1 then first
    else
      var second: nat := b[1];
      if |b| == 2 then (first % 32) * 64 + second % 64
      else
        var third: nat := b[2];
        if |b| == 3 then (first % 16) * 4096 + (second % 64) * 64 + third % 64
        else
          var fourth: nat := b[3];
          (first % 8) * 262144 + (second % 64) * 4096 + (third % 64) * 64 + fourth % 64
  }

  function AsChar(v: nat): char {
    if v < 0xD800 || 0xE000 <= v < 0x11_0000 then v as char else REPLACEMENT
  }

  /** A whole sequence is its character; whatever else belongs together is one replacement character. */
  function DecodeLossy(b: seq<Byte>): string {
    if b == [] then ""
    else
      var n := Belonging(b);
      [if n == Announces(b[0]) then AsChar(CodePoint(b[..n])) else REPLACEMENT] + DecodeLossy(b[n..])
  }

  // ── One character ───────────────────────────────────────────────────────────

  ghost predicate WellShaped(c: char, b: seq<Byte>) {
    && 1 <= |b| <= 4 && Announces(b[0]) == |b| && !IsContinuation(b[0])
    && (forall k :: 1 <= k < |b| ==> IsContinuation(b[k]))
    && (|b| > 1 ==> SecondFits(b[0], b[1]))
    && CodePoint(b) == c as int
  }

  lemma ShapeOfTwo(c: char)
    requires Width(c) == 2
    ensures WellShaped(c, EncodeChar(c))
  {
    var v := c as int;
    assert v / 64 < 32;
  }

  lemma ShapeOfThree(c: char)
    requires Width(c) == 3
    ensures WellShaped(c, EncodeChar(c))
  {
    var v := c as int;
    assert v < 0xD800 || 0xE000 <= v;
    var high, middle, low := v / 4096, v / 64 % 64, v % 64;
    assert v == high * 4096 + middle * 64 + low;
    assert high < 16;
  }

  lemma ShapeOfFour(c: char)
    requires Width(c) == 4
    ensures WellShaped(c, EncodeChar(c))
  {
    var v := c as int;
    assert v < 0x11_0000;
    var top, high, middle, low := v / 262144, v / 4096 % 64, v / 64 % 64, v % 64;
    assert v == top * 262144 + high * 4096 + middle * 64 + low;
    assert top < 5;
  }

  /** A character's first byte says how long it is, and the others are continuations that fit. */
  lemma EncodedShape(c: char)
    ensures WellShaped(c, EncodeChar(c)) && AsChar(c as int) == c
  {
    assert c as int < 0xD800 || 0xE000 <= c as int < 0x11_0000;
    if Width(c) == 2 {
      ShapeOfTwo(c);
    } else if Width(c) == 3 {
      ShapeOfThree(c);
    } else if Width(c) == 4 {
      ShapeOfFour(c);
    }
  }

  /** A whole character in front is decoded. */
  lemma DecodesChar(c: char, rest: seq<Byte>)
    ensures DecodeLossy(EncodeChar(c) + rest) == [c] + DecodeLossy(rest)
  {
    var b := EncodeChar(c);
    var all := b + rest;
    EncodedShape(c);
    assert all[..|b|] == b && all[|b|..] == rest;
    assert forall k :: 0 <= k < |b| ==> all[k] == b[k];
    assert Belonging(all) == |b|;
  }

  /** Part of a character, with nothing after it, is one replacement character. */
  lemma DecodesPart(c: char, k: nat)
    requires 0 < k < Width(c)
    ensures DecodeLossy(EncodeChar(c)[..k]) == [REPLACEMENT]
  {
    var part := EncodeChar(c)[..k];
    EncodedShape(c);
    assert Belonging(part) == k;
    assert part[k..] == [];
    assert DecodeLossy(part) == [REPLACEMENT] + DecodeLossy([]);
  }

  /** A continuation byte in front is one replacement character by itself. */
  lemma DecodesContinuation(b: Byte, rest: seq<Byte>)
    requires IsContinuation(b)
    ensures DecodeLossy([b] + rest) == [REPLACEMENT] + DecodeLossy(rest)
  {
    assert ([b] + rest)[1..] == rest;
  }

  // ── A stream in chunks ──────────────────────────────────────────────────────

  function DecodeAll(chunks: seq<seq<Byte>>): (r: seq<string>)
    ensures |r| == |chunks|
  {
    seq(|chunks|, i requires 0 <= i < |chunks| => DecodeLossy(chunks[i]))
  }

  function Joined(chunks: seq<seq<Byte>>): seq<Byte> {
    if chunks == [] then [] else chunks[0] + Joined(chunks[1..])
  }

  /** No chunk begins inside a character. */
  predicate AtBoundaries(chunks: seq<seq<Byte>>) {
    forall i :: 0 <= i < |chunks| && chunks[i] != [] ==> !IsContinuation(chunks[i][0])
  }

  predicate Continuations(b: seq<Byte>) {
    forall i :: 0 <= i < |b| ==> IsContinuation(b[i])
  }

  /** The first `n` bytes, of a split character's rest and then `text`, leave `next` and the text from `k` on. */
  ghost predicate Taken(pending: seq<Byte>, text: string, n: nat, got: string, next: seq<Byte>, k: nat) {
    var all := pending + Encode(text);
    && n <= |all| && k <= |text| && Continuations(next)
    && all[n..] == next + Encode(text[k..])
    && got == DecodeLossy(all[..n])
    && |got| == k + (if n < |pending| then n else |pending|)
    && (pending == [] && next == [] ==> got == text[..k])
  }

  lemma TakePending(pending: seq<Byte>, text: string, n: nat, got: string, next: seq<Byte>, k: nat)
    requires pending != [] && Continuations(pending) && n > 0 && Taken(pending[1..], text, n - 1, got, next, k)
    ensures Taken(pending, text, n, [REPLACEMENT] + got, next, k)
  {
    var rest := pending[1..] + Encode(text);
    assert pending == [pending[0]] + pending[1..];
    Assoc([pending[0]], pending[1..], Encode(text));
    CutBehind([pending[0]], rest, n);
    DecodesContinuation(pending[0], rest[..n - 1]);
  }

  lemma TakePart(text: string, n: nat)
    requires text != "" && 0 < n < Width(text[0])
    ensures Taken([], text, n, [REPLACEMENT], EncodeChar(text[0])[n..], 1)
  {
    var first := EncodeChar(text[0]);
    EmptyFront(Encode(text));
    EncodedShape(text[0]);
    DecodesPart(text[0], n);
    CutInFront(first, Encode(text[1..]), n);
  }

  /** The same with no split character. */
  ghost predicate TakenText(text: string, n: nat, got: string, next: seq<Byte>, k: nat) {
    && n <= |Encode(text)| && k <= |text| && Continuations(next)
    && Encode(text)[n..] == next + Encode(text[k..])
    && got == DecodeLossy(Encode(text)[..n])
    && |got| == k && (next == [] ==> got == text[..k])
  }

  lemma TakenFromText(text: string, n: nat, got: string, next: seq<Byte>, k: nat)
    ensures Taken([], text, n, got, next, k) <==> TakenText(text, n, got, next, k)
  {
    EmptyFront(Encode(text));
  }

  lemma TakeWhole(text: string, n: nat, got: string, next: seq<Byte>, k: nat)
    requires text != "" && n >= Width(text[0]) && TakenText(text[1..], n - Width(text[0]), got, next, k)
    ensures TakenText(text, n, [text[0]] + got, next, k + 1)
  {
    var first, rest := EncodeChar(text[0]), Encode(text[1..]);
    CutBehind(first, rest, n);
    DecodesChar(text[0], rest[..n - |first|]);
    TextCut(text, k);
  }

  lemma TextCut(text: string, k: nat)
    requires text != "" && k < |text|
    ensures text[1..][k..] == text[k + 1..] && text[..k + 1] == [text[0]] + text[1..][..k]
  {}

  lemma {:induction false} Take(pending: seq<Byte>, text: string, n: nat) returns (got: string, next: seq<Byte>, k: nat)
    requires Continuations(pending) && n <= |pending + Encode(text)|
    ensures Taken(pending, text, n, got, next, k)
    decreases |pending| + |text|
  {
    if n == 0 {
      got, next, k := "", pending, 0;
      var all := pending + Encode(text);
      assert all[..0] == [] && all[0..] == all && text[0..] == text;
    } else if pending != [] {
      assert pending + Encode(text) == [pending[0]] + (pending[1..] + Encode(text));
      got, next, k := Take(pending[1..], text, n - 1);
      TakePending(pending, text, n, got, next, k);
      got := [REPLACEMENT] + got;
    } else if n < Width(text[0]) {
      got, next, k := [REPLACEMENT], EncodeChar(text[0])[n..], 1;
      TakePart(text, n);
    } else {
      assert |Encode(text)| == Width(text[0]) + |Encode(text[1..])|;
      got, next, k := Take([], text[1..], n - Width(text[0]));
      TakenFromText(text[1..], n - Width(text[0]), got, next, k);
      TakeWhole(text, n, got, next, k);
      got, k := [text[0]] + got, k + 1;
      TakenFromText(text, n, got, next, k);
    }
  }

  /** The first byte tells whether the stream goes on inside a character. */
  lemma StartsInside(pending: seq<Byte>, text: string)
    requires Continuations(pending) && pending + Encode(text) != []
    ensures IsContinuation((pending + Encode(text))[0]) <==> pending != []
  {
    if pending == [] {
      EncodedShape(text[0]);
    }
  }

  lemma {:induction false} FirstByte(chunks: seq<seq<Byte>>)
    requires Joined(chunks) != [] && AtBoundaries(chunks)
    ensures !IsContinuation(Joined(chunks)[0])
  {
    if chunks[0] == [] {
      assert [] + Joined(chunks[1..]) == Joined(chunks[1..]);
      AtBoundariesCons(chunks);
      FirstByte(chunks[1..]);
    }
  }

  lemma AtBoundariesCons(chunks: seq<seq<Byte>>)
    requires chunks != []
    ensures AtBoundaries(chunks) <==>
              (chunks[0] != [] ==> !IsContinuation(chunks[0][0])) && AtBoundaries(chunks[1..])
  {
    assert chunks == [chunks[0]] + chunks[1..];
    forall i | 0 <= i < |chunks[1..]| ensures chunks[1..][i] == chunks[i + 1] {}
    if AtBoundaries(chunks[1..]) {
      forall i | 1 <= i < |chunks| ensures chunks[i] == chunks[1..][i - 1] {}
    }
  }

  /** What the chunks decode to: the text when none begins inside a character, and more otherwise. */
  ghost predicate DecodesTo(pending: seq<Byte>, text: string, chunks: seq<seq<Byte>>) {
    var all := Concat(DecodeAll(chunks));
    && |all| >= |text| + (if pending == [] then 0 else 1)
    && (pending == [] && AtBoundaries(chunks) ==> all == text)
    && (!AtBoundaries(chunks) ==> |all| > |text|)
  }

  lemma DecodeAllCons(chunks: seq<seq<Byte>>)
    requires chunks != []
    ensures Concat(DecodeAll(chunks)) == DecodeLossy(chunks[0]) + Concat(DecodeAll(chunks[1..]))
  {
    assert DecodeAll(chunks)[1..] == DecodeAll(chunks[1..]);
  }

  lemma DecodesOn(pending: seq<Byte>, text: string, chunks: seq<seq<Byte>>, got: string, next: seq<Byte>, k: nat)
    requires chunks != [] && chunks[0] != [] && Continuations(pending)
    requires Joined(chunks) == pending + Encode(text)
    requires Taken(pending, text, |chunks[0]|, got, next, k) && got == DecodeLossy(chunks[0])
    requires Joined(chunks[1..]) == next + Encode(text[k..]) && DecodesTo(next, text[k..], chunks[1..])
    ensures DecodesTo(pending, text, chunks)
  {
    DecodeAllCons(chunks);
    AtBoundariesCons(chunks);
    StartsInside(pending, text);
    assert chunks[0][0] == Joined(chunks)[0];
    if AtBoundaries(chunks) && pending == [] {
      if next != [] {
        FirstByte(chunks[1..]);
        StartsInside(next, text[k..]);
      } else {
        assert text == text[..k] + text[k..];
      }
    }
  }

  lemma {:induction false} ChunksDecode(pending: seq<Byte>, text: string, chunks: seq<seq<Byte>>)
    requires Continuations(pending) && Joined(chunks) == pending + Encode(text)
    ensures DecodesTo(pending, text, chunks)
    decreases |chunks|
  {
    if chunks == [] {
      NothingLeft(pending, text);
    } else if chunks[0] == [] {
      EmptyFront(Joined(chunks[1..]));
      DecodeAllCons(chunks);
      AtBoundariesCons(chunks);
      EmptyFront(Concat(DecodeAll(chunks[1..])));
      ChunksDecode(pending, text, chunks[1..]);
    } else {
      var n := |chunks[0]|;
      CutBehind(chunks[0], Joined(chunks[1..]), n);
      assert chunks[0] + Joined(chunks[1..])[..0] == chunks[0];
      var got, next, k := Take(pending, text, n);
      ChunksDecode(next, text[k..], chunks[1..]);
      DecodesOn(pending, text, chunks, got, next, k);
    }
  }

  lemma NothingLeft(pending: seq<Byte>, text: string)
    requires pending + Encode(text) == []
    ensures pending == [] && text == ""
  {
    assert |pending + Encode(text)| == |pending| + |Encode(text)|;
  }

  /**
    For the UTF-8 bytes of any text and any cut into chunks, decoding every chunk by itself gives
    the text exactly when no chunk begins inside a character; otherwise it gives a longer one.
   */
  lemma DecodingChunkByChunk(text: string, chunks: seq<seq<Byte>>)
    requires Joined(chunks) == Encode(text)
    ensures Concat(DecodeAll(chunks)) == text <==> AtBoundaries(chunks)
    ensures |Concat(DecodeAll(chunks))| >= |text|
  {
    EmptyFront(Encode(text));
    ChunksDecode([], text, chunks);
  }
}
