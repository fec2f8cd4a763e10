/**
  Base32 without padding (section 6 of RFC 4648) over a 32-bit accumulator that silently drops
  its high bits (`to_base32` and `from_base32` in core/src/noise.rs).
 */
module Base32 {
  import opened Prelude

  type U32 = x: nat | x < 0x1_0000_0000

  // ── Bits ────────────────────────────────────────────────────────────────────

  /** The lowest `n` bits of `v`, most significant first. */
  function BitsOf(v: nat, n: nat): (r: seq<bool>)
    ensures |r| == n
    decreases n, v
  {
    if n == 0 then [] else BitsOf(v / 2, n - 1) + [v % 2 == 1]
  }

  function Zeros(n: nat): (r: seq<bool>)
    ensures |r| == n
  {
    seq(n, _ => false)
  }

  function ByteBits(data: seq<Byte>): (r: seq<bool>)
    ensures |r| == 8 * |data|
  {
    if data == [] then [] else ByteBits(data[..|data| - 1]) + BitsOf(data[|data| - 1], 8)
  }

  function ShiftRight(v: nat, n: nat): nat {
    if n == 0 then v else ShiftRight(v / 2, n - 1)
  }

  function Pow2(n: nat): (p: nat)
    ensures p > 0
  {
    if n == 0 then 1 else 2 * Pow2(n - 1)
  }

  /** The `i`-th bit is the lowest one after the others below it have been shifted out. */
  lemma {:induction false} BitAt(v: nat, n: nat, i: nat)
    requires i < n
    ensures BitsOf(v, n)[i] <==> ShiftRight(v, n - 1 - i) % 2 == 1
    decreases n
  {
    if i < n - 1 {
      BitAt(v / 2, n - 1, i);
    }
  }

  lemma {:induction false} BitsSplit(v: nat, n: nat, m: nat)
    ensures BitsOf(v, n + m) == BitsOf(ShiftRight(v, m), n) + BitsOf(v, m)
    decreases m
  {
    if m == 0 {
      assert BitsOf(v, n) + [] == BitsOf(v, n);
    } else {
      BitsSplit(v / 2, n, m - 1);
      Assoc(BitsOf(ShiftRight(v, m), n), BitsOf(v / 2, m - 1), [v % 2 == 1]);
    }
  }

  function ShiftLeft(v: nat, n: nat): nat {
    if n == 0 then v else 2 * ShiftLeft(v, n - 1)
  }

  lemma {:induction false} ShiftLeftIs(v: nat, n: nat)
    ensures ShiftLeft(v, n) == v * Pow2(n)
  {
    if n > 0 {
      ShiftLeftIs(v, n - 1);
    }
  }

  /** Bits above the `n`-th do not show in the lowest `n`. */
  lemma {:induction false} HighBits(v: nat, k: nat, n: nat, width: nat)
    requires n <= width
    ensures BitsOf(v + ShiftLeft(k, width), n) == BitsOf(v, n)
    decreases n
  {
    if n > 0 {
      var high := ShiftLeft(k, width - 1);
      assert (v + 2 * high) / 2 == v / 2 + high && (v + 2 * high) % 2 == v % 2;
      HighBits(v / 2, k, n - 1, width - 1);
    }
  }

  /** What was shifted in below comes off again. */
  lemma {:induction false} ShiftBack(buf: nat, n: nat, v: nat)
    requires v < Pow2(n)
    ensures ShiftRight(ShiftLeft(buf, n) + v, n) == buf
    decreases n
  {
    if n > 0 {
      var high := ShiftLeft(buf, n - 1);
      assert (2 * high + v) / 2 == high + v / 2;
      ShiftBack(buf, n - 1, v / 2);
    }
  }

  /** Splitting off bits from the `width`-th on leaves the lowest `n` alone. */
  lemma LowBits(v: nat, low: nat, high: nat, n: nat, width: nat)
    requires n <= width && v == low + ShiftLeft(high, width)
    ensures BitsOf(low, n) == BitsOf(v, n)
  {
    HighBits(low, high, n, width);
  }

  /** Wrapping around at 32 bits. */
  lemma Low32(v: nat, n: nat)
    requires n <= 32
    ensures BitsOf(v % 0x1_0000_0000, n) == BitsOf(v, n)
  {
    ShiftLeftIs(v / 0x1_0000_0000, 32);
    Powers();
    LowBits(v, v % 0x1_0000_0000, v / 0x1_0000_0000, n, 32);
  }

  /** The masks `0x1f` and `0xff`. */
  lemma Masked(v: nat, n: nat, mask: nat)
    requires (n == 5 && mask == 32) || (n == 8 && mask == 256)
    ensures BitsOf(v % mask, n) == BitsOf(v, n)
  {
    Powers();
    if n == 5 {
      ShiftLeftIs(v / 32, 5);
      LowBits(v, v % 32, v / 32, 5, 5);
    } else {
      ShiftLeftIs(v / 256, 8);
      LowBits(v, v % 256, v / 256, 8, 8);
    }
  }

  lemma Powers()
    ensures Pow2(5) == 32 && Pow2(8) == 256 && Pow2(32) == 0x1_0000_0000
  {
    assert Pow2(4) == 16;
    assert Pow2(8) == 256;
    assert Pow2(12) == 4096;
    assert Pow2(16) == 0x1_0000;
    assert Pow2(20) == 0x10_0000;
    assert Pow2(24) == 0x100_0000;
    assert Pow2(28) == 0x1000_0000;
  }

  /** Shift left on 32 bits, high bits lost, and put `v` in the bits that are free. */
  function PushBits(buf: U32, shift: nat, v: nat): U32
    requires (shift == 5 && v < 32) || (shift == 8 && v < 256)
  {
    if shift == 5 then buf * 32 % 0x1_0000_0000 + v else buf * 256 % 0x1_0000_0000 + v
  }

  lemma PushIs(buf: U32, shift: nat, v: nat)
    requires (shift == 5 && v < 32) || (shift == 8 && v < 256)
    ensures PushBits(buf, shift, v) == (ShiftLeft(buf, shift) + v) % 0x1_0000_0000
  {
    Powers();
    ShiftLeftIs(buf, shift);
  }

  lemma PushedBits(buf: U32, bits: nat, shift: nat, v: nat)
    requires (shift == 5 && v < 32) || (shift == 8 && v < 256)
    requires bits + shift <= 32
    ensures BitsOf(PushBits(buf, shift, v), bits + shift) == BitsOf(buf, bits) + BitsOf(v, shift)
  {
    var whole := ShiftLeft(buf, shift) + v;
    PushIs(buf, shift, v);
    Powers();
    Low32(whole, bits + shift);
    BitsSplit(whole, bits, shift);
    ShiftBack(buf, shift, v);
    HighBits(v, buf, shift, shift);
  }

  /** The bits above the lowest `bits`, as many as the mask has. */
  lemma PoppedBits(buf: nat, bits: nat, n: nat, mask: nat)
    requires (n == 5 && mask == 32) || (n == 8 && mask == 256)
    ensures BitsOf(buf, n + bits) == BitsOf(ShiftRight(buf, bits) % mask, n) + BitsOf(buf, bits)
  {
    BitsSplit(buf, n, bits);
    Masked(ShiftRight(buf, bits), n, mask);
  }

  // ── The alphabet ────────────────────────────────────────────────────────────

  function Letter(v: nat): char
    requires v < 32
  {
    if v < 26 then (v + 'A' as int) as char else (v - 26 + '2' as int) as char
  }

  /** The position in the alphabet, upper case. */
  function Position(c: char): (v: Option<nat>)
    ensures v.Some? ==> v.value < 32 && Letter(v.value) == c
    ensures v.None? ==> forall x: nat :: x < 32 ==> Letter(x) != c
  {
    if 'A' <= c <= 'Z' then Some(c as int - 'A' as int)
    else if '2' <= c <= '7' then Some(c as int - '2' as int + 26)
    else None
  }

  function ToAsciiUppercase(c: char): char {
    if 'a' <= c <= 'z' then (c as int - 'a' as int + 'A' as int) as char else c
  }

  function Value(c: char): (v: Option<nat>)
    ensures v.Some? ==> v.value < 32
  {
    Position(ToAsciiUppercase(c))
  }

  lemma LetterValue(v: nat)
    requires v < 32
    ensures Value(Letter(v)) == Some(v) && ToAsciiUppercase(Letter(v)) == Letter(v)
  {}

  predicate Readable(s: string) {
    forall i :: 0 <= i < |s| ==> Value(s[i]).Some?
  }

  function CharBits(s: string): (r: seq<bool>)
    requires Readable(s)
    ensures |r| == 5 * |s|
  {
    if s == [] then [] else CharBits(s[..|s| - 1]) + BitsOf(Value(s[|s| - 1]).value, 5)
  }

  /** The alphabet of section 6 of RFC 4648. */
  lemma LettersAre(v: nat)
    requires v < 32
    ensures Letter(v) == "ABCDEFGHIJKLMNOPQRSTUVWXYZ234567"[v]
  {
    var letters := "ABCDEFGHIJKLMNOPQRSTUVWXYZ234567";
    assert forall i: nat :: i < 26 ==> letters[i] as int == i + 'A' as int;
    assert forall i: nat :: 26 <= i < 32 ==> letters[i] as int == i - 26 + '2' as int;
  }

  // ── Encoding and decoding ───────────────────────────────────────────────────

  predicate IsUpper(s: string) {
    forall i :: 0 <= i < |s| ==> ToAsciiUppercase(s[i]) == s[i]
  }

  /** The bits of `data`, filled up with fewer than five zeros, five to a letter. */
  ghost predicate Encodes(s: string, data: seq<Byte>) {
    && Readable(s) && IsUpper(s)
    && |s| == (8 * |data| + 4) / 5
    && CharBits(s) == ByteBits(data) + Zeros(5 * |s| - 8 * |data|)
  }

  /** The bits of `s`, eight to a byte; up to seven bits at the end are ignored. */
  ghost predicate Decodes(r: Option<seq<Byte>>, s: string) {
    && (r.None? <==> !Readable(s))
    && (r.Some? ==> |r.value| == 5 * |s| / 8 && ByteBits(r.value) == CharBits(s)[..8 * |r.value|])
  }

  lemma ByteBitsSnoc(before: seq<bool>, pending: seq<bool>, data: seq<Byte>, i: nat)
    requires i < |data| && before + pending == ByteBits(data[..i])
    ensures before + (pending + BitsOf(data[i], 8)) == ByteBits(data[..i + 1])
  {
    Assoc(before, pending, BitsOf(data[i], 8));
    assert data[..i + 1][..i] == data[..i];
  }

  method ToBase32(data: seq<Byte>) returns (out: string)
    ensures Encodes(out, data)
  {
    out := "";
    var buf: U32 := 0;
    var bits: nat := 0;
    for i := 0 to |data|
      invariant bits < 5 && 5 * |out| + bits == 8 * i
      invariant Readable(out) && IsUpper(out)
      invariant CharBits(out) + BitsOf(buf, bits) == ByteBits(data[..i])
    {
      PushedBits(buf, bits, 8, data[i]);
      ByteBitsSnoc(CharBits(out), BitsOf(buf, bits), data, i);
      buf := PushBits(buf, 8, data[i]);
      bits := bits + 8;
      while bits >= 5
        invariant bits < 13 && 5 * |out| + bits == 8 * (i + 1)
        invariant Readable(out) && IsUpper(out)
        invariant CharBits(out) + BitsOf(buf, bits) == ByteBits(data[..i + 1])
      {
        bits := bits - 5;
        out := PushLetter(out, buf, bits);
      }
    }
    assert data[..|data|] == data;
    if bits > 0 {
      out := PushLast(out, buf, bits);
    } else {
      assert CharBits(out) + [] == CharBits(out) && ByteBits(data) + [] == ByteBits(data);
    }
  }

  /** Append the letter for the five bits above the lowest `bits`. */
  method PushLetter(start: string, buf: U32, bits: nat) returns (out: string)
    requires Readable(start) && IsUpper(start)
    ensures Readable(out) && IsUpper(out) && |out| == |start| + 1
    ensures CharBits(out) + BitsOf(buf, bits) == CharBits(start) + BitsOf(buf, bits + 5)
  {
    var v := ShiftRight(buf, bits) % 32;
    LetterValue(v);
    PoppedBits(buf, bits, 5, 32);
    out := start + [Letter(v)];
    assert out[..|start|] == start;
    Assoc(CharBits(start), BitsOf(v, 5), BitsOf(buf, bits));
  }

  /** Append the letter for the bits that are left, filled up with zeros. */
  method PushLast(start: string, buf: U32, bits: nat) returns (out: string)
    requires Readable(start) && IsUpper(start) && 0 < bits < 5
    ensures Readable(out) && IsUpper(out) && |out| == |start| + 1
    ensures CharBits(out) == CharBits(start) + BitsOf(buf, bits) + Zeros(5 - bits)
  {
    var v := ShiftLeft(buf, 5 - bits) % 0x1_0000_0000 % 32;
    LetterValue(v);
    LastBits(buf, bits);
    out := start + [Letter(v)];
    assert out[..|start|] == start;
    Assoc(CharBits(start), BitsOf(buf, bits), Zeros(5 - bits));
  }

  lemma {:induction false} ZeroBits(n: nat)
    ensures BitsOf(0, n) == Zeros(n)
  {
    if n > 0 {
      ZeroBits(n - 1);
    }
  }

  lemma LastBits(buf: U32, bits: nat)
    requires 0 < bits < 5
    ensures BitsOf(ShiftLeft(buf, 5 - bits) % 0x1_0000_0000 % 32, 5) == BitsOf(buf, bits) + Zeros(5 - bits)
  {
    var whole := ShiftLeft(buf, 5 - bits);
    Masked(whole % 0x1_0000_0000, 5, 32);
    Low32(whole, 5);
    FilledBits(buf, bits, 5 - bits);
  }

  /** What is shifted in at the end are zeros. */
  lemma FilledBits(buf: nat, bits: nat, pad: nat)
    ensures BitsOf(ShiftLeft(buf, pad), bits + pad) == BitsOf(buf, bits) + Zeros(pad)
  {
    BitsSplit(ShiftLeft(buf, pad), bits, pad);
    ShiftBack(buf, pad, 0);
    HighBits(0, buf, pad, pad);
    ZeroBits(pad);
  }

  lemma CharBitsSnoc(s: string, i: nat)
    requires i < |s| && Readable(s[..i]) && Value(s[i]).Some?
    ensures Readable(s[..i + 1]) && CharBits(s[..i + 1]) == CharBits(s[..i]) + BitsOf(Value(s[i]).value, 5)
  {
    assert s[..i + 1][..i] == s[..i];
  }

  method FromBase32(s: string) returns (r: Option<seq<Byte>>)
    ensures Decodes(r, s)
  {
    var out: seq<Byte> := [];
    var buf: U32 := 0;
    var bits: nat := 0;
    for i := 0 to |s|
      invariant bits < 8 && 8 * |out| + bits == 5 * i
      invariant Readable(s[..i])
      invariant ByteBits(out) + BitsOf(buf, bits) == CharBits(s[..i])
    {
      var v := Value(s[i]);
      if v.None? {
        return None;
      }
      CharBitsSnoc(s, i);
      out, buf, bits := PullLetter(out, buf, bits, v.value);
    }
    assert s[..|s|] == s;
    r := Some(out);
    assert (ByteBits(out) + BitsOf(buf, bits))[..8 * |out|] == ByteBits(out);
  }

  /** One letter's five bits into the accumulator, and a byte out of it when there is one. */
  method PullLetter(start: seq<Byte>, buf0: U32, bits0: nat, v: nat) returns (out: seq<Byte>, buf: U32, bits: nat)
    requires v < 32 && bits0 < 8
    ensures bits < 8 && 8 * |out| + bits == 8 * |start| + bits0 + 5
    ensures ByteBits(out) + BitsOf(buf, bits) == ByteBits(start) + BitsOf(buf0, bits0) + BitsOf(v, 5)
  {
    PushedBits(buf0, bits0, 5, v);
    Assoc(ByteBits(start), BitsOf(buf0, bits0), BitsOf(v, 5));
    out := start;
    buf := PushBits(buf0, 5, v);
    bits := bits0 + 5;
    if bits >= 8 {
      bits := bits - 8;
      out := PushByte(out, buf, bits);
    }
  }

  /** Append the byte above the lowest `bits`. */
  method PushByte(start: seq<Byte>, buf: U32, bits: nat) returns (out: seq<Byte>)
    ensures |out| == |start| + 1
    ensures ByteBits(out) + BitsOf(buf, bits) == ByteBits(start) + BitsOf(buf, bits + 8)
  {
    var v: Byte := ShiftRight(buf, bits) % 256;
    PoppedBits(buf, bits, 8, 256);
    out := start + [v];
    assert out[..|start|] == start;
    Assoc(ByteBits(start), BitsOf(v, 8), BitsOf(buf, bits));
  }

  // ── Round trips ─────────────────────────────────────────────────────────────

  lemma {:induction false} SameBits(v: nat, w: nat, n: nat)
    requires v < Pow2(n) && w < Pow2(n) && BitsOf(v, n) == BitsOf(w, n)
    ensures v == w
  {
    if n > 0 {
      var a, b := BitsOf(v, n), BitsOf(w, n);
      assert a[..n - 1] == BitsOf(v / 2, n - 1) && b[..n - 1] == BitsOf(w / 2, n - 1);
      assert a[n - 1] == (v % 2 == 1) && b[n - 1] == (w % 2 == 1);
      SameBits(v / 2, w / 2, n - 1);
    }
  }

  lemma {:induction false} SameBytes(a: seq<Byte>, b: seq<Byte>)
    requires ByteBits(a) == ByteBits(b)
    ensures a == b
  {
    if a != [] {
      var n := |a| - 1;
      SameHalves(ByteBits(a[..n]), BitsOf(a[n], 8), ByteBits(b[..n]), BitsOf(b[n], 8));
      SameBytes(a[..n], b[..n]);
      Powers();
      SameBits(a[n], b[n], 8);
      assert a == a[..n] + [a[n]] && b == b[..n] + [b[n]];
    }
  }

  lemma FrontOf(front: seq<bool>, back: seq<bool>)
    ensures (front + back)[..|front|] == front
  {}

  /** Whatever is encoded is decoded to the same bytes, although the accumulator drops its high bits. */
  lemma RoundTrip(data: seq<Byte>, s: string, r: Option<seq<Byte>>)
    requires Encodes(s, data) && Decodes(r, s)
    ensures r == Some(data)
  {
    FrontOf(ByteBits(data), Zeros(5 * |s| - 8 * |data|));
    SameBytes(r.value, data);
  }

  lemma SameLetter(c: char, d: char)
    requires Value(c).Some? && Value(d).Some? && ToAsciiUppercase(c) == c && ToAsciiUppercase(d) == d
    requires BitsOf(Value(c).value, 5) == BitsOf(Value(d).value, 5)
    ensures c == d
  {
    Powers();
    SameBits(Value(c).value, Value(d).value, 5);
  }

  lemma {:induction false} SameLetters(s: string, t: string)
    requires Readable(s) && Readable(t) && IsUpper(s) && IsUpper(t) && CharBits(s) == CharBits(t)
    ensures s == t
  {
    if s != [] {
      var n := |s| - 1;
      SameHalves(CharBits(s[..n]), BitsOf(Value(s[n]).value, 5), CharBits(t[..n]), BitsOf(Value(t[n]).value, 5));
      SameLetters(s[..n], t[..n]);
      SameLetter(s[n], t[n]);
      assert s == s[..n] + [s[n]] && t == t[..n] + [t[n]];
    }
  }

  /** There is one encoding, so `Encodes` says all there is to say about the result. */
  lemma OneEncoding(data: seq<Byte>, s: string, t: string)
    requires Encodes(s, data) && Encodes(t, data)
    ensures s == t
  {
    SameLetters(s, t);
  }

  function Upper(s: string): (r: string)
    ensures |r| == |s|
  {
    seq(|s|, i requires 0 <= i < |s| => ToAsciiUppercase(s[i]))
  }

  lemma {:induction false} UpperSameBits(s: string)
    requires Readable(s)
    ensures Readable(Upper(s)) && IsUpper(Upper(s)) && CharBits(Upper(s)) == CharBits(s)
  {
    forall i | 0 <= i < |s| ensures Value(Upper(s)[i]) == Value(s[i]) && ToAsciiUppercase(Upper(s)[i]) == Upper(s)[i] {}
    if s != [] {
      UpperSameBits(s[..|s| - 1]);
      assert Upper(s)[..|s| - 1] == Upper(s[..|s| - 1]);
    }
  }

  /** Case does not matter. */
  lemma CaseIsIgnored(s: string, r: Option<seq<Byte>>)
    requires Decodes(r, Upper(s))
    ensures Decodes(r, s)
  {
    forall i | 0 <= i < |s| ensures Value(Upper(s)[i]) == Value(s[i]) {}
    if Readable(s) {
      UpperSameBits(s);
    } else {
      var i :| 0 <= i < |s| && Value(s[i]).None?;
      assert Value(Upper(s)[i]).None?;
    }
  }

  lemma SplitAt(all: seq<bool>, front: seq<bool>, back: seq<bool>)
    requires |front| <= |all| && all[..|front|] == front
    ensures all == front + back <==> all[|front|..] == back
  {
    assert all == front + all[|front|..];
    assert (front + back)[|front|..] == back;
  }

  /**
    Encoding what was decoded gives the text back, in upper case, exactly when the ignored bits
    are fewer than five zeros.
   */
  lemma DecodeEncode(s: string, data: seq<Byte>)
    requires Decodes(Some(data), s)
    ensures Encodes(Upper(s), data) <==>
              5 * |s| - 8 * |data| < 5 && CharBits(s)[8 * |data|..] == Zeros(5 * |s| - 8 * |data|)
  {
    UpperSameBits(s);
    SplitAt(CharBits(s), ByteBits(data), Zeros(5 * |s| - 8 * |data|));
    Lengths(|s|, |data|);
  }

  /** With fewer than five bits too many, the text is as long as an encoding. */
  lemma Lengths(letters: nat, bytes: nat)
    requires bytes == 5 * letters / 8
    ensures letters == (8 * bytes + 4) / 5 <==> 5 * letters - 8 * bytes < 5
  {}
}
