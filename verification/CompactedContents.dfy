/** What compaction leaves of the blocks of old messages (`compact_history` in core/src/lib.rs). */
module CompactedContents {
  import opened Prelude
  import opened Conversation
  import opened Blocks
  import opened Compaction

  // ── Numbers ─────────────────────────────────────────────────────────────────

  predicate IsDigit(c: char) {
    '0' as int <= c as int <= '9' as int
  }

  function Number(digits: string): nat
    requires forall c <- digits :: IsDigit(c)
  {
    if digits == "" then 0
    else
      var last := digits[|digits| - 1];
      assert last in digits && IsDigit(last);
      10 * Number(digits[..|digits| - 1]) + (last as int - '0' as int)
  }

  /** The decimal form reads back as the number, and has no leading zero. */
  lemma {:induction false} DecimalReads(n: nat)
    ensures (forall c <- Decimal(n) :: IsDigit(c)) && Number(Decimal(n)) == n
    ensures Decimal(n) != "" && (n > 0 ==> Decimal(n)[0] != '0')
  {
    var digit := [('0' as int + n % 10) as char];
    if n < 10 {
      assert digit[..0] == "";
    } else {
      DecimalReads(n / 10);
      assert Decimal(n) == Decimal(n / 10) + digit;
      assert Decimal(n)[..|Decimal(n)| - 1] == Decimal(n / 10);
    }
  }

  // ── Short forms ─────────────────────────────────────────────────────────────

  /** The longest prefix of whole characters that has at most `limit` bytes. */
  predicate LongestPrefix(text: string, limit: nat, cut: string) {
    && cut <= text && ByteLen(cut) <= limit
    && (cut != text ==> ByteLen(text[..|cut| + 1]) > limit)
  }

  /** `size` is its length in bytes, `cut` the prefix that is left. */
  ghost predicate Abridged(text: string, short: string, size: string, cut: string) {
    && (forall c <- size :: IsDigit(c)) && Number(size) == ByteLen(text) && LongestPrefix(text, 300, cut)
    && short == "[" + (if "error:" <= text || "HTTP " <= text then "error" else "ok") + " — " + size
                + " chars total]\n" + cut + "\n…[truncated]"
  }

  ghost predicate ShortResult(text: string, short: string) {
    if text == "" then short == "[empty]"
    else if ByteLen(text) <= 300 then short == text
    else exists size, cut :: Abridged(text, short, size, cut)
  }

  ghost predicate ShortText(text: string, short: string) {
    if ByteLen(text) <= 200 then short == text
    else exists cut :: LongestPrefix(text, 200, cut) && short == cut + "…[truncated]"
  }

  lemma ResultsAreShort(text: string)
    ensures ShortResult(text, ResultStub(text))
  {
    if ByteLen(text) > 300 {
      var size, cut := Decimal(ByteLen(text)), Preview(text, 300);
      DecimalReads(ByteLen(text));
      PreviewCut(text, 300);
      assert Abridged(text, ResultStub(text), size, cut);
    }
  }

  lemma TextsAreShort(text: string)
    ensures ShortText(text, TextStub(text))
  {
    PreviewCut(text, 200);
  }

  // ── Block by block ──────────────────────────────────────────────────────────

  ghost predicate OldResult(b: Block, c: Block) {
    match b
    case ToolResult(id, _) =>
      exists text, short :: Says(b, text) && ShortResult(text, short) && c == ToolResult(id, [TextPart(short)])
    case _ => c == b
  }

  ghost predicate OldAssistant(b: Block, c: Block) {
    match b
    case Text(text) => exists short :: ShortText(text, short) && c == Text(short)
    case ToolUse(id, name, _) => c == ToolUse(id, name, "{}")
    case _ => c == b
  }

  lemma BlocksAreShort(b: Block)
    ensures OldResult(b, StubResult(b)) && OldAssistant(b, StubAssistant(b))
  {
    match b
    case ToolResult(_, content) =>
      ResultsAreShort(FirstText(content));
      assert Says(b, FirstText(content));
    case Text(text) => TextsAreShort(text);
    case _ =>
  }

  // ── Which messages are old ──────────────────────────────────────────────────

  /** A message the model gets as tool results: of the user or from the background, with nothing else in it. */
  predicate OnlyResults(m: ApiMessage) {
    m.role in {User, BgComplete, BgProgress, PeerMessage} && forall b <- m.content :: b.ToolResult?
  }

  /** The later messages of that kind. */
  function Newer(messages: Log, i: int): set<int> {
    set j: int | i < j < |messages| && 0 <= j && OnlyResults(messages[j])
  }

  lemma {:induction false} NewerAreCounted(messages: Log, i: nat)
    requires i <= |messages|
    ensures |Newer(messages, i - 1)| == ResultsFrom(messages, i)
    decreases |messages| - i
  {
    if i < |messages| {
      NewerAreCounted(messages, i + 1);
      assert IsResults(Translate(messages[i])) <==> OnlyResults(messages[i]);
      assert Newer(messages, i - 1) == Newer(messages, i) + if OnlyResults(messages[i]) then {i as int} else {};
    }
  }

  /** Results are old when at least `keepFull` later messages are results too. */
  lemma StaleMeans(messages: Log, keepFull: nat, i: nat)
    requires i < |messages|
    ensures Stale(messages, keepFull, i) <==> OnlyResults(messages[i]) && |Newer(messages, i)| >= keepFull
  {
    NewerAreCounted(messages, i + 1);
    assert IsResults(Translate(messages[i])) <==> OnlyResults(messages[i]);
  }

  /**
    What every block of a compacted log says: a result with `keepFull` newer ones is short, and
    names its size and whether it is an error; so are the texts before it, whose calls lose
    their input; every other block is as it was. Messages from the background are the user's.
   */
  lemma CompactedBlocks(messages: Log, keepFull: nat, i: nat, k: nat)
    requires i < |messages| && k < |messages[i].content|
    ensures var m, c := messages[i], CompactHistory(messages, keepFull)[i];
            && |c.content| == |m.content|
            && c.role == (if m.role in {BgComplete, BgProgress, PeerMessage} then User else m.role)
            && if OnlyResults(m) && |Newer(messages, i)| >= keepFull then OldResult(m.content[k], c.content[k])
               else if i + 1 < |messages| && OnlyResults(messages[i + 1]) && |Newer(messages, i + 1)| >= keepFull
                 then OldAssistant(m.content[k], c.content[k])
               else c.content[k] == m.content[k]
  {
    CompactionIsExact(messages, keepFull, i);
    BlocksAreShort(messages[i].content[k]);
    StaleMeans(messages, keepFull, i);
    if i + 1 < |messages| {
      StaleMeans(messages, keepFull, i + 1);
    }
  }
}
