/** What is left of old turns in a request to the model (`compact_history` in core/src/lib.rs). */
module Compaction {
  import opened Prelude
  import opened Conversation
  import Utf8

  // ── UTF-8 lengths ───────────────────────────────────────────────────────────

  /** `text.len()`: the length in UTF-8 bytes. */
  function ByteLen(text: string): nat {
    if text == "" then 0 else Utf8.Width(text[0]) + ByteLen(text[1..])
  }

  /** No character of the text reaches across `at` bytes. */
  ghost predicate IsCharBoundary(text: string, at: nat) {
    exists n :: 0 <= n <= |text| && ByteLen(text[..n]) == at
  }

  /** The longest prefix of at most `limit` bytes. */
  function Preview(text: string, limit: nat): string {
    if text == "" || Utf8.Width(text[0]) > limit then ""
    else [text[0]] + Preview(text[1..], limit - Utf8.Width(text[0]))
  }

  /** It is the length of the encoding. */
  lemma {:induction false} ByteLenIs(text: string)
    ensures ByteLen(text) == |Utf8.Encode(text)|
  {
    if text != "" {
      ByteLenIs(text[1..]);
    }
  }

  lemma {:induction false} PrefixBytes(text: string, m: nat, n: nat)
    requires m <= n <= |text|
    ensures ByteLen(text[..m]) <= ByteLen(text[..n])
    ensures m < n ==> ByteLen(text[..m]) < ByteLen(text[..n])
    decreases m
  {
    if m > 0 {
      assert text[..m][1..] == text[1..][..m - 1] && text[..n][1..] == text[1..][..n - 1];
      PrefixBytes(text[1..], m - 1, n - 1);
    }
  }

  lemma {:induction false} PreviewCut(text: string, limit: nat)
    ensures var cut := Preview(text, limit);
            && cut <= text && ByteLen(cut) <= limit
            && (cut != text ==> ByteLen(text[..|cut| + 1]) > limit)
  {
    if text != "" && Utf8.Width(text[0]) <= limit {
      var rest := Preview(text[1..], limit - Utf8.Width(text[0]));
      var cut := Preview(text, limit);
      PreviewCut(text[1..], limit - Utf8.Width(text[0]));
      assert cut[1..] == rest;
      if cut != text {
        assert text == [text[0]] + text[1..];
        assert text[..|cut| + 1][1..] == text[1..][..|rest| + 1];
      }
    } else if text != "" {
      assert text[..1][1..] == "";
    }
  }

  /** The preview ends at the greatest character boundary that is at most `limit`. */
  lemma PreviewEndsAtBoundary(text: string, limit: nat)
    ensures var cut := Preview(text, limit);
            && cut <= text && IsCharBoundary(text, ByteLen(cut)) && ByteLen(cut) <= limit
            && forall at :: ByteLen(cut) < at <= limit ==> !IsCharBoundary(text, at)
  {
    var cut := Preview(text, limit);
    PreviewCut(text, limit);
    assert text[..|cut|] == cut;
    forall at | ByteLen(cut) < at <= limit ensures !IsCharBoundary(text, at) {
      if IsCharBoundary(text, at) {
        var n :| 0 <= n <= |text| && ByteLen(text[..n]) == at;
        if n <= |cut| {
          PrefixBytes(text, n, |cut|);
        } else {
          PrefixBytes(text, |cut| + 1, n);
        }
      }
    }
  }

  // ── Stubs ───────────────────────────────────────────────────────────────────

  function Decimal(n: nat): string {
    var digit := [('0' as int + n % 10) as char];
    if n < 10 then digit else Decimal(n / 10) + digit
  }

  function Outcome(text: string): string {
    if "error:" <= text || "HTTP " <= text then "error" else "ok"
  }

  function ResultStub(text: string): string {
    if text == "" then "[empty]"
    else if ByteLen(text) <= 300 then text
    else
      "[" + Outcome(text) + " — " + Decimal(ByteLen(text)) + " chars total]\n"
      + Preview(text, 300) + "\n…[truncated]"
  }

  function TextStub(text: string): string {
    if ByteLen(text) <= 200 then text else Preview(text, 200) + "…[truncated]"
  }

  function StubResult(b: Block): Block {
    if b.ToolResult? then ToolResult(b.toolUseId, [TextPart(ResultStub(FirstText(b.content)))]) else b
  }

  function StubAssistant(b: Block): Block {
    match b
    case Text(text) => Text(TextStub(text))
    case ToolUse(id, name, _) => ToolUse(id, name, "{}")
    case _ => b
  }

  function MapBlocks(f: Block -> Block, content: seq<Block>): (r: seq<Block>)
    ensures |r| == |content|
  {
    seq(|content|, i requires 0 <= i < |content| => f(content[i]))
  }

  // ── The rewrite ─────────────────────────────────────────────────────────────

  function ApiRole(role: Role): Role {
    match role
    case BgComplete | BgProgress | PeerMessage => User
    case _ => role
  }

  function Translate(m: ApiMessage): ApiMessage {
    m.(role := ApiRole(m.role))
  }

  function TranslateAll(messages: Log): (r: Log)
    ensures |r| == |messages|
  {
    seq(|messages|, i requires 0 <= i < |messages| => Translate(messages[i]))
  }

  /** A user message whose content is entirely tool results. */
  predicate IsResults(m: ApiMessage) {
    m.role == User && forall b <- m.content :: b.ToolResult?
  }

  /** The indices of the tool-result messages from `i` on. */
  function ResultIndices(messages: Log, i: nat): (r: seq<nat>)
    requires i <= |messages|
    ensures forall k :: 0 <= k < |r| ==> i <= r[k] < |messages|
    decreases |messages| - i
  {
    if i == |messages| then []
    else (if IsResults(messages[i]) then [i] else []) + ResultIndices(messages, i + 1)
  }

  /** All but the last `keepFull` of them. */
  function OldResults(messages: Log, keepFull: nat): seq<nat> {
    var indices := ResultIndices(messages, 0);
    indices[..if |indices| > keepFull then |indices| - keepFull else 0]
  }

  function CompactAt(messages: Log, outdated: seq<nat>, i: nat): ApiMessage
    requires i < |messages|
  {
    var m := messages[i];
    if i in outdated then m.(content := MapBlocks(StubResult, m.content))
    else if i + 1 in outdated then m.(content := MapBlocks(StubAssistant, m.content))
    else m
  }

  function CompactHistory(messages: Log, keepFull: nat): (r: Log)
    ensures |r| == |messages|
  {
    var translated := TranslateAll(messages);
    var outdated := OldResults(translated, keepFull);
    seq(|messages|, i requires 0 <= i < |messages| => CompactAt(translated, outdated, i))
  }

  // ── Which messages are rewritten ────────────────────────────────────────────

  /** How many of the messages from `i` on are, for the model, tool results. */
  function ResultsFrom(messages: Log, i: nat): nat
    requires i <= |messages|
    decreases |messages| - i
  {
    if i == |messages| then 0
    else (if IsResults(Translate(messages[i])) then 1 else 0) + ResultsFrom(messages, i + 1)
  }

  /** A tool-result message with at least `keepFull` newer ones. */
  predicate Stale(messages: Log, keepFull: nat, i: nat)
    requires i < |messages|
  {
    IsResults(Translate(messages[i])) && ResultsFrom(messages, i + 1) >= keepFull
  }

  lemma {:induction false} CountIndices(messages: Log, i: nat)
    requires i <= |messages|
    ensures |ResultIndices(TranslateAll(messages), i)| == ResultsFrom(messages, i)
    decreases |messages| - i
  {
    if i < |messages| {
      CountIndices(messages, i + 1);
    }
  }

  /** Among the indices from `low` on, the first `n` are those with too many results after them. */
  lemma {:induction false} EarlyIndices(messages: Log, low: nat, i: nat, n: nat)
    requires low <= i < |messages| && n <= |ResultIndices(TranslateAll(messages), low)|
    ensures i in ResultIndices(TranslateAll(messages), low)[..n] <==>
              IsResults(Translate(messages[i])) && n > ResultsFrom(messages, low) - ResultsFrom(messages, i)
    decreases i - low
  {
    var log := TranslateAll(messages);
    var here, later := ResultIndices(log, low), ResultIndices(log, low + 1);
    if IsResults(log[low]) {
      assert here == [low] + later;
      if n > 0 {
        assert here[..n] == [low] + later[..n - 1];
        if low < i {
          EarlyIndices(messages, low + 1, i, n - 1);
        } else {
          assert here[..n][0] == low;
        }
      } else {
        MoreFrom(messages, low, i);
      }
    } else {
      assert here == later;
      if low < i {
        EarlyIndices(messages, low + 1, i, n);
      } else {
        forall x | x in later[..n] ensures x > low {}
      }
    }
  }

  lemma {:induction false} MoreFrom(messages: Log, low: nat, i: nat)
    requires low <= i <= |messages|
    ensures ResultsFrom(messages, low) >= ResultsFrom(messages, i)
    decreases i - low
  {
    if low < i {
      MoreFrom(messages, low + 1, i);
    }
  }

  /** The messages rewritten as old results are the stale ones. */
  lemma OldIsStale(messages: Log, keepFull: nat, i: nat)
    requires i < |messages|
    ensures i in OldResults(TranslateAll(messages), keepFull) <==> Stale(messages, keepFull, i)
  {
    CountIndices(messages, 0);
    var count := ResultsFrom(messages, 0);
    EarlyIndices(messages, 0, i, if count > keepFull then count - keepFull else 0);
  }

  /** A block of the same kind; tool ids and names in place. */
  predicate SameKind(b: Block, c: Block) {
    match b
    case Text(_) => c.Text?
    case ToolUse(id, name, _) => c.ToolUse? && c.id == id && c.name == name
    case ToolResult(id, _) => c.ToolResult? && c.toolUseId == id
  }

  /** Role translated, as many blocks, every block of its kind. */
  ghost predicate SameShape(m: ApiMessage, c: ApiMessage) {
    && c.role == ApiRole(m.role)
    && |c.content| == |m.content|
    && forall k :: 0 <= k < |m.content| ==> SameKind(m.content[k], c.content[k])
  }

  lemma StubsKeepShape(m: ApiMessage)
    ensures SameShape(m, ApiMessage(ApiRole(m.role), m.content))
    ensures SameShape(m, ApiMessage(ApiRole(m.role), MapBlocks(StubResult, m.content)))
    ensures SameShape(m, ApiMessage(ApiRole(m.role), MapBlocks(StubAssistant, m.content)))
  {
    forall k | 0 <= k < |m.content|
      ensures SameKind(m.content[k], MapBlocks(StubResult, m.content)[k])
      ensures SameKind(m.content[k], MapBlocks(StubAssistant, m.content)[k])
    {
      assert MapBlocks(StubResult, m.content)[k] == StubResult(m.content[k]);
      assert MapBlocks(StubAssistant, m.content)[k] == StubAssistant(m.content[k]);
    }
  }

  /**
    What compaction does to every message: its shape stays; tool results with `keepFull` newer
    ones are stubbed, and so is the message before each of them; all others only have their
    role translated.
   */
  lemma CompactionIsExact(messages: Log, keepFull: nat, i: nat)
    requires i < |messages|
    ensures var c := CompactHistory(messages, keepFull)[i];
            && SameShape(messages[i], c)
            && c.content == if Stale(messages, keepFull, i) then MapBlocks(StubResult, messages[i].content)
                            else if i + 1 < |messages| && Stale(messages, keepFull, i + 1)
                              then MapBlocks(StubAssistant, messages[i].content)
                            else messages[i].content
  {
    StubsKeepShape(messages[i]);
    OldIsStale(messages, keepFull, i);
    if i + 1 < |messages| {
      OldIsStale(messages, keepFull, i + 1);
    }
  }

  /** The newest `keepFull` results are not stale, and what follows a fresh one is fresh. */
  lemma FreshSuffix(messages: Log, keepFull: nat, i: nat, j: nat)
    requires i <= j < |messages| && IsResults(Translate(messages[i])) && !Stale(messages, keepFull, i)
    ensures !Stale(messages, keepFull, j)
  {
    if i < j {
      MoreFrom(messages, i + 1, j + 1);
    }
  }

  lemma {:induction false} ShapedUses(a: seq<Block>, b: seq<Block>)
    requires |a| == |b| && forall k :: 0 <= k < |a| ==>
      (a[k].ToolUse? <==> b[k].ToolUse?) && (a[k].ToolUse? ==> a[k].id == b[k].id)
    ensures |ToolUses(a)| == |ToolUses(b)|
    ensures forall k :: 0 <= k < |ToolUses(a)| ==> ToolUses(a)[k].id == ToolUses(b)[k].id
  {
    if a != [] {
      ShapedUses(a[1..], b[1..]);
    }
  }

  lemma ShapeKeepsAnswer(m: ApiMessage, reply: ApiMessage, cm: ApiMessage, creply: ApiMessage)
    requires SameShape(m, cm) && SameShape(reply, creply) && Answers(ToolUses(m.content), reply)
    ensures Answers(ToolUses(cm.content), creply)
  {
    ShapedUses(m.content, cm.content);
  }

  /** A compacted log still answers every tool call, right after it, in order. */
  lemma CompactionKeepsPairs(messages: Log, keepFull: nat)
    requires Paired(messages)
    ensures Paired(CompactHistory(messages, keepFull))
  {
    var c := CompactHistory(messages, keepFull);
    forall i | 0 <= i < |c| ensures PairedAt(c, i) {
      CompactionIsExact(messages, keepFull, i);
      assert PairedAt(messages, i);
      ShapedUses(messages[i].content, c[i].content);
      if messages[i].role == Assistant && ToolUses(messages[i].content) != [] {
        CompactionIsExact(messages, keepFull, i + 1);
        ShapeKeepsAnswer(messages[i], messages[i + 1], c[i], c[i + 1]);
      }
    }
  }

  /**
    In a paired log an assistant message with tool calls is stubbed exactly when its results
    are: when at least `keepFull` tool-result messages are newer than its own.
   */
  lemma CallsAndResultsTogether(messages: Log, keepFull: nat, i: nat)
    requires Paired(messages) && i < |messages|
    requires messages[i].role == Assistant && ToolUses(messages[i].content) != []
    ensures i + 1 < |messages|
    ensures var c := CompactHistory(messages, keepFull);
            if ResultsFrom(messages, i + 2) >= keepFull
            then c[i].content == MapBlocks(StubAssistant, messages[i].content)
                 && c[i + 1].content == MapBlocks(StubResult, messages[i + 1].content)
            else c[i] == messages[i] && c[i + 1] == messages[i + 1]
  {
    assert PairedAt(messages, i);
    CompactionIsExact(messages, keepFull, i);
    CompactionIsExact(messages, keepFull, i + 1);
  }
}
