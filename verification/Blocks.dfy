/** The blocks of a message by their kinds: how many, which of them, and what they say. */
module Blocks {
  import opened Prelude
  import opened Conversation

  datatype Kind = TextKind | CallKind | ResultKind

  predicate IsOf(b: Block, kind: Kind) {
    match kind
    case TextKind => b.Text?
    case CallKind => b.ToolUse?
    case ResultKind => b.ToolResult?
  }

  /** How many blocks of a kind there are among the first `n`. */
  function Rank(content: seq<Block>, kind: Kind, n: nat): nat
    requires n <= |content|
  {
    if n == 0 then 0 else Rank(content, kind, n - 1) + if IsOf(content[n - 1], kind) then 1 else 0
  }

  /** All texts, run together. */
  function WholeText(content: seq<Block>): string {
    Concat(seq(|content|, k requires 0 <= k < |content| => if content[k].Text? then content[k].text else ""))
  }

  /** What a tool result says: the text of its first part, or nothing. */
  predicate Says(result: Block, text: string)
    requires result.ToolResult?
  {
    if result.content != [] && result.content[0].TextPart? then text == result.content[0].text else text == ""
  }

  lemma {:induction false} RankSnoc(front: seq<Block>, last: Block, kind: Kind, k: nat)
    requires k <= |front|
    ensures Rank(front + [last], kind, k) == Rank(front, kind, k)
  {
    if k > 0 {
      RankSnoc(front, last, kind, k - 1);
    }
  }

  lemma ToolUsesSnoc(front: seq<Block>, last: Block)
    ensures ToolUses(front + [last]) == ToolUses(front) + if last.ToolUse? then [last] else []
  {
    ToolUsesAppend(front, [last]);
    assert [last][1..] == [];
  }

  lemma {:induction false} ToolUsesAt(content: seq<Block>)
    ensures |ToolUses(content)| == Rank(content, CallKind, |content|)
    ensures forall k :: 0 <= k < |content| && content[k].ToolUse? ==>
      Rank(content, CallKind, k) < |ToolUses(content)| && ToolUses(content)[Rank(content, CallKind, k)] == content[k]
    decreases |content|
  {
    if content != [] {
      var n := |content| - 1;
      var front, last := content[..n], content[n];
      assert content == front + [last];
      ToolUsesAt(front);
      ToolUsesSnoc(front, last);
      forall k | 0 <= k <= n ensures Rank(content, CallKind, k) == Rank(front, CallKind, k) {
        RankSnoc(front, last, CallKind, k);
      }
      assert forall k :: 0 <= k < n ==> content[k] == front[k];
    }
  }

  lemma {:induction false} JoinedIsWhole(content: seq<Block>)
    ensures JoinedText(content) == WholeText(content)
  {
    if content != [] {
      var parts := seq(|content|, k requires 0 <= k < |content| => if content[k].Text? then content[k].text else "");
      var rest := content[1..];
      assert parts[1..] == seq(|rest|, k requires 0 <= k < |rest| => if rest[k].Text? then rest[k].text else "");
      JoinedIsWhole(rest);
    }
  }

  lemma {:induction false} NoneRanked(content: seq<Block>, kind: Kind, n: nat)
    requires n <= |content|
    ensures Rank(content, kind, n) == 0 <==> forall k :: 0 <= k < n ==> !IsOf(content[k], kind)
  {
    if n > 0 {
      NoneRanked(content, kind, n - 1);
    }
  }
}
