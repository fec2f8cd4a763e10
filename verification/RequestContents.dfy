/**
  What a request to an OpenAI-compatible model says (`messages_to_openai` in core/src/lib.rs), read
  off the blocks of the messages one by one.
 */
module RequestContents {
  import opened Prelude
  import opened Conversation
  import opened Blocks

  // ── What messages become ────────────────────────────────────────────────────

  datatype FunctionCall = FunctionCall(id: string, name: string, arguments: string)

  datatype ChatMessage =
    | ChatSystem(text: string)
    | ChatUser(text: string)
    | ChatAssistant(content: Option<string>, calls: seq<FunctionCall>)
    | ChatTool(callId: string, text: string)

  function Texts(content: seq<Block>): seq<string> {
    if content == [] then []
    else (if content[0].Text? then [content[0].text] else []) + Texts(content[1..])
  }

  /** The texts with line feeds between them. */
  function JoinLines(texts: seq<string>): string {
    if texts == [] then ""
    else if |texts| == 1 then texts[0]
    else texts[0] + "\n" + JoinLines(texts[1..])
  }

  /** One `tool` message for each result. */
  function ToolMessages(content: seq<Block>, n: nat): seq<ChatMessage>
    requires n <= |content|
  {
    if n == 0 then []
    else ToolMessages(content, n - 1)
         + (if content[n - 1].ToolResult? then [ChatTool(content[n - 1].toolUseId, FirstText(content[n - 1].content))]
            else [])
  }

  function CallsOf(uses: seq<Block>): seq<FunctionCall>
    requires forall b <- uses :: b.ToolUse?
  {
    seq(|uses|, k requires 0 <= k < |uses| => FunctionCall(uses[k].id, uses[k].name, uses[k].input))
  }

  function OfUser(content: seq<Block>): seq<ChatMessage> {
    (if Texts(content) == [] then [] else [ChatUser(JoinLines(Texts(content)))]) + ToolMessages(content, |content|)
  }

  function OfMessage(m: ApiMessage): seq<ChatMessage> {
    match m.role
    case User => OfUser(m.content)
    case Assistant =>
      var text := JoinedText(m.content);
      [ChatAssistant(if text == "" then None else Some(text), CallsOf(ToolUses(m.content)))]
    case _ => []
  }

  /** The messages from `i` on. */
  function From(messages: Log, i: nat): seq<ChatMessage>
    requires i <= |messages|
    decreases |messages| - i
  {
    if i == |messages| then [] else OfMessage(messages[i]) + From(messages, i + 1)
  }

  // ── What that has to say ────────────────────────────────────────────────────

  /** All texts, each with a line feed before it. */
  function TextLines(content: seq<Block>): string {
    Concat(seq(|content|, k requires 0 <= k < |content| => if content[k].Text? then "\n" + content[k].text else ""))
  }

  /** The results of a message, one tool message each, in order. */
  ghost predicate RendersResults(content: seq<Block>, tools: seq<ChatMessage>) {
    && |tools| == Rank(content, ResultKind, |content|)
    && forall k :: 0 <= k < |content| && content[k].ToolResult? ==>
         Rank(content, ResultKind, k) < |tools| &&
         var tool := tools[Rank(content, ResultKind, k)];
         tool.ChatTool? && tool.callId == content[k].toolUseId && Says(content[k], tool.text)
  }

  /** The calls of a message, in order. */
  ghost predicate RendersCalls(content: seq<Block>, calls: seq<FunctionCall>) {
    && |calls| == Rank(content, CallKind, |content|)
    && forall k :: 0 <= k < |content| && content[k].ToolUse? ==>
         Rank(content, CallKind, k) < |calls| &&
         calls[Rank(content, CallKind, k)] == FunctionCall(content[k].id, content[k].name, content[k].input)
  }

  /** A user message: its texts, joined by line feeds, if it has any; then its results. */
  ghost predicate RendersUser(content: seq<Block>, group: seq<ChatMessage>) {
    if Rank(content, TextKind, |content|) == 0 then RendersResults(content, group)
    else group != [] && group[0].ChatUser? && "\n" + group[0].text == TextLines(content)
         && RendersResults(content, group[1..])
  }

  /** An assistant message: its text, if it is not empty, and its calls. */
  ghost predicate RendersAssistant(content: seq<Block>, group: seq<ChatMessage>) {
    && |group| == 1 && group[0].ChatAssistant?
    && (if WholeText(content) == "" then group[0].content.None? else group[0].content == Some(WholeText(content)))
    && RendersCalls(content, group[0].calls)
  }

  ghost predicate Renders(m: ApiMessage, group: seq<ChatMessage>) {
    match m.role
    case User => RendersUser(m.content, group)
    case Assistant => RendersAssistant(m.content, group)
    case _ => group == []
  }

  /** Message by message, with nothing in between. */
  ghost predicate RendersAll(messages: Log, out: seq<ChatMessage>) {
    exists groups :: RendersGroups(messages, out, groups)
  }

  ghost predicate RendersGroups(messages: Log, out: seq<ChatMessage>, groups: seq<seq<ChatMessage>>) {
    |groups| == |messages| && out == Flat(groups) && forall i :: 0 <= i < |messages| ==> Renders(messages[i], groups[i])
  }

  // ── One message ─────────────────────────────────────────────────────────────

  lemma {:induction false} ToolMessagesAt(content: seq<Block>, n: nat)
    requires n <= |content|
    ensures |ToolMessages(content, n)| == Rank(content, ResultKind, n)
    ensures forall k :: 0 <= k < n && content[k].ToolResult? ==>
      && Rank(content, ResultKind, k) < |ToolMessages(content, n)|
      && ToolMessages(content, n)[Rank(content, ResultKind, k)]
         == ChatTool(content[k].toolUseId, FirstText(content[k].content))
  {
    if n > 0 {
      ToolMessagesAt(content, n - 1);
    }
  }

  lemma ResultsAreRendered(content: seq<Block>)
    ensures RendersResults(content, ToolMessages(content, |content|))
  {
    ToolMessagesAt(content, |content|);
  }

  lemma CallsAreRendered(content: seq<Block>)
    ensures RendersCalls(content, CallsOf(ToolUses(content)))
  {
    ToolUsesAt(content);
  }

  lemma JoinLinesCons(first: string, rest: seq<string>)
    ensures JoinLines([first] + rest) == first + (if rest == [] then "" else "\n" + JoinLines(rest))
  {
    assert ([first] + rest)[1..] == rest;
    Assoc(first, "\n", JoinLines(rest));
  }

  lemma {:induction false} LinesAreJoined(content: seq<Block>)
    ensures Texts(content) == [] <==> forall b <- content :: !b.Text?
    ensures TextLines(content) == if Texts(content) == [] then "" else "\n" + JoinLines(Texts(content))
  {
    if content != [] {
      var lines :=
        seq(|content|, k requires 0 <= k < |content| => if content[k].Text? then "\n" + content[k].text else "");
      var rest := content[1..];
      assert lines[1..] == seq(|rest|, k requires 0 <= k < |rest| => if rest[k].Text? then "\n" + rest[k].text else "");
      LinesAreJoined(rest);
      assert content == [content[0]] + rest;
      if content[0].Text? {
        JoinLinesCons(content[0].text, Texts(rest));
        Assoc("\n", content[0].text, TextLines(rest));
      } else {
        assert Texts(content) == [] + Texts(rest) == Texts(rest);
      }
    }
  }

  lemma UserIsRendered(content: seq<Block>)
    ensures RendersUser(content, OfUser(content))
  {
    var tools := ToolMessages(content, |content|);
    ResultsAreRendered(content);
    LinesAreJoined(content);
    NoneRanked(content, TextKind, |content|);
    if Texts(content) == [] {
      assert OfUser(content) == tools;
    } else {
      assert content[..|content|] == content;
      assert OfUser(content)[1..] == tools;
    }
  }

  lemma MessageIsRendered(m: ApiMessage)
    ensures Renders(m, OfMessage(m))
  {
    match m.role
    case User => UserIsRendered(m.content);
    case Assistant =>
      CallsAreRendered(m.content);
      JoinedIsWhole(m.content);
    case _ =>
  }

  // ── The request ─────────────────────────────────────────────────────────────

  lemma FlatFrom<T>(groups: seq<seq<T>>, i: nat)
    requires i < |groups|
    ensures Flat(groups[i..]) == groups[i] + Flat(groups[i + 1..])
  {
    assert groups[i..] == [groups[i]] + groups[i + 1..];
    FlatCons(groups[i], groups[i + 1..]);
  }

  lemma {:induction false} FromIsFlat(messages: Log, i: nat, groups: seq<seq<ChatMessage>>)
    requires i <= |messages| == |groups| && forall k :: 0 <= k < |messages| ==> groups[k] == OfMessage(messages[k])
    ensures From(messages, i) == Flat(groups[i..])
    decreases |messages| - i
  {
    if i < |messages| {
      FromIsFlat(messages, i + 1, groups);
      FlatFrom(groups, i);
    }
  }

  /**
    The request says what the messages say: nothing is left out, added or moved. Each user message
    gives its texts joined by line feeds and then its results, each assistant message its text
    and its calls with names and inputs.
   */
  lemma RequestSaysTheMessages(messages: Log)
    ensures RendersAll(messages, From(messages, 0))
  {
    var groups := seq(|messages|, i requires 0 <= i < |messages| => OfMessage(messages[i]));
    FromIsFlat(messages, 0, groups);
    assert groups[0..] == groups;
    forall i | 0 <= i < |messages| ensures Renders(messages[i], groups[i]) {
      MessageIsRendered(messages[i]);
    }
    assert RendersGroups(messages, From(messages, 0), groups);
  }
}
