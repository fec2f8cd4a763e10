/**
  Reconciling the chat pane with the server's history: the longest-common-prefix merge of
  `loadHistory` and the staggered appearance of the rest (mobile/App.tsx).
 */
module Reconcile {
  import opened Prelude
  import opened Conversation
  import opened ChatPanes
  import opened History

  // ── The merge ───────────────────────────────────────────────────────────────

  /** The server's rows as the client sees them, with ids `h0`, `h1`, … and `withPrevRoles`. */
  function ServerRows(hist: seq<HistMsg>): (r: Rows)
    ensures |r| == |hist|
  {
    seq(|hist|, i requires 0 <= i < |hist| =>
      Message(HistId(i), hist[i].role, hist[i].text, hist[i].cost, hist[i].output, false,
              if i > 0 then Some(hist[i - 1].role) else None))
  }

  /** The lenient equality: tool rows match by role alone. */
  predicate SameEvent(a: Message, b: Message) {
    a.role == b.role && (a.role == ToolRow || (a.text == b.text && a.cost == b.cost && a.output == b.output))
  }

  /** The end of the common prefix, given that everything before `k` matches. */
  function CommonFrom(cur: Rows, msgs: Rows, k: nat): (common: nat)
    requires k <= |cur| && k <= |msgs|
    ensures k <= common <= |cur| && common <= |msgs|
    decreases |cur| - k
  {
    if k < |cur| && k < |msgs| && SameEvent(cur[k], msgs[k]) then CommonFrom(cur, msgs, k + 1) else k
  }

  function Common(cur: Rows, msgs: Rows): (common: nat)
    ensures common <= |cur| && common <= |msgs|
  {
    CommonFrom(cur, msgs, 0)
  }

  /** A turn is being streamed or replayed. */
  predicate Busy(p: Pane) {
    p.status.StreamingStatus? || p.replaying.Some?
  }

  /** A successful `loadHistory`. */
  function Load(p: Pane, hist: seq<HistMsg>): Pane {
    var msgs := ServerRows(hist);
    var common := Common(p.messages, msgs);
    if common == |msgs| then
      if Busy(p) then p.(staggerQueue := []) else p.(staggerQueue := [], messages := p.messages[..common])
    else
      p.(messages := p.messages[..common] + [msgs[common]], staggerQueue := msgs[common + 1..])
  }

  /** `tickHistoryStagger` */
  function Tick(p: Pane): Pane {
    if p.staggerQueue == [] then p
    else
      var next := p.staggerQueue[0];
      p.(staggerQueue := p.staggerQueue[1..],
         messages := if HasId(p.messages, next.id) then p.messages else p.messages + [next])
  }

  /** All ticks, one after the other. */
  function Drain(p: Pane): Pane
    decreases |p.staggerQueue|
  {
    if p.staggerQueue == [] then p else Drain(Tick(p))
  }

  // ── What the merge computes ─────────────────────────────────────────────────

  lemma {:induction false} CommonIsLongest(cur: Rows, msgs: Rows, k: nat)
    requires k <= |cur| && k <= |msgs|
    ensures var common := CommonFrom(cur, msgs, k);
            && (forall i :: k <= i < common ==> SameEvent(cur[i], msgs[i]))
            && (common < |cur| && common < |msgs| ==> !SameEvent(cur[common], msgs[common]))
    decreases |cur| - k
  {
    if k < |cur| && k < |msgs| && SameEvent(cur[k], msgs[k]) {
      CommonIsLongest(cur, msgs, k + 1);
    }
  }

  /** Row by row, what the server says, tool rows by role alone. */
  ghost predicate Reconciled(rows: Rows, hist: seq<HistMsg>) {
    |rows| == |hist| && forall i :: 0 <= i < |rows| ==> SameEvent(rows[i], ServerRows(hist)[i])
  }

  /** No row has a history id from `low` up to `high`. */
  ghost predicate Free(rows: Rows, low: nat, high: nat) {
    forall i :: 0 <= i < |rows| && rows[i].id.HistId? ==> !(low <= rows[i].id.index < high)
  }

  /** No row of `kept` has the id of a server row that is still queued. */
  ghost predicate NoClash(kept: Rows, hist: seq<HistMsg>) {
    Free(kept, |kept| + 1, |hist|)
  }

  /** The queue holds the server rows from `at` on. */
  ghost predicate Queues(p: Pane, hist: seq<HistMsg>, at: nat) {
    at <= |hist| && p.staggerQueue == ServerRows(hist)[at..]
  }

  lemma FreeFrom(rows: Rows, low: nat, high: nat)
    requires low < high
    ensures Free(rows, low, high) <==> Free(rows, low + 1, high) && !HasId(rows, HistId(low))
  {}

  lemma FreeAppend(rows: Rows, m: Message, low: nat, high: nat)
    requires m.id.HistId? ==> m.id.index < low
    ensures Free(rows + [m], low, high) <==> Free(rows, low, high)
  {
    var more := rows + [m];
    forall i | 0 <= i < |rows| ensures more[i] == rows[i] {}
  }

  lemma TickTakesOne(p: Pane, hist: seq<HistMsg>, at: nat)
    requires Queues(p, hist, at) && at < |hist|
    ensures Queues(Tick(p), hist, at + 1) && Drain(p) == Drain(Tick(p))
    ensures Tick(p).replaying == p.replaying && Tick(p).status == p.status
    ensures Tick(p).messages
         == if HasId(p.messages, HistId(at)) then p.messages else p.messages + [ServerRows(hist)[at]]
  {
    var msgs := ServerRows(hist);
    assert p.staggerQueue[0] == msgs[at] && p.staggerQueue[1..] == msgs[at + 1..];
  }

  /** All queued rows in order, or fewer. */
  ghost predicate Appends(p: Pane, q: Pane, hist: seq<HistMsg>, at: nat)
    requires at <= |hist|
  {
    && q.staggerQueue == [] && q.replaying == p.replaying && q.status == p.status
    && |q.messages| <= |p.messages| + (|hist| - at)
    && if Free(p.messages, at, |hist|) then q.messages == p.messages + ServerRows(hist)[at..]
       else |q.messages| < |p.messages| + (|hist| - at)
  }

  lemma NextThenRest(front: Rows, msgs: Rows, at: nat)
    requires at < |msgs|
    ensures front + [msgs[at]] + msgs[at + 1..] == front + msgs[at..]
  {}

  lemma AppendsOneMore(p: Pane, tick: Pane, q: Pane, hist: seq<HistMsg>, at: nat)
    requires at < |hist| && Appends(tick, q, hist, at + 1)
    requires tick.replaying == p.replaying && tick.status == p.status
    requires tick.messages == if HasId(p.messages, HistId(at)) then p.messages else p.messages + [ServerRows(hist)[at]]
    ensures Appends(p, q, hist, at)
  {
    FreeFrom(p.messages, at, |hist|);
    if !HasId(p.messages, HistId(at)) {
      FreeAppend(p.messages, ServerRows(hist)[at], at + 1, |hist|);
      NextThenRest(p.messages, ServerRows(hist), at);
    }
  }

  /** Draining with no clash appends the queued rows in order; a clash loses a row for good. */
  lemma {:induction false} DrainAppends(p: Pane, hist: seq<HistMsg>, at: nat)
    requires Queues(p, hist, at)
    ensures Appends(p, Drain(p), hist, at)
    decreases |hist| - at
  {
    if at < |hist| {
      TickTakesOne(p, hist, at);
      DrainAppends(Tick(p), hist, at + 1);
      AppendsOneMore(p, Tick(p), Drain(p), hist, at);
    } else {
      assert p.messages + ServerRows(hist)[at..] == p.messages;
    }
  }

  lemma Rejoined(cur: Rows, msgs: Rows, common: nat)
    requires common <= |cur| && common < |msgs|
    ensures cur[..common] + [msgs[common]] + msgs[common + 1..] == cur[..common] + msgs[common..]
  {}

  lemma LoadedSuffix(p: Pane, hist: seq<HistMsg>, common: nat)
    requires common == Common(p.messages, ServerRows(hist)) < |hist|
    ensures var msgs, rows := ServerRows(hist), Drain(Load(p, hist)).messages;
            if NoClash(p.messages[..common], hist) then rows == p.messages[..common] + msgs[common..]
            else |rows| < |msgs|
  {
    var msgs := ServerRows(hist);
    DrainAppends(Load(p, hist), hist, common + 1);
    Rejoined(p.messages, msgs, common);
    FreeAppend(p.messages[..common], msgs[common], common + 1, |hist|);
  }

  /**
    Loading and draining leaves the common prefix as it was, and then the server's rows:
    exactly when no kept row carries the id of a queued one. Otherwise rows are missing.
   */
  lemma LoadedRows(p: Pane, hist: seq<HistMsg>)
    ensures var msgs, common := ServerRows(hist), Common(p.messages, ServerRows(hist));
            var q := Drain(Load(p, hist));
            && q.staggerQueue == []
            && (common == |msgs| ==> q.messages == if Busy(p) then p.messages else p.messages[..common])
            && (common < |msgs| ==>
                  if Kept(p, hist) then q.messages == p.messages[..common] + msgs[common..] else |q.messages| < |msgs|)
  {
    var common := Common(p.messages, ServerRows(hist));
    if common < |hist| {
      LoadedSuffix(p, hist, common);
      DrainAppends(Load(p, hist), hist, common + 1);
    }
  }

  ghost predicate Kept(p: Pane, hist: seq<HistMsg>) {
    NoClash(p.messages[..Common(p.messages, ServerRows(hist))], hist)
  }

  /**
    An idle load followed by a full drain shows what the server says, row by row, exactly when
    no row of the common prefix carries the id of a queued one.
   */
  lemma ReconcileIsCorrect(p: Pane, hist: seq<HistMsg>)
    requires !Busy(p)
    ensures Reconciled(Drain(Load(p, hist)).messages, hist) <==> Kept(p, hist)
    ensures Drain(Load(p, hist)).staggerQueue == []
  {
    var msgs, common := ServerRows(hist), Common(p.messages, ServerRows(hist));
    LoadedRows(p, hist);
    CommonIsLongest(p.messages, msgs, 0);
    if common == |msgs| || Kept(p, hist) {
      assert Drain(Load(p, hist)).messages == p.messages[..common] + msgs[common..];
      MergeReconciles(p.messages, hist, common);
    }
  }

  lemma MergeReconciles(cur: Rows, hist: seq<HistMsg>, common: nat)
    requires common <= |cur| && common <= |hist|
    requires forall i :: 0 <= i < common ==> SameEvent(cur[i], ServerRows(hist)[i])
    ensures Reconciled(cur[..common] + ServerRows(hist)[common..], hist)
  {}

  /** A row on screen passes for what the server says: tool rows by role alone. */
  predicate PassesFor(m: Message, h: HistMsg) {
    m.role == h.role && (h.role == ToolRow || (m.text == h.text && m.cost == h.cost && m.output == h.output))
  }

  /** The `i`-th row as the server has it. */
  ghost predicate IsServerRow(m: Message, hist: seq<HistMsg>, i: nat)
    requires i < |hist|
  {
    && m.id == HistId(i) && !m.running
    && m.role == hist[i].role && m.text == hist[i].text && m.cost == hist[i].cost && m.output == hist[i].output
    && m.prevRole == if i > 0 then Some(hist[i - 1].role) else None
  }

  /** So many rows pass for the server's, and no more. */
  ghost predicate PassUpTo(rows: Rows, hist: seq<HistMsg>, kept: nat) {
    && kept <= |rows| && kept <= |hist|
    && (forall i :: 0 <= i < kept ==> PassesFor(rows[i], hist[i]))
    && (kept < |rows| && kept < |hist| ==> !PassesFor(rows[kept], hist[kept]))
  }

  /** `rows` are the server's own, from its `from`-th on. */
  ghost predicate ServersOwn(rows: Rows, hist: seq<HistMsg>, from: nat) {
    from + |rows| == |hist| && forall i: nat :: i < |rows| ==> IsServerRow(rows[i], hist, from + i)
  }

  /**
    `q` is `p` after a load: the rows that pass for the server's are kept; the rest are the
    server's own, the first at once and the others queued.
   */
  ghost predicate Loads(p: Pane, hist: seq<HistMsg>, kept: nat, q: Pane) {
    && PassUpTo(p.messages, hist, kept) && q.status == p.status && q.replaying == p.replaying
    && if kept == |hist| then
         && q.staggerQueue == []
         && q.messages == if p.status.StreamingStatus? || p.replaying.Some? then p.messages else p.messages[..kept]
       else
         && |q.messages| == kept + 1 && q.messages[..kept] == p.messages[..kept]
         && IsServerRow(q.messages[kept], hist, kept) && ServersOwn(q.staggerQueue, hist, kept + 1)
  }

  lemma ServersOwnFrom(hist: seq<HistMsg>, from: nat)
    requires from <= |hist|
    ensures ServersOwn(ServerRows(hist)[from..], hist, from)
  {}

  lemma LoadFields(p: Pane, hist: seq<HistMsg>)
    ensures exists kept: nat :: Loads(p, hist, kept, Load(p, hist))
  {
    var kept := Common(p.messages, ServerRows(hist));
    CommonIsLongest(p.messages, ServerRows(hist), 0);
    assert PassUpTo(p.messages, hist, kept);
    if kept < |hist| {
      ServersOwnFrom(hist, kept + 1);
    }
    assert Loads(p, hist, kept, Load(p, hist));
  }

  /**
    What an idle load and a full drain show, field by field: the rows that pass for the server's,
    as far as they do, and from there on the server's own, tool rows with their outputs, unless a
    kept row has the id of one of these.
   */
  lemma LoadedFields(p: Pane, hist: seq<HistMsg>) returns (kept: nat)
    requires !p.status.StreamingStatus? && p.replaying.None?
    ensures PassUpTo(p.messages, hist, kept)
    ensures (forall i :: 0 <= i < kept && p.messages[i].id.HistId? ==> !(kept < p.messages[i].id.index < |hist|)) ==>
              var rows := Drain(Load(p, hist)).messages;
              && |rows| == |hist| && rows[..kept] == p.messages[..kept]
              && forall i :: kept <= i < |hist| ==> IsServerRow(rows[i], hist, i)
  {
    kept := Common(p.messages, ServerRows(hist));
    CommonIsLongest(p.messages, ServerRows(hist), 0);
    LoadedRows(p, hist);
    ServersFrom(p.messages, hist, kept);
    KeptIs(p.messages, hist, kept);
  }

  lemma KeptIs(cur: Rows, hist: seq<HistMsg>, kept: nat)
    requires kept <= |cur|
    ensures NoClash(cur[..kept], hist) <==>
              forall i :: 0 <= i < kept && cur[i].id.HistId? ==> !(kept < cur[i].id.index < |hist|)
  {
    assert forall i :: 0 <= i < kept ==> cur[..kept][i] == cur[i];
  }

  lemma ServersFrom(cur: Rows, hist: seq<HistMsg>, kept: nat)
    requires kept <= |cur| && kept <= |hist|
    ensures var rows := cur[..kept] + ServerRows(hist)[kept..];
            && |rows| == |hist| && rows[..kept] == cur[..kept]
            && forall i :: kept <= i < |hist| ==> IsServerRow(rows[i], hist, i)
  {
  }

  /** While a turn is streamed, rows ahead of the server's are kept. */
  lemma LiveRowsAreKept(p: Pane, hist: seq<HistMsg>)
    requires (p.status.StreamingStatus? || p.replaying.Some?) && |hist| <= |p.messages|
    requires forall i :: 0 <= i < |hist| ==> PassesFor(p.messages[i], hist[i])
    ensures Load(p, hist).messages == p.messages
  {
    CommonIsLongest(p.messages, ServerRows(hist), 0);
  }

  /** Loading the same history again changes nothing. */
  lemma ReconcileIsIdempotent(p: Pane, hist: seq<HistMsg>)
    requires p.staggerQueue == [] && Reconciled(p.messages, hist)
    ensures Load(p, hist) == p
  {
    CommonIsLongest(p.messages, ServerRows(hist), 0);
  }

  // ── Why ids never clash ─────────────────────────────────────────────────────

  function RoleBefore(rows: Rows, i: nat): Option<RowRole>
    requires i <= |rows|
  {
    if i > 0 then Some(rows[i - 1].role) else None
  }

  /** A history id sits only at its own index, and every row knows the role before it. */
  ghost predicate InPlace(rows: Rows) {
    && (forall i :: 0 <= i < |rows| && rows[i].id.HistId? ==> rows[i].id.index == i)
    && (forall i :: 0 <= i < |rows| ==> rows[i].prevRole == RoleBefore(rows, i))
  }

  /** The rows on screen with those still queued after them, and the shadow. */
  ghost predicate PaneInPlace(p: Pane) {
    && InPlace(p.messages + p.staggerQueue)
    && (forall m <- p.staggerQueue :: m.id.HistId?)
    && (p.replaying.Some? ==> InPlace(p.replaying.value))
  }

  lemma InPlacePrefix(rows: Rows, n: nat)
    requires InPlace(rows) && n <= |rows|
    ensures InPlace(rows[..n])
  {}

  lemma InPlaceFront(front: Rows, back: Rows)
    requires InPlace(front + back)
    ensures InPlace(front)
  {
    InPlacePrefix(front + back, |front|);
    assert (front + back)[..|front|] == front;
  }

  /** Rows with the same ids, roles and previous roles. */
  lemma InPlaceSame(rows: Rows, others: Rows)
    requires InPlace(rows) && |others| == |rows|
    requires forall i :: 0 <= i < |rows| ==>
      others[i].id == rows[i].id && others[i].role == rows[i].role && others[i].prevRole == rows[i].prevRole
    ensures InPlace(others)
  {}

  lemma InPlaceAppend(rows: Rows, m: Message)
    requires InPlace(rows) && !m.id.HistId?
    ensures InPlace(AppendMsg(rows, m))
  {}

  lemma ServerRowsInPlace(hist: seq<HistMsg>)
    ensures InPlace(ServerRows(hist)) && forall m <- ServerRows(hist) :: m.id.HistId?
  {}

  lemma {:induction false} StampCostSame(rows: Rows, n: nat, cost: nat)
    requires n <= |rows| && InPlace(rows)
    ensures InPlace(ChatPanes.StampCost(rows, n, cost))
  {
    if n > 0 && rows[n - 1].role != AssistantRow {
      StampCostSame(rows, n - 1, cost);
    } else if n > 0 {
      InPlaceSame(rows, ChatPanes.StampCost(rows, n, cost));
    }
  }

  lemma {:induction false} CutInPlace(rows: Rows, n: nat)
    requires n <= |rows| && InPlace(rows)
    ensures InPlace(AnchorCut(rows, n))
  {
    if n > 0 {
      if IsAnchor(rows[n - 1].role) {
        InPlacePrefix(rows, n);
      } else {
        CutInPlace(rows, n - 1);
      }
    }
  }

  lemma {:induction false} NothingDeduped(queue: Rows, rows: Rows)
    requires forall m <- queue :: !HasId(rows, m.id)
    ensures NotIn(queue, rows) == queue
  {
    if queue != [] {
      assert queue[0] in queue;
      NothingDeduped(queue[1..], rows);
    }
  }

  /** A history id is found once at most. */
  lemma OnlyThere(rows: Rows, i: nat, j: nat)
    requires InPlace(rows) && i < |rows| && j < |rows|
    requires rows[i].id == rows[j].id && rows[i].id.HistId?
    ensures i == j
  {}

  /** No queued row is dropped by the dedupe: when a replay folds the queue in, it all goes in. */
  lemma QueueIsFoldedIn(p: Pane)
    requires PaneInPlace(p)
    ensures Merged(p) == p.messages + p.staggerQueue
  {
    var all := p.messages + p.staggerQueue;
    forall m | m in p.staggerQueue ensures !HasId(p.messages, m.id) {
      var k :| 0 <= k < |p.staggerQueue| && p.staggerQueue[k] == m;
      assert all[|p.messages| + k] == m && m.id.HistId?;
      if HasId(p.messages, m.id) {
        var i :| 0 <= i < |p.messages| && p.messages[i].id == m.id;
        OnlyThere(all, i, |p.messages| + k);
      }
    }
    NothingDeduped(p.staggerQueue, p.messages);
  }

  /** A prefix that matches the server's, then the server's rows. */
  lemma MergeInPlace(cur: Rows, hist: seq<HistMsg>, common: nat)
    requires InPlace(cur) && common <= |cur| && common <= |hist|
    requires forall i :: 0 <= i < common ==> SameEvent(cur[i], ServerRows(hist)[i])
    ensures InPlace(cur[..common] + ServerRows(hist)[common..])
  {
    var msgs := ServerRows(hist);
    var all := cur[..common] + msgs[common..];
    forall i | 0 <= i < |all| ensures all[i].prevRole == RoleBefore(all, i) {
      if i < common {
        assert all[i] == cur[i] && RoleBefore(all, i) == RoleBefore(cur, i);
      } else {
        assert all[i] == msgs[i];
        if i > 0 {
          assert SameEvent(all[i - 1], msgs[i - 1]);
        }
      }
    }
  }

  /** A list and a queue that together are in place. */
  lemma SplitInPlace(q: Pane, all: Rows)
    requires InPlace(all) && q.messages + q.staggerQueue == all
    requires (forall m <- q.staggerQueue :: m.id.HistId?) && (q.replaying.Some? ==> InPlace(q.replaying.value))
    ensures PaneInPlace(q)
  {}

  lemma LongerLoadKeepsInPlace(p: Pane, q: Pane, hist: seq<HistMsg>, common: nat)
    requires InPlace(p.messages) && (p.replaying.Some? ==> InPlace(p.replaying.value))
    requires common <= |p.messages| && common < |hist|
    requires forall i :: 0 <= i < common ==> SameEvent(p.messages[i], ServerRows(hist)[i])
    requires q == p.(messages := p.messages[..common] + [ServerRows(hist)[common]],
                     staggerQueue := ServerRows(hist)[common + 1..])
    ensures PaneInPlace(q)
  {
    MergeInPlace(p.messages, hist, common);
    Rejoined(p.messages, ServerRows(hist), common);
    ServerRowsInPlace(hist);
    SplitInPlace(q, p.messages[..common] + ServerRows(hist)[common..]);
  }

  lemma ShorterLoadKeepsInPlace(p: Pane, q: Pane, common: nat)
    requires InPlace(p.messages) && (p.replaying.Some? ==> InPlace(p.replaying.value))
    requires common <= |p.messages| && q.staggerQueue == [] && q.replaying == p.replaying
    requires q.messages == p.messages || q.messages == p.messages[..common]
    ensures PaneInPlace(q)
  {
    InPlacePrefix(p.messages, common);
    EmptyBack(q.messages);
    SplitInPlace(q, q.messages);
  }

  lemma LoadKeepsInPlace(p: Pane, hist: seq<HistMsg>)
    requires PaneInPlace(p)
    ensures PaneInPlace(Load(p, hist))
  {
    var common := Common(p.messages, ServerRows(hist));
    InPlaceFront(p.messages, p.staggerQueue);
    if common < |hist| {
      CommonIsLongest(p.messages, ServerRows(hist), 0);
      LongerLoadKeepsInPlace(p, Load(p, hist), hist, common);
    } else {
      ShorterLoadKeepsInPlace(p, Load(p, hist), common);
    }
  }

  lemma EmptyBack(rows: Rows)
    ensures rows + [] == rows
  {}

  lemma TickKeepsInPlace(p: Pane)
    requires PaneInPlace(p)
    ensures PaneInPlace(Tick(p))
    ensures p.staggerQueue != [] ==> Tick(p).messages == p.messages + [p.staggerQueue[0]]
  {
    if p.staggerQueue != [] {
      var next := p.staggerQueue[0];
      var all := p.messages + p.staggerQueue;
      assert next in p.staggerQueue && all[|p.messages|] == next;
      if HasId(p.messages, next.id) {
        var i :| 0 <= i < |p.messages| && p.messages[i].id == next.id;
        OnlyThere(all, i, |p.messages|);
      }
      assert p.messages + [next] + p.staggerQueue[1..] == all;
    }
  }

  lemma ReadyKeepsInPlace(p: Pane, resumed: bool)
    requires PaneInPlace(p)
    ensures PaneInPlace(Handle(p, Ready(resumed)))
  {
    if resumed {
      QueueIsFoldedIn(p);
      var cleaned := StopRunning(Merged(p));
      InPlaceSame(Merged(p), cleaned);
      CutInPlace(cleaned, |cleaned|);
      assert cleaned + [] == cleaned;
    }
  }

  /** An update of the current list that keeps it in place. */
  ghost predicate Updated(p: Pane, q: Pane, rows: Rows) {
    && q.staggerQueue == p.staggerQueue
    && q.messages == (if p.replaying.Some? then p.messages else rows)
    && q.replaying == (if p.replaying.Some? then Some(rows) else None)
  }

  lemma UpdateKeepsInPlace(p: Pane, q: Pane, rows: Rows)
    requires PaneInPlace(p) && p.staggerQueue == [] && InPlace(rows) && Updated(p, q, rows)
    ensures PaneInPlace(q)
  {
    assert p.messages + [] == p.messages && rows + [] == rows;
  }

  /** What each kind of event does to the current list. */
  function RowsAfter(p: Pane, e: Event): Rows {
    var rows := Target(p);
    var stopped := StopRunning(rows);
    match e
    case TextChunk(chunk) =>
      if p.hasAssistant then AddText(rows, p.streamingId, chunk)
      else AppendMsg(rows, NewRow(p.streamingId, AssistantRow, chunk))
    case ToolStarted(id, tool) => AppendMsg(rows, NewRow(ToolId(id), ToolRow, tool).(running := !AnyRunning(rows)))
    case ToolLine(id, line) => AddLine(rows, ToolId(id), line)
    case ToolFinished(id, output) => FinishTool(rows, ToolId(id), output)
    case TurnDone(cost) => ChatPanes.StampCost(stopped, |stopped|, cost)
    case TurnInterrupted(cost) =>
      AppendMsg(ChatPanes.StampCost(stopped, |stopped|, cost), NewRow(Uid(p.nextUid), InterruptedRow, "interrupted"))
    case TurnFailed(message) => AppendMsg(stopped, NewRow(Uid(p.nextUid), ErrorRow, message))
    case BgCompleted(taskId, text) =>
      if HasId(rows, BgId(taskId)) then rows else AppendMsg(rows, NewRow(BgId(taskId), BgCompleteRow, text))
    case BgProgressed(text) => AppendMsg(rows, NewRow(Uid(p.nextUid), BgProgressRow, text))
    case PeerMessaged(text) => AppendMsg(rows, NewRow(Uid(p.nextUid), PeerMessageRow, text))
    case _ => rows
  }

  lemma EventUpdates(p: Pane, e: Event)
    requires !e.Ready? && !e.ReplayEnd? && p.streamingId.Uid?
    ensures Updated(p, Handle(p, e), RowsAfter(p, e)) && Handle(p, e).streamingId.Uid?
  {}

  lemma FinishInPlace(rows: Rows, id: Id, output: string)
    requires InPlace(rows)
    ensures InPlace(FinishTool(rows, id, output))
  {
    InPlaceSame(rows, FinishTool(rows, id, output));
  }

  lemma RowsAfterInPlace(p: Pane, e: Event)
    requires InPlace(Target(p)) && p.streamingId.Uid?
    ensures InPlace(RowsAfter(p, e))
  {
    var rows := Target(p);
    match e {
      case TextChunk(chunk) =>
        if p.hasAssistant {
          InPlaceSame(rows, AddText(rows, p.streamingId, chunk));
        } else {
          InPlaceAppend(rows, NewRow(p.streamingId, AssistantRow, chunk));
        }
      case ToolStarted(id, tool) =>
        InPlaceAppend(rows, NewRow(ToolId(id), ToolRow, tool).(running := !AnyRunning(rows)));
      case ToolLine(id, line) => InPlaceSame(rows, AddLine(rows, ToolId(id), line));
      case ToolFinished(id, output) => FinishInPlace(rows, ToolId(id), output);
      case TurnDone(cost) => StoppedInPlace(rows, cost);
      case TurnInterrupted(cost) =>
        StoppedInPlace(rows, cost);
        var stopped := StopRunning(rows);
        InPlaceAppend(ChatPanes.StampCost(stopped, |stopped|, cost),
                      NewRow(Uid(p.nextUid), InterruptedRow, "interrupted"));
      case TurnFailed(message) =>
        StoppedInPlace(rows, 0);
        InPlaceAppend(StopRunning(rows), NewRow(Uid(p.nextUid), ErrorRow, message));
      case BgCompleted(taskId, text) => InPlaceAppend(rows, NewRow(BgId(taskId), BgCompleteRow, text));
      case BgProgressed(text) => InPlaceAppend(rows, NewRow(Uid(p.nextUid), BgProgressRow, text));
      case PeerMessaged(text) => InPlaceAppend(rows, NewRow(Uid(p.nextUid), PeerMessageRow, text));
      case _ =>
    }
  }

  lemma TargetInPlace(p: Pane)
    requires PaneInPlace(p) && p.staggerQueue == []
    ensures InPlace(Target(p))
  {
    assert p.messages + [] == p.messages;
  }

  /** With nothing queued, every stream event keeps ids and roles in place. */
  lemma EventKeepsInPlace(p: Pane, e: Event)
    requires PaneInPlace(p) && (p.staggerQueue == [] || e.Ready?)
    requires p.streamingId.Uid?
    ensures PaneInPlace(Handle(p, e)) && Handle(p, e).streamingId.Uid?
  {
    if e.Ready? {
      ReadyKeepsInPlace(p, e.resumed);
    } else {
      TargetInPlace(p);
      if e.ReplayEnd? {
        assert Target(p) + [] == Target(p);
      } else {
        EventUpdates(p, e);
        RowsAfterInPlace(p, e);
        UpdateKeepsInPlace(p, Handle(p, e), RowsAfter(p, e));
      }
    }
  }

  lemma StoppedInPlace(rows: Rows, cost: nat)
    requires InPlace(rows)
    ensures InPlace(StopRunning(rows))
    ensures InPlace(ChatPanes.StampCost(StopRunning(rows), |rows|, cost))
  {
    InPlaceSame(rows, StopRunning(rows));
    StampCostSame(StopRunning(rows), |rows|, cost);
  }

  // ── Runs of a pane ──────────────────────────────────────────────────────────

  /** All that changes the rows: server events, loads, ticks, the client's own messages and clears. */
  datatype Step =
    | Streamed(e: Event)
    | Loaded(hist: seq<HistMsg>)
    | Ticked
    | Sent(text: string, connected: bool)
    | Emptied

  function Next(p: Pane, s: Step): Pane {
    match s
    case Streamed(e) => Handle(p, e)
    case Loaded(hist) => Load(p, hist)
    case Ticked => Tick(p)
    case Sent(text, connected) => Send(p, text, connected)
    case Emptied => Cleared(p)
  }

  /** Steps that may come while rows are queued. */
  predicate Harmless(s: Step) {
    s.Loaded? || s.Ticked? || (s.Streamed? && s.e.Ready?)
  }

  /** Nothing else comes while rows are queued. */
  ghost predicate Undisturbed(p: Pane, steps: seq<Step>)
    decreases |steps|
  {
    steps == [] ||
    ((p.staggerQueue == [] || Harmless(steps[0])) && Undisturbed(Next(p, steps[0]), steps[1..]))
  }

  /** The client's own rows get fresh ids at the end. */
  lemma SendKeepsInPlace(p: Pane, text: string, connected: bool)
    requires PaneInPlace(p) && p.staggerQueue == [] && p.streamingId.Uid?
    ensures PaneInPlace(Send(p, text, connected)) && Send(p, text, connected).streamingId.Uid?
  {
    EmptyBack(p.messages);
    var rows := AppendMsg(p.messages, NewRow(Uid(p.nextUid), UserRow, text));
    InPlaceAppend(p.messages, NewRow(Uid(p.nextUid), UserRow, text));
    InPlaceAppend(rows, NewRow(Uid(p.nextUid + 2), ErrorRow, "network error"));
    EmptyBack(Send(p, text, connected).messages);
  }

  lemma ClearKeepsInPlace(p: Pane)
    requires PaneInPlace(p) && p.staggerQueue == []
    ensures PaneInPlace(Cleared(p))
  {}

  function RunPane(p: Pane, steps: seq<Step>): Pane
    decreases |steps|
  {
    if steps == [] then p else RunPane(Next(p, steps[0]), steps[1..])
  }

  lemma {:induction false} RunKeepsInPlace(p: Pane, steps: seq<Step>)
    requires PaneInPlace(p) && p.streamingId.Uid? && Undisturbed(p, steps)
    ensures PaneInPlace(RunPane(p, steps)) && RunPane(p, steps).streamingId.Uid?
    decreases |steps|
  {
    if steps != [] {
      match steps[0] {
        case Streamed(e) => EventKeepsInPlace(p, e);
        case Loaded(hist) => LoadKeepsInPlace(p, hist);
        case Ticked => TickKeepsInPlace(p);
        case Sent(text, connected) => SendKeepsInPlace(p, text, connected);
        case Emptied => ClearKeepsInPlace(p);
      }
      RunKeepsInPlace(Next(p, steps[0]), steps[1..]);
    }
  }

  lemma {:induction false} DrainKeepsInPlace(p: Pane)
    requires PaneInPlace(p)
    ensures PaneInPlace(Drain(p))
    decreases |p.staggerQueue|
  {
    if p.staggerQueue != [] {
      TickKeepsInPlace(p);
      DrainKeepsInPlace(Tick(p));
    }
  }

  /**
    A pane that started in place, an empty one say, after any undisturbed run of events,
    loads, ticks, messages of its own and clears: an idle load and a full drain show the server's
    history, keep the common prefix verbatim and every `prevRole` right, and a second load
    changes nothing.
   */
  lemma ReconcileAlwaysWorks(start: Pane, steps: seq<Step>, hist: seq<HistMsg>)
    requires PaneInPlace(start) && start.streamingId.Uid?
    requires Undisturbed(start, steps) && !Busy(RunPane(start, steps))
    ensures var p := RunPane(start, steps);
            var q := Drain(Load(p, hist));
            var common := Common(p.messages, ServerRows(hist));
            && Reconciled(q.messages, hist)
            && q.messages == p.messages[..common] + ServerRows(hist)[common..]
            && InPlace(q.messages)
            && Load(q, hist) == q
  {
    RunKeepsInPlace(start, steps);
    var p := RunPane(start, steps);
    var q := Drain(Load(p, hist));
    var common := Common(p.messages, ServerRows(hist));
    forall i | 0 <= i < common ensures p.messages[..common][i].id.HistId? ==> p.messages[..common][i].id.index == i {
      assert (p.messages + p.staggerQueue)[i] == p.messages[i];
    }
    assert Kept(p, hist);
    LoadedRows(p, hist);
    ReconcileIsCorrect(p, hist);
    LoadKeepsInPlace(p, hist);
    DrainKeepsInPlace(Load(p, hist));
    assert q.messages + q.staggerQueue == q.messages;
    ReconcileIsIdempotent(q, hist);
  }

  // ── The row cache ───────────────────────────────────────────────────────────

  const MAX_CACHED := 500

  /** What the cache keeps of the rows, and what a pane makes of it on its next start. */
  function Cached(rows: Rows): (r: Rows)
    ensures |r| == if |rows| > MAX_CACHED then MAX_CACHED else |rows|
  {
    var trimmed := if |rows| > MAX_CACHED then rows[|rows| - MAX_CACHED..] else rows;
    seq(|trimmed|, i requires 0 <= i < |trimmed| =>
      trimmed[i].(running := false, prevRole := if i > 0 then Some(trimmed[i - 1].role) else None))
  }

  /** The cache gives back the newest 500 rows, stopped, with their previous roles; nothing else changes. */
  lemma CacheGivesBack(rows: Rows)
    ensures var kept := Cached(rows);
            && |kept| == (if |rows| < 500 then |rows| else 500)
            && forall i :: 0 <= i < |kept| ==>
                 kept[i] == rows[|rows| - |kept| + i].(running := false,
                                                       prevRole := if i > 0 then Some(kept[i - 1].role) else None)
  {}

  /** Rows out of the cache are in place exactly when no row was trimmed, or none kept has a history id. */
  lemma CacheInPlace(rows: Rows)
    requires InPlace(rows)
    ensures InPlace(Cached(rows)) <==>
              |rows| <= MAX_CACHED || forall i :: |rows| - MAX_CACHED <= i < |rows| ==> !rows[i].id.HistId?
  {
    CachedRow(rows);
    var kept := Cached(rows);
    var cut := |rows| - |kept|;
    if cut > 0 {
      if i :| cut <= i < |rows| && rows[i].id.HistId? {
        assert kept[i - cut].id.index == i;
      }
    }
  }

  lemma CachedRow(rows: Rows)
    ensures var kept, cut := Cached(rows), |rows| - |Cached(rows)|;
            forall i :: 0 <= i < |kept| ==> kept[i].id == rows[cut + i].id && kept[i].prevRole == RoleBefore(kept, i)
  {}

  // ── Where it does not ───────────────────────────────────────────────────────

  /** A cached list whose oldest rows were trimmed can match with ids that are not its own. */
  lemma TrimmedCacheLosesARow(p: Pane)
    requires p.messages == [NewRow(HistId(2), UserRow, "again")] && !Busy(p)
    ensures var hist := [TextHist(UserRow, "again"), TextHist(UserRow, "b"), TextHist(UserRow, "c")];
            !Reconciled(Drain(Load(p, hist)).messages, hist)
  {
    var hist := [TextHist(UserRow, "again"), TextHist(UserRow, "b"), TextHist(UserRow, "c")];
    CommonIsLongest(p.messages, ServerRows(hist), 0);
    assert SameEvent(p.messages[0], ServerRows(hist)[0]);
    assert Common(p.messages, ServerRows(hist)) == 1;
    assert p.messages[..1][0].id == HistId(2);
    ReconcileIsCorrect(p, hist);
  }

  /** Rows that agree with the server's in everything but cost. */
  ghost predicate SameButCost(rows: Rows, hist: seq<HistMsg>) {
    |rows| == |hist| && forall i :: 0 <= i < |rows| ==>
      rows[i].role == hist[i].role && rows[i].text == hist[i].text && rows[i].output == hist[i].output
  }

  /** For rows that agree otherwise, a reload is a no-op exactly when the costs agree, tool rows aside. */
  lemma ReloadIsNoOp(p: Pane, hist: seq<HistMsg>)
    requires p.staggerQueue == [] && SameButCost(p.messages, hist)
    ensures Load(p, hist) == p <==>
              forall i :: 0 <= i < |hist| && hist[i].role != ToolRow ==> p.messages[i].cost == hist[i].cost
  {
    var msgs := ServerRows(hist);
    var common := Common(p.messages, msgs);
    CommonIsLongest(p.messages, msgs, 0);
    if common < |hist| {
      assert !SameEvent(p.messages[common], msgs[common]);
      assert Load(p, hist).messages[common] == msgs[common];
    } else {
      forall i | 0 <= i < |hist| && hist[i].role != ToolRow ensures p.messages[i].cost == hist[i].cost {
        assert SameEvent(p.messages[i], msgs[i]);
      }
    }
  }

  /**
    The history carries the last cost only, the client every turn's: after the second turn the
    reload is not a no-op, and replaces every row from the first turn's answer on.
   */
  lemma SecondTurnIsReplaced(p: Pane, log: Log, c1: nat, c2: nat)
    requires log == [Said(User, "a"), Said(Assistant, "b"), Said(User, "c"), Said(Assistant, "d")]
    requires |p.messages| == 4
    requires p.messages[0].role == UserRow && p.messages[0].text == "a"
    requires p.messages[0].output.None? && p.messages[0].cost.None?
    requires p.messages[1].role == AssistantRow && p.messages[1].cost == Some(c1)
    ensures Common(p.messages, ServerRows(HistoryRows(log, Some(c2)))) == 1
  {
    TwoTurnHistory(log, c2);
    CommonIsLongest(p.messages, ServerRows(HistoryRows(log, Some(c2))), 0);
    assert SameEvent(p.messages[0], ServerRows(HistoryRows(log, Some(c2)))[0]);
  }

  function Said(role: Role, text: string): ApiMessage {
    ApiMessage(role, [Text(text)])
  }

  predicate IsSaid(m: ApiMessage) {
    && |m.content| == 1 && m.content[0].Text? && m.content[0].text != ""
    && (m.role == User || m.role == Assistant)
  }

  function SaidHist(m: ApiMessage): HistMsg {
    TextHist(if m.role == User then UserRow else AssistantRow,
             if m.content != [] && m.content[0].Text? then m.content[0].text else "")
  }

  lemma SaidRow(m: ApiMessage, outputs: map<string, string>)
    requires IsSaid(m)
    ensures MessageRows(m, outputs) == [SaidHist(m)]
  {
    var text := m.content[0].text;
    assert JoinedText(m.content) == text by {
      assert m.content[1..] == [] && text + "" == text;
    }
    assert ToolRows(m.content, 1, outputs) == ToolRows(m.content, 0, outputs) + [];
  }

  function SaidHists(log: Log): seq<HistMsg> {
    seq(|log|, i requires 0 <= i < |log| => SaidHist(log[i]))
  }

  lemma SaidSnoc(log: Log)
    requires log != []
    ensures SaidHists(log) == SaidHists(log[..|log| - 1]) + [SaidHist(log[|log| - 1])]
  {}

  /** The rows of a log of plain user and assistant messages. */
  lemma {:induction false} SaidRows(log: Log, outputs: map<string, string>)
    requires forall i :: 0 <= i < |log| ==> IsSaid(log[i])
    ensures LogRows(log, outputs) == SaidHists(log)
  {
    if log != [] {
      SaidRows(log[..|log| - 1], outputs);
      SaidRow(log[|log| - 1], outputs);
      SaidSnoc(log);
    }
  }

  lemma LastAnswerCost(rows: seq<HistMsg>, cost: nat)
    requires rows != [] && rows[|rows| - 1].role == AssistantRow
    ensures WithCost(rows, |rows|, cost) == rows[|rows| - 1 := rows[|rows| - 1].(cost := Some(cost))]
  {}

  lemma FourSaid(log: Log)
    requires log == [Said(User, "a"), Said(Assistant, "b"), Said(User, "c"), Said(Assistant, "d")]
    ensures SaidHists(log)
         == [TextHist(UserRow, "a"), TextHist(AssistantRow, "b"), TextHist(UserRow, "c"), TextHist(AssistantRow, "d")]
    ensures forall i :: 0 <= i < |log| ==> IsSaid(log[i])
  {}

  lemma TwoTurnHistory(log: Log, c2: nat)
    requires log == [Said(User, "a"), Said(Assistant, "b"), Said(User, "c"), Said(Assistant, "d")]
    ensures HistoryRows(log, Some(c2))
         == [TextHist(UserRow, "a"), TextHist(AssistantRow, "b"), TextHist(UserRow, "c"),
             TextHist(AssistantRow, "d").(cost := Some(c2))]
  {
    var outputs := Outputs(log);
    FourSaid(log);
    SaidRows(log, outputs);
    var rows := LogRows(log, outputs);
    LastAnswerCost(rows, c2);
    assert HistoryRows(log, Some(c2)) == WithCost(rows, |rows|, c2);
  }
}
