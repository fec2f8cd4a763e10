/**
  The bounded live output of a background task and the monitor reading it
  (core/src/background.rs, lair/src/agent.rs).
 */
module TaskOutputs {
  import opened Prelude

  const MAX_TASK_OUTPUT := 65536

  /** The last `n` characters. */
  function Last(s: string, n: nat): (r: string)
    ensures |r| == if |s| <= n then |s| else n
  {
    if |s| <= n then s else s[|s| - n..]
  }

  /** What a reader that saw `cursor` characters of `written` can still get. */
  function Since(written: string, cursor: nat): string {
    if |written| <= cursor then ""
    else written[if |written| - cursor > MAX_TASK_OUTPUT then |written| - MAX_TASK_OUTPUT else cursor..]
  }

  /** Cutting to the cap now and again after more output is cutting once. */
  lemma CutTwice(s: string, more: string, n: nat)
    ensures Last(Last(s, n) + more, n) == Last(s + more, n)
  {
    if |s| > n {
      assert s + more == s[..|s| - n] + (s[|s| - n..] + more);
    }
  }

  class TaskOutput {
    var tail: string
    var total: nat
    /** Everything ever appended. */
    ghost var written: string

    ghost predicate Valid()
      reads this
    {
      tail == Last(written, MAX_TASK_OUTPUT) && total == |written|
    }

    constructor ()
      ensures Valid() && written == ""
    {
      tail, total, written := "", 0, "";
    }

    method Append(line: string)
      requires Valid()
      modifies this
      ensures Valid() && written == old(written) + line + "\n"
      ensures tail == if |written| > 65536 then written[|written| - 65536..] else written
    {
      CutTwice(written, line + "\n", MAX_TASK_OUTPUT);
      Assoc(written, line, "\n");
      Assoc(tail, line, "\n");
      written := written + line + "\n";
      tail := tail + line;
      tail := tail + "\n";
      total := total + |line| + 1;
      var n := |tail|;
      if n > MAX_TASK_OUTPUT {
        tail := tail[n - MAX_TASK_OUTPUT..];
      }
    }

    method ReadSince(cursor: nat) returns (text: string, watermark: nat)
      requires Valid()
      ensures text == Since(written, cursor)
      ensures text == if cursor >= |written| then ""
                      else if |written| - cursor > 65536 then written[|written| - 65536..] else written[cursor..]
      ensures watermark == |written|
    {
      if total <= cursor {
        return "", total;
      }
      var unread := total - cursor;
      var avail := |tail|;
      text := if unread >= avail then tail else tail[avail - unread..];
      watermark := total;
    }
  }

  // ── A monitor's successive reads ────────────────────────────────────────────

  /** What a task and its monitor do in turn. */
  datatype Act = Printed(line: string) | Polled

  /** What was written, how far the monitor has read, and all it was given. */
  datatype Watch = Watch(written: string, cursor: nat, got: string)

  function Watched(acts: seq<Act>): Watch {
    if acts == [] then Watch("", 0, "")
    else
      var w := Watched(acts[..|acts| - 1]);
      match acts[|acts| - 1]
      case Printed(line) => w.(written := w.written + line + "\n")
      case Polled => Watch(w.written, |w.written|, w.got + Since(w.written, w.cursor))
  }

  /** The monitor's next read comes too late for the cap. */
  predicate Overrun(w: Watch) {
    |w.written| - w.cursor > MAX_TASK_OUTPUT
  }

  ghost predicate NeverOverrun(acts: seq<Act>) {
    forall i :: 0 <= i < |acts| && acts[i].Polled? ==> !Overrun(Watched(acts[..i]))
  }

  lemma OverrunSnoc(acts: seq<Act>)
    requires acts != []
    ensures var front := acts[..|acts| - 1];
            NeverOverrun(acts) <==> NeverOverrun(front) && (acts[|acts| - 1].Polled? ==> !Overrun(Watched(front)))
  {
    var n := |acts| - 1;
    var front := acts[..n];
    if NeverOverrun(acts) {
      forall i | 0 <= i < n && front[i].Polled? ensures !Overrun(Watched(front[..i])) {
        assert acts[i].Polled? && front[..i] == acts[..i];
      }
    }
    if NeverOverrun(front) && (acts[n].Polled? ==> !Overrun(Watched(front))) {
      forall i | 0 <= i < |acts| && acts[i].Polled? ensures !Overrun(Watched(acts[..i])) {
        if i < n {
          assert front[i].Polled? && front[..i] == acts[..i];
        }
      }
    }
  }

  lemma PollExact(w: Watch)
    requires w.cursor <= |w.written| && w.got == w.written[..w.cursor]
    ensures !Overrun(w) ==> w.got + Since(w.written, w.cursor) == w.written
    ensures Overrun(w) ==> |w.got + Since(w.written, w.cursor)| < |w.written|
  {}

  /**
    At any moment, whatever is printed and polled: the reads so far concatenate to exactly the
    output up to the cursor if no gap between reads exceeded the cap, and miss some otherwise.
   */
  lemma {:induction false} ReadsConcatenate(acts: seq<Act>)
    ensures var w := Watched(acts);
            && w.cursor <= |w.written| && |w.got| <= w.cursor
            && (w.got == w.written[..w.cursor] <==> NeverOverrun(acts))
            && (|w.got| == w.cursor ==> NeverOverrun(acts))
  {
    if acts != [] {
      var front, last := acts[..|acts| - 1], acts[|acts| - 1];
      ReadsConcatenate(front);
      OverrunSnoc(acts);
      var w := Watched(front);
      if last.Printed? {
        assert (w.written + last.line + "\n")[..w.cursor] == w.written[..w.cursor];
      } else {
        if NeverOverrun(front) {
          PollExact(w);
        }
        var now := Watched(acts);
        assert now.written[..now.cursor] == now.written;
      }
    }
  }

  class Monitor {
    var cursor: nat
    /** All it was given so far. */
    ghost var got: string

    constructor ()
      ensures cursor == 0 && got == ""
    {
      cursor, got := 0, "";
    }

    /** The read of one round of `spawn_monitor`. */
    method Poll(output: TaskOutput, ghost acts: seq<Act>) returns (text: string)
      requires output.Valid() && Watched(acts) == Watch(output.written, cursor, got)
      modifies this
      ensures Watched(acts + [Polled]) == Watch(output.written, cursor, got)
      ensures got == old(got) + text
    {
      assert (acts + [Polled])[..|acts|] == acts;
      text, cursor := output.ReadSince(cursor);
      got := got + text;
    }
  }
}
