/** Cutting rows at the last user, background or peer row (the anchor scan of mobile/App.tsx). */
module Cuts {
  import opened Prelude
  import opened ChatPanes
  import opened LiveRows
  import opened TaskRows

  /** How many rows of `rows[..n]` the last anchor row leaves; all of them when there is none. */
  function CutLen(rows: seq<TaskRow>, n: nat): (len: nat)
    requires n <= |rows|
    ensures len <= |rows|
  {
    if n == 0 then |rows| else if IsAnchor(rows[n - 1].row.role) then n else CutLen(rows, n - 1)
  }

  function Cut(rows: seq<TaskRow>): (cut: seq<TaskRow>)
    ensures |cut| <= |rows| && cut == rows[..|cut|]
  {
    rows[..CutLen(rows, |rows|)]
  }

  predicate NoAnchors(rows: seq<TaskRow>) {
    forall i :: 0 <= i < |rows| ==> !IsAnchor(rows[i].row.role)
  }

  predicate EndsWithAnchor(rows: seq<TaskRow>) {
    rows != [] && IsAnchor(rows[|rows| - 1].row.role)
  }

  predicate LastAnchor(rows: seq<TaskRow>, at: nat) {
    && at < |rows| && IsAnchor(rows[at].row.role)
    && forall i :: at < i < |rows| ==> !IsAnchor(rows[i].row.role)
  }

  /** A cut takes nothing away. */
  predicate Firm(rows: seq<TaskRow>) {
    Cut(rows) == rows
  }

  lemma {:induction false} CutLenAt(rows: seq<TaskRow>, n: nat, at: nat)
    requires at < n <= |rows| && IsAnchor(rows[at].row.role)
    requires forall i :: at < i < n ==> !IsAnchor(rows[i].row.role)
    ensures CutLen(rows, n) == at + 1
  {
    if n - 1 != at {
      CutLenAt(rows, n - 1, at);
    }
  }

  lemma CutsAt(rows: seq<TaskRow>, at: nat)
    requires LastAnchor(rows, at)
    ensures Cut(rows) == rows[..at + 1]
  {
    CutLenAt(rows, |rows|, at);
  }

  lemma {:induction false} CutLenOfNone(rows: seq<TaskRow>, n: nat)
    requires n <= |rows| && forall i :: 0 <= i < n ==> !IsAnchor(rows[i].row.role)
    ensures CutLen(rows, n) == |rows|
  {
    if n > 0 {
      CutLenOfNone(rows, n - 1);
    }
  }

  lemma CutsNothing(rows: seq<TaskRow>)
    requires NoAnchors(rows)
    ensures Cut(rows) == rows
  {
    CutLenOfNone(rows, |rows|);
  }

  lemma {:induction false} FindAnchor(rows: seq<TaskRow>, n: nat, some: nat) returns (at: nat)
    requires some < n <= |rows| && IsAnchor(rows[some].row.role)
    ensures some <= at < n && IsAnchor(rows[at].row.role)
    ensures forall i :: at < i < n ==> !IsAnchor(rows[i].row.role)
  {
    if IsAnchor(rows[n - 1].row.role) {
      at := n - 1;
    } else {
      at := FindAnchor(rows, n - 1, some);
    }
  }

  /** The last anchor, at or after one that is known. */
  lemma HasLastAnchor(rows: seq<TaskRow>, some: nat) returns (at: nat)
    requires some < |rows| && IsAnchor(rows[some].row.role)
    ensures some <= at && LastAnchor(rows, at)
  {
    at := FindAnchor(rows, |rows|, some);
  }

  /** A cut takes nothing away when the last row is an anchor, or none is. */
  lemma FirmIs(rows: seq<TaskRow>)
    ensures Firm(rows) <==> EndsWithAnchor(rows) || NoAnchors(rows)
  {
    if NoAnchors(rows) {
      CutsNothing(rows);
    } else {
      var some :| 0 <= some < |rows| && IsAnchor(rows[some].row.role);
      var at := HasLastAnchor(rows, some);
      CutsAt(rows, at);
    }
  }

  lemma CutIsFirm(rows: seq<TaskRow>)
    ensures Firm(Cut(rows))
  {
    if NoAnchors(rows) {
      CutsNothing(rows);
    } else {
      var some :| 0 <= some < |rows| && IsAnchor(rows[some].row.role);
      var at := HasLastAnchor(rows, some);
      CutsAt(rows, at);
      FirmIs(Cut(rows));
    }
  }

  // ── Rows with the same roles ────────────────────────────────────────────────

  /** `b` has the roles and tasks of `a`, and perhaps more rows. */
  ghost predicate Grows(a: seq<TaskRow>, b: seq<TaskRow>) {
    && |a| <= |b|
    && forall i :: 0 <= i < |a| ==> b[i].row.role == a[i].row.role && b[i].task == a[i].task
  }

  lemma SameRolesSameCut(a: seq<TaskRow>, b: seq<TaskRow>)
    requires Grows(a, b) && |a| == |b|
    ensures |Cut(a)| == |Cut(b)| && Grows(Cut(a), Cut(b))
  {
    if NoAnchors(a) {
      CutsNothing(a);
      CutsNothing(b);
    } else {
      var some :| 0 <= some < |a| && IsAnchor(a[some].row.role);
      var at := HasLastAnchor(a, some);
      CutsAt(a, at);
      CutsAt(b, at);
    }
  }

  /** Rows that grow from rows a cut leaves alone are cut no shorter. */
  lemma CutGrows(start: seq<TaskRow>, rows: seq<TaskRow>)
    requires Firm(start) && Grows(start, rows)
    ensures Grows(start, Cut(rows))
  {
    FirmIs(start);
    if NoAnchors(rows) {
      CutsNothing(rows);
    } else {
      var some :| 0 <= some < |rows| && IsAnchor(rows[some].row.role);
      if some < |start| {
        assert IsAnchor(start[some].row.role);
        var at := HasLastAnchor(rows, |start| - 1);
        CutsAt(rows, at);
      } else {
        var at := HasLastAnchor(rows, some);
        CutsAt(rows, at);
      }
    }
  }

  /** One row more: all rows are left when it is an anchor, or when none is; otherwise as many as before. */
  lemma CutNext(rows: seq<TaskRow>, after: seq<TaskRow>)
    requires Grows(rows, after) && |after| <= |rows| + 1
    ensures if |after| > |rows| && IsAnchor(after[|rows|].row.role) then Cut(after) == after
            else if NoAnchors(rows) then NoAnchors(after) && Cut(after) == after
            else |Cut(after)| == |Cut(rows)|
  {
    if |after| > |rows| && IsAnchor(after[|rows|].row.role) {
      CutsAt(after, |rows|);
    } else if NoAnchors(rows) {
      CutsNothing(after);
    } else {
      var some :| 0 <= some < |rows| && IsAnchor(rows[some].row.role);
      var at := HasLastAnchor(rows, some);
      CutsAt(rows, at);
      CutsAt(after, at);
    }
  }
}
