/**
 * The reaper of pending songs (`delete_invalid_songs`): rows without a
 * finished duration are deleted one by one through their menu, at most
 * MAX_SONGS_TO_DELETE of them; a fifth pending row makes the call fail after
 * the first four deletions.
 */
module Reaper {
  import opened Wrappers
  import opened Constants
  import opened Duration

  /**
   * One listed row as the reaper observes it: its handle, its parsed
   * duration, whether its menu toggle is found, and whether opening that
   * menu shows the options panel and the delete entry.
   */
  datatype Row = Row(id: nat, duration: Option<int>, menuToggle: bool, menuOpens: bool, deleteEntry: bool)

  /** The result of a reaping: the verdict and the rows deleted, in order. */
  datatype ReapOutcome = ReapOutcome(ok: bool, deleted: seq<nat>)

  predicate IsPending(r: Row) { !IsFinished(r.duration) }

  predicate Deletable(r: Row) { r.menuOpens && r.deleteEntry }

  function Pending(rows: seq<Row>): (p: seq<Row>)
    ensures forall i :: 0 <= i < |p| ==> IsPending(p[i])
    ensures |p| <= |rows|
    decreases |rows|
  {
    if |rows| == 0 then []
    else (if IsPending(rows[0]) then [rows[0]] else []) + Pending(rows[1..])
  }

  function Ids(rows: seq<Row>): (r: seq<nat>)
    ensures |r| == |rows|
    ensures forall i :: 0 <= i < |rows| ==> r[i] == rows[i].id
  {
    seq(|rows|, i requires 0 <= i < |rows| => rows[i].id)
  }

  /** The deletion loop (scrape_song.py:678-703), `deleted` rows already gone. */
  function DeleteLoop(pending: seq<Row>, deleted: seq<nat>): ReapOutcome
    decreases |pending|
  {
    if |pending| == 0 then ReapOutcome(true, deleted)
    else if |deleted| >= MAX_SONGS_TO_DELETE then ReapOutcome(false, deleted)
    else if !Deletable(pending[0]) then ReapOutcome(false, deleted)
    else DeleteLoop(pending[1..], deleted + [pending[0].id])
  }

  /** `delete_invalid_songs` over the listed rows (an empty listing is nothing to do). */
  function Reap(rows: seq<Row>): ReapOutcome
  {
    var pending := Pending(rows);
    if exists i | 0 <= i < |pending| :: !pending[i].menuToggle then ReapOutcome(false, [])
    else DeleteLoop(pending, [])
  }

  /** Number of pending rows, from the first, whose deletion would go through. */
  function LeadingDeletable(pending: seq<Row>): (n: nat)
    ensures n <= |pending|
    ensures forall i :: 0 <= i < n ==> Deletable(pending[i])
    ensures n < |pending| ==> !Deletable(pending[n])
    decreases |pending|
  {
    if |pending| == 0 || !Deletable(pending[0]) then 0 else 1 + LeadingDeletable(pending[1..])
  }

  function Min(a: nat, b: nat): nat { if a <= b then a else b }

  lemma {:induction false} DeleteLoopSpec(pending: seq<Row>, deleted: seq<nat>)
    requires |deleted| <= MAX_SONGS_TO_DELETE
    ensures var r := DeleteLoop(pending, deleted);
      var n := Min(LeadingDeletable(pending), MAX_SONGS_TO_DELETE - |deleted|);
      && (r.ok <==> LeadingDeletable(pending) == |pending| && |pending| <= MAX_SONGS_TO_DELETE - |deleted|)
      && r.deleted == deleted + Ids(pending[..n])
    decreases |pending|
  {
    if |pending| > 0 && |deleted| < MAX_SONGS_TO_DELETE && Deletable(pending[0]) {
      var d := deleted + [pending[0].id];
      DeleteLoopSpec(pending[1..], d);
      var n := Min(LeadingDeletable(pending), MAX_SONGS_TO_DELETE - |deleted|);
      assert n == Min(LeadingDeletable(pending[1..]), MAX_SONGS_TO_DELETE - |d|) + 1;
      IdsCons(pending, n);
      assert deleted + Ids(pending[..n]) == d + Ids(pending[1..][..n - 1]);
    } else {
      assert pending[..0] == [];
    }
  }

  lemma IdsCons(rows: seq<Row>, n: nat)
    requires 1 <= n <= |rows|
    ensures Ids(rows[..n]) == [rows[0].id] + Ids(rows[1..][..n - 1])
  {
    assert rows[..n] == [rows[0]] + rows[1..][..n - 1];
  }

  /**
   * What a reaping achieves: it succeeds exactly when every pending row has
   * a menu toggle, there are at most MAX_SONGS_TO_DELETE of them and each can
   * be deleted; it deletes nothing when a toggle is missing, and otherwise the
   * leading deletable pending rows, at most MAX_SONGS_TO_DELETE of them.
   */
  lemma ReapSpec(rows: seq<Row>)
    ensures var p := Pending(rows);
      var togglesFound := forall i :: 0 <= i < |p| ==> p[i].menuToggle;
      && (Reap(rows).ok <==> togglesFound && |p| <= MAX_SONGS_TO_DELETE && forall i :: 0 <= i < |p| ==> Deletable(p[i]))
      && (!togglesFound ==> Reap(rows).deleted == [])
      && (togglesFound ==> Reap(rows).deleted == Ids(p[..Min(LeadingDeletable(p), MAX_SONGS_TO_DELETE)]))
      && |Reap(rows).deleted| <= MAX_SONGS_TO_DELETE
  {
    var p := Pending(rows);
    DeleteLoopSpec(p, []);
  }

  /** Nothing pending (including an empty listing) is an immediate success. */
  lemma NothingPendingSucceeds(rows: seq<Row>)
    requires forall i :: 0 <= i < |rows| ==> !IsPending(rows[i])
    ensures Reap(rows) == ReapOutcome(true, [])
  {
    NonePending(rows);
  }

  lemma NonePending(rows: seq<Row>)
    requires forall i :: 0 <= i < |rows| ==> !IsPending(rows[i])
    ensures Pending(rows) == []
  {
  }

  lemma {:induction false} AllPending(rows: seq<Row>)
    requires forall i :: 0 <= i < |rows| ==> IsPending(rows[i])
    ensures Pending(rows) == rows
    decreases |rows|
  {
    if |rows| > 0 {
      AllPending(rows[1..]);
      assert [rows[0]] + rows[1..] == rows;
    }
  }

  lemma {:induction false} AllDeletable(rows: seq<Row>)
    requires forall i :: 0 <= i < |rows| ==> Deletable(rows[i])
    ensures LeadingDeletable(rows) == |rows|
    decreases |rows|
  {
    if |rows| > 0 {
      AllDeletable(rows[1..]);
    }
  }

  /**
   * When every listed row is pending and deletable, the first
   * MAX_SONGS_TO_DELETE of them are deleted, and the call succeeds exactly
   * when there were no more than that.
   */
  lemma AllDeletablePending(rows: seq<Row>)
    requires forall i :: 0 <= i < |rows| ==> IsPending(rows[i]) && rows[i].menuToggle && Deletable(rows[i])
    ensures Reap(rows) == ReapOutcome(|rows| <= MAX_SONGS_TO_DELETE, Ids(rows[..Min(|rows|, MAX_SONGS_TO_DELETE)]))
  {
    AllPending(rows);
    AllDeletable(rows);
    ReapSpec(rows);
  }

  /** A pending row whose deletion goes through. */
  function DeletablePendingRow(id: nat): Row {
    Row(id, None, true, true, true)
  }

  /** Three pending rows that can all be deleted are all deleted. */
  lemma ThreePendingAreDeleted()
    ensures Reap([DeletablePendingRow(1), DeletablePendingRow(2), DeletablePendingRow(3)])
            == ReapOutcome(true, [1, 2, 3])
  {
    var rows := [DeletablePendingRow(1), DeletablePendingRow(2), DeletablePendingRow(3)];
    AllDeletablePending(rows);
    assert rows[..3] == rows;
  }

  /**
   * Five pending rows: the first four are deleted before the call fails
   * (the source deletes before it gives up, not up front).
   */
  lemma FivePendingFailAfterFour()
    ensures Reap([DeletablePendingRow(1), DeletablePendingRow(2), DeletablePendingRow(3),
                  DeletablePendingRow(4), DeletablePendingRow(5)])
            == ReapOutcome(false, [1, 2, 3, 4])
  {
    var rows := [DeletablePendingRow(1), DeletablePendingRow(2), DeletablePendingRow(3),
                 DeletablePendingRow(4), DeletablePendingRow(5)];
    AllDeletablePending(rows);
    assert rows[..4] == rows[..Min(|rows|, MAX_SONGS_TO_DELETE)];
    assert Ids(rows[..4]) == [1, 2, 3, 4];
  }
}
