/** Sequences of committed rows in durable order, and what a client makes of several reads of them. */
module TranscriptRows {
  import opened ModelTypes
  import opened SessionTypes

  const RETAINED_TRANSCRIPT_MESSAGES: nat := 256

  predicate Ascending(rows: seq<MessageRow>) {
    forall i, j :: 0 <= i < j < |rows| ==> rows[i].id < rows[j].id
  }

  /** The newest `n` rows. */
  function Last(rows: seq<MessageRow>, n: nat): seq<MessageRow> {
    if n <= |rows| then rows[|rows| - n..] else rows
  }

  /** The newest rows a client retains. */
  function Newest(rows: seq<MessageRow>): (kept: seq<MessageRow>)
    ensures |kept| <= RETAINED_TRANSCRIPT_MESSAGES
    ensures |rows| <= RETAINED_TRANSCRIPT_MESSAGES ==> kept == rows
  {
    Last(rows, RETAINED_TRANSCRIPT_MESSAGES)
  }

  predicate Holds(rows: seq<MessageRow>, id: MessageId) {
    exists i :: 0 <= i < |rows| && rows[i].id == id
  }

  /** Two reads of one transcript never disagree about a row. */
  ghost predicate Agree(a: seq<MessageRow>, b: seq<MessageRow>) {
    forall x, y :: x in a && y in b && x.id == y.id ==> x == y
  }

  // ------------------------------------------------------------- reconciling

  /** The rows of a read that are not known yet. */
  function NotKnown(read: seq<MessageRow>, known: seq<MessageRow>): seq<MessageRow> {
    if read == [] then []
    else NotKnown(read[..|read| - 1], known) + (if Holds(known, read[|read| - 1].id) then [] else [read[|read| - 1]])
  }

  function InsertById(sorted: seq<MessageRow>, row: MessageRow): seq<MessageRow> {
    if sorted == [] || sorted[|sorted| - 1].id <= row.id then sorted + [row]
    else InsertById(sorted[..|sorted| - 1], row) + [sorted[|sorted| - 1]]
  }

  /** A stable sort by identity. */
  function SortById(rows: seq<MessageRow>): seq<MessageRow> {
    if rows == [] then [] else InsertById(SortById(rows[..|rows| - 1]), rows[|rows| - 1])
  }

  function Reconciled(mine: seq<MessageRow>, read: seq<MessageRow>): seq<MessageRow> {
    Newest(SortById(mine + NotKnown(read, mine)))
  }

  predicate Distinct(rows: seq<MessageRow>) {
    forall i, j :: 0 <= i < j < |rows| ==> rows[i].id != rows[j].id
  }

  lemma {:induction false} InsertKeepsOrder(sorted: seq<MessageRow>, row: MessageRow)
    requires Ascending(sorted) && !Holds(sorted, row.id)
    ensures Ascending(InsertById(sorted, row))
    ensures forall x :: x in InsertById(sorted, row) <==> x in sorted || x == row
  {
    var result := InsertById(sorted, row);
    if sorted == [] || sorted[|sorted| - 1].id <= row.id {
    } else {
      var before := sorted[..|sorted| - 1];
      var last := sorted[|sorted| - 1];
      InsertKeepsOrder(before, row);
      var inner := InsertById(before, row);
      assert sorted == before + [last];
      forall i | 0 <= i < |inner| ensures inner[i].id < last.id {
        assert inner[i] in inner;
        assert inner[i] in before || inner[i] == row;
      }
    }
  }

  lemma {:induction false} SortAscends(rows: seq<MessageRow>)
    requires Distinct(rows)
    ensures Ascending(SortById(rows))
    ensures forall x :: x in SortById(rows) <==> x in rows
  {
    if rows == [] {
    } else {
      var before := rows[..|rows| - 1];
      var last := rows[|rows| - 1];
      SortAscends(before);
      assert rows == before + [last];
      forall i | 0 <= i < |SortById(before)| ensures SortById(before)[i].id != last.id {
        assert SortById(before)[i] in SortById(before);
        assert SortById(before)[i] in before;
      }
      InsertKeepsOrder(SortById(before), last);
    }
  }

  lemma {:induction false} NotKnownIsTheRest(read: seq<MessageRow>, known: seq<MessageRow>)
    requires Ascending(read)
    ensures Ascending(NotKnown(read, known))
    ensures forall row :: row in NotKnown(read, known) <==> row in read && !Holds(known, row.id)
  {
    if read == [] {
    } else {
      var before := read[..|read| - 1];
      var last := read[|read| - 1];
      NotKnownIsTheRest(before, known);
      assert read == before + [last];
      var rest := NotKnown(before, known);
      forall i | 0 <= i < |rest| ensures rest[i].id < last.id {
        assert rest[i] in rest;
        assert rest[i] in before;
      }
    }
  }

  lemma UnionSorts(mine: seq<MessageRow>, read: seq<MessageRow>)
    requires Ascending(mine) && Ascending(read) && Agree(mine, read)
    ensures var all := SortById(mine + NotKnown(read, mine)); Ascending(all) && RowSet(all) == RowSet(mine) + RowSet(read)
  {
    NotKnownIsTheRest(read, mine);
    var rest := NotKnown(read, mine);
    forall i, j | 0 <= i < |mine| && 0 <= j < |rest| ensures mine[i].id != rest[j].id {
      assert rest[j] in rest;
    }
    SortAscends(mine + rest);
    forall row | row in read ensures row in mine || row in rest {
      if Holds(mine, row.id) {
        var i :| 0 <= i < |mine| && mine[i].id == row.id;
        assert mine[i] == row;
      }
    }
  }

  function RowSet(rows: seq<MessageRow>): set<MessageRow> {
    set row | row in rows
  }

  lemma NoRows(rows: seq<MessageRow>)
    ensures RowSet(rows) == {} <==> rows == []
  {
    if rows != [] {
      assert rows[0] in RowSet(rows);
    }
  }

  /** The last of ascending rows is their greatest, and the one row the others are not. */
  lemma LastIsGreatest(rows: seq<MessageRow>)
    requires Ascending(rows) && rows != []
    ensures var last := rows[|rows| - 1];
            && rows == rows[..|rows| - 1] + [last]
            && Ascending(rows[..|rows| - 1])
            && last in RowSet(rows)
            && RowSet(rows[..|rows| - 1]) == RowSet(rows) - {last}
            && forall row :: row in RowSet(rows) ==> row == last || row.id < last.id
  {
    assert rows == rows[..|rows| - 1] + [rows[|rows| - 1]];
  }

  /** An ascending sequence is determined by its rows. */
  lemma {:induction false} AscendingIsUnique(a: seq<MessageRow>, b: seq<MessageRow>)
    requires Ascending(a) && Ascending(b) && RowSet(a) == RowSet(b)
    ensures a == b
  {
    hide Ascending, RowSet;
    NoRows(a);
    NoRows(b);
    if a == [] || b == [] {
    } else {
      LastIsGreatest(a);
      LastIsGreatest(b);
      AscendingIsUnique(a[..|a| - 1], b[..|b| - 1]);
    }
  }

  /** `reconcile` keeps the newest rows of the union, in durable order. */
  lemma ReconcileKeepsTheNewestOfTheUnion(mine: seq<MessageRow>, read: seq<MessageRow>, all: seq<MessageRow>)
    requires Ascending(mine) && Ascending(read) && Agree(mine, read)
    requires Ascending(all) && RowSet(all) == RowSet(mine) + RowSet(read)
    ensures Reconciled(mine, read) == Newest(all)
  {
    hide Ascending;
    UnionSorts(mine, read);
    AscendingIsUnique(SortById(mine + NotKnown(read, mine)), all);
  }

  lemma ReconcileIsCommutative(mine: seq<MessageRow>, read: seq<MessageRow>)
    requires Ascending(mine) && Ascending(read) && Agree(mine, read)
    ensures Reconciled(mine, read) == Reconciled(read, mine)
  {
    hide Ascending;
    UnionSorts(mine, read);
    ReconcileKeepsTheNewestOfTheUnion(read, mine, SortById(mine + NotKnown(read, mine)));
  }

  lemma LastOfNone(rows: seq<MessageRow>, n: nat)
    ensures n == 0 || rows == [] ==> Last(rows, n) == []
  {
  }

  lemma LastStep(rows: seq<MessageRow>, n: nat)
    requires Ascending(rows) && rows != [] && n > 0
    ensures var last := rows[|rows| - 1];
            && Last(rows, n) == Last(rows[..|rows| - 1], n - 1) + [last]
            && RowSet(Last(rows, n)) == RowSet(Last(rows[..|rows| - 1], n - 1)) + {last}
            && last !in RowSet(Last(rows[..|rows| - 1], n - 1))
  {
    assert Last(rows, n) == Last(rows[..|rows| - 1], n - 1) + [rows[|rows| - 1]];
  }

  /** Ascending rows that hold the last `n` of others, and no row the others do not, end with them. */
  lemma {:induction false} SuffixOfBoth(all: seq<MessageRow>, some: seq<MessageRow>, n: nat)
    requires Ascending(all) && Ascending(some)
    requires RowSet(Last(all, n)) <= RowSet(some) <= RowSet(all)
    ensures Last(some, n) == Last(all, n)
    decreases n
  {
    hide *;
    NoRows(all);
    NoRows(some);
    LastOfNone(all, n);
    LastOfNone(some, n);
    if n == 0 || all == [] {
    } else {
      LastStep(all, n);
      LastIsGreatest(all);
      var x := all[|all| - 1];
      assert x in RowSet(some);
      LastStep(some, n);
      LastIsGreatest(some);
      assert some[|some| - 1] == x;
      SuffixOfBoth(all[..|all| - 1], some[..|some| - 1], n - 1);
    }
  }

  /** A row among the newest of all is among the newest of any of them it is in. */
  lemma {:induction false} NewestAreNewestAnywhere(all: seq<MessageRow>, some: seq<MessageRow>, n: nat, row: MessageRow)
    requires Ascending(all) && Ascending(some) && RowSet(some) <= RowSet(all)
    requires row in RowSet(Last(all, n)) && row in RowSet(some)
    ensures row in RowSet(Last(some, n))
    decreases n
  {
    hide *;
    NoRows(Last(all, n));
    NoRows(all);
    NoRows(some);
    LastOfNone(all, n);
    if n == 0 || all == [] || some == [] {
    } else {
      LastStep(all, n);
      LastIsGreatest(all);
      LastStep(some, n);
      LastIsGreatest(some);
      if row != some[|some| - 1] {
        if some[|some| - 1] == all[|all| - 1] {
          NewestAreNewestAnywhere(all[..|all| - 1], some[..|some| - 1], n - 1, row);
        } else {
          NewestAreNewestAnywhere(all[..|all| - 1], some, n - 1, row);
          LastGrows(some, n - 1, n);
        }
      }
    }
  }

  lemma LastGrows(rows: seq<MessageRow>, m: nat, n: nat)
    requires m <= n
    ensures RowSet(Last(rows, m)) <= RowSet(Last(rows, n))
  {
    assert Last(rows, n) == (if n <= |rows| then rows[|rows| - n..|rows| - m] else rows[..|rows| - |Last(rows, m)|]) + Last(rows, m);
  }

  /** What a front drain dropped earlier never changes what is newest. */
  lemma DrainedRowsDoNotMatter(all: seq<MessageRow>, some: seq<MessageRow>)
    requires Ascending(all) && Ascending(some)
    requires RowSet(Newest(all)) <= RowSet(some) <= RowSet(all)
    ensures Newest(some) == Newest(all)
  {
    SuffixOfBoth(all, some, RETAINED_TRANSCRIPT_MESSAGES);
  }

  lemma NewestAscends(rows: seq<MessageRow>)
    requires Ascending(rows)
    ensures Ascending(Newest(rows)) && RowSet(Newest(rows)) <= RowSet(rows)
  {
  }

  /** Several reads: whatever was dropped in between, the rows are the newest of everything read. */
  lemma ReconcileAgain(mine: seq<MessageRow>, read: seq<MessageRow>, later: seq<MessageRow>, all: seq<MessageRow>)
    requires Ascending(mine) && Ascending(read) && Ascending(later) && Ascending(all)
    requires RowSet(all) == RowSet(mine) + RowSet(read) + RowSet(later)
    ensures Reconciled(Reconciled(mine, read), later) == Newest(all)
  {
    hide Ascending, SortById, Newest;
    AscendingReadsAgree(all, mine, read);
    UnionSorts(mine, read);
    var both := SortById(mine + NotKnown(read, mine));
    NewestAscends(both);
    var kept := Newest(both);
    AscendingReadsAgree(all, kept, later);
    UnionSorts(kept, later);
    var some := SortById(kept + NotKnown(later, kept));
    NewestOfAllIsKept(all, both, later);
    DrainedRowsDoNotMatter(all, some);
  }

  lemma AscendingReadsAgree(all: seq<MessageRow>, a: seq<MessageRow>, b: seq<MessageRow>)
    requires Ascending(all) && RowSet(a) <= RowSet(all) && RowSet(b) <= RowSet(all)
    ensures Agree(a, b)
  {
    forall x, y | x in a && y in b && x.id == y.id ensures x == y {
      assert x in RowSet(all) && y in RowSet(all);
    }
  }

  lemma NewestOfAllIsKept(all: seq<MessageRow>, both: seq<MessageRow>, later: seq<MessageRow>)
    requires Ascending(all) && Ascending(both) && RowSet(all) == RowSet(both) + RowSet(later)
    ensures RowSet(Newest(all)) <= RowSet(Newest(both)) + RowSet(later)
  {
    forall row | row in RowSet(Newest(all)) && row !in RowSet(later) ensures row in RowSet(Newest(both)) {
      NewestAscends(all);
      NewestAreNewestAnywhere(all, both, RETAINED_TRANSCRIPT_MESSAGES, row);
    }
  }

  // ----------------------------------------------------------------- following

  predicate RepeatsLast(rows: seq<MessageRow>, row: MessageRow) {
    rows != [] && rows[|rows| - 1].id == row.id
  }

  /** One content frame: a repeat of the newest accepted row changes nothing. */
  function WithRow(rows: seq<MessageRow>, row: MessageRow): seq<MessageRow> {
    if RepeatsLast(rows, row) then rows else Newest(rows + [row])
  }

  function Followed(rows: seq<MessageRow>, frames: seq<MessageRow>): seq<MessageRow> {
    if frames == [] then rows else WithRow(Followed(rows, frames[..|frames| - 1]), frames[|frames| - 1])
  }

  /** Rows that come after the ones held, in durable order. */
  predicate Continues(rows: seq<MessageRow>, frames: seq<MessageRow>) {
    Ascending(rows + frames)
  }

  lemma ContinuesStep(rows: seq<MessageRow>, frames: seq<MessageRow>)
    requires Continues(rows, frames) && frames != []
    ensures Continues(rows, frames[..|frames| - 1])
    ensures (rows + frames[..|frames| - 1]) + [frames[|frames| - 1]] == rows + frames
  {
    var all := rows + frames;
    assert rows + frames[..|frames| - 1] == all[..|all| - 1];
  }

  lemma NewestTwice(rows: seq<MessageRow>, row: MessageRow)
    ensures Newest(Newest(rows) + [row]) == Newest(rows + [row])
  {
  }

  lemma NewestKeepsLast(rows: seq<MessageRow>)
    requires rows != []
    ensures Newest(rows) != [] && Newest(rows)[|Newest(rows)| - 1] == rows[|rows| - 1]
  {
  }

  /** A client's transcript is always the newest rows of what it read and followed. */
  lemma {:induction false} TheTranscriptIsTheNewest(rows: seq<MessageRow>, frames: seq<MessageRow>)
    requires Continues(rows, frames)
    ensures Followed(Newest(rows), frames) == Newest(rows + frames)
  {
    if frames == [] {
      assert rows + frames == rows;
    } else {
      var before := rows + frames[..|frames| - 1];
      var last := frames[|frames| - 1];
      ContinuesStep(rows, frames);
      TheTranscriptIsTheNewest(rows, frames[..|frames| - 1]);
      assert !RepeatsLast(Newest(before), last) by {
        if before != [] {
          NewestKeepsLast(before);
          assert (rows + frames)[|rows + frames| - 1] == last && (rows + frames)[|before| - 1] == before[|before| - 1];
        }
      }
      NewestTwice(before, last);
    }
  }

  /** The index behind the last row at or before an identity, where rows ascend. */
  function PartitionPoint(rows: seq<MessageRow>, after: MessageId): (k: nat)
    ensures k <= |rows|
    ensures forall i :: 0 <= i < k ==> rows[i].id <= after
    ensures k < |rows| ==> rows[k].id > after
  {
    if rows == [] || rows[0].id > after then 0 else 1 + PartitionPoint(rows[1..], after)
  }

  function RowsAfter(rows: seq<MessageRow>, after: Option<MessageId>): seq<MessageRow> {
    match after
    case None => rows
    case Some(id) => rows[PartitionPoint(rows, id)..]
  }

  function Reported(before: Option<MessageId>, rows: seq<MessageRow>): Option<MessageId> {
    if rows == [] then before else Some(rows[|rows| - 1].id)
  }

  /** What a caller that reports after every frame has reported: first what it read, then what each
      frame added, asking each time for the rows behind the newest one it reported. */
  function Reports(rows: seq<MessageRow>, frames: seq<MessageRow>): (seq<MessageRow>, Option<MessageId>) {
    if frames == [] then (RowsAfter(rows, None), Reported(None, rows))
    else
      var (done, mark) := Reports(rows, frames[..|frames| - 1]);
      var more := RowsAfter(Followed(rows, frames), mark);
      (done + more, Reported(mark, more))
  }

  lemma OnlyTheNewRowIsBehind(rows: seq<MessageRow>, row: MessageRow)
    requires Ascending(rows + [row])
    ensures RowsAfter(Newest(rows + [row]), Reported(None, rows)) == [row]
  {
    var all := rows + [row];
    var kept := Newest(all);
    NewestKeepsLast(all);
    if rows != [] {
      var mark := rows[|rows| - 1].id;
      assert all[|rows| - 1].id == mark && all[|rows|] == row;
      var k := PartitionPoint(kept, mark);
      assert kept[|kept| - 1] == row;
      assert |kept| > 1 ==> kept[|kept| - 2] == rows[|rows| - 1];
      assert k == |kept| - 1;
    }
  }

  /** Every committed row is reported exactly once and in order, across every front drain. */
  lemma {:induction false} EachRowIsReportedOnce(rows: seq<MessageRow>, frames: seq<MessageRow>)
    requires Continues(rows, frames) && |rows| <= RETAINED_TRANSCRIPT_MESSAGES
    ensures Reports(rows, frames).0 == rows + frames
    ensures Reports(rows, frames).1 == Reported(None, rows + frames)
  {
    if frames == [] {
      assert rows + frames == rows;
    } else {
      var before := rows + frames[..|frames| - 1];
      var last := frames[|frames| - 1];
      ContinuesStep(rows, frames);
      EachRowIsReportedOnce(rows, frames[..|frames| - 1]);
      TheTranscriptIsTheNewest(rows, frames);
      OnlyTheNewRowIsBehind(before, last);
    }
  }
}
