/** The byte budget of one transcript snapshot. */
module SnapshotBudget {
  import opened ModelTypes

  const USIZE_MAX: nat := 0xFFFF_FFFF_FFFF_FFFF
  const MAX_MESSAGE_BYTES: nat := 1_048_576
  const MAX_TRANSCRIPT_SNAPSHOT_BYTES: nat := MAX_MESSAGE_BYTES - MAX_MESSAGE_BYTES / 4

  function SaturatingAdd(a: nat, b: nat): nat {
    if a + b > USIZE_MAX then USIZE_MAX else a + b
  }

  function SaturatingSub(a: nat, b: nat): nat {
    if a < b then 0 else a - b
  }

  function BudgetFor(projectionBytes: nat): nat {
    SaturatingSub(MAX_TRANSCRIPT_SNAPSHOT_BYTES, projectionBytes)
  }

  /** What one row is charged: its encoding and the separator. */
  function Charge<Row>(row: Row, encodedBytes: Row -> Option<nat>): nat
    requires encodedBytes(row).Some?
  {
    SaturatingAdd(encodedBytes(row).value, 1)
  }

  ghost predicate Encodes<Row>(rows: seq<Row>, encodedBytes: Row -> Option<nat>) {
    forall row :: row in rows ==> encodedBytes(row).Some?
  }

  ghost function Cost<Row>(rows: seq<Row>, encodedBytes: Row -> Option<nat>): nat
    requires Encodes(rows, encodedBytes)
  {
    if rows == [] then 0
    else
      Charge(rows[0], encodedBytes) + Cost(rows[1..], encodedBytes)
  }

  /** The rows from `k` on can be served: they encode and fit, or they are the newest row alone. */
  ghost predicate Servable<Row>(rows: seq<Row>, k: nat, budget: nat, encodedBytes: Row -> Option<nat>)
    requires k <= |rows|
  {
    && Encodes(rows[k..], encodedBytes)
    && (k + 1 >= |rows| || Cost(rows[k..], encodedBytes) <= budget)
  }

  lemma CostOfOneMore<Row>(rows: seq<Row>, k: nat, encodedBytes: Row -> Option<nat>)
    requires k < |rows|
    ensures Encodes(rows[k..], encodedBytes) <==> encodedBytes(rows[k]).Some? && Encodes(rows[k + 1..], encodedBytes)
    ensures Encodes(rows[k..], encodedBytes) ==>
              Cost(rows[k..], encodedBytes) == Charge(rows[k], encodedBytes) + Cost(rows[k + 1..], encodedBytes)
  {
    assert rows[k..][1..] == rows[k + 1..];
    assert rows[k..][0] == rows[k];
    assert rows[k..] == [rows[k]] + rows[k + 1..];
  }

  /** A shorter suffix costs no more, so what is too long stays too long. */
  lemma {:induction false} SuffixesOfServableAreServable<Row>(
    rows: seq<Row>, k: nat, j: nat, budget: nat, encodedBytes: Row -> Option<nat>)
    requires k <= j <= |rows| && Servable(rows, k, budget, encodedBytes)
    ensures Servable(rows, j, budget, encodedBytes)
    decreases j - k
  {
    if k < j {
      CostOfOneMore(rows, k, encodedBytes);
      SuffixesOfServableAreServable(rows, k + 1, j, budget, encodedBytes);
    }
  }

  /** `k` starts the longest servable suffix. */
  ghost predicate IsLongest<Row>(rows: seq<Row>, k: nat, budget: nat, encodedBytes: Row -> Option<nat>) {
    && k <= |rows| && Servable(rows, k, budget, encodedBytes)
    && forall j: nat :: j < k ==> !Servable(rows, j, budget, encodedBytes)
  }

  /** Row `i` must be measured, but cannot be. */
  ghost predicate Unmeasurable<Row>(rows: seq<Row>, i: nat, budget: nat, encodedBytes: Row -> Option<nat>) {
    i < |rows| && encodedBytes(rows[i]).None? && Servable(rows, i + 1, budget, encodedBytes)
  }

  lemma StoppedHere<Row>(rows: seq<Row>, k: nat, budget: nat, encodedBytes: Row -> Option<nat>)
    requires k <= |rows| && Servable(rows, k, budget, encodedBytes)
    requires k > 0 ==> encodedBytes(rows[k - 1]).Some? && !Servable(rows, k - 1, budget, encodedBytes)
    ensures IsLongest(rows, k, budget, encodedBytes)
    ensures forall i: nat :: !Unmeasurable(rows, i, budget, encodedBytes)
  {
    forall j: nat | j < k ensures !Servable(rows, j, budget, encodedBytes) {
      if Servable(rows, j, budget, encodedBytes) {
        SuffixesOfServableAreServable(rows, j, k - 1, budget, encodedBytes);
      }
    }
    forall i: nat ensures !Unmeasurable(rows, i, budget, encodedBytes) {
      assert k <= i < |rows| ==> rows[i] in rows[k..];
      assert i + 1 < k ==> !Servable(rows, i + 1, budget, encodedBytes);
    }
  }

  /** Every row costs at least its separator. */
  lemma {:induction false} RowsCost<Row>(rows: seq<Row>, encodedBytes: Row -> Option<nat>)
    requires Encodes(rows, encodedBytes)
    ensures Cost(rows, encodedBytes) >= |rows|
  {
    if rows == [] {
    } else {
      RowsCost(rows[1..], encodedBytes);
    }
  }

  /** The projection and the rows together: two or more rows are served only within the snapshot's
      own bound, the projection's bytes included. */
  lemma ServedWithinTheBound<Row>(projectionBytes: nat, rows: seq<Row>, k: nat, encodedBytes: Row -> Option<nat>)
    requires k + 2 <= |rows| && Servable(rows, k, BudgetFor(projectionBytes), encodedBytes)
    ensures projectionBytes + Cost(rows[k..], encodedBytes) <= MAX_TRANSCRIPT_SNAPSHOT_BYTES
  {
    RowsCost(rows[k..], encodedBytes);
  }

  /** Walks backwards while the rows fit. The result is the longest newest suffix within the budget
      - the newest row whatever it costs. It fails exactly when a row that must be measured for
      that cannot be encoded. */
  method BoundedSnapshotMessages<Row>(projectionBytes: nat, messages: seq<Row>, encodedBytes: Row -> Option<nat>)
    returns (kept: Result<seq<Row>>)
    ensures kept.Ok? ==>
              exists k: nat :: IsLongest(messages, k, BudgetFor(projectionBytes), encodedBytes) && kept.value == messages[k..]
    ensures kept.Ok? && messages != [] ==> kept.value != [] && kept.value[|kept.value| - 1] == messages[|messages| - 1]
    ensures kept.Ok? && |kept.value| >= 2 ==>
              && Encodes(kept.value, encodedBytes)
              && projectionBytes + Cost(kept.value, encodedBytes) <= MAX_TRANSCRIPT_SNAPSHOT_BYTES
    ensures kept.Err? <==> exists i: nat :: Unmeasurable(messages, i, BudgetFor(projectionBytes), encodedBytes)
  {
    var budget := BudgetFor(projectionBytes);
    ghost var whole := budget;
    var newest := SaturatingSub(|messages|, 1);
    var keepFrom := |messages|;
    var index := |messages|;
    while index > 0
      invariant 0 <= index == keepFrom <= |messages|
      invariant Servable(messages, keepFrom, whole, encodedBytes)
      invariant budget == SaturatingSub(whole, Cost(messages[keepFrom..], encodedBytes))
      invariant keepFrom == 0 || keepFrom == |messages| || keepFrom <= newest
    {
      index := index - 1;
      CostOfOneMore(messages, index, encodedBytes);
      var encoded := encodedBytes(messages[index]);
      if encoded.None? {
        assert Unmeasurable(messages, index, whole, encodedBytes);
        return Err(InvalidValue);
      }
      var size := SaturatingAdd(encoded.value, 1);
      if size > budget && index != newest {
        break;
      }
      budget := SaturatingSub(budget, size);
      keepFrom := index;
    }
    StoppedHere(messages, keepFrom, whole, encodedBytes);
    if keepFrom + 2 <= |messages| {
      ServedWithinTheBound(projectionBytes, messages, keepFrom, encodedBytes);
    }
    kept := Ok(messages[keepFrom..]);
  }

  /** The budget is kept whenever more than the newest row is served. */
  lemma OnlyALoneRowMayExceed<Row>(rows: seq<Row>, k: nat, budget: nat, encodedBytes: Row -> Option<nat>)
    requires IsLongest(rows, k, budget, encodedBytes)
    ensures |rows[k..]| >= 2 ==> Cost(rows[k..], encodedBytes) <= budget
    ensures rows != [] && encodedBytes(rows[|rows| - 1]).Some? ==> k < |rows|
  {
    if rows != [] && encodedBytes(rows[|rows| - 1]).Some? {
      assert rows[|rows| - 1..] == [rows[|rows| - 1]];
      assert Servable(rows, |rows| - 1, budget, encodedBytes);
    }
  }
}
