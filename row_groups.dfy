/** The single pass of `_assign_row_groups` over the placeholder tops taken in `top`
    order (dsd_agent/pptx_handler.py and its identical copy in
    dsd_agent/google_slides.py), as a specification over a sequence of tops, with the
    properties the grouping has. */
module RowGroups {
  import opened Sorting

  /** More than half an inch between tops starts a new row. */
  const RowThreshold: real := 0.5

  function Abs(x: real): real {
    if x < 0.0 then -x else x
  }

  /** The loop's two variables: the current row number and the top of the row's first
      placeholder (`current_top`). */
  datatype PassState = PassState(row: nat, currentTop: real)

  /** One iteration of the loop on a placeholder whose top is `top`. */
  function Step(st: PassState, top: real): PassState {
    if Abs(top - st.currentTop) > RowThreshold then PassState(st.row + 1, top) else st
  }

  /** The loop state after it has visited the first `k` tops; the loop starts on row 0
      with `current_top` the first top. */
  function StateAfter(ts: seq<real>, k: nat): PassState
    requires 0 < |ts| && k <= |ts|
  {
    if k == 0 then PassState(0, ts[0]) else Step(StateAfter(ts, k - 1), ts[k - 1])
  }

  /** The row group the loop writes into the `k`-th placeholder in `top` order. */
  function RowOf(ts: seq<real>, k: nat): nat
    requires k < |ts|
  {
    StateAfter(ts, k + 1).row
  }

  /** The value of `current_top` once the `k`-th placeholder has been visited. */
  function AnchorOf(ts: seq<real>, k: nat): real
    requires k < |ts|
  {
    StateAfter(ts, k + 1).currentTop
  }

  /** All row groups, in `top` order. */
  function Groups(ts: seq<real>): (g: seq<nat>)
    ensures |g| == |ts|
    ensures forall k :: 0 <= k < |ts| ==> g[k] == RowOf(ts, k)
  {
    seq(|ts|, k requires 0 <= k < |ts| => RowOf(ts, k))
  }

  /** The first placeholder is on row 0, and each later one is either on the row of its
      predecessor or on the next row; it moves to the next row exactly when its top is
      more than the threshold away from the current row's first top. */
  lemma RowStep(ts: seq<real>, k: nat)
    requires k < |ts|
    ensures k == 0 ==> RowOf(ts, 0) == 0 && AnchorOf(ts, 0) == ts[0]
    ensures k > 0 ==>
      (RowOf(ts, k) == RowOf(ts, k - 1) + 1 <==> Abs(ts[k] - AnchorOf(ts, k - 1)) > RowThreshold)
    ensures k > 0 ==>
      (RowOf(ts, k) == RowOf(ts, k - 1) <==> Abs(ts[k] - AnchorOf(ts, k - 1)) <= RowThreshold)
    ensures k > 0 ==> AnchorOf(ts, k) == if RowOf(ts, k) == RowOf(ts, k - 1) then AnchorOf(ts, k - 1) else ts[k]
  {
  }

  /** Row groups never decrease, and they climb by at most one per placeholder. */
  lemma {:induction false} RowsMonotone(ts: seq<real>, i: nat, j: nat)
    requires i <= j < |ts|
    ensures RowOf(ts, i) <= RowOf(ts, j) <= RowOf(ts, i) + (j - i)
    decreases j - i
  {
    if i < j {
      RowsMonotone(ts, i, j - 1);
      RowStep(ts, j);
    }
  }

  /** The last row number is below the number of placeholders. */
  lemma RowsBounded(ts: seq<real>, k: nat)
    requires k < |ts|
    ensures RowOf(ts, k) <= k
  {
    RowStep(ts, 0);
    RowsMonotone(ts, 0, k);
  }

  /** `i` is the first placeholder of its row. */
  predicate StartsRow(ts: seq<real>, i: nat)
    requires i < |ts|
  {
    i == 0 || RowOf(ts, i - 1) < RowOf(ts, i)
  }

  /** While a row lasts, `current_top` stays the top of the row's first placeholder. */
  lemma {:induction false} AnchorIsRowStart(ts: seq<real>, i: nat, k: nat)
    requires i <= k < |ts| && StartsRow(ts, i) && RowOf(ts, i) == RowOf(ts, k)
    ensures AnchorOf(ts, k) == ts[i]
    decreases k - i
  {
    RowStep(ts, k);
    if i < k {
      RowsMonotone(ts, i, k - 1);
      RowsMonotone(ts, k - 1, k);
      AnchorIsRowStart(ts, i, k - 1);
    }
  }

  /** Each placeholder lies within the threshold of the current `current_top`. */
  lemma NearAnchor(ts: seq<real>, k: nat)
    requires k < |ts|
    ensures Abs(ts[k] - AnchorOf(ts, k)) <= RowThreshold
  {
    RowStep(ts, k);
  }

  /** Every member of a row lies within the threshold of that row's first top. */
  lemma RowWithinThreshold(ts: seq<real>, i: nat, k: nat)
    requires i <= k < |ts| && StartsRow(ts, i) && RowOf(ts, i) == RowOf(ts, k)
    ensures Abs(ts[k] - ts[i]) <= RowThreshold
  {
    AnchorIsRowStart(ts, i, k);
    NearAnchor(ts, k);
  }

  /** On sorted tops, equal tops share a row: so the row of a placeholder depends only on
      its top, whichever of several equal tops the sort put first. */
  lemma {:induction false} EqualTopsSameRow(ts: seq<real>, i: nat, j: nat)
    requires NonDecreasing(ts) && i <= j < |ts| && ts[i] == ts[j]
    ensures RowOf(ts, i) == RowOf(ts, j)
    decreases j - i
  {
    if i < j {
      assert ts[i] <= ts[j - 1] <= ts[j];
      EqualTopsSameRow(ts, i, j - 1);
      NearAnchor(ts, j - 1);
      RowStep(ts, j);
    }
  }

  /** The example of a slide with three bands of boxes. */
  lemma ThreeBands()
    ensures Groups([0.1, 0.15, 3.0, 3.05, 6.2]) == [0, 0, 1, 1, 2]
  {
    var ts := [0.1, 0.15, 3.0, 3.05, 6.2];
    assert StateAfter(ts, 1) == PassState(0, 0.1);
    assert StateAfter(ts, 2) == PassState(0, 0.1);
    assert StateAfter(ts, 3) == PassState(1, 3.0);
    assert StateAfter(ts, 4) == PassState(1, 3.0);
    assert StateAfter(ts, 5) == PassState(2, 6.2);
  }
}
