/** Pagination of a time range into request windows.

    Every fetch function of utils.py builds its boundary list the same way:
    `pd.date_range(start, end, freq=...)` at a fixed cadence, then `end`
    appended; consecutive boundaries are zipped into (begin, end) windows.
    Timestamps are integer nanoseconds. */
module Pagination {

  import opened Arithmetic

  /** One day in nanoseconds. */
  const Day: int := 86_400_000_000_000

  /** Cadence of the kline fetches (`freq="15D"`). */
  const KlineCadence: int := 15 * Day

  /** Cadence of the funding-rate fetch (`freq="20D"`). */
  const FundingCadence: int := 20 * Day

  /** A request window: one upstream call covers `begin` to `end`. */
  datatype Window = Window(begin: int, end: int)

  /** `pd.date_range(start, end, freq=step)`: `start`, `start + step`, ... for
      as long as the point does not pass `end`; empty when `start > end`. */
  function DateRange(start: int, end: int, step: int): seq<int>
    requires step > 0
    decreases end - start
  {
    if start > end then [] else [start] + DateRange(start + step, end, step)
  }

  /** The boundary list: the date range with `end` appended. */
  function Boundaries(start: int, end: int, step: int): seq<int>
    requires step > 0
  {
    DateRange(start, end, step) + [end]
  }

  /** Python's `zip(begins, ends)`. */
  function Zip(begins: seq<int>, ends: seq<int>): (w: seq<Window>)
    ensures |w| == if |begins| <= |ends| then |begins| else |ends|
  {
    if begins == [] || ends == [] then []
    else [Window(begins[0], ends[0])] + Zip(begins[1..], ends[1..])
  }

  /** `zip(b[:-1], b[1:])`. */
  function Windows(b: seq<int>): seq<Window> {
    if b == [] then [] else Zip(b[..|b| - 1], b[1..])
  }

  /** The windows of the range from `start` to `end` at cadence `step`. */
  function RangeWindows(start: int, end: int, step: int): seq<Window>
    requires step > 0
  {
    Windows(Boundaries(start, end, step))
  }

  // ---------------------------------------------------------------------
  // The date range

  lemma StepCount(x: int, step: int)
    requires step > 0 && x >= step
    ensures (x - step) / step == x / step - 1
  {
    var q, r := x / step, x % step;
    assert x == step * q + r;
    assert x - step == step * (q - 1) + r;
    DivUnique(x - step, step, q - 1, r);
  }

  /** The date range in closed form: `(end - start) / step + 1` points, the
      k-th of which is `start + k * step`. */
  lemma {:induction false} DateRangeClosedForm(start: int, end: int, step: int)
    requires step > 0
    ensures start > end ==> DateRange(start, end, step) == []
    ensures start <= end ==> |DateRange(start, end, step)| == (end - start) / step + 1
    ensures forall k :: 0 <= k < |DateRange(start, end, step)| ==>
              DateRange(start, end, step)[k] == start + k * step
    decreases end - start
  {
    if start <= end {
      var g := DateRange(start, end, step);
      var rest := DateRange(start + step, end, step);
      DateRangeClosedForm(start + step, end, step);
      if start + step <= end {
        StepCount(end - start, step);
      }
      assert g == [start] + rest;
      forall k | 0 <= k < |g| ensures g[k] == start + k * step {
        if k > 0 {
          assert g[k] == rest[k - 1];
          assert (start + step) + (k - 1) * step == start + k * step;
        }
      }
    }
  }

  /** The last point of a non-empty date range lies less than one step
      before `end`. */
  lemma LastPointOfDateRange(start: int, end: int, step: int)
    requires step > 0 && start <= end
    ensures var g := DateRange(start, end, step);
            g[|g| - 1] <= end < g[|g| - 1] + step
    ensures var g := DateRange(start, end, step);
            g[|g| - 1] == end <==> (end - start) % step == 0
  {
    DateRangeClosedForm(start, end, step);
    var q, r := (end - start) / step, (end - start) % step;
    assert end - start == q * step + r;
  }

  // ---------------------------------------------------------------------
  // Boundaries

  /** The boundary list starts at `start`, ends exactly at `end`, and has one
      more point than the date range; when `start > end` it is `[end]`. */
  lemma BoundaryEndpoints(start: int, end: int, step: int)
    requires step > 0
    ensures var b := Boundaries(start, end, step);
            |b| >= 1 && b[|b| - 1] == end
    ensures start > end ==> Boundaries(start, end, step) == [end]
    ensures start <= end ==> var b := Boundaries(start, end, step);
              |b| == (end - start) / step + 2 && b[0] == start
  {
    DateRangeClosedForm(start, end, step);
  }

  /** Interior gaps are exactly the cadence; the final gap is smaller than
      the cadence and is zero exactly when `end` lies on the grid. */
  lemma BoundaryGaps(start: int, end: int, step: int)
    requires step > 0 && start <= end
    ensures var b := Boundaries(start, end, step);
            forall i :: 0 <= i < |b| - 2 ==> b[i + 1] - b[i] == step
    ensures var b := Boundaries(start, end, step);
            0 <= b[|b| - 1] - b[|b| - 2] < step
    ensures var b := Boundaries(start, end, step);
            b[|b| - 1] == b[|b| - 2] <==> (end - start) % step == 0
  {
    var g := DateRange(start, end, step);
    var b := Boundaries(start, end, step);
    DateRangeClosedForm(start, end, step);
    LastPointOfDateRange(start, end, step);
    forall i | 0 <= i < |b| - 2 ensures b[i + 1] - b[i] == step {
      assert b[i] == g[i] && b[i + 1] == g[i + 1];
    }
    assert b[|b| - 2] == g[|g| - 1];
  }

  /** The boundary list is non-decreasing when `start <= end`. */
  lemma BoundariesSorted(start: int, end: int, step: int)
    requires step > 0 && start <= end
    ensures var b := Boundaries(start, end, step);
            forall i, j :: 0 <= i <= j < |b| ==> b[i] <= b[j]
  {
    var b := Boundaries(start, end, step);
    BoundaryGaps(start, end, step);
    StepsSorted(b);
  }

  /** A sequence whose every step goes up is sorted. */
  lemma {:induction false} StepsSorted(b: seq<int>)
    requires forall i :: 0 <= i < |b| - 1 ==> b[i] <= b[i + 1]
    ensures forall i, j :: 0 <= i <= j < |b| ==> b[i] <= b[j]
  {
    if |b| > 1 {
      StepsSorted(b[..|b| - 1]);
      forall i, j | 0 <= i <= j < |b| ensures b[i] <= b[j] {
        if j == |b| - 1 && i < j {
          assert b[..|b| - 1][i] <= b[..|b| - 1][j - 1];
        }
      }
    }
  }

  // ---------------------------------------------------------------------
  // Windows

  lemma {:induction false} ZipAt(begins: seq<int>, ends: seq<int>, i: nat)
    requires i < |begins| && i < |ends|
    ensures |Zip(begins, ends)| > i && Zip(begins, ends)[i] == Window(begins[i], ends[i])
  {
    if i > 0 {
      ZipAt(begins[1..], ends[1..], i - 1);
    }
  }

  /** The windows are exactly the consecutive pairs of boundaries, in order. */
  lemma WindowsArePairs(b: seq<int>)
    requires |b| >= 1
    ensures |Windows(b)| == |b| - 1
    ensures forall i :: 0 <= i < |b| - 1 ==> Windows(b)[i] == Window(b[i], b[i + 1])
  {
    forall i | 0 <= i < |b| - 1 ensures Windows(b)[i] == Window(b[i], b[i + 1]) {
      ZipAt(b[..|b| - 1], b[1..], i);
    }
  }

  /** For `start <= end` there are `(end - start) / step + 1` windows; the
      first begins at `start`, the last ends at `end`, each begins where the
      previous one ended and none runs backwards. For `start > end` there
      are none. */
  lemma WindowsCoverRange(start: int, end: int, step: int)
    requires step > 0
    ensures start > end ==> RangeWindows(start, end, step) == []
    ensures start <= end ==> var w := RangeWindows(start, end, step);
              && |w| == (end - start) / step + 1
              && w[0].begin == start
              && w[|w| - 1].end == end
              && (forall i :: 0 <= i < |w| - 1 ==> w[i].end == w[i + 1].begin)
              && (forall i :: 0 <= i < |w| ==> w[i].begin <= w[i].end)
  {
    var b := Boundaries(start, end, step);
    BoundaryEndpoints(start, end, step);
    WindowsArePairs(b);
    if start <= end {
      BoundariesSorted(start, end, step);
      var w := Windows(b);
      forall i | 0 <= i < |w| - 1 ensures w[i].end == w[i + 1].begin {
        assert w[i] == Window(b[i], b[i + 1]);
        assert w[i + 1] == Window(b[i + 1], b[i + 2]);
      }
      forall i | 0 <= i < |w| ensures w[i].begin <= w[i].end {
        assert w[i] == Window(b[i], b[i + 1]);
      }
    }
  }

  /** Fetching 2020-01-01 to 2020-02-01 at the kline cadence takes three
      windows: 15 days, 15 days and 1 day. */
  lemma JanuaryTwentyTwentyWindows()
    ensures var start := 1_577_836_800_000_000_000;
            RangeWindows(start, start + 31 * Day, KlineCadence) ==
              [ Window(start, start + 15 * Day),
                Window(start + 15 * Day, start + 30 * Day),
                Window(start + 30 * Day, start + 31 * Day) ]
  {
    var start := 1_577_836_800_000_000_000;
    var end := start + 31 * Day;
    var b := Boundaries(start, end, KlineCadence);
    var g := DateRange(start, end, KlineCadence);
    DateRangeClosedForm(start, end, KlineCadence);
    assert (end - start) / KlineCadence == 2;
    assert g == [start, start + 15 * Day, start + 30 * Day];
    assert b == [start, start + 15 * Day, start + 30 * Day, end];
    WindowsArePairs(b);
    var w := Windows(b);
    assert w[0] == Window(b[0], b[1]) && w[1] == Window(b[1], b[2]) && w[2] == Window(b[2], b[3]);
  }
}
