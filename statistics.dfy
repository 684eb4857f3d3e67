/**
 * Min/max statistics over the window dictionary
 * (`extract_min_max_mean_std_from_data`): every motion row of every window is
 * stacked, and each column's minimum and maximum taken.  Joint positions are
 * motion columns 0..71, joint velocities 72..143, and object centroids come
 * from `window_obj_com_pos`.
 */
module Statistics {
  import opened Wrappers
  import opened Geometry
  import opened Records
  import opened Normalization

  predicate AllShaped(ds: seq<WindowData>) {
    forall i :: 0 <= i < |ds| ==> WindowShaped(ds[i])
  }

  /** The number of motion rows of all windows. */
  function RowCount(ds: seq<WindowData>): nat
    decreases |ds|
  {
    if |ds| == 0 then 0 else RowCount(ds[..|ds| - 1]) + |ds[|ds| - 1].motion|
  }

  /** Columns `lo..hi` of every motion row of one window. */
  function WindowColumns(d: WindowData, lo: nat, hi: nat): (rows: seq<seq<real>>)
    requires WindowShaped(d) && lo <= hi <= MotionWidth
    ensures |rows| == |d.motion| && forall t :: 0 <= t < |rows| ==> rows[t] == d.motion[t][lo..hi]
  {
    seq(|d.motion|, t requires 0 <= t < |d.motion| => d.motion[t][lo..hi])
  }

  /** One window's object centroids as rows of three. */
  function WindowComRows(d: WindowData): (rows: seq<seq<real>>)
    ensures |rows| == |d.objComPos| && forall t :: 0 <= t < |rows| ==> rows[t] == Coords(d.objComPos[t])
  {
    seq(|d.objComPos|, t requires 0 <= t < |d.objComPos| => Coords(d.objComPos[t]))
  }

  /** Columns `lo..hi` of every motion row, windows in order (`np.vstack`). */
  function MotionColumns(ds: seq<WindowData>, lo: nat, hi: nat): (rows: seq<seq<real>>)
    requires AllShaped(ds) && lo <= hi <= MotionWidth
    ensures |rows| == RowCount(ds)
    ensures forall r :: 0 <= r < |rows| ==> |rows[r]| == hi - lo
    decreases |ds|
  {
    if |ds| == 0 then []
    else
      var last := ds[|ds| - 1];
      MotionColumns(ds[..|ds| - 1], lo, hi) + WindowColumns(last, lo, hi)
  }

  /** Every window's object centroids as rows of three, windows in order. */
  function ComRows(ds: seq<WindowData>): (rows: seq<seq<real>>)
    requires AllShaped(ds)
    ensures |rows| == RowCount(ds)
    ensures forall r :: 0 <= r < |rows| ==> |rows[r]| == 3
    decreases |ds|
  {
    if |ds| == 0 then []
    else
      var last := ds[|ds| - 1];
      ComRows(ds[..|ds| - 1]) + WindowComRows(last)
  }

  /** Stacking one more window appends its rows. */
  lemma StackStep(ds: seq<WindowData>, i: nat)
    requires AllShaped(ds) && i < |ds|
    ensures AllShaped(ds[..i + 1])
    ensures MotionColumns(ds[..i + 1], 0, JposWidth) == MotionColumns(ds[..i], 0, JposWidth) + WindowColumns(ds[i], 0, JposWidth)
    ensures MotionColumns(ds[..i + 1], JposWidth, JposWidth + JvelWidth) ==
      MotionColumns(ds[..i], JposWidth, JposWidth + JvelWidth) + WindowColumns(ds[i], JposWidth, JposWidth + JvelWidth)
    ensures ComRows(ds[..i + 1]) == ComRows(ds[..i]) + WindowComRows(ds[i])
  {
    assert ds[..i + 1][..i] == ds[..i];
  }

  /** Row `t` of window `i` is one of the stacked rows. */
  lemma {:induction false} WindowRowStacked(ds: seq<WindowData>, lo: nat, hi: nat, i: nat, t: nat)
    requires AllShaped(ds) && lo <= hi <= MotionWidth
    requires i < |ds| && t < |ds[i].motion|
    ensures ds[i].motion[t][lo..hi] in MotionColumns(ds, lo, hi)
    ensures Coords(ds[i].objComPos[t]) in ComRows(ds)
    decreases |ds|
  {
    var front := ds[..|ds| - 1];
    if i < |ds| - 1 {
      assert front[i] == ds[i];
      WindowRowStacked(front, lo, hi, i, t);
    } else {
      var last := ds[|ds| - 1];
      var mine := seq(|last.motion|, t requires 0 <= t < |last.motion| => last.motion[t][lo..hi]);
      assert mine[t] == ds[i].motion[t][lo..hi];
      var coms := seq(|last.objComPos|, t requires 0 <= t < |last.objComPos| => Coords(last.objComPos[t]));
      assert coms[t] == Coords(ds[i].objComPos[t]);
    }
  }

  predicate Columns(rows: seq<seq<real>>, c: nat) {
    forall r :: 0 <= r < |rows| ==> c < |rows[r]|
  }

  /** `v` is column `c`'s minimum: no row is below it and some row has it. */
  predicate IsColumnMin(rows: seq<seq<real>>, c: nat, v: real)
    requires Columns(rows, c)
  {
    (forall r :: 0 <= r < |rows| ==> v <= rows[r][c]) && (exists r :: 0 <= r < |rows| && rows[r][c] == v)
  }

  /** `v` is column `c`'s maximum: no row is above it and some row has it. */
  predicate IsColumnMax(rows: seq<seq<real>>, c: nat, v: real)
    requires Columns(rows, c)
  {
    (forall r :: 0 <= r < |rows| ==> rows[r][c] <= v) && (exists r :: 0 <= r < |rows| && rows[r][c] == v)
  }

  function ColumnMin(rows: seq<seq<real>>, c: nat): (v: real)
    requires |rows| > 0 && Columns(rows, c)
    ensures IsColumnMin(rows, c, v)
    decreases |rows|
  {
    if |rows| == 1 then rows[0][c]
    else
      var m := ColumnMin(rows[..|rows| - 1], c);
      var last := rows[|rows| - 1][c];
      if last < m then last else m
  }

  function ColumnMax(rows: seq<seq<real>>, c: nat): (v: real)
    requires |rows| > 0 && Columns(rows, c)
    ensures IsColumnMax(rows, c, v)
    decreases |rows|
  {
    if |rows| == 1 then rows[0][c]
    else
      var m := ColumnMax(rows[..|rows| - 1], c);
      var last := rows[|rows| - 1][c];
      if last > m then last else m
  }

  /** Every column's minimum and maximum (`min(axis=0)`, `max(axis=0)`). */
  predicate IsBounds(rows: seq<seq<real>>, width: nat, lo: seq<real>, hi: seq<real>)
    requires forall c :: 0 <= c < width ==> Columns(rows, c)
  {
    |lo| == width && |hi| == width &&
    forall c :: 0 <= c < width ==> IsColumnMin(rows, c, lo[c]) && IsColumnMax(rows, c, hi[c])
  }

  function ColumnMins(rows: seq<seq<real>>, width: nat): (lo: seq<real>)
    requires |rows| > 0 && forall r :: 0 <= r < |rows| ==> |rows[r]| == width
    ensures |lo| == width && forall c :: 0 <= c < width ==> IsColumnMin(rows, c, lo[c])
  {
    seq(width, c requires 0 <= c < width => ColumnMin(rows, c))
  }

  function ColumnMaxs(rows: seq<seq<real>>, width: nat): (hi: seq<real>)
    requires |rows| > 0 && forall r :: 0 <= r < |rows| ==> |rows[r]| == width
    ensures |hi| == width && forall c :: 0 <= c < width ==> IsColumnMax(rows, c, hi[c])
  {
    seq(width, c requires 0 <= c < width => ColumnMax(rows, c))
  }

  /** The statistics dictionary. */
  datatype Stats = Stats(
    jposMin: seq<real>, jposMax: seq<real>,
    jvelMin: seq<real>, jvelMax: seq<real>,
    comMin: seq<real>, comMax: seq<real>)

  predicate StatsShaped(s: Stats) {
    && |s.jposMin| == JposWidth && |s.jposMax| == JposWidth
    && |s.jvelMin| == JvelWidth && |s.jvelMax| == JvelWidth
    && |s.comMin| == 3 && |s.comMax| == 3
  }

  /** The statistics of a window dictionary, or `NoWindows` when there is no
      row to take a minimum over. */
  function StatsOf(ds: seq<WindowData>): (r: Result<Stats, PipelineError>)
    requires AllShaped(ds)
    ensures r.Failure? <==> RowCount(ds) == 0
    ensures r.Success? ==> StatsShaped(r.value)
  {
    if RowCount(ds) == 0 then Failure(NoWindows)
    else
      var jpos := MotionColumns(ds, 0, JposWidth);
      var jvel := MotionColumns(ds, JposWidth, JposWidth + JvelWidth);
      var com := ComRows(ds);
      Success(Stats(ColumnMins(jpos, JposWidth), ColumnMaxs(jpos, JposWidth),
                    ColumnMins(jvel, JvelWidth), ColumnMaxs(jvel, JvelWidth),
                    ColumnMins(com, 3), ColumnMaxs(com, 3)))
  }

  /** The statistics hold each column's minimum and maximum over every row of
      every window: no value lies outside them and both are attained. */
  lemma StatsOfBounds(ds: seq<WindowData>)
    requires AllShaped(ds) && StatsOf(ds).Success?
    ensures var s := StatsOf(ds).value;
      && IsBounds(MotionColumns(ds, 0, JposWidth), JposWidth, s.jposMin, s.jposMax)
      && IsBounds(MotionColumns(ds, JposWidth, JposWidth + JvelWidth), JvelWidth, s.jvelMin, s.jvelMax)
      && IsBounds(ComRows(ds), 3, s.comMin, s.comMax)
  {
  }

  /** With the statistics of a dictionary, every joint-position value and
      every centroid coordinate of every window normalises into [-1, 1]
      (wherever the column is not constant). */
  lemma StoredValuesNormaliseIntoRange(ds: seq<WindowData>, i: nat, t: nat, c: nat)
    requires AllShaped(ds) && StatsOf(ds).Success?
    requires i < |ds| && t < |ds[i].motion|
    ensures var s := StatsOf(ds).value;
      c < JposWidth && s.jposMin[c] < s.jposMax[c] ==>
        -1.0 <= Normalize(ds[i].motion[t][c], s.jposMin[c], s.jposMax[c]) <= 1.0
    ensures var s := StatsOf(ds).value;
      c < 3 && s.comMin[c] < s.comMax[c] ==>
        -1.0 <= Normalize(Coords(ds[i].objComPos[t])[c], s.comMin[c], s.comMax[c]) <= 1.0
  {
    var s := StatsOf(ds).value;
    StatsOfBounds(ds);
    WindowRowStacked(ds, 0, JposWidth, i, t);
    if c < JposWidth && s.jposMin[c] < s.jposMax[c] {
      var rows := MotionColumns(ds, 0, JposWidth);
      var r :| 0 <= r < |rows| && rows[r] == ds[i].motion[t][0..JposWidth];
      assert rows[r][c] == ds[i].motion[t][c];
      NormalizeRange(ds[i].motion[t][c], s.jposMin[c], s.jposMax[c]);
    }
    if c < 3 && s.comMin[c] < s.comMax[c] {
      var rows := ComRows(ds);
      var r :| 0 <= r < |rows| && rows[r] == Coords(ds[i].objComPos[t]);
      NormalizeRange(Coords(ds[i].objComPos[t])[c], s.comMin[c], s.comMax[c]);
    }
  }
}
