/**
 * Min-max normalisation of joint positions and object centroids into [-1, 1]
 * (`normalize_jpos_min_max`, `normalize_obj_pos_min_max`) and its inverse
 * (`de_normalize_jpos_min_max`, `de_normalize_obj_pos_min_max`). Both work
 * column by column against per-column bounds.
 */
module Normalization {

  /** `(v - lo) / (hi - lo) * 2 - 1`. */
  function Normalize(v: real, lo: real, hi: real): real
    requires hi != lo
  {
    (v - lo) / (hi - lo) * 2.0 - 1.0
  }

  /** `(n + 1) * 0.5 * (hi - lo) + lo`. */
  function DeNormalize(n: real, lo: real, hi: real): real {
    (n + 1.0) * 0.5 * (hi - lo) + lo
  }

  lemma DivMul(a: real, d: real)
    requires d != 0.0
    ensures a / d * d == a
  {
  }

  lemma DeNormalizeNormalize(v: real, lo: real, hi: real)
    requires hi != lo
    ensures DeNormalize(Normalize(v, lo, hi), lo, hi) == v
  {
    var x := (v - lo) / (hi - lo);
    DivMul(v - lo, hi - lo);
    assert (x * 2.0 - 1.0 + 1.0) * 0.5 == x;
  }

  lemma NormalizeDeNormalize(n: real, lo: real, hi: real)
    requires hi != lo
    ensures Normalize(DeNormalize(n, lo, hi), lo, hi) == n
  {
    var y := (n + 1.0) * 0.5;
    assert DeNormalize(n, lo, hi) - lo == y * (hi - lo);
    assert y * (hi - lo) / (hi - lo) == y;
  }

  lemma MulNonNeg(x: real, d: real)
    requires 0.0 <= x && 0.0 < d
    ensures 0.0 <= x * d
  {
  }

  /** For a positive divisor, `0 <= a / d <= 1` exactly when `0 <= a <= d`. */
  lemma UnitQuotient(a: real, d: real)
    requires 0.0 < d
    ensures 0.0 <= a / d <= 1.0 <==> 0.0 <= a <= d
  {
    var x := a / d;
    DivMul(a, d);
    if 0.0 <= x {
      MulNonNeg(x, d);
    } else {
      MulNonNeg(-x, d);
      assert -x * d == -(x * d);
    }
    if x <= 1.0 {
      MulNonNeg(1.0 - x, d);
      assert (1.0 - x) * d == d - x * d;
    } else {
      MulNonNeg(x - 1.0, d);
      assert (x - 1.0) * d == x * d - d;
    }
  }

  /** With a proper interval, a value lies between the bounds exactly when its
      normalised value lies in [-1, 1]; the bounds go to -1 and 1. */
  lemma NormalizeRange(v: real, lo: real, hi: real)
    requires lo < hi
    ensures lo <= v <= hi <==> -1.0 <= Normalize(v, lo, hi) <= 1.0
    ensures Normalize(lo, lo, hi) == -1.0 && Normalize(hi, lo, hi) == 1.0
  {
    UnitQuotient(v - lo, hi - lo);
  }

  /** Normalisation keeps the order of values. */
  lemma NormalizeMonotone(v: real, w: real, lo: real, hi: real)
    requires lo < hi && v < w
    ensures Normalize(v, lo, hi) < Normalize(w, lo, hi)
  {
    var d := hi - lo;
    DivMul(v - lo, d);
    DivMul(w - lo, d);
    assert (v - lo) / d < (w - lo) / d;
  }

  /** Per-column bounds every column of which can be divided by. */
  predicate NonDegenerate(lo: seq<real>, hi: seq<real>) {
    |lo| == |hi| && forall i :: 0 <= i < |lo| ==> lo[i] != hi[i]
  }

  function NormalizeRow(row: seq<real>, lo: seq<real>, hi: seq<real>): (r: seq<real>)
    requires NonDegenerate(lo, hi) && |row| == |lo|
    ensures |r| == |row|
  {
    seq(|row|, i requires 0 <= i < |row| => Normalize(row[i], lo[i], hi[i]))
  }

  function DeNormalizeRow(row: seq<real>, lo: seq<real>, hi: seq<real>): (r: seq<real>)
    requires |lo| == |hi| && |row| == |lo|
    ensures |r| == |row|
  {
    seq(|row|, i requires 0 <= i < |row| => DeNormalize(row[i], lo[i], hi[i]))
  }

  /** De-normalising a normalised row gives the row back. */
  lemma RowRoundTrip(row: seq<real>, lo: seq<real>, hi: seq<real>)
    requires NonDegenerate(lo, hi) && |row| == |lo|
    ensures DeNormalizeRow(NormalizeRow(row, lo, hi), lo, hi) == row
  {
    forall i | 0 <= i < |row|
      ensures DeNormalizeRow(NormalizeRow(row, lo, hi), lo, hi)[i] == row[i]
    {
      DeNormalizeNormalize(row[i], lo[i], hi[i]);
    }
  }

  /** Normalising a de-normalised row gives the row back. */
  lemma RowRoundTripInverse(row: seq<real>, lo: seq<real>, hi: seq<real>)
    requires NonDegenerate(lo, hi) && |row| == |lo|
    ensures NormalizeRow(DeNormalizeRow(row, lo, hi), lo, hi) == row
  {
    forall i | 0 <= i < |row|
      ensures NormalizeRow(DeNormalizeRow(row, lo, hi), lo, hi)[i] == row[i]
    {
      NormalizeDeNormalize(row[i], lo[i], hi[i]);
    }
  }

  /** A row inside its column bounds normalises into [-1, 1]. */
  lemma RowInUnitRange(row: seq<real>, lo: seq<real>, hi: seq<real>)
    requires |lo| == |hi| == |row|
    requires forall i :: 0 <= i < |row| ==> lo[i] < hi[i] && lo[i] <= row[i] <= hi[i]
    ensures NonDegenerate(lo, hi)
    ensures forall i :: 0 <= i < |row| ==> -1.0 <= NormalizeRow(row, lo, hi)[i] <= 1.0
  {
    forall i | 0 <= i < |row|
      ensures -1.0 <= NormalizeRow(row, lo, hi)[i] <= 1.0
    {
      NormalizeRange(row[i], lo[i], hi[i]);
    }
  }
}
