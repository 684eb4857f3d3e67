/**
 * Points in 3-space over the reals and the abstract rotation group the
 * dataset's kinematics and object poses are written against.  Rotation
 * matrices and quaternions of the implementation are both instances of one
 * group acting linearly on vectors; the model keeps only those laws.
 */
module Geometry {

  datatype Vec3 = Vec3(x: real, y: real, z: real)

  const Origin := Vec3(0.0, 0.0, 0.0)

  function Add(a: Vec3, b: Vec3): Vec3 {
    Vec3(a.x + b.x, a.y + b.y, a.z + b.z)
  }

  function Sub(a: Vec3, b: Vec3): Vec3 {
    Vec3(a.x - b.x, a.y - b.y, a.z - b.z)
  }

  function Scale(s: real, v: Vec3): Vec3 {
    Vec3(s * v.x, s * v.y, s * v.z)
  }

  /** The three coordinates of a point as a row of a `T X 3` array. */
  function Coords(v: Vec3): (row: seq<real>)
    ensures |row| == 3 && row[0] == v.x && row[1] == v.y && row[2] == v.z
  {
    [v.x, v.y, v.z]
  }

  /** Every point expressed relative to `c` (`points - c` with broadcasting). */
  function Recentre(points: seq<Vec3>, c: Vec3): (r: seq<Vec3>)
    ensures |r| == |points|
    ensures forall i :: 0 <= i < |points| ==> Add(r[i], c) == points[i]
  {
    seq(|points|, i requires 0 <= i < |points| => Sub(points[i], c))
  }

  function Sum(points: seq<Vec3>): Vec3
    decreases |points|
  {
    if |points| == 0 then Origin else Add(Sum(points[..|points| - 1]), points[|points| - 1])
  }

  /** The mean of the points (`verts.mean(dim=0)`); the mean of no points is not a number. */
  function Centroid(points: seq<Vec3>): Vec3
    requires |points| > 0
  {
    Scale(1.0 / |points| as real, Sum(points))
  }

  lemma {:induction false} SumRecentre(points: seq<Vec3>, c: Vec3)
    ensures Sum(Recentre(points, c)) == Sub(Sum(points), Scale(|points| as real, c))
    decreases |points|
  {
    if |points| > 0 {
      var n := |points|;
      var front := points[..n - 1];
      assert Recentre(points, c)[..n - 1] == Recentre(front, c);
      SumRecentre(front, c);
      var m := (n - 1) as real;
      var r := Recentre(points, c);
      calc {
        Sum(r);
        Add(Sum(r[..n - 1]), r[n - 1]);
        Add(Sub(Sum(front), Scale(m, c)), Sub(points[n - 1], c));
        { ShiftSum(Sum(front), points[n - 1], c, m); }
        Sub(Add(Sum(front), points[n - 1]), Scale(m + 1.0, c));
        { assert points[..n - 1] == front; }
        Sub(Sum(points), Scale(n as real, c));
      }
    }
  }

  lemma ShiftSum(s: Vec3, p: Vec3, c: Vec3, m: real)
    ensures Add(Sub(s, Scale(m, c)), Sub(p, c)) == Sub(Add(s, p), Scale(m + 1.0, c))
  {
    assert (m + 1.0) * c.x == m * c.x + c.x;
    assert (m + 1.0) * c.y == m * c.y + c.y;
    assert (m + 1.0) * c.z == m * c.z + c.z;
  }

  /** A point cloud moved onto its own centroid has its centroid at the origin. */
  lemma CentredCloudHasOriginCentroid(points: seq<Vec3>)
    requires |points| > 0
    ensures Centroid(Recentre(points, Centroid(points))) == Origin
  {
    var n := |points| as real;
    var s := Sum(points);
    var c := Centroid(points);
    SumRecentre(points, c);
    assert n * (1.0 / n) == 1.0;
    assert Sum(Recentre(points, c)) == Origin by {
      assert Scale(n, c) == Vec3(n * (1.0 / n) * s.x, n * (1.0 / n) * s.y, n * (1.0 / n) * s.z);
    }
  }

  /** The operations of a rotation representation: composition, inverse (the
      transpose of a rotation matrix, the conjugate of a unit quaternion), the
      identity, and the action on a vector. */
  datatype RotationGroup<!R> = RotationGroup(mul: (R, R) -> R, inv: R -> R, id: R, apply: (R, Vec3) -> Vec3)

  ghost predicate IsGroup<R(!new)>(g: RotationGroup<R>) {
    && (forall a, b, c :: g.mul(g.mul(a, b), c) == g.mul(a, g.mul(b, c)))
    && (forall a :: g.mul(g.id, a) == a)
    && (forall a :: g.mul(a, g.id) == a)
    && (forall a :: g.mul(g.inv(a), a) == g.id)
    && (forall a :: g.mul(a, g.inv(a)) == g.id)
  }

  /** Cancellation laws and the inverse of a product, from the group axioms. */
  lemma CancelLeft<R(!new)>(g: RotationGroup<R>, a: R, b: R)
    requires IsGroup(g)
    ensures g.mul(a, g.mul(g.inv(a), b)) == b
  {
    calc {
      g.mul(a, g.mul(g.inv(a), b));
      g.mul(g.mul(a, g.inv(a)), b);
      g.mul(g.id, b);
    }
  }

  lemma CancelRight<R(!new)>(g: RotationGroup<R>, a: R, b: R)
    requires IsGroup(g)
    ensures g.mul(g.mul(a, g.inv(b)), b) == a
    ensures g.mul(g.mul(a, b), g.inv(b)) == a
  {
    calc {
      g.mul(g.mul(a, g.inv(b)), b);
      g.mul(a, g.mul(g.inv(b), b));
      g.mul(a, g.id);
    }
    calc {
      g.mul(g.mul(a, b), g.inv(b));
      g.mul(a, g.mul(b, g.inv(b)));
      g.mul(a, g.id);
    }
  }

  /** A right inverse is the inverse. */
  lemma InverseUnique<R(!new)>(g: RotationGroup<R>, x: R, y: R)
    requires IsGroup(g) && g.mul(x, y) == g.id
    ensures g.inv(x) == y
  {
    calc {
      g.inv(x);
      g.mul(g.inv(x), g.id);
      g.mul(g.inv(x), g.mul(x, y));
      g.mul(g.mul(g.inv(x), x), y);
      g.mul(g.id, y);
      y;
    }
  }

  lemma InverseOfProduct<R(!new)>(g: RotationGroup<R>, a: R, b: R)
    requires IsGroup(g)
    ensures g.inv(g.mul(a, b)) == g.mul(g.inv(b), g.inv(a))
  {
    var y := g.mul(g.inv(b), g.inv(a));
    ProductRightInverse(g, a, b);
    InverseUnique(g, g.mul(a, b), y);
  }

  lemma ProductRightInverse<R(!new)>(g: RotationGroup<R>, a: R, b: R)
    requires IsGroup(g)
    ensures g.mul(g.mul(a, b), g.mul(g.inv(b), g.inv(a))) == g.id
  {
    CancelLeft(g, b, g.inv(a));
    calc {
      g.mul(g.mul(a, b), g.mul(g.inv(b), g.inv(a)));
      g.mul(a, g.mul(b, g.mul(g.inv(b), g.inv(a))));
      g.mul(a, g.inv(a));
    }
  }

  /** Rotations act additively on vectors. */
  ghost predicate IsLinearAction<R(!new)>(g: RotationGroup<R>) {
    forall a, u, v :: g.apply(a, Add(u, v)) == Add(g.apply(a, u), g.apply(a, v))
  }

  lemma ApplyOrigin<R(!new)>(g: RotationGroup<R>, rot: R)
    requires IsLinearAction(g)
    ensures g.apply(rot, Origin) == Origin
  {
    assert Add(Origin, Origin) == Origin;
    assert g.apply(rot, Add(Origin, Origin)) == Add(g.apply(rot, Origin), g.apply(rot, Origin));
  }

  /** `rot . p + pos` for every point `p` of a cloud (the per-frame body of
      `load_object_geometry_w_rest_geo` and of the keypoint placement). */
  function Place<R>(g: RotationGroup<R>, rot: R, pos: Vec3, points: seq<Vec3>): (r: seq<Vec3>)
    ensures |r| == |points|
  {
    seq(|points|, i requires 0 <= i < |points| => Add(g.apply(rot, points[i]), pos))
  }

  lemma {:induction false} SumPlace<R(!new)>(g: RotationGroup<R>, rot: R, pos: Vec3, points: seq<Vec3>)
    requires IsLinearAction(g)
    ensures Sum(Place(g, rot, pos, points)) == Add(g.apply(rot, Sum(points)), Scale(|points| as real, pos))
    decreases |points|
  {
    var n := |points|;
    if n == 0 {
      ApplyOrigin(g, rot);
    } else {
      var front, last := points[..n - 1], points[n - 1];
      assert Place(g, rot, pos, points)[..n - 1] == Place(g, rot, pos, front);
      SumPlace(g, rot, pos, front);
      assert points[..n - 1] == front;
      var r := g.apply(rot, Sum(front));
      var q := g.apply(rot, last);
      assert g.apply(rot, Add(Sum(front), last)) == Add(r, q);
      ScaleStep((n - 1) as real, pos);
    }
  }

  lemma ScaleStep(m: real, p: Vec3)
    ensures Add(Scale(m, p), p) == Scale(m + 1.0, p)
  {
  }

  lemma ScaleCancel(n: real, p: Vec3)
    requires n != 0.0
    ensures Scale(1.0 / n, Scale(n, p)) == p
  {
    assert (1.0 / n) * n == 1.0;
    assert (1.0 / n) * (n * p.x) == ((1.0 / n) * n) * p.x;
    assert (1.0 / n) * (n * p.y) == ((1.0 / n) * n) * p.y;
    assert (1.0 / n) * (n * p.z) == ((1.0 / n) * n) * p.z;
  }

  lemma ScaledZero(n: real, p: Vec3)
    requires n != 0.0 && Scale(1.0 / n, p) == Origin
    ensures p == Origin
  {
    ScaleCancel(1.0 / n, p);
    assert 1.0 / (1.0 / n) == n;
  }

  /** Placing a cloud whose centroid is the origin with a rotation and a
      translation puts its centroid at that translation. */
  lemma PlacedCentroid<R(!new)>(g: RotationGroup<R>, rot: R, pos: Vec3, points: seq<Vec3>)
    requires IsLinearAction(g) && |points| > 0 && Centroid(points) == Origin
    ensures Centroid(Place(g, rot, pos, points)) == pos
  {
    var n := |points| as real;
    ScaledZero(n, Sum(points));
    ApplyOrigin(g, rot);
    SumPlace(g, rot, pos, points);
    ScaleCancel(n, pos);
  }
}
