/**
 * `process_window_data`: a canonicalised window is moved so that the first
 * frame's root sits above the origin, joint positions come from forward
 * kinematics, velocities are forward differences, and world joint rotations
 * come from `local2global_pose`.
 */
module WindowMotion {
  import opened Geometry
  import opened Kinematics

  /** `move_to_zero_trans`: the first frame's root translation with z set to 0. */
  function MoveToZero(rootTrans: seq<Vec3>): Vec3
    requires |rootTrans| > 0
  {
    Vec3(rootTrans[0].x, rootTrans[0].y, 0.0)
  }

  /** Every point moved by `d`. */
  function Translate(points: seq<Vec3>, d: Vec3): (r: seq<Vec3>)
    ensures |r| == |points|
  {
    seq(|points|, i requires 0 <= i < |points| => Add(points[i], d))
  }

  /** After the move the first frame's root is at x = y = 0 and keeps its height. */
  lemma FirstFrameAtOrigin(rootTrans: seq<Vec3>)
    requires |rootTrans| > 0
    ensures Recentre(rootTrans, MoveToZero(rootTrans))[0] == Vec3(0.0, 0.0, rootTrans[0].z)
  {
  }

  /** Subtracting one offset from every frame keeps every inter-frame difference. */
  lemma RecentreKeepsDifferences(points: seq<Vec3>, c: Vec3, i: nat, j: nat)
    requires i < |points| && j < |points|
    ensures Sub(Recentre(points, c)[i], Recentre(points, c)[j]) == Sub(points[i], points[j])
  {
  }

  /** Rest offsets with the root entry replaced by the root translation minus
      `trans2joint` (`curr_seq_local_jpos` of one frame). */
  function LocalJointPositions(restOffsets: seq<Vec3>, root: Vec3, trans2joint: Vec3): (lpos: seq<Vec3>)
    requires |restOffsets| > 0
    ensures |lpos| == |restOffsets|
  {
    restOffsets[0 := Sub(root, trans2joint)]
  }

  predicate Uniform<T>(frames: seq<seq<T>>, width: nat) {
    forall t :: 0 <= t < |frames| ==> |frames[t]| == width
  }

  /** `global_jvel`: `jpos[t+1] - jpos[t]` for every frame but the last, which
      gets a row of zeros. */
  function Velocity(jpos: seq<seq<Vec3>>, joints: nat): (vel: seq<seq<Vec3>>)
    requires Uniform(jpos, joints)
    ensures |vel| == |jpos| && Uniform(vel, joints)
    ensures |jpos| > 0 ==> vel[|jpos| - 1] == Zeros(joints)
  {
    var vel := seq(|jpos|, t requires 0 <= t < |jpos| =>
      if t + 1 < |jpos| then Step(jpos[t], jpos[t + 1]) else Zeros(joints));
    assert |jpos| > 0 ==> vel[|jpos| - 1] == Zeros(joints);
    vel
  }

  function Zeros(n: nat): (row: seq<Vec3>)
    ensures |row| == n && forall j :: 0 <= j < n ==> row[j] == Origin
  {
    seq(n, j => Origin)
  }

  /** One velocity row: how far each joint moves between two frames. */
  function Step(cur: seq<Vec3>, next: seq<Vec3>): (row: seq<Vec3>)
    requires |next| == |cur|
    ensures |row| == |cur|
  {
    seq(|cur|, j requires 0 <= j < |cur| => Sub(next[j], cur[j]))
  }

  lemma StepTranslated(cur: seq<Vec3>, next: seq<Vec3>, d: Vec3)
    requires |next| == |cur|
    ensures Step(Translate(cur, d), Translate(next, d)) == Step(cur, next)
  {
    forall j | 0 <= j < |cur|
      ensures Step(Translate(cur, d), Translate(next, d))[j] == Step(cur, next)[j]
    {
      SubTranslated(next[j], cur[j], d);
    }
  }

  /** Every joint of `cur` moved by its own row of `row`. */
  function Advance(cur: seq<Vec3>, row: seq<Vec3>): (next: seq<Vec3>)
    requires |row| == |cur|
    ensures |next| == |cur|
  {
    seq(|cur|, j requires 0 <= j < |cur| => Add(cur[j], row[j]))
  }

  lemma AdvanceStep(cur: seq<Vec3>, next: seq<Vec3>)
    requires |next| == |cur|
    ensures Advance(cur, Step(cur, next)) == next
  {
  }

  lemma VelocityAt(jpos: seq<seq<Vec3>>, joints: nat, t: nat)
    requires Uniform(jpos, joints) && t + 1 < |jpos|
    ensures Velocity(jpos, joints)[t] == Step(jpos[t], jpos[t + 1])
  {
  }

  /** The first frame's positions plus the first `t` velocity rows. */
  function Accumulate(start: seq<Vec3>, vel: seq<seq<Vec3>>, t: nat): (p: seq<Vec3>)
    requires t <= |vel| && Uniform(vel, |start|)
    ensures |p| == |start|
    decreases t
  {
    if t == 0 then start else Advance(Accumulate(start, vel, t - 1), vel[t - 1])
  }

  /** Velocities lose nothing but the first frame: summing them from the first
      frame rebuilds every frame. */
  lemma {:induction false} VelocityIntegrates(jpos: seq<seq<Vec3>>, joints: nat, t: nat)
    requires Uniform(jpos, joints) && t < |jpos|
    ensures Accumulate(jpos[0], Velocity(jpos, joints), t) == jpos[t]
    decreases t
  {
    if t > 0 {
      var vel := Velocity(jpos, joints);
      VelocityIntegrates(jpos, joints, t - 1);
      VelocityAt(jpos, joints, t - 1);
      AdvanceStep(jpos[t - 1], jpos[t]);
      assert Accumulate(jpos[0], vel, t) == Advance(jpos[t - 1], vel[t - 1]);
    }
  }

  /** Every joint of every frame moved by `d`. */
  function TranslateFrames(frames: seq<seq<Vec3>>, d: Vec3): (r: seq<seq<Vec3>>)
    ensures |r| == |frames|
    ensures forall t :: 0 <= t < |frames| ==> r[t] == Translate(frames[t], d)
  {
    seq(|frames|, t requires 0 <= t < |frames| => Translate(frames[t], d))
  }

  lemma SubTranslated(a: Vec3, b: Vec3, d: Vec3)
    ensures Sub(Add(a, d), Add(b, d)) == Sub(a, b)
  {
  }

  /** Velocities do not see a translation applied to every joint of every frame. */
  lemma VelocityTranslationInvariant(jpos: seq<seq<Vec3>>, joints: nat, d: Vec3)
    requires Uniform(jpos, joints)
    ensures Uniform(TranslateFrames(jpos, d), joints)
    ensures Velocity(TranslateFrames(jpos, d), joints) == Velocity(jpos, joints)
  {
    var moved := TranslateFrames(jpos, d);
    assert Uniform(moved, joints);
    var a := Velocity(moved, joints);
    var b := Velocity(jpos, joints);
    forall t | 0 <= t < |jpos|
      ensures a[t] == b[t]
    {
      if t + 1 < |jpos| {
        VelocityAt(moved, joints, t);
        VelocityAt(jpos, joints, t);
        StepTranslated(jpos[t], jpos[t + 1], d);
      }
    }
  }

  datatype WindowQuery<R> = WindowQuery(
    globalJpos: seq<seq<Vec3>>,
    globalJvel: seq<seq<Vec3>>,
    globalRot: seq<seq<R>>,
    objTrans: seq<Vec3>,
    objRotMat: seq<R>,
    objComPos: seq<Vec3>)

  /** The shapes `process_window_data` works with: `T` frames of everything, 22
      local rotations per frame, a 22-joint table for `local2global_pose` and a
      24-joint table (with at least as many rest offsets) for forward kinematics. */
  predicate WindowShapes<R>(skel22: seq<int>, skel24: seq<int>, restOffsets: seq<Vec3>,
                            rootTrans: seq<Vec3>, localRot: seq<seq<R>>,
                            objTrans: seq<Vec3>, objRot: seq<R>, centers: seq<Vec3>)
  {
    && WellFormedParents(skel22) && WellFormedParents(skel24)
    && RotationsCoverParents(skel24, |skel22|)
    && |skel24| <= |restOffsets|
    && |rootTrans| > 0
    && |localRot| == |rootTrans| && |objTrans| == |rootTrans|
    && |objRot| == |rootTrans| && |centers| == |rootTrans|
    && Uniform(localRot, |skel22|)
  }

  function FramePositions<R>(g: RotationGroup<R>, skel24: seq<int>, lrot: seq<R>, lpos: seq<Vec3>): (p: seq<Vec3>)
    requires WellFormedParents(skel24) && RotationsCoverParents(skel24, |lrot|) && |skel24| <= |lpos|
    ensures |p| == |skel24|
  {
    seq(|skel24|, j requires 0 <= j < |skel24| => GlobalPosition(g, skel24, lrot, lpos, j))
  }

  /** The window's joint positions, velocities and world rotations, and the
      object translation and centroid, all moved by `move_to_zero_trans`. */
  function ProcessWindowData<R>(g: RotationGroup<R>, skel22: seq<int>, skel24: seq<int>,
                                restOffsets: seq<Vec3>, trans2joint: Vec3,
                                rootTrans: seq<Vec3>, localRot: seq<seq<R>>,
                                objTrans: seq<Vec3>, objRot: seq<R>, centers: seq<Vec3>): (q: WindowQuery<R>)
    requires WindowShapes(skel22, skel24, restOffsets, rootTrans, localRot, objTrans, objRot, centers)
    ensures |q.globalJpos| == |rootTrans| && Uniform(q.globalJpos, |skel24|)
    ensures |q.globalJvel| == |rootTrans| && Uniform(q.globalJvel, |skel24|)
    ensures |q.globalRot| == |rootTrans| && Uniform(q.globalRot, |skel22|)
    ensures q.objRotMat == objRot && |q.objComPos| == |rootTrans|
  {
    var move := MoveToZero(rootTrans);
    var root := Recentre(rootTrans, move);
    var jpos := seq(|rootTrans|, t requires 0 <= t < |rootTrans| =>
      FramePositions(g, skel24, localRot[t], LocalJointPositions(restOffsets, root[t], trans2joint)));
    WindowQuery(
      jpos,
      Velocity(jpos, |skel24|),
      seq(|rootTrans|, t requires 0 <= t < |rootTrans| => GlobalRotations(g, skel22, localRot[t])),
      Recentre(objTrans, move),
      objRot,
      Recentre(centers, move))
  }

  /** What `process_window_data` computes: one offset, `move_to_zero_trans`, is
      taken off the human root, the object translation and the centroid alike,
      so the first root joint sits at height z above the origin, less
      `trans2joint`; velocities are forward differences of the positions with
      a zero last row; rotations are world rotations of the local ones. */
  lemma ProcessedWindowMovedToZero<R>(g: RotationGroup<R>, skel22: seq<int>, skel24: seq<int>,
                                      restOffsets: seq<Vec3>, trans2joint: Vec3,
                                      rootTrans: seq<Vec3>, localRot: seq<seq<R>>,
                                      objTrans: seq<Vec3>, objRot: seq<R>, centers: seq<Vec3>)
    requires WindowShapes(skel22, skel24, restOffsets, rootTrans, localRot, objTrans, objRot, centers)
    ensures var q := ProcessWindowData(g, skel22, skel24, restOffsets, trans2joint,
                                       rootTrans, localRot, objTrans, objRot, centers);
      && (forall t :: 0 <= t < |rootTrans| ==>
            && Add(q.objTrans[t], MoveToZero(rootTrans)) == objTrans[t]
            && Add(q.objComPos[t], MoveToZero(rootTrans)) == centers[t]
            && Add(Add(q.globalJpos[t][0], trans2joint), MoveToZero(rootTrans)) == rootTrans[t]
            && q.globalRot[t] == GlobalRotations(g, skel22, localRot[t]))
      && q.globalJpos[0][0] == Sub(Vec3(0.0, 0.0, rootTrans[0].z), trans2joint)
      && (forall t :: 0 <= t < |rootTrans| - 1 ==> q.globalJvel[t] == Step(q.globalJpos[t], q.globalJpos[t + 1]))
      && q.globalJvel[|rootTrans| - 1] == Zeros(|skel24|)
  {
    var q := ProcessWindowData(g, skel22, skel24, restOffsets, trans2joint,
                               rootTrans, localRot, objTrans, objRot, centers);
    var root := Recentre(rootTrans, MoveToZero(rootTrans));
    FirstFrameAtOrigin(rootTrans);
    forall t | 0 <= t < |rootTrans|
      ensures q.globalJpos[t][0] == Sub(root[t], trans2joint)
    {
      var lpos := LocalJointPositions(restOffsets, root[t], trans2joint);
      assert q.globalJpos[t] == FramePositions(g, skel24, localRot[t], lpos);
      assert q.globalJpos[t][0] == GlobalPosition(g, skel24, localRot[t], lpos, 0);
    }
    forall t | 0 <= t < |rootTrans| - 1
      ensures q.globalJvel[t] == Step(q.globalJpos[t], q.globalJpos[t + 1])
    {
      VelocityAt(q.globalJpos, |skel24|, t);
    }
  }

  /** The vertical part of a translation. */
  function Vertical(d: Vec3): Vec3 {
    Vec3(0.0, 0.0, d.z)
  }

  lemma TranslatedRoot(rootTrans: seq<Vec3>, d: Vec3, t: nat)
    requires t < |rootTrans|
    ensures var moved := Translate(rootTrans, d);
      Recentre(moved, MoveToZero(moved))[t] == Add(Recentre(rootTrans, MoveToZero(rootTrans))[t], Vertical(d))
  {
  }

  /** Canonicalisation invariance: translating the whole captured window (human
      root, object, centroid) by any `d` leaves the velocities and rotations
      unchanged, and moves positions only by the vertical part of `d`; the
      horizontal placement of a capture is forgotten. */
  lemma WindowTranslationInvariance<R>(g: RotationGroup<R>, skel22: seq<int>, skel24: seq<int>,
                                       restOffsets: seq<Vec3>, trans2joint: Vec3,
                                       rootTrans: seq<Vec3>, localRot: seq<seq<R>>,
                                       objTrans: seq<Vec3>, objRot: seq<R>, centers: seq<Vec3>, d: Vec3)
    requires WindowShapes(skel22, skel24, restOffsets, rootTrans, localRot, objTrans, objRot, centers)
    ensures WindowShapes(skel22, skel24, restOffsets, Translate(rootTrans, d), localRot,
                         Translate(objTrans, d), objRot, Translate(centers, d))
    ensures var q := ProcessWindowData(g, skel22, skel24, restOffsets, trans2joint,
                                       rootTrans, localRot, objTrans, objRot, centers);
            var q' := ProcessWindowData(g, skel22, skel24, restOffsets, trans2joint,
                                        Translate(rootTrans, d), localRot,
                                        Translate(objTrans, d), objRot, Translate(centers, d));
            && q'.globalJvel == q.globalJvel
            && q'.globalRot == q.globalRot
            && q'.objRotMat == q.objRotMat
            && q'.objTrans == Translate(q.objTrans, Vertical(d))
            && q'.objComPos == Translate(q.objComPos, Vertical(d))
            && q'.globalJpos == TranslateFrames(q.globalJpos, Vertical(d))
  {
    var T := |rootTrans|;
    var q := ProcessWindowData(g, skel22, skel24, restOffsets, trans2joint,
                               rootTrans, localRot, objTrans, objRot, centers);
    var q' := ProcessWindowData(g, skel22, skel24, restOffsets, trans2joint,
                                Translate(rootTrans, d), localRot,
                                Translate(objTrans, d), objRot, Translate(centers, d));
    var root := Recentre(rootTrans, MoveToZero(rootTrans));
    var moved := Translate(rootTrans, d);
    var root' := Recentre(moved, MoveToZero(moved));
    var v := Vertical(d);
    forall t | 0 <= t < T
      ensures q'.globalJpos[t] == Translate(q.globalJpos[t], v)
    {
      TranslatedRoot(rootTrans, d, t);
      var lpos := LocalJointPositions(restOffsets, root[t], trans2joint);
      assert LocalJointPositions(restOffsets, root'[t], trans2joint) == lpos[0 := Add(lpos[0], v)];
      forall j | 0 <= j < |skel24|
        ensures q'.globalJpos[t][j] == Add(q.globalJpos[t][j], v)
      {
        FkTranslation(g, skel24, localRot[t], lpos, v, j);
      }
    }
    assert q'.globalJpos == TranslateFrames(q.globalJpos, v);
    VelocityTranslationInvariant(q.globalJpos, |skel24|, v);
  }
}
