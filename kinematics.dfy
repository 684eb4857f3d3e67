/**
 * The skeleton's kinematic chain: `local2global_pose`, `quat_ik_torch` and
 * `quat_fk_torch`.  A skeleton is a parent table in which the root's parent is
 * -1 and every other joint's parent has a smaller index.  Each frame of a
 * batch is processed independently, so the model works on one frame.
 */
module Kinematics {
  import opened Geometry

  predicate WellFormedParents(parents: seq<int>) {
    && |parents| > 0
    && parents[0] == -1
    && forall j :: 1 <= j < |parents| ==> 0 <= parents[j] < j
  }

  /** The rotation of joint `j` in the world frame: the root keeps its own
      rotation, every other joint composes its parent's world rotation with its
      own local one. */
  function GlobalRotation<R>(g: RotationGroup<R>, parents: seq<int>, local: seq<R>, j: nat): R
    requires WellFormedParents(parents) && j < |parents| && j < |local|
    decreases j
  {
    if j == 0 then local[0] else g.mul(GlobalRotation(g, parents, local, parents[j] as nat), local[j])
  }

  function GlobalRotations<R>(g: RotationGroup<R>, parents: seq<int>, local: seq<R>): (global: seq<R>)
    requires WellFormedParents(parents) && |parents| <= |local|
    ensures |global| == |parents|
  {
    seq(|parents|, j requires 0 <= j < |parents| => GlobalRotation(g, parents, local, j))
  }

  /** `local2global_pose`: a clone of the local rotations is updated joint by
      joint in index order; a joint whose parent index is non-negative becomes
      its parent's (already updated) rotation times its own.  Joints beyond the
      parent table keep their local rotation. */
  method Local2GlobalPose<R>(g: RotationGroup<R>, parents: seq<int>, local: seq<R>) returns (global: seq<R>)
    requires WellFormedParents(parents) && |parents| <= |local|
    ensures |global| == |local|
    ensures global[..|parents|] == GlobalRotations(g, parents, local)
    ensures global[|parents|..] == local[|parents|..]
  {
    var buf := new R[|local|](i requires 0 <= i < |local| => local[i]);
    for j := 0 to |parents|
      invariant forall i :: 0 <= i < j ==> buf[i] == GlobalRotation(g, parents, local, i)
      invariant forall i :: j <= i < |local| ==> buf[i] == local[i]
    {
      ghost var before := buf[..];
      var parent := parents[j];
      if parent >= 0 {
        assert 0 < j && parent < j;
        buf[j] := g.mul(buf[parent], buf[j]);
      }
      assert buf[j] == GlobalRotation(g, parents, local, j);
      forall i | 0 <= i < j ensures buf[i] == GlobalRotation(g, parents, local, i) {
        assert buf[i] == before[i];
      }
    }
    global := buf[..];
  }

  /** `quat_ik_torch`: the root keeps its world rotation; every other joint's
      local rotation is its parent's inverse world rotation times its own. */
  function QuatIk<R>(g: RotationGroup<R>, parents: seq<int>, grot: seq<R>): (lrot: seq<R>)
    requires WellFormedParents(parents) && |grot| == |parents|
    ensures |lrot| == |grot|
  {
    seq(|grot|, j requires 0 <= j < |grot| =>
      if j == 0 then grot[0] else g.mul(g.inv(grot[parents[j]]), grot[j]))
  }

  /** Inverse kinematics undoes the local-to-global composition. */
  lemma IkOfGlobal<R(!new)>(g: RotationGroup<R>, parents: seq<int>, local: seq<R>)
    requires IsGroup(g) && WellFormedParents(parents) && |local| == |parents|
    ensures QuatIk(g, parents, GlobalRotations(g, parents, local)) == local
  {
    var global := GlobalRotations(g, parents, local);
    var back := QuatIk(g, parents, global);
    forall j | 0 <= j < |local| ensures back[j] == local[j] {
      if j > 0 {
        var gp := global[parents[j]];
        assert global[j] == g.mul(gp, local[j]);
        calc {
          back[j];
          g.mul(g.inv(gp), g.mul(gp, local[j]));
          g.mul(g.mul(g.inv(gp), gp), local[j]);
          g.mul(g.id, local[j]);
        }
      }
    }
  }

  /** Composing the rotations inverse kinematics returns gives back the world
      rotations it started from. */
  lemma GlobalOfIk<R(!new)>(g: RotationGroup<R>, parents: seq<int>, grot: seq<R>)
    requires IsGroup(g) && WellFormedParents(parents) && |grot| == |parents|
    ensures GlobalRotations(g, parents, QuatIk(g, parents, grot)) == grot
  {
    var lrot := QuatIk(g, parents, grot);
    forall j | 0 <= j < |grot| ensures GlobalRotation(g, parents, lrot, j) == grot[j] {
      GlobalOfIkAt(g, parents, grot, j);
    }
  }

  lemma {:induction false} GlobalOfIkAt<R(!new)>(g: RotationGroup<R>, parents: seq<int>, grot: seq<R>, j: nat)
    requires IsGroup(g) && WellFormedParents(parents) && |grot| == |parents| && j < |grot|
    ensures GlobalRotation(g, parents, QuatIk(g, parents, grot), j) == grot[j]
    decreases j
  {
    if j > 0 {
      var p := parents[j] as nat;
      var lrot := QuatIk(g, parents, grot);
      GlobalOfIkAt(g, parents, grot, p);
      var gp, gj := grot[p], grot[j];
      assert lrot[j] == g.mul(g.inv(gp), gj);
      assert GlobalRotation(g, parents, lrot, j) == g.mul(gp, g.mul(g.inv(gp), gj));
      CancelLeft(g, gp, gj);
    }
  }

  /** Two skeletons that agree on their first joints give those joints the same
      world rotations (the 24-joint table extends the 22-joint one). */
  lemma {:induction false} GlobalRotationPrefix<R>(g: RotationGroup<R>, short: seq<int>, long: seq<int>, local: seq<R>, j: nat)
    requires WellFormedParents(short) && WellFormedParents(long)
    requires |short| <= |long| && long[..|short|] == short
    requires j < |short| && j < |local|
    ensures GlobalRotation(g, short, local, j) == GlobalRotation(g, long, local, j)
    decreases j
  {
    if j > 0 {
      assert long[j] == short[j];
      GlobalRotationPrefix(g, short, long, local, short[j] as nat);
    }
  }

  /** `quat_fk_torch` needs the rotation of every joint's parent: there are at
      least as many local rotations as the highest parent index requires. */
  predicate RotationsCoverParents(parents: seq<int>, lrot_count: nat) {
    lrot_count >= 1 && forall i :: 1 <= i < |parents| ==> parents[i] < lrot_count
  }

  /** The world position of joint `j`: the root's entry is already absolute,
      every other joint sits at its parent's position plus the parent's world
      rotation applied to its rest offset. */
  function GlobalPosition<R>(g: RotationGroup<R>, parents: seq<int>, lrot: seq<R>, lpos: seq<Vec3>, j: nat): Vec3
    requires WellFormedParents(parents) && RotationsCoverParents(parents, |lrot|)
    requires |parents| <= |lpos| && j < |parents|
    decreases j
  {
    if j == 0 then lpos[0]
    else
      var p := parents[j] as nat;
      Add(g.apply(GlobalRotation(g, parents, lrot, p), lpos[j]), GlobalPosition(g, parents, lrot, lpos, p))
  }

  function Min(a: int, b: int): int {
    if a <= b then a else b
  }

  /** `quat_fk_torch`: world positions for every joint of the parent table,
      world rotations only for the joints that have a local rotation. */
  method QuatFk<R>(g: RotationGroup<R>, parents: seq<int>, lrot: seq<R>, lpos: seq<Vec3>)
    returns (gr: seq<R>, gp: seq<Vec3>)
    requires WellFormedParents(parents) && RotationsCoverParents(parents, |lrot|)
    requires |parents| <= |lpos|
    ensures |gp| == |parents| && |gr| == Min(|lrot|, |parents|)
    ensures forall j :: 0 <= j < |gr| ==> gr[j] == GlobalRotation(g, parents, lrot, j)
    ensures forall j :: 0 <= j < |gp| ==> gp[j] == GlobalPosition(g, parents, lrot, lpos, j)
  {
    gp, gr := [lpos[0]], [lrot[0]];
    for i := 1 to |parents|
      invariant |gp| == i && |gr| == Min(|lrot|, i)
      invariant forall j :: 0 <= j < |gr| ==> gr[j] == GlobalRotation(g, parents, lrot, j)
      invariant forall j :: 0 <= j < i ==> gp[j] == GlobalPosition(g, parents, lrot, lpos, j)
    {
      var parent := parents[i];
      gp := gp + [Add(g.apply(gr[parent], lpos[i]), gp[parent])];
      if i < |lrot| {
        gr := gr + [g.mul(gr[parent], lrot[i])];
      }
    }
  }

  /** Moving the root by `d` moves every joint by `d`: forward kinematics
      commutes with translation, so relative joint motion is unaffected. */
  lemma {:induction false} FkTranslation<R>(g: RotationGroup<R>, parents: seq<int>, lrot: seq<R>, lpos: seq<Vec3>, d: Vec3, j: nat)
    requires WellFormedParents(parents) && RotationsCoverParents(parents, |lrot|)
    requires |parents| <= |lpos| && j < |parents|
    ensures GlobalPosition(g, parents, lrot, lpos[0 := Add(lpos[0], d)], j)
         == Add(GlobalPosition(g, parents, lrot, lpos, j), d)
    decreases j
  {
    if j > 0 {
      FkTranslation(g, parents, lrot, lpos, d, parents[j] as nat);
    }
  }
}
