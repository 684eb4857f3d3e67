/**
 * Object rotations relative to a reference frame
 * (`prep_rel_obj_rot_mat_w_reference_mat`) and back (`rel_rot_to_seq`).  The
 * source multiplies by the transpose of the reference rotation matrix, which
 * is its inverse; the model uses the group inverse.
 */
module RelativeRotation {
  import opened Geometry

  /** Every frame's rotation times the inverse of the reference rotation. */
  function PrepRelRotation<R>(g: RotationGroup<R>, objRot: seq<R>, reference: R): (rel: seq<R>)
    ensures |rel| == |objRot|
  {
    seq(|objRot|, t requires 0 <= t < |objRot| => g.mul(objRot[t], g.inv(reference)))
  }

  /** Every relative rotation times the first frame's rotation of `objRot`. */
  function RelRotToSeq<R>(g: RotationGroup<R>, rel: seq<R>, objRot: seq<R>): (rot: seq<R>)
    requires |objRot| > 0
    ensures |rot| == |rel|
  {
    seq(|rel|, t requires 0 <= t < |rel| => g.mul(rel[t], objRot[0]))
  }

  /** Taking rotations relative to a sequence's first frame and multiplying
      back by that frame recovers the sequence. */
  lemma RelativeThenBack<R(!new)>(g: RotationGroup<R>, objRot: seq<R>)
    requires IsGroup(g) && |objRot| > 0
    ensures RelRotToSeq(g, PrepRelRotation(g, objRot, objRot[0]), objRot) == objRot
  {
    var rel := PrepRelRotation(g, objRot, objRot[0]);
    var back := RelRotToSeq(g, rel, objRot);
    forall t | 0 <= t < |objRot|
      ensures back[t] == objRot[t]
    {
      assert back[t] == g.mul(rel[t], objRot[0]);
      assert rel[t] == g.mul(objRot[t], g.inv(objRot[0]));
      CancelRight(g, objRot[t], objRot[0]);
    }
  }

  /** Multiplying relative rotations by a sequence's first frame and taking
      them relative to that frame again recovers the relative rotations. */
  lemma BackThenRelative<R(!new)>(g: RotationGroup<R>, rel: seq<R>, objRot: seq<R>)
    requires IsGroup(g) && |objRot| > 0
    ensures PrepRelRotation(g, RelRotToSeq(g, rel, objRot), objRot[0]) == rel
  {
    var rot := RelRotToSeq(g, rel, objRot);
    var again := PrepRelRotation(g, rot, objRot[0]);
    forall t | 0 <= t < |rel|
      ensures again[t] == rel[t]
    {
      assert again[t] == g.mul(rot[t], g.inv(objRot[0]));
      assert rot[t] == g.mul(rel[t], objRot[0]);
      CancelRight(g, rel[t], objRot[0]);
    }
  }

  /** The reference frame itself becomes the identity rotation. */
  lemma ReferenceFrameIsIdentity<R(!new)>(g: RotationGroup<R>, objRot: seq<R>, t: nat)
    requires IsGroup(g) && t < |objRot|
    ensures PrepRelRotation(g, objRot, objRot[t])[t] == g.id
  {
  }

  lemma Assoc<R(!new)>(g: RotationGroup<R>, a: R, b: R, c: R)
    requires IsGroup(g)
    ensures g.mul(g.mul(a, b), c) == g.mul(a, g.mul(b, c))
  {
  }

  lemma TurnCancels<R(!new)>(g: RotationGroup<R>, o: R, reference: R, c: R)
    requires IsGroup(g)
    ensures g.mul(g.mul(o, c), g.inv(g.mul(reference, c))) == g.mul(o, g.inv(reference))
  {
    var x := g.mul(g.inv(c), g.inv(reference));
    InverseOfProduct(g, reference, c);
    assert g.inv(g.mul(reference, c)) == x;
    CancelLeft(g, c, g.inv(reference));
    Assoc(g, o, c, x);
  }

  /** Relative rotations only see the motion of the object: turning every frame
      and the reference by the same rotation `c` (applied first, in the
      object's own frame) leaves them unchanged. */
  lemma RelativeIgnoresCommonTurn<R(!new)>(g: RotationGroup<R>, objRot: seq<R>, reference: R, c: R)
    requires IsGroup(g)
    ensures PrepRelRotation(g, seq(|objRot|, t requires 0 <= t < |objRot| => g.mul(objRot[t], c)), g.mul(reference, c))
         == PrepRelRotation(g, objRot, reference)
  {
    var turned := seq(|objRot|, t requires 0 <= t < |objRot| => g.mul(objRot[t], c));
    var a := PrepRelRotation(g, turned, g.mul(reference, c));
    var b := PrepRelRotation(g, objRot, reference);
    forall t | 0 <= t < |objRot|
      ensures a[t] == b[t]
    {
      assert a[t] == g.mul(turned[t], g.inv(g.mul(reference, c)));
      assert turned[t] == g.mul(objRot[t], c);
      TurnCancels(g, objRot[t], reference, c);
    }
  }
}
