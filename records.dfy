/**
 * The records the dataset keeps: captured sequences as loaded, and the
 * canonicalised windows cut from them.  A window record is an object whose
 * `ori_w_idx` the filters write in place; everything else about a window is
 * fixed when it is built.
 */
module Records {
  import opened Wrappers
  import opened Geometry

  /** A 3x3 rotation matrix, row-major. */
  type Mat = seq<real>

  const Joints24: nat := 24
  const Joints22: nat := 22
  /** Joint positions, joint velocities (24 joints x 3) and world rotations in
      the 6D representation (22 joints x 6) side by side. */
  const JposWidth: nat := 72
  const JvelWidth: nat := 72
  const RotWidth: nat := 132
  const MotionWidth: nat := 276

  /** The per-subject data stored with every sequence. */
  datatype SubjectInfo = SubjectInfo(
    betas: seq<real>,
    gender: string,
    trans2joint: Vec3,
    restHumanOffsets: seq<Vec3>)

  /** One captured frame: the root translation, the 22 local joint rotations
      (root orientation first), and the object's translation, rotation and
      scale. */
  datatype RawFrame = RawFrame(
    rootTrans: Vec3,
    localRot: seq<Mat>,
    objTrans: Vec3,
    objRot: Mat,
    objScale: real)

  /** One entry of `data_dict`. */
  datatype SeqRecord = SeqRecord(seqName: string, subject: SubjectInfo, frames: seq<RawFrame>)

  /** What the loaded data guarantees about a sequence: 24 rest offsets,
      22 local rotations per frame, 3x3 object rotations. */
  predicate SeqShaped(s: SeqRecord) {
    && |s.subject.restHumanOffsets| == Joints24
    && forall t :: 0 <= t < |s.frames| ==> |s.frames[t].localRot| == Joints22 && |s.frames[t].objRot| == 9
  }

  /** The contents of one window: where it was cut from, its motion rows, the
      object's per-frame rotation and centroid, and `cano_obj_mat`, the
      rotation canonicalisation applied to the object's first frame. */
  datatype WindowData = WindowData(
    seqName: string,
    startIdx: nat,
    endIdx: int,
    motion: seq<seq<real>>,
    objRotMat: seq<Mat>,
    objComPos: seq<Vec3>,
    canoObjMat: Mat,
    subject: SubjectInfo)

  predicate WindowShaped(d: WindowData) {
    && |d.objRotMat| == |d.motion|
    && |d.objComPos| == |d.motion|
    && (forall t :: 0 <= t < |d.motion| ==> |d.motion[t]| == MotionWidth)
    && (forall t :: 0 <= t < |d.objRotMat| ==> |d.objRotMat[t]| == 9)
  }

  /** One value of `window_data_dict`; both the old and the new dictionary of a
      filter hold the same record, so a write to `oriWIdx` shows through both. */
  class WindowRecord {
    const data: WindowData
    var oriWIdx: Option<nat>

    constructor (data: WindowData)
      ensures this.data == data && oriWIdx == None
    {
      this.data := data;
      oriWIdx := None;
    }
  }

  function Datas(records: seq<WindowRecord>): (ds: seq<WindowData>)
    ensures |ds| == |records|
    ensures forall i {:trigger ds[i]} :: 0 <= i < |records| ==> ds[i] == records[i].data
  {
    seq(|records|, i requires 0 <= i < |records| => records[i].data)
  }

  lemma {:induction false} DatasConcat(records: seq<WindowRecord>, more: seq<WindowRecord>)
    ensures Datas(records + more) == Datas(records) + Datas(more)
  {
    assert |Datas(records + more)| == |Datas(records) + Datas(more)|;
    forall i | 0 <= i < |records + more|
      ensures Datas(records + more)[i] == (Datas(records) + Datas(more))[i]
    {
      if i >= |records| {
        assert (records + more)[i] == more[i - |records|];
      }
    }
  }

  lemma DatasAppend(records: seq<WindowRecord>, r: WindowRecord)
    ensures Datas(records + [r]) == Datas(records) + [r.data]
  {
  }

  /** No record appears twice. */
  predicate Distinct(records: seq<WindowRecord>) {
    forall i, j :: 0 <= i < j < |records| ==> records[i] != records[j]
  }

  lemma DistinctAppend(records: seq<WindowRecord>, r: WindowRecord)
    requires Distinct(records) && r !in records
    ensures Distinct(records + [r])
  {
  }

  /** Every way the preparation of the dataset can fail. */
  datatype PipelineError =
    | BadSequenceName(seqName: string)     // `seq_name.split("_")[1]` has no second field
    | EmptySequence(seqName: string)       // frame 0 of a sequence with no frames
    | MissingRawMesh(objectName: string)   // the captured mesh file does not exist
    | MissingRestPose(objectName: string)  // `rest_pose_object_dict[object_name]`
    | MissingRestMesh(objectName: string)  // the rest-pose mesh file does not exist
    | ZeroStride                           // `range(0, num_steps, 0)`
    | NoWindows                            // statistics over zero rows
    | MissingStatistics                    // no saved statistics outside training
}
