/**
 * Window enumeration (`cal_normalize_data_input`), as a function the
 * dataset's loop is proved against.  Every sequence not skipped is cut at
 * start indices 0, w/4, 2(w/4), ... below its frame count (w = `window`); each
 * window ends at `start + window - 1` and holds the frames up to that index
 * that exist.  Heading canonicalisation (`rotate_at_frame_w_obj`) and the
 * conversion to the 6D rotation representation are parameters.
 */
module Windows {
  import opened Wrappers
  import opened Geometry
  import opened Kinematics
  import opened WindowMotion
  import opened Records
  import opened RestPose
  import opened Names

  /** What heading canonicalisation is given: the window's frames, the
      object's centroid and its rotation relative to the rest pose per frame,
      `trans2joint` and the rest offsets. */
  datatype WindowSlice = WindowSlice(
    frames: seq<RawFrame>,
    objComPos: seq<Vec3>,
    objRot: seq<Mat>,
    trans2joint: Vec3,
    restOffsets: seq<Vec3>)

  /** What it returns: root translations, local joint rotations, object
      translations and rotations, per frame. */
  datatype Canonical = Canonical(
    rootTrans: seq<Vec3>,
    localRot: seq<seq<Mat>>,
    objTrans: seq<Vec3>,
    objRot: seq<Mat>)

  predicate CanonicalShaped(c: Canonical, frames: nat) {
    && |c.rootTrans| == frames && |c.localRot| == frames
    && |c.objTrans| == frames && |c.objRot| == frames
    && Uniform(c.localRot, Joints22)
    && forall t :: 0 <= t < frames ==> |c.objRot[t]| == 9
  }

  /** The parts of window building that come from outside the dataset: the
      rotation operations on matrices, the 22- and 24-joint parent tables,
      heading canonicalisation, and the 6D rotation representation. */
  datatype Pipeline = Pipeline(
    g: RotationGroup<Mat>,
    skel22: seq<int>,
    skel24: seq<int>,
    canonicalize: WindowSlice -> Canonical,
    sixD: Mat -> seq<real>)

  ghost predicate PipelineOk(p: Pipeline) {
    && WellFormedParents(p.skel22) && |p.skel22| == Joints22
    && WellFormedParents(p.skel24) && |p.skel24| == Joints24
    && RotationsCoverParents(p.skel24, Joints22)
    && (forall s :: CanonicalShaped(p.canonicalize(s), |s.frames|))
    && (forall m :: |p.sixD(m)| == 6)
  }

  /** The coordinates of the vectors one after the other (`reshape(-1, J*3)`). */
  function FlattenVecs(vs: seq<Vec3>): (row: seq<real>)
    ensures |row| == 3 * |vs|
    decreases |vs|
  {
    if |vs| == 0 then [] else FlattenVecs(vs[..|vs| - 1]) + Coords(vs[|vs| - 1])
  }

  /** Each rotation's 6D representation, one after the other. */
  function SixDRow(sixD: Mat -> seq<real>, rots: seq<Mat>): (row: seq<real>)
    requires forall m :: |sixD(m)| == 6
    ensures |row| == 6 * |rots|
    decreases |rots|
  {
    if |rots| == 0 then [] else SixDRow(sixD, rots[..|rots| - 1]) + sixD(rots[|rots| - 1])
  }

  /** One stored motion row: 24 joint positions, 24 joint velocities, 22 world
      rotations in the 6D representation. */
  function MotionRow(p: Pipeline, jpos: seq<Vec3>, jvel: seq<Vec3>, rots: seq<Mat>): (row: seq<real>)
    requires forall m :: |p.sixD(m)| == 6
    requires |jpos| == Joints24 && |jvel| == Joints24 && |rots| == Joints22
    ensures |row| == MotionWidth
    ensures row[..JposWidth] == FlattenVecs(jpos)
    ensures row[JposWidth..JposWidth + JvelWidth] == FlattenVecs(jvel)
    ensures row[JposWidth + JvelWidth..] == SixDRow(p.sixD, rots)
  {
    FlattenVecs(jpos) + FlattenVecs(jvel) + SixDRow(p.sixD, rots)
  }

  /** The object centroid of one captured frame: the mean of the transformed
      captured mesh (`seq_obj_verts.mean(dim=1)`). */
  function FrameCentroid(g: RotationGroup<Mat>, f: RawFrame, rawMesh: seq<Vec3>): Vec3
    requires |rawMesh| > 0
  {
    Centroid(TransformVerts(g, f.objScale, f.objRot, f.objTrans, rawMesh))
  }

  /** `cano_obj_mat`: the canonical first object rotation times the inverse
      (for a rotation, the transpose) of the captured one. */
  function CanoObjMat(g: RotationGroup<Mat>, canonical: Mat, captured: Mat): Mat {
    g.mul(canonical, g.inv(captured))
  }

  /** The window starting at `start`: the frames from `start` up to
      `start + window - 1` that exist, canonicalised, moved to the origin,
      and flattened into motion rows. */
  function BuildWindow(p: Pipeline, s: SeqRecord, start: nat, window: int,
                       restVerts: seq<Vec3>, restRot: Mat, rawMesh: seq<Vec3>): (d: WindowData)
    requires PipelineOk(p) && SeqShaped(s)
    requires start < |s.frames| && window > 0
    requires |restVerts| > 0 && |rawMesh| > 0
    ensures d.seqName == s.seqName && d.subject == s.subject
    ensures d.startIdx == start && d.endIdx == start + window - 1
    ensures |d.motion| == Min(start + window, |s.frames|) - start
    ensures WindowShaped(d)
  {
    var stop := Min(start + window, |s.frames|);
    var frames := s.frames[start..stop];
    var n := |frames|;
    var g := p.g;
    var com := seq(n, t requires 0 <= t < n => FrameCentroid(g, frames[t], rawMesh));
    var relRot := seq(n, t requires 0 <= t < n => g.mul(frames[t].objRot, g.inv(restRot)));
    var c := p.canonicalize(WindowSlice(frames, com, relRot, s.subject.trans2joint, s.subject.restHumanOffsets));
    var posed := PoseRestGeometry(g, c.objRot, c.objTrans, restVerts);
    var centers := seq(n, t requires 0 <= t < n => Centroid(posed[t]));
    var q := ProcessWindowData(g, p.skel22, p.skel24, s.subject.restHumanOffsets, s.subject.trans2joint,
                               c.rootTrans, c.localRot, c.objTrans, c.objRot, centers);
    var motion := seq(n, t requires 0 <= t < n => MotionRow(p, q.globalJpos[t], q.globalJvel[t], q.globalRot[t]));
    WindowData(s.seqName, start, start + window - 1, motion, q.objRotMat, q.objComPos,
               CanoObjMat(g, q.objRotMat[0], g.mul(frames[0].objRot, g.inv(restRot))), s.subject)
  }

  /** `cano_obj_mat` turns the window's first object rotation (relative to
      the rest pose) into its canonicalised one. */
  lemma CanoObjMatAligns(p: Pipeline, s: SeqRecord, start: nat, window: int,
                         restVerts: seq<Vec3>, restRot: Mat, rawMesh: seq<Vec3>)
    requires PipelineOk(p) && IsGroup(p.g) && SeqShaped(s)
    requires start < |s.frames| && window > 0
    requires |restVerts| > 0 && |rawMesh| > 0
    ensures var d := BuildWindow(p, s, start, window, restVerts, restRot, rawMesh);
      p.g.mul(d.canoObjMat, p.g.mul(s.frames[start].objRot, p.g.inv(restRot))) == d.objRotMat[0]
  {
    var d := BuildWindow(p, s, start, window, restVerts, restRot, rawMesh);
    var g := p.g;
    var rel0 := g.mul(s.frames[start].objRot, g.inv(restRot));
    assert d.canoObjMat == CanoObjMat(g, d.objRotMat[0], rel0);
    CancelRight(g, d.objRotMat[0], rel0);
  }

  /** `range(from, n, step)` for a positive step. */
  function StartsFrom(from: nat, n: nat, step: nat): (starts: seq<nat>)
    requires step > 0
    ensures forall i :: 0 <= i < |starts| ==> from <= starts[i] < n
    decreases n - from
  {
    if from >= n then [] else [from] + StartsFrom(from + step, n, step)
  }

  /** The start indices are `from + i * step`, all below `n`, and the next one
      would not be. */
  lemma {:induction false} StartsFromElements(from: nat, n: nat, step: nat)
    requires step > 0
    ensures var starts := StartsFrom(from, n, step);
      && (forall i :: 0 <= i < |starts| ==> starts[i] == from + i * step && starts[i] < n)
      && from + |starts| * step >= n
    decreases n - from
  {
    if from < n {
      StartsFromElements(from + step, n, step);
      var rest := StartsFrom(from + step, n, step);
      forall i | 0 <= i < |rest|
        ensures from + step + i * step == from + (i + 1) * step
      {
      }
    }
  }

  /** A 150-frame sequence with `window = 120` is cut at 0, 30, 60, 90 and
      120, into windows of 120, 120, 90, 60 and 30 rows. */
  lemma {:induction false} StartsFor150Frames()
    ensures StartsFrom(0, 150, 120 / 4) == [0, 30, 60, 90, 120]
    ensures forall i :: 0 <= i < 5 ==> Min(120, 150 - [0, 30, 60, 90, 120][i]) == [120, 120, 90, 60, 30][i]
  {
    assert StartsFrom(150, 150, 30) == [];
    assert StartsFrom(120, 150, 30) == [120];
    assert StartsFrom(90, 150, 30) == [90, 120];
    assert StartsFrom(60, 150, 30) == [60, 90, 120];
    assert StartsFrom(30, 150, 30) == [30, 60, 90, 120];
    assert 120 / 4 == 30;
    assert StartsFrom(0, 150, 30) == [0, 30, 60, 90, 120];
  }

  /** The span test at the top of the window loop compares `end - start`,
      which is `window - 1` whatever the start: it drops every window of a
      sequence or none, and never a short tail window. */
  predicate SpanTestPasses(window: int) {
    window - 1 >= 30
  }

  /** The windows of one sequence at the given start indices, in order. */
  function WindowsFrom(p: Pipeline, s: SeqRecord, starts: seq<nat>, window: int,
                       restVerts: seq<Vec3>, restRot: Mat, rawMesh: seq<Vec3>): (ws: seq<WindowData>)
    requires PipelineOk(p) && SeqShaped(s) && window > 0
    requires |restVerts| > 0 && |rawMesh| > 0
    requires forall i :: 0 <= i < |starts| ==> starts[i] < |s.frames|
    ensures !SpanTestPasses(window) ==> ws == []
    ensures SpanTestPasses(window) ==> |ws| == |starts|
  {
    if !SpanTestPasses(window) then []
    else seq(|starts|, i requires 0 <= i < |starts| => BuildWindow(p, s, starts[i], window, restVerts, restRot, rawMesh))
  }

  /** Each window is the one built at its start index, shaped, and of the
      sequence it came from. */
  lemma WindowsFromElements(p: Pipeline, s: SeqRecord, starts: seq<nat>, window: int,
                            restVerts: seq<Vec3>, restRot: Mat, rawMesh: seq<Vec3>)
    requires PipelineOk(p) && SeqShaped(s) && window > 0
    requires |restVerts| > 0 && |rawMesh| > 0
    requires forall i :: 0 <= i < |starts| ==> starts[i] < |s.frames|
    ensures var ws := WindowsFrom(p, s, starts, window, restVerts, restRot, rawMesh);
      forall i :: 0 <= i < |ws| ==>
        && ws[i] == BuildWindow(p, s, starts[i], window, restVerts, restRot, rawMesh)
        && WindowShaped(ws[i]) && ws[i].seqName == s.seqName
  {
  }

  /** Taking one more start index adds its window exactly when the span
      test passes. */
  lemma WindowsFromStep(p: Pipeline, s: SeqRecord, starts: seq<nat>, k: nat, window: int,
                        restVerts: seq<Vec3>, restRot: Mat, rawMesh: seq<Vec3>)
    requires PipelineOk(p) && SeqShaped(s) && window > 0
    requires |restVerts| > 0 && |rawMesh| > 0
    requires forall i :: 0 <= i < |starts| ==> starts[i] < |s.frames|
    requires k < |starts|
    ensures WindowsFrom(p, s, starts[..k + 1], window, restVerts, restRot, rawMesh)
         == WindowsFrom(p, s, starts[..k], window, restVerts, restRot, rawMesh)
            + (if SpanTestPasses(window) then [BuildWindow(p, s, starts[k], window, restVerts, restRot, rawMesh)] else [])
  {
    if SpanTestPasses(window) {
      var longer := WindowsFrom(p, s, starts[..k + 1], window, restVerts, restRot, rawMesh);
      var shorter := WindowsFrom(p, s, starts[..k], window, restVerts, restRot, rawMesh);
      var last := BuildWindow(p, s, starts[k], window, restVerts, restRot, rawMesh);
      assert |longer| == |shorter + [last]|;
      forall i | 0 <= i < |longer| ensures longer[i] == (shorter + [last])[i] {
        assert starts[..k + 1][i] == starts[i];
        if i < k {
          assert starts[..k][i] == starts[i];
        }
      }
    }
  }

  /** Consecutive start indices are `step` apart, and the last one is within
      `step` of the frame count. */
  lemma {:induction false} StartsStep(from: nat, n: nat, step: nat, k: nat)
    requires step > 0 && k < |StartsFrom(from, n, step)|
    ensures var starts := StartsFrom(from, n, step);
      && (k + 1 < |starts| ==> starts[k + 1] == starts[k] + step)
      && (k + 1 == |starts| ==> starts[k] + step >= n)
    decreases n - from
  {
    if k > 0 {
      StartsStep(from + step, n, step, k - 1);
    }
  }

  /** Everything the enumeration reads besides the sequences: the registry
      dictionary, the stored rest geometry and the captured meshes. */
  predicate StoreNonEmpty(store: map<string, RestEntry>) {
    forall n :: n in store ==> |store[n].restVerts| > 0
  }

  /** The windows of one sequence, or why the loop stops at it. */
  function SeqWindows(p: Pipeline, s: SeqRecord, window: int, dict: map<string, RestMeta>,
                      store: map<string, RestEntry>, rawMeshes: map<string, seq<Vec3>>): (r: Result<seq<WindowData>, PipelineError>)
    requires PipelineOk(p) && SeqShaped(s)
    requires StoreNonEmpty(store) && MeshesNonEmpty(rawMeshes)
  {
    match ObjectName(s.seqName)
    case None => Failure(BadSequenceName(s.seqName))
    case Some(name) =>
      if Skipped(name) then Success([])
      else if name !in dict then Failure(MissingRestPose(name))
      else if name !in store then Failure(MissingRestMesh(name))
      else if name !in rawMeshes then Failure(MissingRawMesh(name))
      else if window / 4 == 0 then Failure(ZeroStride)
      else if window / 4 < 0 then Success([])
      else
        var starts := StartsFrom(0, |s.frames|, window / 4);
        StartsFromElements(0, |s.frames|, window / 4);
        Success(WindowsFrom(p, s, starts, window, store[name].restVerts, dict[name].oriRotation, rawMeshes[name]))
  }

  /** What the windows of one sequence are: none for a skipped object or a
      window of at most 30 frames; otherwise one per start index
      `i * (window / 4)` below the frame count, in order, each ending at
      `start + window - 1` and holding `min(window, frames - start)` rows. */
  lemma SeqWindowsSpec(p: Pipeline, s: SeqRecord, window: int, dict: map<string, RestMeta>,
                       store: map<string, RestEntry>, rawMeshes: map<string, seq<Vec3>>)
    requires PipelineOk(p) && SeqShaped(s)
    requires StoreNonEmpty(store) && MeshesNonEmpty(rawMeshes)
    requires SeqWindows(p, s, window, dict, store, rawMeshes).Success?
    ensures ObjectName(s.seqName).Some?
    ensures var ws := SeqWindows(p, s, window, dict, store, rawMeshes).value;
      && (Skipped(ObjectName(s.seqName).value) || window <= 30 ==> ws == [])
      && (!Skipped(ObjectName(s.seqName).value) && window > 30 ==> KeptWindows(ws, s, window))
  {
    var name := ObjectName(s.seqName).value;
    if !Skipped(name) && window / 4 > 0 && window > 30 {
      var starts := StartsFrom(0, |s.frames|, window / 4);
      StartsFromElements(0, |s.frames|, window / 4);
      var ws := WindowsFrom(p, s, starts, window, store[name].restVerts, dict[name].oriRotation, rawMeshes[name]);
      KeptWindowsHold(p, s, starts, ws, window, store[name].restVerts, dict[name].oriRotation, rawMeshes[name]);
    }
  }

  /** One window per start index `i * (window / 4)` below the frame count, in
      order, each ending at `start + window - 1` and holding
      `min(window, frames - start)` rows. */
  predicate KeptWindows(ws: seq<WindowData>, s: SeqRecord, window: int) {
    && window / 4 > 0
    && (|ws| - 1) * (window / 4) < |s.frames| <= |ws| * (window / 4)
    && forall i :: 0 <= i < |ws| ==>
         && ws[i].seqName == s.seqName
         && ws[i].startIdx == i * (window / 4)
         && ws[i].endIdx == ws[i].startIdx + window - 1
         && |ws[i].motion| == Min(window, |s.frames| - ws[i].startIdx)
         && |ws[i].motion| >= 1
  }

  lemma KeptWindowsHold(p: Pipeline, s: SeqRecord, starts: seq<nat>, ws: seq<WindowData>, window: int,
                        restVerts: seq<Vec3>, restRot: Mat, rawMesh: seq<Vec3>)
    requires PipelineOk(p) && SeqShaped(s) && window > 30
    requires |restVerts| > 0 && |rawMesh| > 0
    requires starts == StartsFrom(0, |s.frames|, window / 4)
    requires forall i :: 0 <= i < |starts| ==> starts[i] == i * (window / 4) && starts[i] < |s.frames|
    requires |starts| * (window / 4) >= |s.frames|
    requires |ws| == |starts|
    requires forall i :: 0 <= i < |starts| ==> ws[i] == BuildWindow(p, s, starts[i], window, restVerts, restRot, rawMesh)
    ensures KeptWindows(ws, s, window)
  {
    if |ws| > 0 {
      assert starts[|ws| - 1] < |s.frames|;
    }
    forall i | 0 <= i < |ws|
      ensures ws[i].startIdx == i * (window / 4) && ws[i].endIdx == ws[i].startIdx + window - 1
      ensures |ws[i].motion| == Min(window, |s.frames| - ws[i].startIdx) >= 1
    {
      var start := starts[i];
      assert ws[i] == BuildWindow(p, s, start, window, restVerts, restRot, rawMesh);
      assert Min(start + window, |s.frames|) - start == Min(window, |s.frames| - start);
    }
  }

  /** The windows of all sequences in order; keys are positions, so they run
      0, 1, 2, ... across sequences. */
  function Enumerate(p: Pipeline, seqs: seq<SeqRecord>, window: int, dict: map<string, RestMeta>,
                     store: map<string, RestEntry>, rawMeshes: map<string, seq<Vec3>>): Result<seq<WindowData>, PipelineError>
    requires PipelineOk(p) && (forall i :: 0 <= i < |seqs| ==> SeqShaped(seqs[i]))
    requires StoreNonEmpty(store) && MeshesNonEmpty(rawMeshes)
    decreases |seqs|
  {
    if |seqs| == 0 then Success([])
    else
      match Enumerate(p, seqs[..|seqs| - 1], window, dict, store, rawMeshes)
      case Failure(e) => Failure(e)
      case Success(ws) =>
        match SeqWindows(p, seqs[|seqs| - 1], window, dict, store, rawMeshes)
        case Failure(e) => Failure(e)
        case Success(more) => Success(ws + more)
  }

  /** One more sequence: its windows follow those of the sequences before
      it, or its error ends the enumeration. */
  lemma EnumerateExtend(p: Pipeline, seqs: seq<SeqRecord>, window: int, dict: map<string, RestMeta>,
                        store: map<string, RestEntry>, rawMeshes: map<string, seq<Vec3>>, i: nat)
    requires PipelineOk(p) && (forall j :: 0 <= j < |seqs| ==> SeqShaped(seqs[j]))
    requires StoreNonEmpty(store) && MeshesNonEmpty(rawMeshes)
    requires i < |seqs| && Enumerate(p, seqs[..i], window, dict, store, rawMeshes).Success?
    ensures Enumerate(p, seqs[..i + 1], window, dict, store, rawMeshes) ==
      match SeqWindows(p, seqs[i], window, dict, store, rawMeshes)
      case Failure(e) => Failure(e)
      case Success(more) => Success(Enumerate(p, seqs[..i], window, dict, store, rawMeshes).value + more)
  {
    assert seqs[..i + 1][..i] == seqs[..i];
    assert seqs[..i + 1][i] == seqs[i];
  }

  /** Once the loop stops at a sequence, the whole enumeration stops with that error. */
  lemma {:induction false} EnumerateFailurePersists(p: Pipeline, seqs: seq<SeqRecord>, window: int, dict: map<string, RestMeta>,
                                                    store: map<string, RestEntry>, rawMeshes: map<string, seq<Vec3>>, i: nat)
    requires PipelineOk(p) && (forall j :: 0 <= j < |seqs| ==> SeqShaped(seqs[j]))
    requires StoreNonEmpty(store) && MeshesNonEmpty(rawMeshes)
    requires i <= |seqs| && Enumerate(p, seqs[..i], window, dict, store, rawMeshes).Failure?
    ensures Enumerate(p, seqs, window, dict, store, rawMeshes) == Enumerate(p, seqs[..i], window, dict, store, rawMeshes)
    decreases |seqs|
  {
    if i == |seqs| {
      assert seqs[..i] == seqs;
    } else {
      var front := seqs[..|seqs| - 1];
      assert front[..i] == seqs[..i];
      EnumerateFailurePersists(p, front, window, dict, store, rawMeshes, i);
    }
  }

  /** The windows of sequence `i` occupy the keys right after those of the
      sequences before it. */
  lemma {:induction false} EnumerateKeys(p: Pipeline, seqs: seq<SeqRecord>, window: int, dict: map<string, RestMeta>,
                                         store: map<string, RestEntry>, rawMeshes: map<string, seq<Vec3>>, i: nat)
    requires PipelineOk(p) && (forall j :: 0 <= j < |seqs| ==> SeqShaped(seqs[j]))
    requires StoreNonEmpty(store) && MeshesNonEmpty(rawMeshes)
    requires Enumerate(p, seqs, window, dict, store, rawMeshes).Success?
    requires i < |seqs|
    ensures Enumerate(p, seqs[..i], window, dict, store, rawMeshes).Success?
    ensures SeqWindows(p, seqs[i], window, dict, store, rawMeshes).Success?
    ensures var all := Enumerate(p, seqs, window, dict, store, rawMeshes).value;
      var first := |Enumerate(p, seqs[..i], window, dict, store, rawMeshes).value|;
      var mine := SeqWindows(p, seqs[i], window, dict, store, rawMeshes).value;
      first + |mine| <= |all| && all[first..first + |mine|] == mine
    decreases |seqs|
  {
    var front := seqs[..|seqs| - 1];
    if i == |seqs| - 1 {
      assert seqs[..i] == front;
    } else {
      assert front[..i] == seqs[..i];
      assert front[i] == seqs[i];
      EnumerateKeys(p, front, window, dict, store, rawMeshes, i);
    }
  }

  /** What every stored window satisfies: it has its shape, and its sequence
      name names an object the dataset does not skip. */
  predicate StoredWindow(w: WindowData) {
    && WindowShaped(w)
    && ObjectName(w.seqName).Some?
    && !Skipped(ObjectName(w.seqName).value)
  }

  /** Every window the enumeration produces is a stored window. */
  lemma {:induction false} EnumerateStored(p: Pipeline, seqs: seq<SeqRecord>, window: int, dict: map<string, RestMeta>,
                                           store: map<string, RestEntry>, rawMeshes: map<string, seq<Vec3>>)
    requires PipelineOk(p) && (forall j :: 0 <= j < |seqs| ==> SeqShaped(seqs[j]))
    requires StoreNonEmpty(store) && MeshesNonEmpty(rawMeshes)
    requires Enumerate(p, seqs, window, dict, store, rawMeshes).Success?
    ensures forall w :: w in Enumerate(p, seqs, window, dict, store, rawMeshes).value ==> StoredWindow(w)
    decreases |seqs|
  {
    if |seqs| > 0 {
      var front := seqs[..|seqs| - 1];
      var s := seqs[|seqs| - 1];
      EnumerateStored(p, front, window, dict, store, rawMeshes);
      var more := SeqWindows(p, s, window, dict, store, rawMeshes).value;
      var all := Enumerate(p, seqs, window, dict, store, rawMeshes).value;
      var before := Enumerate(p, front, window, dict, store, rawMeshes).value;
      assert all == before + more;
      forall w | w in all ensures StoredWindow(w) {
        if w !in before {
          assert w in more;
        }
      }
    }
  }
}
