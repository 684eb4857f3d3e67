/**
 * The rest-pose registry (`extract_rest_pose_object_geometry_and_rotation`,
 * `convert_rest_pose_obj_geometry`) and the posing of rest geometry
 * (`load_object_geometry_w_rest_geo`).  An object's rest geometry is its
 * captured mesh placed as in frame 0 of the first sequence that mentions it,
 * moved so that its centroid is at the origin.  The rest-geometry files
 * (mesh and JSON) are a store keyed by object name that the registry fills and
 * later runs reuse.
 */
module RestPose {
  import opened Wrappers
  import opened Geometry
  import opened Records
  import opened Names

  /** The JSON side of a rest-geometry entry and the value of `rest_pose_object_dict`. */
  datatype RestMeta = RestMeta(oriRotation: Mat, oriComPos: Vec3, objTransToComPos: Vec3)

  /** The `.ply` vertices and the JSON of one object. */
  datatype RestEntry = RestEntry(restVerts: seq<Vec3>, meta: RestMeta)

  /** Objects made of two parts, which the dataset leaves out. */
  predicate Skipped(objectName: string) {
    objectName == "vacuum" || objectName == "mop"
  }

  predicate MeshesNonEmpty(rawMeshes: map<string, seq<Vec3>>) {
    forall n :: n in rawMeshes ==> |rawMeshes[n]| > 0
  }

  /** `scale * rot . v + trans` for every vertex (`apply_transformation_to_obj_geometry`, one frame). */
  function TransformVerts(g: RotationGroup<Mat>, scale: real, rot: Mat, trans: Vec3, verts: seq<Vec3>): (r: seq<Vec3>)
    ensures |r| == |verts|
  {
    seq(|verts|, i requires 0 <= i < |verts| => Add(Scale(scale, g.apply(rot, verts[i])), trans))
  }

  /** The entry `convert_rest_pose_obj_geometry` computes when no stored one
      exists: the frame-0 mesh recentred on its centroid, frame 0's rotation,
      the centroid, and the offset from the object translation to the
      centroid.  Putting the rest geometry back at the centroid gives the
      frame-0 mesh. */
  function DeriveRestEntry(g: RotationGroup<Mat>, frame0: RawFrame, rawMesh: seq<Vec3>): (e: RestEntry)
    requires |rawMesh| > 0
    ensures |e.restVerts| == |rawMesh|
    ensures Centroid(e.restVerts) == Origin
    ensures e.meta.oriRotation == frame0.objRot
    ensures forall i :: 0 <= i < |rawMesh| ==>
      Add(e.restVerts[i], e.meta.oriComPos) == TransformVerts(g, frame0.objScale, frame0.objRot, frame0.objTrans, rawMesh)[i]
    ensures Add(e.meta.objTransToComPos, e.meta.oriComPos) == frame0.objTrans
  {
    var posed := TransformVerts(g, frame0.objScale, frame0.objRot, frame0.objTrans, rawMesh);
    var com := Centroid(posed);
    CentredCloudHasOriginCentroid(posed);
    RestEntry(Recentre(posed, com), RestMeta(frame0.objRot, com, Sub(frame0.objTrans, com)))
  }

  /** `convert_rest_pose_obj_geometry`: a stored entry is reused as it is;
      otherwise the entry is derived from the sequence's frame 0 and stored. */
  function ConvertRestPose(g: RotationGroup<Mat>, name: string, s: SeqRecord,
                           rawMeshes: map<string, seq<Vec3>>,
                           store: map<string, RestEntry>): (r: Result<map<string, RestEntry>, PipelineError>)
    requires MeshesNonEmpty(rawMeshes)
    ensures name in store ==> r == Success(store)
    ensures r.Failure? <==> name !in store && (name !in rawMeshes || |s.frames| == 0)
    ensures r.Success? ==> name in r.value && StoreExtends(store, r.value)
    ensures r.Success? ==> forall n :: n in r.value ==> n in store || n == name
    ensures r.Success? && name !in store ==> r.value[name] == DeriveRestEntry(g, s.frames[0], rawMeshes[name])
  {
    if name in store then Success(store)
    else if name !in rawMeshes then Failure(MissingRawMesh(name))
    else if |s.frames| == 0 then Failure(EmptySequence(s.seqName))
    else Success(store[name := DeriveRestEntry(g, s.frames[0], rawMeshes[name])])
  }

  /** Every entry of `a` is in `b`, unchanged. */
  predicate StoreExtends(a: map<string, RestEntry>, b: map<string, RestEntry>) {
    forall n :: n in a ==> n in b && b[n] == a[n]
  }

  /** `rest_pose_object_dict` and the rest-geometry store. */
  datatype Registry = Registry(dict: map<string, RestMeta>, store: map<string, RestEntry>)

  /** Every registered object has a stored entry whose JSON it holds. */
  predicate Consistent(st: Registry) {
    forall n :: n in st.dict ==> n in st.store && st.dict[n] == st.store[n].meta
  }

  /** One iteration of the registry loop. */
  function RegisterSeq(g: RotationGroup<Mat>, st: Registry, s: SeqRecord,
                       rawMeshes: map<string, seq<Vec3>>): Result<Registry, PipelineError>
    requires MeshesNonEmpty(rawMeshes)
  {
    match ObjectName(s.seqName)
    case None => Failure(BadSequenceName(s.seqName))
    case Some(name) =>
      if Skipped(name) || name in st.dict then Success(st)
      else
        match ConvertRestPose(g, name, s, rawMeshes, st.store)
        case Failure(e) => Failure(e)
        case Success(store') => Success(Registry(st.dict[name := store'[name].meta], store'))
  }

  /** The registry after the loop over `seqs` in order, starting from an empty
      dictionary and the stored entries `store`. */
  function BuildRegistry(g: RotationGroup<Mat>, seqs: seq<SeqRecord>,
                         rawMeshes: map<string, seq<Vec3>>,
                         store: map<string, RestEntry>): Result<Registry, PipelineError>
    requires MeshesNonEmpty(rawMeshes)
    decreases |seqs|
  {
    if |seqs| == 0 then Success(Registry(map[], store))
    else
      match BuildRegistry(g, seqs[..|seqs| - 1], rawMeshes, store)
      case Failure(e) => Failure(e)
      case Success(st) => RegisterSeq(g, st, seqs[|seqs| - 1], rawMeshes)
  }

  /** Once the loop stops at a sequence, the whole run stops with that error. */
  lemma {:induction false} RegistryFailurePersists(g: RotationGroup<Mat>, seqs: seq<SeqRecord>,
                                                   rawMeshes: map<string, seq<Vec3>>, store: map<string, RestEntry>, i: nat)
    requires MeshesNonEmpty(rawMeshes) && i <= |seqs|
    requires BuildRegistry(g, seqs[..i], rawMeshes, store).Failure?
    ensures BuildRegistry(g, seqs, rawMeshes, store) == BuildRegistry(g, seqs[..i], rawMeshes, store)
    decreases |seqs|
  {
    if i == |seqs| {
      assert seqs[..i] == seqs;
    } else {
      var front := seqs[..|seqs| - 1];
      assert front[..i] == seqs[..i];
      RegistryFailurePersists(g, front, rawMeshes, store, i);
    }
  }

  /** The object names of `seqs` that the dataset does not skip. */
  function Mentioned(seqs: seq<SeqRecord>): set<string>
    decreases |seqs|
  {
    if |seqs| == 0 then {}
    else
      Mentioned(seqs[..|seqs| - 1]) +
      match ObjectName(seqs[|seqs| - 1].seqName)
      case Some(name) => if Skipped(name) then {} else {name}
      case None => {}
  }

  /** After a successful run the dictionary has exactly one entry per mentioned
      object, each the JSON of its stored entry; stored entries are never
      changed, and new ones belong to registered objects. */
  lemma {:induction false} RegistryShape(g: RotationGroup<Mat>, seqs: seq<SeqRecord>,
                                         rawMeshes: map<string, seq<Vec3>>, store: map<string, RestEntry>)
    requires MeshesNonEmpty(rawMeshes)
    requires BuildRegistry(g, seqs, rawMeshes, store).Success?
    ensures var st := BuildRegistry(g, seqs, rawMeshes, store).value;
      && Consistent(st)
      && st.dict.Keys == Mentioned(seqs)
      && StoreExtends(store, st.store)
      && (forall n :: n in st.store ==> n in store || n in st.dict)
    decreases |seqs|
  {
    if |seqs| > 0 {
      RegistryShape(g, seqs[..|seqs| - 1], rawMeshes, store);
    }
  }

  /** Running the registry again over the same sequences, with the store the
      first run left, registers the same objects with the same data and
      writes nothing. */
  lemma RegistryIdempotent(g: RotationGroup<Mat>, seqs: seq<SeqRecord>,
                           rawMeshes: map<string, seq<Vec3>>, store: map<string, RestEntry>)
    requires MeshesNonEmpty(rawMeshes)
    requires BuildRegistry(g, seqs, rawMeshes, store).Success?
    ensures var st := BuildRegistry(g, seqs, rawMeshes, store).value;
      BuildRegistry(g, seqs, rawMeshes, st.store) == Success(st)
  {
    var st := BuildRegistry(g, seqs, rawMeshes, store).value;
    RegistryReplay(g, seqs, rawMeshes, store, st.store);
  }

  /** A run against any store that already holds every entry of a successful
      run's store reproduces that run's dictionary and leaves the store alone. */
  lemma {:induction false} RegistryReplay(g: RotationGroup<Mat>, seqs: seq<SeqRecord>,
                                          rawMeshes: map<string, seq<Vec3>>,
                                          store: map<string, RestEntry>, final: map<string, RestEntry>)
    requires MeshesNonEmpty(rawMeshes)
    requires BuildRegistry(g, seqs, rawMeshes, store).Success?
    requires StoreExtends(BuildRegistry(g, seqs, rawMeshes, store).value.store, final)
    ensures BuildRegistry(g, seqs, rawMeshes, final)
         == Success(Registry(BuildRegistry(g, seqs, rawMeshes, store).value.dict, final))
    decreases |seqs|
  {
    if |seqs| > 0 {
      var front := seqs[..|seqs| - 1];
      var s := seqs[|seqs| - 1];
      var st := BuildRegistry(g, seqs, rawMeshes, store).value;
      var before := BuildRegistry(g, front, rawMeshes, store).value;
      assert RegisterSeq(g, before, s, rawMeshes) == Success(st);
      RegistryShape(g, front, rawMeshes, store);
      assert StoreExtends(before.store, st.store);
      RegistryReplay(g, front, rawMeshes, store, final);
      var name := ObjectName(s.seqName).value;
      if !Skipped(name) && name !in before.dict {
        assert name in st.store;
        assert ConvertRestPose(g, name, s, rawMeshes, final) == Success(final);
      }
    }
  }

  /** The entry of an object no stored entry existed for comes from frame 0 of
      the first sequence that mentions it. */
  lemma {:induction false} FirstMentionWins(g: RotationGroup<Mat>, seqs: seq<SeqRecord>,
                                            rawMeshes: map<string, seq<Vec3>>, store: map<string, RestEntry>,
                                            i: nat, name: string)
    requires MeshesNonEmpty(rawMeshes)
    requires BuildRegistry(g, seqs, rawMeshes, store).Success?
    requires i < |seqs| && ObjectName(seqs[i].seqName) == Some(name) && !Skipped(name)
    requires forall j :: 0 <= j < i ==> ObjectName(seqs[j].seqName) != Some(name)
    requires name !in store
    ensures |seqs[i].frames| > 0 && name in rawMeshes
    ensures var st := BuildRegistry(g, seqs, rawMeshes, store).value;
      name in st.dict && st.dict[name] == DeriveRestEntry(g, seqs[i].frames[0], rawMeshes[name]).meta
    decreases |seqs|
  {
    var front := seqs[..|seqs| - 1];
    var last := seqs[|seqs| - 1];
    var before := BuildRegistry(g, front, rawMeshes, store).value;
    var st := BuildRegistry(g, seqs, rawMeshes, store).value;
    assert RegisterSeq(g, before, last, rawMeshes) == Success(st);
    RegistryShape(g, front, rawMeshes, store);
    if i == |seqs| - 1 {
      assert forall j :: 0 <= j < |front| ==> front[j] == seqs[j];
      NotMentioned(front, name);
      assert name !in before.dict && name !in before.store;
      var conv := ConvertRestPose(g, name, last, rawMeshes, before.store);
      assert conv.Success? && st.store == conv.value;
    } else {
      assert forall j :: 0 <= j < i ==> front[j] == seqs[j];
      assert front[i] == seqs[i];
      FirstMentionWins(g, front, rawMeshes, store, i, name);
      assert name in before.dict;
      assert st.dict[name] == before.dict[name];
    }
  }

  lemma {:induction false} NotMentioned(seqs: seq<SeqRecord>, name: string)
    requires forall j :: 0 <= j < |seqs| ==> ObjectName(seqs[j].seqName) != Some(name)
    ensures name !in Mentioned(seqs)
    decreases |seqs|
  {
    if |seqs| > 0 {
      var front := seqs[..|seqs| - 1];
      assert forall j :: 0 <= j < |front| ==> front[j] == seqs[j];
      NotMentioned(front, name);
    }
  }

  /** Every stored rest geometry is centred on the origin. */
  predicate StoreCentred(store: map<string, RestEntry>) {
    forall n :: n in store ==> |store[n].restVerts| > 0 && Centroid(store[n].restVerts) == Origin
  }

  /** The registry only stores centred rest geometry. */
  lemma {:induction false} RegistryKeepsCentred(g: RotationGroup<Mat>, seqs: seq<SeqRecord>,
                                                rawMeshes: map<string, seq<Vec3>>, store: map<string, RestEntry>)
    requires MeshesNonEmpty(rawMeshes) && StoreCentred(store)
    requires BuildRegistry(g, seqs, rawMeshes, store).Success?
    ensures StoreCentred(BuildRegistry(g, seqs, rawMeshes, store).value.store)
    decreases |seqs|
  {
    if |seqs| > 0 {
      RegistryKeepsCentred(g, seqs[..|seqs| - 1], rawMeshes, store);
    }
  }

  /** `load_object_geometry_w_rest_geo`: the rest geometry placed at every
      frame's rotation and centroid. */
  function PoseRestGeometry(g: RotationGroup<Mat>, objRot: seq<Mat>, objComPos: seq<Vec3>,
                            restVerts: seq<Vec3>): (frames: seq<seq<Vec3>>)
    requires |objRot| == |objComPos|
    ensures |frames| == |objRot|
  {
    seq(|objRot|, t requires 0 <= t < |objRot| => Place(g, objRot[t], objComPos[t], restVerts))
  }

  /** Posing centred rest geometry puts each frame's centroid at that frame's
      object position, whatever the rotation. */
  lemma PosedCentroids(g: RotationGroup<Mat>, objRot: seq<Mat>, objComPos: seq<Vec3>, restVerts: seq<Vec3>)
    requires IsLinearAction(g) && |objRot| == |objComPos|
    requires |restVerts| > 0 && Centroid(restVerts) == Origin
    ensures forall t :: 0 <= t < |objRot| ==>
      Centroid(PoseRestGeometry(g, objRot, objComPos, restVerts)[t]) == objComPos[t]
  {
    forall t | 0 <= t < |objRot|
      ensures Centroid(PoseRestGeometry(g, objRot, objComPos, restVerts)[t]) == objComPos[t]
    {
      PlacedCentroid(g, objRot[t], objComPos[t], restVerts);
    }
  }
}
