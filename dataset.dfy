/**
 * `CanoObjectTrajDataset`, the dataset object.  The constructor takes what
 * the implementation reads from disk: the captured sequences, the object
 * meshes, the rest geometry already stored, the text annotations, the contact
 * labels and the saved statistics.  `Prepare` runs the rest of `__init__` in
 * its order: the rest-pose registry, window enumeration, statistics, then the
 * object-split, text and short-sequence filters.  `GetItem` is `__getitem__`.
 */
module Dataset {
  import opened Wrappers
  import opened Geometry
  import opened Records
  import opened Names
  import opened RestPose
  import opened Windows
  import opened Filters
  import opened Statistics
  import opened Normalization
  import opened Query

  /** The objects seen in training and the ones held out for testing. */
  const TrainObjects: seq<string> :=
    ["largetable", "woodchair", "plasticbox", "largebox", "smallbox", "trashcan", "monitor", "floorlamp", "clothesstand"]
  const TestObjects: seq<string> := ["smalltable", "whitechair", "suitcase", "tripod"]

  /** What `__getitem__` can fail on. */
  datatype QueryError =
    | MissingWindow(index: nat)           // `window_data_dict[index]`
    | MissingContactLabels(seqName: string)
    | MissingAnnotation(seqName: string)

  /** The windows left after the filters `__init__` applies, in its order:
      object split, then text, then (outside training) short sequences. */
  function AfterFilters(ws: seq<WindowData>, train: bool, window: int, useObjectSplits: bool,
                        inputLanguageCondition: bool, annotated: set<string>): seq<WindowData>
    requires forall i :: 0 <= i < |ws| ==> ObjectName(ws[i].seqName).Some?
  {
    var a := if useObjectSplits then Selected(ws, KeptIndices(SplitFlags(ws, train, TrainObjects, TestObjects))) else ws;
    var b := if inputLanguageCondition then Selected(a, KeptIndices(AnnotatedFlags(a, annotated))) else a;
    if !train then Selected(b, KeptIndices(LongFlags(b, window))) else b
  }

  /** The windows left are exactly the enumerated ones that pass every filter
      `__init__` ran: of a listed object when the object split is on,
      annotated when language conditioning is on, and a full window from
      frame 0 outside training. */
  lemma AfterFiltersExact(ws: seq<WindowData>, train: bool, window: int, useObjectSplits: bool,
                          inputLanguageCondition: bool, annotated: set<string>)
    requires forall i :: 0 <= i < |ws| ==> ObjectName(ws[i].seqName).Some?
    ensures forall w :: w in AfterFilters(ws, train, window, useObjectSplits, inputLanguageCondition, annotated) <==>
      && w in ws
      && (useObjectSplits ==> KeepObjectSplit(w, train, TrainObjects, TestObjects))
      && (inputLanguageCondition ==> KeepAnnotated(w, annotated))
      && (!train ==> KeepLong(w, window))
  {
    var a := if useObjectSplits then Selected(ws, KeptIndices(SplitFlags(ws, train, TrainObjects, TestObjects))) else ws;
    if useObjectSplits {
      SplitKept(ws, train);
    }
    var b := if inputLanguageCondition then Selected(a, KeptIndices(AnnotatedFlags(a, annotated))) else a;
    if inputLanguageCondition {
      AnnotatedKept(a, annotated);
    }
    var c := if !train then Selected(b, KeptIndices(LongFlags(b, window))) else b;
    if !train {
      LongKept(b, window);
    }
    assert c == AfterFilters(ws, train, window, useObjectSplits, inputLanguageCondition, annotated);
  }

  /** The object split keeps exactly the windows of the listed objects. */
  lemma SplitKept(ws: seq<WindowData>, train: bool)
    requires forall i :: 0 <= i < |ws| ==> ObjectName(ws[i].seqName).Some?
    ensures forall w :: w in Selected(ws, KeptIndices(SplitFlags(ws, train, TrainObjects, TestObjects))) <==>
      w in ws && KeepObjectSplit(w, train, TrainObjects, TestObjects)
  {
    var keep := SplitFlags(ws, train, TrainObjects, TestObjects);
    SelectedKept(ws, keep);
    forall w | w in ws && KeepObjectSplit(w, train, TrainObjects, TestObjects)
      ensures exists i :: 0 <= i < |ws| && keep[i] && ws[i] == w
    {
      var i :| 0 <= i < |ws| && ws[i] == w;
      assert keep[i];
    }
  }

  /** The text filter keeps exactly the annotated windows. */
  lemma AnnotatedKept(ws: seq<WindowData>, annotated: set<string>)
    ensures forall w :: w in Selected(ws, KeptIndices(AnnotatedFlags(ws, annotated))) <==>
      w in ws && KeepAnnotated(w, annotated)
  {
    var keep := AnnotatedFlags(ws, annotated);
    SelectedKept(ws, keep);
    forall w | w in ws && KeepAnnotated(w, annotated)
      ensures exists i :: 0 <= i < |ws| && keep[i] && ws[i] == w
    {
      var i :| 0 <= i < |ws| && ws[i] == w;
      assert keep[i];
    }
  }

  /** The short filter keeps exactly the full windows that start at frame 0. */
  lemma LongKept(ws: seq<WindowData>, window: int)
    ensures forall w :: w in Selected(ws, KeptIndices(LongFlags(ws, window))) <==>
      w in ws && KeepLong(w, window)
  {
    var keep := LongFlags(ws, window);
    SelectedKept(ws, keep);
    forall w | w in ws && KeepLong(w, window)
      ensures exists i :: 0 <= i < |ws| && keep[i] && ws[i] == w
    {
      var i :| 0 <= i < |ws| && ws[i] == w;
      assert keep[i];
    }
  }

  /** The statistics `__init__` ends up with: the saved ones, else (only when
      training) those of the enumerated windows. */
  function StatsFor(ws: seq<WindowData>, savedStats: Option<Stats>, train: bool): (r: Result<Stats, PipelineError>)
    requires AllShaped(ws)
    ensures savedStats.Some? ==> r == Success(savedStats.value)
    ensures r.Failure? <==> savedStats.None? && (!train || RowCount(ws) == 0)
    ensures r.Success? && savedStats.None? ==>
      && StatsShaped(r.value)
      && IsBounds(MotionColumns(ws, 0, JposWidth), JposWidth, r.value.jposMin, r.value.jposMax)
      && IsBounds(MotionColumns(ws, JposWidth, JposWidth + JvelWidth), JvelWidth, r.value.jvelMin, r.value.jvelMax)
      && IsBounds(ComRows(ws), 3, r.value.comMin, r.value.comMax)
  {
    match savedStats
    case Some(s) => Success(s)
    case None =>
      if !train then Failure(MissingStatistics)
      else if StatsOf(ws).Failure? then StatsOf(ws)
      else StatsOfBounds(ws); StatsOf(ws)
  }

  /** One more kept window extends the enumerated records by its data. */
  lemma DatasStep(p: Pipeline, s: SeqRecord, starts: seq<nat>, k: nat, window: int,
                  restVerts: seq<Vec3>, restRot: Mat, rawMesh: seq<Vec3>,
                  records: seq<WindowRecord>, record: WindowRecord)
    requires PipelineOk(p) && SeqShaped(s) && window > 0 && SpanTestPasses(window)
    requires |restVerts| > 0 && |rawMesh| > 0
    requires forall i :: 0 <= i < |starts| ==> starts[i] < |s.frames|
    requires k < |starts|
    requires Datas(records) == WindowsFrom(p, s, starts[..k], window, restVerts, restRot, rawMesh)
    requires record.data == BuildWindow(p, s, starts[k], window, restVerts, restRot, rawMesh)
    ensures Datas(records + [record]) == WindowsFrom(p, s, starts[..k + 1], window, restVerts, restRot, rawMesh)
  {
    WindowsFromStep(p, s, starts, k, window, restVerts, restRot, rawMesh);
    DatasAppend(records, record);
  }

  /** What a successful `__init__` computes. */
  datatype InitState = InitState(registry: Registry, windows: seq<WindowData>, stats: Stats, kept: seq<WindowData>)

  /** The first two steps of `__init__`: the rest-pose registry, then the
      windows of every sequence; or the first error. */
  function Registered(p: Pipeline, seqs: seq<SeqRecord>, window: int, rawMeshes: map<string, seq<Vec3>>,
                      store: map<string, RestEntry>): (r: Result<(Registry, seq<WindowData>), PipelineError>)
    requires PipelineOk(p) && (forall i :: 0 <= i < |seqs| ==> SeqShaped(seqs[i]))
    requires MeshesNonEmpty(rawMeshes) && StoreCentred(store)
    ensures r.Success? ==>
      && BuildRegistry(p.g, seqs, rawMeshes, store) == Success(r.value.0)
      && StoreCentred(r.value.0.store)
      && Enumerate(p, seqs, window, r.value.0.dict, r.value.0.store, rawMeshes) == Success(r.value.1)
      && (forall w :: w in r.value.1 ==> StoredWindow(w))
    ensures BuildRegistry(p.g, seqs, rawMeshes, store).Failure? ==>
      r == Failure(BuildRegistry(p.g, seqs, rawMeshes, store).error)
    ensures r.Failure? && BuildRegistry(p.g, seqs, rawMeshes, store).Success? ==>
      var reg := BuildRegistry(p.g, seqs, rawMeshes, store).value;
      StoreCentred(reg.store) && Enumerate(p, seqs, window, reg.dict, reg.store, rawMeshes) == Failure(r.error)
  {
    match BuildRegistry(p.g, seqs, rawMeshes, store)
    case Failure(e) => Failure(e)
    case Success(reg) =>
      RegistryKeepsCentred(p.g, seqs, rawMeshes, store);
      match Enumerate(p, seqs, window, reg.dict, reg.store, rawMeshes)
      case Failure(e) => Failure(e)
      case Success(ws) =>
        EnumerateStored(p, seqs, window, reg.dict, reg.store, rawMeshes);
        Success((reg, ws))
  }

  /** `__init__` without a processed-data cache: the registry, the windows of
      every sequence, the statistics, then the filters; or the first error. */
  function Init(p: Pipeline, seqs: seq<SeqRecord>, window: int, rawMeshes: map<string, seq<Vec3>>,
                store: map<string, RestEntry>, annotated: set<string>, savedStats: Option<Stats>,
                train: bool, useObjectSplits: bool, inputLanguageCondition: bool): (r: Result<InitState, PipelineError>)
    requires PipelineOk(p) && (forall i :: 0 <= i < |seqs| ==> SeqShaped(seqs[i]))
    requires MeshesNonEmpty(rawMeshes) && StoreCentred(store)
    requires savedStats.Some? ==> StatsShaped(savedStats.value)
    ensures r.Success? ==>
      && Registered(p, seqs, window, rawMeshes, store) == Success((r.value.registry, r.value.windows))
      && StatsShaped(r.value.stats)
      && (forall w :: w in r.value.windows ==> StoredWindow(w))
      && AllShaped(r.value.windows)
      && StatsFor(r.value.windows, savedStats, train) == Success(r.value.stats)
      && (forall w :: w in r.value.kept <==>
            && w in r.value.windows
            && (useObjectSplits ==> KeepObjectSplit(w, train, TrainObjects, TestObjects))
            && (inputLanguageCondition ==> KeepAnnotated(w, annotated))
            && (!train ==> KeepLong(w, window)))
    ensures Registered(p, seqs, window, rawMeshes, store).Failure? ==>
      r == Failure(Registered(p, seqs, window, rawMeshes, store).error)
    ensures r.Failure? && Registered(p, seqs, window, rawMeshes, store).Success? ==>
      var ws := Registered(p, seqs, window, rawMeshes, store).value.1;
      AllShaped(ws) && StatsFor(ws, savedStats, train) == Failure(r.error)
  {
    match Registered(p, seqs, window, rawMeshes, store)
    case Failure(e) => Failure(e)
    case Success((reg, ws)) =>
      StoredShaped(ws);
      match StatsFor(ws, savedStats, train)
      case Failure(e) => Failure(e)
      case Success(st) =>
        AfterFiltersExact(ws, train, window, useObjectSplits, inputLanguageCondition, annotated);
        Success(InitState(reg, ws, st, AfterFilters(ws, train, window, useObjectSplits, inputLanguageCondition, annotated)))
  }

  lemma StoredShaped(ws: seq<WindowData>)
    requires forall w :: w in ws ==> StoredWindow(w)
    ensures AllShaped(ws) && forall i :: 0 <= i < |ws| ==> ObjectName(ws[i].seqName).Some?
  {
    forall i | 0 <= i < |ws| ensures StoredWindow(ws[i]) {
      assert ws[i] in ws;
    }
  }

  /** `keys[i]` is the key under which `dict[i]` was enumerated. */
  predicate TracedTo(enumerated: seq<WindowRecord>, keys: seq<nat>, dict: seq<WindowRecord>) {
    |keys| == |dict| && forall i :: 0 <= i < |dict| ==> keys[i] < |enumerated| && enumerated[keys[i]] == dict[i]
  }

  /** What the filters keep: distinct stored windows, each traced back to
      the key it was enumerated under. */
  predicate RecordsTraced(enumerated: seq<WindowRecord>, keys: seq<nat>, dict: seq<WindowRecord>) {
    && Distinct(dict)
    && (forall i :: 0 <= i < |dict| ==> StoredWindow(dict[i].data))
    && TracedTo(enumerated, keys, dict)
  }

  /** A filter keeps distinct stored windows, each with its trace. */
  lemma RecordsTracedSelected(enumerated: seq<WindowRecord>, keys: seq<nat>, dict: seq<WindowRecord>, keep: seq<bool>)
    requires RecordsTraced(enumerated, keys, dict) && |keep| == |dict|
    ensures RecordsTraced(enumerated, Selected(keys, KeptIndices(keep)), Selected(dict, KeptIndices(keep)))
  {
    SelectedDistinct(dict, keep);
  }

  /** The BPS file written for key `k` is named after the sequence of the
      record enumerated under `k` and after `k` itself. */
  predicate BpsNamed(enumerated: seq<WindowRecord>, written: seq<(string, nat)>) {
    |written| == |enumerated| && forall k :: 0 <= k < |enumerated| ==> written[k] == (enumerated[k].data.seqName, k)
  }

  /** Every record of `dict` has an `ori_w_idx` when `present`, none otherwise. */
  ghost predicate OrisPresent(dict: seq<WindowRecord>, present: bool)
    reads dict
  {
    forall i :: 0 <= i < |dict| ==> dict[i].oriWIdx.Some? == present
  }

  /** No two keys share a BPS file: a name `BpsKey(seqName, k)` written for
      key `k` is never written again for another key. */
  lemma BpsFilesDistinct(written: seq<(string, nat)>, k1: nat, k2: nat)
    requires forall k :: 0 <= k < |written| ==> written[k].1 == k
    requires k1 < |written| && k2 < |written| && k1 != k2
    ensures BpsKey(written[k1].0, written[k1].1) != BpsKey(written[k2].0, written[k2].1)
  {
    if BpsKey(written[k1].0, written[k1].1) == BpsKey(written[k2].0, written[k2].1) {
      BpsKeyInjective(written[k1].0, written[k1].1, written[k2].0, written[k2].1);
    }
  }

  class CanoObjectTrajDataset {
    const train: bool
    const window: int
    const useObjectSplits: bool
    const inputLanguageCondition: bool
    const useRandomFrameBps: bool
    const pipeline: Pipeline
    /** `data_dict`, the captured sequences in key order. */
    const dataDict: seq<SeqRecord>
    /** The captured object meshes, by object name. */
    const rawMeshes: map<string, seq<Vec3>>
    /** The text annotation of every annotated sequence. */
    const annotations: map<string, string>
    /** The contact labels of every sequence that has them, `T X 4`. */
    const contacts: map<string, seq<seq<real>>>
    /** The statistics saved by an earlier run, if any. */
    const savedStats: Option<Stats>

    var restPoseObjectDict: map<string, RestMeta>
    /** The rest geometry stored so far, by object name. */
    var restObjectGeo: map<string, RestEntry>
    /** `window_data_dict`: the record under key `i` is `windowDataDict[i]`. */
    var windowDataDict: seq<WindowRecord>
    var stats: Option<Stats>
    /** The records as enumerated, under their original keys. */
    ghost var enumerated: seq<WindowRecord>
    /** The BPS file written for each original key, as the sequence name and
        key its name `BpsKey(seqName, key)` is made of. */
    ghost var bpsWritten: seq<(string, nat)>

    constructor (train: bool, window: int, useObjectSplits: bool, inputLanguageCondition: bool,
                 useRandomFrameBps: bool, pipeline: Pipeline, dataDict: seq<SeqRecord>,
                 rawMeshes: map<string, seq<Vec3>>, restObjectGeo: map<string, RestEntry>,
                 annotations: map<string, string>, contacts: map<string, seq<seq<real>>>,
                 savedStats: Option<Stats>)
      ensures this.train == train && this.window == window && this.useObjectSplits == useObjectSplits
      ensures this.inputLanguageCondition == inputLanguageCondition && this.useRandomFrameBps == useRandomFrameBps
      ensures this.pipeline == pipeline && this.dataDict == dataDict && this.rawMeshes == rawMeshes
      ensures this.restObjectGeo == restObjectGeo && this.annotations == annotations
      ensures this.contacts == contacts && this.savedStats == savedStats
      ensures restPoseObjectDict == map[] && windowDataDict == [] && stats == None
      ensures enumerated == [] && bpsWritten == []
    {
      this.train := train;
      this.window := window;
      this.useObjectSplits := useObjectSplits;
      this.inputLanguageCondition := inputLanguageCondition;
      this.useRandomFrameBps := useRandomFrameBps;
      this.pipeline := pipeline;
      this.dataDict := dataDict;
      this.rawMeshes := rawMeshes;
      this.restObjectGeo := restObjectGeo;
      this.annotations := annotations;
      this.contacts := contacts;
      this.savedStats := savedStats;
      restPoseObjectDict := map[];
      windowDataDict := [];
      stats := None;
      enumerated := [];
      bpsWritten := [];
    }

    /** What the loaded data guarantees. */
    ghost predicate InputsOk()
      reads this
    {
      && PipelineOk(pipeline)
      && (forall i :: 0 <= i < |dataDict| ==> SeqShaped(dataDict[i]))
      && MeshesNonEmpty(rawMeshes)
      && StoreCentred(restObjectGeo)
      && (savedStats.Some? ==> StatsShaped(savedStats.value))
    }

    /** The records stored while enumerating: distinct objects, none carrying
        an original key yet, and each with the BPS file of its own key. */
    ghost predicate EnumerationState()
      reads this, windowDataDict
    {
      && |bpsWritten| == |windowDataDict|
      && Distinct(windowDataDict)
      && forall k :: 0 <= k < |windowDataDict| ==>
           windowDataDict[k].oriWIdx == None && bpsWritten[k] == (windowDataDict[k].data.seqName, k)
    }

    /** Whether some filter re-keyed the dictionary: `__getitem__` then
        names the BPS file by `ori_w_idx` rather than by the index. */
    predicate FiltersRan() {
      !train || useObjectSplits || inputLanguageCondition
    }

    /** The key each record of `dict` was enumerated under: its `ori_w_idx`,
        or its own key when it has none. */
    ghost function OriginalKeys(dict: seq<WindowRecord>): (keys: seq<nat>)
      reads dict
      ensures |keys| == |dict| && forall i :: 0 <= i < |dict| ==> keys[i] == CarriedIndex(dict[i].oriWIdx, i)
    {
      Keys(Oris(dict))
    }

    /** `dict` holds distinct stored windows, each traced back to the key it
        was enumerated under. */
    ghost predicate TracedDict(dict: seq<WindowRecord>)
      reads this`enumerated, dict
    {
      RecordsTraced(enumerated, OriginalKeys(dict), dict)
    }

    ghost predicate Filterable()
      reads this, windowDataDict
    {
      TracedDict(windowDataDict)
    }

    /** The state after `__init__`: statistics in hand, every window a stored
        one traced to its original key, whose BPS file is named after its
        sequence and that key. */
    ghost predicate Valid()
      reads this, windowDataDict
    {
      && stats.Some? && StatsShaped(stats.value)
      && BpsNamed(enumerated, bpsWritten)
      && Filterable()
      && AllOri(FiltersRan())
    }

    /** `extract_rest_pose_object_geometry_and_rotation`. */
    method ExtractRestPoseObjectGeometryAndRotation() returns (err: Option<PipelineError>)
      requires MeshesNonEmpty(rawMeshes)
      modifies this
      ensures windowDataDict == old(windowDataDict) && stats == old(stats)
      ensures enumerated == old(enumerated) && bpsWritten == old(bpsWritten)
      ensures match BuildRegistry(pipeline.g, dataDict, rawMeshes, old(restObjectGeo))
        case Success(st) => err == None && restPoseObjectDict == st.dict && restObjectGeo == st.store
        case Failure(e) => err == Some(e)
    {
      restPoseObjectDict := map[];
      for i := 0 to |dataDict|
        invariant BuildRegistry(pipeline.g, dataDict[..i], rawMeshes, old(restObjectGeo))
               == Success(Registry(restPoseObjectDict, restObjectGeo))
        invariant windowDataDict == old(windowDataDict) && stats == old(stats)
        invariant enumerated == old(enumerated) && bpsWritten == old(bpsWritten)
      {
        var s := dataDict[i];
        assert dataDict[..i + 1][..i] == dataDict[..i];
        assert dataDict[..i + 1][i] == s;
        var name := ObjectName(s.seqName);
        if name.None? {
          RegistryFailurePersists(pipeline.g, dataDict, rawMeshes, old(restObjectGeo), i + 1);
          return Some(BadSequenceName(s.seqName));
        }
        var objectName := name.value;
        if !Skipped(objectName) && objectName !in restPoseObjectDict {
          var converted := ConvertRestPose(pipeline.g, objectName, s, rawMeshes, restObjectGeo);
          if converted.Failure? {
            RegistryFailurePersists(pipeline.g, dataDict, rawMeshes, old(restObjectGeo), i + 1);
            return Some(converted.error);
          }
          restObjectGeo := converted.value;
          restPoseObjectDict := restPoseObjectDict[objectName := restObjectGeo[objectName].meta];
        }
      }
      assert dataDict[..|dataDict|] == dataDict;
      return None;
    }

    /** `cal_normalize_data_input`: the windows of every sequence in order,
      under keys 0, 1, 2, ... across sequences, each with the name of the BPS
      file written for it. */
    method CalNormalizeDataInput() returns (err: Option<PipelineError>)
      requires PipelineOk(pipeline) && (forall i :: 0 <= i < |dataDict| ==> SeqShaped(dataDict[i]))
      requires StoreNonEmpty(restObjectGeo) && MeshesNonEmpty(rawMeshes)
      modifies this
      ensures restPoseObjectDict == old(restPoseObjectDict) && restObjectGeo == old(restObjectGeo) && stats == old(stats)
      ensures match Enumerate(pipeline, dataDict, window, restPoseObjectDict, restObjectGeo, rawMeshes)
        case Success(ws) =>
          && err == None
          && Datas(windowDataDict) == ws
          && enumerated == windowDataDict
          && EnumerationState()
          && (forall k :: 0 <= k < |windowDataDict| ==> fresh(windowDataDict[k]))
        case Failure(e) => err == Some(e)
    {
      windowDataDict := [];
      bpsWritten := [];
      for i := 0 to |dataDict|
        invariant restPoseObjectDict == old(restPoseObjectDict) && restObjectGeo == old(restObjectGeo) && stats == old(stats)
        invariant Enumerate(pipeline, dataDict[..i], window, restPoseObjectDict, restObjectGeo, rawMeshes) == Success(Datas(windowDataDict))
        invariant EnumerationState()
        invariant forall k :: 0 <= k < |windowDataDict| ==> fresh(windowDataDict[k])
      {
        var s := dataDict[i];
        EnumerateExtend(pipeline, dataDict, window, restPoseObjectDict, restObjectGeo, rawMeshes, i);
        ghost var prior := windowDataDict;
        var e := EnumerateSequence(s);
        if e.Some? {
          EnumerateFailurePersists(pipeline, dataDict, window, restPoseObjectDict, restObjectGeo, rawMeshes, i + 1);
          return e;
        }
        forall k | 0 <= k < |windowDataDict| ensures fresh(windowDataDict[k]) {
          if k < |prior| {
            assert windowDataDict[k] == prior[k];
          }
        }
      }
      assert dataDict[..|dataDict|] == dataDict;
      enumerated := windowDataDict;
      return None;
    }

    /** One pass of the outer loop of `cal_normalize_data_input`: the checks
        on the sequence's object, then its windows. */
    method EnumerateSequence(s: SeqRecord) returns (err: Option<PipelineError>)
      requires PipelineOk(pipeline) && SeqShaped(s)
      requires StoreNonEmpty(restObjectGeo) && MeshesNonEmpty(rawMeshes)
      requires EnumerationState()
      modifies this
      ensures restPoseObjectDict == old(restPoseObjectDict) && restObjectGeo == old(restObjectGeo) && stats == old(stats)
      ensures enumerated == old(enumerated)
      ensures match SeqWindows(pipeline, s, window, restPoseObjectDict, restObjectGeo, rawMeshes)
        case Failure(e) => err == Some(e)
        case Success(more) =>
          && err == None
          && Datas(windowDataDict) == Datas(old(windowDataDict)) + more
          && EnumerationState()
          && old(windowDataDict) <= windowDataDict
          && (forall j :: |old(windowDataDict)| <= j < |windowDataDict| ==> fresh(windowDataDict[j]))
    {
      var name := ObjectName(s.seqName);
      if name.None? {
        return Some(BadSequenceName(s.seqName));
      }
      var objectName := name.value;
      if Skipped(objectName) {
        assert Datas(windowDataDict) + [] == Datas(windowDataDict);
        return None;
      }
      if objectName !in restPoseObjectDict {
        return Some(MissingRestPose(objectName));
      }
      var restRot := restPoseObjectDict[objectName].oriRotation;
      if objectName !in restObjectGeo {
        return Some(MissingRestMesh(objectName));
      }
      var restVerts := restObjectGeo[objectName].restVerts;
      if objectName !in rawMeshes {
        return Some(MissingRawMesh(objectName));
      }
      var rawMesh := rawMeshes[objectName];
      var step := window / 4;
      if step == 0 {
        return Some(ZeroStride);
      }
      if step < 0 {
        // `range(0, num_steps, step)` with a negative step is empty.
        assert Datas(windowDataDict) + [] == Datas(windowDataDict);
        return None;
      }
      var _ := AddWindowsOf(s, step, restVerts, restRot, rawMesh, |windowDataDict|);
      return None;
    }

    /** The inner loop of `cal_normalize_data_input`: one record per start
      index `0, step, 2 step, ...` below the frame count, stored under the
      next key when the span test passes, with the BPS file named after the
      sequence and that key. */
    method AddWindowsOf(s: SeqRecord, step: int, restVerts: seq<Vec3>, restRot: Mat, rawMesh: seq<Vec3>, nextKey: nat)
      returns (sIdx: nat)
      requires PipelineOk(pipeline) && SeqShaped(s) && step == window / 4 && step > 0 && window > 0
      requires |restVerts| > 0 && |rawMesh| > 0
      requires nextKey == |windowDataDict| && EnumerationState()
      modifies this
      ensures sIdx == |windowDataDict| && EnumerationState()
      ensures restPoseObjectDict == old(restPoseObjectDict) && restObjectGeo == old(restObjectGeo) && stats == old(stats)
      ensures enumerated == old(enumerated)
      ensures Datas(windowDataDict) == Datas(old(windowDataDict)) + WindowsFrom(pipeline, s, StartsFrom(0, |s.frames|, step), window, restVerts, restRot, rawMesh)
      ensures old(windowDataDict) <= windowDataDict
      ensures forall j :: |old(windowDataDict)| <= j < |windowDataDict| ==> fresh(windowDataDict[j])
    {
      var records := CollectWindows(s, step, restVerts, restRot, rawMesh);
      // The BPS file of each record is named after its sequence and key.
      ghost var written := seq(|records|, j requires 0 <= j < |records| => (records[j].data.seqName, nextKey + j));
      DatasConcat(windowDataDict, records);
      var all := windowDataDict + records;
      ghost var allWritten := bpsWritten + written;
      ghost var n0 := |windowDataDict|;
      forall k | 0 <= k < |all|
        ensures all[k].oriWIdx == None && allWritten[k] == (all[k].data.seqName, k)
      {
        if k < n0 {
          assert all[k] == windowDataDict[k] && allWritten[k] == bpsWritten[k];
        } else {
          assert all[k] == records[k - n0] && allWritten[k] == written[k - n0];
        }
      }
      forall j, l | 0 <= j < l < |all| ensures all[j] != all[l] {
        if l < n0 {
          assert all[j] == windowDataDict[j] && all[l] == windowDataDict[l];
        } else if j < n0 {
          assert all[j] == windowDataDict[j] && all[l] == records[l - n0];
        } else {
          assert all[j] == records[j - n0] && all[l] == records[l - n0];
        }
      }
      forall k | n0 <= k < |all| ensures fresh(all[k]) {
        assert all[k] == records[k - n0];
      }
      windowDataDict := all;
      bpsWritten := allWritten;
      sIdx := |windowDataDict|;
    }

    /** The new records of `AddWindowsOf`, in start order. */
    method CollectWindows(s: SeqRecord, step: int, restVerts: seq<Vec3>, restRot: Mat, rawMesh: seq<Vec3>)
      returns (records: seq<WindowRecord>)
      requires PipelineOk(pipeline) && SeqShaped(s) && step == window / 4 && step > 0 && window > 0
      requires |restVerts| > 0 && |rawMesh| > 0
      ensures Datas(records) == WindowsFrom(pipeline, s, StartsFrom(0, |s.frames|, step), window, restVerts, restRot, rawMesh)
      ensures Distinct(records)
      ensures forall r :: r in records ==> fresh(r) && r.oriWIdx == None
    {
      ghost var starts := StartsFrom(0, |s.frames|, step);
      records := [];
      var start := 0;
      ghost var k := 0;
      while start < |s.frames|
        invariant 0 <= k <= |starts|
        invariant k < |starts| ==> starts[k] == start
        invariant k < |starts| <==> start < |s.frames|
        invariant Datas(records) == WindowsFrom(pipeline, s, starts[..k], window, restVerts, restRot, rawMesh)
        invariant Distinct(records)
        invariant forall r :: r in records ==> fresh(r) && r.oriWIdx == None
        decreases |s.frames| - start
      {
        StartsStep(0, |s.frames|, step, k);
        var endIdx := start + window - 1;
        if endIdx - start >= 30 {
          assert SpanTestPasses(window);
          var d := BuildWindow(pipeline, s, start, window, restVerts, restRot, rawMesh);
          var record := new WindowRecord(d);
          DatasStep(pipeline, s, starts, k, window, restVerts, restRot, rawMesh, records, record);
          DistinctAppend(records, record);
          records := records + [record];
        } else {
          assert !SpanTestPasses(window);
          WindowsFromStep(pipeline, s, starts, k, window, restVerts, restRot, rawMesh);
        }
        start := start + step;
        k := k + 1;
      }
      assert starts[..k] == starts;
    }

    /** `extract_min_max_mean_std_from_data`: the joint-position columns, the
        joint-velocity columns and the object centroids of every window
        stacked in key order, then each column's minimum and maximum. */
    method ExtractMinMaxMeanStdFromData() returns (r: Result<Stats, PipelineError>)
      requires AllShaped(Datas(windowDataDict))
      ensures r == StatsOf(Datas(windowDataDict))
    {
      ghost var ds := Datas(windowDataDict);
      var jpos: seq<seq<real>> := [];
      var jvel: seq<seq<real>> := [];
      var com: seq<seq<real>> := [];
      for i := 0 to |windowDataDict|
        invariant AllShaped(ds[..i])
        invariant jpos == MotionColumns(ds[..i], 0, JposWidth)
        invariant jvel == MotionColumns(ds[..i], JposWidth, JposWidth + JvelWidth)
        invariant com == ComRows(ds[..i])
      {
        var d := windowDataDict[i].data;
        StackStep(ds, i);
        jpos := jpos + WindowColumns(d, 0, JposWidth);
        jvel := jvel + WindowColumns(d, JposWidth, JposWidth + JvelWidth);
        com := com + WindowComRows(d);
      }
      assert ds[..|ds|] == ds;
      if |jpos| == 0 {
        // `np.vstack` of an empty list raises.
        return Failure(NoWindows);
      }
      r := Success(Stats(ColumnMins(jpos, JposWidth), ColumnMaxs(jpos, JposWidth),
                         ColumnMins(jvel, JvelWidth), ColumnMaxs(jvel, JvelWidth),
                         ColumnMins(com, 3), ColumnMaxs(com, 3)));
    }

    /** The statistics step of `__init__`: the saved statistics when there
        are some, else (only when training) those of the enumerated windows;
        outside training without saved statistics the minimum and maximum
        read next are never bound. */
    method SetStatistics() returns (err: Option<PipelineError>)
      requires AllShaped(Datas(windowDataDict))
      modifies this`stats
      ensures match StatsFor(Datas(windowDataDict), savedStats, train)
        case Success(st) => err == None && stats == Some(st)
        case Failure(e) => err == Some(e)
    {
      if savedStats.Some? {
        stats := savedStats;
        return None;
      }
      if !train {
        return Some(MissingStatistics);
      }
      var r := ExtractMinMaxMeanStdFromData();
      if r.Failure? {
        return Some(r.error);
      }
      stats := Some(r.value);
      return None;
    }

    /** Right after enumeration every record sits under its original key and
        carries no `ori_w_idx`, so the filters may work on the dictionary. */
    lemma EnumeratedFilterable()
      requires EnumerationState() && enumerated == windowDataDict
      requires forall w :: w in Datas(windowDataDict) ==> StoredWindow(w)
      ensures Filterable() && AllOri(false)
      ensures BpsNamed(enumerated, bpsWritten)
    {
      ghost var ws := Datas(windowDataDict);
      forall i | 0 <= i < |windowDataDict| ensures StoredWindow(windowDataDict[i].data) {
        assert ws[i] in ws;
      }
    }

    /** `extract_rest_pose_object_geometry_and_rotation` then
        `cal_normalize_data_input`: the records stored under their original
        keys, ready for the filters. */
    method PrepareWindows() returns (err: Option<PipelineError>)
      requires InputsOk()
      modifies this
      ensures stats == old(stats)
      ensures match Registered(pipeline, dataDict, window, rawMeshes, old(restObjectGeo))
        case Success(rw) =>
          && err == None
          && restPoseObjectDict == rw.0.dict && restObjectGeo == rw.0.store
          && Datas(windowDataDict) == rw.1 && enumerated == windowDataDict
          && (forall k :: 0 <= k < |enumerated| ==> fresh(enumerated[k]))
          && Filterable() && AllOri(false)
          && BpsNamed(enumerated, bpsWritten)
        case Failure(e) => err == Some(e)
    {
      err := ExtractRestPoseObjectGeometryAndRotation();
      if err.Some? {
        return;
      }
      RegistryKeepsCentred(pipeline.g, dataDict, rawMeshes, old(restObjectGeo));
      err := CalNormalizeDataInput();
      if err.Some? {
        return;
      }
      EnumerateStored(pipeline, dataDict, window, restPoseObjectDict, restObjectGeo, rawMeshes);
      EnumeratedFilterable();
    }

    /** The rest of `__init__` once the windows are enumerated: the
        statistics, then the filters. */
    method PrepareRest() returns (err: Option<PipelineError>)
      requires Filterable() && AllOri(false)
      requires BpsNamed(enumerated, bpsWritten)
      requires AllShaped(Datas(windowDataDict))
      requires savedStats.Some? ==> StatsShaped(savedStats.value)
      modifies this`stats, this`windowDataDict, enumerated
      ensures match StatsFor(Datas(old(windowDataDict)), savedStats, train)
        case Success(st) =>
          && err == None && stats == Some(st)
          && Datas(windowDataDict) ==
               AfterFilters(Datas(old(windowDataDict)), train, window, useObjectSplits, inputLanguageCondition, annotations.Keys)
        case Failure(e) => err == Some(e)
      ensures err == None ==> Valid()
    {
      err := SetStatistics();
      if err.Some? {
        return;
      }
      FilterWindows(stats.value);
    }

    /** The filters once the statistics are set: afterwards the dataset is
        ready to serve items. */
    method FilterWindows(ghost st: Stats)
      requires stats == Some(st) && StatsShaped(st)
      requires Filterable() && AllOri(false)
      requires BpsNamed(enumerated, bpsWritten)
      modifies this`windowDataDict, enumerated
      ensures Datas(windowDataDict) ==
        AfterFilters(Datas(old(windowDataDict)), train, window, useObjectSplits, inputLanguageCondition, annotations.Keys)
      ensures Valid()
    {
      ApplyFilters();
      ValidIntro(st);
    }

    /** The parts of `Valid` the steps of `__init__` establish one by one. */
    lemma ValidIntro(st: Stats)
      requires stats == Some(st) && StatsShaped(st)
      requires BpsNamed(enumerated, bpsWritten)
      requires Filterable() && AllOri(FiltersRan())
      ensures Valid()
    {
    }

    /** `__init__` after the dataset files are loaded, without a processed
        cache: the registry, the windows, the statistics, then the filters;
        it stops at the first error. */
    method Prepare() returns (err: Option<PipelineError>)
      requires InputsOk()
      modifies this
      ensures match Init(pipeline, dataDict, window, rawMeshes, old(restObjectGeo), annotations.Keys,
                         savedStats, train, useObjectSplits, inputLanguageCondition)
        case Success(st) =>
          && err == None
          && restPoseObjectDict == st.registry.dict && restObjectGeo == st.registry.store
          && Datas(enumerated) == st.windows && stats == Some(st.stats)
          && Datas(windowDataDict) == st.kept
          && Valid()
        case Failure(e) => err == Some(e)
    {
      err := PrepareWindows();
      if err.Some? {
        return;
      }
      StoredShaped(Datas(windowDataDict));
      err := PrepareRest();
    }

    /** `filter_out_object_split`: the records of training objects when
        training, of test objects otherwise, under new keys 0, 1, 2, ...; each
        kept record's `ori_w_idx` is overwritten with the key it had. */
    method FilterOutObjectSplit() returns (newDict: seq<WindowRecord>)
      requires Distinct(windowDataDict)
      requires forall k :: 0 <= k < |windowDataDict| ==> ObjectName(windowDataDict[k].data.seqName).Some?
      modifies windowDataDict
      ensures var ks := KeptIndices(SplitFlags(Datas(windowDataDict), train, TrainObjects, TestObjects));
        && newDict == Selected(windowDataDict, ks)
        && forall j :: 0 <= j < |ks| ==> newDict[j].oriWIdx == Some(ks[j])
      ensures forall k :: 0 <= k < |windowDataDict| && !KeepObjectSplit(windowDataDict[k].data, train, TrainObjects, TestObjects) ==>
        windowDataDict[k].oriWIdx == old(windowDataDict[k].oriWIdx)
    {
      var keep := SplitFlags(Datas(windowDataDict), train, TrainObjects, TestObjects);
      newDict := Rekey(windowDataDict, keep, true);
    }

    /** `filter_out_seq_wo_text`: the records whose sequence has an annotation
        file, under new keys 0, 1, 2, ...; a kept record keeps the
        `ori_w_idx` it has, and otherwise gets the key it had. */
    method FilterOutSeqWoText() returns (newDict: seq<WindowRecord>)
      requires Distinct(windowDataDict)
      modifies windowDataDict
      ensures var ks := KeptIndices(AnnotatedFlags(Datas(windowDataDict), annotations.Keys));
        && newDict == Selected(windowDataDict, ks)
        && forall j :: 0 <= j < |ks| ==> newDict[j].oriWIdx == Some(CarriedIndex(old(windowDataDict[ks[j]].oriWIdx), ks[j]))
      ensures forall k :: 0 <= k < |windowDataDict| && !KeepAnnotated(windowDataDict[k].data, annotations.Keys) ==>
        windowDataDict[k].oriWIdx == old(windowDataDict[k].oriWIdx)
    {
      var keep := AnnotatedFlags(Datas(windowDataDict), annotations.Keys);
      newDict := Rekey(windowDataDict, keep, false);
    }

    /** `filter_out_short_sequences`: the records of a full window starting at
        frame 0, under new keys 0, 1, 2, ...; a kept record keeps the
        `ori_w_idx` it has, and otherwise gets the key it had. */
    method FilterOutShortSequences() returns (newDict: seq<WindowRecord>)
      requires Distinct(windowDataDict)
      modifies windowDataDict
      ensures var ks := KeptIndices(LongFlags(Datas(windowDataDict), window));
        && newDict == Selected(windowDataDict, ks)
        && forall j :: 0 <= j < |ks| ==> newDict[j].oriWIdx == Some(CarriedIndex(old(windowDataDict[ks[j]].oriWIdx), ks[j]))
      ensures forall k :: 0 <= k < |windowDataDict| && !KeepLong(windowDataDict[k].data, window) ==>
        windowDataDict[k].oriWIdx == old(windowDataDict[k].oriWIdx)
    {
      var keep := LongFlags(Datas(windowDataDict), window);
      newDict := Rekey(windowDataDict, keep, false);
    }

    /** Every record has an `ori_w_idx` when `present`, none otherwise. */
    ghost predicate AllOri(present: bool)
      reads this, windowDataDict
    {
      OrisPresent(windowDataDict, present)
    }

    /** The filters `__init__` applies after the statistics, in its order. */
    method ApplyFilters()
      requires Filterable() && AllOri(false)
      modifies this`windowDataDict, enumerated
      ensures Datas(windowDataDict) ==
        AfterFilters(Datas(old(windowDataDict)), train, window, useObjectSplits, inputLanguageCondition, annotations.Keys)
      ensures Filterable() && AllOri(FiltersRan())
    {
      ghost var ws := Datas(windowDataDict);
      StoredShaped(ws);
      ObjectSplitIf();
      TextFilterIf(useObjectSplits);
      ShortFilterIf(useObjectSplits || inputLanguageCondition);
    }

    /** `if self.use_object_splits: self.window_data_dict = self.filter_out_object_split()`. */
    method ObjectSplitIf()
      requires Filterable() && AllOri(false)
      requires forall i :: 0 <= i < |windowDataDict| ==> ObjectName(windowDataDict[i].data.seqName).Some?
      modifies this`windowDataDict, enumerated
      ensures var ws := Datas(old(windowDataDict));
        Datas(windowDataDict) == if useObjectSplits then Selected(ws, KeptIndices(SplitFlags(ws, train, TrainObjects, TestObjects))) else ws
      ensures Filterable() && AllOri(useObjectSplits)
    {
      ghost var ws := Datas(windowDataDict);
      if useObjectSplits {
        windowDataDict := SplitStage();
        assert Datas(windowDataDict) == Selected(ws, KeptIndices(SplitFlags(ws, train, TrainObjects, TestObjects)));
        assert Filterable() && AllOri(true);
      }
    }

    /** `if self.input_language_condition: self.window_data_dict = self.filter_out_seq_wo_text()`. */
    method TextFilterIf(ghost ran: bool)
      requires Filterable() && AllOri(ran)
      modifies this`windowDataDict, enumerated
      ensures var ws := Datas(old(windowDataDict));
        Datas(windowDataDict) == if inputLanguageCondition then Selected(ws, KeptIndices(AnnotatedFlags(ws, annotations.Keys))) else ws
      ensures Filterable()
      ensures AllOri(ran || inputLanguageCondition)
    {
      ghost var ws := Datas(windowDataDict);
      if inputLanguageCondition {
        windowDataDict := TextStage();
        assert Datas(windowDataDict) == Selected(ws, KeptIndices(AnnotatedFlags(ws, annotations.Keys)));
        assert Filterable() && AllOri(true);
      }
    }

    /** `if not self.train: self.window_data_dict = self.filter_out_short_sequences()`. */
    method ShortFilterIf(ghost ran: bool)
      requires Filterable() && AllOri(ran)
      modifies this`windowDataDict, enumerated
      ensures var ws := Datas(old(windowDataDict));
        Datas(windowDataDict) == if !train then Selected(ws, KeptIndices(LongFlags(ws, window))) else ws
      ensures Filterable() && AllOri(ran || !train)
    {
      ghost var ws := Datas(windowDataDict);
      if !train {
        windowDataDict := ShortStage();
        assert Datas(windowDataDict) == Selected(ws, KeptIndices(LongFlags(ws, window)));
        assert Filterable() && AllOri(true);
      }
    }

    /** `filter_out_object_split` on a dictionary the filters may work on:
        what it returns is one too, every record of it with an `ori_w_idx`. */
    method SplitStage() returns (newDict: seq<WindowRecord>)
      requires Filterable() && forall i :: 0 <= i < |windowDataDict| ==> windowDataDict[i].oriWIdx == None
      modifies windowDataDict
      ensures var ws := Datas(windowDataDict);
        Datas(newDict) == Selected(ws, KeptIndices(SplitFlags(ws, train, TrainObjects, TestObjects)))
      ensures TracedDict(newDict) && OrisPresent(newDict, true)
    {
      ghost var keys := OriginalKeys(windowDataDict);
      ghost var keep := SplitFlags(Datas(windowDataDict), train, TrainObjects, TestObjects);
      ghost var ks := KeptIndices(keep);
      ghost var oris := Oris(windowDataDict);
      DatasSelected(windowDataDict, ks);
      RecordsTracedSelected(enumerated, keys, windowDataDict, keep);
      newDict := FilterOutObjectSplit();
      KeysOverwritten(oris, Oris(newDict), ks);
    }

    /** `filter_out_seq_wo_text` on a dictionary the filters may work on:
        what it returns is one too, every record of it with an `ori_w_idx`. */
    method TextStage() returns (newDict: seq<WindowRecord>)
      requires Filterable()
      modifies windowDataDict
      ensures var ws := Datas(windowDataDict);
        Datas(newDict) == Selected(ws, KeptIndices(AnnotatedFlags(ws, annotations.Keys)))
      ensures TracedDict(newDict) && OrisPresent(newDict, true)
    {
      ghost var keys := OriginalKeys(windowDataDict);
      ghost var keep := AnnotatedFlags(Datas(windowDataDict), annotations.Keys);
      ghost var ks := KeptIndices(keep);
      ghost var oris := Oris(windowDataDict);
      DatasSelected(windowDataDict, ks);
      RecordsTracedSelected(enumerated, keys, windowDataDict, keep);
      newDict := FilterOutSeqWoText();
      KeysCarried(oris, Oris(newDict), ks);
    }

    /** `filter_out_short_sequences` on a dictionary the filters may work on:
        what it returns is one too, every record of it with an `ori_w_idx`. */
    method ShortStage() returns (newDict: seq<WindowRecord>)
      requires Filterable()
      modifies windowDataDict
      ensures var ws := Datas(windowDataDict);
        Datas(newDict) == Selected(ws, KeptIndices(LongFlags(ws, window)))
      ensures TracedDict(newDict) && OrisPresent(newDict, true)
    {
      ghost var keys := OriginalKeys(windowDataDict);
      ghost var keep := LongFlags(Datas(windowDataDict), window);
      ghost var ks := KeptIndices(keep);
      ghost var oris := Oris(windowDataDict);
      DatasSelected(windowDataDict, ks);
      RecordsTracedSelected(enumerated, keys, windowDataDict, keep);
      newDict := FilterOutShortSequences();
      KeysCarried(oris, Oris(newDict), ks);
    }

    /** Two windows of the dictionary were enumerated under different keys,
        so they never read the same BPS file. */
    lemma WindowsReadDistinctBps(i: nat, j: nat)
      requires Valid() && i < |windowDataDict| && j < |windowDataDict| && i != j
      ensures var ki := OriginalKeys(windowDataDict)[i];
        var kj := OriginalKeys(windowDataDict)[j];
        && ki != kj
        && BpsKey(bpsWritten[ki].0, bpsWritten[ki].1) != BpsKey(bpsWritten[kj].0, bpsWritten[kj].1)
    {
      var ki := OriginalKeys(windowDataDict)[i];
      var kj := OriginalKeys(windowDataDict)[j];
      assert enumerated[ki] == windowDataDict[i] && enumerated[kj] == windowDataDict[j];
      BpsFilesDistinct(bpsWritten, ki, kj);
    }

    /** `__getitem__(index)`, with `t` the frame the random draw picks from the
        window's BPS file when `use_random_frame_bps` is on.  The BPS file
        read is the one written for this very window: under its `ori_w_idx`
        once a filter re-keyed the dictionary, under its index otherwise. */
    method GetItem(index: nat, t: nat) returns (r: Result<Item, QueryError>)
      requires Valid()
      requires NonDegenerate(stats.value.jposMin, stats.value.jposMax) && NonDegenerate(stats.value.comMin, stats.value.comMax)
      requires useRandomFrameBps && index < |windowDataDict| ==> t < |windowDataDict[index].data.motion|
      ensures index >= |windowDataDict| ==> r == Failure(MissingWindow(index))
      ensures index < |windowDataDict| ==>
        var d := windowDataDict[index].data;
        if d.seqName !in contacts then r == Failure(MissingContactLabels(d.seqName))
        else if inputLanguageCondition && d.seqName !in annotations then r == Failure(MissingAnnotation(d.seqName))
        else
          && r.Success?
          && r.value == AssembleItem(pipeline.g, d, stats.value, window, contacts[d.seqName],
                                     if useRandomFrameBps then Some(t) else None,
                                     if inputLanguageCondition then Some(annotations[d.seqName]) else None,
                                     r.value.bps)
          && (useRandomFrameBps ==>
                var k := OriginalKeys(windowDataDict)[index];
                && k < |enumerated| && enumerated[k] == windowDataDict[index]
                && r.value.bps == WindowBps(BpsKey(bpsWritten[k].0, bpsWritten[k].1)))
          && (!useRandomFrameBps ==> r.value.bps == RestBps(ObjectName(d.seqName).value))
    {
      if index >= |windowDataDict| {
        return Failure(MissingWindow(index));
      }
      var record := windowDataDict[index];
      var d := record.data;
      if d.seqName !in contacts {
        return Failure(MissingContactLabels(d.seqName));
      }
      var labels := contacts[d.seqName];
      // The key the window was enumerated under, and its BPS file.
      ghost var k := OriginalKeys(windowDataDict)[index];
      assert enumerated[k] == record && bpsWritten[k] == (d.seqName, k);
      var bps: BpsFile;
      if useRandomFrameBps {
        if !train || useObjectSplits || inputLanguageCondition {
          bps := WindowBps(BpsKey(d.seqName, record.oriWIdx.value));
        } else {
          bps := WindowBps(BpsKey(d.seqName, index));
        }
      } else {
        bps := RestBps(ObjectName(d.seqName).value);
      }
      var reference := if useRandomFrameBps then Some(t) else None;
      var text := None;
      if inputLanguageCondition {
        if d.seqName !in annotations {
          return Failure(MissingAnnotation(d.seqName));
        }
        text := Some(annotations[d.seqName]);
      }
      r := Success(AssembleItem(pipeline.g, d, stats.value, window, labels, reference, text, bps));
    }
  }
}
