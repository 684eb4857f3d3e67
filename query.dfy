/**
 * Query-time assembly (`__getitem__`): column selection and normalisation of
 * a stored window, the object motion with absolute or reference-relative
 * rotations, and zero-row padding up to `window` rows.
 */
module Query {
  import opened Wrappers
  import opened Geometry
  import opened Records
  import opened Normalization
  import opened Statistics
  import opened RelativeRotation
  import opened Names

  /** Width of a query motion row: 72 joint-position columns and 132 rotation columns. */
  const QueryMotionWidth: nat := 204
  /** Width of an object motion row: centroid and flattened rotation. */
  const ObjMotionWidth: nat := 12
  const ContactWidth: nat := 4

  function ZeroRow(width: nat): (row: seq<real>)
    ensures |row| == width && forall c :: 0 <= c < width ==> row[c] == 0.0
  {
    seq(width, c => 0.0)
  }

  /** `extra` zero rows after `rows`. */
  function PadRows(rows: seq<seq<real>>, extra: nat, width: nat): (padded: seq<seq<real>>)
    ensures |padded| == |rows| + extra
    ensures padded[..|rows|] == rows
    ensures forall t :: |rows| <= t < |padded| ==> padded[t] == ZeroRow(width)
  {
    rows + seq(extra, t => ZeroRow(width))
  }

  /** How many zero rows `__getitem__` appends to a window of `actual` rows. */
  function Padding(actual: nat, window: int): (extra: nat)
    ensures actual < window ==> actual + extra == window
    ensures actual >= window ==> extra == 0
  {
    if actual < window then window - actual else 0
  }

  /** Python's `xs[lo:hi]` for `lo >= 0`: out-of-range bounds are clipped,
      a negative `hi` counts from the end. */
  function PySlice<T>(xs: seq<T>, lo: nat, hi: int): (r: seq<T>)
    ensures |r| <= |xs|
    ensures lo <= hi <= |xs| ==> r == xs[lo..hi]
  {
    var n := |xs|;
    var a := if lo < n then lo else n;
    var b0 := if hi < 0 then n + hi else hi;
    var b := if b0 < 0 then 0 else if b0 > n then n else b0;
    if a <= b then xs[a..b] else []
  }

  /** Stored row -> query row: the 72 joint-position columns normalised, the
      velocity columns dropped, the 132 rotation columns kept. */
  function QueryMotionRow(row: seq<real>, s: Stats): (q: seq<real>)
    requires |row| == MotionWidth && StatsShaped(s) && NonDegenerate(s.jposMin, s.jposMax)
    ensures |q| == QueryMotionWidth
  {
    NormalizeRow(row[..JposWidth], s.jposMin, s.jposMax) + row[JposWidth + JvelWidth..]
  }

  /** Stored row -> `ori_motion` row: the same columns, not normalised. */
  function OriMotionRow(row: seq<real>): (q: seq<real>)
    requires |row| == MotionWidth
    ensures |q| == QueryMotionWidth
  {
    row[..JposWidth] + row[JposWidth + JvelWidth..]
  }

  /** The object rotation of every frame, as stored or relative to frame `t`. */
  function ObjRotations(g: RotationGroup<Mat>, d: WindowData, reference: Option<nat>): (rots: seq<Mat>)
    requires reference.Some? ==> reference.value < |d.objRotMat|
    ensures |rots| == |d.objRotMat|
  {
    match reference
    case None => d.objRotMat
    case Some(t) => PrepRelRotation(g, d.objRotMat, d.objRotMat[t])
  }

  /** The query motion rows of a stored window: joint positions normalised
      into [-1, 1] (recoverable with the statistics), rotations as stored. */
  function QueryMotion(d: WindowData, s: Stats): (rows: seq<seq<real>>)
    requires WindowShaped(d) && StatsShaped(s) && NonDegenerate(s.jposMin, s.jposMax)
    ensures |rows| == |d.motion|
    ensures forall t :: 0 <= t < |rows| ==>
      && |rows[t]| == QueryMotionWidth
      && rows[t][JposWidth..] == d.motion[t][JposWidth + JvelWidth..]
      && DeNormalizeRow(rows[t][..JposWidth], s.jposMin, s.jposMax) == d.motion[t][..JposWidth]
  {
    var rows := seq(|d.motion|, t requires 0 <= t < |d.motion| => QueryMotionRow(d.motion[t], s));
    forall t | 0 <= t < |rows|
      ensures DeNormalizeRow(rows[t][..JposWidth], s.jposMin, s.jposMax) == d.motion[t][..JposWidth]
    {
      assert rows[t][..JposWidth] == NormalizeRow(d.motion[t][..JposWidth], s.jposMin, s.jposMax);
      RowRoundTrip(d.motion[t][..JposWidth], s.jposMin, s.jposMax);
    }
    rows
  }

  function OriMotion(d: WindowData): (rows: seq<seq<real>>)
    requires WindowShaped(d)
    ensures |rows| == |d.motion|
    ensures forall t :: 0 <= t < |rows| ==> rows[t] == OriMotionRow(d.motion[t])
  {
    seq(|d.motion|, t requires 0 <= t < |d.motion| => OriMotionRow(d.motion[t]))
  }

  /** The object motion rows: the normalised centroid followed by the
      rotation `rots[t]` of the frame. */
  function ObjMotion(d: WindowData, s: Stats, rots: seq<Mat>): (rows: seq<seq<real>>)
    requires WindowShaped(d) && StatsShaped(s) && NonDegenerate(s.comMin, s.comMax)
    requires |rots| == |d.motion|
    ensures |rows| == |d.motion|
    ensures forall t :: 0 <= t < |rows| ==>
      && |rows[t]| == 3 + |rots[t]|
      && DeNormalizeRow(rows[t][..3], s.comMin, s.comMax) == Coords(d.objComPos[t])
      && rows[t][3..] == rots[t]
  {
    var rows := seq(|d.motion|, t requires 0 <= t < |d.motion| =>
      NormalizeRow(Coords(d.objComPos[t]), s.comMin, s.comMax) + rots[t]);
    forall t | 0 <= t < |rows|
      ensures DeNormalizeRow(rows[t][..3], s.comMin, s.comMax) == Coords(d.objComPos[t])
    {
      assert rows[t][..3] == NormalizeRow(Coords(d.objComPos[t]), s.comMin, s.comMax);
      RowRoundTrip(Coords(d.objComPos[t]), s.comMin, s.comMax);
    }
    rows
  }

  function OriObjMotion(d: WindowData, rots: seq<Mat>): (rows: seq<seq<real>>)
    requires WindowShaped(d) && |rots| == |d.motion|
    ensures |rows| == |d.motion|
    ensures forall t :: 0 <= t < |rows| ==> rows[t] == Coords(d.objComPos[t]) + rots[t]
  {
    seq(|d.motion|, t requires 0 <= t < |d.motion| => Coords(d.objComPos[t]) + rots[t])
  }

  /** `padded` is `rows` followed by the zero rows `__getitem__` appends for a
      window of `window` rows. */
  predicate PaddedFrom(padded: seq<seq<real>>, rows: seq<seq<real>>, extra: nat, width: nat) {
    && |padded| == |rows| + extra
    && padded[..|rows|] == rows
    && forall t :: |rows| <= t < |padded| ==> padded[t] == ZeroRow(width)
  }

  /** The BPS file an item reads: the one written for a window while
      enumerating (`<seq_name>_<key>`), or the rest-pose one of the object. */
  datatype BpsFile = WindowBps(name: string) | RestBps(objectName: string)

  /** Everything `__getitem__` returns. */
  datatype Item = Item(
    motion: seq<seq<real>>,
    oriMotion: seq<seq<real>>,
    objMotion: seq<seq<real>>,
    oriObjMotion: seq<seq<real>>,
    objRotMat: seq<seq<real>>,
    objComPos: seq<seq<real>>,
    contactLabels: seq<seq<real>>,
    seqName: string,
    objName: Option<string>,
    seqLen: nat,
    sIdx: nat,
    eIdx: int,
    referenceObjRotMat: Option<Mat>,
    text: Option<string>,
    bps: BpsFile,
    subject: SubjectInfo)

  /** The item for a stored window `d`, with the sequence's contact labels,
      the reference frame `t` when relative rotations are asked for, and the
      annotation when language conditioning is on.  Every per-frame tensor is
      the window's own rows followed by `Padding(seqLen, window)` zero rows. */
  function AssembleItem(g: RotationGroup<Mat>, d: WindowData, s: Stats, window: int,
                        contacts: seq<seq<real>>, reference: Option<nat>, text: Option<string>, bps: BpsFile): (item: Item)
    requires WindowShaped(d) && StatsShaped(s)
    requires NonDegenerate(s.jposMin, s.jposMax) && NonDegenerate(s.comMin, s.comMax)
    requires reference.Some? ==> reference.value < |d.motion|
    ensures item.seqLen == |d.motion| && item.seqName == d.seqName && item.subject == d.subject
    ensures item.sIdx == d.startIdx && item.eIdx == d.endIdx && item.text == text && item.bps == bps
    ensures item.objName == ObjectName(d.seqName)
    ensures PaddedFrom(item.motion, QueryMotion(d, s), Padding(item.seqLen, window), QueryMotionWidth)
    ensures PaddedFrom(item.oriMotion, OriMotion(d), Padding(item.seqLen, window), QueryMotionWidth)
    ensures PaddedFrom(item.objMotion, ObjMotion(d, s, ObjRotations(g, d, reference)), Padding(item.seqLen, window), ObjMotionWidth)
    ensures PaddedFrom(item.oriObjMotion, OriObjMotion(d, ObjRotations(g, d, reference)), Padding(item.seqLen, window), ObjMotionWidth)
    ensures PaddedFrom(item.objRotMat, d.objRotMat, Padding(item.seqLen, window), 9)
    ensures PaddedFrom(item.objComPos, WindowComRows(d), Padding(item.seqLen, window), 3)
    ensures PaddedFrom(item.contactLabels, PySlice(contacts, d.startIdx, d.endIdx + 1), Padding(item.seqLen, window), ContactWidth)
    ensures reference.Some? ==> item.referenceObjRotMat == Some(d.objRotMat[reference.value])
    ensures reference.None? ==> item.referenceObjRotMat == None
  {
    var extra := Padding(|d.motion|, window);
    var rots := ObjRotations(g, d, reference);
    Item(
      PadRows(QueryMotion(d, s), extra, QueryMotionWidth),
      PadRows(OriMotion(d), extra, QueryMotionWidth),
      PadRows(ObjMotion(d, s, rots), extra, ObjMotionWidth),
      PadRows(OriObjMotion(d, rots), extra, ObjMotionWidth),
      PadRows(d.objRotMat, extra, 9),
      PadRows(WindowComRows(d), extra, 3),
      PadRows(PySlice(contacts, d.startIdx, d.endIdx + 1), extra, ContactWidth),
      d.seqName,
      ObjectName(d.seqName),
      |d.motion|,
      d.startIdx,
      d.endIdx,
      if reference.Some? then Some(d.objRotMat[reference.value]) else None,
      text,
      bps,
      d.subject)
  }

  /** Padding reaches `window` rows when the window is shorter and never cuts
      a longer one: the first `seqLen` rows are the window's own. */
  lemma PaddingNeverTruncates(padded: seq<seq<real>>, rows: seq<seq<real>>, window: int, width: nat)
    requires PaddedFrom(padded, rows, Padding(|rows|, window), width)
    ensures |padded| == if |rows| < window then window else |rows|
    ensures forall t :: 0 <= t < |rows| ==> padded[t] == rows[t]
  {
    forall t | 0 <= t < |rows| ensures padded[t] == rows[t] {
      assert padded[..|rows|][t] == rows[t];
    }
  }

  /** With relative rotations, the reference frame's rotation columns are the
      identity: the object is seen from its own pose at that frame. */
  lemma ReferenceFrameRotationIsIdentity(g: RotationGroup<Mat>, d: WindowData, s: Stats, window: int,
                                         contacts: seq<seq<real>>, t: nat, text: Option<string>, bps: BpsFile)
    requires IsGroup(g)
    requires WindowShaped(d) && StatsShaped(s)
    requires NonDegenerate(s.jposMin, s.jposMax) && NonDegenerate(s.comMin, s.comMax)
    requires t < |d.motion|
    ensures AssembleItem(g, d, s, window, contacts, Some(t), text, bps).objMotion[t][3..] == g.id
  {
    ReferenceFrameIsIdentity(g, d.objRotMat, t);
  }

  /** Within the window's own rows, de-normalising the normalised columns of
      `motion` and `obj_motion` gives back `ori_motion` and `ori_obj_motion`. */
  lemma ItemDeNormalises(g: RotationGroup<Mat>, d: WindowData, s: Stats, window: int, contacts: seq<seq<real>>,
                         reference: Option<nat>, text: Option<string>, bps: BpsFile, t: nat)
    requires WindowShaped(d) && StatsShaped(s)
    requires NonDegenerate(s.jposMin, s.jposMax) && NonDegenerate(s.comMin, s.comMax)
    requires reference.Some? ==> reference.value < |d.motion|
    requires t < |d.motion|
    ensures var item := AssembleItem(g, d, s, window, contacts, reference, text, bps);
      && DeNormalizeRow(item.motion[t][..JposWidth], s.jposMin, s.jposMax) + item.motion[t][JposWidth..] == item.oriMotion[t]
      && DeNormalizeRow(item.objMotion[t][..3], s.comMin, s.comMax) + item.objMotion[t][3..] == item.oriObjMotion[t]
  {
    var item := AssembleItem(g, d, s, window, contacts, reference, text, bps);
    var n := |d.motion|;
    assert item.motion[..n][t] == QueryMotion(d, s)[t];
    assert item.oriMotion[..n][t] == OriMotion(d)[t];
    assert item.objMotion[..n][t] == ObjMotion(d, s, ObjRotations(g, d, reference))[t];
    assert item.oriObjMotion[..n][t] == OriObjMotion(d, ObjRotations(g, d, reference))[t];
  }
}
