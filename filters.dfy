/**
 * What the three re-keying filters keep (`filter_out_short_sequences`,
 * `filter_out_object_split`, `filter_out_seq_wo_text`).  Each walks the
 * dictionary in key order and copies the records it keeps under new keys
 * 0, 1, 2, ...; the kept positions are `KeptIndices` of the keep flags.
 */
module Filters {
  import opened Wrappers
  import opened Records
  import opened Names

  /** The positions whose flag is set, in increasing order. */
  function KeptIndices(keep: seq<bool>): (ks: seq<nat>)
    ensures forall j :: 0 <= j < |ks| ==> ks[j] < |keep| && keep[ks[j]]
    ensures forall j, l :: 0 <= j < l < |ks| ==> ks[j] < ks[l]
    ensures forall i :: 0 <= i < |keep| && keep[i] ==> i in ks
    decreases |keep|
  {
    if |keep| == 0 then []
    else
      var front := KeptIndices(keep[..|keep| - 1]);
      if keep[|keep| - 1] then front + [|keep| - 1] else front
  }

  /** One more flag extends the kept positions by its own when it is set. */
  lemma KeptIndicesStep(keep: seq<bool>, k: nat)
    requires k < |keep|
    ensures KeptIndices(keep[..k + 1]) == KeptIndices(keep[..k]) + (if keep[k] then [k] else [])
  {
    assert keep[..k + 1][..k] == keep[..k];
  }

  /** `filter_out_short_sequences` keeps a window with at least `window` rows
      that starts at frame 0. */
  predicate KeepLong(d: WindowData, window: int) {
    |d.motion| >= window && d.startIdx == 0
  }

  /** `filter_out_object_split` keeps a window whose object (the second
      `_`-separated field of its sequence name) is a training object when
      training, a test object otherwise. */
  predicate KeepObjectSplit(d: WindowData, train: bool, trainObjects: seq<string>, testObjects: seq<string>)
    requires ObjectName(d.seqName).Some?
  {
    var name := ObjectName(d.seqName).value;
    (train && name in trainObjects) || (!train && name in testObjects)
  }

  /** `filter_out_seq_wo_text` keeps a window whose sequence has an annotation file. */
  predicate KeepAnnotated(d: WindowData, annotated: set<string>) {
    d.seqName in annotated
  }

  /** The `ori_w_idx` a filter that keeps an existing one writes: the existing
      one, otherwise the key the record had. */
  function CarriedIndex(ori: Option<nat>, key: nat): (o: nat)
    ensures ori.Some? ==> o == ori.value
    ensures ori.None? ==> o == key
  {
    match ori
    case Some(existing) => existing
    case None => key
  }

  /** The elements at positions `ks`, in that order: what a filter's new
      dictionary holds under keys 0, 1, 2, ... */
  function Selected<T>(xs: seq<T>, ks: seq<nat>): (ys: seq<T>)
    requires forall j :: 0 <= j < |ks| ==> ks[j] < |xs|
    ensures |ys| == |ks| && forall j :: 0 <= j < |ks| ==> ys[j] == xs[ks[j]]
  {
    seq(|ks|, j requires 0 <= j < |ks| => xs[ks[j]])
  }

  /** A filter's output holds exactly the kept entries of its input. */
  lemma SelectedKept<T>(xs: seq<T>, keep: seq<bool>)
    requires |keep| == |xs|
    ensures var ys := Selected(xs, KeptIndices(keep));
      forall x :: x in ys <==> exists i :: 0 <= i < |xs| && keep[i] && xs[i] == x
  {
    var ks := KeptIndices(keep);
    var ys := Selected(xs, ks);
    forall x | x in ys ensures exists i :: 0 <= i < |xs| && keep[i] && xs[i] == x {
      var j :| 0 <= j < |ys| && ys[j] == x;
      assert keep[ks[j]] && xs[ks[j]] == x;
    }
    forall x | exists i :: 0 <= i < |xs| && keep[i] && xs[i] == x ensures x in ys {
      var i :| 0 <= i < |xs| && keep[i] && xs[i] == x;
      var j :| 0 <= j < |ks| && ks[j] == i;
      assert ys[j] == x;
    }
  }

  function LongFlags(ds: seq<WindowData>, window: int): (keep: seq<bool>)
    ensures |keep| == |ds| && forall i :: 0 <= i < |ds| ==> keep[i] == KeepLong(ds[i], window)
  {
    seq(|ds|, i requires 0 <= i < |ds| => KeepLong(ds[i], window))
  }

  function SplitFlags(ds: seq<WindowData>, train: bool, trainObjects: seq<string>, testObjects: seq<string>): (keep: seq<bool>)
    requires forall i :: 0 <= i < |ds| ==> ObjectName(ds[i].seqName).Some?
    ensures |keep| == |ds| && forall i :: 0 <= i < |ds| ==> keep[i] == KeepObjectSplit(ds[i], train, trainObjects, testObjects)
  {
    seq(|ds|, i requires 0 <= i < |ds| => KeepObjectSplit(ds[i], train, trainObjects, testObjects))
  }

  function AnnotatedFlags(ds: seq<WindowData>, annotated: set<string>): (keep: seq<bool>)
    ensures |keep| == |ds| && forall i :: 0 <= i < |ds| ==> keep[i] == KeepAnnotated(ds[i], annotated)
  {
    seq(|ds|, i requires 0 <= i < |ds| => KeepAnnotated(ds[i], annotated))
  }

  /** A filter's new dictionary holds the data of the kept records. */
  lemma DatasSelected(records: seq<WindowRecord>, ks: seq<nat>)
    requires forall j :: 0 <= j < |ks| ==> ks[j] < |records|
    ensures Datas(Selected(records, ks)) == Selected(Datas(records), ks)
  {
  }

  /** Keeping some records in key order keeps them distinct. */
  lemma SelectedDistinct(records: seq<WindowRecord>, keep: seq<bool>)
    requires |keep| == |records| && Distinct(records)
    ensures Distinct(Selected(records, KeptIndices(keep)))
  {
    var ks := KeptIndices(keep);
    var ys := Selected(records, ks);
    forall j, l | 0 <= j < l < |ys| ensures ys[j] != ys[l] {
      assert ks[j] < ks[l];
    }
  }

  /** The `ori_w_idx` a filter writes to a record it keeps from key `key`:
      the key itself when it overwrites, otherwise `CarriedIndex`. */
  function WrittenIndex(ori: Option<nat>, key: nat, overwrite: bool): (o: nat)
    ensures overwrite ==> o == key
    ensures !overwrite ==> o == CarriedIndex(ori, key)
  {
    if overwrite then key else CarriedIndex(ori, key)
  }

  /** The `ori_w_idx` of every record, in key order. */
  function Oris(dict: seq<WindowRecord>): (oris: seq<Option<nat>>)
    reads dict
    ensures |oris| == |dict| && forall i :: 0 <= i < |dict| ==> oris[i] == dict[i].oriWIdx
  {
    seq(|dict|, i reads dict requires 0 <= i < |dict| => dict[i].oriWIdx)
  }

  /** The key each record was enumerated under: its `ori_w_idx`, or its own
      key when it has none. */
  function Keys(oris: seq<Option<nat>>): (keys: seq<nat>)
    ensures |keys| == |oris| && forall i :: 0 <= i < |oris| ==> keys[i] == CarriedIndex(oris[i], i)
  {
    seq(|oris|, i requires 0 <= i < |oris| => CarriedIndex(oris[i], i))
  }

  /** A filter that overwrites `ori_w_idx` with the old key, run on records
      that have none, leaves each kept record tracing back to its key. */
  lemma KeysOverwritten(oris: seq<Option<nat>>, newOris: seq<Option<nat>>, ks: seq<nat>)
    requires forall j :: 0 <= j < |ks| ==> ks[j] < |oris|
    requires forall i :: 0 <= i < |oris| ==> oris[i].None?
    requires |newOris| == |ks| && forall j :: 0 <= j < |ks| ==> newOris[j] == Some(ks[j])
    ensures Keys(newOris) == Selected(Keys(oris), ks)
  {
  }

  /** A filter that carries `ori_w_idx` over leaves each kept record tracing
      back to the key it was enumerated under. */
  lemma KeysCarried(oris: seq<Option<nat>>, newOris: seq<Option<nat>>, ks: seq<nat>)
    requires forall j :: 0 <= j < |ks| ==> ks[j] < |oris|
    requires |newOris| == |ks| && forall j :: 0 <= j < |ks| ==> newOris[j] == Some(CarriedIndex(oris[ks[j]], ks[j]))
    ensures Keys(newOris) == Selected(Keys(oris), ks)
  {
  }

  /** The `ori_w_idx` values once the first `k` records have been seen. */
  function Rekeyed(oris: seq<Option<nat>>, keep: seq<bool>, k: nat, overwrite: bool): (r: seq<Option<nat>>)
    requires |keep| == |oris| && k <= |oris|
    ensures |r| == |oris|
    ensures forall i :: 0 <= i < |oris| ==> r[i] == if i < k && keep[i] then Some(WrittenIndex(oris[i], i, overwrite)) else oris[i]
  {
    seq(|oris|, i requires 0 <= i < |oris| => if i < k && keep[i] then Some(WrittenIndex(oris[i], i, overwrite)) else oris[i])
  }

  /** The write to the record kept from key `k`; no other record changes. */
  method WriteIndex(dict: seq<WindowRecord>, k: nat, overwrite: bool)
    requires k < |dict| && Distinct(dict)
    modifies dict[k]
    ensures Oris(dict) == old(Oris(dict))[k := Some(WrittenIndex(old(dict[k].oriWIdx), k, overwrite))]
  {
    ghost var before := Oris(dict);
    var r := dict[k];
    r.oriWIdx := Some(WrittenIndex(r.oriWIdx, k, overwrite));
    forall i | 0 <= i < |dict| && i != k ensures dict[i].oriWIdx == before[i] {
      assert dict[i] != r;
    }
  }

  /** The kept records after one more flag. */
  lemma SelectedStep<T>(xs: seq<T>, keep: seq<bool>, k: nat)
    requires |keep| == |xs| && k < |keep|
    ensures Selected(xs, KeptIndices(keep[..k + 1])) == Selected(xs, KeptIndices(keep[..k])) + (if keep[k] then [xs[k]] else [])
  {
    KeptIndicesStep(keep, k);
  }

  /** The `ori_w_idx` values after one more record. */
  lemma RekeyedStep(oris: seq<Option<nat>>, keep: seq<bool>, k: nat, overwrite: bool)
    requires |keep| == |oris| && k < |oris|
    ensures Rekeyed(oris, keep, k, overwrite)[k] == oris[k]
    ensures Rekeyed(oris, keep, k + 1, overwrite) ==
      if keep[k] then Rekeyed(oris, keep, k, overwrite)[k := Some(WrittenIndex(oris[k], k, overwrite))]
      else Rekeyed(oris, keep, k, overwrite)
  {
  }

  /** The loop every filter runs: walk `dict` in key order, copy each record
      whose flag is set under the next new key, and write its `ori_w_idx`
      (its old key when `overwrite`, else the one it has, if any).  Records
      not kept are left alone. */
  method Rekey(dict: seq<WindowRecord>, keep: seq<bool>, overwrite: bool) returns (newDict: seq<WindowRecord>)
    requires |keep| == |dict| && Distinct(dict)
    modifies dict
    ensures var ks := KeptIndices(keep);
      && newDict == Selected(dict, ks)
      && forall j :: 0 <= j < |ks| ==> newDict[j].oriWIdx == Some(WrittenIndex(old(Oris(dict))[ks[j]], ks[j], overwrite))
    ensures forall i :: 0 <= i < |dict| && !keep[i] ==> dict[i].oriWIdx == old(Oris(dict))[i]
  {
    ghost var oris := Oris(dict);
    newDict := [];
    for k := 0 to |dict|
      invariant newDict == Selected(dict, KeptIndices(keep[..k]))
      invariant Oris(dict) == Rekeyed(oris, keep, k, overwrite)
    {
      SelectedStep(dict, keep, k);
      RekeyedStep(oris, keep, k, overwrite);
      if keep[k] {
        newDict := newDict + [dict[k]];
        WriteIndex(dict, k, overwrite);
      }
    }
    assert keep[..|dict|] == keep;
    ghost var ks := KeptIndices(keep);
    forall j | 0 <= j < |ks| ensures newDict[j].oriWIdx == Some(WrittenIndex(oris[ks[j]], ks[j], overwrite)) {
      assert Oris(dict)[ks[j]] == newDict[j].oriWIdx;
    }
  }
}
