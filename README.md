# Canonical object-trajectory dataset, modelled in Dafny

This project models the windowing-and-canonicalisation core of
`CanoObjectTrajDataset` (`manip/data/cano_traj_dataset.py`). The dataset
turns captured human–object interaction sequences into fixed-length training
windows, and the model covers each stage:

- **Rest poses.** The first sequence that mentions an object gives it a rest
  pose: its frame-0 mesh, centred on its centroid, along with the frame-0
  rotation and centroid. The rest pose is reused from the store when an entry
  already exists. Objects made of several parts (`vacuum`, `mop`) are skipped.
- **Windows.** Each sequence is cut into windows of `window` frames with a
  stride of `window // 4`.
- **Canonical motion.** Each window is moved so that its first root sits over
  the origin. Its motion is computed by forward and inverse kinematics over
  the SMPL parent tables: joint positions, forward-difference velocities and
  global rotations. These are flattened into 276-column motion rows.
- **Statistics.** Column-wise minima and maxima are taken over the stored
  windows.
- **Filters.** Three filters re-key the window dictionary: object split,
  language annotation and short/non-initial windows. They record the key
  each window was enumerated under (`ori_w_idx`).
- **Queries.** `__getitem__` normalises a window into [-1, 1], computes
  object rotations relative to a reference frame, pads to `window` rows, and
  picks the BPS file written for that window.

Module layout, following the program's structure:

- `Geometry`: vectors, centroids, recentring, and the rotation group with its
  action on points.
- `Names`: `str.split("_")`, object names, `str(int)`, and the BPS file key
  `seq_name + "_" + str(k)`.
- `Kinematics`: `local2global_pose`, `quat_ik_torch` and `quat_fk_torch`.
- `WindowMotion`: `process_window_data`.
- `Normalization`: the min–max normalisation of joint and object positions
  and its inverse.
- `RelativeRotation`: `prep_rel_obj_rot_mat_w_reference_mat` and
  `rel_rot_to_seq`.
- `Records`: window records, the `WindowRecord` objects of the window
  dictionary, and the pipeline errors.
- `RestPose`: `convert_rest_pose_obj_geometry`,
  `load_object_geometry_w_rest_geo`, and the loop of
  `extract_rest_pose_object_geometry_and_rotation`.
- `Windows`: the window loop of `cal_normalize_data_input`.
- `Filters`: the three `filter_out_*` re-keying passes.
- `Statistics`: `extract_min_max_mean_std_from_data`.
- `Query`: the value-level assembly of `__getitem__`.
- `Dataset`: the class `CanoObjectTrajDataset`, whose methods update
  `rest_pose_object_dict`, `window_data_dict` and the statistics in place.

Some parts of the model follow a particular design:

- **Rotations.** Rotation matrices are elements of an abstract group
  (`RotationGroup`, with laws `IsGroup`) acting linearly on points
  (`IsLinearAction`). The model therefore states the kinematic identities for
  every group, and 3×3 matrices over floats are one instance of it.
- **Outside operations.** Heading canonicalisation, the 6D rotation encoding
  and the parent tables come from outside the file. They are parameters,
  gathered in `Windows.Pipeline`.
- **Window dictionary.** The dictionary is a sequence of `WindowRecord`
  objects whose position is the Python key. The filters write `oriWIdx` on
  the records they keep, in place, just as the source assigns
  `new_window_data_dict[new_cnt]['ori_w_idx']` on the shared dict objects.
- **Errors.** Where the source raises (a `KeyError`, a missing file, an
  empty `np.vstack`), the model returns a `Failure` naming the cause.

### Behaviour of the window loop

- **The 30-frame rule.** The comment at `:562` says the loop skips segments
  shorter than 30 frames. The test at `:563` is `end_t_idx - start_t_idx < 30`.
  Since `end_t_idx` is set to `start_t_idx + window - 1`, the difference is
  always `window - 1`, whatever the start. So the test drops every window of
  every sequence when `window <= 30` and none otherwise, and short tail
  windows are kept (`Windows.SeqWindowsSpec`, `Windows.WindowsFrom`).
- **150 frames with window 120.** The stride is `window // 4 = 30`. The loop
  yields 5 windows, at starts 0, 30, 60, 90 and 120, holding 120, 120, 90, 60
  and 30 rows (`Windows.StartsFor150Frames`).
- **Mean and standard deviation.** Despite its name,
  `extract_min_max_mean_std_from_data` computes only minima and maxima.

## Model

| member | source | states |
|---|---|---|
| Geometry.Recentre | manip/data/cano_traj_dataset.py:405-407 | each recentred point plus the centre gives back the original point |
| Geometry.CentredCloudHasOriginCentroid | manip/data/cano_traj_dataset.py:405-407 | a vertex cloud recentred on its centroid has its centroid at the origin |
| Geometry.SumPlace | manip/data/cano_traj_dataset.py:443-449 | the sum of rotated and translated points is the rotated sum plus n times the translation |
| Geometry.PlacedCentroid | manip/data/cano_traj_dataset.py:443-449 | rotating an origin-centred cloud and translating it by pos puts its centroid at pos |
| Names.Split | manip/data/cano_traj_dataset.py:494 | `str.split` yields at least one field and no field contains the separator |
| Names.JoinSplit | manip/data/cano_traj_dataset.py:494 | joining the fields of a split with the separator gives back the string |
| Names.ObjectNameFound | manip/data/cano_traj_dataset.py:494 | for `subject_object_rest` with no `_` in subject or object, `split("_")[1]` is the object |
| Names.NatToString | manip/data/cano_traj_dataset.py:607 | `str(k)` is a non-empty string of decimal digits, of two or more digits from 10 on |
| Names.NatToStringInjective | manip/data/cano_traj_dataset.py:607 | distinct keys give distinct decimal strings |
| Names.BpsKeyInjective | manip/data/cano_traj_dataset.py:607 | the BPS file name `seq_name + "_" + str(k)` determines both the sequence name and the key |
| Kinematics.Local2GlobalPose | manip/data/cano_traj_dataset.py:61-76 | the in-place loop over the parent table leaves each listed joint's rotation composed with its ancestors' and the rest unchanged |
| Kinematics.IkOfGlobal | manip/data/cano_traj_dataset.py:78-94 | inverse kinematics of the global rotations gives back the local rotations |
| Kinematics.GlobalOfIk | manip/data/cano_traj_dataset.py:61-94 | global rotations of the inverse-kinematics result give back the global rotations |
| Kinematics.GlobalRotationPrefix | manip/data/cano_traj_dataset.py:43-59 | when the 22-joint table is a prefix of the 24-joint one, both give every shared joint the same global rotation |
| Kinematics.QuatFk | manip/data/cano_traj_dataset.py:96-116 | the loop yields one position per listed joint and one rotation per joint that has a local rotation, each being its ancestor chain's composition |
| Kinematics.FkTranslation | manip/data/cano_traj_dataset.py:96-116 | moving the root position by d moves every joint position by d |
| WindowMotion.FirstFrameAtOrigin | manip/data/cano_traj_dataset.py:747-751 | after moving to zero, the first root translation is `(0, 0, z)` with its height kept |
| WindowMotion.RecentreKeepsDifferences | manip/data/cano_traj_dataset.py:751-753 | moving to zero keeps every difference between positions |
| WindowMotion.Velocity | manip/data/cano_traj_dataset.py:771-785 | velocity has one row per frame with the joint count of the positions, and the last row is all zeros |
| WindowMotion.VelocityAt | manip/data/cano_traj_dataset.py:771 | each velocity row except the last is the next frame's positions minus this frame's |
| WindowMotion.VelocityIntegrates | manip/data/cano_traj_dataset.py:771-785 | adding up the velocities from frame 0 reconstructs every frame's joint positions |
| WindowMotion.VelocityTranslationInvariant | manip/data/cano_traj_dataset.py:771-785 | translating every frame by the same vector leaves the velocity unchanged |
| WindowMotion.ProcessWindowData | manip/data/cano_traj_dataset.py:731-795 | the query has one row per frame, 24 positions and velocities, and 22 global rotations |
| WindowMotion.ProcessedWindowMovedToZero | manip/data/cano_traj_dataset.py:746-784 | the same offset `move_to_zero_trans` is taken off the root, the object translation and the centroid; the first root joint is `(0, 0, z) - trans2joint`; velocities are forward differences with a zero last row; rotations are the world rotations of the local ones |
| WindowMotion.WindowTranslationInvariance | manip/data/cano_traj_dataset.py:747-795 | translating a window's input by d leaves its velocities and rotations unchanged and moves positions only by d's height |
| Normalization.DeNormalizeNormalize | manip/data/cano_traj_dataset.py:680-705 | de-normalising a normalised value gives it back |
| Normalization.NormalizeDeNormalize | manip/data/cano_traj_dataset.py:680-705 | normalising a de-normalised value gives it back |
| Normalization.NormalizeRange | manip/data/cano_traj_dataset.py:680-691 | a value lies in [min, max] exactly when its normalisation lies in [-1, 1]; min and max map to -1 and 1 |
| Normalization.NormalizeMonotone | manip/data/cano_traj_dataset.py:680-691 | normalisation keeps strict order |
| Normalization.RowRoundTrip | manip/data/cano_traj_dataset.py:680-729 | row-wise de-normalise after normalise is the identity |
| Normalization.RowRoundTripInverse | manip/data/cano_traj_dataset.py:680-729 | row-wise normalise after de-normalise is the identity |
| Normalization.RowInUnitRange | manip/data/cano_traj_dataset.py:707-718 | a row within strict bounds normalises into [-1, 1] column by column |
| RelativeRotation.RelativeThenBack | manip/data/cano_traj_dataset.py:800-826 | relative rotations against frame 0, mapped back with `rel_rot_to_seq`, give the rotations back |
| RelativeRotation.BackThenRelative | manip/data/cano_traj_dataset.py:800-826 | mapping relative rotations back and taking them relative to frame 0 again gives them back |
| RelativeRotation.ReferenceFrameIsIdentity | manip/data/cano_traj_dataset.py:800-815 | the reference frame's relative rotation is the identity |
| RelativeRotation.RelativeIgnoresCommonTurn | manip/data/cano_traj_dataset.py:800-815 | turning every rotation and the reference by the same rotation leaves the relative rotations unchanged |
| RestPose.DeriveRestEntry | manip/data/cano_traj_dataset.py:404-432 | a new rest entry is centred on the origin, holds the frame-0 rotation, and its vertices plus the centroid are the posed frame-0 mesh |
| RestPose.ConvertRestPose | manip/data/cano_traj_dataset.py:385-441 | a stored entry is reused; otherwise it fails exactly when the mesh or frames are missing, and adds only the derived entry |
| RestPose.RegistryFailurePersists | manip/data/cano_traj_dataset.py:489-509 | once a sequence fails, the whole loop fails with that error |
| RestPose.RegistryShape | manip/data/cano_traj_dataset.py:489-509 | after the loop, the dictionary's keys are exactly the non-skipped objects named, each with a stored entry, and no stored entry changes |
| RestPose.RegistryIdempotent | manip/data/cano_traj_dataset.py:391-509 | re-running with the resulting store changes nothing |
| RestPose.RegistryReplay | manip/data/cano_traj_dataset.py:391-509 | a run against any store that holds every entry a successful run stored gives the same dictionary and leaves that store as it was |
| RestPose.FirstMentionWins | manip/data/cano_traj_dataset.py:489-509 | a new object's entry (derived as at `:404-432`) comes from frame 0 of the first sequence naming it |
| RestPose.RegistryKeepsCentred | manip/data/cano_traj_dataset.py:489-509 | every stored rest geometry stays centred on the origin |
| RestPose.PosedCentroids | manip/data/cano_traj_dataset.py:443-449 | posing centred rest geometry puts each frame's centroid at that frame's centroid position |
| Windows.MotionRow | manip/data/cano_traj_dataset.py:620-621 | the row has 276 columns: flattened positions, then velocities, then 6D rotations |
| Windows.BuildWindow | manip/data/cano_traj_dataset.py:559-638 | a window keeps the sequence name and subject, starts at its start index, ends at `start + window - 1`, and holds the frames that exist |
| Windows.CanoObjMatAligns | manip/data/cano_traj_dataset.py:593-618 | the stored `cano_obj_mat` turns the window's first captured object rotation into its canonicalised one |
| Windows.StartsFromElements | manip/data/cano_traj_dataset.py:559 | the start indices are `from + i * step`, all below n, and they cover the frames |
| Windows.StartsStep | manip/data/cano_traj_dataset.py:559 | consecutive starts are `step` apart, and the last is within `step` of n |
| Windows.StartsFor150Frames | manip/data/cano_traj_dataset.py:557-563 | 150 frames with window 120 give starts 0, 30, 60, 90 and 120 with 120, 120, 90, 60 and 30 rows |
| Windows.WindowsFrom | manip/data/cano_traj_dataset.py:559-566 | the span test keeps no window when it fails and one per start when it passes |
| Windows.WindowsFromElements | manip/data/cano_traj_dataset.py:559-638 | each window is the one built at its start, shaped, and of its sequence |
| Windows.SeqWindowsSpec | manip/data/cano_traj_dataset.py:514-638 | a sequence yields no windows for a skipped object or a window of at most 30 frames; otherwise one per stride step, in order, with `min(window, frames - start)` rows |
| Windows.EnumerateFailurePersists | manip/data/cano_traj_dataset.py:511-638 | a failing sequence fails the whole enumeration with its error |
| Windows.EnumerateKeys | manip/data/cano_traj_dataset.py:511-638 | the windows of sequence i sit at consecutive keys right after those of the earlier sequences |
| Windows.EnumerateStored | manip/data/cano_traj_dataset.py:511-638 | every enumerated window is shaped and of a named, non-skipped object |
| Filters.KeptIndices | manip/data/cano_traj_dataset.py:280-340 | the kept keys are in range, flagged, strictly increasing, and include every flagged key |
| Filters.SelectedKept | manip/data/cano_traj_dataset.py:280-340 | an entry survives a filter exactly when some kept input entry equals it |
| Filters.SelectedDistinct | manip/data/cano_traj_dataset.py:280-340 | a filter never lists the same record twice |
| Filters.KeysOverwritten | manip/data/cano_traj_dataset.py:313-322 | on a fresh dictionary, overwriting `ori_w_idx` with the key traces every kept record to its original key |
| Filters.KeysCarried | manip/data/cano_traj_dataset.py:296-300 | carrying `ori_w_idx` over keeps every kept record traced to its original key |
| Filters.Rekey | manip/data/cano_traj_dataset.py:280-340 | the loop returns the kept records in order, writes each one's `ori_w_idx` in place, and leaves the others untouched |
| Statistics.ColumnMin | manip/data/cano_traj_dataset.py:660-666 | the result is attained in the column and bounds every entry from below |
| Statistics.ColumnMax | manip/data/cano_traj_dataset.py:660-666 | the result is attained in the column and bounds every entry from above |
| Statistics.WindowRowStacked | manip/data/cano_traj_dataset.py:646-658 | every window's position, velocity and centroid rows are among the stacked rows |
| Statistics.StatsOf | manip/data/cano_traj_dataset.py:640-678 | fails exactly when there are no rows (empty `np.vstack`); otherwise has 72, 72 and 3 columns |
| Statistics.StatsOfBounds | manip/data/cano_traj_dataset.py:660-666 | the statistics are the attained column minima and maxima of positions, velocities and centroids |
| Statistics.StoredValuesNormaliseIntoRange | manip/data/cano_traj_dataset.py:640-691 | with these statistics, every stored position and centroid coordinate normalises into [-1, 1] |
| Query.PadRows | manip/data/cano_traj_dataset.py:932-962 | padding keeps the rows and appends zero rows of the given width |
| Query.PySlice | manip/data/cano_traj_dataset.py:859 | Python slicing returns at most the whole sequence, and exactly the slice when in range |
| Query.QueryMotion | manip/data/cano_traj_dataset.py:895-901 | de-normalising a row's position columns gives the stored positions, and the rotation columns are as stored |
| Query.ObjMotion | manip/data/cano_traj_dataset.py:883-885 | de-normalising the centroid columns gives the stored centroid, followed by the rotations used |
| Query.AssembleItem | manip/data/cano_traj_dataset.py:847-1014 | the item holds the true length and indices, object name, text and BPS file, with every table padded from the window's own rows |
| Query.PaddingNeverTruncates | manip/data/cano_traj_dataset.py:932-991 | padded tables hold `max(window, rows)` rows and keep every real row |
| Query.ReferenceFrameRotationIsIdentity | manip/data/cano_traj_dataset.py:889-893 | with a random reference frame, that frame's object rotation in the item is the identity |
| Query.ItemDeNormalises | manip/data/cano_traj_dataset.py:883-902 | de-normalising an item's motion gives its original-motion rows |
| Dataset.SplitKept | manip/data/cano_traj_dataset.py:312-322 | a window survives the object split exactly when it was there and its object is in the training list (train) or the test list (test) |
| Dataset.AnnotatedKept | manip/data/cano_traj_dataset.py:331-332 | a window survives the text filter exactly when it was there and its sequence has an annotation |
| Dataset.LongKept | manip/data/cano_traj_dataset.py:287-293 | a window survives the short filter exactly when it was there, has at least `window` rows and starts at frame 0 |
| Dataset.AfterFiltersExact | manip/data/cano_traj_dataset.py:224-231 | a window is left after the filters exactly when it was enumerated, is of a listed object when the split ran, is annotated when the text filter ran, and is full from frame 0 outside training |
| Dataset.StatsFor | manip/data/cano_traj_dataset.py:210-221 | saved statistics win; it fails exactly when there are none saved and it is not training or there are no rows; computed statistics are per-column bounds attained by the stacked positions, velocities and centroids |
| Dataset.Registered | manip/data/cano_traj_dataset.py:202-206 | the registry is `BuildRegistry`'s and the windows are `Enumerate`'s over that registry, with centred stored geometry and every window stored; it fails with the registry's error if that fails, otherwise with the enumeration's |
| Dataset.Init | manip/data/cano_traj_dataset.py:193-231 | a successful `__init__` holds `Registered`'s registry and windows and `StatsFor`'s statistics, and keeps exactly the windows passing the configured filters; it fails with the first failing step's error |
| Dataset.BpsFilesDistinct | manip/data/cano_traj_dataset.py:607 | BPS files written for different keys have different names |
| Dataset.CanoObjectTrajDataset.constructor | manip/data/cano_traj_dataset.py:119-145 | the dataset holds its configuration and inputs, with empty dictionaries and no statistics |
| Dataset.CanoObjectTrajDataset.ExtractRestPoseObjectGeometryAndRotation | manip/data/cano_traj_dataset.py:489-509 | the in-place loop leaves the dictionary and store the registry function gives, or its error |
| Dataset.CanoObjectTrajDataset.CalNormalizeDataInput | manip/data/cano_traj_dataset.py:511-638 | the loop fills the window dictionary with exactly the enumerated windows, as fresh records each with its own BPS file |
| Dataset.CanoObjectTrajDataset.EnumerateSequence | manip/data/cano_traj_dataset.py:514-559 | one outer pass appends the sequence's windows, or stops with its error |
| Dataset.CanoObjectTrajDataset.AddWindowsOf | manip/data/cano_traj_dataset.py:559-638 | the inner loop appends one fresh record per start index, at consecutive keys, each with its BPS file named after its key |
| Dataset.CanoObjectTrajDataset.CollectWindows | manip/data/cano_traj_dataset.py:559-636 | the new records are distinct fresh objects holding the sequence's windows in start order |
| Dataset.CanoObjectTrajDataset.ExtractMinMaxMeanStdFromData | manip/data/cano_traj_dataset.py:640-678 | the statistics of the current dictionary's windows |
| Dataset.CanoObjectTrajDataset.SetStatistics | manip/data/cano_traj_dataset.py:210-221 | the statistics field becomes the saved or computed statistics, or the step fails |
| Dataset.CanoObjectTrajDataset.PrepareWindows | manip/data/cano_traj_dataset.py:202-206 | the registry and the enumerated windows in place, each traced and with its BPS file |
| Dataset.CanoObjectTrajDataset.PrepareRest | manip/data/cano_traj_dataset.py:210-231 | statistics, then filters, leaving a valid dataset or the statistics error |
| Dataset.CanoObjectTrajDataset.FilterWindows | manip/data/cano_traj_dataset.py:224-231 | the dictionary holds the windows the filters keep, in order, and the dataset is valid |
| Dataset.CanoObjectTrajDataset.Prepare | manip/data/cano_traj_dataset.py:193-231 | `__init__` leaves the state `Init` computes, and a valid dataset, or the first error |
| Dataset.CanoObjectTrajDataset.FilterOutObjectSplit | manip/data/cano_traj_dataset.py:305-323 | the kept records in order, each with `ori_w_idx` overwritten by its old key; dropped records untouched |
| Dataset.CanoObjectTrajDataset.FilterOutSeqWoText | manip/data/cano_traj_dataset.py:325-340 | the annotated records in order, each carrying its existing `ori_w_idx` or its old key |
| Dataset.CanoObjectTrajDataset.FilterOutShortSequences | manip/data/cano_traj_dataset.py:280-303 | the full records starting at frame 0 in order, each carrying its `ori_w_idx` or its old key |
| Dataset.CanoObjectTrajDataset.ApplyFilters | manip/data/cano_traj_dataset.py:224-231 | the dictionary holds the windows kept by the configured filters, in order, each traced to its original key |
| Dataset.CanoObjectTrajDataset.ObjectSplitIf | manip/data/cano_traj_dataset.py:224-225 | the object split applies exactly when `use_object_splits` is set |
| Dataset.CanoObjectTrajDataset.TextFilterIf | manip/data/cano_traj_dataset.py:227-228 | the text filter applies exactly when `input_language_condition` is set |
| Dataset.CanoObjectTrajDataset.ShortFilterIf | manip/data/cano_traj_dataset.py:230-231 | the short filter applies exactly outside training |
| Dataset.CanoObjectTrajDataset.SplitStage | manip/data/cano_traj_dataset.py:305-323 | the object split's result is traced and every record has an `ori_w_idx` |
| Dataset.CanoObjectTrajDataset.TextStage | manip/data/cano_traj_dataset.py:325-340 | the text filter's result is traced and every record has an `ori_w_idx` |
| Dataset.CanoObjectTrajDataset.ShortStage | manip/data/cano_traj_dataset.py:280-303 | the short filter's result is traced and every record has an `ori_w_idx` |
| Dataset.CanoObjectTrajDataset.WindowsReadDistinctBps | manip/data/cano_traj_dataset.py:865-871 | two windows of the dictionary come from different keys and read different BPS files |
| Dataset.CanoObjectTrajDataset.GetItem | manip/data/cano_traj_dataset.py:847-1014 | fails on a missing index, contact labels or annotation; otherwise the assembled item, reading the BPS file written for this window or the rest-pose file |

## Left out

- The processed-window cache and the statistics file: the `joblib` loads and dumps at `:197-221` are I/O. The model runs the uncached path and takes saved statistics as an optional input.
- Reading sequences, meshes, contact labels and annotations from disk: they are inputs of the constructor (`dataDict`, `rawMeshes`, `contacts`, `annotations`). Annotation loading (`load_language_annotation`) is a map lookup.
- Writing meshes, rest geometry and BPS arrays: only the file names written (`bpsWritten`) and the file an item reads are modelled. BPS encoding itself and the file contents are not modelled.
- `get_smpl_parents`: the parent tables are read from the SMPL-H model file, so they are parameters (`Pipeline.skel22`, `Pipeline.skel24`). The model requires them to be well formed.
- Heading canonicalisation (`rotate_at_frame_w_obj`) and the axis-angle, quaternion and 6D conversions of `pytorch3d`: they are foreign calls and become functions in `Windows.Pipeline`. Rotations are elements of an abstract group rather than quaternions or float matrices.
- The body model, the GPU and tensor batch dimensions: the model works on one window at a time.
- Floating point: values are reals. `NonDegenerate` requires distinct minimum and maximum where the source would divide by zero and produce `inf`/`nan`.
- Random sampling in `__getitem__`: the sampled frame `t` is a parameter of `GetItem`.
- Object keypoints (`use_object_keypoints`), `get_nn_pts` and the keypoint fields of `__getitem__`: these lie outside the windowing core.
- `__len__` and the progress and count prints.
- Dataset.CanoObjectTrajDataset.Prepare: it requires every object mesh to have at least one vertex (`MeshesNonEmpty`), and `Windows.BuildWindow` requires the same of the mesh it is given. The source accepts an empty mesh: the means at `:405` and `:548` then give a NaN centroid, and processing goes on with it. Reals have no NaN, so the model leaves that case out.
- Kinematics.Local2GlobalPose: it is proved for a single frame. The batch over frames is the same loop applied to each frame.
- Dataset.CanoObjectTrajDataset.GetItem: it requires the statistics to be non-degenerate, which the source does not check (it would produce `inf`/`nan`).
- Dataset.CanoObjectTrajDataset.Prepare: it models `__init__` only from the point where the input files are loaded. Reading `seq_data_path` and `prep_bps_data` are I/O.
