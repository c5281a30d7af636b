# HDF5 INT8 calibration feeder

A Dafny model of `HDF5Calibrator` from `mmdeploy/apis/tensorrt/calib_utils.py`. It is the object
that TensorRT's INT8 calibrator calls back for batches. It reads recorded
samples from an HDF5 store laid out as `calib_data/<model type>/<input name>/<index>`. It tiles and
crops each sample to the input's target (`opt_shape`) shape. It keeps one device buffer per input
name, allocated on first use and overwritten in place afterwards. It also advances a cursor shared by all
inputs until the dataset is exhausted.

The project has five modules:

- `Wrappers` (`wrappers.dfy`): `Option` and `Result`.
- `Tensors` (`tensors.dfy`): dense tensors as a shape plus a flat row-major buffer. Element access
  `At` goes through the outermost-axis slice `t[k]`. It contains torch's `tile` (`Tile`) and
  `narrow(dim, 0, len)` (`Narrow`), each with its element lemma.
- `Reconcile` (`reconcile.dfy`): the repeat counts `ceil(opt / data)` and the tile-then-narrow
  reconciliation. It has a pure form (`TileCrop`) and a form that runs the narrowing loop
  (`ReconcileShape`); the two are proved equal.
- `BufferCache` (`cache.dfy`): the name-to-buffer cache as a value (`Cache`). It has one store
  (`Store`), a run of stores over the names of a batch (`Run`), and the lemmas describing the cache
  after a run.
- `Calibration` (`calibrator.dfy`): the store as ordered association lists, construction (`Init`),
  the preparation of one input (`PrepareInput`), device memory (`DeviceMemory`, a class) and the
  feeder itself (`HDF5Calibrator`, a class with the cursor and the buffer map as mutable fields).

An exception raised in the source is modelled as a `Failure` value: a failed assertion, a
`KeyError`, an `IndexError` or a `ZeroDivisionError`. `GetBatch` returns `Exhausted` where the source
returns `None`.

## Model

| member | source | states |
|---|---|---|
| Calibration.Init | mmdeploy/apis/tensorrt/calib_utils.py:23-41 | construction fails with `MissingCalibData` without `calib_data` and with `MissingModelType` without the model type; it succeeds exactly when, in addition, the model group has a first input group holding a sample `"0"` of rank at least 1; the dataset length is then the member count of that first input group and the batch size the leading extent of its sample `"0"` |
| Calibration.HDF5Calibrator.Create | mmdeploy/apis/tensorrt/calib_utils.py:18-41 | a calibrator exists exactly when `Init` succeeds; it is fresh and valid, keeps the setup, target-shape table, algorithm and device it was given, and starts with no buffers and the cursor at 0 |
| Calibration.HDF5Calibrator.constructor | mmdeploy/apis/tensorrt/calib_utils.py:28-38 | every field is set from its argument; the buffer map is empty and `count` is 0 |
| Calibration.Find | mmdeploy/apis/tensorrt/calib_utils.py:53-54 | a group lookup finds nothing exactly when no member has the key; a found value is a member under that key |
| Calibration.DecimalString | mmdeploy/apis/tensorrt/calib_utils.py:54 | `str(count)`: a non-empty string of decimal digits, at least two digits from 10 on |
| Calibration.DecimalStringValue | mmdeploy/apis/tensorrt/calib_utils.py:54 | the key read for cursor `count` is `str(count)`: its digits spell `count` exactly, and it has no leading zero except for `"0"` itself |
| Calibration.DecimalStringInjective | mmdeploy/apis/tensorrt/calib_utils.py:54 | distinct cursor values read distinct sample keys |
| Reconcile.CeilDiv | mmdeploy/apis/tensorrt/calib_utils.py:62 | `q = ceil(a / b)`: `q * b >= a` and `(q - 1) * b < a` |
| Reconcile.Reps | mmdeploy/apis/tensorrt/calib_utils.py:61-64 | one repeat count per axis; each is the least count whose tiling covers the target extent |
| Tensors.Tile | mmdeploy/apis/tensorrt/calib_utils.py:66 | the tiled tensor is well formed, and its shape is the original shape times the repeat counts, axis by axis |
| Tensors.TileAt | mmdeploy/apis/tensorrt/calib_utils.py:66 | every element of the tiled tensor is the original element at the index taken modulo the original shape on every axis |
| Tensors.Narrow | mmdeploy/apis/tensorrt/calib_utils.py:70 | `narrow(dim, 0, len)` is well formed, with the shape changed on axis `dim` only, to `len` |
| Tensors.NarrowAt | mmdeploy/apis/tensorrt/calib_utils.py:70 | narrowing from offset 0 keeps every remaining element at the same multi-index |
| Tensors.NarrowFull | mmdeploy/apis/tensorrt/calib_utils.py:69-70 | narrowing an axis to its full extent returns the tensor unchanged, so skipping the axes whose extent already matches changes nothing |
| Tensors.AtOffset | mmdeploy/apis/tensorrt/calib_utils.py:66-70 | element access agrees with the row-major offset into the flat buffer |
| Reconcile.NarrowFrom | mmdeploy/apis/tensorrt/calib_utils.py:68-70 | the narrowing loop from axis `d` on leaves axes before `d` alone and gives every later axis its target extent |
| Reconcile.NarrowFromAt | mmdeploy/apis/tensorrt/calib_utils.py:68-70 | the narrowing loop only drops elements; every element it keeps is at the same multi-index |
| Reconcile.TileCrop | mmdeploy/apis/tensorrt/calib_utils.py:61-70 | the reconciled tensor is well formed and has exactly the target shape |
| Reconcile.TileCropAt | mmdeploy/apis/tensorrt/calib_utils.py:61-70 | the reconciled element at `i` is the sample's element at `i[d] mod data_shape[d]` on every axis |
| Reconcile.ReconcileShape | mmdeploy/apis/tensorrt/calib_utils.py:61-70 | the tile call followed by the loop over axes with its `!=` guard yields `TileCrop`: exactly the target shape, and every element the wrapped sample element |
| Calibration.PrepareInput | mmdeploy/apis/tensorrt/calib_utils.py:53-70 | preparing one input succeeds exactly when the input group, its sample for the cursor and its `opt_shape` exist, the ranks agree and no sample extent is 0; the result then has the target shape |
| Calibration.PrepareInputAt | mmdeploy/apis/tensorrt/calib_utils.py:57-70 | a prepared input repeats its sample periodically along every axis |
| Calibration.HDF5Calibrator.Prepare | mmdeploy/apis/tensorrt/calib_utils.py:53-70 | the lookups, the zero-extent loop over the zipped axes and the reconciliation yield `PrepareInput` exactly, errors included |
| Calibration.Outcomes | mmdeploy/apis/tensorrt/calib_utils.py:52-70 | one preparation outcome per requested name, in the order of `names`, all at the same cursor |
| Calibration.FirstFailure | mmdeploy/apis/tensorrt/calib_utils.py:52-77 | the loop over names stops at the first outcome that fails: every outcome before it succeeded |
| Calibration.OutcomesConsistent | mmdeploy/apis/tensorrt/calib_utils.py:52-54 | a name requested twice in one batch reads the same sample both times |
| Calibration.OutcomesShaped | mmdeploy/apis/tensorrt/calib_utils.py:58-70 | every successfully prepared input has its own target shape |
| BufferCache.Store | mmdeploy/apis/tensorrt/calib_utils.py:72-77 | after a store, the name has a buffer, the returned handle is that buffer, it holds the value and no other memory changes |
| BufferCache.StoreStored | mmdeploy/apis/tensorrt/calib_utils.py:72-75 | a first use allocates memory that was not allocated before and adds only that name; a later use keeps the name's buffer and overwrites only it; either way the cache stays sound and within the allocated addresses |
| BufferCache.Run | mmdeploy/apis/tensorrt/calib_utils.py:52-77 | the stores of a batch, in order: one handle per stored name; one more name is one more store with its handle appended (`RunExtend`) |
| BufferCache.RunCacheAfter | mmdeploy/apis/tensorrt/calib_utils.py:72-77 | after a batch's stores the cache is still sound; its key set grew by exactly the stored names and names already cached keep their buffers; each stored name's buffer holds that name's value; other buffers are unchanged; the handles are the names' buffers in the order of `names` |
| BufferCache.HandlesOfBatch | mmdeploy/apis/tensorrt/calib_utils.py:72-77 | a name that already had a buffer gets the same handle back; a new name gets memory not allocated before; distinct names get distinct handles |
| BufferCache.RunSound | mmdeploy/apis/tensorrt/calib_utils.py:72-75 | no two names ever share a buffer, and every buffer is allocated |
| Calibration.StoreReady | mmdeploy/apis/tensorrt/calib_utils.py:72-75 | storing a value of the name's target shape keeps every buffer at its input's target shape |
| Calibration.RunReady | mmdeploy/apis/tensorrt/calib_utils.py:72-75 | across a batch, every buffer keeps its input's target shape, so the in-place `copy_` always fits |
| Calibration.DeviceMemory.Allocate | mmdeploy/apis/tensorrt/calib_utils.py:73 | allocation returns an address not in use and changes nothing else |
| Calibration.DeviceMemory.CopyInto | mmdeploy/apis/tensorrt/calib_utils.py:75 | an in-place copy overwrites exactly one existing buffer of the same shape |
| Calibration.HDF5Calibrator.StoreBuffer | mmdeploy/apis/tensorrt/calib_utils.py:72-77 | the buffer map and device memory change exactly as `Store` says, and the handle is that name's buffer |
| Calibration.HDF5Calibrator.FillBuffers | mmdeploy/apis/tensorrt/calib_utils.py:51-77 | the loop over names stores exactly the names before the first failing one, as `Run` says, and keeps the calibrator valid; it returns the error of the name that stopped it |
| Calibration.HDF5Calibrator.GetBatch | mmdeploy/apis/tensorrt/calib_utils.py:48-81 | once exhausted, the result is `Exhausted` and neither the cursor, the buffer map nor device memory changes; otherwise, if every name prepares, the result is the names' buffer handles in order and the cursor advances by exactly 1. On a failure, the names before the failing one are stored, the error is reported and the cursor stays. The cursor never passes the dataset length |
| Calibration.HDF5Calibrator.GetAlgorithm | mmdeploy/apis/tensorrt/calib_utils.py:83-84 | the algorithm fixed at construction |
| Calibration.HDF5Calibrator.GetBatchSize | mmdeploy/apis/tensorrt/calib_utils.py:86-87 | the batch size fixed at construction |
| Calibration.HDF5Calibrator.ReadCalibrationCache | mmdeploy/apis/tensorrt/calib_utils.py:89-90 | there is never a cached calibration table |
| Calibration.HDF5Calibrator.WriteCalibrationCache | mmdeploy/apis/tensorrt/calib_utils.py:92-93 | writing a table changes nothing: reading still finds none |

## Left out

- Opening the HDF5 file from a path (lines 20-21) and closing it in `__del__` (lines 43-46) are
  I/O. The store is passed in as a value (`CalibFile`), with every group an ordered list of named
  members. "The first input group" is the first member listed.
- `torch.from_numpy`, `.cuda(device_id)` and `data_ptr()` are foreign calls. Device memory is the
  `DeviceMemory` class: a map from address to tensor with a bump allocator for new addresses. The
  integer returned by `data_ptr()` is the buffer's address. Allocation failure is not modelled.
- BufferCache.HandlesOfBatch: a buffer with no elements (a target shape with an extent of 0) gets
  its own fresh address in the model, while torch's `data_ptr()` returns 0 for a zero-byte
  tensor, so two such names would share the handle 0 at line 77. The handle facts (fresh memory
  for a new name, distinct handles for distinct names) hold for the source only when every
  target shape is non-empty.
- The TensorRT base class `IInt8Calibrator` and its constructor call (lines 9, 18) are an external
  library. The algorithm is an enumeration that the feeder only passes through.
- `np.ceil(opt_s / data_s)` (line 62) is computed with integer ceiling division (`CeilDiv`) rather
  than floating point. Both give the same count for every extent below 2^53; above that the float
  division rounds, but no tensor has such an extent.
- A zero sample extent, on which line 62 raises `ZeroDivisionError`, is the error `ZeroExtent`. It
  is raised only for axes that `zip` reaches.
- A rank mismatch between a sample and its target shape is the error `RankMismatch`. The model does
  not follow torch's `tile`/`narrow` behaviour on tensors of unequal rank, which `zip`'s truncation
  (line 63) would otherwise lead into.
- Sample element types are not modelled: samples are tensors of `real`, without dtype or precision.
- `device_id` (lines 15, 30, 73, 75) selects the CUDA device; the model stands for it with the
  `DeviceMemory` object passed to `Create`. The unused `**kwargs` (lines 17, 33, 48) and the
  `calib_file` field are not modelled.
- An exception in the middle of `get_batch` is modelled as `Failed`. As in the source, the names
  processed before the failing one have already written their buffers and the cursor has not moved.
  A name missing from the target-shape table is therefore rejected only when the loop reaches it,
  after the earlier names of the same call were copied to the device.
- Single-threaded use by one engine is assumed throughout. Handle lifetimes beyond the next call are
  not modelled.
