/** The INT8 calibration-batch feeder: it reads recorded samples from a
    hierarchical store, reconciles each one with the input's target shape,
    and hands the calibration engine one device buffer per input name,
    advancing a shared cursor until the dataset is exhausted. */
module Calibration {
  import opened Tensors
  import opened Reconcile
  import opened Wrappers
  import opened BufferCache

  /** The calibration algorithms TensorRT offers. The feeder only passes
      the chosen one through. */
  datatype CalibrationAlgorithm =
    | LegacyCalibration
    | EntropyCalibration
    | EntropyCalibration2
    | MinMaxCalibration

  /** The default algorithm and model type of the feeder's constructor. */
  const DefaultAlgorithm: CalibrationAlgorithm := EntropyCalibration2

  const DefaultModelType: string := "end2end"

  /** A recorded sample: a well-formed tensor of reals. */
  type Sample = t: Tensor<real> | t.Wf() witness Tensor([], [0.0])

  // -----------------------------------------------------------------------
  // The store

  /** A group of the store: its members, in the order the store lists them. */
  type Group<V> = seq<(string, V)>

  /** The member of `g` named `key` (the first one, should a name repeat). */
  function Find<V>(g: Group<V>, key: string): (r: Option<V>)
    ensures r.None? <==> forall j :: 0 <= j < |g| ==> g[j].0 != key
    ensures r.Some? ==> (key, r.value) in g
  {
    if |g| == 0 then None
    else if g[0].0 == key then Some(g[0].1)
    else Find(g[1..], key)
  }

  /** Samples of one input, keyed by their decimal index "0", "1", ... */
  type InputGroup = Group<Sample>

  /** The inputs of one model type, keyed by input name. */
  type ModelGroup = Group<InputGroup>

  /** The `calib_data` group: one member per model type. */
  type CalibGroup = Group<ModelGroup>

  /** The top level of the store. */
  type CalibFile = Group<CalibGroup>

  /** Per input name, a table of named shapes; the feeder reads "opt_shape". */
  type ShapeTable = map<string, map<string, Shape>>

  function Digit(n: nat): (c: char)
    requires n < 10
    ensures '0' <= c <= '9'
  {
    ('0' as int + n) as char
  }

  /** The decimal spelling of `n`, the key a sample is stored under. */
  function DecimalString(n: nat): (s: string)
    ensures |s| >= 1
    ensures n >= 10 ==> |s| >= 2
    ensures forall j :: 0 <= j < |s| ==> '0' <= s[j] <= '9'
  {
    if n < 10 then [Digit(n)] else DecimalString(n / 10) + [Digit(n % 10)]
  }

  /** Distinct cursor values read distinct sample keys. */
  lemma {:induction false} DecimalStringInjective(a: nat, b: nat)
    requires DecimalString(a) == DecimalString(b)
    ensures a == b
  {
    var sa, sb := DecimalString(a), DecimalString(b);
    if a < 10 || b < 10 {
      assert |sa| == 1 && |sb| == 1;
      assert Digit(a) == sa[0] == Digit(b);
    } else {
      assert sa[..|sa| - 1] == DecimalString(a / 10);
      assert sb[..|sb| - 1] == DecimalString(b / 10);
      DecimalStringInjective(a / 10, b / 10);
      assert Digit(a % 10) == sa[|sa| - 1] == Digit(b % 10);
      DivMod(a);
      DivMod(b);
    }
  }

  lemma DivMod(n: nat)
    ensures n == 10 * (n / 10) + n % 10
  {
  }

  /** The number a string of decimal digits spells, most significant first. */
  function DecimalValue(s: string): nat
    requires forall j :: 0 <= j < |s| ==> '0' <= s[j] <= '9'
  {
    if |s| == 0 then 0
    else 10 * DecimalValue(s[..|s| - 1]) + (s[|s| - 1] as int - '0' as int)
  }

  /** `DecimalString(n)` is `str(n)`: its digits spell `n`, and it has no
      leading zero unless it is "0" itself. */
  lemma {:induction false} DecimalStringValue(n: nat)
    ensures DecimalValue(DecimalString(n)) == n
    ensures n > 0 ==> DecimalString(n)[0] != '0'
    ensures n == 0 ==> DecimalString(n) == "0"
  {
    var s := DecimalString(n);
    if n >= 10 {
      var prefix := DecimalString(n / 10);
      assert s[..|s| - 1] == prefix;
      DecimalStringValue(n / 10);
      assert s[0] == prefix[0];
      DivMod(n);
    }
  }

  // -----------------------------------------------------------------------
  // Construction

  datatype InitError =
    | MissingCalibData
    | MissingModelType(modelType: string)
    | NoInputGroups
    | MissingFirstSample(input: string)
    | ScalarFirstSample(input: string)

  /** What construction derives from the store. */
  datatype Setup = Setup(calibData: ModelGroup, datasetLength: nat, batchSize: nat)

  /** Validation and derivation done at construction: the store must hold
      `calib_data` and, inside it, the model type; the dataset length is the
      member count of the first input group and the batch size the leading
      extent of that group's sample "0". */
  function Init(file: CalibFile, modelType: string): (r: Result<Setup, InitError>)
    ensures Find(file, "calib_data").None? ==> r == Failure(MissingCalibData)
    ensures Find(file, "calib_data").Some? && Find(Find(file, "calib_data").value, modelType).None? ==>
              r == Failure(MissingModelType(modelType))
    ensures r.Success? <==>
              var calib: Option<CalibGroup> := Find(file, "calib_data");
              && calib.Some?
              && var data: Option<ModelGroup> := Find(calib.value, modelType);
              && data.Some? && |data.value| > 0
              && var sample: Option<Sample> := Find(data.value[0].1, "0");
              && sample.Some? && |sample.value.shape| > 0
    ensures r.Success? ==>
              && Find(file, "calib_data").Some?
              && Find(Find(file, "calib_data").value, modelType) == Some(r.value.calibData)
              && |r.value.calibData| > 0
              && r.value.datasetLength == |r.value.calibData[0].1|
              && Find(r.value.calibData[0].1, "0").Some?
              && |Find(r.value.calibData[0].1, "0").value.shape| > 0
              && r.value.batchSize == Find(r.value.calibData[0].1, "0").value.shape[0]
  {
    var calib: Option<CalibGroup> := Find(file, "calib_data");
    if calib.None? then Failure(MissingCalibData)
    else
      var data: Option<ModelGroup> := Find(calib.value, modelType);
      if data.None? then Failure(MissingModelType(modelType))
      else if |data.value| == 0 then Failure(NoInputGroups)
      else
        var firstName: string, first: InputGroup := data.value[0].0, data.value[0].1;
        var sample: Option<Sample> := Find(first, "0");
        if sample.None? then Failure(MissingFirstSample(firstName))
        else if |sample.value.shape| == 0 then Failure(ScalarFirstSample(firstName))
        else Success(Setup(data.value, |first|, sample.value.shape[0]))
  }

  // -----------------------------------------------------------------------
  // One input of one batch

  datatype BatchError =
    | UnknownInput(input: string)
    | MissingSample(input: string, key: string)
    | NoShapeSpec(input: string)
    | NoOptShape(input: string)
    | ZeroExtent(input: string)
    | RankMismatch(input: string)

  /** The sample of input `name` at cursor value `index`. */
  function SampleAt(data: ModelGroup, name: string, index: nat): (r: Option<Sample>)
    ensures r.Some? ==> exists g :: Find(data, name) == Some(g) && Find(g, DecimalString(index)) == r
  {
    match Find(data, name)
    case None => None
    case Some(g) => Find(g, DecimalString(index))
  }

  /** The target shape of input `name`. */
  function OptShape(shapes: ShapeTable, name: string): (r: Option<Shape>)
    ensures r.Some? <==> name in shapes && "opt_shape" in shapes[name]
    ensures r.Some? ==> r.value == shapes[name]["opt_shape"]
  {
    if name in shapes && "opt_shape" in shapes[name] then Some(shapes[name]["opt_shape"]) else None
  }

  /** The buffer contents for input `name` at cursor value `index`: its
      sample tiled and cropped to the target shape, or the error that
      stops the batch. */
  function PrepareInput(data: ModelGroup, shapes: ShapeTable, name: string, index: nat): (r: Result<Sample, BatchError>)
    ensures r.Success? <==>
              && SampleAt(data, name, index).Some?
              && OptShape(shapes, name).Some?
              && |SampleAt(data, name, index).value.shape| == |OptShape(shapes, name).value|
              && Positive(SampleAt(data, name, index).value.shape)
    ensures r.Success? ==> r.value.shape == OptShape(shapes, name).value
  {
    match Find(data, name)
    case None => Failure(UnknownInput(name))
    case Some(group) =>
      match Find(group, DecimalString(index))
      case None => Failure(MissingSample(name, DecimalString(index)))
      case Some(sample) =>
        if name !in shapes then Failure(NoShapeSpec(name))
        else if "opt_shape" !in shapes[name] then Failure(NoOptShape(name))
        else
          var opt := shapes[name]["opt_shape"];
          if exists d :: 0 <= d < |opt| && d < |sample.shape| && sample.shape[d] == 0 then
            Failure(ZeroExtent(name))
          else if |opt| != |sample.shape| then
            Failure(RankMismatch(name))
          else
            var t: Sample := TileCrop(sample, opt);
            Success(t)
  }

  /** Every element of a prepared input is the sample's element at the
      index wrapped around the sample's shape: the buffer repeats the
      sample periodically along every axis. */
  lemma PrepareInputAt(data: ModelGroup, shapes: ShapeTable, name: string, index: nat)
    requires PrepareInput(data, shapes, name, index).Success?
    ensures var r, sample := PrepareInput(data, shapes, name, index).value, SampleAt(data, name, index).value;
      forall i :: InBounds(r.shape, i) ==> At(r, i) == At(sample, Wrap(i, sample.shape))
  {
    var sample, opt := SampleAt(data, name, index).value, OptShape(shapes, name).value;
    TileCropAt(sample, opt);
  }

  /** The outcome of preparing every name of a batch at cursor `index`. */
  function Outcomes(data: ModelGroup, shapes: ShapeTable, names: seq<string>, index: nat): (rs: seq<Result<Sample, BatchError>>)
    ensures |rs| == |names|
    ensures forall e :: 0 <= e < |names| ==> rs[e] == PrepareInput(data, shapes, names[e], index)
  {
    if |names| == 0 then [] else Outcomes(data, shapes, names[..|names| - 1], index) + [PrepareInput(data, shapes, names[|names| - 1], index)]
  }

  /** The position of the first failed outcome, or `|rs|` when every one
      succeeded. */
  function FirstFailure<V, E>(rs: seq<Result<V, E>>): (k: nat)
    ensures k <= |rs|
    ensures forall j :: 0 <= j < k ==> rs[j].Success?
    ensures k < |rs| ==> rs[k].Failure?
  {
    if |rs| == 0 then 0
    else if rs[0].Failure? then 0
    else 1 + FirstFailure(rs[1..])
  }

  /** The first failure is where the outcomes stop succeeding. */
  lemma FirstFailureIs<V, E>(rs: seq<Result<V, E>>, k: nat)
    requires k <= |rs|
    requires forall e :: 0 <= e < k ==> rs[e].Success?
    requires k < |rs| ==> rs[k].Failure?
    ensures FirstFailure(rs) == k
  {
  }

  /** A name that occurs twice in a batch has the same outcome both times. */
  lemma OutcomesConsistent(data: ModelGroup, shapes: ShapeTable, names: seq<string>, index: nat, j: nat)
    requires j <= |names|
    ensures Consistent(names, Outcomes(data, shapes, names, index), j)
  {
  }

  /** The buffer of `name` has the target shape of `name`. */
  ghost predicate Fits(c: Cache<string, Sample>, shapes: ShapeTable, name: string)
    requires name in c.buf && c.buf[name] in c.mem
  {
    OptShape(shapes, name) == Some(c.mem[c.buf[name]].shape)
  }

  /** A buffer cache the feeder can keep storing into: sound, within the
      allocated addresses, and every buffer shaped as its input's target. */
  ghost predicate Ready(c: Cache<string, Sample>, shapes: ShapeTable)
  {
    && Sound(c.buf, c.mem)
    && Bounded(c)
    && (forall n :: n in c.buf ==> Fits(c, shapes, n))
  }

  /** The first `j` outcomes succeeded, each with its input's target shape. */
  ghost predicate Shaped(shapes: ShapeTable, names: seq<string>, outs: seq<Result<Sample, BatchError>>, j: nat)
    requires j <= |names| && j <= |outs|
  {
    forall e :: 0 <= e < j ==> outs[e].Success? && OptShape(shapes, names[e]) == Some(outs[e].value.shape)
  }

  /** Every prepared input that succeeded has its input's target shape. */
  lemma OutcomesShaped(data: ModelGroup, shapes: ShapeTable, names: seq<string>, index: nat, j: nat)
    requires j <= |names|
    requires forall e :: 0 <= e < j ==> Outcomes(data, shapes, names, index)[e].Success?
    ensures Shaped(shapes, names, Outcomes(data, shapes, names, index), j)
  {
  }

  /** Storing a value of the name's target shape keeps the cache ready. */
  lemma StoreReady(c: Cache<string, Sample>, shapes: ShapeTable, name: string, t: Sample)
    requires Ready(c, shapes) && OptShape(shapes, name) == Some(t.shape)
    ensures Ready(Store(c, name, t).0, shapes)
  {
    var r := Store(c, name, t);
    StoreStored(c, name, t);
    SoundStep(c.buf, c.mem, name, t, r.1, r.0.buf, r.0.mem);
  }

  /** A run of stores of well-shaped values keeps the cache ready. */
  lemma {:induction false} RunReady(c: Cache<string, Sample>, shapes: ShapeTable, names: seq<string>,
                                    outs: seq<Result<Sample, BatchError>>, j: nat)
    requires j <= |names| && j <= |outs| && Shaped(shapes, names, outs, j)
    requires Ready(c, shapes)
    ensures Ready(Run(c, names, outs, j).0, shapes)
    decreases j
  {
    if j > 0 {
      var prev := Run(c, names, outs, j - 1);
      RunReady(c, shapes, names, outs, j - 1);
      StoreReady(prev.0, shapes, names[j - 1], outs[j - 1].value);
    }
  }

  // -----------------------------------------------------------------------
  // Device memory

  /** Device memory: buffers by address, allocated once and then
      overwritten in place. */
  class DeviceMemory {
    var mem: map<Handle, Sample>
    var next: nat

    ghost predicate Valid()
      reads this
    {
      forall h :: h in mem ==> h < next
    }

    constructor ()
      ensures Valid() && mem == map[]
    {
      mem := map[];
      next := 0;
    }

    /** Allocate a buffer holding a copy of `t`. */
    method Allocate(t: Sample) returns (h: Handle)
      requires Valid()
      modifies this
      ensures Valid()
      ensures h == old(next) && next == old(next) + 1
      ensures h !in old(mem) && mem == old(mem)[h := t]
    {
      h := next;
      mem := mem[h := t];
      next := next + 1;
    }

    /** Copy `t` into the existing buffer `h` of the same shape. */
    method CopyInto(h: Handle, t: Sample)
      requires Valid() && h in mem && mem[h].shape == t.shape
      modifies this
      ensures Valid()
      ensures mem == old(mem)[h := t] && next == old(next)
    {
      mem := mem[h := t];
    }
  }

  // -----------------------------------------------------------------------
  // The feeder

  datatype BatchResult =
    | Batch(handles: seq<Handle>)
    | Exhausted
    | Failed(error: BatchError)

  class HDF5Calibrator {
    const calibData: ModelGroup
    const optShapeDict: ShapeTable
    const algorithm: CalibrationAlgorithm
    const datasetLength: nat
    const batchSize: nat
    const device: DeviceMemory
    /** The device buffer of every input name seen so far. */
    var buffers: map<string, Handle>
    /** The cursor: the index of the next batch. */
    var count: nat

    ghost predicate Valid()
      reads this, device
    {
      && count <= datasetLength
      && Ready(State(), optShapeDict)
    }

    /** The buffer cache and the device memory it lives in. */
    ghost function State(): Cache<string, Sample>
      reads this, device
    {
      Cache(buffers, device.mem, device.next)
    }

    constructor (setup: Setup, optShapeDict: ShapeTable, algorithm: CalibrationAlgorithm, device: DeviceMemory)
      requires device.Valid()
      ensures Valid()
      ensures calibData == setup.calibData && datasetLength == setup.datasetLength && batchSize == setup.batchSize
      ensures this.optShapeDict == optShapeDict && this.algorithm == algorithm && this.device == device
      ensures buffers == map[] && count == 0
    {
      calibData := setup.calibData;
      datasetLength := setup.datasetLength;
      batchSize := setup.batchSize;
      this.optShapeDict := optShapeDict;
      this.algorithm := algorithm;
      this.device := device;
      buffers := map[];
      count := 0;
    }

    /** Construction from the store: fails as `Init` does, otherwise starts
        with an empty buffer cache and the cursor at 0. A caller that gives
        no model type or algorithm passes `DefaultModelType` and
        `DefaultAlgorithm`, the source's default arguments. */
    static method Create(file: CalibFile, optShapeDict: ShapeTable, modelType: string,
                         algorithm: CalibrationAlgorithm, device: DeviceMemory)
      returns (r: Result<HDF5Calibrator, InitError>)
      requires device.Valid()
      ensures r.Success? <==> Init(file, modelType).Success?
      ensures r.Failure? ==> r.error == Init(file, modelType).error
      ensures r.Success? ==>
                var setup := Init(file, modelType).value;
                && fresh(r.value) && r.value.Valid()
                && r.value.calibData == setup.calibData
                && r.value.datasetLength == setup.datasetLength
                && r.value.batchSize == setup.batchSize
                && r.value.optShapeDict == optShapeDict && r.value.algorithm == algorithm
                && r.value.device == device
                && r.value.buffers == map[] && r.value.count == 0
    {
      match Init(file, modelType)
      case Failure(e) =>
        r := Failure(e);
      case Success(setup) =>
        var c := new HDF5Calibrator(setup, optShapeDict, algorithm, device);
        r := Success(c);
    }

    /** The buffer contents for `name` at cursor value `index`, computed as
        the source does: look the sample and target shape up, then tile and
        narrow. */
    method Prepare(name: string, index: nat) returns (r: Result<Sample, BatchError>)
      ensures r == PrepareInput(calibData, optShapeDict, name, index)
    {
      var group := Find(calibData, name);
      if group.None? {
        return Failure(UnknownInput(name));
      }
      var key := DecimalString(index);
      var found := Find(group.value, key);
      if found.None? {
        return Failure(MissingSample(name, key));
      }
      var sample := found.value;
      if name !in optShapeDict {
        return Failure(NoShapeSpec(name));
      }
      if "opt_shape" !in optShapeDict[name] {
        return Failure(NoOptShape(name));
      }
      var opt := optShapeDict[name]["opt_shape"];
      var d := 0;
      while d < |opt| && d < |sample.shape|
        invariant 0 <= d <= |opt| && d <= |sample.shape|
        invariant forall e :: 0 <= e < d ==> sample.shape[e] != 0
      {
        if sample.shape[d] == 0 {
          return Failure(ZeroExtent(name));
        }
        d := d + 1;
      }
      if |opt| != |sample.shape| {
        return Failure(RankMismatch(name));
      }
      var t: Sample := ReconcileShape(sample, opt);
      r := Success(t);
    }

    /** Hand the engine the next batch: one buffer handle per name, in the
        order of `names`, and advance the cursor; or report exhaustion and
        change nothing. When an input cannot be prepared, the inputs before
        it have been stored and the cursor stays. */
    method GetBatch(names: seq<string>) returns (r: BatchResult)
      requires Valid()
      modifies this, device
      ensures Valid()
      ensures old(count) >= datasetLength ==>
                && r == Exhausted
                && count == old(count) && State() == old(State())
      ensures old(count) < datasetLength ==>
                var outcomes := Outcomes(calibData, optShapeDict, names, old(count));
                var k := FirstFailure(outcomes);
                var run := Run(old(State()), names, outcomes, k);
                && State() == run.0
                && CacheAfter(names, outcomes, k, old(buffers), old(device.mem), buffers, device.mem, run.1)
                && (k == |names| ==> r == Batch(run.1) && count == old(count) + 1)
                && (k < |names| ==> r == Failed(outcomes[k].error) && count == old(count))
    {
      if count >= datasetLength {
        return Exhausted;
      }
      ghost var c0 := State();
      var ret, k, failure := FillBuffers(names);
      OutcomesConsistent(calibData, optShapeDict, names, count, k);
      RunCacheAfter(c0, names, Outcomes(calibData, optShapeDict, names, count), k);
      if failure.Some? {
        return Failed(failure.value);
      }
      count := count + 1;
      r := Batch(ret);
    }

    /** The loop over `names` at the current cursor: store each name's
        prepared input in its buffer, in order, and stop at the first name
        whose input cannot be prepared. `k` is how many names were stored,
        and `failure` the error of the name that stopped the loop. */
    method FillBuffers(names: seq<string>) returns (ret: seq<Handle>, k: nat, failure: Option<BatchError>)
      requires Valid()
      modifies this`buffers, device
      ensures Valid()
      ensures k == FirstFailure(Outcomes(calibData, optShapeDict, names, count))
      ensures k < |names| ==> failure == Some(Outcomes(calibData, optShapeDict, names, count)[k].error)
      ensures k == |names| ==> failure == None
      ensures (State(), ret) == Run(old(State()), names, Outcomes(calibData, optShapeDict, names, count), k)
    {
      ghost var outcomes := Outcomes(calibData, optShapeDict, names, count);
      ghost var c0 := State();
      assert device.Valid();
      ret := [];
      k := 0;
      failure := None;
      while k < |names|
        invariant 0 <= k <= |names|
        invariant forall e :: 0 <= e < k ==> outcomes[e].Success?
        invariant (State(), ret) == Run(c0, names, outcomes, k)
        invariant device.Valid()
      {
        var name := names[k];
        var prepared := Prepare(name, count);
        if prepared.Failure? {
          FirstFailureIs(outcomes, k);
          assert Valid() by {
            OutcomesShaped(calibData, optShapeDict, names, count, k);
            RunReady(c0, optShapeDict, names, outcomes, k);
          }
          failure := Some(prepared.error);
          return;
        }
        assert Fitting(name, prepared.value) by {
          OutcomesShaped(calibData, optShapeDict, names, count, k);
          RunReady(c0, optShapeDict, names, outcomes, k);
        }
        ghost var s := State();
        var h := StoreBuffer(name, prepared.value);
        RunExtend(c0, names, outcomes, k, s, ret, State(), h);
        ret := ret + [h];
        k := k + 1;
      }
      FirstFailureIs(outcomes, k);
      assert Valid() by {
        OutcomesShaped(calibData, optShapeDict, names, count, k);
        RunReady(c0, optShapeDict, names, outcomes, k);
      }
    }

    /** `t` can go into the buffer of `name`: a buffer already allocated for
        the name is allocated and has the shape of `t`. */
    ghost predicate Fitting(name: string, t: Sample)
      reads this, device
    {
      name in buffers ==> buffers[name] in device.mem && device.mem[buffers[name]].shape == t.shape
    }

    /** Put `t` into the buffer of `name`: allocate it on the first use of
        the name, overwrite it in place afterwards. */
    method StoreBuffer(name: string, t: Sample) returns (h: Handle)
      requires device.Valid() && Fitting(name, t)
      modifies this`buffers, device
      ensures device.Valid()
      ensures (State(), h) == Store(old(State()), name, t)
    {
      if name !in buffers {
        h := device.Allocate(t);
        buffers := buffers[name := h];
      } else {
        h := buffers[name];
        device.CopyInto(h, t);
      }
    }

    function GetAlgorithm(): (a: CalibrationAlgorithm)
      ensures a == algorithm
    {
      algorithm
    }

    function GetBatchSize(): (n: nat)
      ensures n == batchSize
    {
      batchSize
    }

    /** There is never a cached calibration table to reuse. */
    function ReadCalibrationCache(): (r: Option<seq<bv8>>)
      ensures r.None?
    {
      None
    }

    /** The engine's calibration table is discarded. */
    method WriteCalibrationCache(cache: seq<bv8>)
      ensures ReadCalibrationCache().None?
    {
    }
  }
}
