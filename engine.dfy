/** The engine lifecycle: the process-wide MODEL, PROCESSOR and DEVICE, the lazy and
    idempotent `ensure_loaded`, and the read-only health report
    (services/kugelaudio-tts/app.py:50-52, 72-115). */
module Engine {
  import opened Wrappers
  import opened PyText
  import Device

  /** The torch precision the weights are loaded with. */
  datatype DType = BFloat16 | Float32

  /** A loaded inference model, described by what the lifecycle did to it: the model it
      was loaded from, its precision and device, and the two one-time preparations
      (`eval()` and `strip_encoders()`). The weights themselves are opaque. */
  datatype ModelHandle = ModelHandle(
    modelId: string, dtype: DType, device: string, evalMode: bool, encodersStripped: bool)

  /** A loaded processor: the model it was loaded from. */
  datatype ProcessorHandle = ProcessorHandle(modelId: string)

  /** The foreign library calls of a load, in order; any of them may raise. */
  datatype LoadStep = ModelFromPretrained | MoveToDevice | EvalMode | StripEncoders | ProcessorFromPretrained

  /** How `ensure_loaded` ended: it returned, or the named step raised. */
  datatype LoadResult = Returned | Raised(step: LoadStep)

  /** The device `from_pretrained` places the weights on before `.to(DEVICE)`. */
  const HOST_DEVICE := "cpu"

  /** A snapshot of the three process-wide variables. */
  datatype EngineState = EngineState(
    model: Option<ModelHandle>, processor: Option<ProcessorHandle>, device: string)
  {
    /** `MODEL is not None and PROCESSOR is not None`. */
    predicate Ready() { model.Some? && processor.Some? }
  }

  /** The process-wide engine state, with the model identifier it loads from. */
  class Sidecar {
    const modelId: string
    var model: Option<ModelHandle>
    var processor: Option<ProcessorHandle>
    var device: string

    /** MODEL and PROCESSOR are published together, both loaded from MODEL_ID, and the
        model sits on DEVICE, prepared for inference. */
    ghost predicate Valid()
      reads this
    {
      model.Some? == processor.Some? &&
      (model.Some? ==>
         model.value.modelId == modelId && processor.value.modelId == modelId &&
         model.value.device == device && model.value.evalMode && model.value.encodersStripped)
    }

    function Snapshot(): EngineState
      reads this
    {
      EngineState(model, processor, device)
    }

    /** The module's initial state: nothing loaded, DEVICE "cpu". */
    constructor (modelId: string)
      ensures Valid()
      ensures this.modelId == modelId
      ensures Snapshot() == EngineState(None, None, Device.CPU)
    {
      this.modelId := modelId;
      model := None;
      processor := None;
      device := Device.CPU;
    }

    /** `ensure_loaded()`. `deviceEnv` and `cudaAvailable` are what `resolve_device` sees;
        `failing` names the library call that raises, if any. When already loaded it
        returns with nothing changed. Otherwise DEVICE is resolved and assigned first,
        the model is loaded at bfloat16 on a CUDA device and float32 elsewhere, and
        MODEL and PROCESSOR are assigned together only after every step succeeded. */
    method EnsureLoaded(deviceEnv: Option<string>, cudaAvailable: bool, failing: Option<LoadStep>)
      returns (result: LoadResult)
      requires Valid()
      modifies this
      ensures Valid()
      ensures old(Snapshot().Ready()) ==> result == Returned && Snapshot() == old(Snapshot())
      ensures !old(Snapshot().Ready()) ==>
                device == Device.ResolveDevice(deviceEnv, cudaAvailable) &&
                result == (if failing.None? then Returned else Raised(failing.value))
      ensures !old(Snapshot().Ready()) && result.Returned? ==>
                model == Some(ModelHandle(modelId, if StartsWith(device, Device.CUDA) then BFloat16 else Float32,
                                          device, true, true)) &&
                processor == Some(ProcessorHandle(modelId))
      ensures !old(Snapshot().Ready()) && result.Raised? ==>
                model == old(model) && processor == old(processor)
    {
      if model.Some? && processor.Some? {
        return Returned;
      }
      device := Device.ResolveDevice(deviceEnv, cudaAvailable);
      var dtype := if StartsWith(device, Device.CUDA) then BFloat16 else Float32;

      if failing == Some(ModelFromPretrained) { return Raised(ModelFromPretrained); }
      var loaded := ModelHandle(modelId, dtype, HOST_DEVICE, false, false);
      if failing == Some(MoveToDevice) { return Raised(MoveToDevice); }
      loaded := loaded.(device := device);
      if failing == Some(EvalMode) { return Raised(EvalMode); }
      loaded := loaded.(evalMode := true);
      if failing == Some(StripEncoders) { return Raised(StripEncoders); }
      loaded := loaded.(encodersStripped := true);

      if failing == Some(ProcessorFromPretrained) { return Raised(ProcessorFromPretrained); }
      var loadedProcessor := ProcessorHandle(modelId);
      assert failing.None? by {
        if failing.Some? {
          match failing.value
          case ModelFromPretrained =>
          case MoveToDevice =>
          case EvalMode =>
          case StripEncoders =>
          case ProcessorFromPretrained =>
        }
      }

      model := Some(loaded);
      processor := Some(loadedProcessor);
      result := Returned;
    }
  }

  /** The body of the `/healthz` reply. */
  datatype HealthReport = HealthReport(ok: bool, model: string, device: string)

  /** `healthz()`: reports the state, and being a function of it, never loads or changes it. */
  function Healthz(modelId: string, state: EngineState): (r: HealthReport)
    ensures r.ok <==> state.model.Some? && state.processor.Some?
    ensures r.model == modelId && r.device == state.device
  {
    HealthReport(state.Ready(), modelId, state.device)
  }

  /** Start-up as `lifespan` runs it, with a health check before and after: not ready
      before; afterwards ready exactly when every load step succeeded, and reporting the
      resolved device either way (DEVICE is assigned before the steps that may raise). */
  method StartUp(modelId: string, deviceEnv: Option<string>, cudaAvailable: bool, failing: Option<LoadStep>)
    returns (before: HealthReport, after: HealthReport)
    ensures before == HealthReport(false, modelId, Device.CPU)
    ensures after.ok <==> failing.None?
    ensures after.model == modelId && after.device == Device.ResolveDevice(deviceEnv, cudaAvailable)
    ensures !cudaAvailable ==> !StartsWith(after.device, Device.CUDA)
  {
    var sidecar := new Sidecar(modelId);
    before := Healthz(sidecar.modelId, sidecar.Snapshot());
    var _ := sidecar.EnsureLoaded(deviceEnv, cudaAvailable, failing);
    after := Healthz(sidecar.modelId, sidecar.Snapshot());
  }

  /** Loading twice: once the first load has returned, a second call with any device
      setting, CUDA availability or failing step returns and leaves the state as it was,
      and the model's precision matches its device. */
  method LoadTwice(modelId: string, deviceEnv1: Option<string>, cudaAvailable1: bool,
                   deviceEnv2: Option<string>, cudaAvailable2: bool, failing2: Option<LoadStep>)
    returns (first: EngineState, second: EngineState, secondResult: LoadResult)
    ensures first.Ready() && second == first && secondResult == Returned
    ensures first.model.value.dtype == BFloat16 <==> StartsWith(first.device, Device.CUDA)
    ensures !cudaAvailable1 ==> first.model.value.dtype == Float32
  {
    var sidecar := new Sidecar(modelId);
    var _ := sidecar.EnsureLoaded(deviceEnv1, cudaAvailable1, None);
    first := sidecar.Snapshot();
    secondResult := sidecar.EnsureLoaded(deviceEnv2, cudaAvailable2, failing2);
    second := sidecar.Snapshot();
  }
}
