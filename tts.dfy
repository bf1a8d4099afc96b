/** The `/v1/tts` handler: admission checks in their fixed order, resolution of the
    generation parameters, and the mapping of exceptions to HTTP status codes
    (services/kugelaudio-tts/app.py:118-169). */
module Tts {
  import opened Wrappers
  import opened PyText
  import opened PyInt
  import opened Config
  import opened Engine

  /** The request body after schema validation. */
  datatype TtsRequest = TtsRequest(
    text: string, voice: Option<string>, cfgScale: Option<Float>, maxTokens: Option<int>)

  /** An `HTTPException` as it leaves the handler. */
  datatype HttpError = HttpError(status: int, detail: string)

  const NOT_LOADED := HttpError(503, "Model is not loaded")
  const EMPTY_TEXT := HttpError(400, "text must not be empty")
  const MEDIA_TYPE := "audio/wav"

  const TOO_LONG_PREFIX := "text exceeds max length ("

  /** The over-length 400, whose detail names the ceiling: between the fixed prefix and the
      closing parenthesis stands `str(textMaxChars)`, which `int()` reads back. */
  function TooLong(textMaxChars: int): (r: HttpError)
    ensures r.status == 400
    ensures |TOO_LONG_PREFIX| < |r.detail| && r.detail[..|TOO_LONG_PREFIX|] == TOO_LONG_PREFIX
    ensures r.detail[|r.detail| - 1] == ')'
    ensures r.detail[|TOO_LONG_PREFIX|..|r.detail| - 1] == IntToString(textMaxChars)
    ensures ParseInt(r.detail[|TOO_LONG_PREFIX|..|r.detail| - 1]) == Some(textMaxChars)
  {
    var number := IntToString(textMaxChars);
    var detail := TOO_LONG_PREFIX + number + ")";
    assert detail[|TOO_LONG_PREFIX|..|detail| - 1] == number;
    ParseIntToString(textMaxChars);
    HttpError(400, detail)
  }

  /** One invocation of the synthesis step: the published model, processor and device,
      and the arguments the handler passes. */
  datatype GenerationCall = GenerationCall(
    model: ModelHandle, processor: ProcessorHandle, device: string,
    text: string, voice: Option<string>, cfgScale: Float, maxTokens: int)

  /** The exceptions the handler tells apart. */
  datatype PyException =
    | ValueError(message: string)
    | HTTPException(status: int, detail: string)
    | OtherException(message: string)

  /** What the synthesis step (pre-processing, generation, output normalisation and WAV
      encoding) does: it produces WAV bytes or raises. */
  datatype SynthesisOutcome = Wav(content: seq<bv8>) | Threw(exception: PyException)

  datatype Reply = Audio(content: seq<bv8>, mediaType: string) | Failed(error: HttpError)

  /** The reply, and the call made to the synthesis step if the request got that far. */
  datatype TtsResult = TtsResult(reply: Reply, engineCall: Option<GenerationCall>)

  /** `(payload.voice or "").strip() or DEFAULT_VOICE`. */
  function ResolveVoice(requested: Option<string>, defaultVoice: Option<string>): (r: Option<string>)
    ensures IsVoice(defaultVoice) ==> IsVoice(r)
    ensures Strip(requested.GetOr("")) != [] ==> r == Some(Strip(requested.GetOr("")))
    ensures Strip(requested.GetOr("")) == [] ==> r == defaultVoice
  {
    var trimmed := Strip(requested.GetOr(""));
    StripIsStripped(requested.GetOr(""));
    if trimmed != [] then Some(trimmed) else defaultVoice
  }

  /** `payload.cfgScale if payload.cfgScale and payload.cfgScale > 0 else DEFAULT_CFG_SCALE`:
      a present value that is truthy (non-zero, which NaN is) and greater than zero wins. */
  function ResolveCfgScale(requested: Option<Float>, default: Float): (r: Float)
    ensures Positive(default) ==> Positive(r)
    ensures requested.Some? && Positive(requested.value) ==> r == requested.value
    ensures r == default || (requested.Some? && r == requested.value && Positive(r))
  {
    if requested.Some? && requested.value != Finite(0.0) && Positive(requested.value) then requested.value
    else default
  }

  /** `payload.maxTokens if payload.maxTokens and payload.maxTokens > 0 else DEFAULT_MAX_TOKENS`. */
  function ResolveMaxTokens(requested: Option<int>, default: int): (r: int)
    ensures default > 0 ==> r > 0
    ensures requested.Some? && requested.value > 0 ==> r == requested.value
    ensures r == default || (requested.Some? && r == requested.value && r > 0)
  {
    if requested.Some? && requested.value != 0 && requested.value > 0 then requested.value
    else default
  }

  /** The checks before the critical section, in the handler's order: 503 when not
      loaded, before any look at the text; then 400 for text that is empty once stripped;
      then 400 for stripped text longer than TEXT_MAX_CHARS. An admitted request carries
      the stripped text and the resolved parameters. */
  function Admit(settings: Settings, state: EngineState, request: TtsRequest): (r: Result<GenerationCall, HttpError>)
    ensures !state.Ready() ==> r == Err(NOT_LOADED)
    ensures state.Ready() && Strip(request.text) == [] ==> r == Err(EMPTY_TEXT)
    ensures state.Ready() && Strip(request.text) != [] && |Strip(request.text)| > settings.textMaxChars ==>
              r == Err(TooLong(settings.textMaxChars))
    ensures r.Ok? <==> state.Ready() && 1 <= |Strip(request.text)| <= settings.textMaxChars
    ensures r.Ok? ==>
              r.value.model == state.model.value && r.value.processor == state.processor.value &&
              r.value.device == state.device && r.value.text == Strip(request.text) &&
              r.value.voice == ResolveVoice(request.voice, settings.defaultVoice) &&
              r.value.cfgScale == ResolveCfgScale(request.cfgScale, settings.defaultCfgScale) &&
              r.value.maxTokens == ResolveMaxTokens(request.maxTokens, settings.defaultMaxTokens)
    ensures r.Ok? && settings.Valid() ==>
              IsVoice(r.value.voice) && Positive(r.value.cfgScale) && r.value.maxTokens > 0
  {
    if !state.Ready() then Err(NOT_LOADED)
    else
      var text := Strip(request.text);
      if text == [] then Err(EMPTY_TEXT)
      else if |text| > settings.textMaxChars then Err(TooLong(settings.textMaxChars))
      else
        Ok(GenerationCall(
          state.model.value, state.processor.value, state.device, text,
          ResolveVoice(request.voice, settings.defaultVoice),
          ResolveCfgScale(request.cfgScale, settings.defaultCfgScale),
          ResolveMaxTokens(request.maxTokens, settings.defaultMaxTokens)))
  }

  /** The `except` clauses: ValueError becomes 400 with its message, an HTTPException
      passes through unchanged, and anything else becomes 500. */
  function Classify(e: PyException): (r: HttpError)
    ensures e.ValueError? ==> r == HttpError(400, e.message)
    ensures e.HTTPException? ==> r == HttpError(e.status, e.detail)
    ensures e.OtherException? ==> r.status == 500 && r.detail == "TTS generation failed: " + e.message
  {
    match e
    case ValueError(message) => HttpError(400, message)
    case HTTPException(status, detail) => HttpError(status, detail)
    case OtherException(message) => HttpError(500, "TTS generation failed: " + message)
  }

  /** `tts(payload)`, with the critical section and what follows it as the one abstract
      step `synthesize`. The step is invoked only for an admitted request, so the text it
      gets is the stripped request text, and 1 <= its length <= TEXT_MAX_CHARS. */
  function Tts(settings: Settings, state: EngineState, request: TtsRequest,
               synthesize: GenerationCall -> SynthesisOutcome): (r: TtsResult)
    ensures r.engineCall.Some? ==>
              state.Ready() && r.engineCall.value.text == Strip(request.text) &&
              1 <= |r.engineCall.value.text| <= settings.textMaxChars
    ensures r.engineCall.Some? && settings.Valid() ==>
              Positive(r.engineCall.value.cfgScale) && r.engineCall.value.maxTokens > 0
    ensures Admit(settings, state, request).Err? ==>
              r == TtsResult(Failed(Admit(settings, state, request).error), None)
    ensures Admit(settings, state, request).Ok? ==>
              r.engineCall == Some(Admit(settings, state, request).value)
    ensures r.engineCall.Some? && synthesize(r.engineCall.value).Wav? ==>
              r.reply == Audio(synthesize(r.engineCall.value).content, MEDIA_TYPE)
    ensures r.reply.Audio? ==>
              r.engineCall.Some? && synthesize(r.engineCall.value) == Wav(r.reply.content) &&
              r.reply.mediaType == MEDIA_TYPE
    ensures r.engineCall.Some? && synthesize(r.engineCall.value).Threw? ==>
              r.reply == Failed(Classify(synthesize(r.engineCall.value).exception))
  {
    match Admit(settings, state, request)
    case Err(e) => TtsResult(Failed(e), None)
    case Ok(call) =>
      match synthesize(call)
      case Wav(content) => TtsResult(Audio(content, MEDIA_TYPE), Some(call))
      case Threw(exception) => TtsResult(Failed(Classify(exception)), Some(call))
  }

  /** Every failure the handler produces is a 503, a 400 or a 500, unless the synthesis
      step itself raised an HTTPException, which passes through. */
  lemma TtsStatusCodes(settings: Settings, state: EngineState, request: TtsRequest,
                                          synthesize: GenerationCall -> SynthesisOutcome)
    requires Tts(settings, state, request, synthesize).reply.Failed?
    ensures var r := Tts(settings, state, request, synthesize);
            r.reply.error.status in {400, 500, 503} ||
            (r.engineCall.Some? && synthesize(r.engineCall.value) ==
               Threw(HTTPException(r.reply.error.status, r.reply.error.detail)))
  {
  }

  /** Text made only of whitespace is refused with 400 by a loaded sidecar, and never
      reaches the engine, whatever the engine would do. */
  lemma BlankTextRefused(settings: Settings, state: EngineState, request: TtsRequest,
                                            synthesize: GenerationCall -> SynthesisOutcome)
    requires state.Ready()
    requires forall k :: 0 <= k < |request.text| ==> IsSpace(request.text[k])
    ensures Tts(settings, state, request, synthesize) == TtsResult(Failed(EMPTY_TEXT), None)
  {
  }

  /** Text longer than the ceiling, with no whitespace at its ends to strip, is refused
      with 400 naming the ceiling, and never reaches the engine. */
  lemma LongTextRefused(settings: Settings, state: EngineState, request: TtsRequest,
                                           synthesize: GenerationCall -> SynthesisOutcome)
    requires state.Ready() && settings.Valid()
    requires Stripped(request.text) && |request.text| > settings.textMaxChars
    ensures Tts(settings, state, request, synthesize) == TtsResult(Failed(TooLong(settings.textMaxChars)), None)
  {
  }

  /** Start-up followed by one request. If a load step raised, the request gets 503 and
      the engine is never invoked; otherwise an admissible request reaches the engine
      with the published model, on the resolved device, at the precision that device
      calls for. */
  method ServeAfterStartUp(settings: Settings, deviceEnv: Option<string>, cudaAvailable: bool,
                           failing: Option<LoadStep>, request: TtsRequest,
                           synthesize: GenerationCall -> SynthesisOutcome)
    returns (health: HealthReport, result: TtsResult)
    ensures health.ok <==> failing.None?
    ensures failing.Some? ==> result == TtsResult(Failed(NOT_LOADED), None)
    ensures failing.None? && 1 <= |Strip(request.text)| <= settings.textMaxChars ==>
              result.engineCall.Some? &&
              result.engineCall.value.device == Device.ResolveDevice(deviceEnv, cudaAvailable) &&
              result.engineCall.value.model.modelId == settings.modelId &&
              (result.engineCall.value.model.dtype == BFloat16 <==>
                 StartsWith(result.engineCall.value.device, Device.CUDA))
  {
    var sidecar := new Sidecar(settings.modelId);
    var _ := sidecar.EnsureLoaded(deviceEnv, cudaAvailable, failing);
    health := Healthz(sidecar.modelId, sidecar.Snapshot());
    result := Tts(settings, sidecar.Snapshot(), request, synthesize);
  }
}
