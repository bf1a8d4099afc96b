/** Process configuration: the fallback parsers and the settings the sidecar reads from
    its environment once, at import time (services/kugelaudio-tts/app.py:20-48). */
module Config {
  import opened Wrappers
  import opened PyText
  import opened PyInt

  /** A Python float, as far as comparisons with zero can tell: a finite value (both
      zeros are `Finite(0.0)`), an infinity, or NaN. */
  datatype Float = Finite(x: real) | Infinity(negative: bool) | NaN

  /** IEEE `f <= 0`: false for NaN. */
  predicate AtMostZero(f: Float) {
    match f
    case Finite(x) => x <= 0.0
    case Infinity(negative) => negative
    case NaN => false
  }

  /** IEEE `f > 0`: false for NaN. */
  predicate Positive(f: Float) {
    match f
    case Finite(x) => x > 0.0
    case Infinity(negative) => !negative
    case NaN => false
  }

  /** `parse_positive_int(value, fallback)`: the parsed value when `value` is present,
      parses as an int and is positive; the fallback otherwise. */
  function ParsePositiveInt(value: Option<string>, fallback: int): (r: int)
    ensures fallback > 0 ==> r > 0
    ensures r == fallback || (value.Some? && ParseInt(value.value) == Some(r) && r > 0)
    ensures value.Some? && ParseInt(value.value).Some? && ParseInt(value.value).value > 0 ==>
              r == ParseInt(value.value).value
  {
    match value
    case None => fallback
    case Some(s) =>
      match ParseInt(s)
      case None => fallback
      case Some(parsed) => if parsed <= 0 then fallback else parsed
  }

  /** The decimal form of a positive number is read back; that of any other number
      gives the fallback. */
  lemma ParsePositiveIntOfDecimal(n: int, fallback: int)
    ensures ParsePositiveInt(Some(IntToString(n)), fallback) == if n > 0 then n else fallback
  {
    ParseIntToString(n);
  }

  /** `parse_positive_float(value, fallback)` exactly as written: it falls back only when
      `parsed <= 0`, a comparison NaN fails, so a NaN parse is returned. `parseFloat` is
      Python's `float()` on a `str`, None meaning it raised ValueError. */
  function ParsePositiveFloatAsWritten(value: Option<string>, parseFloat: string -> Option<Float>, fallback: Float): (r: Float)
    ensures r == fallback || (value.Some? && parseFloat(value.value) == Some(r) && !AtMostZero(r))
    ensures value.Some? && parseFloat(value.value).Some? && !AtMostZero(parseFloat(value.value).value) ==>
              r == parseFloat(value.value).value
  {
    match value
    case None => fallback
    case Some(s) =>
      match parseFloat(s)
      case None => fallback
      case Some(parsed) => if AtMostZero(parsed) then fallback else parsed
  }

  /** Python's `float("nan")` is NaN, and the as-written parser hands it back even with a
      positive fallback: its result is then not positive. */
  lemma AsWrittenAdmitsNaN(parseFloat: string -> Option<Float>)
    requires parseFloat("nan") == Some(NaN)
    ensures ParsePositiveFloatAsWritten(Some("nan"), parseFloat, Finite(3.0)) == NaN
    ensures !Positive(ParsePositiveFloatAsWritten(Some("nan"), parseFloat, Finite(3.0)))
  {
  }

  /** `parse_positive_float` as its name intends: the parsed value only when it is
      positive (`parsed > 0`, which NaN fails), the fallback otherwise. */
  function ParsePositiveFloat(value: Option<string>, parseFloat: string -> Option<Float>, fallback: Float): (r: Float)
    ensures Positive(fallback) ==> Positive(r)
    ensures r == fallback || (value.Some? && parseFloat(value.value) == Some(r) && Positive(r))
    ensures value.Some? && parseFloat(value.value).Some? && Positive(parseFloat(value.value).value) ==>
              r == parseFloat(value.value).value
  {
    match value
    case None => fallback
    case Some(s) =>
      match parseFloat(s)
      case None => fallback
      case Some(parsed) => if Positive(parsed) then parsed else fallback
  }

  /** The correction changes nothing unless the environment value parses as NaN. */
  lemma CorrectedAgreesExceptOnNaN(value: Option<string>, parseFloat: string -> Option<Float>, fallback: Float)
    requires value.Some? ==> parseFloat(value.value) != Some(NaN)
    ensures ParsePositiveFloat(value, parseFloat, fallback) == ParsePositiveFloatAsWritten(value, parseFloat, fallback)
  {
  }

  const DEFAULT_MODEL_ID := "kugelaudio/kugelaudio-0-open"
  const DEFAULT_TEXT_MAX_CHARS := 4000
  const DEFAULT_CFG_SCALE := Finite(3.0)
  const DEFAULT_MAX_TOKENS := 2048

  /** The environment variables read at import time; None when a variable is unset. */
  datatype Environment = Environment(
    modelId: Option<string>,           // KUGELAUDIO_MODEL_ID
    textMaxChars: Option<string>,      // KUGELAUDIO_TEXT_MAX_CHARS
    defaultCfgScale: Option<string>,   // KUGELAUDIO_DEFAULT_CFG_SCALE
    defaultMaxTokens: Option<string>,  // KUGELAUDIO_DEFAULT_MAX_TOKENS
    defaultVoice: Option<string>)      // KUGELAUDIO_DEFAULT_VOICE

  /** A voice setting: unset, or a non-empty string with no whitespace at its ends. */
  predicate IsVoice(v: Option<string>) {
    v.Some? ==> v.value != [] && Stripped(v.value)
  }

  /** MODEL_ID, TEXT_MAX_CHARS, DEFAULT_CFG_SCALE, DEFAULT_MAX_TOKENS, DEFAULT_VOICE. */
  datatype Settings = Settings(
    modelId: string,
    textMaxChars: int,
    defaultCfgScale: Float,
    defaultMaxTokens: int,
    defaultVoice: Option<string>)
  {
    /** What every settings value read from an environment satisfies. */
    predicate Valid() {
      modelId != [] && Stripped(modelId) && textMaxChars > 0 && Positive(defaultCfgScale) &&
      defaultMaxTokens > 0 && IsVoice(defaultVoice)
    }
  }

  /** `os.getenv(KEY, default).strip() or default`: the trimmed value when it is non-empty,
      the default model otherwise. */
  function ModelId(value: Option<string>): (r: string)
    ensures r != [] && Stripped(r)
    ensures value.Some? && Strip(value.value) != [] ==> r == Strip(value.value)
    ensures r == DEFAULT_MODEL_ID || (value.Some? && r == Strip(value.value))
  {
    StrippedIsFixed(DEFAULT_MODEL_ID);
    var trimmed := Strip(value.GetOr(DEFAULT_MODEL_ID));
    StripIsStripped(value.GetOr(DEFAULT_MODEL_ID));
    if trimmed == [] then DEFAULT_MODEL_ID else trimmed
  }

  /** `(os.getenv(KEY) or "").strip() or None`: never an empty string. */
  function DefaultVoice(value: Option<string>): (r: Option<string>)
    ensures IsVoice(r)
    ensures r.Some? <==> value.Some? && Strip(value.value) != []
    ensures r.Some? ==> r.value == Strip(value.value)
  {
    var trimmed := Strip(value.GetOr(""));
    StripIsStripped(value.GetOr(""));
    if trimmed == [] then None else Some(trimmed)
  }

  /** The settings resolved from the environment; `parseFloat` is Python's `float()`. */
  function LoadSettings(env: Environment, parseFloat: string -> Option<Float>): (r: Settings)
    ensures r.Valid()
    ensures r.modelId == ModelId(env.modelId)
    ensures r.textMaxChars == ParsePositiveInt(env.textMaxChars, DEFAULT_TEXT_MAX_CHARS)
    ensures r.defaultCfgScale == ParsePositiveFloat(env.defaultCfgScale, parseFloat, DEFAULT_CFG_SCALE)
    ensures r.defaultMaxTokens == ParsePositiveInt(env.defaultMaxTokens, DEFAULT_MAX_TOKENS)
    ensures r.defaultVoice == DefaultVoice(env.defaultVoice)
    ensures env == Environment(None, None, None, None, None) ==>
              r == Settings(DEFAULT_MODEL_ID, DEFAULT_TEXT_MAX_CHARS, DEFAULT_CFG_SCALE, DEFAULT_MAX_TOKENS, None)
  {
    Settings(
      ModelId(env.modelId),
      ParsePositiveInt(env.textMaxChars, DEFAULT_TEXT_MAX_CHARS),
      ParsePositiveFloat(env.defaultCfgScale, parseFloat, DEFAULT_CFG_SCALE),
      ParsePositiveInt(env.defaultMaxTokens, DEFAULT_MAX_TOKENS),
      DefaultVoice(env.defaultVoice))
  }
}
