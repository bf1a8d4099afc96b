# Kugelaudio TTS sidecar: admission and lifecycle core

A Dafny model of the text-to-speech sidecar in `services/kugelaudio-tts/app.py`. The sidecar
loads one inference model and its processor lazily into three process-wide variables
(`MODEL`, `PROCESSOR`, `DEVICE`). It reports readiness on `/healthz` and serves `/v1/tts`.
The model covers:

- the configuration parsers and the settings read from the environment at import time
  (`Config`);
- device selection (`Device`);
- the load lifecycle as a class whose fields are the three variables, with `EnsureLoaded`
  as its one state-changing method (`Engine`);
- the request handler's admission checks, parameter resolution and exception-to-status
  mapping (`Tts`).

The Python built-ins the handler relies on are modelled in their own modules: `str.strip()`,
`str.lower()` and `str.startswith()` in `PyText`, and `int()` and `str()` on integers in
`PyInt`.

Parameters stand in for the things the code cannot see:
- the environment variables, as optional strings;
- `torch.cuda.is_available()`, as a boolean;
- which library call of a load raises, as an optional `LoadStep`;
- Python's `float()`, as a function `string -> Option<Float>`;
- the work inside and after the generation lock, as a function from the `GenerationCall`
  to WAV bytes or a raised exception.

A Python float is the datatype `Float`: finite (a `real`), an infinity, or NaN.
`Tts.Tts` returns the reply together with the call it made to the synthesis step, if it
made one. This is how "what reaches generation" is stated.

Files: `wrappers.dfy`, `pytext.dfy`, `pyint.dfy`, `config.dfy`, `device.dfy`,
`engine.dfy`, `tts.dfy`.

## Model

| member | source | states |
|---|---|---|
| `PyText.Strip` | services/kugelaudio-tts/app.py:123 | the result is a slice of the input with only whitespace (Python's `str.isspace` set) outside it and none at its ends |
| `PyText.StripOfUnique` | services/kugelaudio-tts/app.py:123 | that slice is unique, so `Strip` is the only function meeting its contract |
| `PyText.StripIdempotent` | services/kugelaudio-tts/app.py:123 | stripping twice gives the same string as stripping once |
| `PyText.StripEmptyIffAllSpace` | services/kugelaudio-tts/app.py:123-125 | the stripped text is empty exactly when every character is whitespace |
| `PyText.StripBy` | services/kugelaudio-tts/app.py:24 | stripping by any whitespace set gives a slice of the input with only that set's characters outside it and none at its ends (used for `int()`'s narrower set) |
| `PyText.StartsWith` | services/kugelaudio-tts/app.py:66 | `s.startswith(p)` holds exactly when `p` is no longer than `s` and agrees with it character by character |
| `PyText.Lower` | services/kugelaudio-tts/app.py:64 | same length; no upper-case ASCII letter remains; each character is kept or is its upper-case letter lowered |
| `PyText.LowerKeepsStripped` | services/kugelaudio-tts/app.py:64 | lowering a stripped string leaves it stripped |
| `PyInt.ParseInt` | services/kugelaudio-tts/app.py:24 | `int(s)` for base 10: surrounding ASCII whitespace " \t\n\v\f\r" or non-ASCII whitespace, an optional sign, digits with single underscores between digits; anything else is None (ValueError); a parse implies non-blank input |
| `PyInt.SeparatorNeverSkipped` | services/kugelaudio-tts/app.py:24 | any string starting with one of U+001C..U+001F makes `int()` raise ValueError, although those characters are whitespace to `str.isspace()` |
| `PyInt.NatToString` | services/kugelaudio-tts/app.py:127 | `str(n)` for n >= 0 is its canonical decimal form: digits only, no leading zero (just "0" for zero), with decimal value n |
| `PyInt.IntToString` | services/kugelaudio-tts/app.py:127 | `str(n)` is the canonical decimal form: a '-' exactly when n < 0, then only digits, with no leading zero (just "0" for zero) |
| `PyInt.ParseIntToString` | services/kugelaudio-tts/app.py:24 | `int(str(n)) == n` for every integer n |
| `Config.ParsePositiveInt` | services/kugelaudio-tts/app.py:20-29 | the result is the fallback or a positive parsed value; a positive parse always wins; positive whenever the fallback is |
| `Config.ParsePositiveIntOfDecimal` | services/kugelaudio-tts/app.py:20-29 | the decimal form of n gives n if n > 0 and the fallback otherwise |
| `Config.ParsePositiveFloatAsWritten` | services/kugelaudio-tts/app.py:32-41 | the result is the fallback or a parsed value that fails `<= 0`, and a parsed value failing `<= 0` is always returned |
| `Config.AsWrittenAdmitsNaN` | services/kugelaudio-tts/app.py:36-39 | with `float("nan")` the as-written parser returns NaN, which is not positive, despite the positive fallback 3.0 |
| `Config.ParsePositiveFloat` | services/kugelaudio-tts/app.py:32-41 | corrected parser: an environment value is used only when it is positive; the result is positive whenever the fallback is |
| `Config.CorrectedAgreesExceptOnNaN` | services/kugelaudio-tts/app.py:32-41 | the corrected and as-written parsers agree on every input that does not parse as NaN |
| `Config.ModelId` | services/kugelaudio-tts/app.py:44 | MODEL_ID is non-empty and stripped; it is the stripped variable when that is non-empty, else the default model |
| `Config.DefaultVoice` | services/kugelaudio-tts/app.py:48 | DEFAULT_VOICE is None or a stripped non-empty string, present exactly when the stripped variable is non-empty |
| `Config.LoadSettings` | services/kugelaudio-tts/app.py:44-48 | each setting is its parser applied to its environment variable; every environment yields valid settings (positive limits and defaults, a well-formed voice); an empty environment yields the documented defaults |
| `Device.ResolveDevice` | services/kugelaudio-tts/app.py:63-69 | never a CUDA device when CUDA is unavailable; without an override, "cuda" exactly when available, else "cpu"; an override is returned stripped and lowered unless it is an unavailable CUDA device; the result is non-empty |
| `Device.Configured` | services/kugelaudio-tts/app.py:64 | the configured value is stripped and lower-case, and empty exactly when the stripped variable is |
| `Device.OverrideKept` | services/kugelaudio-tts/app.py:65-68 | a non-blank override is returned as configured unless it is a CUDA device and CUDA is unavailable |
| `Engine.Sidecar.constructor` | services/kugelaudio-tts/app.py:50-52 | initial state: MODEL and PROCESSOR None, DEVICE "cpu" |
| `Engine.Sidecar.EnsureLoaded` | services/kugelaudio-tts/app.py:72-93 | when loaded, returns with all three variables unchanged; otherwise DEVICE becomes `resolve_device()`, then MODEL and PROCESSOR are both published from MODEL_ID, at bfloat16 exactly when DEVICE starts with "cuda", if no step raises, and neither is assigned if one does; MODEL and PROCESSOR stay both set or both unset |
| `Engine.Healthz` | services/kugelaudio-tts/app.py:109-115 | `ok` exactly when MODEL and PROCESSOR are both set; reports MODEL_ID and DEVICE; as a function of the state it changes nothing |
| `Engine.StartUp` | services/kugelaudio-tts/app.py:96-115 | health before the load is not ready with DEVICE "cpu"; after `ensure_loaded` it is ready exactly when no load step raised, with the resolved device, never CUDA without CUDA |
| `Engine.LoadTwice` | services/kugelaudio-tts/app.py:77-78 | after a successful load, a second load with any inputs returns and changes nothing; the precision matches the device, float32 without CUDA |
| `Tts.ResolveVoice` | services/kugelaudio-tts/app.py:129 | the stripped request voice when non-empty, else DEFAULT_VOICE; a well-formed voice or None whenever the default is |
| `Tts.ResolveCfgScale` | services/kugelaudio-tts/app.py:130 | a positive request value wins, otherwise the default; positive whenever the default is |
| `Tts.ResolveMaxTokens` | services/kugelaudio-tts/app.py:131 | a positive request value wins, otherwise the default; positive whenever the default is |
| `Tts.TooLong` | services/kugelaudio-tts/app.py:127 | a 400 whose detail is the fixed prefix, then `str(TEXT_MAX_CHARS)` in canonical decimal form, which `int()` reads back, then ")" |
| `Tts.Admit` | services/kugelaudio-tts/app.py:120-131 | 503 when not loaded, whatever the text; then 400 for blank text; then 400 naming the ceiling for stripped text over TEXT_MAX_CHARS; admitted exactly when loaded and 1 <= stripped length <= ceiling, with the published components and resolved parameters, all positive under valid settings |
| `Tts.Classify` | services/kugelaudio-tts/app.py:164-169 | ValueError becomes 400 with its message, HTTPException passes through, any other exception becomes 500 |
| `Tts.Tts` | services/kugelaudio-tts/app.py:118-169 | a rejected request never reaches the engine; an admitted one reaches it with exactly the call `Admit` built (published components, stripped text of length 1..TEXT_MAX_CHARS, resolved and, under valid settings, positive parameters); the engine's bytes come back as `audio/wav`, its exceptions classified |
| `Tts.TtsStatusCodes` | services/kugelaudio-tts/app.py:120-169 | every failure is 400, 500 or 503, unless the engine step raised an HTTPException that passed through |
| `Tts.BlankTextRefused` | services/kugelaudio-tts/app.py:123-125 | all-whitespace text on a loaded sidecar is 400 "text must not be empty" and never reaches the engine |
| `Tts.LongTextRefused` | services/kugelaudio-tts/app.py:126-127 | unpadded text over the ceiling is 400 naming the ceiling and never reaches the engine |
| `Tts.ServeAfterStartUp` | services/kugelaudio-tts/app.py:96-131 | if the load raised, a request handled afterwards gets 503 without reaching the engine; after a successful load an admissible request reaches it with the model from MODEL_ID on the resolved device at the matching precision |

Facts about the code that the model keeps:
- `resolve_device` falls back to "cpu" only for overrides that start with "cuda". Any other override, such as "mps", is returned as configured.
- `tts` checks that the model is loaded before it looks at the text.
- A ValueError raised during generation becomes 400, like the validation failures.
- `ensure_loaded` does not catch or retry a failing load step. The exception leaves it with `MODEL` and `PROCESSOR` unassigned (`LoadResult.Raised`).

## Left out

- `GENERATE_LOCK` and the asyncio scheduling: the model is sequential. The critical section and everything after it is one atomic step, `synthesize`, so mutual exclusion and release of the lock are not modelled.
- The model and processor library calls (`from_pretrained`, `.to`, `eval`, `strip_encoders`) are foreign. They are opaque steps that may raise. A handle records only its model identifier, precision, device and preparation flags.
- `PROCESSOR(...)`, moving tensors to the device, `MODEL.generate`, output normalisation, the `sampling_rate` lookup with its 24000 default, and `sf.write` all involve tensors, floating-point arrays or an audio library. Together they are the abstract `synthesize` function: WAV bytes or a raised exception.
- Floating point: Python's `float()` on a string is an abstract parameter. Finite floats are reals, so rounding to binary64 is not modelled.
- `os.getenv`, `torch.cuda.is_available()`, FastAPI routing, `lifespan` wiring and pydantic validation of `TtsRequest` are outside this model. For example, pydantic rejects an empty `text` with 422 before the handler runs. Environment values and request fields are parameters.
- `Engine.StartUp`, `Tts.ServeAfterStartUp`: these put a failed load, then a health check or a request, in one sequence. The served program does not go through that sequence. `lifespan` calls `ensure_loaded()` unguarded, so under an ASGI server a load failure fails application start-up and no request is served. The 503 of `tts` is reached only when the handler runs without a successful load.
- `Tts.Classify`: covers only exceptions derived from `Exception`. Exceptions derived only from `BaseException` leave the handler unclassified, for example `asyncio.CancelledError` while waiting on `GENERATE_LOCK`, or `KeyboardInterrupt`.
- `PyText.Lower`: only ASCII letters are lowered. Python's full Unicode case mapping, which can change a string's length, is not modelled.
- `PyInt.ParseInt`: only ASCII digits are accepted. Python also accepts other Unicode decimal digits. The conversion limit of recent Python versions (4300 digits) is not modelled.
- `Config.LoadSettings`: builds DEFAULT_CFG_SCALE with the corrected `Config.ParsePositiveFloat`. On an environment value of "nan", app.py instead yields NaN (see Findings).

## Findings

| source | as written | input that shows it | evidently intended | confidence | as-written member | corrected member |
|---|---|---|---|---|---|---|
| services/kugelaudio-tts/app.py:32-41 | falls back only when `parsed <= 0`, a comparison that NaN fails, so a NaN parse is returned | `KUGELAUDIO_DEFAULT_CFG_SCALE=nan` makes DEFAULT_CFG_SCALE NaN, which is then the cfg scale of every request without one | return the parsed value only when it is positive (`parsed > 0`), otherwise the fallback | high; not executed | `Config.ParsePositiveFloatAsWritten`, shown by `Config.AsWrittenAdmitsNaN` | `Config.ParsePositiveFloat` |
