/** Device selection at load time (services/kugelaudio-tts/app.py:63-69). */
module Device {
  import opened Wrappers
  import opened PyText

  const CUDA := "cuda"
  const CPU := "cpu"

  /** `(os.getenv("KUGELAUDIO_DEVICE") or "").strip().lower()`: no whitespace at its ends,
      no upper-case letter, and empty exactly when the stripped variable is. */
  function Configured(deviceEnv: Option<string>): (r: string)
    ensures Stripped(r)
    ensures forall k :: 0 <= k < |r| ==> !IsUpper(r[k])
    ensures (r == []) == (Strip(deviceEnv.GetOr("")) == [])
  {
    StripIsStripped(deviceEnv.GetOr(""));
    LowerKeepsStripped(Strip(deviceEnv.GetOr("")));
    Lower(Strip(deviceEnv.GetOr("")))
  }

  /** `resolve_device()`: `deviceEnv` is the value of KUGELAUDIO_DEVICE and `cudaAvailable`
      what `torch.cuda.is_available()` reports. An override is honoured except that a
      CUDA device is replaced by "cpu" when CUDA is unavailable; without an override the
      device is "cuda" exactly when CUDA is available. */
  function ResolveDevice(deviceEnv: Option<string>, cudaAvailable: bool): (r: string)
    ensures !cudaAvailable ==> !StartsWith(r, CUDA)
    ensures r != [] && Stripped(r)
    ensures forall k :: 0 <= k < |r| ==> !IsUpper(r[k])
    ensures Strip(deviceEnv.GetOr("")) == [] ==> r == (if cudaAvailable then CUDA else CPU)
    ensures Strip(deviceEnv.GetOr("")) != [] ==>
              r == Configured(deviceEnv) || (r == CPU && !cudaAvailable && StartsWith(Configured(deviceEnv), CUDA))
  {
    var configured := Configured(deviceEnv);
    NamesAreNormal();
    if configured != [] then
      if StartsWith(configured, CUDA) && !cudaAvailable then CPU else configured
    else if cudaAvailable then CUDA
    else CPU
  }

  lemma NamesAreNormal()
    ensures Stripped(CUDA) && Stripped(CPU)
    ensures forall k :: 0 <= k < |CUDA| ==> !IsUpper(CUDA[k])
    ensures forall k :: 0 <= k < |CPU| ==> !IsUpper(CPU[k])
    ensures !StartsWith(CPU, CUDA)
  {
  }

  /** A configured device is kept whenever it is not a CUDA device, or CUDA is available. */
  lemma OverrideKept(deviceEnv: Option<string>, cudaAvailable: bool)
    requires Strip(deviceEnv.GetOr("")) != []
    requires cudaAvailable || !StartsWith(Configured(deviceEnv), CUDA)
    ensures ResolveDevice(deviceEnv, cudaAvailable) == Configured(deviceEnv)
  {
  }
}
