/**
 * The older one-tier engine (src/core/copy.ts): one Async Clipboard write,
 * otherwise "unsupported". It looks neither at the document, nor at the
 * secure-context flag, nor at its options.
 */
module OneTierEngine {
  import opened CopyTypes
  import opened TieredEngine

  /** `copy(text, _options)` on the given host. */
  function Copy(text: string, options: Option<CopyOptions>, p: Platform): (out: Outcome)
    ensures WellFormed(out.result)
    ensures out.result.success <==> p.hasWindow && p.writeText == WriteResolves
    ensures out.result.success <==> out.result.copyMethod == ClipboardApi
    ensures !out.result.success ==> out.result == CopyResult(false, Unsupported, Some(NoBrowserSupport), None)
    ensures forall k | 0 <= k < |out.effects| :: out.effects[k] == WriteText(text)
    ensures |out.effects| <= 1 && (out.result.success ==> out.effects == [WriteText(text)])
    ensures out.effects == (if p.hasWindow && !p.writeText.WriteAbsent? then [WriteText(text)] else [])
  {
    if !p.hasWindow then Outcome(UnsupportedResult(NoBrowserSupport), [])
    else if !p.writeText.WriteAbsent? then
      if p.writeText == WriteResolves then Outcome(Succeeded(ClipboardApi), [WriteText(text)])
      else Outcome(UnsupportedResult(NoBrowserSupport), [WriteText(text)])
    else Outcome(UnsupportedResult(NoBrowserSupport), [])
  }

  /** The options argument is unused. */
  lemma OptionsIgnored(text: string, o1: Option<CopyOptions>, o2: Option<CopyOptions>, p: Platform)
    ensures Copy(text, o1, p) == Copy(text, o2, p)
  {
  }

  /**
   * Where the tiered engine reaches its Tier 1 unhindered (a browser, a secure
   * context, no denial), the two engines agree on whether the Async Clipboard
   * write succeeds.
   */
  lemma AgreesOnTier1(text: string, o: Option<CopyOptions>, options: CopyOptions, p: Platform)
    requires p.hasWindow && p.hasDocument && p.isSecureContext
    requires !Tier1Skipped(options, p)
    ensures Copy(text, o, p).result.success <==> Tiered(text, options, p).result.copyMethod == ClipboardApi
  {
  }

  /** A Tier 1 success of the tiered engine is a success of the one-tier engine, with the same write. */
  lemma TieredClipboardSuccessIsOneTierSuccess(text: string, o: Option<CopyOptions>, options: CopyOptions, p: Platform)
    requires Tiered(text, options, p).result.copyMethod == ClipboardApi
    ensures Copy(text, o, p).result == Tiered(text, options, p).result
    ensures Copy(text, o, p).effects == [WriteText(text)]
    ensures WriteText(text) in Tiered(text, options, p).effects
  {
  }

  /**
   * The one-tier engine writes even in an insecure context, where the tiered
   * engine never calls `writeText`. Standard browsers expose
   * `navigator.clipboard` only in secure contexts, so such a host arises
   * with a substituted `navigator.clipboard` (a test double), not in a
   * standard browser.
   */
  lemma OneTierIgnoresSecureContext(text: string, o: Option<CopyOptions>, options: CopyOptions, p: Platform)
    requires p.hasWindow && !p.isSecureContext && p.writeText == WriteResolves
    ensures Copy(text, o, p).result.success
    ensures WriteText(text) !in Tiered(text, options, p).effects
  {
  }

  /**
   * Without `writeText`, the tiered engine can still succeed through the
   * fallback, where the one-tier engine reports "unsupported".
   */
  lemma TieredReachesFurther(text: string, o: Option<CopyOptions>, options: CopyOptions, p: Platform)
    requires p.hasWindow && p.hasDocument && p.writeText == WriteAbsent
    requires p.commandSupport == SupportQuery(true) && p.fallback.ok
    ensures Tiered(text, options, p).result.copyMethod == ExecCommand
    ensures Copy(text, o, p).result.copyMethod == Unsupported
  {
  }
}
