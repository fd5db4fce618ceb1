/**
 * The tiered copy engine (src/core/copyToClipboard.ts).
 *
 * The browser is a `Platform` record of capability outcomes; what the engine
 * does to the outside world is an ordered list of `Effect`s. `Tiered` states
 * the engine declaratively, tier by tier; the method `CopyToClipboard`
 * follows the source step by step and is proved to agree with it.
 */
module TieredEngine {
  import opened CopyTypes
  import opened Fallback

  /** The state a `navigator.permissions.query` resolves with. */
  datatype PermissionState = Granted | Denied | Prompt

  /** `navigator.permissions?.query`: missing, throws or rejects, or resolves. */
  datatype PermissionQuery = QueryAbsent | QueryThrows | QueryResolves(state: PermissionState)

  /** `navigator.clipboard?.writeText`: missing, resolves, or rejects. */
  datatype ClipboardWrite = WriteAbsent | WriteResolves | WriteRejects

  /** `document.queryCommandSupported?.("copy")`: missing, or its answer. */
  datatype CommandSupport = SupportQueryAbsent | SupportQuery(supported: bool)

  /**
   * The host as the engine sees it. `fallback` is what the textarea writer
   * (Fallback.CopyViaExecCommand) returns on this host when it is called.
   */
  datatype Platform = Platform(
    hasWindow: bool,
    hasDocument: bool,
    isSecureContext: bool,
    permissionQuery: PermissionQuery,
    writeText: ClipboardWrite,
    commandSupport: CommandSupport,
    fallback: FallbackResult)

  /**
   * What the engine does, in order: the permission probe, an Async Clipboard
   * write, scheduling the delayed clear (a later write of ""), and running
   * the textarea fallback.
   */
  datatype Effect =
    | QueryPermission
    | WriteText(text: string)
    | ScheduleClear(delay: int)
    | RunFallback(text: string)

  datatype Outcome = Outcome(result: CopyResult, effects: seq<Effect>)

  /** `mapError`: classifies the fallback's captured cause. */
  function MapError(error: Option<Cause>): (code: CopyErrorCode)
    ensures code == SecurityError <==> error == Some(DomException("SecurityError"))
    ensures code == PermissionDenied <==> error == Some(DomException("NotAllowedError"))
    ensures code == SecurityError || code == PermissionDenied || code == Unknown
  {
    match error
    case Some(DomException(name)) =>
      if name == "SecurityError" then SecurityError
      else if name == "NotAllowedError" then PermissionDenied
      else Unknown
    case _ => Unknown
  }

  // The conditions under which each step of the engine happens.

  predicate BrowserPresent(p: Platform) {
    p.hasWindow && p.hasDocument
  }

  predicate ProbeRuns(o: CopyOptions, p: Platform) {
    BrowserPresent(p) && p.isSecureContext && o.permissions != Some(PermissionsNone)
    && !p.permissionQuery.QueryAbsent?
  }

  predicate Tier1Skipped(o: CopyOptions, p: Platform) {
    ProbeRuns(o, p) && p.permissionQuery == QueryResolves(Denied)
  }

  predicate Tier1Attempted(o: CopyOptions, p: Platform) {
    BrowserPresent(p) && !Tier1Skipped(o, p) && !p.writeText.WriteAbsent? && p.isSecureContext
  }

  predicate Tier1Succeeds(o: CopyOptions, p: Platform) {
    Tier1Attempted(o, p) && p.writeText == WriteResolves
  }

  predicate ClearScheduled(o: CopyOptions, p: Platform) {
    Tier1Succeeds(o, p) && o.clearAfter.Some? && o.clearAfter.value > 0
  }

  predicate FallbackRuns(o: CopyOptions, p: Platform) {
    BrowserPresent(p) && !Tier1Succeeds(o, p) && p.commandSupport == SupportQuery(true)
  }

  function Occurs(b: bool, e: Effect): seq<Effect> {
    if b then [e] else []
  }

  /** The position of each kind of effect in the engine's fixed order. */
  function Rank(e: Effect): nat {
    match e
    case QueryPermission => 0
    case WriteText(_) => 1
    case ScheduleClear(_) => 2
    case RunFallback(_) => 3
  }

  /** Effects happen in the fixed order, each kind at most once. */
  predicate Ordered(effects: seq<Effect>) {
    forall i, j | 0 <= i < j < |effects| :: Rank(effects[i]) < Rank(effects[j])
  }

  /**
   * The engine, tier by tier. Its result keeps the result invariant, its
   * effects come in order, and each kind of result arises exactly when the
   * corresponding tier decides it.
   */
  function Tiered(text: string, o: CopyOptions, p: Platform): (out: Outcome)
    ensures WellFormed(out.result)
    ensures Ordered(out.effects)
    ensures !BrowserPresent(p) ==> out == Outcome(UnsupportedResult(NoBrowserSupport), [])
    ensures out.result.copyMethod == ClipboardApi <==> Tier1Succeeds(o, p)
    ensures out.result.copyMethod == ExecCommand <==> FallbackRuns(o, p) && p.fallback.ok
    ensures out.result.copyMethod == Failed <==> FallbackRuns(o, p) && !p.fallback.ok
    ensures out.result.copyMethod == Failed
            ==> out.result.code == Some(MapError(p.fallback.error)) && out.result.error == p.fallback.error
    ensures out.result.copyMethod == Unsupported
            ==> out.result.code == Some(if BrowserPresent(p) && !p.isSecureContext then InsecureContext else NoBrowserSupport)
                && out.result.error.None?
  {
    if !BrowserPresent(p) then Outcome(UnsupportedResult(NoBrowserSupport), [])
    else
      var effects :=
        Occurs(ProbeRuns(o, p), QueryPermission)
        + Occurs(Tier1Attempted(o, p), WriteText(text))
        + Occurs(ClearScheduled(o, p), ScheduleClear(o.clearAfter.GetOr(0)))
        + Occurs(FallbackRuns(o, p), RunFallback(text));
      var result :=
        if Tier1Succeeds(o, p) then Succeeded(ClipboardApi)
        else if FallbackRuns(o, p) then
          if p.fallback.ok then Succeeded(ExecCommand)
          else CopyResult(false, Failed, Some(MapError(p.fallback.error)), p.fallback.error)
        else UnsupportedResult(if p.isSecureContext then NoBrowserSupport else InsecureContext);
      Outcome(result, effects)
  }

  /**
   * `copyToClipboard(text, options)`: the environment check, the optional
   * probe that may set `skipClipboardApi`, Tier 1 with its optional clear,
   * then the command check and the fallback, then "unsupported".
   */
  method CopyToClipboard(text: string, options: CopyOptions, p: Platform)
    returns (r: CopyResult, effects: seq<Effect>)
    ensures Outcome(r, effects) == Tiered(text, options, p)
    ensures WellFormed(r)
  {
    effects := [];
    if !p.hasWindow || !p.hasDocument {
      return UnsupportedResult(NoBrowserSupport), effects;
    }

    var isSecure := p.isSecureContext;

    var skipClipboardApi := false;
    if isSecure && options.permissions != Some(PermissionsNone) && !p.permissionQuery.QueryAbsent? {
      effects := effects + [QueryPermission];
      match p.permissionQuery
      case QueryResolves(state) =>
        if state == Denied {
          skipClipboardApi := true;
        }
      case _ =>
        // a throwing query is ignored
    }

    // Tier 1: Async Clipboard API, secure contexts only
    if !skipClipboardApi && !p.writeText.WriteAbsent? && isSecure {
      effects := effects + [WriteText(text)];
      if p.writeText == WriteResolves {
        if options.clearAfter.Some? && options.clearAfter.value > 0 {
          effects := effects + [ScheduleClear(options.clearAfter.value)];
        }
        return Succeeded(ClipboardApi), effects;
      }
      // a rejected write falls through
    }

    // Tier 2: command check, then the textarea fallback
    if p.commandSupport == SupportQuery(true) {
      effects := effects + [RunFallback(text)];
      var fb := p.fallback;
      if fb.ok {
        return Succeeded(ExecCommand), effects;
      }
      return CopyResult(false, Failed, Some(MapError(fb.error)), fb.error), effects;
    }

    return UnsupportedResult(if isSecure then NoBrowserSupport else InsecureContext), effects;
  }

  /** With no window or no document nothing is probed, written or run. */
  lemma NoBrowserTouchesNothing(text: string, o: CopyOptions, p: Platform)
    requires !p.hasWindow || !p.hasDocument
    ensures Tiered(text, o, p).result == CopyResult(false, Unsupported, Some(NoBrowserSupport), None)
    ensures Tiered(text, o, p).effects == []
  {
  }

  /** The probe runs exactly when the context is secure, permissions are not "none" and `query` exists. */
  lemma ProbeGuard(text: string, o: CopyOptions, p: Platform)
    ensures QueryPermission in Tiered(text, o, p).effects
            <==> p.hasWindow && p.hasDocument && p.isSecureContext
                 && o.permissions != Some(PermissionsNone) && p.permissionQuery != QueryAbsent
  {
  }

  /** Only a "denied" answer matters: a throwing query, "granted" or "prompt" give the result of no probe. */
  lemma OnlyDenialSkipsTier1(text: string, o: CopyOptions, p: Platform)
    requires p.permissionQuery != QueryResolves(Denied)
    ensures Tiered(text, o, p).result == Tiered(text, o, p.(permissionQuery := QueryAbsent)).result
  {
  }

  /**
   * The clipboard is written exactly when Tier 1 is attempted (a secure
   * context, `writeText` present, no denial), and only with `text`.
   */
  lemma WriteGuard(text: string, o: CopyOptions, p: Platform, s: string)
    ensures WriteText(s) in Tiered(text, o, p).effects <==> Tier1Attempted(o, p) && s == text
    ensures WriteText(s) in Tiered(text, o, p).effects
            ==> p.isSecureContext && p.writeText != WriteAbsent
                && !(ProbeRuns(o, p) && p.permissionQuery == QueryResolves(Denied))
  {
  }

  /**
   * A clear is scheduled only after a successful Tier 1 write, only for a
   * positive `clearAfter`, and with exactly that delay.
   */
  lemma ClearGuard(text: string, o: CopyOptions, p: Platform, ms: int)
    ensures ScheduleClear(ms) in Tiered(text, o, p).effects
            <==> Tiered(text, o, p).result.copyMethod == ClipboardApi && o.clearAfter == Some(ms) && ms > 0
  {
  }

  /** A Tier 1 success ends the call: the fallback does not run. */
  lemma ClipboardSuccessShortCircuits(text: string, o: CopyOptions, p: Platform)
    requires Tiered(text, o, p).result.copyMethod == ClipboardApi
    ensures RunFallback(text) !in Tiered(text, o, p).effects
    ensures WriteText(text) in Tiered(text, o, p).effects
  {
  }

  /** A rejected write is as if `writeText` were missing: the later tiers decide. */
  lemma RejectionFallsThrough(text: string, o: CopyOptions, p: Platform)
    requires p.writeText == WriteRejects
    ensures Tiered(text, o, p).result == Tiered(text, o, p.(writeText := WriteAbsent)).result
  {
  }

  /**
   * The fallback runs with `text` exactly when there is a browser, Tier 1 did
   * not succeed and `queryCommandSupported("copy")` answered true.
   */
  lemma FallbackGuard(text: string, o: CopyOptions, p: Platform, s: string)
    ensures RunFallback(s) in Tiered(text, o, p).effects <==> FallbackRuns(o, p) && s == text
    ensures RunFallback(s) in Tiered(text, o, p).effects
            ==> p.hasWindow && p.hasDocument && p.commandSupport == SupportQuery(true)
                && Tiered(text, o, p).result.copyMethod != ClipboardApi
  {
  }

  /** Every failure carries a code, and "failed" carries the fallback's own cause. */
  lemma FailuresAreClassified(text: string, o: CopyOptions, p: Platform)
    requires !Tiered(text, o, p).result.success
    ensures Tiered(text, o, p).result.code.Some?
    ensures Tiered(text, o, p).result.copyMethod == Unsupported || Tiered(text, o, p).result.copyMethod == Failed
  {
  }
}
