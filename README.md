# react-copy-to-clipboard-lite: the copy engines, the textarea fallback and the copy hook, in Dafny

This project models the core of a small browser library that copies text to the
system clipboard. The model has five modules:

- `CopyTypes` (`types.dfy`) holds the shared types. A `CopyResult` always has `success`
  and `copyMethod`, and may have a `code` and an `error` cause. `WellFormed` is the
  invariant every engine result keeps.
- `Fallback` (`fallback.dfy`) is the textarea writer `copyViaExecCommand`. The document
  is a `Document` object whose body is a sequence of elements. The writer appends a
  hidden, read-only textarea, selects its contents and runs the legacy copy command.
  Its cleanup always runs: it clears the selection (any error there is swallowed) and
  removes the element. Each browser call comes in as an injected outcome (`DomBehaviour`).
  The method is proved to return `FallbackOutcome` and to leave the body exactly as it was.
- `TieredEngine` (`copy_to_clipboard.dfy`) is the engine `copyToClipboard`. The host is
  a `Platform` record of capability outcomes. What the engine does is an ordered list of
  `Effect`s: the permission probe, the clipboard write, scheduling the delayed clear, and
  running the fallback. `CopyToClipboard` follows the source step by step, including its
  `skipClipboardApi` flag. It is proved equal to `Tiered`, a tier-by-tier definition
  whose contract states the result invariant, the order of effects, and when each kind
  of result happens.
- `OneTierEngine` (`copy.dfy`) is the older engine `copy`. It makes one clipboard
  write and otherwise reports "unsupported". Lemmas compare it with the tiered engine
  on the same host.
- `UseCopyToClipboard` (`use_copy_to_clipboard.dfy`) is the hook. The class `CopyHook`
  has the `copied` and `error` cells and a list of pending auto-reset timers. `Copy`,
  `Reset` and `Fire` are its operations. Each is proved against the step functions
  `AfterCopy`, `AfterReset` and `AfterFire`. Lemmas about runs of events then show:
  - the hook's invariant;
  - what `error` holds after any run;
  - that timers are never cancelled.

Outside effects are modelled as parameters:
- browser capabilities and their answers;
- what the fallback writer returns (`Platform.fallback`);
- the engine that the hook calls.

The hook takes its engine as a function parameter. The source's import lines do not
match its exports: `src/react/useCopyToClipboard.ts:2` imports `copyToClipboard` from
`src/core/copy.ts`, which exports only `copy`. A parameter avoids choosing one engine.

Behaviours of the code that the model keeps as written:
- `reset()` does not cancel a pending timer, and neither does a new success (src/react/useCopyToClipboard.ts:19-22, 34). `StaleTimerCutsShortLaterCopy` shows the consequence: an earlier timer clears `copied` before the later copy's delay has passed.
- The hook neither clears its timers when the component unmounts nor checks whether it is still mounted before updating state.
- After a failure without a cause, the hook stores a generic `Error("Copy failed")` (src/react/useCopyToClipboard.ts:36); it never stores the result's code.
- Of the hook's own options, only `clearAfter` reaches the engine (src/react/useCopyToClipboard.ts:26-29). The library's test src/react/__tests__/useCopyToClipboard.test.tsx:39-50 expects hook-level `permissions` to be forwarded too; the code does not do that.

## Model

| member | source | states |
|---|---|---|
| CopyTypes.WellFormedMethods | src/core/types.ts:20-29 | in a well-formed result, a failure's method is "unsupported" or "failed" and nothing else |
| Fallback.FallbackOutcome | src/core/fallback.ts:7-48 | no document gives `{ok:false, error: Error("NO_DOCUMENT")}`; `ok` holds exactly when focus, select and setSelectionRange complete and the command returns true; a missing command gives false; the cause thrown by the first throwing call among focus, select, setSelectionRange and the command becomes `error`; a success has no error |
| Fallback.CleanupNeverChangesOutcome | src/core/fallback.ts:36-41 | the outcome of the selection cleanup (clears, missing, throws) never changes the writer's result |
| Fallback.RemoveId | src/core/fallback.ts:43-45 | removing the element by id leaves exactly the body's elements with other ids, never grows the body, and changes nothing when it is not attached |
| Fallback.RemoveAppended | src/core/fallback.ts:24-45 | appending a fresh element and removing it restores the body exactly |
| Fallback.Document.CreateTextArea | src/core/fallback.ts:14 | a new textarea gets an id that no element in the body has |
| Fallback.Document.AppendChild | src/core/fallback.ts:24 | the element is added at the end of the body |
| Fallback.Document.RemoveChild | src/core/fallback.ts:43-45 | the body afterwards is the body without that element |
| Fallback.CopyViaExecCommand | src/core/fallback.ts:7-49 | returns FallbackOutcome for any browser behaviour; the body ends as it started; exactly one element was appended: `text`, read-only, with the fixed/off-screen/opacity 0/`pre` style; the selection covers 0 to `|text|` when focus and select complete and cleanup did not clear it; otherwise it is unchanged, or cleared when cleanup succeeded |
| TieredEngine.MapError | src/core/copyToClipboard.ts:14-20 | "SecurityError" maps to SECURITY_ERROR and "NotAllowedError" to PERMISSION_DENIED, both exactly; every other cause, or no cause, maps to UNKNOWN |
| TieredEngine.Tiered | src/core/copyToClipboard.ts:22-94 | the result is well formed (success exactly on the two working tiers, a code on every failure); effects come in the fixed order; no browser gives unsupported/NO_BROWSER_SUPPORT with no effects; clipboard-api, exec-command and failed each arise exactly when their tier decides; failed carries `mapError(cause)` and the cause; unsupported carries INSECURE_CONTEXT exactly when the context is insecure |
| TieredEngine.CopyToClipboard | src/core/copyToClipboard.ts:22-94 | the step-by-step engine returns exactly Tiered's result and effects, and its result is well formed |
| TieredEngine.NoBrowserTouchesNothing | src/core/copyToClipboard.ts:26-32 | without window or document the result is unsupported/NO_BROWSER_SUPPORT and there is no probe, no write and no fallback |
| TieredEngine.ProbeGuard | src/core/copyToClipboard.ts:36-41 | the permission probe runs exactly when the context is secure, `permissions` is not "none" and `query` exists |
| TieredEngine.OnlyDenialSkipsTier1 | src/core/copyToClipboard.ts:42-50 | a throwing query, "granted" or "prompt" give the same result as no probe; only "denied" can skip Tier 1 |
| TieredEngine.WriteGuard | src/core/copyToClipboard.ts:53-59 | the clipboard is written exactly when Tier 1 is attempted, and only with `text`: a secure context, `writeText` present, and no denial |
| TieredEngine.ClearGuard | src/core/copyToClipboard.ts:61-65 | a clear with delay `ms` is scheduled exactly when the result is clipboard-api and `clearAfter` is `ms > 0` |
| TieredEngine.ClipboardSuccessShortCircuits | src/core/copyToClipboard.ts:58-67 | a clipboard-api result follows a write of `text`, and the fallback does not run |
| TieredEngine.RejectionFallsThrough | src/core/copyToClipboard.ts:68-70 | a rejected write gives the same result as a missing `writeText`: the later tiers decide |
| TieredEngine.FallbackGuard | src/core/copyToClipboard.ts:74-75 | the fallback runs with `text` exactly when there is a window and a document, Tier 1 did not succeed and `queryCommandSupported("copy")` is true |
| TieredEngine.FailuresAreClassified | src/core/copyToClipboard.ts:81-93 | every failing result carries a code and has method unsupported or failed |
| OneTierEngine.Copy | src/core/copy.ts:5-32 | well-formed result; success exactly with window and a resolving `writeText`, and then method clipboard-api; any failure is exactly unsupported/NO_BROWSER_SUPPORT; the effects are one write of exactly `text` when there is a window and `writeText`, and none otherwise |
| OneTierEngine.OptionsIgnored | src/core/copy.ts:5-8 | the result and effects do not depend on the options |
| OneTierEngine.AgreesOnTier1 | src/core/copy.ts:17-21 | on a secure host with a document and no denial, `copy` succeeds exactly when the tiered engine ends in clipboard-api |
| OneTierEngine.TieredClipboardSuccessIsOneTierSuccess | src/core/copy.ts:17-21 | whenever the tiered engine succeeds through the clipboard API, `copy` returns the same result after the same single write |
| OneTierEngine.OneTierIgnoresSecureContext | src/core/copy.ts:17-21 | in an insecure context with a resolving `writeText` (a substituted `navigator.clipboard`; standard browsers expose it only in secure contexts), `copy` writes and succeeds while the tiered engine never writes |
| OneTierEngine.TieredReachesFurther | src/core/copy.ts:17-31 | without `writeText`, a supported and succeeding fallback makes the tiered engine succeed with exec-command where `copy` reports unsupported |
| UseCopyToClipboard.MergeClearAfter | src/react/useCopyToClipboard.ts:26-29 | the engine gets the per-call `clearAfter` when given, else the hook's |
| UseCopyToClipboard.MergeIgnoresHookOtherwise | src/react/useCopyToClipboard.ts:26-29 | `permissions` comes from the per-call options alone; hook options do not affect it |
| UseCopyToClipboard.ResetIdempotent | src/react/useCopyToClipboard.ts:19-22 | reset twice equals reset once, and reset leaves pending timers untouched |
| UseCopyToClipboard.FireRemovesItsTimer | src/react/useCopyToClipboard.ts:34 | a firing timer sets `copied` false, keeps `error`, and removes exactly its own entry |
| UseCopyToClipboard.FailureRecordsError | src/react/useCopyToClipboard.ts:35-37 | a failure sets `error` to the result's cause, or to `Error("Copy failed")`, and leaves `copied` and the timers unchanged |
| UseCopyToClipboard.SuccessArmsOneTimer | src/react/useCopyToClipboard.ts:30-34 | a success sets `copied`, clears `error`, keeps the old timers and adds one timer exactly when the delay is positive |
| UseCopyToClipboard.RunKeepsInv | src/react/useCopyToClipboard.ts:30-34 | every run of copies, resets and firings keeps the invariant: pending timers carry the hook's delay, there are none when it is not positive, and a shown `copied` with a positive delay has a timer pending |
| UseCopyToClipboard.CopiedAlwaysHasPendingReset | src/react/useCopyToClipboard.ts:16-34 | from the initial state, `copied` with a positive delay always has an auto-reset pending; with a non-positive delay no timer is ever started |
| UseCopyToClipboard.ErrorIsLatestFailure | src/react/useCopyToClipboard.ts:19-37 | after any run, `error` is the cause of the latest failure unless a success or reset came later; timers never touch it |
| UseCopyToClipboard.TimersNeverCancelled | src/react/useCopyToClipboard.ts:19-34 | without firings the pending list only grows at its end: neither copy nor reset cancels a timer |
| UseCopyToClipboard.StaleTimerCutsShortLaterCopy | src/react/useCopyToClipboard.ts:30-34 | after two successes, the first timer clears `copied` while the second copy's timer is still pending |
| UseCopyToClipboard.FailureAfterSuccessShowsBoth | src/react/useCopyToClipboard.ts:30-37 | a failure after a success leaves `copied` true beside the new error |
| UseCopyToClipboard.CopyHook.constructor | src/react/useCopyToClipboard.ts:16-17 | the hook starts with `copied=false`, `error=null`, no timer, and delay `timeout ?? 2000`, satisfying the hook invariant |
| UseCopyToClipboard.CopyHook.Copy | src/react/useCopyToClipboard.ts:24-41 | the engine is called with `text` and the merged options; its result is returned unchanged; the new state is AfterCopy of the old; the hook invariant `Inv` (every timer carries the delay, a shown `copied` has a reset pending) is kept |
| UseCopyToClipboard.CopyHook.Reset | src/react/useCopyToClipboard.ts:19-22 | the new state is AfterReset of the old, and the hook invariant is kept |
| UseCopyToClipboard.CopyHook.Fire | src/react/useCopyToClipboard.ts:34 | the new state is AfterFire of the old for the entry that fired, and the hook invariant is kept |

## Left out

- Real browser calls are outcomes chosen by the caller: the Async Clipboard API, permissions, `execCommand`, focus and the Selection API. So are `await` and `setTimeout`. The model does not cover what lands on the clipboard, or the delayed clear's own write and its swallowed failure. That write is only the `ScheduleClear` effect.
- The tiered engine does not call `Fallback.CopyViaExecCommand` on a document. It receives that writer's result as `Platform.fallback`, so the body-restoring guarantee is stated on the writer alone.
- Time, overlapping copies and interleavings of awaits are not modelled. A timer is an entry in the pending list, and it fires when the `Fire` step takes it out.
- Hook options are fixed for the hook's lifetime. Re-rendering with new options, which rebuilds the callback, is not modelled.
- Millisecond values are whole numbers (`int`). NaN, infinities and fractional delays are not modelled.
- A thrown `null` or `undefined` is not modelled. Every thrown value is a `Cause`.
- Focus and styling have no effect in the model. The style values are recorded on the element only.
- src/react/CopyToClipboard.tsx, the click wrapper, is not part of this model. It only forwards a click.
- src/react/copyToClipboardAction.ts and src/react/actions.ts, the FormData adapters, are not part of this model. Their only logic is a default for the form's "text" value.
- The re-export files src/index.ts, src/core.ts and src/react.ts are not part of this model.
- Fallback.CopyViaExecCommand: the document always has a body. When `document.body` is null, `appendChild` (src/core/fallback.ts:24) sits outside the `try` and throws a TypeError. That error escapes the writer and makes `copyToClipboard` reject (src/core/copyToClipboard.ts:75 is not guarded). The model cannot represent this path.
- Fallback.CopyViaExecCommand: the textarea's `value` is `text` unchanged, and the selection ends at `|text|`. A real textarea turns CR and CRLF into LF, and `.length` (src/core/fallback.ts:31) counts UTF-16 code units. So in a browser the end of the selection is the length of the normalised value in code units, which can differ from `|text|`.
