/**
 * The shared result and option types of the clipboard library
 * (src/core/types.ts), plus the opaque "cause" values that the
 * engines carry in a result's `error` field.
 */
module CopyTypes {

  datatype Option<+T> = None | Some(value: T) {
    /** `x ?? d` in the source: the value when present, else the default. */
    function GetOr(default: T): T {
      match this
      case Some(v) => v
      case None => default
    }
  }

  /** Which strategy produced a result (the four string literals of CopyMethod). */
  datatype CopyMethod = ClipboardApi | ExecCommand | Unsupported | Failed

  /** The five structured error codes. */
  datatype CopyErrorCode =
    | SecurityError
    | PermissionDenied
    | InsecureContext
    | NoBrowserSupport
    | Unknown

  /**
   * A thrown or reported cause, which the source keeps as `unknown`.
   * A DOMException is known only by its `name`; an `Error` by its message;
   * any other thrown value is opaque and told apart only by a tag.
   */
  datatype Cause =
    | DomException(name: string)
    | Error(message: string)
    | Opaque(tag: nat)

  /** `new Error("NO_DOCUMENT")`, reported by the fallback writer without a document. */
  const NoDocumentError: Cause := Error("NO_DOCUMENT")

  /** `new Error("Copy failed")`, the hook's stand-in for a failure without a cause. */
  const CopyFailedError: Cause := Error("Copy failed")

  /** A CopyResult: `success` and `method` always, `code` and `error` optional. */
  datatype CopyResult = CopyResult(
    success: bool,
    copyMethod: CopyMethod,
    code: Option<CopyErrorCode>,
    error: Option<Cause>)

  /** `"auto"` or `"none"` for the `permissions` option. */
  datatype PermissionMode = PermissionsAuto | PermissionsNone

  /**
   * CopyOptions. `clearAfter` is a delay in whole milliseconds (the source's
   * `number`); a clear is a best-effort write of "" and never a restore.
   */
  datatype CopyOptions = CopyOptions(
    clearAfter: Option<int>,
    permissions: Option<PermissionMode>)

  /** `{}`, the engine's default options. */
  const NoOptions: CopyOptions := CopyOptions(None, None)

  /** A successful result of the given tier. */
  function Succeeded(m: CopyMethod): CopyResult
  {
    CopyResult(true, m, None, None)
  }

  /** `{success: false, method: "unsupported", code}`. */
  function UnsupportedResult(code: CopyErrorCode): CopyResult
  {
    CopyResult(false, Unsupported, Some(code), None)
  }

  /**
   * The invariant every engine result keeps: success exactly on the two
   * working tiers, a code on every failure, and nothing extra on success.
   */
  predicate WellFormed(r: CopyResult) {
    && (r.success <==> r.copyMethod == ClipboardApi || r.copyMethod == ExecCommand)
    && (!r.success ==> r.code.Some?)
    && (r.success ==> r.code.None? && r.error.None?)
  }

  /** What a successful tier never is, and a failure never is, stated for any well-formed result. */
  lemma WellFormedMethods(r: CopyResult)
    requires WellFormed(r)
    ensures !r.success <==> r.copyMethod == Unsupported || r.copyMethod == Failed
  {
  }
}
