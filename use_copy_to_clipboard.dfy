/**
 * The stateful copy hook (src/react/useCopyToClipboard.ts): the `copied`
 * and `error` state cells, and the auto-reset timers each success starts.
 *
 * The engine the hook calls is a parameter. Timers are an explicit list of
 * pending entries; a timer firing is a separate step that takes its entry out
 * of the list. As in the source, no timer is ever cancelled.
 */
module UseCopyToClipboard {
  import opened CopyTypes

  /** The hook's own options, fixed for the hook's lifetime. */
  datatype HookOptions = HookOptions(timeout: Option<int>, clearAfter: Option<int>)

  /** `opts?.timeout ?? 2000`: the auto-reset delay. */
  function ResetDelay(opts: HookOptions): int {
    opts.timeout.GetOr(2000)
  }

  /**
   * `{...options, clearAfter: options?.clearAfter ?? opts?.clearAfter}`: the
   * per-call options, with the hook's `clearAfter` filling a missing one.
   */
  function MergeOptions(options: Option<CopyOptions>, hookClearAfter: Option<int>): CopyOptions {
    var perCall := options.GetOr(NoOptions);
    CopyOptions(if perCall.clearAfter.Some? then perCall.clearAfter else hookClearAfter, perCall.permissions)
  }

  /** A per-call `clearAfter` wins; without one the hook's is used. */
  lemma MergeClearAfter(options: Option<CopyOptions>, hookClearAfter: Option<int>)
    ensures options.Some? && options.value.clearAfter.Some?
            ==> MergeOptions(options, hookClearAfter).clearAfter == options.value.clearAfter
    ensures (options.None? || options.value.clearAfter.None?)
            ==> MergeOptions(options, hookClearAfter).clearAfter == hookClearAfter
  {
  }

  /** The hook's options contribute nothing but `clearAfter`; `permissions` come from the call only. */
  lemma MergeIgnoresHookOtherwise(options: Option<CopyOptions>, c1: Option<int>, c2: Option<int>)
    ensures MergeOptions(options, c1).permissions == MergeOptions(options, c2).permissions
    ensures MergeOptions(options, c1).permissions == (if options.Some? then options.value.permissions else None)
  {
  }

  /** A pending `setTimeout(() => setCopied(false), delay)`. */
  datatype Timer = Timer(delay: int)

  /** The hook's observable state plus its pending timers. */
  datatype HookState = HookState(copied: bool, error: Option<Cause>, pending: seq<Timer>)

  const Initial: HookState := HookState(false, None, [])

  /** The state after an engine call resolved with `r`. */
  function AfterCopy(s: HookState, delay: int, r: CopyResult): HookState {
    if r.success then
      HookState(true, None, s.pending + (if delay > 0 then [Timer(delay)] else []))
    else
      s.(error := Some(r.error.GetOr(CopyFailedError)))
  }

  /** The state after `reset()`. */
  function AfterReset(s: HookState): HookState {
    s.(copied := false, error := None)
  }

  /** The state after the `i`-th pending timer fired. */
  function AfterFire(s: HookState, i: nat): HookState
    requires i < |s.pending|
  {
    s.(copied := false, pending := s.pending[..i] + s.pending[i + 1..])
  }

  /** `reset()` twice is `reset()` once, and it touches no timer. */
  lemma ResetIdempotent(s: HookState)
    ensures AfterReset(AfterReset(s)) == AfterReset(s)
    ensures AfterReset(s).pending == s.pending
  {
  }

  /** A firing timer clears `copied`, leaves `error` alone and takes exactly its own entry out. */
  lemma FireRemovesItsTimer(s: HookState, i: nat)
    requires i < |s.pending|
    ensures !AfterFire(s, i).copied && AfterFire(s, i).error == s.error
    ensures multiset(AfterFire(s, i).pending) + multiset{s.pending[i]} == multiset(s.pending)
  {
    assert s.pending == s.pending[..i] + [s.pending[i]] + s.pending[i + 1..];
  }

  /** A failed call records its cause, or the generic "Copy failed" error, and leaves `copied` and the timers alone. */
  lemma FailureRecordsError(s: HookState, delay: int, r: CopyResult)
    requires !r.success
    ensures AfterCopy(s, delay, r).copied == s.copied
    ensures AfterCopy(s, delay, r).pending == s.pending
    ensures AfterCopy(s, delay, r).error == (if r.error.Some? then r.error else Some(Error("Copy failed")))
  {
  }

  /** A success shows `copied`, clears `error` and arms at most one new timer, with the hook's delay. */
  lemma SuccessArmsOneTimer(s: HookState, delay: int, r: CopyResult)
    requires r.success
    ensures AfterCopy(s, delay, r).copied && AfterCopy(s, delay, r).error.None?
    ensures |AfterCopy(s, delay, r).pending| == |s.pending| + (if delay > 0 then 1 else 0)
    ensures AfterCopy(s, delay, r).pending[..|s.pending|] == s.pending
    ensures delay > 0 ==> AfterCopy(s, delay, r).pending[|s.pending|] == Timer(delay)
  {
  }

  // Runs of the hook: what happens to it, as a list of events.

  datatype Event = Resolved(result: CopyResult) | ResetCalled | TimerFired(index: nat)

  /** One event; a `TimerFired` naming no pending timer cannot happen and changes nothing. */
  function Step(s: HookState, delay: int, e: Event): HookState {
    match e
    case Resolved(r) => AfterCopy(s, delay, r)
    case ResetCalled => AfterReset(s)
    case TimerFired(i) => if i < |s.pending| then AfterFire(s, i) else s
  }

  function Run(s: HookState, delay: int, events: seq<Event>): HookState
    decreases |events|
  {
    if events == [] then s
    else Step(Run(s, delay, events[..|events| - 1]), delay, events[|events| - 1])
  }

  /**
   * The hook's invariant: every pending timer carries the hook's delay, there
   * are none when the delay is not positive, and while `copied` shows with a
   * positive delay some timer is pending that will clear it.
   */
  predicate Inv(delay: int, s: HookState) {
    && (forall k | 0 <= k < |s.pending| :: s.pending[k] == Timer(delay))
    && (delay <= 0 ==> s.pending == [])
    && (delay > 0 && s.copied ==> s.pending != [])
  }

  lemma StepKeepsInv(delay: int, s: HookState, e: Event)
    requires Inv(delay, s)
    ensures Inv(delay, Step(s, delay, e))
  {
    match e
    case TimerFired(i) =>
      if i < |s.pending| {
        var t := AfterFire(s, i);
        forall k | 0 <= k < |t.pending| ensures t.pending[k] == Timer(delay) {
          if k < i {
            assert t.pending[k] == s.pending[k];
          } else {
            assert t.pending[k] == s.pending[k + 1];
          }
        }
      }
    case _ =>
  }

  /** Every run from a state that keeps the invariant keeps it. */
  lemma {:induction false} RunKeepsInv(delay: int, s: HookState, events: seq<Event>)
    requires Inv(delay, s)
    ensures Inv(delay, Run(s, delay, events))
    decreases |events|
  {
    if events != [] {
      RunKeepsInv(delay, s, events[..|events| - 1]);
      StepKeepsInv(delay, Run(s, delay, events[..|events| - 1]), events[|events| - 1]);
    }
  }

  /**
   * From the initial state, whatever happens: with a positive delay, a shown
   * `copied` always has an auto-reset pending; with a non-positive delay no
   * timer is ever started, so `copied` stays until `reset()`.
   */
  lemma CopiedAlwaysHasPendingReset(delay: int, events: seq<Event>)
    ensures delay > 0 && Run(Initial, delay, events).copied ==> Run(Initial, delay, events).pending != []
    ensures delay <= 0 ==> Run(Initial, delay, events).pending == []
  {
    RunKeepsInv(delay, Initial, events);
  }

  /**
   * A reference for `error`: the cause of the latest failure, unless a success
   * or a `reset()` came after it; timers never touch it.
   */
  function LatestError(start: Option<Cause>, events: seq<Event>): Option<Cause>
    decreases |events|
  {
    if events == [] then start
    else match events[|events| - 1]
      case Resolved(r) =>
        if r.success then None else Some(r.error.GetOr(CopyFailedError))
      case ResetCalled => None
      case TimerFired(_) => LatestError(start, events[..|events| - 1])
  }

  lemma {:induction false} ErrorIsLatestFailure(s: HookState, delay: int, events: seq<Event>)
    ensures Run(s, delay, events).error == LatestError(s.error, events)
    decreases |events|
  {
    if events != [] {
      ErrorIsLatestFailure(s, delay, events[..|events| - 1]);
    }
  }

  /** Neither a copy nor a reset cancels a timer: without firings, the pending list only grows at its end. */
  lemma {:induction false} TimersNeverCancelled(s: HookState, delay: int, events: seq<Event>)
    requires forall k | 0 <= k < |events| :: !events[k].TimerFired?
    ensures |s.pending| <= |Run(s, delay, events).pending|
    ensures Run(s, delay, events).pending[..|s.pending|] == s.pending
    decreases |events|
  {
    if events != [] {
      var prefix := events[..|events| - 1];
      TimersNeverCancelled(s, delay, prefix);
      var before := Run(s, delay, prefix);
      assert before.pending[..|s.pending|] == s.pending;
      var after := Run(s, delay, events);
      assert after.pending == before.pending || after.pending == before.pending + [Timer(delay)];
      assert after.pending[..|s.pending|] == before.pending[..|s.pending|];
    }
  }

  const Success: CopyResult := CopyResult(true, ClipboardApi, None, None)

  /**
   * Because timers are never cancelled, the timer of an earlier success clears
   * `copied` while the timer of a later success is still pending: the later
   * copy is shown for less than its delay.
   */
  lemma StaleTimerCutsShortLaterCopy(delay: int)
    requires delay > 0
    ensures Run(Initial, delay, [Resolved(Success), Resolved(Success)]).copied
    ensures Run(Initial, delay, [Resolved(Success), Resolved(Success), TimerFired(0)]).copied == false
    ensures Run(Initial, delay, [Resolved(Success), Resolved(Success), TimerFired(0)]).pending == [Timer(delay)]
  {
    var one := [Resolved(Success)];
    var two := [Resolved(Success), Resolved(Success)];
    var three := [Resolved(Success), Resolved(Success), TimerFired(0)];
    assert one[..0] == [] && two[..1] == one && three[..2] == two;
    assert Run(Initial, delay, one) == HookState(true, None, [Timer(delay)]);
    assert Run(Initial, delay, two) == HookState(true, None, [Timer(delay), Timer(delay)]);
    assert [Timer(delay), Timer(delay)][..0] + [Timer(delay), Timer(delay)][1..] == [Timer(delay)];
    assert Run(Initial, delay, three) == AfterFire(Run(Initial, delay, two), 0);
  }

  /** A failure after a success leaves `copied` showing next to the new error. */
  lemma FailureAfterSuccessShowsBoth(delay: int, cause: Cause)
    ensures Run(Initial, delay, [Resolved(Success), Resolved(CopyResult(false, Failed, Some(Unknown), Some(cause)))])
            == HookState(true, Some(cause), if delay > 0 then [Timer(delay)] else [])
  {
    var failure := Resolved(CopyResult(false, Failed, Some(Unknown), Some(cause)));
    var events := [Resolved(Success), failure];
    assert events[..1] == [Resolved(Success)] && [Resolved(Success)][..0] == [];
    var first := Run(Initial, delay, [Resolved(Success)]);
    assert first == Step(Run(Initial, delay, []), delay, Resolved(Success));
    assert first == AfterCopy(Initial, delay, Success);
    assert first == HookState(true, None, if delay > 0 then [Timer(delay)] else []);
    assert Run(Initial, delay, events) == Step(first, delay, failure);
  }

  /** The hook instance: its two state cells and the timers it has started. */
  class CopyHook {
    const delay: int
    const clearAfter: Option<int>
    var copied: bool
    var error: Option<Cause>
    var pending: seq<Timer>

    function State(): HookState
      reads this
    {
      HookState(copied, error, pending)
    }

    /** The hook invariant holds of the current state. */
    ghost predicate Valid()
      reads this
    {
      Inv(delay, State())
    }

    /** `useCopyToClipboard(opts)`: `copied=false`, `error=null`, no timer. */
    constructor (opts: HookOptions)
      ensures State() == Initial && Valid()
      ensures delay == ResetDelay(opts) && clearAfter == opts.clearAfter
    {
      delay := ResetDelay(opts);
      clearAfter := opts.clearAfter;
      copied := false;
      error := None;
      pending := [];
    }

    /**
     * The `copyToClipboard` closure: calls the engine with the merged options,
     * updates the state from the result, and returns the result unchanged.
     */
    method Copy(text: string, options: Option<CopyOptions>, engine: (string, CopyOptions) -> CopyResult)
      returns (r: CopyResult)
      requires Valid()
      modifies this
      ensures Valid()
      ensures r == engine(text, MergeOptions(options, clearAfter))
      ensures State() == AfterCopy(old(State()), delay, r)
    {
      ghost var s0 := State();
      StepKeepsInv(delay, s0, Resolved(engine(text, MergeOptions(options, clearAfter))));
      r := engine(text, MergeOptions(options, clearAfter));
      if r.success {
        copied := true;
        error := None;
        var ms := delay;
        if ms > 0 {
          pending := pending + [Timer(ms)];
        }
      } else {
        error := Some(r.error.GetOr(CopyFailedError));
      }
    }

    /** `reset()`. */
    method Reset()
      requires Valid()
      modifies this
      ensures Valid()
      ensures State() == AfterReset(old(State()))
    {
      StepKeepsInv(delay, State(), ResetCalled);
      copied := false;
      error := None;
    }

    /** The `i`-th pending timer fires: `setCopied(false)`. */
    method Fire(i: nat)
      requires Valid() && i < |pending|
      modifies this
      ensures Valid()
      ensures State() == AfterFire(old(State()), i)
    {
      StepKeepsInv(delay, State(), TimerFired(i));
      pending := pending[..i] + pending[i + 1..];
      copied := false;
    }
  }
}
