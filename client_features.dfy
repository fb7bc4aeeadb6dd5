/**
 * `KnipClientFeatures`: reacts to the language server's status. On `started` it sends the
 * custom `knip.start` request once per session, and it drives the start-up progress indicator
 * through the `analysisComplete` flag and its latch.
 */
module ClientFeatures {
  import opened Wrappers

  const REQUEST_START: string := "knip.start"
  const REQUEST_STOP: string := "knip.stop"
  const REQUEST_RESTART: string := "knip.restart"

  const PROGRESS_TITLE: string := "Knip"
  const PROGRESS_STARTING: string := "Starting language server..."
  const PROGRESS_ANALYZING: string := "Analyzing project for unused code..."

  /** LSP4IJ's `ServerStatus`. */
  datatype ServerStatus = NoStatus | Starting | Started | Stopping | Stopped

  /**
   * How the `knip.start` attempt ends; the server's initialisation, the endpoint extraction and
   * the request itself are the environment. `InitFailed`: `initializedServer` completes
   * exceptionally, so the `thenAccept` block never runs.
   */
  datatype SessionOutcome = InitFailed | NullServer | NoEndpoint | RequestFailed | Threw | Succeeded

  /**
   * The client's fields: the session flag, `analysisComplete`, the latch's count (`None`
   * while `analysisLatch` is null) and the text of the current progress indicator (`None`
   * while there is none).
   */
  datatype Features = Features(
    knipSessionStarted: bool, analysisComplete: bool, latch: Option<nat>, indicatorText: Option<string>)

  const INITIAL: Features := Features(false, false, None, None)

  /** `CountDownLatch.countDown()`: one step towards zero, and no further. */
  function CountDown(latch: Option<nat>): (r: Option<nat>)
    ensures r.None? <==> latch.None?
    ensures latch.Some? && latch.value > 0 ==> r.value == latch.value - 1
    ensures latch.Some? && latch.value == 0 ==> r.value == 0
  {
    match latch
    case None => None
    case Some(n) => Some(if n > 0 then n - 1 else 0)
  }

  /** `finishProgress`. */
  function Finish(s: Features): Features {
    s.(analysisComplete := true, latch := CountDown(s.latch))
  }

  /** Finishing marks the analysis complete and opens the latch; doing it twice is doing it once. */
  lemma FinishIdempotent(s: Features)
    requires s.latch.Some? ==> s.latch.value <= 1
    ensures Finish(s).analysisComplete
    ensures Finish(s).latch.Some? ==> Finish(s).latch.value == 0
    ensures Finish(Finish(s)) == Finish(s)
    ensures Finish(s).knipSessionStarted == s.knipSessionStarted
  {
  }

  /** `updateProgressMessage`: only a shown indicator takes the text. */
  function WithMessage(s: Features, message: string): Features {
    if s.indicatorText.Some? then s.(indicatorText := Some(message)) else s
  }

  /**
   * `startKnipSession`: nothing without a wrapper, nor when the server's initialisation fails;
   * every other outcome finishes the progress.
   */
  function StartSession(s: Features, hasWrapper: bool, outcome: SessionOutcome): Features {
    if !hasWrapper || outcome == InitFailed then s
    else if outcome == Succeeded then Finish(s.(knipSessionStarted := true))
    else Finish(s)
  }

  /** `handleServerStatusChanged`, with the session's outcome as an input. */
  function OnStatus(s: Features, status: ServerStatus, hasWrapper: bool, outcome: SessionOutcome): Features {
    match status
    case Starting => if !hasWrapper then s else s.(analysisComplete := false, latch := Some(1))
    case Started =>
      if s.knipSessionStarted then s else StartSession(WithMessage(s, PROGRESS_ANALYZING), hasWrapper, outcome)
    case Stopping => Finish(s.(knipSessionStarted := false))
    case Stopped => Finish(s.(knipSessionStarted := false))
    case NoStatus => s
  }

  /**
   * The status transitions: stopping or stopped ends the session and completes the progress;
   * a second `started` does nothing; `starting` without a wrapper does nothing; with a wrapper,
   * every outcome of the start attempt but a failed initialisation completes the progress, a
   * failed initialisation leaves the progress as it was, and only success marks the session
   * started.
   */
  lemma StatusTransitions(s: Features, hasWrapper: bool, outcome: SessionOutcome)
    ensures !OnStatus(s, Stopped, hasWrapper, outcome).knipSessionStarted
    ensures OnStatus(s, Stopped, hasWrapper, outcome).analysisComplete
    ensures !OnStatus(s, Stopping, hasWrapper, outcome).knipSessionStarted
    ensures OnStatus(s, Stopping, hasWrapper, outcome).analysisComplete
    ensures s.knipSessionStarted ==> OnStatus(s, Started, hasWrapper, outcome) == s
    ensures !hasWrapper ==> OnStatus(s, Starting, hasWrapper, outcome) == s
    ensures hasWrapper && !s.knipSessionStarted && outcome != InitFailed ==>
      OnStatus(s, Started, hasWrapper, outcome).analysisComplete
    ensures hasWrapper && !s.knipSessionStarted ==>
      (OnStatus(s, Started, hasWrapper, outcome).knipSessionStarted <==> outcome == Succeeded)
    ensures !s.knipSessionStarted && outcome == InitFailed ==>
      && OnStatus(s, Started, hasWrapper, outcome).analysisComplete == s.analysisComplete
      && OnStatus(s, Started, hasWrapper, outcome).latch == s.latch
  {
  }

  /**
   * When the server's initialisation fails after `starting`, nothing finishes the progress: the
   * analysis stays incomplete and the latch stays closed until the server stops or the user
   * cancels.
   */
  lemma InitFailedKeepsWaiting(s: Features)
    ensures OnStatuses(s, [Starting, Started], true, [InitFailed, InitFailed]).analysisComplete == false
    ensures OnStatuses(s, [Starting, Started], true, [InitFailed, InitFailed]).latch == Some(1)
    ensures OnStatuses(s, [Starting, Started, Stopped], true, [InitFailed, InitFailed, InitFailed]).analysisComplete
  {
    var a := OnStatus(s, Starting, true, InitFailed);
    var b := OnStatus(a, Started, true, InitFailed);
    assert OnStatuses(b, [], true, []) == b;
    assert OnStatuses(a, [Started], true, [InitFailed]) == b;
    var c := OnStatus(b, Stopped, true, InitFailed);
    assert OnStatuses(c, [], true, []) == c;
    assert OnStatuses(b, [Stopped], true, [InitFailed]) == c;
    assert OnStatuses(a, [Started, Stopped], true, [InitFailed, InitFailed]) == c;
  }

  /** A run of status changes, each with its own start outcome. */
  function OnStatuses(s: Features, statuses: seq<ServerStatus>, hasWrapper: bool, outcomes: seq<SessionOutcome>): Features
    requires |outcomes| == |statuses|
    decreases |statuses|
  {
    if statuses == [] then s
    else OnStatuses(OnStatus(s, statuses[0], hasWrapper, outcomes[0]), statuses[1..], hasWrapper, outcomes[1..])
  }

  /**
   * Without a server wrapper no sequence of status changes ever marks the session started,
   * and the latch is never created.
   */
  lemma {:induction false} NoWrapperNeverStarts(s: Features, statuses: seq<ServerStatus>, outcomes: seq<SessionOutcome>)
    requires |outcomes| == |statuses|
    requires !s.knipSessionStarted && s.latch.None?
    ensures !OnStatuses(s, statuses, false, outcomes).knipSessionStarted
    ensures OnStatuses(s, statuses, false, outcomes).latch.None?
    decreases |statuses|
  {
    if statuses != [] {
      var next := OnStatus(s, statuses[0], false, outcomes[0]);
      assert !next.knipSessionStarted && next.latch.None?;
      NoWrapperNeverStarts(next, statuses[1..], outcomes[1..]);
    }
  }

  /** The lifecycle starting, started, stopping, stopped of a session that starts successfully. */
  lemma LifecycleExample()
    ensures OnStatuses(INITIAL, [Starting, Started], true, [Succeeded, Succeeded]).knipSessionStarted
    ensures !OnStatuses(INITIAL, [Starting, Started, Stopping, Stopped], true,
                        [Succeeded, Succeeded, Succeeded, Succeeded]).knipSessionStarted
  {
    var a := OnStatus(INITIAL, Starting, true, Succeeded);
    assert a == Features(false, false, Some(1), None);
    var b := OnStatus(a, Started, true, Succeeded);
    assert b.knipSessionStarted;
    assert OnStatuses(b, [], true, []) == b;
    assert OnStatuses(a, [Started], true, [Succeeded]) == b;
    var c := OnStatus(b, Stopping, true, Succeeded);
    var d := OnStatus(c, Stopped, true, Succeeded);
    assert !d.knipSessionStarted;
    assert OnStatuses(c, [Stopped], true, [Succeeded]) == d;
    assert OnStatuses(b, [Stopping, Stopped], true, [Succeeded, Succeeded]) == d;
    assert OnStatuses(a, [Started, Stopping, Stopped], true, [Succeeded, Succeeded, Succeeded]) == d;
  }

  class KnipClientFeatures {
    /** `serverWrapper != null`. */
    const hasWrapper: bool
    var knipSessionStarted: bool
    var analysisComplete: bool
    var analysisLatch: Option<nat>
    var progressIndicatorText: Option<string>

    /** The fields as a value. */
    function State(): Features
      reads this
    {
      Features(knipSessionStarted, analysisComplete, analysisLatch, progressIndicatorText)
    }

    constructor(hasWrapper: bool)
      ensures this.hasWrapper == hasWrapper && State() == INITIAL
    {
      this.hasWrapper := hasWrapper;
      knipSessionStarted := false;
      analysisComplete := false;
      analysisLatch := None;
      progressIndicatorText := None;
    }

    method FinishProgress()
      modifies this`analysisComplete, this`analysisLatch
      ensures State() == Finish(old(State()))
    {
      analysisComplete := true;
      if analysisLatch.Some? {
        var count := analysisLatch.value;
        analysisLatch := Some(if count > 0 then count - 1 else 0);
      }
    }

    /** `showStartupProgress`: returns early without a wrapper; the indicator task itself is `RunProgress`. */
    method ShowStartupProgress()
      modifies this`analysisComplete, this`analysisLatch
      ensures !hasWrapper ==> State() == old(State())
      ensures hasWrapper ==> State() == old(State()).(analysisComplete := false, latch := Some(1))
    {
      if !hasWrapper {
        return;
      }
      analysisComplete := false;
      analysisLatch := Some(1);
    }

    method UpdateProgressMessage(message: string)
      modifies this`progressIndicatorText
      ensures State() == WithMessage(old(State()), message)
    {
      if progressIndicatorText.Some? {
        progressIndicatorText := Some(message);
      }
    }

    method StartKnipSession(outcome: SessionOutcome)
      modifies this`knipSessionStarted, this`analysisComplete, this`analysisLatch
      ensures State() == StartSession(old(State()), hasWrapper, outcome)
    {
      if !hasWrapper {
        return;
      }
      match outcome {
        case InitFailed =>
        case NullServer => FinishProgress();
        case NoEndpoint => FinishProgress();
        case RequestFailed => FinishProgress();
        case Threw => FinishProgress();
        case Succeeded =>
          knipSessionStarted := true;
          FinishProgress();
      }
    }

    /** `handleServerStatusChanged`. */
    method HandleServerStatusChanged(status: ServerStatus, outcome: SessionOutcome)
      modifies this`knipSessionStarted, this`analysisComplete, this`analysisLatch, this`progressIndicatorText
      ensures State() == OnStatus(old(State()), status, hasWrapper, outcome)
    {
      match status {
        case Starting => ShowStartupProgress();
        case Started =>
          if !knipSessionStarted {
            UpdateProgressMessage(PROGRESS_ANALYZING);
            StartKnipSession(outcome);
          }
        case Stopping =>
          knipSessionStarted := false;
          FinishProgress();
        case Stopped =>
          knipSessionStarted := false;
          FinishProgress();
        case NoStatus =>
      }
    }

    /**
     * The background task of the progress indicator: it shows the "starting" text and waits,
     * one latch wait of at most 500 ms per round, until the analysis is complete or the user
     * cancels. `completeSeen[i]` and `cancelledSeen[i]` are what the `i`-th check observes.
     * `exitAt` is the first check that sees either, after which the indicator is released;
     * `None` means the observed rounds all kept waiting, with the indicator still shown.
     */
    method RunProgress(completeSeen: seq<bool>, cancelledSeen: seq<bool>) returns (exitAt: Option<nat>)
      requires |completeSeen| == |cancelledSeen|
      modifies this`progressIndicatorText
      ensures exitAt.Some? ==>
        && exitAt.value < |completeSeen| && (completeSeen[exitAt.value] || cancelledSeen[exitAt.value])
        && progressIndicatorText.None?
      ensures forall i :: 0 <= i < |completeSeen| && (exitAt.None? || i < exitAt.value) ==>
        !completeSeen[i] && !cancelledSeen[i]
      ensures exitAt.None? ==> progressIndicatorText == Some(PROGRESS_STARTING)
    {
      progressIndicatorText := Some(PROGRESS_STARTING);
      var i := 0;
      while i < |completeSeen|
        invariant i <= |completeSeen|
        invariant forall j :: 0 <= j < i ==> !completeSeen[j] && !cancelledSeen[j]
      {
        if completeSeen[i] || cancelledSeen[i] {
          progressIndicatorText := None;
          return Some(i);
        }
        i := i + 1;
      }
      exitAt := None;
    }
  }

  /**
   * Cancelling the indicator (`onCancel`) finishes the progress: the analysis counts as
   * complete and the latch counts down, which releases the waiting task; the session flag and
   * the indicator text are left alone.
   */
  method CancelProgress(f: KnipClientFeatures)
    modifies f`analysisComplete, f`analysisLatch
    ensures f.State() == Finish(old(f.State()))
    ensures f.analysisComplete && f.knipSessionStarted == old(f.knipSessionStarted)
    ensures old(f.analysisLatch) == Some(1) ==> f.analysisLatch == Some(0)
    ensures f.progressIndicatorText == old(f.progressIndicatorText)
  {
    f.FinishProgress();
  }
}
