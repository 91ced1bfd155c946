/**
 * The countdown's timer, script.js:200-290, as a state machine over the
 * target instant and the module-level `intervalId`, `paused` and
 * `remainingWhenPaused`. The clock is the parameter `now` (milliseconds since
 * the epoch); the scheduled interval is the flag `running`.
 */
module Timing {
  import opened Wrappers

  datatype Timer = Timer(
    target: Option<int>,               // `state.targetIso`
    running: bool,                     // an interval is scheduled (`intervalId` is set)
    paused: bool,
    remainingWhenPaused: Option<int>)  // milliseconds left at the last pause

  /** The four states the timer is in, as the user sees them. */
  datatype Phase = Unset | Running | Paused | Stopped

  function PhaseOf(t: Timer): Phase {
    if t.target.None? then Unset
    else if t.running then Running
    else if t.paused then Paused
    else Stopped
  }

  /**
   * What every reachable timer satisfies: an interval is scheduled only for
   * a target and never while paused, and a pause has a target and has
   * captured the time that was left.
   */
  predicate Consistent(t: Timer) {
    && (t.running ==> t.target.Some? && !t.paused)
    && (t.paused ==> t.target.Some? && t.remainingWhenPaused.Some?)
  }

  /** The timer of a freshly loaded page, before anything starts it. */
  function Loaded(target: Option<int>): (r: Timer)
    ensures Consistent(r) && PhaseOf(r) == if target.None? then Unset else Stopped
  {
    Timer(target, false, false, None)
  }

  /** The target in milliseconds; an absent one reads as the epoch, as `new Date(null)` does. */
  function TargetMs(t: Timer): int {
    if t.target.Some? then t.target.value else 0
  }

  /** A tick at `now` finds the target reached: the completion beep plays. */
  predicate Elapses(t: Timer, now: int) {
    t.target.Some? && t.target.value - now <= 0
  }

  /** `stopTimer`: no interval, not paused. */
  function Stop(t: Timer): (r: Timer)
    ensures !r.running && !r.paused
    ensures r.target == t.target && r.remainingWhenPaused == t.remainingWhenPaused
    ensures Consistent(r)
  {
    t.(running := false, paused := false)
  }

  /** `tick`: once the target is reached the timer stops; otherwise nothing changes. */
  function Tick(t: Timer, now: int): (r: Timer)
    ensures Elapses(t, now) ==> r == Stop(t) && PhaseOf(r) == Stopped
    ensures !Elapses(t, now) ==> r == t
    ensures Consistent(t) ==> Consistent(r)
  {
    if Elapses(t, now) then Stop(t) else t
  }

  /**
   * `startTimer`: without a target nothing happens. Otherwise the old
   * interval is replaced by one new interval, the pause is cleared, and the
   * immediate tick stops it again when the target is already reached.
   */
  function Start(t: Timer, now: int): (r: Timer)
    ensures t.target.None? ==> r == t
    ensures t.target.Some? ==>
              && r.target == t.target && r.remainingWhenPaused == t.remainingWhenPaused && !r.paused
              && (r.running <==> t.target.value - now > 0)
              && PhaseOf(r) == if r.running then Running else Stopped
    ensures Consistent(t) || t.target.Some? ==> Consistent(r)
  {
    if t.target.None? then t else Tick(t.(running := true, paused := false), now)
  }

  /**
   * `pauseTimer`: without an interval nothing happens. Otherwise the time
   * left is captured, the interval is cancelled and the timer is paused.
   */
  function Pause(t: Timer, now: int): (r: Timer)
    ensures !t.running ==> r == t
    ensures t.running ==>
              && r.target == t.target && !r.running && r.paused
              && r.remainingWhenPaused == Some(TargetMs(t) - now)
    ensures Consistent(t) ==> Consistent(r)
    ensures Consistent(t) && PhaseOf(t) == Running ==> PhaseOf(r) == Paused
  {
    if !t.running then t
    else Stop(t).(remainingWhenPaused := Some(TargetMs(t) - now), paused := true)
  }

  /** `resumeTimer` acts only on a pause that captured the time left. */
  predicate Resumes(t: Timer) {
    t.paused && t.remainingWhenPaused.Some?
  }

  /**
   * `resumeTimer`: the new target is `now` plus the captured time, the
   * capture is cleared and the timer is started again.
   */
  function Resume(t: Timer, now: int): (r: Timer)
    ensures !Resumes(t) ==> r == t
    ensures Resumes(t) ==>
              && r.target == Some(now + t.remainingWhenPaused.value)
              && r.remainingWhenPaused.None? && !r.paused
              && (r.running <==> t.remainingWhenPaused.value > 0)
    ensures Consistent(t) ==> Consistent(r)
  {
    if !Resumes(t) then t
    else Start(t.(target := Some(now + t.remainingWhenPaused.value), remainingWhenPaused := None), now)
  }

  /**
   * `resetTimer`: whatever the state, the countdown ends unset, with no
   * interval and no pause. The captured time is not cleared.
   */
  function Reset(t: Timer): (r: Timer)
    ensures PhaseOf(r) == Unset && !r.running && !r.paused
    ensures r.remainingWhenPaused == t.remainingWhenPaused
    ensures Consistent(r)
  {
    Stop(t).(target := None)
  }

  /** What the pause/resume button does in each state. */
  datatype Action = Nothing | DoPause | DoResume | DoStart

  function ButtonAction(t: Timer): Action {
    if t.target.None? then Nothing
    else if !t.paused && t.running then DoPause
    else if t.paused then DoResume
    else DoStart
  }

  /** The pause/resume button, one control whose effect depends on the state. */
  function PressPause(t: Timer, now: int): (r: Timer)
    ensures Consistent(t) ==> Consistent(r)
    ensures Consistent(t) && PhaseOf(t) == Running ==> PhaseOf(r) == Paused
    ensures Consistent(t) && PhaseOf(t) == Paused ==> !r.paused && r.remainingWhenPaused.None?
    ensures Consistent(t) && PhaseOf(t) == Stopped ==> (r.running <==> t.target.value - now > 0)
    ensures PhaseOf(t) == Unset ==> r == t
    ensures Consistent(t) && PhaseOf(t) == Running ==> r == Pause(t, now)
    ensures Consistent(t) && PhaseOf(t) == Paused ==> r == Resume(t, now)
    ensures Consistent(t) && PhaseOf(t) == Stopped ==> r == Start(t, now)
  {
    match ButtonAction(t)
    case Nothing => t
    case DoPause => Pause(t, now)
    case DoResume => Resume(t, now)
    case DoStart => Start(t, now)
  }

  /** A target the user picked in the date and time field. */
  datatype Picked = Blank | Unparsable | At(instant: int)

  /** How the set button ends. */
  datatype SetOutcome = MissingDate | InvalidDate | Declined | Started

  /**
   * The checks of the set button: a blank or unparsable date is refused, and
   * a date that is not in the future starts only when the user confirms.
   */
  function Decide(picked: Picked, now: int, confirmPast: bool): (o: SetOutcome)
    ensures o == Started <==> picked.At? && (picked.instant > now || confirmPast)
    ensures picked.Blank? <==> o == MissingDate
    ensures picked.Unparsable? <==> o == InvalidDate
  {
    match picked
    case Blank => MissingDate
    case Unparsable => InvalidDate
    case At(d) => if d <= now && !confirmPast then Declined else Started
  }

  /** The timer after the set button: the target is replaced and started, or nothing changes. */
  function SetTarget(t: Timer, picked: Picked, now: int, confirmPast: bool): (r: Timer)
    ensures Decide(picked, now, confirmPast) != Started ==> r == t
    ensures Decide(picked, now, confirmPast) == Started ==>
              && r.target == Some(picked.instant) && !r.paused
              && r.remainingWhenPaused == t.remainingWhenPaused
              && (r.running <==> picked.instant > now)
    ensures Consistent(t) ==> Consistent(r)
  {
    if Decide(picked, now, confirmPast) == Started then Start(t.(target := Some(picked.instant)), now) else t
  }

  // ---------------------------------------------------------------------------
  // Round trips and the completion beep
  // ---------------------------------------------------------------------------

  /** Pausing and resuming at the same clock reading keeps the target instant. */
  lemma PauseResumeRoundTrip(t: Timer, now: int)
    requires Consistent(t) && t.running
    ensures var r := Resume(Pause(t, now), now);
      && r.target == t.target && !r.paused && r.remainingWhenPaused.None?
      && (r.running <==> t.target.value - now > 0)
  {
  }

  /** Pressing the pause/resume button twice at the same reading is the same round trip. */
  lemma PressPauseTwice(t: Timer, now: int)
    requires Consistent(t) && PhaseOf(t) == Running
    ensures PressPause(PressPause(t, now), now) == Resume(Pause(t, now), now)
    ensures PressPause(PressPause(t, now), now).target == t.target
  {
    PauseResumeRoundTrip(t, now);
  }

  /** After a reset a resume does nothing, although the captured time is still there. */
  lemma ResumeAfterResetDoesNothing(t: Timer, now: int)
    ensures Resume(Reset(t), now) == Reset(t)
  {
  }

  /** The callback of the scheduled interval: a tick, only while an interval is scheduled. */
  function IntervalTick(t: Timer, now: int): Timer {
    if t.running then Tick(t, now) else t
  }

  /** The beep plays on a scheduled tick that finds the target reached. */
  predicate Fires(t: Timer, now: int) {
    t.running && Elapses(t, now)
  }

  /** The timer after the scheduled ticks at the clock readings `nows`. */
  function Run(t: Timer, nows: seq<int>): Timer
    decreases |nows|
  {
    if nows == [] then t else Run(IntervalTick(t, nows[0]), nows[1..])
  }

  /** How many beeps the scheduled ticks at `nows` play. */
  function Beeps(t: Timer, nows: seq<int>): nat
    decreases |nows|
  {
    if nows == [] then 0
    else (if Fires(t, nows[0]) then 1 else 0) + Beeps(IntervalTick(t, nows[0]), nows[1..])
  }

  /** A timer with no interval never changes on a tick and never beeps. */
  lemma {:induction false} IdleStaysIdle(t: Timer, nows: seq<int>)
    requires !t.running
    ensures Run(t, nows) == t && Beeps(t, nows) == 0
    decreases |nows|
  {
    if nows != [] {
      IdleStaysIdle(t, nows[1..]);
    }
  }

  /** Whatever the readings, the scheduled ticks beep at most once. */
  lemma {:induction false} AtMostOneBeep(t: Timer, nows: seq<int>)
    ensures Beeps(t, nows) <= 1
    decreases |nows|
  {
    if nows != [] {
      var next := IntervalTick(t, nows[0]);
      if Fires(t, nows[0]) {
        IdleStaysIdle(next, nows[1..]);
      } else {
        AtMostOneBeep(next, nows[1..]);
      }
    }
  }

  /**
   * A running countdown whose ticks reach its target beeps exactly once and
   * ends stopped, with its target kept.
   */
  lemma {:induction false} BeepsOnceWhenReached(t: Timer, nows: seq<int>, i: nat)
    requires t.running && t.target.Some? && i < |nows| && nows[i] >= t.target.value
    ensures Beeps(t, nows) == 1
    ensures PhaseOf(Run(t, nows)) == Stopped && Run(t, nows).target == t.target
    decreases |nows|
  {
    var next := IntervalTick(t, nows[0]);
    if Fires(t, nows[0]) {
      IdleStaysIdle(next, nows[1..]);
    } else {
      BeepsOnceWhenReached(next, nows[1..], i - 1);
    }
  }
}
