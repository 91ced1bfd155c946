/**
 * What `updateUI` shows (script.js:177-198): the remaining time split into
 * days, hours, minutes and seconds while it is positive, the completion
 * text once it is not.
 */
module Display {
  import opened Wrappers
  import opened Settings

  /** The four counters of the countdown. */
  datatype Remaining = Remaining(days: nat, hours: nat, minutes: nat, seconds: nat)

  /** The number of whole seconds the four counters stand for. */
  function Seconds(r: Remaining): nat {
    r.days * 86400 + r.hours * 3600 + r.minutes * 60 + r.seconds
  }

  /** Hours, minutes and seconds within their clock ranges. */
  predicate Normal(r: Remaining) {
    r.hours < 24 && r.minutes < 60 && r.seconds < 60
  }

  /**
   * Splits a positive difference in milliseconds: the whole seconds in it,
   * rounded down, written as days and in-range hours, minutes and seconds.
   */
  function Decompose(diffMs: int): (r: Remaining)
    requires diffMs > 0
    ensures Normal(r) && Seconds(r) == diffMs / 1000
  {
    var totalSeconds := diffMs / 1000;
    var inDay := totalSeconds % 86400;
    assert inDay % 3600 == totalSeconds % 3600;
    assert inDay == (inDay / 3600) * 3600 + (inDay % 3600);
    Remaining(totalSeconds / (3600 * 24), inDay / 3600, (totalSeconds % 3600) / 60, totalSeconds % 60)
  }

  /** The split is the only one with in-range hours, minutes and seconds. */
  lemma DecomposeUnique(diffMs: int, r: Remaining)
    requires diffMs > 0 && Normal(r) && Seconds(r) == diffMs / 1000
    ensures r == Decompose(diffMs)
  {
    var d := Decompose(diffMs);
    var total := diffMs / 1000;
    var inDay := r.hours * 3600 + r.minutes * 60 + r.seconds;
    assert 0 <= inDay < 86400;
    assert r.days == total / 86400 && inDay == total % 86400;
    var inHour := r.minutes * 60 + r.seconds;
    assert 0 <= inHour < 3600;
    assert r.hours == inDay / 3600 && inHour == inDay % 3600;
    assert r.minutes == inHour / 60 && r.seconds == inHour % 60;
  }

  /** 90061000 ms is one day, one hour, one minute and one second. */
  lemma OneOfEach()
    ensures Decompose(90061000) == Remaining(1, 1, 1, 1)
  {
  }

  /** Which of the two panels is visible. */
  datatype Panel = CountsPanel | TimeUpPanel

  /** The part of the page the countdown draws. */
  datatype Screen = Screen(panel: Panel, digits: Remaining, doneText: string, background: Backdrop)

  /** The completion text: the message or "Time's up!", then " — partner" when there is one. */
  function DoneText(doneMessage: string, partner: string): string {
    (if doneMessage != "" then doneMessage else "Time's up!")
      + (if partner != "" then " \U{2014} " + partner else "")
  }

  /**
   * `updateUI(diffMs)`: a difference that is not positive shows the
   * completion panel and leaves the counters as they were; a positive one
   * shows the counters, set to the split of `diffMs`.
   */
  function Updated(s: Screen, diffMs: int, doneMessage: string, partner: string): (r: Screen)
    ensures r.background == s.background
    ensures diffMs <= 0 ==>
              r.panel == TimeUpPanel && r.digits == s.digits && r.doneText == DoneText(doneMessage, partner)
    ensures diffMs > 0 ==>
              r.panel == CountsPanel && r.doneText == s.doneText && Normal(r.digits) && Seconds(r.digits) == diffMs / 1000
  {
    if diffMs <= 0 then s.(panel := TimeUpPanel, doneText := DoneText(doneMessage, partner))
    else s.(panel := CountsPanel, digits := Decompose(diffMs))
  }

  /** What a tick draws: nothing without a target, else `updateUI` of the time left. */
  function Refreshed(s: Screen, target: Option<int>, now: int, doneMessage: string, partner: string): Screen {
    if target.None? then s else Updated(s, target.value - now, doneMessage, partner)
  }
}
