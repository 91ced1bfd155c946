/**
 * The page controller of script.js: the module-level variables of the page
 * script (the configuration `state` and the timer's `intervalId`, `paused`
 * and `remainingWhenPaused`) and the event handlers that update them in
 * place. Each method is proved against the pure definitions of the
 * Settings, Display and Timing modules.
 */
module Widget {
  import opened Wrappers
  import opened Text
  import InstantText
  import opened Settings
  import opened Display
  import opened Timing

  class Countdown {
    // `state` (script.js:30-39).
    var state: Config

    // The timer variables (script.js:41-43).
    var intervalActive: bool
    var paused: bool
    var remainingWhenPaused: Option<int>

    // What the page shows, the snapshot in local storage, and the number of
    // completion beeps played so far.
    var screen: Screen
    var saved: Option<Config>
    var beeps: nat

    /** The timer the fields hold. */
    function Clock(): Timer
      reads this`state, this`intervalActive, this`paused, this`remainingWhenPaused
    {
      Timer(state.target, intervalActive, paused, remainingWhenPaused)
    }

    ghost predicate Valid()
      reads this`state, this`intervalActive, this`paused, this`remainingWhenPaused
    {
      Consistent(Clock())
    }

    /**
     * Running the page script (script.js:338-345): the restored snapshot
     * `loaded`, or the preset configuration, is overridden by the page's
     * query parameters; the background is drawn; the timer is started when
     * there is a target, which beeps at once if the target is already past;
     * and finally the completion panel is shown until the first scheduled
     * tick redraws the counters.
     */
    constructor (loaded: Option<Config>, query: map<string, string>, now: int)
      ensures Valid()
      ensures state == ApplyQuery(if loaded.Some? then loaded.value else Default, query)
      ensures Clock() == Start(Loaded(state.target), now)
      ensures saved == if QueryChanges(query) then Some(state) else loaded
      ensures screen.panel == TimeUpPanel && screen.background == BackgroundOf(state)
      ensures screen.doneText == DoneText(state.doneMessage, state.partner)
      ensures state.target.Some? && state.target.value > now ==>
                screen.digits == Decompose(state.target.value - now)
      ensures beeps == if Elapses(Clock(), now) then 1 else 0
    {
      state := if loaded.Some? then loaded.value else Default;
      intervalActive, paused, remainingWhenPaused := false, false, None;
      screen := Screen(CountsPanel, Remaining(0, 0, 0, 0), "", Plain);
      saved := loaded;
      beeps := 0;
      new;
      ParseQuery(query);
      ApplyBackground();
      if state.target.Some? {
        StartTimer(now);
        if state.target.value > now {
          DecomposeUnique(state.target.value - now, screen.digits);
        }
      }
      UpdateUI(0);
    }

    /** `saveState`: local storage now holds a snapshot of the configuration. */
    method SaveState()
      modifies this`saved
      ensures saved == Some(state)
    {
      saved := Some(state);
    }

    /** `applyBackground`: the page shows the background the configuration selects. */
    method ApplyBackground()
      modifies this`screen
      ensures screen == old(screen).(background := BackgroundOf(state))
    {
      var b: Backdrop;
      if state.bgDataUrl != "" {
        b := Uploaded(state.bgDataUrl);
      } else if state.bgUrl != "" {
        b := External(state.bgUrl);
      } else {
        b := Plain;
      }
      screen := screen.(background := b);
    }

    /** `updateUI`. */
    method UpdateUI(diffMs: int)
      modifies this`screen
      ensures screen == Updated(old(screen), diffMs, state.doneMessage, state.partner)
    {
      if diffMs <= 0 {
        screen := screen.(panel := TimeUpPanel, doneText := DoneText(state.doneMessage, state.partner));
      } else {
        var totalSeconds := diffMs / 1000;
        var days := totalSeconds / (3600 * 24);
        var hours := (totalSeconds % (3600 * 24)) / 3600;
        var minutes := (totalSeconds % 3600) / 60;
        var seconds := totalSeconds % 60;
        screen := screen.(panel := CountsPanel, digits := Remaining(days, hours, minutes, seconds));
      }
    }

    /** `stopTimer`. */
    method StopTimer()
      modifies this`intervalActive, this`paused
      ensures Clock() == Stop(old(Clock()))
    {
      if intervalActive {
        intervalActive := false;
      }
      paused := false;
    }

    /**
     * `tick`: redraws the countdown; when the target is reached it shows the
     * completion panel, stops the timer and beeps.
     */
    method Tick(now: int)
      modifies this`screen, this`intervalActive, this`paused, this`beeps
      ensures old(Valid()) ==> Valid()
      ensures Clock() == Timing.Tick(old(Clock()), now)
      ensures screen == Refreshed(old(screen), state.target, now, state.doneMessage, state.partner)
      ensures beeps == old(beeps) + if Elapses(old(Clock()), now) then 1 else 0
    {
      if state.target.None? {
        return;
      }
      var diff := state.target.value - now;
      if diff <= 0 {
        UpdateUI(0);
        StopTimer();
        beeps := beeps + 1;
      } else {
        UpdateUI(diff);
      }
    }

    /** The scheduled interval's callback: a tick, while the interval exists. */
    method IntervalFired(now: int)
      requires Valid()
      modifies this`screen, this`intervalActive, this`paused, this`beeps
      ensures Valid()
      ensures Clock() == IntervalTick(old(Clock()), now)
      ensures screen == if old(intervalActive) then Refreshed(old(screen), state.target, now, state.doneMessage, state.partner)
                        else old(screen)
      ensures beeps == old(beeps) + if Fires(old(Clock()), now) then 1 else 0
    {
      if intervalActive {
        Tick(now);
      }
    }

    /** `startTimer`: one new interval and an immediate tick, when there is a target. */
    method StartTimer(now: int)
      modifies this`screen, this`intervalActive, this`paused, this`beeps
      ensures old(Valid()) || state.target.Some? ==> Valid()
      ensures Clock() == Start(old(Clock()), now)
      ensures screen == Refreshed(old(screen), state.target, now, state.doneMessage, state.partner)
      ensures beeps == old(beeps) + if Elapses(old(Clock()), now) then 1 else 0
    {
      if state.target.None? {
        return;
      }
      paused := false;
      intervalActive := true;
      Tick(now);
    }

    /** `pauseTimer`: captures the time left and cancels the interval. */
    method PauseTimer(now: int)
      requires Valid()
      modifies this`intervalActive, this`paused, this`remainingWhenPaused
      ensures Valid()
      ensures Clock() == Pause(old(Clock()), now)
    {
      if !intervalActive {
        return;
      }
      var t := if state.target.Some? then state.target.value else 0;  // `new Date(null)` is the epoch
      remainingWhenPaused := Some(t - now);
      StopTimer();
      paused := true;
    }

    /** `resumeTimer`: a new target `now` plus the time left, saved and started. */
    method ResumeTimer(now: int)
      requires Valid()
      modifies this`state, this`remainingWhenPaused, this`saved
      modifies this`screen, this`intervalActive, this`paused, this`beeps
      ensures Valid()
      ensures Clock() == Resume(old(Clock()), now)
      ensures state == old(state).(target := state.target)
      ensures !Resumes(old(Clock())) ==> unchanged(this)
      ensures Resumes(old(Clock())) ==>
                && saved == Some(state)
                && screen == Refreshed(old(screen), state.target, now, state.doneMessage, state.partner)
                && beeps == old(beeps) + if old(remainingWhenPaused.value) <= 0 then 1 else 0
    {
      if !paused || remainingWhenPaused.None? {
        return;
      }
      state := state.(target := Some(now + remainingWhenPaused.value));
      remainingWhenPaused := None;
      SaveState();
      StartTimer(now);
    }

    /**
     * `resetTimer`: the countdown becomes unset and is saved so; `updateUI(0)`
     * writes the completion text, but the counters panel is left showing.
     */
    method ResetTimer()
      requires Valid()
      modifies this`state, this`intervalActive, this`paused, this`saved, this`screen
      ensures Valid()
      ensures Clock() == Reset(old(Clock()))
      ensures state == old(state).(target := None)
      ensures saved == Some(state)
      ensures screen == Updated(old(screen), 0, state.doneMessage, state.partner).(panel := CountsPanel)
    {
      StopTimer();
      state := state.(target := None);
      SaveState();
      UpdateUI(0);
      screen := screen.(panel := CountsPanel);
    }

    /** The reset button: `confirmed` is the user's answer to the confirmation. */
    method ResetClicked(confirmed: bool)
      requires Valid()
      modifies this`state, this`intervalActive, this`paused, this`saved, this`screen
      ensures Valid()
      ensures !confirmed ==> unchanged(this)
      ensures confirmed ==> Clock() == Reset(old(Clock())) && PhaseOf(Clock()) == Unset && saved == Some(state)
      ensures confirmed ==>
                && state == old(state).(target := None)
                && screen == Updated(old(screen), 0, state.doneMessage, state.partner).(panel := CountsPanel)
    {
      if confirmed {
        ResetTimer();
      }
    }

    /** The pause/resume button: pause while running, resume while paused, start while stopped. */
    method PauseClicked(now: int)
      requires Valid()
      modifies this`state, this`remainingWhenPaused, this`saved
      modifies this`screen, this`intervalActive, this`paused, this`beeps
      ensures Valid()
      ensures Clock() == PressPause(old(Clock()), now)
      ensures state == old(state).(target := state.target)
      ensures ButtonAction(old(Clock())) == Nothing ==> unchanged(this)
      ensures ButtonAction(old(Clock())) == DoPause ==>
                screen == old(screen) && saved == old(saved) && beeps == old(beeps)
      ensures ButtonAction(old(Clock())) == DoResume ==>
                && saved == Some(state)
                && screen == Refreshed(old(screen), state.target, now, state.doneMessage, state.partner)
                && beeps == old(beeps) + if old(remainingWhenPaused.value) <= 0 then 1 else 0
      ensures ButtonAction(old(Clock())) == DoStart ==>
                && saved == old(saved)
                && screen == Refreshed(old(screen), state.target, now, state.doneMessage, state.partner)
                && beeps == old(beeps) + if Elapses(old(Clock()), now) then 1 else 0
    {
      if state.target.None? {
        return;
      }
      if !paused && intervalActive {
        PauseTimer(now);
      } else if paused {
        ResumeTimer(now);
      } else if !intervalActive {
        StartTimer(now);
      }
    }

    /** `setStateFromUI`: the form's fields are stored, saved and the background redrawn. */
    method FormInput(form: Form)
      modifies this`state, this`saved, this`screen
      ensures state == WithForm(old(state), form)
      ensures saved == Some(state)
      ensures screen == old(screen).(background := BackgroundOf(state))
    {
      state := state.(eventName := Trim(form.eventName));
      state := state.(partner := Trim(form.partner));
      state := state.(doneMessage := Trim(form.doneMessage));
      state := state.(bgUrl := Trim(form.bgUrl));
      state := state.(theme := form.theme);
      SaveState();
      ApplyBackground();
    }

    /**
     * The set button: the form is stored first; then a blank or unparsable
     * date is refused, a date not in the future needs `confirmPast`, and an
     * accepted one becomes the saved target and is started.
     */
    method SetClicked(form: Form, picked: Picked, now: int, confirmPast: bool) returns (outcome: SetOutcome)
      requires Valid()
      modifies this`state, this`saved, this`screen, this`intervalActive, this`paused, this`beeps
      ensures Valid()
      ensures outcome == Decide(picked, now, confirmPast)
      ensures Clock() == SetTarget(old(Clock()), picked, now, confirmPast)
      ensures state == WithForm(old(state), form).(target := state.target)
      ensures saved == Some(state)
      ensures outcome != Started ==>
                screen == old(screen).(background := BackgroundOf(state)) && beeps == old(beeps)
      ensures outcome == Started ==>
                && screen == Refreshed(old(screen).(background := BackgroundOf(state)), state.target, now,
                                       state.doneMessage, state.partner)
                && beeps == old(beeps) + if picked.instant <= now then 1 else 0
    {
      FormInput(form);
      match picked
      case Blank =>
        outcome := MissingDate;
      case Unparsable =>
        outcome := InvalidDate;
      case At(d) =>
        if d <= now && !confirmPast {
          outcome := Declined;
          return;
        }
        state := state.(target := Some(d));
        SaveState();
        StartTimer(now);
        outcome := Started;
    }

    /** The theme selector changed: the theme is stored and saved. */
    method ThemeChanged(value: string)
      modifies this`state, this`saved
      ensures state == old(state).(theme := value)
      ensures saved == Some(state)
    {
      state := state.(theme := value);
      SaveState();
    }

    /** An uploaded image finished reading as `dataUrl`. */
    method ImageLoaded(dataUrl: string)
      modifies this`state, this`saved, this`screen
      ensures state == WithUpload(old(state), dataUrl)
      ensures saved == Some(state)
      ensures screen == old(screen).(background := BackgroundOf(state))
    {
      state := state.(bgDataUrl := dataUrl);
      state := state.(bgUrl := "");
      SaveState();
      ApplyBackground();
    }

    /** The background URL field now holds `value`. */
    method BgUrlInput(value: string)
      modifies this`state, this`saved, this`screen
      ensures state == WithBgUrlInput(old(state), value)
      ensures saved == Some(state)
      ensures screen == old(screen).(background := BackgroundOf(state))
    {
      state := state.(bgUrl := Trim(value));
      if state.bgUrl != "" {
        state := state.(bgDataUrl := "");
      }
      SaveState();
      ApplyBackground();
    }

    /**
     * The share button: the form is stored, then the link's parameters are
     * written (the link is then copied to the clipboard).
     */
    method ShareClicked(form: Form) returns (query: map<string, string>)
      modifies this`state, this`saved, this`screen
      ensures state == WithForm(old(state), form)
      ensures saved == Some(state)
      ensures screen == old(screen).(background := BackgroundOf(state))
      ensures query == ShareQuery(state)
    {
      FormInput(form);
      query := ShareParams();
    }

    /** The share link's parameters: one for each non-empty field, in turn. */
    method ShareParams() returns (query: map<string, string>)
      ensures query == ShareQuery(state)
    {
      query := map[];
      if state.target.Some? {
        query := query["t" := InstantText.Format(state.target.value)];
      }
      if state.eventName != "" {
        query := query["e" := state.eventName];
      }
      if state.partner != "" {
        query := query["p" := state.partner];
      }
      if state.doneMessage != "" {
        query := query["m" := state.doneMessage];
      }
      if state.bgUrl != "" {
        query := query["bg" := state.bgUrl];
      }
      if state.theme != "" {
        query := query["theme" := state.theme];
      }
    }

    /**
     * `parseQuery`: each recognised parameter present overwrites its field,
     * a `t` that does not parse is skipped, and the configuration is saved
     * when anything was taken.
     */
    method ParseQuery(query: map<string, string>)
      requires Valid()
      modifies this`state, this`saved
      ensures Valid()
      ensures state == ApplyQuery(old(state), query)
      ensures saved == if QueryChanges(query) then Some(state) else old(saved)
    {
      var c := state;
      var changed := false;
      if "t" in query {
        var d := InstantText.Parse(query["t"]);
        if d.Some? {
          c := c.(target := d);
          changed := true;
        }
      }
      if "e" in query {
        c := c.(eventName := query["e"]);
        changed := true;
      }
      if "p" in query {
        c := c.(partner := query["p"]);
        changed := true;
      }
      if "m" in query {
        c := c.(doneMessage := query["m"]);
        changed := true;
      }
      if "bg" in query {
        c := c.(bgUrl := query["bg"]);
        changed := true;
      }
      if "theme" in query {
        c := c.(theme := query["theme"]);
        changed := true;
      }
      state := c;
      if changed {
        SaveState();
      }
    }
  }
}
