# Countdown widget — a verified model of its controller

The countdown page (`script.js`) shows how long is left until a target
instant, split into days, hours, minutes and seconds. Once the target is
reached, it shows a completion message, optionally followed by a partner's
name, and plays one beep. The user can:

- pause, resume, restart and reset the countdown;
- choose an uploaded image or an external URL as the page background;
- copy a share link whose query parameters carry the configuration, which
  the page reads back when it is opened.

This project models the controller behind the page. It proves what each
step does to the controller's state.

- `wrappers.dfy`: `Option`.
- `text.dfy` (`Text`): the string `trim` of ECMAScript, with its
  whitespace set. The lemmas say exactly what it removes, and that it is
  idempotent.
- `instant_text.dfy` (`InstantText`): instants as text. The model writes
  an instant as its signed number of milliseconds in decimal, and proves
  that parsing what was written gives the instant back.
- `settings.dfy` (`Settings`): the configuration record `state` as a value,
  together with the pure part of its handlers:
  - the uploaded image;
  - the background URL field;
  - the text form and what the form shows back;
  - `applyBackground`'s choice of background;
  - the share link's parameters and `parseQuery`, with their round trips.
- `display.dfy` (`Display`): `updateUI`. A positive difference is split
  into counters, and the model proves that the split is exact and unique.
  A difference that is not positive shows the completion panel instead.
- `timing.dfy` (`Timing`): the timer as a state machine over the target,
  the scheduled interval, `paused` and `remainingWhenPaused`. It covers
  tick, start, stop, pause, resume, reset, the pause/resume button and the
  set button. It also covers runs of scheduled ticks, proving that a
  countdown beeps at most once and beeps exactly once when it reaches its
  target.
- `widget.dfy` (`Widget`): the class `Countdown` holds the page script's
  variables. Each handler is a method that updates those fields in place,
  and is proved against the pure definitions above. The methods keep the
  invariant `Valid`:
  - an interval runs only for a target, and never while paused;
  - a pause has a target and the time it captured.

The model abstracts the environment as follows:

- The clock is a parameter `now`, in milliseconds since the epoch.
- `setInterval` and `clearInterval` become the flag `intervalActive`. The
  interval's callback is `IntervalFired`.
- `localStorage` becomes the snapshot field `saved`. The restored snapshot
  is the constructor's parameter `loaded`.
- The beep becomes a counter, `beeps`.
- A `confirm` dialog becomes a boolean parameter.
- The page's query string becomes a map from parameter name to value.

Behaviours of the page script that the model keeps, though one might expect
otherwise:

- The two background sources are not exclusive. Both `parseQuery`
  (`script.js:77`) and `setStateFromUI` (`script.js:137`) set the external
  URL without clearing an uploaded image, and the uploaded image then stays
  in front. `Settings.QueryCanLeaveBothSources` exhibits this.
- When the target is reached, `updateUI(0)` hides the counters panel and
  leaves the counters as they were. It does not set them to zero.
- `resetTimer` writes the completion text but leaves the counters panel
  showing (`script.js:256-258`). It also keeps `remainingWhenPaused`.
- On start-up, the final `updateUI(0)` (`script.js:345`) shows the
  completion panel until the first scheduled tick redraws the counters.
- Any theme string is stored and shared. Only three of them change the look
  of the page.

## Model

| member | source | states |
|---|---|---|
| Text.TrimStartSpec | script.js:134-137 | what the start-trim leaves is a slice of the input, everything before it is whitespace, and it does not start with whitespace |
| Text.TrimEndSpec | script.js:134-137 | what the end-trim leaves is a prefix of the input, everything after it is whitespace, and it does not end with whitespace |
| Text.TrimSpec | script.js:134-137 | `trim` returns the slice of the input between leading and trailing whitespace, and neither end of the result is whitespace |
| Text.TrimEmpty | script.js:162-163 | a field trims to the empty string exactly when it is all whitespace, which is when the URL field counts as blank |
| Text.TrimIdempotent | script.js:134-137 | trimming a trimmed text changes nothing |
| InstantText.ParseFormat | script.js:68-70 | parsing the text written for an instant gives that instant back, which is why a shared `t` always decodes |
| Settings.WithUpload | script.js:149-155 | an uploaded image sets the uploaded source, clears the external one, changes no other field, and is then the background shown |
| Settings.WithBgUrlInput | script.js:161-165 | the URL field's trimmed text becomes the external source. A non-blank URL clears the uploaded image and is then the background. A blank one keeps the uploaded image. No other field changes, and exclusivity of the two sources is preserved |
| Settings.WithForm | script.js:133-138 | the four text fields are stored trimmed and the theme as selected. The target and the uploaded image are kept |
| Settings.FormRoundTrip | script.js:111-116 | showing a stored form and storing it again leaves the configuration unchanged |
| Settings.ShareQuerySpec | script.js:300-306 | the share link carries only the six recognised parameters, and none of them is empty. `t` is present exactly when a target is set, and it decodes to that target. Each text field is present exactly when it is non-empty, with its value verbatim |
| Settings.UnknownParametersIgnored | script.js:63-79 | `parseQuery` reads only the six recognised parameters; any other parameter has no effect |
| Settings.NoChangeWithoutParameters | script.js:63-79 | a query with none of the six parameters, or only an unparsable `t`, changes nothing |
| Settings.ShareRoundTrip | script.js:66-78 | decoding a share link onto any configuration restores every non-empty shared field. It keeps the recipient's value of each empty one, and it never touches the uploaded image |
| Settings.OwnShareLinkIsNeutral | script.js:298-306 | a page that decodes its own share link is unchanged |
| Settings.ShareLinkReproduces | script.js:298-306 | when the recipient has nothing set where the sender has nothing set, the decoded configuration is the sender's, except for the recipient's own uploaded image |
| Settings.QueryCanLeaveBothSources | script.js:77 | a `bg` parameter can leave both background sources set, with the uploaded image still shown |
| Display.Decompose | script.js:187-191 | for a positive difference, the counters are in range (hours below 24, minutes and seconds below 60) and add up to the whole seconds in the difference, rounded down |
| Display.DecomposeUnique | script.js:187-191 | the split is the only one with in-range counters |
| Display.OneOfEach | script.js:187-191 | 90061000 ms is one day, one hour, one minute and one second |
| Display.Updated | script.js:177-197 | a difference that is not positive shows the completion panel with the message (or "Time's up!") and the partner, leaving the counters. A positive one shows the counters, split exactly. The background is untouched |
| Timing.Loaded | script.js:41-43 | a freshly loaded timer is consistent, and it is unset or stopped |
| Timing.Stop | script.js:223-229 | stopping leaves no interval and no pause, and keeps the target and the captured time |
| Timing.Tick | script.js:200-212 | a tick with no target, or with time left, changes nothing. One that finds the target reached stops the timer. Consistency is preserved |
| Timing.Start | script.js:214-219 | with no target nothing happens. Otherwise the pause is cleared and exactly one interval runs while time is left, and the immediate tick stops it when none is left. The result is consistent |
| Timing.Pause | script.js:232-238 | with no interval nothing happens. Otherwise the time left (target minus now) is captured, the interval ends and the timer is paused. A running timer becomes paused |
| Timing.Resume | script.js:241-247 | nothing happens unless paused with a captured time. Otherwise the new target is now plus the captured time, the capture is cleared, and the timer runs again exactly when time was left. Consistency is preserved |
| Timing.Reset | script.js:250-253 | whatever the state, the timer ends unset, with no interval and no pause, and the captured time is kept |
| Timing.PressPause | script.js:285-290 | the button is exactly `Pause` on a running timer, `Resume` on a paused one and `Start` on a stopped one (with the captured time, the resumed target and whether it runs as those state), and does nothing when no target is set. Consistency is preserved |
| Timing.Decide | script.js:264-277 | a blank date is refused, and so is an unparsable one. A date that is not in the future is accepted only with confirmation, and any later date is accepted |
| Timing.SetTarget | script.js:278-282 | an accepted date becomes the target and is started; it runs exactly when it is in the future, and any captured time is kept. Otherwise the timer is unchanged |
| Timing.PauseResumeRoundTrip | script.js:232-248 | pausing and resuming at the same clock reading keeps the target instant, and the timer runs again when time was left |
| Timing.PressPauseTwice | script.js:285-290 | pressing the button twice at the same reading is that round trip, and keeps the target |
| Timing.ResumeAfterResetDoesNothing | script.js:242 | after a reset, a resume does nothing, even though the captured time is still held |
| Timing.IdleStaysIdle | script.js:205-208 | once no interval runs, scheduled ticks change nothing and play no beep |
| Timing.AtMostOneBeep | script.js:205-208 | whatever the clock readings, the scheduled ticks play at most one beep |
| Timing.BeepsOnceWhenReached | script.js:200-212 | a running countdown whose ticks reach its target beeps exactly once and ends stopped with its target kept |
| Widget.Countdown.constructor | script.js:338-345 | start-up: the restored snapshot (or the preset target 2025-10-08) is overridden by the query parameters. The timer then starts if there is a target, beeping at once if the target has passed. The completion panel is shown, with the counters already split when time is left |
| Widget.Countdown.SaveState | script.js:50-52 | storage holds a snapshot of the configuration |
| Widget.Countdown.ApplyBackground | script.js:90-99 | the page shows the uploaded image, else the external URL, else no image |
| Widget.Countdown.UpdateUI | script.js:177-198 | the screen becomes `Display.Updated` of the difference |
| Widget.Countdown.StopTimer | script.js:223-230 | the timer fields become `Timing.Stop` of the old ones |
| Widget.Countdown.Tick | script.js:200-212 | the timer becomes `Timing.Tick`, the counters are redrawn, one beep is played exactly when the target is reached, and consistency is kept |
| Widget.Countdown.IntervalFired | script.js:218 | a scheduled tick acts only while the interval exists. It beeps exactly when it finds the target reached |
| Widget.Countdown.StartTimer | script.js:214-221 | the timer becomes `Timing.Start` and is consistent whenever a target is set; the immediate tick is drawn and beeps when due |
| Widget.Countdown.PauseTimer | script.js:232-239 | the timer becomes `Timing.Pause`, and consistency is kept |
| Widget.Countdown.ResumeTimer | script.js:241-248 | the timer becomes `Timing.Resume`. A resume that acts saves the new target and draws a tick. Otherwise nothing changes |
| Widget.Countdown.ResetTimer | script.js:250-259 | the timer becomes `Timing.Reset`, the unset target is saved, and the completion text is written while the counters panel stays visible |
| Widget.Countdown.ResetClicked | script.js:292-295 | without confirmation nothing changes; with it the countdown is reset and saved unset, no other field of the configuration changes, and the screen is `resetTimer`'s |
| Widget.Countdown.PauseClicked | script.js:285-290 | the timer becomes `Timing.PressPause`, with the effects of the chosen action on the screen, storage and beeps |
| Widget.Countdown.FormInput | script.js:133-142 | the configuration becomes `Settings.WithForm` of the form, is saved, and the background is redrawn |
| Widget.Countdown.SetClicked | script.js:262-283 | the form is stored first. The outcome is `Timing.Decide`, and the timer becomes `Timing.SetTarget`. An accepted date is saved and started, beeping at once when it is not in the future |
| Widget.Countdown.ThemeChanged | script.js:167-171 | the selected theme is stored and saved; nothing else changes |
| Widget.Countdown.ImageLoaded | script.js:149-156 | the configuration becomes `Settings.WithUpload`, is saved, and the image is shown |
| Widget.Countdown.BgUrlInput | script.js:161-166 | the configuration becomes `Settings.WithBgUrlInput`, is saved, and the background is redrawn |
| Widget.Countdown.ShareClicked | script.js:298-306 | the form is stored and saved, only the background of the screen is redrawn, and the parameters written are `Settings.ShareQuery` of the stored configuration |
| Widget.Countdown.ShareParams | script.js:300-306 | the parameters set one by one are `Settings.ShareQuery` of the configuration |
| Widget.Countdown.ParseQuery | script.js:63-80 | the configuration becomes `Settings.ApplyQuery` of the query, consistency is kept, and it is saved exactly when a parameter was taken |

## Left out

- DOM rendering is not modelled:
  - element lookups;
  - `textContent` and the `pad` formatting of the counters;
  - button labels;
  - the target label and the page title of `setUIFromState`;
  - `applyTheme`'s CSS classes.

  The screen is reduced to the visible panel, the counters, the completion
  text and the background.
- `setUIFromState` is modelled only as `Settings.FormOf`, the values it
  writes into the form. The theme selector's option list is not modelled:
  a stored theme that is not an option shows as given.
- `localStorage` and JSON are not modelled. `saveState` is a snapshot
  copy. `loadState` is the constructor's `loaded`, a whole configuration;
  a stored record with missing fields, merged by `Object.assign`, and an
  unreadable record are not modelled.
- A write to storage that fails (for example over quota with a large
  uploaded image) is not modelled, nor is the rest of the handler it cuts
  short:
  - the upload handler would stop before redrawing;
  - `setStateFromUI` would stop before redrawing, and with it the Set and
    Share handlers;
  - `resumeTimer` would stop after clearing `remainingWhenPaused` and before
    `startTimer`, leaving a pause without a captured time.

  Every `saveState` here succeeds.
- `setInterval` and `clearInterval`, with their 250 ms cadence, are not
  modelled. A scheduled interval is the flag `intervalActive`, and its
  callback is `IntervalFired`, called with whatever clock readings the
  caller chooses.
- The `Date` class is not modelled:
  - ISO-8601 text and `toISOString` are replaced by decimal milliseconds
    (`InstantText`);
  - the date-and-time input's local-time parsing is the datatype
    `Timing.Picked`;
  - `toLocaleString` and time zones are left out.

  A stored target that does not parse (`NaN` in the source) has no
  counterpart, because targets are integers.
- `FileReader` is not modelled. An upload is the already-read data URL
  passed to `ImageLoaded`; a change event with no file does nothing and
  is not modelled.
- The clipboard, `prompt` and `alert` are not modelled. `confirm` is a
  boolean parameter. The share handler returns the parameter map instead
  of copying the link.
- The page's origin and path are not modelled.
- The WebAudio beep is a counter.
- `URLSearchParams` is not modelled: the query is a map, and percent-encoding
  and the order of parameters are left out. A repeated parameter, of
  which the source reads the first, is not modelled.
- The debugging handle `window._tripCountdown` is not modelled, nor any
  aliasing of `state` through it. Writes through that handle can break the
  invariant: clearing `state.targetIso` while the timer runs or is paused
  leaves an interval, or a pause, without a target. For this reason
  `Widget.Countdown.Tick` and `Widget.Countdown.StartTimer` are stated
  for any state, not only consistent ones.
- Event dispatch and the asynchronous ordering of handlers are not
  modelled. Each handler runs to completion with the clock reading it is
  given.
