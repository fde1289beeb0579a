# Micro-Bit control dashboard: command-dispatch core

This project models the part of the Micro-Bit control dashboard that decides what
gets sent to the robot. It covers two front ends.

- **The React dashboard** (`src/App.jsx`). The `Dashboard` class holds its state: the
  device and connection flags, the command map, the single active control, the
  recording flag and recorded steps, the saved sequences, and the five-entry activity
  log. `sendCmd` is modelled as a method whose effect is the two-state predicate
  `Dispatched`.
  - Each input source becomes a pure classifier from one reading to an intent:
    keyboard, voice, tilt and joystick. The calibration sliders classify nothing: they
    send their channel letter followed by the value.
  - Replay and mission execution become loops that build the schedule of
    `(delay, token)` sends they would issue.
  - The firmware text is a template filled with the comparisons against the map's
    tokens.
- **The legacy controller** (`legacy/script.js`). The `LegacyController` class holds its
  shared state object and the set of page elements that carry the `active` class. It
  has the same press/release/stop protocol and key bindings, slider commands built from
  the slider id, and its own firmware template.

External parts are parameters of the model:

- What the browser would report at the moment of a send is an `Env` value:
  - whether the GATT link is up;
  - how the write ended (accepted, or thrown with an error name);
  - the local time shown in the log;
  - `Date.now()`.
- In the legacy controller the write outcome is a boolean.
- The joystick and mission angles arrive in degrees, already computed. For a mission
  this is a `bearing` function parameter.
- The user's answer to the naming prompt is an `Option<string>`.

Frames the device accepted are collected in a `delivered` field, so that "what went
over the wire" can be stated.

The dashboard keeps two notions of "connected", and the model keeps them apart as the
code does. The header shows the `isConnected` flag, but `sendCmd` guards on the device
object and `device.gatt.connected` (src/App.jsx:119). So after a non-network write error, `isConnected` can stay true
while sends are still attempted, and a send can go out while the flag is false.

## Model

| member | source | states |
|---|---|---|
| Common.IncludesIff | src/App.jsx:164-169 | `includes` as used by the voice handler holds exactly when the word occurs at some position of the transcript (both directions) |
| Common.Includes | src/App.jsx:164-169 | JavaScript's `includes`, searched suffix by suffix; a word longer than the transcript is never included, and `Common.IncludesIff` proves it holds exactly when the word occurs at some position |
| Common.ToLower | src/App.jsx:161 | lower-casing keeps the length, leaves no upper-case ASCII letter, and changes only upper-case letters, each to its lower-case form |
| Common.Trim | src/App.jsx:161 | the trimmed transcript is a slice of the input whose removed prefix and suffix are all white space, and which is empty or starts and ends with a non-space |
| Common.TrimKeepsChars | src/App.jsx:161 | trimming only drops characters: each character of the trimmed text comes from the input |
| Common.Decimal | src/App.jsx:275 | `Date.now()` renders as a non-empty string of decimal digits with no leading zero |
| Common.DecimalRoundTrip | src/App.jsx:275 | reading the rendered digits back gives the original number |
| Controls.DefaultsCoverControls | src/App.jsx:8-13 | with no stored map the defaults give each of the six controls a distinct non-empty token, none of them `stop` |
| Controls.KeyControl | src/App.jsx:384-388 | exactly the four arrow keys and `a`, `A`, `b`, `B` are bound, each to one of the six controls: ArrowUp, ArrowDown, ArrowLeft and ArrowRight drive `pad-up`, `pad-down`, `pad-left` and `pad-right`, `a`/`A` drive `btn-a` and `b`/`B` drive `btn-b` |
| Classifiers.NormaliseTranscript | src/App.jsx:161 | `.toLowerCase().trim()`: the result has no upper-case ASCII letter and neither starts nor ends with white space; `Common.ToLower` and `Common.Trim` characterise the two steps |
| Classifiers.FirstMatchAt | src/App.jsx:164-169 | when rule `k` is the first whose keywords occur, the table yields rule `k`'s intent |
| Classifiers.FirstMatchHasHit | src/App.jsx:164-169 | any intent the table yields comes from a rule whose keywords occur, with no earlier rule matching |
| Classifiers.FirstMatchWins | src/App.jsx:164-169 | the table yields an intent exactly when that intent belongs to the first matching rule (both directions) |
| Classifiers.FirstMatchSilent | src/App.jsx:164-169 | the table yields nothing exactly when no rule's keywords occur |
| Classifiers.VoiceTableUnfolds | src/App.jsx:164-169 | reading the six-rule table in priority order is the handler's if/else chain: forward/go, back/reverse, left, right, stop/halt, horn/beep |
| Classifiers.VoiceIntent | src/App.jsx:164-169 | the handler's chain agrees with the first matching rule of the priority table |
| Classifiers.VoiceSilentIff | src/App.jsx:164-169 | a transcript sends nothing exactly when none of the ten keywords occurs in it |
| Classifiers.TiltIntent | src/App.jsx:194-209 | with a missing reading taken as 0: up exactly when beta < -20; down exactly when beta > 20; left or right only when beta is within ±20 and gamma is below -20 or above 20; stop exactly when both are within ±20, so a tilt between 15 and 20 still stops |
| Classifiers.Sector | src/App.jsx:315-318 | the four sectors `(-45,45]` right, `(45,135]` down, `(-135,-45]` up, and the rest left partition the angles (each an if-and-only-if) |
| Classifiers.JoystickIntent | src/App.jsx:250-257 | a power of 0.3 or less stops whatever the angle; above it, the joystick's own chain picks the same direction as the mission's sectors |
| Classifiers.QuantisationExamples | src/App.jsx:201-257 | the boundary cases: 0° right, 90° down, -90° up, ±180° and -135° left; power exactly 0.3 stops; beta -25 gives up; beta -10 with gamma -25 gives left; beta 18 stops |
| ActivityLog.PushLog | src/App.jsx:136 | the new entry goes to index 0, older entries shift by one, and the length is at most five |
| ActivityLog.LogHoldsNewestFive | src/App.jsx:136 | after any number of pushes, the log is the newest five of all entries ever pushed, newest first, followed by what it held before |
| Schedules.ReplayFrom | src/App.jsx:282-291 | each recorded step is sent after waiting the gap since the previous step (0 before the first), in recorded order, then one `stop` with no wait |
| Schedules.ReplaySchedule | src/App.jsx:280-293 | what `playSequence` issues: nothing exactly when the sequence is empty (reading `sequence[0].timestamp` throws at src/App.jsx:282), otherwise one send per step and a final `stop` with no wait; `Schedules.ReplayKeepsRelativeTiming` and `Dashboard.SavedRecordingReplays` characterise its timing and its `stop` |
| Schedules.PlaySequence | src/App.jsx:280-293 | the replay loop, with `lastTime` following each step, builds exactly the replay schedule; an empty sequence sends nothing |
| Schedules.ReplayKeepsRelativeTiming | src/App.jsx:280-293 | in a replay, step `k` goes out `timestamp[k] - timestamp[0]` ms after the first and carries step `k`'s token; the last send is `stop` |
| Schedules.ExecuteMission | src/App.jsx:300-326 | fewer than two points send nothing; `n` points send `n-1` direction tokens (leg `i` is the sector of its bearing), each after the one-second dwell except the first, then `stop` after a dwell |
| Dashboard.SequenceName | src/App.jsx:275 | a non-empty answer is used as is; a cancelled or empty prompt names the sequence `Seq_` followed by the canonical decimal rendering of the current time, whose digits read back as that time |
| Dashboard.Dashboard.constructor | src/App.jsx:5-52 | the stored command map if present, else the defaults; stored sequences if present, else none; disconnected, no active control, not recording, empty log |
| Dashboard.Dashboard.SendCmd | src/App.jsx:118-148 | with no device or a link that is down, nothing changes. A successful write delivers `msg` plus a newline, puts `{time, msg}` at index 0 of the five-entry log, and appends `{msg, now}` to the recording when armed and `msg` is not `stop`. A thrown write logs `Delivery Failed` and clears the connection flag only for `NetworkError`. Nothing else changes |
| Dashboard.Dashboard.HandlePress | src/App.jsx:329-336 | a missing or empty token changes nothing; otherwise the token is sent and the control becomes the active one |
| Dashboard.Dashboard.HandleRelease | src/App.jsx:338-343 | only the active control's release sends `stop` and clears it; any other release changes nothing |
| Dashboard.Dashboard.KeyDown | src/App.jsx:390-392 | in the classic mode, a bound key that is not an auto-repeat presses its control; anything else changes nothing |
| Dashboard.Dashboard.KeyUp | src/App.jsx:393-395 | in the classic mode, a bound key releases its control; anything else changes nothing |
| Dashboard.Dashboard.OnVoiceResult | src/App.jsx:160-170 | the normalised transcript sends the token of its first matching rule (the literal `stop` for stop/halt), or nothing when no rule matches |
| Dashboard.Dashboard.OnOrientation | src/App.jsx:194-209 | every reading sends exactly the token of its tilt classification |
| Dashboard.Dashboard.OnJoystickMove | src/App.jsx:246-257 | every move sends exactly the token of its joystick classification |
| Dashboard.Dashboard.OnJoystickEnd | src/App.jsx:260-264 | letting go sends `stop` |
| Dashboard.Dashboard.OnSliderInput | src/App.jsx:585-589 | a calibration slider sends its channel letter immediately followed by the value |
| Dashboard.Dashboard.StartRecording | src/App.jsx:267-270 | arms the recording and empties it; nothing else changes |
| Dashboard.Dashboard.StopRecording | src/App.jsx:272-278 | disarms and keeps the steps; a non-empty recording is appended to the end of the saved list under its name, and an empty one is not saved |
| Dashboard.Dashboard.SetCommand | src/App.jsx:936-941 | editing a setting changes exactly that key's token |
| Dashboard.Dashboard.Connect | src/App.jsx:353-376 | success raises the device and connection flags; a failure ends in the disconnected state |
| Dashboard.Dashboard.OnDisconnected | src/App.jsx:346-351 | clears the device and the connection flag and nothing else |
| Dashboard.SavedRecordingReplays | src/App.jsx:139-141 | a saved recording, which is non-empty and never holds `stop`, always replays, and its only `stop` is the final send |
| Firmware.GuardOffsets | src/App.jsx:71-112 | in a filled template, each comparison occurs at its offset, within the text, in the given order and without overlap |
| Firmware.FilledTemplateIncludesGuards | src/App.jsx:71-112 | a template filled with comparisons against a token list contains each token's comparison (through `Common.IncludesIff`); used for both firmware templates |
| Firmware.FilledTemplateGuardsInOrder | src/App.jsx:71-112 | a template filled with comparisons against a token list holds each token's comparison at its own place, strictly in the order of the list; it is used for both the dashboard's template and the legacy one at legacy/script.js:120-151 |
| Firmware.AppFirmwareGuardsInOrder | src/App.jsx:71-112 | the dashboard's firmware compares the received line with the up, down, right and left tokens and then `stop`, in that order |
| Firmware.LegacyFirmwareGuardsInOrder | legacy/script.js:118-151 | the legacy firmware compares the received line with the up, down, right and left tokens and then `stop`, in that order |
| Firmware.AppFirmware | src/App.jsx:71-112 | the dashboard's firmware text, filled with the up, down, right, left and `stop` comparisons, contains each of them; `Firmware.AppFirmwareGuardsInOrder` places them in that order |
| Firmware.LegacyFirmware | legacy/script.js:120-151 | the legacy firmware text contains each of the five comparisons; `Firmware.LegacyFirmwareGuardsInOrder` places them in order |
| Legacy.SplitDash | legacy/script.js:213 | `split('-')` always yields at least one piece, and no piece contains a dash |
| Legacy.SliderPrefix | legacy/script.js:213 | `split('-')[1]`: the prefix has no dash, and an id without a dash gives `undefined`; `Legacy.SliderCommandOfId` shows it is the second piece of the id |
| Legacy.SliderCommand | legacy/script.js:218 | `${prefix}${val}`: the command ends with the value, and the part before it has no dash; `Legacy.SliderCommandOfId` and `Legacy.SliderCommandWithoutDash` give it exactly |
| Legacy.SplitDashHead | legacy/script.js:213 | splitting a dash-free head and a dash gives the head, then the pieces of the rest |
| Legacy.SplitDashFirst | legacy/script.js:213 | the first piece of a dash-free head followed by nothing or a dash is that head |
| Legacy.SplitDashWhole | legacy/script.js:213 | a dash-free string is a single piece |
| Legacy.SliderCommandOfId | legacy/script.js:212-219 | a slider `<kind>-<channel>[-...]` sends `<channel><value>` |
| Legacy.SliderCommandWithoutDash | legacy/script.js:212-219 | a slider id without a dash sends `undefined<value>` |
| Legacy.LegacyController.constructor | legacy/script.js:5-17 | the stored command map if present, else the defaults; disconnected, no device, no characteristic, nothing active |
| Legacy.LegacyController.SendCmd | legacy/script.js:83-91 | without a characteristic nothing happens; otherwise a successful write delivers `msg` plus a newline, and a failed write changes nothing |
| Legacy.LegacyController.HandlePress | legacy/script.js:161-168 | with a truthy token, sends it and marks the control active when its element exists; otherwise nothing changes |
| Legacy.LegacyController.HandleRelease | legacy/script.js:170-176 | only an active control's release sends `stop` and un-marks that one control; other flags are untouched, and releasing an inactive control sends nothing |
| Legacy.LegacyController.KeyDown | legacy/script.js:198-206 | a bound key that is not an auto-repeat presses its control; repeats and unbound keys change nothing |
| Legacy.LegacyController.KeyUp | legacy/script.js:207-209 | a bound key releases its control; unbound keys change nothing |
| Legacy.LegacyController.SliderInput | legacy/script.js:212-220 | sends the slider's prefix followed by the value; when the `val-<prefix>` display element is missing, the handler throws first and nothing changes |
| Legacy.LegacyController.OnDisconnected | legacy/script.js:75-81 | the connection flag, the device and the characteristic are all cleared |
| Legacy.LegacyController.Connect | legacy/script.js:46-69 | success sets all three; any failure ends exactly as a disconnect |

## Left out

- Web Bluetooth is not modelled: the device chooser, GATT connect, service and characteristic discovery, and the disconnect request. Only their outcomes enter, as parameters.
- The dashboard `sendCmd` can re-acquire a lost characteristic before writing. That path is folded into the write outcome.
- Timers and `await` are not modelled. Replay and mission execution are modelled as the schedule of sends they issue.
- Concurrency is not modelled. Interleaved sends from overlapping replays or handlers are out. The `executingMission` busy flag only disables a button, so it is out too.
- Schedules.PlaySequence: `setTimeout` treats a negative delay as 0. The model keeps the raw difference of timestamps.
- Geometry is not modelled: `Math.atan2`, `Math.sqrt` and the clamping to the joystick radius are floating point. The angle in degrees and the power ratio are inputs, and the model compares them as exact reals.
- Speech recognition and device orientation are not modelled: their subscriptions, permissions and start/stop toggles are out. Only the handlers' classification is kept.
- These side effects are out, because they produce no state the core reads:
  - `localStorage` and `JSON` persistence (the stored map and sequences are constructor parameters);
  - `navigator.vibrate`;
  - the formatting by `toLocaleTimeString` (the time text is a parameter);
  - firmware download and direct sync;
  - `alert`;
  - the legacy page's button text, dot colours and code preview.
- The generated firmware is not modelled as a program that runs on the micro:bit. The model covers only its text, as far as which comparisons it holds and in what order.
- Re-renders are not modelled. The React handlers capture `commands`, `recording` and `activeButton` from the render in which they were created. The model reads the current state, treating each update as a sequential assignment.
- JavaScript `undefined` is modelled as the string `undefined`. A missing token written to the device really is the text `undefined`. In the log and in a recorded step the source holds the value `undefined`, not that text.
- Common.ToLower covers ASCII only. `toLowerCase` also folds non-ASCII letters, and the model does not.
- Common.Trim covers a fixed set of white-space characters: ASCII white space, no-break space, the byte-order mark and the line and paragraph separators. It leaves out the other Unicode space separators that `trim` also removes.
- LegacyFirmware: the legacy page never builds this text. `elements` has no `copyBtn`, so `elements.copyBtn.addEventListener` (legacy/script.js:229) throws and ends the page's start-up handler before its call to `generateFirmware()` (legacy/script.js:277). The model covers the function's output only. The direct-sync and download listeners registered after line 229 are likewise never attached.
- Legacy listener registration is not modelled. The `forEach` loops in the source attach handlers to every button and slider. The model exposes the handlers as methods that take the element id.
- The legacy UI sync (`updateUI`) is not modelled, because it only restyles the page.
