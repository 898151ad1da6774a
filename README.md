# Night Walkers background panic trigger — Dafny model

This project models the native Android core of the Night Walkers safety app.

`VolumeTriggerService` is a foreground service that watches the volume
buttons.
- On every volume-change tick it compares the level of each tracked audio
  stream (music, ring, notification, alarm) with the level it stored at the
  previous tick, then stores the new levels.
- A tick on which some stream went down counts as one press, however many
  streams went down.
- Presses are counted in a 4000 ms window anchored at the first press. The
  third press in the window resets the counter, starts the alarm and
  broadcasts `VOLUME_TRIGGER`.
- The alarm session is guarded by `isAlarmActive`, so repeated starts and
  stops do nothing.
- Every start posts an auto-stop 30 000 ms later. A manual stop does not
  cancel it, so the auto-stop of one session can end a later session early.
  The model keeps this behaviour.

`MainActivity` answers method calls from the Flutter side:
- it validates a direct-SMS request;
- it picks an `SmsManager` (explicit subscription, then the default
  subscription, then the system service on Android S or later, then
  `getDefault`);
- it sends the message in one part or in several;
- it switches the background service on or off, and reports whether it is
  among the running services.

Layout:
- `wrappers.dfy`: Kotlin nullable values, as `Option`.
- `decimal.dfy`: how a Kotlin string template renders an `Int`, with a parser
  that reads it back.
- `volume_trigger.dfy`: module `VolumeTrigger`. It holds the specification
  functions (`VolumeChanged`, `Press`, `StartAlarm`, `StopAlarm`, `RunDue`,
  `StatusText`) with lemmas about them, and the class `VolumeTriggerService`.
  The class's methods are proved to update the object's fields as those
  functions say.
- `main_activity.dfy`: module `MainActivity`. It holds the pure decisions of
  the handler and the `IsServiceRunning` loop.

Platform values are parameters:
- `Levels` is what `getStreamVolume` returns at this tick.
- `Device` says whether a ringtone was found and whether a vibrator exists.
- `Platform` holds the SDK level, the default SMS subscription, whether the
  system `SmsManager` exists, and the `divideMessage` result.
- The running services are given as a list of class names.
- Time is an integer `now` handed to each tick.
- The main handler's delayed callbacks are the `pendingStops` list of
  deadlines. `RunDueCallbacks(now)` runs every callback that is due.
- The ringtone and the vibrator are the ghost flags `soundOn` and `vibrating`.

Behaviour of the code worth knowing:
- The auto-stop posted at VolumeTriggerService.kt:222 is never cancelled by
  `stopBackgroundAlarm` (225-233). `StaleFailsafeStopsNextSession` and
  `StaleFailsafeScenario` show what follows.
- `ACTION_TRIGGER` is broadcast whenever the third press lands, even while
  the alarm is already active. Only the alarm start is guarded
  (VolumeTriggerService.kt:134-140).
- Near the clock's origin (`now <= 4000`) the first press does not move the
  anchor away from 0. The model computes `now - firstPressAt` exactly as
  written.

## Model

| member | source | states |
|---|---|---|
| `VolumeTrigger.Refreshed` | android/app/src/main/kotlin/com/example/night_walkers_app/VolumeTriggerService.kt:115-122 | after a tick every stream stores its current level, whether or not a press was seen |
| `VolumeTrigger.PressIffSomeStreamDown` | android/app/src/main/kotlin/com/example/night_walkers_app/VolumeTriggerService.kt:115-119 | the scan counts a press iff some stream with a stored level is now strictly lower; a stream with no stored level never counts, and the scan order does not matter |
| `VolumeTrigger.ScanStep` | android/app/src/main/kotlin/com/example/night_walkers_app/VolumeTriggerService.kt:116-121 | each stream is compared with its previous level before it is overwritten, because the tracked streams are distinct |
| `VolumeTrigger.Press` | android/app/src/main/kotlin/com/example/night_walkers_app/VolumeTriggerService.kt:126-140 | a press more than 4000 ms after the anchor restarts at count 1 anchored at `now`; otherwise the count grows with the anchor kept, and reaching 3 fires and resets to (0, 0); `0 <= count < 3` is preserved |
| `VolumeTrigger.PressAllKeepsValid` | android/app/src/main/kotlin/com/example/night_walkers_app/VolumeTriggerService.kt:126-136 | over any run of presses the count stays in 0..2, and a zero count has anchor 0 |
| `VolumeTrigger.FiringsNeedThreePresses` | android/app/src/main/kotlin/com/example/night_walkers_app/VolumeTriggerService.kt:126-140 | over any run, 3 × firings + final count never exceeds the presses; no press is counted twice |
| `VolumeTrigger.ThreeQuickPressesFire` | android/app/src/main/kotlin/com/example/night_walkers_app/VolumeTriggerService.kt:126-136 | three presses within 4000 ms of the first fire exactly once and leave the window reset |
| `VolumeTrigger.LateSecondPressStartsOver` | android/app/src/main/kotlin/com/example/night_walkers_app/VolumeTriggerService.kt:126-128 | a second press more than 4000 ms after the first leaves count 1 anchored at the second press |
| `VolumeTrigger.WindowAnchoredAtFirstPress` | android/app/src/main/kotlin/com/example/night_walkers_app/VolumeTriggerService.kt:126-131 | the window is not refreshed by later presses: a third press late for the first press starts over even if it is close to the second |
| `VolumeTrigger.StartAlarm` | android/app/src/main/kotlin/com/example/night_walkers_app/VolumeTriggerService.kt:198-223 | a no-op while active; otherwise the session becomes active, sound follows the ringtone found, vibration follows the vibrator, and exactly one stop is queued at `now + 30000` |
| `VolumeTrigger.StopAlarm` | android/app/src/main/kotlin/com/example/night_walkers_app/VolumeTriggerService.kt:225-231 | a no-op while inactive; otherwise the session becomes inactive, the ringtone is dropped and the actuators are off; the queued stops are untouched |
| `VolumeTrigger.StartIsIdempotent` | android/app/src/main/kotlin/com/example/night_walkers_app/VolumeTriggerService.kt:198-222 | a second start changes nothing and adds no second queued stop |
| `VolumeTrigger.StopIsIdempotent` | android/app/src/main/kotlin/com/example/night_walkers_app/VolumeTriggerService.kt:225-227 | a second stop changes nothing |
| `VolumeTrigger.StopServiceIsIdempotent` | android/app/src/main/kotlin/com/example/night_walkers_app/VolumeTriggerService.kt:225-233 | a second service-level stop (with its notification reset) changes nothing |
| `VolumeTrigger.NotDue` | android/app/src/main/kotlin/com/example/night_walkers_app/VolumeTriggerService.kt:222 | the queued stops left after `now` are exactly those whose deadline is later than `now`, each kept as many times as it was queued |
| `VolumeTrigger.Created` | android/app/src/main/kotlin/com/example/night_walkers_app/VolumeTriggerService.kt:72-80 | after creation every stream holds its current level, nothing is counted, the notification shows count 0, no alarm is active and nothing is queued |
| `VolumeTrigger.Stop` | android/app/src/main/kotlin/com/example/night_walkers_app/VolumeTriggerService.kt:225-233 | the service-level stop: a no-op while inactive; otherwise the alarm stops and the notification goes back to the instruction text; window and levels untouched |
| `VolumeTrigger.VolumeChanged` | android/app/src/main/kotlin/com/example/night_walkers_app/VolumeTriggerService.kt:111-141 | levels always refreshed; a tick without a press changes nothing else and broadcasts nothing; a press applies the window rule and the notification shows the new count; a broadcast comes with a reset window and one alarm start; the service invariant is preserved |
| `VolumeTrigger.RunDue` | android/app/src/main/kotlin/com/example/night_walkers_app/VolumeTriggerService.kt:222 | the due stops are removed; if any was due the state is that of `Stop`, otherwise nothing but the queue changes; window and stored levels are untouched |
| `VolumeTrigger.StartCommand` | android/app/src/main/kotlin/com/example/night_walkers_app/VolumeTriggerService.kt:65-70 | `ACTION_STOP_ALARM` stops the alarm; any other or no action changes nothing |
| `VolumeTrigger.FailsafeEndsSession` | android/app/src/main/kotlin/com/example/night_walkers_app/VolumeTriggerService.kt:221-222 | a session nobody stops is over at `start + 30000`, with ringtone and actuators off |
| `VolumeTrigger.SessionRunsUntilFailsafe` | android/app/src/main/kotlin/com/example/night_walkers_app/VolumeTriggerService.kt:222 | if no older stop is due, the session is still active before `start + 30000` |
| `VolumeTrigger.StaleFailsafeStopsNextSession` | android/app/src/main/kotlin/com/example/night_walkers_app/VolumeTriggerService.kt:222-227 | the stop queued by a manually stopped session ends the next session at the old deadline |
| `VolumeTrigger.PressTimes` | android/app/src/main/kotlin/com/example/night_walkers_app/VolumeTriggerService.kt:111-124 | no more press times than ticks |
| `VolumeTrigger.PressTimesOnePerTick` | android/app/src/main/kotlin/com/example/night_walkers_app/VolumeTriggerService.kt:111-124 | each tick appended to a run adds its own time exactly when it is a press against the levels stored before it, and nothing otherwise; the stored levels then become that tick's levels |
| `VolumeTrigger.TicksFoldPresses` | android/app/src/main/kotlin/com/example/night_walkers_app/VolumeTriggerService.kt:111-141 | over any run of ticks the window evolves exactly as under its press ticks alone, and there is one broadcast per firing |
| `VolumeTrigger.BroadcastsNeedThreePressTicks` | android/app/src/main/kotlin/com/example/night_walkers_app/VolumeTriggerService.kt:124-140 | every `VOLUME_TRIGGER` broadcast of a run takes three press ticks |
| `VolumeTrigger.RetriggerWhileActive` | android/app/src/main/kotlin/com/example/night_walkers_app/VolumeTriggerService.kt:134-140 | a tick while the alarm is active never changes the session, yet the third press still broadcasts `VOLUME_TRIGGER` |
| `VolumeTrigger.StatusText` | android/app/src/main/kotlin/com/example/night_walkers_app/VolumeTriggerService.kt:158-162 | `"Detected presses: n/3"` for n > 0, the fixed instruction otherwise |
| `VolumeTrigger.StatusTextShowsCount` | android/app/src/main/kotlin/com/example/night_walkers_app/VolumeTriggerService.kt:158-159 | the count can be parsed back from the status line |
| `VolumeTrigger.StatusTextDistinguishesCounts` | android/app/src/main/kotlin/com/example/night_walkers_app/VolumeTriggerService.kt:158-162 | distinct positive counts show distinct lines, none of them the instruction |
| `VolumeTrigger.VolumeTriggerService.NotificationText` | android/app/src/main/kotlin/com/example/night_walkers_app/VolumeTriggerService.kt:194-196 | the notification shows the instruction exactly when the last count shown is 0 |
| `VolumeTrigger.VolumeTriggerService.constructor` | android/app/src/main/kotlin/com/example/night_walkers_app/VolumeTriggerService.kt:72-80 | `onCreate`: the loop records every tracked stream; the state is `Created` |
| `VolumeTrigger.VolumeTriggerService.ScanStreams` | android/app/src/main/kotlin/com/example/night_walkers_app/VolumeTriggerService.kt:115-122 | the loop updates `lastVolumes` in place to `Refreshed` and reports `IsPress` of the old levels |
| `VolumeTrigger.VolumeTriggerService.OnVolumeChanged` | android/app/src/main/kotlin/com/example/night_walkers_app/VolumeTriggerService.kt:111-141 | new fields and broadcast are those of `VolumeChanged`; the invariant is kept |
| `VolumeTrigger.VolumeTriggerService.TriggerBackgroundAlarm` | android/app/src/main/kotlin/com/example/night_walkers_app/VolumeTriggerService.kt:198-223 | new fields are those of `Start` (`StartAlarm` on the session) |
| `VolumeTrigger.VolumeTriggerService.StopBackgroundAlarm` | android/app/src/main/kotlin/com/example/night_walkers_app/VolumeTriggerService.kt:225-233 | new fields are those of `Stop` |
| `VolumeTrigger.VolumeTriggerService.OnStartCommand` | android/app/src/main/kotlin/com/example/night_walkers_app/VolumeTriggerService.kt:65-70 | returns `START_STICKY`; new fields are those of `StartCommand` |
| `VolumeTrigger.VolumeTriggerService.RunDueCallbacks` | android/app/src/main/kotlin/com/example/night_walkers_app/VolumeTriggerService.kt:222 | running every due callback, one stop per callback, yields `RunDue` |
| `VolumeTrigger.StaleFailsafeScenario` | android/app/src/main/kotlin/com/example/night_walkers_app/VolumeTriggerService.kt:198-233 | session 2, started at 20 s, still rings at 39.999 s and is stopped at 40 s by session 1's auto-stop |
| `MainActivity.TargetSubscription` | android/app/src/main/kotlin/com/example/night_walkers_app/MainActivity.kt:135-138 | the given id when present and not `INVALID`, otherwise the default subscription |
| `MainActivity.GetSmsManager` | android/app/src/main/kotlin/com/example/night_walkers_app/MainActivity.kt:134-155 | a manager is always chosen: by subscription when the target is valid (never for `INVALID`); else the system service when SDK >= S and it exists, and `getDefault` in every other case; the label names the manager |
| `MainActivity.SourceNameInjective` | android/app/src/main/kotlin/com/example/night_walkers_app/MainActivity.kt:140-154 | the reported `managerSource` identifies the manager, down to its subscription id |
| `MainActivity.ExplicitSubscriptionWins` | android/app/src/main/kotlin/com/example/night_walkers_app/MainActivity.kt:135-144 | a valid explicit subscription gives `"subscription:<id>"` whatever the platform says |
| `MainActivity.SendDirectSms` | android/app/src/main/kotlin/com/example/night_walkers_app/MainActivity.kt:40-59 | rejected with `invalid_args` and nothing sent iff `to` is null or blank or `message` is null or empty; else multipart iff more than one part, and the reply carries the manager's label |
| `MainActivity.WhitespaceMessageIsSent` | android/app/src/main/kotlin/com/example/night_walkers_app/MainActivity.kt:40-43 | a whitespace-only message is sent, while a whitespace-only recipient is rejected |
| `MainActivity.IsServiceRunning` | android/app/src/main/kotlin/com/example/night_walkers_app/MainActivity.kt:158-166 | true iff some running service has the target class name |
| `MainActivity.HandleCall` | android/app/src/main/kotlin/com/example/night_walkers_app/MainActivity.kt:34-118 | routing of the four method names; the service starts only for `enabled == true`; any other name is `notImplemented` with no effect |
| `MainActivity.MissingEnabledStopsService` | android/app/src/main/kotlin/com/example/night_walkers_app/MainActivity.kt:94-101 | a missing `enabled` argument is false and stops the service |

## Left out

- Building the notification, creating its channel, the stop `PendingIntent` and `startForeground` (VolumeTriggerService.kt:143-196) are platform UI. Only the status-text rule and the count last shown are kept.
- Registering and unregistering the broadcast receivers and the content observer is left out (VolumeTriggerService.kt:48-61,81-105; MainActivity.kt:21-27,121-131). Ticks are method calls instead.
- The Flutter callback `onVolumeTrigger` that MainActivity's receiver forwards is left out, as is the `MethodChannel` plumbing and `directSmsChannel`.
- Real time, `System.currentTimeMillis`, threads and `Handler.postDelayed` are replaced by an integer `now` and the `pendingStops` deadline list.
- The model uses one clock `now`. The code reads the press window's time from `System.currentTimeMillis` (VolumeTriggerService.kt:112), while `Handler.postDelayed` (:222) counts on the uptime clock. A jump of the wall clock therefore moves the press window but not the auto-stop; the model does not capture that.
- Timestamps are unbounded integers, so `now - firstPressAt` is exact. The JVM `Long` would overflow only for timestamps near ±2^63.
- Ringtone lookup (alarm URI, then ringtone URI), `RingtoneManager.getRingtone` and playback become `Device.ringtoneFound` and the ghost flag `soundOn`. Looping only from Android P on, and failures inside `ringtone.stop()`, are not modelled.
- The vibrator's waveform and the SDK branch around `vibrate` are hardware calls. They become `Device.hasVibrator` and the ghost flag `vibrating`.
- Sending through `SmsManager`, the internals of `divideMessage` and every exception path are telephony or platform failures that the model cannot produce: `direct_sms_failed`, `diagnostics_failed`, `background_trigger_failed`, `background_trigger_status_failed`, and a wrong argument type in `call.argument`.
- MainActivity.HandleCall: the diagnostics reply keeps only `systemSmsManagerAvailable`. The other fields are raw platform readings (SDK, default id, telephony feature, SMS intent resolution).
- Subscription ids are unbounded integers, not 32-bit `Int`. Their decimal text is the same for every 32-bit value.
- Location acquisition, contact fan-out and the strobe are not in VolumeTriggerService.kt or MainActivity.kt and are not part of this model.
