# Motion-gesture detectors of the quiz app, in Dafny

The quiz app turns device motion into quiz navigation. Three Kotlin listener
classes classify the stream of sensor events. Each is a small stateful object:
it is fed one event at a time together with the current time in milliseconds,
and it decides whether to report a gesture. It keeps per-gesture cooldown
timestamps, calibration flags and a tilt latch.

- `GestureDetector` (unified): accelerometer events are checked for a shake and
  then, only if no shake was reported, for a tilt away from the neutral position
  captured by the first sample. The tilt has hysteresis: it latches at a deviation
  above 7 and re-arms below 3. Rotation-vector events compare the azimuth with a
  reference azimuth, along the shorter arc. Once 1500 ms have passed since the
  last rotation, a difference of 45 degrees or more reports a rotation. Once
  1500 ms have passed since the last rotation, a difference under 10 degrees
  silently moves the reference along with the device. Within those 1500 ms the
  reference stays where it is. `resetCalibration` makes the next sample of each
  kind recalibrate.
- `RotationDetector` (earlier, rotation only): it uses the roll, a 60 degree
  threshold and no re-baselining. `reset` makes the next sample the new reference.
- `ShakeDetector` (earlier, shake only): it reports with a 1000 ms cooldown.

Every detector is modelled twice, and the two are tied together:

- Value level. A `State` datatype holds the object's fields. Pure step functions
  give one call's new state and report. `Run` feeds a whole sequence of inputs
  (events with their times, and resets) and collects the reports. The lemmas
  about the source's promises are proved at this level.
- Object level. A `class` has the same fields as the Kotlin class, and its
  methods mirror the Kotlin methods one by one. Each method's postcondition says
  that its new fields and its result are exactly what the step function gives
  for the old fields. The callbacks become a returned gesture or flag. The wall
  clock becomes a `currentTime` parameter.

Modules: `SensorModel` (events, gestures, and the arithmetic shared by the
detectors), `GestureDetection` and `GestureProperties` (GestureDetector.kt),
`RotationDetection` (api/RotationDetector.kt), `ShakeDetection`
(ShakeDetector.kt).

The shake test in the source is `sqrt(x²+y²+z²) - GRAVITY_EARTH > 12`. The model
compares squares instead, `x²+y²+z² > (12 + 9.80665)²`. `ShakeMagnitudeAboveIff`
proves that this decides the same question for the true magnitude. So the model
takes the raw accelerometer axes and needs no square root.

The cooldown spacing properties hold without assuming that the clock never goes
backwards. Each fire condition measures the cooldown from the previous report of
the same gesture, and only that report moves the timestamp. So the lemmas
(`ReportsSpaced`, `RotationsSpaced`, `ShakesSpaced`) are stated for every
sequence of inputs.

Two points about the code's timing and thresholds:

- `lastShakeTime` starts at 0 (ShakeDetector.kt:11, GestureDetector.kt:16), so
  no shake can be reported at or before 1000 ms. `NoShakeAtTimeZero` shows this,
  and `ShakeScenario` runs a calibrate, shake, rest, shake sequence after that.
- The comment at api/RotationDetector.kt:47 mentions a 60 to 120 degree band.
  The code has no upper bound, and the model follows the code.

## Model

| member | source | states |
|---|---|---|
| SensorModel.MaxDelta | app/src/main/java/com/example/quiz_projekt/GestureDetector.kt:124-127 | the tilt deviation is the larger of the two axis deviations from the neutral position: at least each of them, and equal to one of them |
| SensorModel.ShakeMagnitudeAboveIff | app/src/main/java/com/example/quiz_projekt/GestureDetector.kt:110-112 | for the true magnitude m = sqrt(x²+y²+z²), `m - GRAVITY_EARTH > threshold` holds exactly when `ShakeMagnitudeAbove`, the squared comparison used by the model, holds |
| SensorModel.RotationDifference | app/src/main/java/com/example/quiz_projekt/GestureDetector.kt:87-91 | the folded angle difference never exceeds 180, and is non-negative whenever the raw difference is at most a full turn |
| SensorModel.RotationDifferenceIsShortestArc | app/src/main/java/com/example/quiz_projekt/api/RotationDetector.kt:40-45 | for angles in [-180, 180] the difference lies in [0, 180] and is the distance to the nearest copy of the reference one turn apart (shortest arc) |
| SensorModel.RotationDifferenceSymmetric | app/src/main/java/com/example/quiz_projekt/api/RotationDetector.kt:40-45 | swapping the current and the reference angle gives the same difference |
| SensorModel.RotationDifferenceAcrossSeam | app/src/main/java/com/example/quiz_projekt/GestureDetector.kt:87-91 | -170 and 170 degrees are 20 degrees apart, not 340 |
| GestureDetection.Run | app/src/main/java/com/example/quiz_projekt/GestureDetector.kt:37-51 | a run of inputs (`Apply` of `SensorStep` or `ResetStep`) yields at most one report per input, each stamped with the time of a delivered sample |
| GestureDetection.GestureDetector.constructor | app/src/main/java/com/example/quiz_projekt/GestureDetector.kt:16-35 | all timestamps are 0, both references are 0, the latch and both calibration flags are false, and the sensor type is -1 |
| GestureDetection.GestureDetector.OnSensorChanged | app/src/main/java/com/example/quiz_projekt/GestureDetector.kt:37-51 | the new fields and the report equal `SensorStep`: a null event changes nothing; any other event records its sensor type and goes to the accelerometer or the rotation handler; other sensors report nothing |
| GestureDetection.GestureDetector.HandleAccelerometer | app/src/main/java/com/example/quiz_projekt/GestureDetector.kt:53-70 | the new fields and the report equal `AccelerometerStep`: calibrate on the first sample, else `ShakeStep`, else `TiltStep` |
| GestureDetection.GestureDetector.HandleRotation | app/src/main/java/com/example/quiz_projekt/GestureDetector.kt:72-107 | the new fields and the report equal `RotationStep`: calibrate; re-baseline near the reference once the cooldown has elapsed; report at 45 degrees or more once the cooldown has elapsed; otherwise change nothing |
| GestureDetection.GestureDetector.DetectShake | app/src/main/java/com/example/quiz_projekt/GestureDetector.kt:109-121 | the result and the new fields equal `ShakeStep`: on a shake, lastShakeTime becomes the current time and the latch is cleared |
| GestureDetection.GestureDetector.DetectAnyTilt | app/src/main/java/com/example/quiz_projekt/GestureDetector.kt:123-143 | the new fields and the report equal `TiltStep` (fire and latch, silently unlatch, or nothing) |
| GestureDetection.GestureDetector.ResetCalibration | app/src/main/java/com/example/quiz_projekt/GestureDetector.kt:148-152 | the new fields equal `ResetStep`: the old ones with both calibration flags and the latch cleared |
| GestureProperties.FirstAccelerometerSampleCalibrates | app/src/main/java/com/example/quiz_projekt/GestureDetector.kt:58-63 | the first accelerometer sample after construction or reset stores the neutral position and sets the calibration flag; it reports nothing, not even a shake, and changes nothing else |
| GestureProperties.FirstRotationSampleCalibrates | app/src/main/java/com/example/quiz_projekt/GestureDetector.kt:81-85 | the first rotation sample stores the reference azimuth, reports nothing and changes nothing else |
| GestureProperties.ResetClearsOnlyFlags | app/src/main/java/com/example/quiz_projekt/GestureDetector.kt:148-152 | a reset clears exactly the two calibration flags and the latch; timestamps and references survive, so the cooldowns still apply |
| GestureProperties.NoReportRightAfterReset | app/src/main/java/com/example/quiz_projekt/GestureDetector.kt:58-85 | the first accelerometer or rotation event after a reset reports nothing |
| GestureProperties.ShakeFiresIff | app/src/main/java/com/example/quiz_projekt/GestureDetector.kt:109-121 | once calibrated, a shake is reported if and only if the acceleration exceeds 12 and more than 1000 ms passed since the last shake; it sets lastShakeTime, clears the latch and changes nothing else |
| GestureProperties.ShakePreemptsTilt | app/src/main/java/com/example/quiz_projekt/GestureDetector.kt:65-69 | when a shake is due the sample reports the shake and never a tilt, and the tilt timestamp is untouched; a tilt is reported exactly when no shake is due and a tilt is due; an accelerometer sample never reports a rotation |
| GestureProperties.TiltFiresOnlyWhenDue | app/src/main/java/com/example/quiz_projekt/GestureDetector.kt:123-137 | a tilt is reported if and only if some axis deviates by more than 7, the latch is open and more than 1500 ms passed since the last tilt; it closes the latch and sets lastTiltTime |
| GestureProperties.TiltHysteresis | app/src/main/java/com/example/quiz_projekt/GestureDetector.kt:129-142 | the latch is cleared exactly when it was set and the deviation is below 3, silently; deviations from 3 to 7, and above 7 with the latch set, change nothing |
| GestureProperties.SteadyDeviationTiltsAtMostOnce | app/src/main/java/com/example/quiz_projekt/GestureDetector.kt:123-142 | over any run of non-shaking samples that never come back within 3 of the neutral position, at most one tilt is reported, none if the latch was already set, and a set latch stays set |
| GestureProperties.RotationCases | app/src/main/java/com/example/quiz_projekt/GestureDetector.kt:87-106 | once calibrated, under 10 degrees with the cooldown elapsed the sample silently becomes the reference; at 45 degrees or more with the cooldown elapsed it reports a rotation, becomes the reference, sets lastRotationTime and clears the latch; every other case changes nothing; a rotation is reported only in the second case |
| GestureProperties.DriftNeverRotates | app/src/main/java/com/example/quiz_projekt/GestureDetector.kt:93-106 | a sample less than 45 degrees from the reference in force never reports a rotation |
| GestureProperties.ReportsSpaced | app/src/main/java/com/example/quiz_projekt/GestureDetector.kt:96-137 | for every gesture and every run of inputs (resets included, in any time order), each report comes more than that gesture's cooldown after the starting timestamp and after every earlier report of the same gesture |
| GestureProperties.ReportsSpacedFromStart | app/src/main/java/com/example/quiz_projekt/GestureDetector.kt:16-30 | from a fresh detector, two shakes are more than 1000 ms apart, and two tilts or two rotations more than 1500 ms apart |
| GestureProperties.ShakeScenario | app/src/main/java/com/example/quiz_projekt/GestureDetector.kt:58-69 | calibrate, hard shake, rest within the cooldown, hard shake after it: exactly the two hard shakes are reported |
| GestureProperties.NoShakeAtTimeZero | app/src/main/java/com/example/quiz_projekt/GestureDetector.kt:109-121 | a hard shake at time 0 right after calibration is not reported, since lastShakeTime starts at 0 |
| RotationDetection.Run | app/src/main/java/com/example/quiz_projekt/api/RotationDetector.kt:17-64 | a run of inputs (`Apply` of `SensorStep` or `ResetStep`) yields at most one report per input, each the time of a delivered sample |
| RotationDetection.OtherEventsIgnored | app/src/main/java/com/example/quiz_projekt/api/RotationDetector.kt:18 | null events and events from other sensors change nothing and report nothing |
| RotationDetection.FirstSampleInitializes | app/src/main/java/com/example/quiz_projekt/api/RotationDetector.kt:31-35 | the first sample after construction or reset stores the roll as reference and sets the flag, keeping lastRotationTime, and reports nothing |
| RotationDetection.RotationFiresIff | app/src/main/java/com/example/quiz_projekt/api/RotationDetector.kt:48-54 | once initialized, a rotation is reported if and only if the difference is at least 60 and more than 1500 ms passed since the last one; the reference and the time both move to the sample's |
| RotationDetection.NoReportKeepsReference | app/src/main/java/com/example/quiz_projekt/api/RotationDetector.kt:48-55 | once initialized, a sample that is not reported changes nothing: there is no re-baselining |
| RotationDetection.ResetKeepsCooldown | app/src/main/java/com/example/quiz_projekt/api/RotationDetector.kt:62-64 | reset clears only the flag; lastRotationTime and the reference survive |
| RotationDetection.QuietRunKeepsReference | app/src/main/java/com/example/quiz_projekt/api/RotationDetector.kt:40-55 | a run of samples without reset that reports nothing ends in exactly the starting state, so the reference never drifts along |
| RotationDetection.RotationsSpaced | app/src/main/java/com/example/quiz_projekt/api/RotationDetector.kt:48-54 | every report comes more than 1500 ms after the starting timestamp and after every earlier report, across resets and in any time order |
| RotationDetection.RotationsSpacedFromStart | app/src/main/java/com/example/quiz_projekt/api/RotationDetector.kt:13-54 | from a fresh detector, two reported rotations are more than 1500 ms apart |
| RotationDetection.RotationDetector.constructor | app/src/main/java/com/example/quiz_projekt/api/RotationDetector.kt:11-15 | the reference and the timestamp are 0 and the detector is not initialized |
| RotationDetection.RotationDetector.OnSensorChanged | app/src/main/java/com/example/quiz_projekt/api/RotationDetector.kt:17-56 | the new fields and the result equal `SensorStep`, which applies `RollStep` to the event's roll; other events change nothing |
| RotationDetection.RotationDetector.Reset | app/src/main/java/com/example/quiz_projekt/api/RotationDetector.kt:62-64 | the new fields equal `ResetStep`: only the initialization flag is cleared |
| ShakeDetection.Run | app/src/main/java/com/example/quiz_projekt/ShakeDetector.kt:15-34 | a run yields at most one report per sample, each at the time of one of the samples |
| ShakeDetection.OtherEventsIgnored | app/src/main/java/com/example/quiz_projekt/ShakeDetector.kt:16 | null events and events from other sensors change nothing and report nothing |
| ShakeDetection.ShakeFiresIff | app/src/main/java/com/example/quiz_projekt/ShakeDetector.kt:22-32 | a shake is reported if and only if the acceleration exceeds 12 and more than 1000 ms passed since the last one; the only change is lastShakeTime becoming the sample's time, and an unreported sample changes nothing |
| ShakeDetection.FirstShakeNeedsNoCalibration | app/src/main/java/com/example/quiz_projekt/ShakeDetector.kt:11-31 | from a fresh detector a strong enough sample is reported exactly when its time exceeds 1000 ms |
| ShakeDetection.ShakesSpaced | app/src/main/java/com/example/quiz_projekt/ShakeDetector.kt:27-31 | every report comes more than 1000 ms after the starting timestamp and after every earlier report, in any time order |
| ShakeDetection.ShakesSpacedFromStart | app/src/main/java/com/example/quiz_projekt/ShakeDetector.kt:11-31 | from a fresh detector, reports are more than 1000 ms apart and the first comes after 1000 ms |
| ShakeDetection.ShakeDetector.constructor | app/src/main/java/com/example/quiz_projekt/ShakeDetector.kt:9-13 | lastShakeTime starts at 0 |
| ShakeDetection.ShakeDetector.OnSensorChanged | app/src/main/java/com/example/quiz_projekt/ShakeDetector.kt:15-34 | the new lastShakeTime and the result equal `SensorStep` |

## Left out

- Orientation conversion: `getRotationMatrixFromVector`, `getOrientation` and `Math.toDegrees` are platform calls on floating point. A rotation-vector event carries its azimuth and roll already in degrees.
- Square root: the shake magnitude is not computed. The model uses the equivalent squared comparison (see `ShakeMagnitudeAboveIff`).
- Floating point: readings are exact `real`s. Float rounding near a threshold is not modelled.
- Timestamps: `System.currentTimeMillis()` becomes a parameter. Long wrap-around in `currentTime - lastShakeTime` is not modelled, because wall-clock times are far from the 64-bit limit.
- Callbacks: `onShake`, `onTilt` and `onRotate` are replaced by the returned report.
- Sensor types: an event of any sensor other than the accelerometer and the rotation-vector sensor carries only its type code (`OtherCode`, which excludes those two codes), since no detector reads its values.
- `onAccuracyChanged`: it is empty in all three classes.
- MainActivity.kt, RetrofitClient.kt and TriviaApiService.kt: UI wiring, HTTP fetching of questions and scores are not part of this model. MainActivity constructs `GestureDetector` with tilt-left and tilt-right callbacks that the class does not have, so no left/right distinction is modelled.
