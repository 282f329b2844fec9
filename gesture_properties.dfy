/** What the unified detector promises, proved about its step functions and
    about runs of inputs. */
module GestureProperties {
  import opened SensorModel
  import opened GestureDetection

  // ---- Calibration -------------------------------------------------------

  /** The first accelerometer sample after construction or resetCalibration
      only captures the neutral position: it reports nothing, not even a
      shake, and leaves every timestamp and the tilt latch as they were. */
  lemma FirstAccelerometerSampleCalibrates(s: State, x: real, y: real, z: real, now: int)
    requires !s.isCalibrated
    ensures var o := AccelerometerStep(s, x, y, z, now);
      && o.event == None
      && o.next == s.(neutralPositionX := x, neutralPositionY := y, isCalibrated := true)
  {
  }

  /** The first rotation sample after construction or resetCalibration only
      captures the reference azimuth. */
  lemma FirstRotationSampleCalibrates(s: State, azimuth: real, now: int)
    requires !s.isRotationCalibrated
    ensures var o := RotationStep(s, azimuth, now);
      && o.event == None
      && o.next == s.(lastRotationZ := azimuth, isRotationCalibrated := true)
  {
  }

  /** resetCalibration clears exactly the two calibration flags and the tilt
      latch; timestamps and references survive, so the cooldowns still apply
      afterwards and the next sample of each kind recalibrates. */
  lemma ResetClearsOnlyFlags(s: State)
    ensures var r := ResetStep(s);
      && !r.isCalibrated && !r.isRotationCalibrated && !r.isTilted
      && r.lastShakeTime == s.lastShakeTime && r.lastTiltTime == s.lastTiltTime
      && r.lastRotationTime == s.lastRotationTime
      && r.neutralPositionX == s.neutralPositionX && r.neutralPositionY == s.neutralPositionY
      && r.lastRotationZ == s.lastRotationZ && r.sensorType == s.sensorType
  {
  }

  /** Hence the first event of either sensor after a reset reports nothing. */
  lemma NoReportRightAfterReset(s: State, event: SensorEvent, now: int)
    requires event.Accelerometer? || event.RotationVector?
    ensures SensorStep(ResetStep(s), Some(event), now).event == None
  {
  }

  // ---- Shake and tilt ----------------------------------------------------

  /** Once calibrated, an accelerometer sample reports a shake exactly when
      the acceleration is above 12 and more than 1000 ms have passed since the
      last shake; the shake sets lastShakeTime, clears the tilt latch and
      changes nothing else. */
  lemma ShakeFiresIff(s: State, x: real, y: real, z: real, now: int)
    requires s.isCalibrated
    ensures var o := AccelerometerStep(s, x, y, z, now);
      && (o.event == Some(Shake) <==>
            ShakeMagnitudeAbove(x, y, z, 12.0) && now - s.lastShakeTime > 1000)
      && (o.event == Some(Shake) ==> o.next == s.(lastShakeTime := now, isTilted := false))
  {
  }

  /** A shake pre-empts the tilt evaluation: a sample that reports a shake
      never reports a tilt, whatever its deviation, and does not touch the tilt
      timestamp.  A tilt is reported only when no shake is due.  An
      accelerometer sample never reports a rotation. */
  lemma ShakePreemptsTilt(s: State, x: real, y: real, z: real, now: int)
    requires s.isCalibrated
    ensures var o := AccelerometerStep(s, x, y, z, now);
      && (ShakeDue(s, x, y, z, now) ==> o.event == Some(Shake) && o.next.lastTiltTime == s.lastTiltTime)
      && (o.event == Some(Tilt) <==> !ShakeDue(s, x, y, z, now) && TiltDue(s, x, y, now))
      && o.event != Some(Rotate)
  {
  }

  /** A tilt is reported only for a deviation above 7 on some axis, with the
      latch open and more than 1500 ms after the last tilt; it closes the latch
      and sets lastTiltTime.  While the latch stays closed no tilt is reported. */
  lemma TiltFiresOnlyWhenDue(s: State, x: real, y: real, now: int)
    ensures var o := TiltStep(s, x, y, now);
      && (o.event == Some(Tilt) <==>
            && (Abs(x - s.neutralPositionX) > 7.0 || Abs(y - s.neutralPositionY) > 7.0)
            && !s.isTilted && now - s.lastTiltTime > 1500)
      && (o.event == Some(Tilt) ==> o.next == s.(lastTiltTime := now, isTilted := true))
      && o.event != Some(Shake) && o.event != Some(Rotate)
  {
  }

  /** Hysteresis: with maxDelta the larger axis deviation, the latch is
      cleared (silently) exactly when it was set and maxDelta < 3; between 3
      and 7, and above 7 with the latch set, the tilt evaluation changes
      nothing. */
  lemma TiltHysteresis(s: State, x: real, y: real, now: int)
    ensures var o := TiltStep(s, x, y, now);
      var maxDelta := MaxDelta(x, y, s.neutralPositionX, s.neutralPositionY);
      && (s.isTilted && !o.next.isTilted <==> s.isTilted && maxDelta < 3.0)
      && (s.isTilted && maxDelta < 3.0 ==> o == Outcome(s.(isTilted := false), None))
      && (3.0 <= maxDelta <= 7.0 ==> o == Outcome(s, None))
      && (s.isTilted && maxDelta > 7.0 ==> o == Outcome(s, None))
  {
  }

  /** An accelerometer sample that neither shakes nor comes back near the
      neutral position: the hysteresis band and beyond. */
  predicate Steady(neutralX: real, neutralY: real, input: Input)
  {
    && input.Sample? && input.event.Some? && input.event.value.Accelerometer?
    && !ShakeMagnitudeAbove(input.event.value.x, input.event.value.y, input.event.value.z, ShakeThreshold)
    && MaxDelta(input.event.value.x, input.event.value.y, neutralX, neutralY) >= NeutralThreshold
  }

  /** No chatter: however a calibrated device oscillates around the tilt
      threshold, as long as it never returns within 3 of the neutral position
      (and nothing shakes), at most one tilt is reported, and none at all if
      the latch was already closed. */
  lemma {:induction false} SteadyDeviationTiltsAtMostOnce(s: State, inputs: seq<Input>)
    requires s.isCalibrated
    requires forall k :: 0 <= k < |inputs| ==> Steady(s.neutralPositionX, s.neutralPositionY, inputs[k])
    ensures |ReportTimes(Run(s, inputs).1, Tilt)| <= if s.isTilted then 0 else 1
    ensures s.isTilted ==> Run(s, inputs).0.isTilted
    decreases |inputs|
  {
    if inputs != [] {
      var o := Apply(s, inputs[0]);
      var rest := Run(o.next, inputs[1..]);
      assert Steady(s.neutralPositionX, s.neutralPositionY, inputs[0]);
      assert o.event != Some(Shake) && o.event != Some(Rotate);
      assert o.next.isCalibrated;
      assert o.next.neutralPositionX == s.neutralPositionX && o.next.neutralPositionY == s.neutralPositionY;
      assert s.isTilted ==> o.next.isTilted && o.event == None;
      assert o.event == Some(Tilt) ==> o.next.isTilted;
      assert o.event == None ==> o.next.isTilted == s.isTilted;
      assert forall k :: 0 <= k < |inputs[1..]| ==>
        Steady(o.next.neutralPositionX, o.next.neutralPositionY, inputs[1..][k]) by {
        forall k | 0 <= k < |inputs[1..]|
          ensures Steady(o.next.neutralPositionX, o.next.neutralPositionY, inputs[1..][k])
        {
          assert inputs[1..][k] == inputs[k + 1];
        }
      }
      SteadyDeviationTiltsAtMostOnce(o.next, inputs[1..]);
      var head := if o.event.Some? then [Report(o.event.value, inputs[0].now)] else [];
      assert Run(s, inputs).1 == head + rest.1;
      ReportTimesAppend(head, rest.1, Tilt);
    }
  }

  // ---- Rotation ----------------------------------------------------------

  /** Once calibrated, a rotation sample falls in one of three cases.  Near
      the reference (under 10 degrees) with the cooldown elapsed it silently
      becomes the new reference.  At least 45 degrees away with the cooldown
      elapsed it reports a rotation, becomes the reference, sets
      lastRotationTime and clears the tilt latch.  Anything else changes
      nothing.  A rotation is reported in the second case only. */
  lemma RotationCases(s: State, azimuth: real, now: int)
    requires s.isRotationCalibrated
    ensures var o := RotationStep(s, azimuth, now);
      var difference := RotationDifference(azimuth, s.lastRotationZ);
      var cooled := now - s.lastRotationTime > 1500;
      && (difference < 10.0 && cooled ==> o == Outcome(s.(lastRotationZ := azimuth), None))
      && (difference >= 45.0 && cooled ==>
            o == Outcome(s.(lastRotationTime := now, lastRotationZ := azimuth, isTilted := false), Some(Rotate)))
      && (!(difference < 10.0 && cooled) && !(difference >= 45.0 && cooled) ==> o == Outcome(s, None))
      && (o.event == Some(Rotate) <==> difference >= 45.0 && cooled)
  {
  }

  /** A rotation is never reported while the azimuth stays less than 45
      degrees from the reference in force: small drift after a rotation only
      moves the reference along with the device. */
  lemma DriftNeverRotates(s: State, azimuth: real, now: int)
    requires RotationDifference(azimuth, s.lastRotationZ) < RotationThreshold
    ensures RotationStep(s, azimuth, now).event == None
  {
  }

  // ---- Cooldowns over runs ------------------------------------------------

  lemma {:induction false} ReportTimesAppend(a: seq<Report>, b: seq<Report>, g: Gesture)
    ensures ReportTimes(a + b, g) == ReportTimes(a, g) + ReportTimes(b, g)
    decreases |a|
  {
    if a == [] {
      assert a + b == b;
    } else {
      assert (a + b)[0] == a[0] && (a + b)[1..] == a[1..] + b;
      ReportTimesAppend(a[1..], b, g);
    }
  }

  /** One input moves the last-report time of a gesture only when it reports
      that gesture, and then to its own time, more than the cooldown after the
      previous value. */
  lemma ApplyMovesOwnTimestamp(s: State, input: Input, g: Gesture)
    ensures var o := Apply(s, input);
      && (o.event == Some(g) ==>
            && input.Sample?
            && LastReportTime(o.next, g) == input.now
            && input.now - LastReportTime(s, g) > Cooldown(g))
      && (o.event != Some(g) ==> LastReportTime(o.next, g) == LastReportTime(s, g))
  {
  }

  /** Every report of a gesture lies more than that gesture's cooldown after
      the starting last-report time and after every earlier report of the same
      gesture — across resets and interleaved sensors, and whatever the order
      of the sample times. */
  lemma {:induction false} ReportsSpaced(s: State, inputs: seq<Input>, g: Gesture)
    ensures Spaced([LastReportTime(s, g)] + ReportTimes(Run(s, inputs).1, g), Cooldown(g))
    decreases |inputs|
  {
    if inputs != [] {
      var o := Apply(s, inputs[0]);
      var rest := Run(o.next, inputs[1..]);
      ApplyMovesOwnTimestamp(s, inputs[0], g);
      ReportsSpaced(o.next, inputs[1..], g);
      var head := if o.event.Some? then [Report(o.event.value, inputs[0].now)] else [];
      assert Run(s, inputs).1 == head + rest.1;
      ReportTimesAppend(head, rest.1, g);
      var tail := ReportTimes(rest.1, g);
      if o.event == Some(g) {
        assert ReportTimes(head, g) == [inputs[0].now];
        SpacedPrepend(LastReportTime(s, g), [LastReportTime(o.next, g)] + tail, Cooldown(g));
        assert [LastReportTime(s, g)] + ReportTimes(Run(s, inputs).1, g)
            == [LastReportTime(s, g)] + ([LastReportTime(o.next, g)] + tail);
      } else {
        assert ReportTimes(head, g) == [];
        assert ReportTimes(Run(s, inputs).1, g) == tail;
      }
    }
  }

  /** For a detector as constructed: two consecutive shakes are more than
      1000 ms apart, two tilts or two rotations more than 1500 ms. */
  lemma ReportsSpacedFromStart(inputs: seq<Input>, g: Gesture)
    ensures Spaced(ReportTimes(Run(Initial, inputs).1, g), Cooldown(g))
  {
    var ts := ReportTimes(Run(Initial, inputs).1, g);
    ReportsSpaced(Initial, inputs, g);
    SpacedTail([LastReportTime(Initial, g)] + ts, Cooldown(g));
    assert ([LastReportTime(Initial, g)] + ts)[1..] == ts;
  }

  // ---- A concrete run ----------------------------------------------------

  function Accel(x: real, y: real, z: real, now: int): Input
  {
    Sample(Some(Accelerometer(x, y, z)), now)
  }

  /** Resting, then a hard shake, a rest inside the cooldown and a second
      hard shake after it: the first sample calibrates, the two hard shakes
      are reported and the rest in between is not.  (Since lastShakeTime
      starts at 0, the shakes must come later than 1000 ms.) */
  lemma ShakeScenario()
    ensures Run(Initial, [Accel(0.0, 0.0, 9.8, 1500), Accel(0.0, 0.0, 35.0, 2000),
                          Accel(0.0, 0.0, 9.8, 2500), Accel(0.0, 0.0, 35.0, 3100)]).1
         == [Report(Shake, 2000), Report(Shake, 3100)]
  {
  }

  /** At time 0 a hard shake right after calibration is not reported: the
      shake cooldown counts from the initial lastShakeTime of 0. */
  lemma NoShakeAtTimeZero()
    ensures Run(Initial, [Accel(0.0, 0.0, 9.8, 0), Accel(0.0, 0.0, 35.0, 0)]).1 == []
  {
  }
}
