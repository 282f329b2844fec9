/** The shake-only detector (ShakeDetector.kt): an accelerometer listener that
    reports a shake when the acceleration left after removing gravity exceeds
    a threshold, at most once per cooldown interval.  Its only state is the
    time of the last reported shake. */
module ShakeDetection {
  import opened SensorModel

  const ShakeThreshold: real := 12.0
  /** Cooldown between two reported shakes, in milliseconds. */
  const ShakeInterval: int := 1000
  /** lastShakeTime as constructed: there is no calibration step. */
  const InitialShakeTime: int := 0

  /** The condition under which an accelerometer sample is reported. */
  predicate ShakeDue(lastShakeTime: int, x: real, y: real, z: real, now: int)
  {
    ShakeMagnitudeAbove(x, y, z, ShakeThreshold) && now - lastShakeTime > ShakeInterval
  }

  datatype Outcome = Outcome(lastShakeTime: int, shaken: bool)

  /** One call of onSensorChanged: null events and events of other sensors
      are ignored. */
  function SensorStep(lastShakeTime: int, event: Option<SensorEvent>, now: int): Outcome
  {
    match event
    case Some(Accelerometer(x, y, z)) =>
      if ShakeDue(lastShakeTime, x, y, z, now) then Outcome(now, true)
      else Outcome(lastShakeTime, false)
    case _ => Outcome(lastShakeTime, false)
  }

  /** A sensor event delivered at a given time. */
  datatype Sample = Sample(event: Option<SensorEvent>, now: int)

  /** Feeds the samples in order; yields the final lastShakeTime and the
      times at which a shake was reported, one per reporting sample. */
  function Run(lastShakeTime: int, samples: seq<Sample>): (r: (int, seq<int>))
    ensures |r.1| <= |samples|
    ensures forall k :: 0 <= k < |r.1| ==> exists i :: 0 <= i < |samples| && samples[i].now == r.1[k]
    decreases |samples|
  {
    if samples == [] then (lastShakeTime, [])
    else
      var o := SensorStep(lastShakeTime, samples[0].event, samples[0].now);
      var rest := Run(o.lastShakeTime, samples[1..]);
      assert forall k :: 0 <= k < |rest.1| ==> exists i :: 0 <= i < |samples| && samples[i].now == rest.1[k] by {
        forall k | 0 <= k < |rest.1|
          ensures exists i :: 0 <= i < |samples| && samples[i].now == rest.1[k]
        {
          var i :| 0 <= i < |samples[1..]| && samples[1..][i].now == rest.1[k];
          assert samples[i + 1].now == rest.1[k];
        }
      }
      (rest.0, (if o.shaken then [samples[0].now] else []) + rest.1)
  }

  /** Events that are null or do not come from the accelerometer change
      nothing and report nothing. */
  lemma OtherEventsIgnored(lastShakeTime: int, event: Option<SensorEvent>, now: int)
    requires !(event.Some? && event.value.Accelerometer?)
    ensures SensorStep(lastShakeTime, event, now) == Outcome(lastShakeTime, false)
  {
  }

  /** An accelerometer sample is reported exactly when the acceleration is
      above the threshold and the cooldown has elapsed; reporting changes only
      lastShakeTime, to the sample's time, and a sample that is not reported
      changes nothing. */
  lemma ShakeFiresIff(lastShakeTime: int, x: real, y: real, z: real, now: int)
    ensures var o := SensorStep(lastShakeTime, Some(Accelerometer(x, y, z)), now);
      && (o.shaken <==> ShakeMagnitudeAbove(x, y, z, ShakeThreshold) && now - lastShakeTime > ShakeInterval)
      && o.lastShakeTime == (if o.shaken then now else lastShakeTime)
  {
  }

  /** With lastShakeTime still at its initial 0 there is nothing to calibrate:
      the first strong enough sample is reported whenever its time exceeds
      1000 ms. */
  lemma FirstShakeNeedsNoCalibration(x: real, y: real, z: real, now: int)
    requires ShakeMagnitudeAbove(x, y, z, ShakeThreshold)
    ensures SensorStep(InitialShakeTime, Some(Accelerometer(x, y, z)), now).shaken <==> now > 1000
  {
  }

  /** Every reported shake lies more than the cooldown after the starting
      lastShakeTime and more than the cooldown after every earlier reported
      shake.  No ordering of the sample times is needed: the cooldown is
      measured from the previous report itself. */
  lemma {:induction false} ShakesSpaced(lastShakeTime: int, samples: seq<Sample>)
    ensures Spaced([lastShakeTime] + Run(lastShakeTime, samples).1, ShakeInterval)
    decreases |samples|
  {
    if samples != [] {
      var o := SensorStep(lastShakeTime, samples[0].event, samples[0].now);
      var rest := Run(o.lastShakeTime, samples[1..]);
      ShakesSpaced(o.lastShakeTime, samples[1..]);
      if o.shaken {
        SpacedPrepend(lastShakeTime, [o.lastShakeTime] + rest.1, ShakeInterval);
        assert [lastShakeTime] + Run(lastShakeTime, samples).1
            == [lastShakeTime] + ([o.lastShakeTime] + rest.1);
      } else {
        assert Run(lastShakeTime, samples).1 == rest.1;
      }
    }
  }

  /** The consequence for a detector as constructed: consecutive shakes are
      more than 1000 ms apart, and the first comes after 1000 ms. */
  lemma ShakesSpacedFromStart(samples: seq<Sample>)
    ensures var times := Run(InitialShakeTime, samples).1;
      && Spaced(times, ShakeInterval)
      && (|times| > 0 ==> times[0] > ShakeInterval)
  {
    var times := Run(InitialShakeTime, samples).1;
    ShakesSpaced(InitialShakeTime, samples);
    SpacedTail([InitialShakeTime] + times, ShakeInterval);
    assert ([InitialShakeTime] + times)[1..] == times;
    if |times| > 0 {
      assert ([InitialShakeTime] + times)[1] - ([InitialShakeTime] + times)[0] > ShakeInterval;
    }
  }

  /** The listener object; the callback becomes the returned flag and the
      wall clock the currentTime parameter. */
  class ShakeDetector {
    var lastShakeTime: int

    constructor ()
      ensures lastShakeTime == InitialShakeTime
    {
      lastShakeTime := InitialShakeTime;
    }

    method OnSensorChanged(event: Option<SensorEvent>, currentTime: int) returns (shaken: bool)
      modifies this
      ensures Outcome(lastShakeTime, shaken) == SensorStep(old(lastShakeTime), event, currentTime)
    {
      shaken := false;
      if event.Some? && event.value.Accelerometer? {
        var x, y, z := event.value.x, event.value.y, event.value.z;
        if ShakeMagnitudeAbove(x, y, z, ShakeThreshold) {
          if currentTime - lastShakeTime > ShakeInterval {
            lastShakeTime := currentTime;
            shaken := true;
          }
        }
      }
    }
  }
}
