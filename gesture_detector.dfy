/** The unified detector (GestureDetector.kt).  It listens to the
    accelerometer and to the rotation-vector sensor and reports three gestures:
    a shake (acceleration spike), a tilt (sustained deviation from the neutral
    position captured by the first accelerometer sample, with hysteresis) and a
    rotation (azimuth at least 45 degrees from a reference that silently
    follows the device while it stays near that reference).  Each gesture has
    its own cooldown; shakes and rotations clear the tilt latch. */
module GestureDetection {
  import opened SensorModel

  const ShakeThreshold: real := 12.0
  const ShakeInterval: int := 1000
  const TiltThreshold: real := 7.0
  /** Below this deviation the device counts as back in the neutral position. */
  const NeutralThreshold: real := 3.0
  const TiltInterval: int := 1500
  const RotationThreshold: real := 45.0
  const RotationInterval: int := 1500
  /** Below this angle the device counts as back at its rotation reference. */
  const NearNeutralAngle: real := 10.0

  /** The fields of the detector. */
  datatype State = State(
    lastShakeTime: int,
    lastTiltTime: int,
    isTilted: bool,
    neutralPositionX: real,
    neutralPositionY: real,
    lastRotationTime: int,
    lastRotationZ: real,
    isRotationCalibrated: bool,
    isCalibrated: bool,
    sensorType: int)

  /** The state as constructed. */
  const Initial: State := State(0, 0, false, 0.0, 0.0, 0, 0.0, false, false, -1)

  /** The state after one call, and the gesture reported by it, if any. */
  datatype Outcome = Outcome(next: State, event: Option<Gesture>)

  predicate ShakeDue(s: State, x: real, y: real, z: real, now: int)
  {
    ShakeMagnitudeAbove(x, y, z, ShakeThreshold) && now - s.lastShakeTime > ShakeInterval
  }

  predicate TiltDue(s: State, x: real, y: real, now: int)
  {
    && MaxDelta(x, y, s.neutralPositionX, s.neutralPositionY) > TiltThreshold
    && !s.isTilted
    && now - s.lastTiltTime > TiltInterval
  }

  /** detectShake. */
  function ShakeStep(s: State, x: real, y: real, z: real, now: int): Outcome
  {
    if ShakeDue(s, x, y, z, now) then
      Outcome(s.(lastShakeTime := now, isTilted := false), Some(Shake))
    else
      Outcome(s, None)
  }

  /** detectAnyTilt. */
  function TiltStep(s: State, x: real, y: real, now: int): Outcome
  {
    var maxDelta := MaxDelta(x, y, s.neutralPositionX, s.neutralPositionY);
    if maxDelta > TiltThreshold && !s.isTilted && now - s.lastTiltTime > TiltInterval then
      Outcome(s.(lastTiltTime := now, isTilted := true), Some(Tilt))
    else if maxDelta < NeutralThreshold && s.isTilted then
      Outcome(s.(isTilted := false), None)
    else
      Outcome(s, None)
  }

  /** handleAccelerometer: calibrate on the first sample, otherwise shake
      first and tilt only when no shake was reported. */
  function AccelerometerStep(s: State, x: real, y: real, z: real, now: int): Outcome
  {
    if !s.isCalibrated then
      Outcome(s.(neutralPositionX := x, neutralPositionY := y, isCalibrated := true), None)
    else
      var shake := ShakeStep(s, x, y, z, now);
      if shake.event.Some? then shake else TiltStep(s, x, y, now)
  }

  /** handleRotation, from the azimuth in degrees on. */
  function RotationStep(s: State, azimuth: real, now: int): Outcome
  {
    if !s.isRotationCalibrated then
      Outcome(s.(lastRotationZ := azimuth, isRotationCalibrated := true), None)
    else
      var rotationDifference := RotationDifference(azimuth, s.lastRotationZ);
      if rotationDifference < NearNeutralAngle then
        if now - s.lastRotationTime > RotationInterval then
          Outcome(s.(lastRotationZ := azimuth, isRotationCalibrated := true), None)
        else
          Outcome(s, None)
      else if rotationDifference >= RotationThreshold && now - s.lastRotationTime > RotationInterval then
        Outcome(s.(lastRotationTime := now, lastRotationZ := azimuth, isTilted := false), Some(Rotate))
      else
        Outcome(s, None)
  }

  /** onSensorChanged: a null event is ignored; any other event records its
      sensor type and is dispatched on it. */
  function SensorStep(s: State, event: Option<SensorEvent>, now: int): Outcome
  {
    match event
    case None => Outcome(s, None)
    case Some(e) =>
      var s' := s.(sensorType := e.SensorType());
      match e
      case Accelerometer(x, y, z) => AccelerometerStep(s', x, y, z, now)
      case RotationVector(azimuth, _) => RotationStep(s', azimuth, now)
      case OtherSensor(_) => Outcome(s', None)
  }

  /** resetCalibration. */
  function ResetStep(s: State): State
  {
    s.(isCalibrated := false, isRotationCalibrated := false, isTilted := false)
  }

  /** What the host does to the detector: deliver an event at a time, or
      reset its calibration. */
  datatype Input = Sample(event: Option<SensorEvent>, now: int) | ResetCalibration

  /** A reported gesture and the time of the sample that reported it. */
  datatype Report = Report(gesture: Gesture, time: int)

  function Apply(s: State, input: Input): Outcome
  {
    match input
    case Sample(event, now) => SensorStep(s, event, now)
    case ResetCalibration => Outcome(ResetStep(s), None)
  }

  /** The times at which events were delivered in a run. */
  function SampleTimes(inputs: seq<Input>): set<int>
  {
    if inputs == [] then {}
    else (if inputs[0].Sample? then {inputs[0].now} else {}) + SampleTimes(inputs[1..])
  }

  /** Feeds the inputs in order; yields the final state and the reports, at
      most one per input, each stamped with the time of a delivered sample. */
  function Run(s: State, inputs: seq<Input>): (r: (State, seq<Report>))
    ensures |r.1| <= |inputs|
    ensures forall k :: 0 <= k < |r.1| ==> r.1[k].time in SampleTimes(inputs)
    decreases |inputs|
  {
    if inputs == [] then (s, [])
    else
      var o := Apply(s, inputs[0]);
      var rest := Run(o.next, inputs[1..]);
      var head := if o.event.Some? then [Report(o.event.value, inputs[0].now)] else [];
      var reports := head + rest.1;
      assert forall k :: 0 <= k < |reports| ==> reports[k].time in SampleTimes(inputs) by {
        forall k | 0 <= k < |reports|
          ensures reports[k].time in SampleTimes(inputs)
        {
          if k >= |head| {
            assert reports[k] == rest.1[k - |head|];
          }
        }
      }
      (rest.0, reports)
  }

  /** The times of the reports of one gesture, in order. */
  function ReportTimes(reports: seq<Report>, g: Gesture): (ts: seq<int>)
    ensures |ts| <= |reports|
  {
    if reports == [] then []
    else (if reports[0].gesture == g then [reports[0].time] else []) + ReportTimes(reports[1..], g)
  }

  /** The field holding the time of the last report of a gesture. */
  function LastReportTime(s: State, g: Gesture): int
  {
    match g
    case Shake => s.lastShakeTime
    case Tilt => s.lastTiltTime
    case Rotate => s.lastRotationTime
  }

  /** The cooldown of a gesture, in milliseconds. */
  function Cooldown(g: Gesture): (c: int)
    ensures c > 0
  {
    match g
    case Shake => ShakeInterval
    case Tilt => TiltInterval
    case Rotate => RotationInterval
  }

  /** The detector object: the callbacks become the returned gesture and the
      wall clock the currentTime parameter. */
  class GestureDetector {
    var lastShakeTime: int
    var lastTiltTime: int
    var isTilted: bool
    var neutralPositionX: real
    var neutralPositionY: real
    var lastRotationTime: int
    var lastRotationZ: real
    var isRotationCalibrated: bool
    var isCalibrated: bool
    var sensorType: int

    function Snapshot(): State
      reads this
    {
      State(lastShakeTime, lastTiltTime, isTilted, neutralPositionX, neutralPositionY,
            lastRotationTime, lastRotationZ, isRotationCalibrated, isCalibrated, sensorType)
    }

    constructor ()
      ensures Snapshot() == Initial
    {
      lastShakeTime := 0;
      lastTiltTime := 0;
      isTilted := false;
      neutralPositionX := 0.0;
      neutralPositionY := 0.0;
      lastRotationTime := 0;
      lastRotationZ := 0.0;
      isRotationCalibrated := false;
      isCalibrated := false;
      sensorType := -1;
    }

    method OnSensorChanged(event: Option<SensorEvent>, currentTime: int) returns (g: Option<Gesture>)
      modifies this
      ensures Outcome(Snapshot(), g) == SensorStep(old(Snapshot()), event, currentTime)
    {
      g := None;
      if event.None? {
        return;
      }
      sensorType := event.value.SensorType();
      match event.value {
        case Accelerometer(x, y, z) =>
          g := HandleAccelerometer(x, y, z, currentTime);
        case RotationVector(azimuth, _) =>
          g := HandleRotation(azimuth, currentTime);
        case OtherSensor(_) =>
      }
    }

    method HandleAccelerometer(x: real, y: real, z: real, currentTime: int) returns (g: Option<Gesture>)
      modifies this
      ensures Outcome(Snapshot(), g) == AccelerometerStep(old(Snapshot()), x, y, z, currentTime)
    {
      if !isCalibrated {
        neutralPositionX := x;
        neutralPositionY := y;
        isCalibrated := true;
        return None;
      }
      var shaken := DetectShake(x, y, z, currentTime);
      if shaken {
        return Some(Shake);
      }
      g := DetectAnyTilt(x, y, currentTime);
    }

    method HandleRotation(currentRotationZ: real, currentTime: int) returns (g: Option<Gesture>)
      modifies this
      ensures Outcome(Snapshot(), g) == RotationStep(old(Snapshot()), currentRotationZ, currentTime)
    {
      g := None;
      if !isRotationCalibrated {
        lastRotationZ := currentRotationZ;
        isRotationCalibrated := true;
        return;
      }
      var rotationDifference := Abs(currentRotationZ - lastRotationZ);
      if rotationDifference > 180.0 {
        rotationDifference := 360.0 - rotationDifference;
      }
      var isNearNeutral := rotationDifference < NearNeutralAngle;
      if isNearNeutral {
        if currentTime - lastRotationTime > RotationInterval {
          lastRotationZ := currentRotationZ;
          isRotationCalibrated := true;
        }
      } else if rotationDifference >= RotationThreshold && currentTime - lastRotationTime > RotationInterval {
        lastRotationTime := currentTime;
        lastRotationZ := currentRotationZ;
        isTilted := false;
        g := Some(Rotate);
      }
    }

    method DetectShake(x: real, y: real, z: real, currentTime: int) returns (shaken: bool)
      modifies this
      ensures Outcome(Snapshot(), if shaken then Some(Shake) else None)
           == ShakeStep(old(Snapshot()), x, y, z, currentTime)
    {
      shaken := false;
      if ShakeMagnitudeAbove(x, y, z, ShakeThreshold) {
        if currentTime - lastShakeTime > ShakeInterval {
          lastShakeTime := currentTime;
          isTilted := false;
          shaken := true;
        }
      }
    }

    method DetectAnyTilt(x: real, y: real, currentTime: int) returns (g: Option<Gesture>)
      modifies this
      ensures Outcome(Snapshot(), g) == TiltStep(old(Snapshot()), x, y, currentTime)
    {
      var deltaX := Abs(x - neutralPositionX);
      var deltaY := Abs(y - neutralPositionY);
      var maxDelta := if deltaX >= deltaY then deltaX else deltaY;
      var isTiltedNow := maxDelta > TiltThreshold;
      var isNeutralNow := maxDelta < NeutralThreshold;
      g := None;
      if isTiltedNow && !isTilted && currentTime - lastTiltTime > TiltInterval {
        lastTiltTime := currentTime;
        isTilted := true;
        g := Some(Tilt);
      } else if isNeutralNow && isTilted {
        isTilted := false;
      }
    }

    method ResetCalibration()
      modifies this
      ensures Snapshot() == ResetStep(old(Snapshot()))
    {
      isCalibrated := false;
      isRotationCalibrated := false;
      isTilted := false;
    }
  }
}
