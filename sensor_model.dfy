/** Vocabulary shared by the three motion-gesture detectors: the sensor events
    they consume, the gestures they report, and the small pieces of arithmetic
    (axis deltas, shake magnitude, circular angle difference) that more than one
    detector computes. */
module SensorModel {

  datatype Option<+T> = None | Some(value: T)

  /** The gestures a detector can report; each replaces one callback. */
  datatype Gesture = Shake | Tilt | Rotate

  /** Android's sensor type codes for the two sensors the detectors listen to. */
  const TypeAccelerometer: int := 1
  const TypeRotationVector: int := 11

  /** The type code of any sensor other than the two above. */
  type OtherCode = c: int | c != TypeAccelerometer && c != TypeRotationVector witness 0

  /** A sensor event whose values are already normalised.  An accelerometer
      event carries its three axes in m/s²; a rotation-vector event carries the
      orientation angles the platform derives from it, in degrees: the azimuth
      (rotation about the vertical axis) and the roll.  Every other sensor is
      represented by its type code only, since no detector reads its values. */
  datatype SensorEvent =
    | Accelerometer(x: real, y: real, z: real)
    | RotationVector(azimuth: real, roll: real)
    | OtherSensor(code: OtherCode)
  {
    function SensorType(): int {
      match this
      case Accelerometer(_, _, _) => TypeAccelerometer
      case RotationVector(_, _) => TypeRotationVector
      case OtherSensor(c) => c
    }
  }

  function Abs(v: real): (r: real)
    ensures r >= 0.0 && (r == v || r == -v)
  {
    if v < 0.0 then -v else v
  }

  /** The larger of the two axis deviations from the neutral position. */
  function MaxDelta(x: real, y: real, neutralX: real, neutralY: real): (d: real)
    ensures d >= Abs(x - neutralX) && d >= Abs(y - neutralY)
    ensures d == Abs(x - neutralX) || d == Abs(y - neutralY)
  {
    var deltaX := Abs(x - neutralX);
    var deltaY := Abs(y - neutralY);
    if deltaX >= deltaY then deltaX else deltaY
  }

  /** SensorManager.GRAVITY_EARTH, in m/s². */
  const GravityEarth: real := 9.80665

  function SquaredNorm(x: real, y: real, z: real): (n: real)
    ensures n >= 0.0
  {
    x * x + y * y + z * z
  }

  /** True when the acceleration left after subtracting gravity from the
      magnitude of (x, y, z) is above the threshold.  The magnitude is a square
      root; since both sides of the comparison are non-negative, comparing the
      squares decides the same question (see ShakeMagnitudeAboveIff). */
  predicate ShakeMagnitudeAbove(x: real, y: real, z: real, threshold: real)
    requires threshold >= 0.0
  {
    SquaredNorm(x, y, z) > (threshold + GravityEarth) * (threshold + GravityEarth)
  }

  lemma ProductPositive(p: real, q: real)
    requires p > 0.0 && q > 0.0
    ensures p * q > 0.0
  {
  }

  lemma SquareMonotone(a: real, b: real)
    requires a >= 0.0 && b >= 0.0
    ensures a > b <==> a * a > b * b
  {
    assert a * a - b * b == (a - b) * (a + b);
    if a > b {
      ProductPositive(a - b, a + b);
    } else if a < b {
      ProductPositive(b - a, a + b);
    }
  }

  /** For the magnitude m = sqrt(x² + y² + z²), the comparison
      m - GRAVITY_EARTH > threshold holds exactly when ShakeMagnitudeAbove does. */
  lemma ShakeMagnitudeAboveIff(x: real, y: real, z: real, m: real, threshold: real)
    requires threshold >= 0.0
    requires m >= 0.0 && m * m == SquaredNorm(x, y, z)
    ensures m - GravityEarth > threshold <==> ShakeMagnitudeAbove(x, y, z, threshold)
  {
    SquareMonotone(m, threshold + GravityEarth);
  }

  /** The angle between the current and the reference orientation, folded
      onto the shorter arc when the raw difference exceeds half a turn. */
  function RotationDifference(current: real, reference: real): (d: real)
    ensures d <= 180.0
    ensures Abs(current - reference) <= 360.0 ==> d >= 0.0
  {
    var difference := Abs(current - reference);
    if difference > 180.0 then 360.0 - difference else difference
  }

  /** The difference does not depend on which angle is the reference. */
  lemma RotationDifferenceSymmetric(a: real, b: real)
    ensures RotationDifference(a, b) == RotationDifference(b, a)
  {
  }

  /** d is the distance from a to the nearest of the copies of b one turn
      apart: the shortest-arc distance between the two angles. */
  ghost predicate ShortestArc(a: real, b: real, d: real)
  {
    && (d == Abs(a - b) || d == Abs(a - b - 360.0) || d == Abs(a - b + 360.0))
    && d <= Abs(a - b) && d <= Abs(a - b - 360.0) && d <= Abs(a - b + 360.0)
  }

  /** For angles in [-180, 180], RotationDifference is the shortest-arc
      distance and lies in [0, 180]. */
  lemma RotationDifferenceIsShortestArc(a: real, b: real)
    requires -180.0 <= a <= 180.0 && -180.0 <= b <= 180.0
    ensures 0.0 <= RotationDifference(a, b) <= 180.0
    ensures ShortestArc(a, b, RotationDifference(a, b))
  {
  }

  /** Crossing the ±180 seam: -170 and 170 are 20 degrees apart, not 340. */
  lemma RotationDifferenceAcrossSeam()
    ensures RotationDifference(-170.0, 170.0) == 20.0
  {
  }

  /** Every two entries of ts, taken in order, are more than gap apart. */
  ghost predicate Spaced(ts: seq<int>, gap: int)
  {
    forall i, j :: 0 <= i < j < |ts| ==> ts[j] - ts[i] > gap
  }

  /** A spaced sequence stays spaced when an entry more than gap before its
      first one is put in front of it. */
  lemma SpacedPrepend(last: int, ts: seq<int>, gap: int)
    requires gap >= 0
    requires Spaced(ts, gap)
    requires |ts| > 0 ==> ts[0] - last > gap
    ensures Spaced([last] + ts, gap)
  {
    var us := [last] + ts;
    forall i, j | 0 <= i < j < |us|
      ensures us[j] - us[i] > gap
    {
      if i == 0 && j > 1 {
        assert us[j] - us[1] > gap;
      }
    }
  }

  /** Dropping the first entry keeps a sequence spaced. */
  lemma SpacedTail(ts: seq<int>, gap: int)
    requires |ts| > 0 && Spaced(ts, gap)
    ensures Spaced(ts[1..], gap)
  {
    forall i, j | 0 <= i < j < |ts| - 1
      ensures ts[1..][j] - ts[1..][i] > gap
    {
      assert ts[1..][j] == ts[j + 1] && ts[1..][i] == ts[i + 1];
    }
  }
}
