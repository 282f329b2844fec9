/** The rotation-only detector (api/RotationDetector.kt): a rotation-vector
    listener that takes the first roll angle as its reference and reports a
    rotation when the roll moves at least 60 degrees away from it, at most once
    per cooldown interval.  A report moves the reference to the new roll;
    nothing else ever does, apart from the first sample after a reset. */
module RotationDetection {
  import opened SensorModel

  /** Cooldown between two reported rotations, in milliseconds. */
  const RotationInterval: int := 1500
  /** Minimum angle, in degrees, between the roll and the reference. */
  const RotationThreshold: real := 60.0

  datatype State = State(lastRotationZ: real, isInitialized: bool, lastRotationTime: int)

  /** The state as constructed. */
  const Initial: State := State(0.0, false, 0)

  datatype Outcome = Outcome(next: State, rotated: bool)

  /** The rotation logic of onSensorChanged for one roll angle in degrees. */
  function RollStep(s: State, roll: real, now: int): Outcome
  {
    if !s.isInitialized then
      Outcome(s.(lastRotationZ := roll, isInitialized := true), false)
    else if RotationDifference(roll, s.lastRotationZ) >= RotationThreshold
         && now - s.lastRotationTime > RotationInterval then
      Outcome(s.(lastRotationTime := now, lastRotationZ := roll), true)
    else
      Outcome(s, false)
  }

  /** onSensorChanged: only non-null rotation-vector events are looked at. */
  function SensorStep(s: State, event: Option<SensorEvent>, now: int): Outcome
  {
    match event
    case Some(RotationVector(_, roll)) => RollStep(s, roll, now)
    case _ => Outcome(s, false)
  }

  /** reset(): the next sample becomes the new reference. */
  function ResetStep(s: State): State
  {
    s.(isInitialized := false)
  }

  /** What the host does to the detector: deliver an event at a time, or reset it. */
  datatype Input = Sample(event: Option<SensorEvent>, now: int) | Reset

  function Apply(s: State, input: Input): Outcome
  {
    match input
    case Sample(event, now) => SensorStep(s, event, now)
    case Reset => Outcome(ResetStep(s), false)
  }

  /** The times at which events were delivered in a run. */
  function SampleTimes(inputs: seq<Input>): set<int>
  {
    if inputs == [] then {}
    else (if inputs[0].Sample? then {inputs[0].now} else {}) + SampleTimes(inputs[1..])
  }

  /** Feeds the inputs in order; yields the final state and the times of the
      reported rotations, at most one per input, each the time of a delivered
      sample. */
  function Run(s: State, inputs: seq<Input>): (r: (State, seq<int>))
    ensures |r.1| <= |inputs|
    ensures forall k :: 0 <= k < |r.1| ==> r.1[k] in SampleTimes(inputs)
    decreases |inputs|
  {
    if inputs == [] then (s, [])
    else
      var o := Apply(s, inputs[0]);
      var rest := Run(o.next, inputs[1..]);
      var head := if o.rotated then [inputs[0].now] else [];
      var times := head + rest.1;
      assert forall k :: 0 <= k < |times| ==> times[k] in SampleTimes(inputs) by {
        forall k | 0 <= k < |times|
          ensures times[k] in SampleTimes(inputs)
        {
          if k >= |head| {
            assert times[k] == rest.1[k - |head|];
          }
        }
      }
      (rest.0, times)
  }

  /** Null events and events of other sensors change nothing and report nothing. */
  lemma OtherEventsIgnored(s: State, event: Option<SensorEvent>, now: int)
    requires !(event.Some? && event.value.RotationVector?)
    ensures SensorStep(s, event, now) == Outcome(s, false)
  {
  }

  /** The first sample after construction or reset only stores the reference. */
  lemma FirstSampleInitializes(s: State, roll: real, now: int)
    requires !s.isInitialized
    ensures RollStep(s, roll, now)
         == Outcome(State(roll, true, s.lastRotationTime), false)
  {
  }

  /** Once initialized, a sample is reported exactly when the roll is at least
      60 degrees from the reference and the cooldown has elapsed; a report
      moves both the reference and the time, and leaves the detector initialized. */
  lemma RotationFiresIff(s: State, roll: real, now: int)
    requires s.isInitialized
    ensures var o := RollStep(s, roll, now);
      && (o.rotated <==> RotationDifference(roll, s.lastRotationZ) >= 60.0 && now - s.lastRotationTime > 1500)
      && (o.rotated ==> o.next == State(roll, true, now))
  {
  }

  /** No re-baselining: a sample that is not reported leaves the reference
      where it was, unless it is the first one after construction or reset. */
  lemma NoReportKeepsReference(s: State, roll: real, now: int)
    requires s.isInitialized
    ensures !RollStep(s, roll, now).rotated ==> RollStep(s, roll, now).next == s
  {
  }

  /** reset() clears only the initialization flag; the time of the last
      report survives, so the cooldown still applies afterwards. */
  lemma ResetKeepsCooldown(s: State)
    ensures ResetStep(s).lastRotationTime == s.lastRotationTime
    ensures ResetStep(s).lastRotationZ == s.lastRotationZ
    ensures !ResetStep(s).isInitialized
  {
  }

  /** Over a run of samples without reset, the reference moves only when a
      rotation is reported: if none is, the detector ends as it started. */
  lemma {:induction false} QuietRunKeepsReference(s: State, inputs: seq<Input>)
    requires s.isInitialized
    requires forall k :: 0 <= k < |inputs| ==> inputs[k].Sample?
    requires Run(s, inputs).1 == []
    ensures Run(s, inputs).0 == s
    decreases |inputs|
  {
    if inputs != [] {
      var o := Apply(s, inputs[0]);
      assert !o.rotated && o.next == s;
      QuietRunKeepsReference(s, inputs[1..]);
    }
  }

  /** Every reported rotation lies more than 1500 ms after the starting
      lastRotationTime and after every earlier report, across resets and
      whatever the order of the sample times. */
  lemma {:induction false} RotationsSpaced(s: State, inputs: seq<Input>)
    ensures Spaced([s.lastRotationTime] + Run(s, inputs).1, RotationInterval)
    decreases |inputs|
  {
    if inputs != [] {
      var o := Apply(s, inputs[0]);
      var rest := Run(o.next, inputs[1..]);
      RotationsSpaced(o.next, inputs[1..]);
      if o.rotated {
        assert o.next.lastRotationTime == inputs[0].now;
        SpacedPrepend(s.lastRotationTime, [o.next.lastRotationTime] + rest.1, RotationInterval);
        assert [s.lastRotationTime] + Run(s, inputs).1
            == [s.lastRotationTime] + ([o.next.lastRotationTime] + rest.1);
      } else {
        assert o.next.lastRotationTime == s.lastRotationTime;
        assert Run(s, inputs).1 == rest.1;
      }
    }
  }

  /** Consecutive reported rotations are more than 1500 ms apart. */
  lemma RotationsSpacedFromStart(inputs: seq<Input>)
    ensures Spaced(Run(Initial, inputs).1, RotationInterval)
  {
    RotationsSpaced(Initial, inputs);
    SpacedTail([Initial.lastRotationTime] + Run(Initial, inputs).1, RotationInterval);
    assert ([Initial.lastRotationTime] + Run(Initial, inputs).1)[1..] == Run(Initial, inputs).1;
  }

  /** The listener object; the callback becomes the returned flag and the
      wall clock the currentTime parameter. */
  class RotationDetector {
    var lastRotationZ: real
    var isInitialized: bool
    var lastRotationTime: int

    function Snapshot(): State
      reads this
    {
      State(lastRotationZ, isInitialized, lastRotationTime)
    }

    constructor ()
      ensures Snapshot() == Initial
    {
      lastRotationZ := 0.0;
      isInitialized := false;
      lastRotationTime := 0;
    }

    method OnSensorChanged(event: Option<SensorEvent>, currentTime: int) returns (rotated: bool)
      modifies this
      ensures Outcome(Snapshot(), rotated) == SensorStep(old(Snapshot()), event, currentTime)
    {
      rotated := false;
      if event.Some? && event.value.RotationVector? {
        var currentRotationZ := event.value.roll;
        if !isInitialized {
          lastRotationZ := currentRotationZ;
          isInitialized := true;
          return;
        }
        var rotationDifference := Abs(currentRotationZ - lastRotationZ);
        if rotationDifference > 180.0 {
          rotationDifference := 360.0 - rotationDifference;
        }
        if rotationDifference >= RotationThreshold && currentTime - lastRotationTime > RotationInterval {
          lastRotationTime := currentTime;
          lastRotationZ := currentRotationZ;
          rotated := true;
        }
      }
    }

    method Reset()
      modifies this
      ensures Snapshot() == ResetStep(old(Snapshot()))
    {
      isInitialized := false;
    }
  }
}
