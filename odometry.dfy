/** The arithmetic of differential-drive odometry in breezyslam.hpp
    (WheeledRobot::radians and the body of WheeledRobot::computeVelocities),
    as pure functions over reals, and what follows from it for one call and
    for a sequence of calls. */
module Odometry {

  /** M_PI of <math.h>, as an exact real. Every proof below uses only Pi > 0. */
  const Pi: real := 3.14159265358979323846

  /** What a robot's extractOdometry conversion yields for one raw reading:
      a time stamp in seconds and the cumulative rotation of each wheel in degrees.
      The same triple is what WheeledRobot keeps as its previous sample. */
  datatype Sample = Sample(timestampSeconds: real, leftWheelDegrees: real, rightWheelDegrees: real)

  /** The three out-parameters of computeVelocities. */
  datatype Velocities = Velocities(dxyMeters: real, dthetaDegrees: real, dtSeconds: real)

  /** All three outputs zero, as computeVelocities initialises them. */
  const NoMotion := Velocities(0.0, 0.0, 0.0)

  /** The previous sample of a freshly constructed robot. */
  const Unset := Sample(0.0, 0.0, 0.0)

  /** WheeledRobot::radians: degrees to radians. It keeps the sign of its argument. */
  function Radians(degrees: real): (r: real)
    ensures r > 0.0 <==> degrees > 0.0
    ensures r < 0.0 <==> degrees < 0.0
  {
    degrees * Pi / 180.0
  }

  /** Radians is additive ... */
  lemma RadiansAdditive(a: real, b: real)
    ensures Radians(a + b) == Radians(a) + Radians(b)
  {
    calc {
      Radians(a + b);
      (a + b) * Pi / 180.0;
      { assert (a + b) * Pi == a * Pi + b * Pi; }
      a * Pi / 180.0 + b * Pi / 180.0;
    }
  }

  /** ... and homogeneous, so it is linear; a half turn is Pi. */
  lemma RadiansLinear(c: real, a: real)
    ensures Radians(c * a) == c * Radians(a)
    ensures Radians(180.0) == Pi
  {
    assert (c * a) * Pi == c * (a * Pi);
  }

  /** Radians of a negated angle is the negated result. */
  lemma RadiansNegate(a: real)
    ensures Radians(-a) == -Radians(a)
  {
    RadiansLinear(-1.0, a);
  }

  /** The outputs of one computeVelocities call, given the stored previous
      sample and the sample extractOdometry yields for this call. The gate is
      the code's: a previous time stamp that is not strictly positive gives
      all zeros, whatever the current sample. Otherwise the distance is the
      wheel radius times the sum of the wheel rotations in radians, the turn
      is the radius over the half axle times the difference of the wheel
      rotations, still in degrees, and the elapsed time is not checked for
      sign. */
  function Velocity(wheelRadiusMeters: real, halfAxleLengthMeters: real, prev: Sample, curr: Sample): (v: Velocities)
    requires halfAxleLengthMeters != 0.0
    ensures prev.timestampSeconds <= 0.0 ==> v == NoMotion
    ensures prev.timestampSeconds > 0.0 ==> v.dtSeconds == curr.timestampSeconds - prev.timestampSeconds
  {
    if prev.timestampSeconds > 0.0 then
      var leftDiffDegrees := curr.leftWheelDegrees - prev.leftWheelDegrees;
      var rightDiffDegrees := curr.rightWheelDegrees - prev.rightWheelDegrees;
      Velocities(
        wheelRadiusMeters * (Radians(leftDiffDegrees) + Radians(rightDiffDegrees)),
        wheelRadiusMeters / halfAxleLengthMeters * (rightDiffDegrees - leftDiffDegrees),
        curr.timestampSeconds - prev.timestampSeconds)
    else
      NoMotion
  }

  /** Driving straight: equal wheel rotations give no turn and a distance of
      the rotation, in radians, along both wheels. */
  lemma StraightLine(wheelRadiusMeters: real, halfAxleLengthMeters: real, prev: Sample, curr: Sample, d: real)
    requires halfAxleLengthMeters != 0.0 && prev.timestampSeconds > 0.0
    requires curr.leftWheelDegrees - prev.leftWheelDegrees == d
    requires curr.rightWheelDegrees - prev.rightWheelDegrees == d
    ensures Velocity(wheelRadiusMeters, halfAxleLengthMeters, prev, curr).dthetaDegrees == 0.0
    ensures Velocity(wheelRadiusMeters, halfAxleLengthMeters, prev, curr).dxyMeters == 2.0 * wheelRadiusMeters * Radians(d)
  {
  }

  /** Spinning in place: equal and opposite wheel rotations give no distance
      and a turn of twice the right wheel's rotation scaled by radius over half axle. */
  lemma SpinInPlace(wheelRadiusMeters: real, halfAxleLengthMeters: real, prev: Sample, curr: Sample, d: real)
    requires halfAxleLengthMeters != 0.0 && prev.timestampSeconds > 0.0
    requires curr.leftWheelDegrees - prev.leftWheelDegrees == -d
    requires curr.rightWheelDegrees - prev.rightWheelDegrees == d
    ensures Velocity(wheelRadiusMeters, halfAxleLengthMeters, prev, curr).dxyMeters == 0.0
    ensures Velocity(wheelRadiusMeters, halfAxleLengthMeters, prev, curr).dthetaDegrees
         == 2.0 * d * wheelRadiusMeters / halfAxleLengthMeters
  {
    RadiansNegate(d);
  }

  /** With a non-zero wheel radius, the turn is zero exactly when the two wheels
      rotated by the same amount. */
  lemma NoTurnIffEqualRotation(wheelRadiusMeters: real, halfAxleLengthMeters: real, prev: Sample, curr: Sample)
    requires halfAxleLengthMeters != 0.0 && wheelRadiusMeters != 0.0 && prev.timestampSeconds > 0.0
    ensures Velocity(wheelRadiusMeters, halfAxleLengthMeters, prev, curr).dthetaDegrees == 0.0
        <==> curr.leftWheelDegrees - prev.leftWheelDegrees == curr.rightWheelDegrees - prev.rightWheelDegrees
  {
    var k := wheelRadiusMeters / halfAxleLengthMeters;
    assert wheelRadiusMeters == k * halfAxleLengthMeters;
    var x := (curr.rightWheelDegrees - prev.rightWheelDegrees) - (curr.leftWheelDegrees - prev.leftWheelDegrees);
    assert k * x == 0.0 <==> x == 0.0;
  }

  /** With a non-zero wheel radius, the distance is zero exactly when the two
      wheels rotated by equal and opposite amounts. */
  lemma NoDistanceIffOppositeRotation(wheelRadiusMeters: real, halfAxleLengthMeters: real, prev: Sample, curr: Sample)
    requires halfAxleLengthMeters != 0.0 && wheelRadiusMeters != 0.0 && prev.timestampSeconds > 0.0
    ensures Velocity(wheelRadiusMeters, halfAxleLengthMeters, prev, curr).dxyMeters == 0.0
        <==> curr.leftWheelDegrees - prev.leftWheelDegrees == -(curr.rightWheelDegrees - prev.rightWheelDegrees)
  {
    var l := curr.leftWheelDegrees - prev.leftWheelDegrees;
    var r := curr.rightWheelDegrees - prev.rightWheelDegrees;
    RadiansAdditive(l, r);
    assert wheelRadiusMeters * Radians(l + r) == 0.0 <==> Radians(l + r) == 0.0;
  }

  /** Time is not validated: when the previous time stamp is positive, the
      elapsed time is negative exactly when the clock went backwards. */
  lemma BackwardsTime(wheelRadiusMeters: real, halfAxleLengthMeters: real, prev: Sample, curr: Sample)
    requires halfAxleLengthMeters != 0.0 && prev.timestampSeconds > 0.0
    ensures Velocity(wheelRadiusMeters, halfAxleLengthMeters, prev, curr).dtSeconds < 0.0
        <==> curr.timestampSeconds < prev.timestampSeconds
  {
  }

  /** Adds fixed offsets to a sample's wheel readings. */
  function ShiftWheels(s: Sample, leftOffset: real, rightOffset: real): Sample
  {
    Sample(s.timestampSeconds, s.leftWheelDegrees + leftOffset, s.rightWheelDegrees + rightOffset)
  }

  /** Only wheel rotation since the previous sample matters: where each
      encoder counts from does not change the outputs. */
  lemma EncoderOriginIrrelevant(wheelRadiusMeters: real, halfAxleLengthMeters: real, prev: Sample, curr: Sample,
                                leftOffset: real, rightOffset: real)
    requires halfAxleLengthMeters != 0.0
    ensures Velocity(wheelRadiusMeters, halfAxleLengthMeters,
                     ShiftWheels(prev, leftOffset, rightOffset), ShiftWheels(curr, leftOffset, rightOffset))
         == Velocity(wheelRadiusMeters, halfAxleLengthMeters, prev, curr)
  {
  }

  /** Negates all three outputs. */
  function Reverse(v: Velocities): Velocities
  {
    Velocities(-v.dxyMeters, -v.dthetaDegrees, -v.dtSeconds)
  }

  /** Replaying two samples in the opposite order, both with positive time
      stamps, negates every output. */
  lemma SwapNegates(wheelRadiusMeters: real, halfAxleLengthMeters: real, a: Sample, b: Sample)
    requires halfAxleLengthMeters != 0.0 && a.timestampSeconds > 0.0 && b.timestampSeconds > 0.0
    ensures Velocity(wheelRadiusMeters, halfAxleLengthMeters, b, a)
         == Reverse(Velocity(wheelRadiusMeters, halfAxleLengthMeters, a, b))
  {
    var la := a.leftWheelDegrees - b.leftWheelDegrees;
    var ra := a.rightWheelDegrees - b.rightWheelDegrees;
    RadiansNegate(la);
    RadiansNegate(ra);
    assert -la == b.leftWheelDegrees - a.leftWheelDegrees;
    assert -ra == b.rightWheelDegrees - a.rightWheelDegrees;
  }

  /** The outputs of successive computeVelocities calls that see the samples
      `samples`, starting from the stored sample `prev`: each call compares its
      sample with the one stored by the call before. */
  function Run(wheelRadiusMeters: real, halfAxleLengthMeters: real, prev: Sample, samples: seq<Sample>): (outs: seq<Velocities>)
    requires halfAxleLengthMeters != 0.0
    ensures |outs| == |samples|
    ensures |samples| > 0 ==> outs[0] == Velocity(wheelRadiusMeters, halfAxleLengthMeters, prev, samples[0])
    ensures forall i :: 0 < i < |samples| ==>
              outs[i] == Velocity(wheelRadiusMeters, halfAxleLengthMeters, samples[i - 1], samples[i])
    decreases |samples|
  {
    if samples == [] then []
    else [Velocity(wheelRadiusMeters, halfAxleLengthMeters, prev, samples[0])]
         + Run(wheelRadiusMeters, halfAxleLengthMeters, samples[0], samples[1..])
  }

  /** Sums of each output over a sequence of calls. */
  function TotalDistance(outs: seq<Velocities>): real
  {
    if outs == [] then 0.0 else outs[0].dxyMeters + TotalDistance(outs[1..])
  }

  function TotalTurn(outs: seq<Velocities>): real
  {
    if outs == [] then 0.0 else outs[0].dthetaDegrees + TotalTurn(outs[1..])
  }

  function TotalTime(outs: seq<Velocities>): real
  {
    if outs == [] then 0.0 else outs[0].dtSeconds + TotalTime(outs[1..])
  }

  /** Every sample but the last has a strictly positive time stamp. Each of
      those samples is stored and opens the gate for the call after it; the
      last one is only ever compared against, so its time stamp is free. */
  predicate TimedBeforeLast(samples: seq<Sample>)
  {
    forall i :: 0 <= i < |samples| - 1 ==> samples[i].timestampSeconds > 0.0
  }

  /** Appending a sample to a run appends one output, comparing the new
      sample with the one stored before it: the stored sample of the run so
      far is its last sample, or the starting one for an empty run. */
  lemma {:induction false} RunSnoc(wheelRadiusMeters: real, halfAxleLengthMeters: real, prev: Sample, samples: seq<Sample>, x: Sample)
    requires halfAxleLengthMeters != 0.0
    ensures Run(wheelRadiusMeters, halfAxleLengthMeters, prev, samples + [x])
         == Run(wheelRadiusMeters, halfAxleLengthMeters, prev, samples)
            + [Velocity(wheelRadiusMeters, halfAxleLengthMeters, if samples == [] then prev else samples[|samples| - 1], x)]
  {
    var longer := samples + [x];
    var lhs := Run(wheelRadiusMeters, halfAxleLengthMeters, prev, longer);
    var rhs := Run(wheelRadiusMeters, halfAxleLengthMeters, prev, samples)
               + [Velocity(wheelRadiusMeters, halfAxleLengthMeters, if samples == [] then prev else samples[|samples| - 1], x)];
    forall i | 0 <= i < |longer| ensures lhs[i] == rhs[i] {
      if 0 < i < |samples| {
        assert longer[i - 1] == samples[i - 1] && longer[i] == samples[i];
      } else if i == 0 && |samples| > 0 {
        assert longer[0] == samples[0];
      } else if i == |samples| > 0 {
        assert longer[i - 1] == samples[i - 1] && longer[i] == x;
      }
    }
  }

  /** Odometry telescopes: once the stored time stamps are positive, the outputs of a
      sequence of calls add up to the outputs one call would give comparing
      the first stored sample with the last one. Nothing is lost or counted
      twice between calls. */
  lemma {:induction false} RunTelescopes(wheelRadiusMeters: real, halfAxleLengthMeters: real, prev: Sample, samples: seq<Sample>)
    requires halfAxleLengthMeters != 0.0
    requires prev.timestampSeconds > 0.0 && TimedBeforeLast(samples) && |samples| > 0
    ensures var outs := Run(wheelRadiusMeters, halfAxleLengthMeters, prev, samples);
            var whole := Velocity(wheelRadiusMeters, halfAxleLengthMeters, prev, samples[|samples| - 1]);
            TotalDistance(outs) == whole.dxyMeters
            && TotalTurn(outs) == whole.dthetaDegrees
            && TotalTime(outs) == whole.dtSeconds
    decreases |samples|
  {
    var outs := Run(wheelRadiusMeters, halfAxleLengthMeters, prev, samples);
    var first := Velocity(wheelRadiusMeters, halfAxleLengthMeters, prev, samples[0]);
    if |samples| > 1 {
      var mid := samples[0];
      var rest := samples[1..];
      var last := samples[|samples| - 1];
      assert TimedBeforeLast(rest) by {
        forall i | 0 <= i < |rest| - 1 ensures rest[i].timestampSeconds > 0.0 {
          assert rest[i] == samples[i + 1];
        }
      }
      assert rest[|rest| - 1] == last;
      RunTelescopes(wheelRadiusMeters, halfAxleLengthMeters, mid, rest);
      var tail := Run(wheelRadiusMeters, halfAxleLengthMeters, mid, rest);
      assert outs == [first] + tail;
      assert outs[1..] == tail;
      var second := Velocity(wheelRadiusMeters, halfAxleLengthMeters, mid, last);
      var whole := Velocity(wheelRadiusMeters, halfAxleLengthMeters, prev, last);
      // distance: radians of the two legs add up per wheel
      var l1, l2 := mid.leftWheelDegrees - prev.leftWheelDegrees, last.leftWheelDegrees - mid.leftWheelDegrees;
      var r1, r2 := mid.rightWheelDegrees - prev.rightWheelDegrees, last.rightWheelDegrees - mid.rightWheelDegrees;
      RadiansAdditive(l1, l2);
      RadiansAdditive(r1, r2);
      assert l1 + l2 == last.leftWheelDegrees - prev.leftWheelDegrees;
      assert r1 + r2 == last.rightWheelDegrees - prev.rightWheelDegrees;
      assert first.dxyMeters + second.dxyMeters == whole.dxyMeters by {
        var w := wheelRadiusMeters;
        assert w * (Radians(l1) + Radians(r1)) + w * (Radians(l2) + Radians(r2))
            == w * ((Radians(l1) + Radians(l2)) + (Radians(r1) + Radians(r2)));
      }
      // turn: the scale factor distributes over the two legs
      assert first.dthetaDegrees + second.dthetaDegrees == whole.dthetaDegrees by {
        var k := wheelRadiusMeters / halfAxleLengthMeters;
        assert k * (r1 - l1) + k * (r2 - l2) == k * ((r1 + r2) - (l1 + l2));
      }
    } else {
      assert outs == [first];
      assert outs[1..] == [];
    }
  }

  /** A freshly built robot: the first call yields nothing, and the rest add
      up to the motion between the first and the last sample. */
  lemma {:induction false} ColdStartRunTelescopes(wheelRadiusMeters: real, halfAxleLengthMeters: real, samples: seq<Sample>)
    requires halfAxleLengthMeters != 0.0
    requires TimedBeforeLast(samples) && |samples| > 0
    ensures var outs := Run(wheelRadiusMeters, halfAxleLengthMeters, Unset, samples);
            var whole := Velocity(wheelRadiusMeters, halfAxleLengthMeters, samples[0], samples[|samples| - 1]);
            outs[0] == NoMotion
            && TotalDistance(outs) == whole.dxyMeters
            && TotalTurn(outs) == whole.dthetaDegrees
            && TotalTime(outs) == whole.dtSeconds
  {
    var outs := Run(wheelRadiusMeters, halfAxleLengthMeters, Unset, samples);
    var rest := samples[1..];
    var tail := Run(wheelRadiusMeters, halfAxleLengthMeters, samples[0], rest);
    assert outs == [NoMotion] + tail;
    assert outs[1..] == tail;
    if |rest| > 0 {
      assert TimedBeforeLast(rest) by {
        forall i | 0 <= i < |rest| - 1 ensures rest[i].timestampSeconds > 0.0 {
          assert rest[i] == samples[i + 1];
        }
      }
      assert rest[|rest| - 1] == samples[|samples| - 1];
      RunTelescopes(wheelRadiusMeters, halfAxleLengthMeters, samples[0], rest);
    } else {
      assert tail == [];
      assert samples[|samples| - 1] == samples[0];
      RadiansAdditive(0.0, 0.0);
    }
  }
}
