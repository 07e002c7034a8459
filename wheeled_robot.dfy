/** WheeledRobot of breezyslam.hpp: a differential-drive robot that turns raw
    wheel-encoder readings into forward distance, turn and elapsed time
    between successive calls, remembering the previous sample in its fields. */
module WheeledRobots {
  import opened Odometry

  /** A robot-specific extractOdometry: raw (timestamp, left odometry, right
      odometry), in the robot's own units, to seconds and wheel degrees. */
  type Extractor = (real, real, real) -> Sample

  /** The samples a conversion yields for a sequence of raw readings. */
  function Converted(extractOdometry: Extractor, raws: seq<(real, real, real)>): (samples: seq<Sample>)
    ensures |samples| == |raws|
    ensures forall i :: 0 <= i < |raws| ==> samples[i] == extractOdometry(raws[i].0, raws[i].1, raws[i].2)
  {
    seq(|raws|, i requires 0 <= i < |raws| => extractOdometry(raws[i].0, raws[i].1, raws[i].2))
  }

  class WheeledRobot {
    var wheelRadiusMeters: real
    var halfAxleLengthMeters: real

    var timestampSecondsPrev: real
    var leftWheelDegreesPrev: real
    var rightWheelDegreesPrev: real

    /** The concrete robot's conversion, chosen when the robot is built
        (a pure virtual member in the C++ class). */
    const extractOdometry: Extractor

    /** The turn divides by the half axle length. */
    predicate Valid()
      reads this
    {
      halfAxleLengthMeters != 0.0
    }

    /** The stored previous sample. */
    function Previous(): Sample
      reads this
    {
      Sample(timestampSecondsPrev, leftWheelDegreesPrev, rightWheelDegreesPrev)
    }

    /** Stores the geometry and the conversion; the previous sample starts all zero. */
    constructor (wheelRadiusMeters: real, halfAxleLengthMeters: real, extractOdometry: Extractor)
      requires halfAxleLengthMeters != 0.0
      ensures Valid()
      ensures this.wheelRadiusMeters == wheelRadiusMeters
      ensures this.halfAxleLengthMeters == halfAxleLengthMeters
      ensures this.extractOdometry == extractOdometry
      ensures Previous() == Unset
    {
      this.wheelRadiusMeters := wheelRadiusMeters;
      this.halfAxleLengthMeters := halfAxleLengthMeters;
      this.extractOdometry := extractOdometry;
      timestampSecondsPrev := 0.0;
      leftWheelDegreesPrev := 0.0;
      rightWheelDegreesPrev := 0.0;
    }

    /** Converts the raw reading, compares it with the stored sample (all
        zeros unless the stored time stamp is positive) and then stores the
        converted reading, on both branches. The geometry is untouched. */
    method ComputeVelocities(timestamp: real, leftWheelOdometry: real, rightWheelOdometry: real)
      returns (dxyMeters: real, dthetaDegrees: real, dtSeconds: real)
      requires Valid()
      modifies this`timestampSecondsPrev, this`leftWheelDegreesPrev, this`rightWheelDegreesPrev
      ensures Valid()
      ensures Velocities(dxyMeters, dthetaDegrees, dtSeconds)
           == Velocity(wheelRadiusMeters, halfAxleLengthMeters, old(Previous()),
                       extractOdometry(timestamp, leftWheelOdometry, rightWheelOdometry))
      ensures Previous() == extractOdometry(timestamp, leftWheelOdometry, rightWheelOdometry)
      ensures wheelRadiusMeters == old(wheelRadiusMeters)
      ensures halfAxleLengthMeters == old(halfAxleLengthMeters)
    {
      dxyMeters := 0.0;
      dthetaDegrees := 0.0;
      dtSeconds := 0.0;

      var curr := extractOdometry(timestamp, leftWheelOdometry, rightWheelOdometry);
      var timestampSecondsCurr, leftWheelDegreesCurr, rightWheelDegreesCurr :=
        curr.timestampSeconds, curr.leftWheelDegrees, curr.rightWheelDegrees;

      if timestampSecondsPrev > 0.0 {
        var leftDiffDegrees := leftWheelDegreesCurr - leftWheelDegreesPrev;
        var rightDiffDegrees := rightWheelDegreesCurr - rightWheelDegreesPrev;

        dxyMeters := wheelRadiusMeters * (Radians(leftDiffDegrees) + Radians(rightDiffDegrees));
        dthetaDegrees := wheelRadiusMeters / halfAxleLengthMeters * (rightDiffDegrees - leftDiffDegrees);
        dtSeconds := timestampSecondsCurr - timestampSecondsPrev;
      }

      // the converted reading becomes the stored sample, on both branches
      timestampSecondsPrev := timestampSecondsCurr;
      leftWheelDegreesPrev := leftWheelDegreesCurr;
      rightWheelDegreesPrev := rightWheelDegreesCurr;
    }
  }

  /** A robot built and then asked once: whatever it reads, it reports no
      motion, and it has stored the converted reading. */
  method ColdStart(wheelRadiusMeters: real, halfAxleLengthMeters: real, extractOdometry: Extractor,
                   timestamp: real, leftWheelOdometry: real, rightWheelOdometry: real)
    returns (dxyMeters: real, dthetaDegrees: real, dtSeconds: real, stored: Sample)
    requires halfAxleLengthMeters != 0.0
    ensures dxyMeters == 0.0 && dthetaDegrees == 0.0 && dtSeconds == 0.0
    ensures stored == extractOdometry(timestamp, leftWheelOdometry, rightWheelOdometry)
  {
    var robot := new WheeledRobot(wheelRadiusMeters, halfAxleLengthMeters, extractOdometry);
    dxyMeters, dthetaDegrees, dtSeconds := robot.ComputeVelocities(timestamp, leftWheelOdometry, rightWheelOdometry);
    stored := robot.Previous();
  }

  /** A robot built and then asked twice: the second answer compares the two
      converted readings, and is all zeros when the first converted time stamp
      is not positive (the code's gate, not a first-call flag). */
  method SecondCall(wheelRadiusMeters: real, halfAxleLengthMeters: real, extractOdometry: Extractor,
                    t1: real, left1: real, right1: real, t2: real, left2: real, right2: real)
    returns (dxyMeters: real, dthetaDegrees: real, dtSeconds: real)
    requires halfAxleLengthMeters != 0.0
    ensures var s1, s2 := extractOdometry(t1, left1, right1), extractOdometry(t2, left2, right2);
            s1.timestampSeconds > 0.0 ==> dtSeconds == s2.timestampSeconds - s1.timestampSeconds
    ensures var s1 := extractOdometry(t1, left1, right1);
            s1.timestampSeconds <= 0.0 ==> dxyMeters == 0.0 && dthetaDegrees == 0.0 && dtSeconds == 0.0
    ensures Velocities(dxyMeters, dthetaDegrees, dtSeconds)
         == Velocity(wheelRadiusMeters, halfAxleLengthMeters,
                     extractOdometry(t1, left1, right1), extractOdometry(t2, left2, right2))
  {
    var robot := new WheeledRobot(wheelRadiusMeters, halfAxleLengthMeters, extractOdometry);
    var _, _, _ := robot.ComputeVelocities(t1, left1, right1);
    dxyMeters, dthetaDegrees, dtSeconds := robot.ComputeVelocities(t2, left2, right2);
  }

  /** A robot built and then asked once per raw reading, in order: its
      answers are those of Odometry.Run over the converted readings, starting
      from the all-zero sample a new robot stores. So what is proved about
      Run (telescoping totals among them) holds of the class. */
  method Drive(wheelRadiusMeters: real, halfAxleLengthMeters: real, extractOdometry: Extractor,
               raws: seq<(real, real, real)>)
    returns (outs: seq<Velocities>)
    requires halfAxleLengthMeters != 0.0
    ensures outs == Run(wheelRadiusMeters, halfAxleLengthMeters, Unset, Converted(extractOdometry, raws))
  {
    var robot := new WheeledRobot(wheelRadiusMeters, halfAxleLengthMeters, extractOdometry);
    ghost var samples := Converted(extractOdometry, raws);
    outs := [];
    var i := 0;
    while i < |raws|
      invariant 0 <= i <= |raws|
      invariant robot.Valid() && robot.extractOdometry == extractOdometry
      invariant robot.wheelRadiusMeters == wheelRadiusMeters && robot.halfAxleLengthMeters == halfAxleLengthMeters
      invariant robot.Previous() == if i == 0 then Unset else samples[i - 1]
      invariant outs == Run(wheelRadiusMeters, halfAxleLengthMeters, Unset, samples[..i])
    {
      var dxyMeters, dthetaDegrees, dtSeconds := robot.ComputeVelocities(raws[i].0, raws[i].1, raws[i].2);
      RunSnoc(wheelRadiusMeters, halfAxleLengthMeters, Unset, samples[..i], samples[i]);
      assert samples[..i + 1] == samples[..i] + [samples[i]];
      outs := outs + [Velocities(dxyMeters, dthetaDegrees, dtSeconds)];
      i := i + 1;
    }
    assert samples[..i] == samples;
  }
}
