/** Value records of breezyslam.hpp: the Lidar description (class Laser) and a
    robot pose (class Position). Their C++ constructors only store their
    arguments; nothing in the header changes them afterwards. */
module LaserPosition {

  /** The Lidar parameters, in the order the C++ class declares its fields.
      The constructor takes them in a different order (see NewLaser).
      C++ `int` fields are unbounded integers here and `float` fields are reals. */
  datatype Laser = Laser(
    offsetMeters: real,
    scanRateHz: int,
    angleMinDegrees: int,
    angleMaxDegrees: int,
    detectionMargin: int,
    distanceNoDetectionMeters: real,
    scanSize: int)

  /** Laser::Laser: the arguments, in the constructor's order, each land in
      the field of the same meaning. */
  function NewLaser(
    scanSize: int,
    scanRateHz: int,
    angleMinDegrees: int,
    angleMaxDegrees: int,
    distanceNoDetectionMeters: real,
    detectionMargin: int,
    offsetMeters: real): (laser: Laser)
    ensures laser.scanSize == scanSize
    ensures laser.scanRateHz == scanRateHz
    ensures laser.angleMinDegrees == angleMinDegrees
    ensures laser.angleMaxDegrees == angleMaxDegrees
    ensures laser.distanceNoDetectionMeters == distanceNoDetectionMeters
    ensures laser.detectionMargin == detectionMargin
    ensures laser.offsetMeters == offsetMeters
  {
    Laser(offsetMeters, scanRateHz, angleMinDegrees, angleMaxDegrees,
          detectionMargin, distanceNoDetectionMeters, scanSize)
  }

  /** Two Laser objects built from different arguments are different:
      the constructor loses nothing. */
  lemma NewLaserInjective(
    s1: int, h1: int, a1: int, b1: int, d1: real, m1: int, o1: real,
    s2: int, h2: int, a2: int, b2: int, d2: real, m2: int, o2: real)
    requires NewLaser(s1, h1, a1, b1, d1, m1, o1) == NewLaser(s2, h2, a2, b2, d2, m2, o2)
    ensures s1 == s2 && h1 == h2 && a1 == a2 && b1 == b2 && d1 == d2 && m1 == m2 && o1 == o2
  {
    var l1 := NewLaser(s1, h1, a1, b1, d1, m1, o1);
    var l2 := NewLaser(s2, h2, a2, b2, d2, m2, o2);
    assert l1.scanSize == l2.scanSize && l1.offsetMeters == l2.offsetMeters;
  }

  /** A pose: position in meters from the left and top edges of the map,
      clockwise heading from east in degrees, and a likelihood that is only
      meaningful relative to other poses of the same cloud. */
  datatype Position = Position(
    xMeters: real,
    yMeters: real,
    thetaDegrees: real,
    likelihood: real)

  /** The three-argument Position constructor: stores the pose and gives it
      likelihood 1. */
  function NewPosition(xMeters: real, yMeters: real, thetaDegrees: real): (p: Position)
    ensures p.xMeters == xMeters && p.yMeters == yMeters && p.thetaDegrees == thetaDegrees
    ensures p.likelihood == 1.0
  {
    Position(xMeters, yMeters, thetaDegrees, 1.0)
  }

  /** The four-argument Position constructor: stores all four arguments. */
  function NewWeightedPosition(xMeters: real, yMeters: real, thetaDegrees: real, likelihood: real): (p: Position)
    ensures p.xMeters == xMeters && p.yMeters == yMeters && p.thetaDegrees == thetaDegrees
    ensures p.likelihood == likelihood
  {
    Position(xMeters, yMeters, thetaDegrees, likelihood)
  }

  /** The two constructors agree: the three-argument one is the four-argument
      one with likelihood 1, and only then. */
  lemma NewPositionIsUnitWeight(x: real, y: real, theta: real, likelihood: real)
    ensures NewPosition(x, y, theta) == NewWeightedPosition(x, y, theta, likelihood) <==> likelihood == 1.0
  {
    if NewPosition(x, y, theta) == NewWeightedPosition(x, y, theta, likelihood) {
      assert NewPosition(x, y, theta).likelihood == NewWeightedPosition(x, y, theta, likelihood).likelihood;
    }
  }
}
