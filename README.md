# BreezySLAM wheeled-robot odometry, in Dafny

This project models the part of BreezySLAM's C++ header `breezyslam.hpp` that has bodies:

- `WheeledRobot` is the differential-drive odometry extractor. Its constructor stores the wheel radius and half axle length and zeroes the previous sample. `computeVelocities` converts a raw encoder reading through the robot-specific `extractOdometry`. When the stored previous time stamp is strictly positive, it reports forward distance (meters), turn (degrees) and elapsed time (seconds) against the stored sample. Otherwise it reports zeros. Either way it then stores the converted reading. `radians` converts degrees to radians.
- `Laser` is the Lidar description and `Position` a robot pose. Their constructors only store their arguments.

Layout:

- `odometry.dfy` (module `Odometry`) holds the arithmetic as pure functions over reals. `Velocity` gives the outputs of one call from the stored and the current sample. `Run` gives the outputs of a sequence of calls, and `WheeledRobots.Drive` proves the class produces exactly those. The lemmas cover driving straight, spinning in place, encoder origin, order reversal, unchecked time, and the telescoping of a whole run.
- `wheeled_robot.dfy` (module `WheeledRobots`) holds the class `WheeledRobot` with the source's five fields. `ComputeVelocities` modifies the three previous-sample fields and is proved against `Odometry.Velocity`. `extractOdometry` is a function value fixed at construction. It stands for the pure virtual member that each concrete robot overrides.
- `laser_position.dfy` (module `LaserPosition`) holds `Laser` and `Position` as immutable datatypes, with their constructors as functions.

Three points of `computeVelocities` are easy to misread, and the model keeps each as the code has it:

- There is no first-call flag. The call gates on the stored time stamp being strictly positive. So every call made while that stamp is zero or negative reports zeros, not only the first one. `SecondCall` shows this on a second call.
- `extractOdometry` runs on every call, the first included.
- The constructor validates neither the wheel radius nor the half axle length. The model requires only a non-zero half axle length, because the turn divides by it. It accepts any wheel radius and a negative half axle.

## Model

| member | source | states |
|---|---|---|
| Odometry.Radians | libraries/breezyslam/c++/breezyslam.hpp:384-387 | degrees to radians keeps the sign of the angle: positive exactly for positive angles, negative exactly for negative ones, zero at zero |
| Odometry.RadiansAdditive | libraries/breezyslam/c++/breezyslam.hpp:384-387 | converting a sum of angles is the sum of the converted angles |
| Odometry.RadiansLinear | libraries/breezyslam/c++/breezyslam.hpp:384-387 | the conversion commutes with scaling, and 180 degrees is Pi |
| Odometry.RadiansNegate | libraries/breezyslam/c++/breezyslam.hpp:384-387 | converting a negated angle negates the result |
| Odometry.Velocity | libraries/breezyslam/c++/breezyslam.hpp:307-328 | a stored time stamp that is not strictly positive yields zero distance, turn and time for any reading; otherwise the elapsed time is the difference of the time stamps |
| Odometry.StraightLine | libraries/breezyslam/c++/breezyslam.hpp:318-325 | equal wheel rotations give no turn and a distance of twice the wheel radius times the rotation in radians |
| Odometry.SpinInPlace | libraries/breezyslam/c++/breezyslam.hpp:318-325 | equal and opposite wheel rotations give no distance and a turn of twice the rotation times radius over half axle, in degrees |
| Odometry.NoTurnIffEqualRotation | libraries/breezyslam/c++/breezyslam.hpp:318-325 | with a non-zero wheel radius, the turn is zero if and only if both wheels rotated by the same amount |
| Odometry.NoDistanceIffOppositeRotation | libraries/breezyslam/c++/breezyslam.hpp:318-322 | with a non-zero wheel radius, the distance is zero if and only if the wheels rotated by equal and opposite amounts |
| Odometry.BackwardsTime | libraries/breezyslam/c++/breezyslam.hpp:316-327 | time is not validated: the elapsed time is negative if and only if the current time stamp is earlier than the stored one |
| Odometry.EncoderOriginIrrelevant | libraries/breezyslam/c++/breezyslam.hpp:318-327 | offsetting both samples' wheel readings by the same per-wheel constants leaves all three outputs unchanged |
| Odometry.SwapNegates | libraries/breezyslam/c++/breezyslam.hpp:316-327 | with both time stamps positive, comparing the samples in the opposite order negates all three outputs |
| Odometry.Run | libraries/breezyslam/c++/breezyslam.hpp:303-334 | in a sequence of calls the first output compares with the stored sample and every later output compares with the sample of the call just before it |
| Odometry.RunSnoc | libraries/breezyslam/c++/breezyslam.hpp:303-334 | one more call appends one output, which compares the new sample with the one stored by the call before (the last sample, or the starting one) |
| Odometry.RunTelescopes | libraries/breezyslam/c++/breezyslam.hpp:316-333 | with positive stored time stamps (every sample but the last; the last one is free), the distances, turns and times of a sequence of calls add up to the outputs of one comparison of the first stored sample with the last reading |
| Odometry.ColdStartRunTelescopes | libraries/breezyslam/c++/breezyslam.hpp:283-334 | for a new robot whose samples but the last have positive time stamps, the first call yields (0, 0, 0) and the totals equal the motion from the first reading to the last |
| WheeledRobots.WheeledRobot.constructor | libraries/breezyslam/c++/breezyslam.hpp:283-291 | stores the wheel radius, the half axle length and the conversion, and sets the previous time stamp and both wheel degrees to 0 |
| WheeledRobots.WheeledRobot.ComputeVelocities | libraries/breezyslam/c++/breezyslam.hpp:303-334 | the outputs are `Velocity` of the old stored sample and the converted reading; afterwards the stored sample is the converted reading on both branches, and the wheel radius and half axle length are unchanged |
| WheeledRobots.ColdStart | libraries/breezyslam/c++/breezyslam.hpp:283-316 | a robot's first call after construction returns (0, 0, 0) whatever it reads, and stores the converted reading |
| WheeledRobots.SecondCall | libraries/breezyslam/c++/breezyslam.hpp:303-334 | a second call compares the two converted readings; it returns zeros when the first converted time stamp is not positive, and otherwise the time between the two |
| WheeledRobots.Drive | libraries/breezyslam/c++/breezyslam.hpp:283-334 | a new robot called once per raw reading returns exactly `Odometry.Run` over the converted readings from the all-zero stored sample, so the telescoping lemmas hold of the class |
| LaserPosition.NewLaser | libraries/breezyslam/c++/breezyslam.hpp:157-174 | each of the seven constructor arguments is stored unchanged in its field, though the fields are declared in a different order |
| LaserPosition.NewLaserInjective | libraries/breezyslam/c++/breezyslam.hpp:157-174 | two Laser objects are equal only when they were built from the same seven arguments |
| LaserPosition.NewPosition | libraries/breezyslam/c++/breezyslam.hpp:249-256 | the three-argument constructor stores the pose and sets likelihood to 1 |
| LaserPosition.NewWeightedPosition | libraries/breezyslam/c++/breezyslam.hpp:258-265 | the four-argument constructor stores the pose and the given likelihood |
| LaserPosition.NewPositionIsUnitWeight | libraries/breezyslam/c++/breezyslam.hpp:249-265 | the three-argument constructor equals the four-argument one exactly when the likelihood given to it is 1 |

## Left out

- `CoreSLAM` (constructors, `update`, `getmap`, `setmap`, `getcloud` and the tuning fields `map_quality`, `hole_width_meters`, `sigma_xy_meters`, `sigma_theta_degrees`): the header only declares them. The implementation behind the private `state_t` is not part of this model.
- Concrete `extractOdometry` and `descriptorString` implementations: they are pure virtual and differ per robot. `extractOdometry` is an arbitrary function value given to the constructor. In C++ it is a non-const virtual member, so an override could keep state and convert the same raw reading differently on different calls; such a stateful override is not modelled.
- The `operator<<` overloads of `Laser`, `Position` and `WheeledRobot`: they only format diagnostic text.
- Floating point: `double` and `float` values are reals, so rounding is not modelled. The `float` fields of `Laser` are not narrowed. `Pi` is the exact decimal value of `M_PI`, and the proofs use only its positivity.
- C++ `int` fields of `Laser` are unbounded integers. The constructor only copies them, so no width matters there.
- A half axle length of zero: the code would divide by zero. The constructor and `Odometry.Velocity` require it to be non-zero.
- C++ access control (`protected`, `private`, `friend`) and the inheritance of concrete robots from `WheeledRobot` are not modelled.
