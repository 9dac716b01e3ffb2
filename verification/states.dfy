/** The nine state actuators of states.py. Each computes throttle, brake and
    steer from the record; ReturningHome also records the distance and bearing
    to the home beacon. A law function gives each actuator's result, and each
    actuator method is proved to write exactly that. */
module States {
  import opened Numerics
  import opened RoverState

  /** The three control outputs. */
  datatype Controls = Controls(throttle: real, brake: real, steer: Float)

  /** Distance and bearing (degrees) of the home beacon in the rover frame,
      computed by the source with pix_to_rover and to_polar_coords. */
  datatype HomeFix = HomeFix(distance: real, angle: real)

  function ControlsOf(r: RoverData): Controls
  {
    Controls(r.throttle, r.brake, r.steer)
  }

  function WithControls(r: RoverData, c: Controls): RoverData
  {
    r.(throttle := c.throttle, brake := c.brake, steer := c.steer)
  }

  /** Full brake, wheels straight, no throttle: the "stop first" half of every
      stop-then-pivot law. */
  const Halt: Controls := Controls(0.0, MAX_BRAKE, Num(0.0))

  /** Pivot in place (no throttle, no brake) at the given steer. */
  function Pivot(steer: real): Controls
  {
    Controls(0.0, 0.0, Num(steer))
  }

  function ClipSteer(x: Float): Float
  {
    Clip(x, MAX_STEER_RIGHT, MAX_STEER_LEFT)
  }

  // ---------------------------------------------------------------- laws

  const FOLLOW_THROTTLE: real := 0.8
  const LARGE_WALL_OFFSET: real := -9.0

  function FollowingLeftWallLaw(r: RoverData): Controls
  {
    var angleToWall := Affine(Mean(r.navAnglesLeft), 1.0, LARGE_WALL_OFFSET);
    Controls(if r.vel < MAX_VEL then FOLLOW_THROTTLE else 0.0, 0.0, ClipSteer(angleToWall))
  }

  function TurningToLeftWallLaw(r: RoverData): Controls
  {
    if r.vel > MIN_VEL then Halt else Pivot(MAX_STEER_LEFT)
  }

  function AvoidingLeftWallLaw(r: RoverData): Controls
  {
    if r.vel > MIN_VEL then Halt else Pivot(MAX_STEER_RIGHT)
  }

  function AvoidingObstaclesLaw(r: RoverData): Controls
    requires r.navAngles.Some?
  {
    var navAngle := Mean(r.navAngles.value);
    if r.vel > MIN_VEL then Halt
    else if Lt(navAngle, MIN_ANGLE_RIGHT) then Pivot(MAX_STEER_RIGHT)
    else if Gt(navAngle, MIN_ANGLE_LEFT) then Pivot(MAX_STEER_LEFT)
    else Pivot(MAX_STEER_RIGHT)
  }

  const SAMPLE_THROTTLE: real := 0.39
  const APPROACH_VEL: real := 1.0
  const SMALL_WALL_OFFSET: real := -3.6

  function GoingToSampleLaw(r: RoverData): Controls
  {
    if r.vel > APPROACH_VEL then Halt
    else if |r.rockAngles| >= 1 then
      var angleToRock := Affine(Mean(r.rockAngles), 1.0, SMALL_WALL_OFFSET);
      if Ge(angleToRock, MIN_ANGLE_LEFT) then Pivot(MAX_STEER_LEFT)
      else if Le(angleToRock, MIN_ANGLE_RIGHT) then Pivot(MAX_STEER_RIGHT)
      // the source's last test, (right < angle < left) or isnan(angle), holds
      // whenever the two above fail
      else Controls(SAMPLE_THROTTLE, 0.0, ClipSteer(angleToRock))
    else Pivot(MAX_STEER_LEFT)
  }

  function GettingUnstuckLaw(r: RoverData): Controls
    requires r.navAngles.Some?
  {
    var navAngle := Mean(r.navAngles.value);
    if r.vel > MIN_VEL then Halt
    else if Lt(navAngle, MAX_STEER_RIGHT) then Pivot(MAX_STEER_RIGHT)
    else if Gt(navAngle, MAX_STEER_LEFT) then Pivot(MAX_STEER_LEFT)
    else Pivot(MAX_STEER_RIGHT)
  }

  function StoppingAtSampleLaw(r: RoverData): Controls
  {
    Halt
  }

  const SLOW_VEL: real := 1.0
  const PARK_VEL: real := 0.5
  const MAX_THROTTLE_SET: real := 0.8
  const SLOW_THROTTLE_SET: real := 0.2
  const PARK_THROTTLE_SET: real := 0.3
  const HOME_WEIGHT: real := 0.3
  const HOME_PIVOT_ANGLE: real := 23.0

  /** 0.3 * home bearing + 0.7 * navigable bearing. */
  function HomeNavHeading(homeAngle: real, navAngle: Float): Float
  {
    Affine(navAngle, 1.0 - HOME_WEIGHT, HOME_WEIGHT * homeAngle)
  }

  /** The four distance bands of ReturningHome, for the rover velocity, the
      mean navigable angle and the home fix. */
  function ReturningHomeControls(vel: real, navAngle: Float, home: HomeFix): Controls
  {
    var heading := HomeNavHeading(home.angle, navAngle);
    var cruise := if vel < MAX_VEL then MAX_THROTTLE_SET else 0.0;
    var d := home.distance;
    if d > 450.0 then Controls(cruise, 0.0, ClipSteer(navAngle))
    else if 200.0 < d then Controls(cruise, 0.0, ClipSteer(heading))
    else if 100.0 < d then
      Controls(if vel < SLOW_VEL then SLOW_THROTTLE_SET else 0.0, 0.0, ClipSteer(heading))
    else if vel > PARK_VEL then Halt
    else if home.angle >= HOME_PIVOT_ANGLE then Pivot(MAX_STEER_LEFT)
    else if home.angle <= -HOME_PIVOT_ANGLE then Pivot(MAX_STEER_RIGHT)
    else Controls(PARK_THROTTLE_SET, 0.0, ClipSteer(Num(home.angle)))
  }

  function ReturningHomeLaw(r: RoverData, home: HomeFix): RoverData
    requires r.navAngles.Some?
  {
    var r1 := r.(distanceFromHome := home.distance, angleFromHome := home.angle);
    WithControls(r1, ReturningHomeControls(r.vel, Mean(r.navAngles.value), home))
  }

  function ParkingAtHomeLaw(r: RoverData): Controls
  {
    if r.vel > MIN_VEL then Halt else ControlsOf(r)
  }

  // ----------------------------------------------------------- actuators

  /** Writes the three control outputs of the record and nothing else. */
  method SetControls(rover: Rover, c: Controls)
    modifies rover
    ensures rover.Data() == WithControls(old(rover.Data()), c)
  {
    rover.throttle, rover.brake, rover.steer := c.throttle, c.brake, c.steer;
  }

  method FollowingLeftWall(rover: Rover)
    modifies rover
    ensures rover.Data() == WithControls(old(rover.Data()), FollowingLeftWallLaw(old(rover.Data())))
  {
    var angleToWall := Affine(Mean(rover.navAnglesLeft), 1.0, LARGE_WALL_OFFSET);
    var throttle;
    if rover.vel < MAX_VEL {
      throttle := FOLLOW_THROTTLE;
    } else {
      throttle := 0.0;
    }
    SetControls(rover, Controls(throttle, 0.0, Clip(angleToWall, MAX_STEER_RIGHT, MAX_STEER_LEFT)));
  }

  method TurningToLeftWall(rover: Rover)
    modifies rover
    ensures rover.Data() == WithControls(old(rover.Data()), TurningToLeftWallLaw(old(rover.Data())))
  {
    if rover.vel > MIN_VEL {
      SetControls(rover, Controls(0.0, MAX_BRAKE, Num(0.0)));
    } else {
      SetControls(rover, Controls(0.0, 0.0, Num(MAX_STEER_LEFT)));
    }
  }

  method AvoidingLeftWall(rover: Rover)
    modifies rover
    ensures rover.Data() == WithControls(old(rover.Data()), AvoidingLeftWallLaw(old(rover.Data())))
  {
    if rover.vel > MIN_VEL {
      SetControls(rover, Controls(0.0, MAX_BRAKE, Num(0.0)));
    } else {
      SetControls(rover, Controls(0.0, 0.0, Num(MAX_STEER_RIGHT)));
    }
  }

  method AvoidingObstacles(rover: Rover)
    requires rover.navAngles.Some?
    modifies rover
    ensures rover.Data() == WithControls(old(rover.Data()), AvoidingObstaclesLaw(old(rover.Data())))
  {
    var navAngle := Mean(rover.navAngles.value);
    if rover.vel > MIN_VEL {
      SetControls(rover, Controls(0.0, MAX_BRAKE, Num(0.0)));
    } else if Lt(navAngle, MIN_ANGLE_RIGHT) {
      SetControls(rover, Controls(0.0, 0.0, Num(MAX_STEER_RIGHT)));
    } else if Gt(navAngle, MIN_ANGLE_LEFT) {
      SetControls(rover, Controls(0.0, 0.0, Num(MAX_STEER_LEFT)));
    } else {
      // also the branch taken when the mean is NaN
      SetControls(rover, Controls(0.0, 0.0, Num(MAX_STEER_RIGHT)));
    }
  }

  method GoingToSample(rover: Rover)
    modifies rover
    ensures rover.Data() == WithControls(old(rover.Data()), GoingToSampleLaw(old(rover.Data())))
  {
    var rockPixs := |rover.rockAngles|;
    if rover.vel > APPROACH_VEL {
      SetControls(rover, Controls(0.0, MAX_BRAKE, Num(0.0)));
    } else if rockPixs >= 1 {
      var angleToRock := Affine(Mean(rover.rockAngles), 1.0, SMALL_WALL_OFFSET);
      if Ge(angleToRock, MIN_ANGLE_LEFT) {
        SetControls(rover, Controls(0.0, 0.0, Num(MAX_STEER_LEFT)));
      } else if Le(angleToRock, MIN_ANGLE_RIGHT) {
        SetControls(rover, Controls(0.0, 0.0, Num(MAX_STEER_RIGHT)));
      } else if (Gt(angleToRock, MIN_ANGLE_RIGHT) && Lt(angleToRock, MIN_ANGLE_LEFT)) || angleToRock.NaN? {
        SetControls(rover, Controls(SAMPLE_THROTTLE, 0.0, Clip(angleToRock, MAX_STEER_RIGHT, MAX_STEER_LEFT)));
      }
    } else {
      SetControls(rover, Controls(0.0, 0.0, Num(MAX_STEER_LEFT)));
    }
  }

  method GettingUnstuck(rover: Rover)
    requires rover.navAngles.Some?
    modifies rover
    ensures rover.Data() == WithControls(old(rover.Data()), GettingUnstuckLaw(old(rover.Data())))
  {
    var navAngle := Mean(rover.navAngles.value);
    if rover.vel > MIN_VEL {
      SetControls(rover, Controls(0.0, MAX_BRAKE, Num(0.0)));
    } else if Lt(navAngle, MAX_STEER_RIGHT) {
      SetControls(rover, Controls(0.0, 0.0, Num(MAX_STEER_RIGHT)));
    } else if Gt(navAngle, MAX_STEER_LEFT) {
      SetControls(rover, Controls(0.0, 0.0, Num(MAX_STEER_LEFT)));
    } else {
      SetControls(rover, Controls(0.0, 0.0, Num(MAX_STEER_RIGHT)));
    }
  }

  method StoppingAtSample(rover: Rover)
    modifies rover
    ensures rover.Data() == WithControls(old(rover.Data()), StoppingAtSampleLaw(old(rover.Data())))
  {
    SetControls(rover, Controls(0.0, MAX_BRAKE, Num(0.0)));
  }

  /** The band selection of ReturningHome on the values it reads. */
  method HomeBandControls(vel: real, navAngle: Float, home: HomeFix) returns (c: Controls)
    ensures c == ReturningHomeControls(vel, navAngle, home)
  {
    var homenavHeading := Affine(navAngle, 1.0 - HOME_WEIGHT, HOME_WEIGHT * home.angle);
    var throttle := if vel < MAX_VEL then MAX_THROTTLE_SET else 0.0;
    if home.distance > 450.0 {
      c := Controls(throttle, 0.0, Clip(navAngle, MAX_STEER_RIGHT, MAX_STEER_LEFT));
    } else if 200.0 < home.distance <= 450.0 {
      c := Controls(throttle, 0.0, Clip(homenavHeading, MAX_STEER_RIGHT, MAX_STEER_LEFT));
    } else if 100.0 < home.distance <= 200.0 {
      if vel < SLOW_VEL {
        throttle := SLOW_THROTTLE_SET;
      } else {
        throttle := 0.0;
      }
      c := Controls(throttle, 0.0, Clip(homenavHeading, MAX_STEER_RIGHT, MAX_STEER_LEFT));
    } else if vel > PARK_VEL {
      c := Controls(0.0, MAX_BRAKE, Num(0.0));
    } else if home.angle >= HOME_PIVOT_ANGLE {
      c := Controls(0.0, 0.0, Num(MAX_STEER_LEFT));
    } else if home.angle <= -HOME_PIVOT_ANGLE {
      c := Controls(0.0, 0.0, Num(MAX_STEER_RIGHT));
    } else {
      c := Controls(PARK_THROTTLE_SET, 0.0, Clip(Num(home.angle), MAX_STEER_RIGHT, MAX_STEER_LEFT));
    }
  }

  method ReturningHome(rover: Rover, home: HomeFix)
    requires rover.navAngles.Some?
    modifies rover
    ensures rover.Data() == ReturningHomeLaw(old(rover.Data()), home)
  {
    rover.distanceFromHome := home.distance;
    rover.angleFromHome := home.angle;
    var c := HomeBandControls(rover.vel, Mean(rover.navAngles.value), home);
    rover.throttle, rover.brake, rover.steer := c.throttle, c.brake, c.steer;
  }

  method ParkingAtHome(rover: Rover)
    modifies rover
    ensures rover.Data() == WithControls(old(rover.Data()), ParkingAtHomeLaw(old(rover.Data())))
  {
    if rover.vel > MIN_VEL {
      SetControls(rover, Controls(0.0, MAX_BRAKE, Num(0.0)));
    }
  }
}
