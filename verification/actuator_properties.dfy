/** Properties of the nine control laws of states.py. */
module ActuatorProperties {
  import opened Numerics
  import opened RoverState
  import opened States

  /** FollowingLeftWall never brakes, steers on the left mean less 9 when it
      lies within the steering range, saturates at the limits outside it, and
      steers NaN exactly when there are no left angles. */
  lemma FollowingLeftWallSteering(r: RoverData)
    ensures var c := FollowingLeftWallLaw(r);
      && c.brake == 0.0
      && (c.throttle == 0.8 <==> r.vel < MAX_VEL) && (c.throttle != 0.8 ==> c.throttle == 0.0)
      && (c.steer.NaN? <==> |r.navAnglesLeft| == 0)
      && (|r.navAnglesLeft| > 0 ==>
            var target := Sum(r.navAnglesLeft) / (|r.navAnglesLeft| as real) - 9.0;
            && (-15.0 <= target <= 15.0 ==> c.steer == Num(target))
            && (target > 15.0 ==> c.steer == Num(15.0))
            && (target < -15.0 ==> c.steer == Num(-15.0)))
  {
  }

  /** The four stop-then-pivot laws: above MIN_VEL they all halt (full brake,
      straight wheels, no throttle); at or below it they release the brake,
      give no throttle and pivot at a steering limit. TurningToLeftWall
      pivots left, AvoidingLeftWall right, and AvoidingObstacles and
      GettingUnstuck right unless the navigable mean lies beyond their
      left threshold. */
  lemma StopThenPivot(r: RoverData)
    requires r.navAngles.Some?
    ensures var laws := [TurningToLeftWallLaw(r), AvoidingLeftWallLaw(r),
                         AvoidingObstaclesLaw(r), GettingUnstuckLaw(r)];
      && (r.vel > MIN_VEL ==> forall k :: 0 <= k < |laws| ==> laws[k] == Halt)
      && (r.vel <= MIN_VEL ==> forall k :: 0 <= k < |laws| ==>
            laws[k].throttle == 0.0 && laws[k].brake == 0.0 &&
            (laws[k].steer == Num(MAX_STEER_LEFT) || laws[k].steer == Num(MAX_STEER_RIGHT)))
    ensures r.vel <= MIN_VEL ==>
      && TurningToLeftWallLaw(r).steer == Num(MAX_STEER_LEFT)
      && AvoidingLeftWallLaw(r).steer == Num(MAX_STEER_RIGHT)
      && (AvoidingObstaclesLaw(r).steer == Num(MAX_STEER_LEFT) <==> Gt(Mean(r.navAngles.value), MIN_ANGLE_LEFT))
      && (GettingUnstuckLaw(r).steer == Num(MAX_STEER_LEFT) <==> Gt(Mean(r.navAngles.value), MAX_STEER_LEFT))
  {
  }

  /** With no navigable pixel at all, the obstacle and unstuck pivots turn
      right: the NaN mean fails both threshold tests. */
  lemma EmptyNavTurnsRight(r: RoverData)
    requires r.navAngles == Some([]) && r.vel <= MIN_VEL
    ensures AvoidingObstaclesLaw(r) == Pivot(MAX_STEER_RIGHT)
    ensures GettingUnstuckLaw(r) == Pivot(MAX_STEER_RIGHT)
  {
  }

  /** GoingToSample brakes above 1.0; otherwise it either pivots with no
      throttle or creeps at 0.39, and it creeps only when the biased rock
      angle is strictly inside (-20, 20), steering on it. With no rock in view
      it pivots left. */
  lemma GoingToSampleCreepsOnlyWhenAimed(r: RoverData)
    ensures var c := GoingToSampleLaw(r);
      && (r.vel > APPROACH_VEL ==> c == Halt)
      && (c.throttle == 0.0 || c.throttle == SAMPLE_THROTTLE)
      && (c.throttle == SAMPLE_THROTTLE ==>
            var a := Sum(r.rockAngles) / (|r.rockAngles| as real) - 3.6;
            && r.vel <= APPROACH_VEL && |r.rockAngles| >= 1
            && -20.0 < a < 20.0 && c.steer == ClipSteer(Num(a)) && c.brake == 0.0)
      && (r.vel <= APPROACH_VEL && |r.rockAngles| == 0 ==> c == Pivot(MAX_STEER_LEFT))
  {
  }

  /** The ReturningHome bands: beyond 450 the steer ignores the home angle;
      at 100 or less it ignores the navigable angle; throttle is at most 0.8,
      at most 0.2 within 200, and at most 0.3 within 100. */
  lemma ReturningHomeBands(vel: real, nav1: Float, nav2: Float, home: HomeFix, angle2: real)
    ensures home.distance > 450.0 ==>
      ReturningHomeControls(vel, nav1, home) == ReturningHomeControls(vel, nav1, home.(angle := angle2))
    ensures home.distance <= 100.0 ==>
      ReturningHomeControls(vel, nav1, home) == ReturningHomeControls(vel, nav2, home)
    ensures var c := ReturningHomeControls(vel, nav1, home);
      && 0.0 <= c.throttle <= 0.8
      && (home.distance <= 200.0 ==> c.throttle <= 0.3)
      && (100.0 < home.distance <= 200.0 ==> c.throttle <= 0.2)
      && (home.distance <= 100.0 && vel > PARK_VEL ==> c == Halt)
  {
  }

  /** In the two middle bands the heading is the 3:7 blend of home and
      navigable angles, so it lies between the two when both are defined. */
  lemma HomeNavHeadingBetween(homeAngle: real, nav: real)
    ensures var h := HomeNavHeading(homeAngle, Num(nav));
      h.Num? &&
      (if homeAngle <= nav then homeAngle <= h.val <= nav else nav <= h.val <= homeAngle)
    ensures HomeNavHeading(homeAngle, NaN) == NaN
  {
  }

  /** Close to home and slow, ReturningHome pivots towards home when the home
      angle is 23 degrees or more off, and otherwise creeps at 0.3 steering on
      the home angle. */
  lemma ParkingApproach(vel: real, nav: Float, home: HomeFix)
    requires home.distance <= 100.0 && vel <= PARK_VEL
    ensures var c := ReturningHomeControls(vel, nav, home);
      && (home.angle >= 23.0 ==> c == Pivot(MAX_STEER_LEFT))
      && (home.angle <= -23.0 ==> c == Pivot(MAX_STEER_RIGHT))
      && (-23.0 < home.angle < 23.0 ==> c.throttle == 0.3 && c.brake == 0.0 && c.steer == ClipSteer(Num(home.angle)))
  {
  }

  /** ParkingAtHome halts a moving rover and otherwise keeps the controls, so
      applying it twice is the same as applying it once. */
  lemma ParkingIdempotent(r: RoverData)
    ensures r.vel <= MIN_VEL ==> ParkingAtHomeLaw(r) == ControlsOf(r)
    ensures ParkingAtHomeLaw(WithControls(r, ParkingAtHomeLaw(r))) == ParkingAtHomeLaw(r)
  {
  }
}
