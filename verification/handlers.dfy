/** The older predicate set of handlers.py. Its handlers are the step
    functions of module Transitions under the rule set LegacyHandlers. */
module Handlers {
  import opened Numerics
  import opened RoverState
  import Events

  /** front_path_clear: at least 500 navigable angles. */
  predicate FrontPathClear(r: RoverData)
    requires r.navAngles.Some?
  {
    |r.navAngles.value| >= 500
  }

  /** left_path_clear: at least 1500 left angles. */
  predicate LeftPathClear(r: RoverData)
  {
    |r.navAnglesLeft| >= 1500
  }

  /** pointed_at_nav: the mean navigable angle lies in [-17, 17]. */
  predicate PointedAtNav(r: RoverData)
    requires r.navAngles.Some?
    ensures PointedAtNav(r) <==>
      var nav := r.navAngles.value;
      |nav| > 0 && -17.0 <= Sum(nav) / (|nav| as real) <= 17.0
  {
    var navHeading := Mean(r.navAngles.value);
    Ge(navHeading, -17.0) && Le(navHeading, 17.0)
  }

  /** pointed_along_wall with the -10 bias added to the mean: at least 500
      left angles and mean - 10 > 0. */
  predicate PointedAlongWall(r: RoverData)
  {
    |r.navAnglesLeft| >= 500 && Gt(Affine(Mean(r.navAnglesLeft), 1.0, -10.0), 0.0)
  }

  /** The biased test asks for a mean above 10, so it is stricter than the
      live test (mean above -10). */
  lemma BiasedPointedMeaning(r: RoverData)
    ensures PointedAlongWall(r) <==>
      |r.navAnglesLeft| >= 500 && Sum(r.navAnglesLeft) / (|r.navAnglesLeft| as real) > 10.0
    ensures PointedAlongWall(r) ==> Events.PointedAlongWall(r)
  {
  }

  /** deviated_from_wall: the mean left angle is above 25. */
  predicate DeviatedFromWall(r: RoverData)
  {
    Gt(Mean(r.navAnglesLeft), 25.0)
  }

  /** at_front_obstacle: fewer than 600 navigable angles. */
  predicate AtFrontObstacle(r: RoverData)
    requires r.navAngles.Some?
  {
    |r.navAngles.value| < 600
  }

  /** at_left_obstacle: fewer than 50 left angles. */
  predicate AtLeftObstacle(r: RoverData)
  {
    |r.navAnglesLeft| < 50
  }

  /** Enough room on the left and an obstacle on the left exclude each other,
      and a clear front is the negation of a front obstacle once the threshold
      gap [500, 600) is accounted for. */
  lemma PathTestsExclusive(r: RoverData)
    requires r.navAngles.Some?
    ensures !(LeftPathClear(r) && AtLeftObstacle(r))
    ensures !FrontPathClear(r) ==> AtFrontObstacle(r)
    ensures AtFrontObstacle(r) && FrontPathClear(r) <==> 500 <= |r.navAngles.value| < 600
  {
  }

  /** sample_on_left: mean rock angle >= 0 and mean rock distance below 71. */
  predicate SampleOnLeft(r: RoverData)
  {
    Ge(Mean(r.rockAngles), 0.0) && Lt(Mean(r.rockDists), 71.0)
  }

  /** sample_right_close: mean rock angle above -17 and mean rock distance
      below 75. */
  predicate SampleRightClose(r: RoverData)
  {
    Gt(Mean(r.rockAngles), -17.0) && Lt(Mean(r.rockDists), 75.0)
  }

  /** The three sample tests are nested: a sample on the left is located,
      and a located sample is close on the right. So the disjunction that
      the older handlers test is sample_right_close alone. */
  lemma SampleTestsNested(r: RoverData)
    ensures SampleOnLeft(r) ==> Events.SampleLocated(r)
    ensures Events.SampleLocated(r) ==> SampleRightClose(r)
    ensures SampleOnLeft(r) || SampleRightClose(r) <==> SampleRightClose(r)
    ensures SampleOnLeft(r) ==> |r.rockAngles| > 0 && |r.rockDists| > 0
  {
  }

  /** completed_mission of this set: at least one sample and at least 95
      percent mapped. */
  predicate CompletedMission(r: RoverData)
  {
    r.samplesCollected >= 1 && r.percMapped >= 95.0
  }

  /** The older mission test is weaker than the live one. */
  lemma MissionTestsNested(r: RoverData)
    ensures Events.CompletedMission(r) ==> CompletedMission(r)
    ensures CompletedMission(r) && !Events.CompletedMission(r) ==> 1 <= r.samplesCollected < 5
  {
  }

  /** reached_home of this set. The source reads Rover.home_distance, a field
      the record does not have; the intended field is distance_from_home. */
  predicate ReachedHome(r: RoverData)
  {
    r.goingHome && r.distanceFromHome < 3.0
  }
}
