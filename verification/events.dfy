/** The event predicates the live transition handlers test (events.py), and
    the wall-clock stuck timer. The default thresholds of the source's keyword
    arguments are the constants used here; no caller overrides them. */
module Events {
  import opened Numerics
  import opened RoverState

  /** Outcome of one stuck-timer evaluation: the verdict and the timer's new
      fields. */
  datatype StuckResult = StuckResult(exceeded: bool, timerOn: bool, start: real)

  /** is_stuck, with the clock reading `now` passed in. A frame with velocity
      below 0.1 arms the timer if it is off and otherwise compares the elapsed
      time with `limit`; a faster frame disarms it. */
  function StuckCheck(vel: real, timerOn: bool, start: real, now: real, limit: real): (s: StuckResult)
    ensures vel >= 0.1 ==> s == StuckResult(false, false, start)
    ensures vel < 0.1 && !timerOn ==> s == StuckResult(false, true, now)
    ensures vel < 0.1 && timerOn ==> s == StuckResult(now - start > limit, true, start)
  {
    if vel < 0.1 then
      if !timerOn then StuckResult(false, true, now)
      else StuckResult(now - start > limit, true, start)
    else StuckResult(false, false, start)
  }

  /** The stuck verdict can only be true on a slow frame with the timer
      already armed, and then the start time is kept. */
  lemma StuckOnlyWhenArmed(vel: real, timerOn: bool, start: real, now: real, limit: real)
    ensures StuckCheck(vel, timerOn, start, now, limit).exceeded ==>
      vel < 0.1 && timerOn && now - start > limit &&
      StuckCheck(vel, timerOn, start, now, limit).start == start
  {
  }

  /** is_stuck on the record (limit = MAX_STUCK_TIME for the live handlers). */
  method IsStuck(rover: Rover, now: real, limit: real) returns (exceeded: bool)
    modifies rover
    ensures var s := StuckCheck(old(rover.vel), old(rover.timerOn), old(rover.startStuckTime), now, limit);
      && exceeded == s.exceeded
      && rover.Data() == old(rover.Data()).(timerOn := s.timerOn, startStuckTime := s.start)
  {
    exceeded := false;
    if rover.vel < 0.1 {
      if !rover.timerOn {
        rover.startStuckTime := now;
        rover.timerOn := true;
      } else {
        var endtime := now;
        exceeded := (endtime - rover.startStuckTime) > limit;
      }
    } else {
      rover.timerOn := false;
    }
  }

  /** pointed_along_wall: at least 500 left angles and their mean above -10. */
  predicate PointedAlongWall(r: RoverData)
    ensures PointedAlongWall(r) <==>
      |r.navAnglesLeft| >= 500 && Sum(r.navAnglesLeft) / (|r.navAnglesLeft| as real) > -10.0
  {
    |r.navAnglesLeft| >= 500 && Gt(Mean(r.navAnglesLeft), -10.0)
  }

  /** Because every left angle is positive, pointed_along_wall is only the
      count test. */
  lemma PointedAlongWallIsCountTest(r: RoverData)
    requires LeftAnglesPositive(r)
    ensures PointedAlongWall(r) <==> |r.navAnglesLeft| >= 500
  {
    if |r.navAnglesLeft| >= 500 {
      MeanPositive(r.navAnglesLeft);
    }
  }

  /** deviated_from_left_wall: the mean left angle is above 25 (false when
      there are no left angles). */
  predicate DeviatedFromLeftWall(r: RoverData)
    ensures DeviatedFromLeftWall(r) <==>
      |r.navAnglesLeft| > 0 && Sum(r.navAnglesLeft) / (|r.navAnglesLeft| as real) > 25.0
  {
    Gt(Mean(r.navAnglesLeft), 25.0)
  }

  /** obstacle_at_front: fewer than 600 navigable angles. */
  predicate ObstacleAtFront(r: RoverData)
    requires r.navAngles.Some?
  {
    |r.navAngles.value| < 600
  }

  /** obstacle_on_left: fewer than 50 left angles. */
  predicate ObstacleOnLeft(r: RoverData)
  {
    |r.navAnglesLeft| < 50
  }

  /** sample_located: (mean rock angle >= 0 or > -17) and mean rock distance
      below 71; false when either set is empty. */
  predicate SampleLocated(r: RoverData)
  {
    var rockAngle := Mean(r.rockAngles);
    var rockDistance := Mean(r.rockDists);
    (Ge(rockAngle, 0.0) || Gt(rockAngle, -17.0)) && Lt(rockDistance, 71.0)
  }

  /** The first disjunct of sample_located is subsumed by the second. */
  lemma SampleLocatedMeaning(r: RoverData)
    ensures SampleLocated(r) <==>
      && |r.rockAngles| > 0 && |r.rockDists| > 0
      && Sum(r.rockAngles) / (|r.rockAngles| as real) > -17.0
      && Sum(r.rockDists) / (|r.rockDists| as real) < 71.0
  {
  }

  /** completed_mission: at least 5 samples and at least 95 percent mapped. */
  predicate CompletedMission(r: RoverData)
  {
    r.samplesCollected >= 5 && r.percMapped >= 95.0
  }

  /** reached_home: going home and closer than 3 to the home beacon. */
  predicate ReachedHome(r: RoverData)
  {
    r.goingHome && r.distanceFromHome < 3.0
  }

  /** Passing the left-obstacle test guarantees the left mean is a number,
      and a wall-following rover that is pointed along the wall has not
      lost the wall on its left. */
  lemma LeftTestsDefineMean(r: RoverData)
    ensures !ObstacleOnLeft(r) ==> Mean(r.navAnglesLeft).Num?
    ensures PointedAlongWall(r) ==> !ObstacleOnLeft(r)
  {
  }
}
