/** Properties of the decision supervisor's transition handlers and of the
    actuator dispatch, for every record and every rule set. */
module FsmProperties {
  import opened Numerics
  import opened RoverState
  import opened Transitions
  import Events
  import Handlers
  import States

  /** The state list holds each of the nine states exactly once, so the
      supervisor's current state, always drawn from it, is one of the nine. */
  lemma StateListComplete(s: State)
    ensures s in StateList
    ensures |StateList| == 9
    ensures forall i, j :: 0 <= i < j < |StateList| ==> StateList[i] != StateList[j]
  {
  }

  /** None of the first four tests of the following handler fires. */
  predicate FollowingQuiet(rules: Ruleset, r: RoverData)
  {
    !Deviated(rules, r) && !LeftObstacle(rules, r) && !SampleSeen(rules, r) && !MissionDone(rules, r)
  }

  /** following_left_wall_transitions tests deviation, then a left obstacle,
      then a sample, then the mission, then the stuck timer: each target is
      chosen exactly when its test fires and every earlier one fails. */
  lemma FollowingPriority(rules: Ruleset, r: RoverData, now: real)
    ensures var m := FollowingStep(rules, FollowingLeftWall, r, now);
      var stuck := Stuck(r, now, StuckLimit(rules, FOLLOWING_STUCK_TIME)).exceeded;
      && (m.next == TurningToLeftWall <==> Deviated(rules, r))
      && (m.next == AvoidingLeftWall <==> !Deviated(rules, r) && LeftObstacle(rules, r))
      && (m.next == GoingToSample <==>
            !Deviated(rules, r) && !LeftObstacle(rules, r) && SampleSeen(rules, r))
      && (m.next == ReturningHome <==>
            !Deviated(rules, r) && !LeftObstacle(rules, r) && !SampleSeen(rules, r) && MissionDone(rules, r))
      && (m.next == GettingUnstuck <==> FollowingQuiet(rules, r) && stuck)
      && (m.next == FollowingLeftWall <==> FollowingQuiet(rules, r) && !stuck)
  {
  }

  /** The following handler's flag writes: every move except the one to
      ReturningHome switches the timer off; the mission move sets going_home
      and leaves the timer as it was; send_pickup is never touched. */
  lemma FollowingFlags(rules: Ruleset, r: RoverData, now: real)
    ensures var m := FollowingStep(rules, FollowingLeftWall, r, now);
      && m.flags.sendPickup == r.sendPickup
      && (m.next != FollowingLeftWall && m.next != ReturningHome ==>
            !m.flags.timerOn && m.flags.goingHome == r.goingHome)
      && (m.next == ReturningHome ==> m.flags == FlagsOf(r).(goingHome := true))
      && (m.next == FollowingLeftWall ==> m.flags.goingHome == r.goingHome)
  {
  }

  /** Staying in FollowingLeftWall means the left-obstacle test failed, so at
      least 50 left angles exist and the actuator steers on a defined mean,
      within the steering limits. */
  lemma StayingInFollowingSteersOnTheWall(rules: Ruleset, r: RoverData, now: real, home: States.HomeFix)
    requires r.navAngles.Some?
    ensures var o := Cycle(rules, FollowingLeftWall, r, now, home);
      o.state == FollowingLeftWall ==>
        && |r.navAnglesLeft| >= 50
        && o.data.steer.Num? && MAX_STEER_RIGHT <= o.data.steer.val <= MAX_STEER_LEFT
  {
  }

  /** The turning and avoiding-left handlers go to FollowingLeftWall exactly
      when the alignment test holds, stay otherwise, and write no flag. */
  lemma AlignTransitions(rules: Ruleset, s: State, r: RoverData, now: real)
    requires s == TurningToLeftWall || s == AvoidingLeftWall
    requires r.navAngles.Some?
    ensures var m := Transition(rules, s, r, now);
      && (m.next == FollowingLeftWall <==> Aligned(rules, r))
      && (m.next != FollowingLeftWall ==> m.next == s)
      && m.flags == FlagsOf(r)
  {
  }

  /** With the live predicates and positive left angles, the turning and
      avoiding-left handlers leave for FollowingLeftWall exactly when at least
      500 left angles are navigable. */
  lemma LiveAlignIsCountTest(s: State, r: RoverData, now: real)
    requires s == TurningToLeftWall || s == AvoidingLeftWall
    requires r.navAngles.Some? && LeftAnglesPositive(r)
    ensures Transition(TransitionActions, s, r, now).next == FollowingLeftWall <==> |r.navAnglesLeft| >= 500
  {
    Events.PointedAlongWallIsCountTest(r);
  }

  /** The older alignment test asks for a left mean above 10, so whenever the
      older handlers leave for FollowingLeftWall the live ones would too. */
  lemma LegacyAlignIsStricter(s: State, r: RoverData, now: real)
    requires s == TurningToLeftWall || s == AvoidingLeftWall
    requires r.navAngles.Some?
    ensures Transition(LegacyHandlers, s, r, now).next == FollowingLeftWall ==>
      && |r.navAnglesLeft| >= 500 && Gt(Mean(r.navAnglesLeft), 10.0)
      && Transition(TransitionActions, s, r, now).next == FollowingLeftWall
  {
    Handlers.BiasedPointedMeaning(r);
  }

  /** avoiding_obstacles_transitions: the mission test first, then alignment;
      no flag is written, so the timer is not cleared on either move. */
  lemma AvoidingObstaclesTransitions(rules: Ruleset, r: RoverData, now: real)
    requires r.navAngles.Some?
    ensures var m := Transition(rules, AvoidingObstacles, r, now);
      && (m.next == ReturningHome <==> MissionDone(rules, r))
      && (m.next == FollowingLeftWall <==> !MissionDone(rules, r) && Aligned(rules, r))
      && (m.next == AvoidingObstacles <==> !MissionDone(rules, r) && !Aligned(rules, r))
      && m.flags == FlagsOf(r)
  {
  }

  /** going_to_sample_transitions: a nearby sample stops the rover (timer
      off); otherwise the stuck timer decides between GettingUnstuck (timer
      off) and staying. */
  lemma GoingToSampleTransitions(rules: Ruleset, r: RoverData, now: real)
    requires r.navAngles.Some?
    ensures var m := Transition(rules, GoingToSample, r, now);
      var stuck := Stuck(r, now, StuckLimit(rules, SAMPLE_STUCK_TIME)).exceeded;
      && (m.next == StoppingAtSample <==> r.nearSample != 0)
      && (m.next == GettingUnstuck <==> r.nearSample == 0 && stuck)
      && (m.next == GoingToSample <==> r.nearSample == 0 && !stuck)
      && (m.next != GoingToSample ==> !m.flags.timerOn)
      && m.flags.goingHome == r.goingHome && m.flags.sendPickup == r.sendPickup
  {
  }

  /** stopping_at_sample_transitions requests a pickup on every call and
      moves to AvoidingLeftWall exactly when no pickup is in progress. */
  lemma StoppingRequestsPickup(rules: Ruleset, r: RoverData, now: real)
    requires r.navAngles.Some?
    ensures var m := Transition(rules, StoppingAtSample, r, now);
      && m.flags == FlagsOf(r).(sendPickup := true)
      && (m.next == AvoidingLeftWall <==> r.pickingUp == 0)
      && (m.next != AvoidingLeftWall ==> m.next == StoppingAtSample)
  {
  }

  /** getting_unstuck_transitions: reaching velocity 1.0 or the stuck timer
      firing ends the manoeuvre, towards ReturningHome when the rover is
      going home and FollowingLeftWall otherwise; leaving at speed writes no
      flag, so the stuck timer stays as it was. */
  lemma UnstuckExits(rules: Ruleset, r: RoverData, now: real)
    requires r.navAngles.Some?
    ensures var m := Transition(rules, GettingUnstuck, r, now);
      var leave := r.vel >= 1.0 || Stuck(r, now, StuckLimit(rules, UNSTUCK_STUCK_TIME)).exceeded;
      && (leave ==> m.next == (if r.goingHome then ReturningHome else FollowingLeftWall))
      && (!leave ==> m.next == GettingUnstuck)
      && (r.vel >= 1.0 ==> m.flags == FlagsOf(r))
      && m.flags.goingHome == r.goingHome && m.flags.sendPickup == r.sendPickup
  {
  }

  /** returning_home_transitions: an obstacle ahead first, then arrival, then
      the stuck timer; every move out of ReturningHome switches the timer off. */
  lemma ReturningHomePriority(rules: Ruleset, r: RoverData, now: real)
    requires r.navAngles.Some?
    ensures var m := Transition(rules, ReturningHome, r, now);
      var stuck := Stuck(r, now, StuckLimit(rules, HOMING_STUCK_TIME)).exceeded;
      && (m.next == AvoidingObstacles <==> FrontObstacle(rules, r))
      && (m.next == ParkingAtHome <==> !FrontObstacle(rules, r) && AtHome(rules, r))
      && (m.next == GettingUnstuck <==> !FrontObstacle(rules, r) && !AtHome(rules, r) && stuck)
      && (m.next == ReturningHome <==> !FrontObstacle(rules, r) && !AtHome(rules, r) && !stuck)
      && (m.next != ReturningHome ==> !m.flags.timerOn)
  {
  }

  /** ParkingAtHome is absorbing: every cycle re-selects it, writes no flag,
      and runs the parking actuator. */
  lemma ParkingAbsorbing(rules: Ruleset, r: RoverData, now: real, home: States.HomeFix)
    requires r.navAngles.Some?
    ensures var o := Cycle(rules, ParkingAtHome, r, now, home);
      o.state == ParkingAtHome && o.data == States.WithControls(r, States.ParkingAtHomeLaw(r))
  {
  }

  /** transition_handlers.py differs from transition_actions.py only in the
      sample test of the following handler; that test amounts to
      sample_right_close, which sample_located implies. */
  lemma VariantsDifferOnlyInSampleTest(s: State, r: RoverData, now: real)
    requires r.navAngles.Some?
    ensures s != FollowingLeftWall ==>
      Transition(TransitionActions, s, r, now) == Transition(TransitionHandlers, s, r, now)
    ensures SampleSeen(TransitionHandlers, r) <==> Handlers.SampleRightClose(r)
    ensures SampleSeen(TransitionActions, r) ==> SampleSeen(TransitionHandlers, r)
    ensures Events.SampleLocated(r) == Handlers.SampleRightClose(r) ==>
      Transition(TransitionActions, s, r, now) == Transition(TransitionHandlers, s, r, now)
  {
    Handlers.SampleTestsNested(r);
  }

  /** The older following handler turns towards the wall only when the left
      path is also clear (at least 1500 left angles). */
  lemma LegacyTurnNeedsClearLeft(r: RoverData, now: real)
    ensures FollowingStep(LegacyHandlers, FollowingLeftWall, r, now).next == TurningToLeftWall ==>
      |r.navAnglesLeft| >= 1500 && Events.DeviatedFromLeftWall(r)
  {
  }

  /** The stuck time of each handler that ends in a stuck check, seen
      through its step: with the timer armed on a stationary rover and the
      handler's earlier tests quiet, the rover gives up exactly when more
      than the handler's stuck time has passed. The older handlers use 2 s
      (following), 4 s (going to a sample), 2.3 s (getting unstuck) and
      2.5 s (returning home); the events-based sets use 3 s throughout. */
  lemma HandlerStuckTimes(rules: Ruleset, r: RoverData, now: real)
    requires r.navAngles.Some? && r.vel < 0.1 && r.timerOn
    ensures var elapsed := now - r.startStuckTime;
      var legacy := rules.LegacyHandlers?;
      && (!Deviated(rules, r) && !LeftObstacle(rules, r) && !SampleSeen(rules, r) && !MissionDone(rules, r) ==>
            (FollowingStep(rules, FollowingLeftWall, r, now).next == GettingUnstuck <==>
               elapsed > (if legacy then 2.0 else 3.0)))
      && (r.nearSample == 0 ==>
            (GoingToSampleStep(rules, GoingToSample, r, now).next == GettingUnstuck <==>
               elapsed > (if legacy then 4.0 else 3.0)))
      && (GettingUnstuckStep(rules, GettingUnstuck, r, now).next != GettingUnstuck <==>
            elapsed > (if legacy then 2.3 else 3.0))
      && (!FrontObstacle(rules, r) && !AtHome(rules, r) ==>
            (ReturningHomeStep(rules, ReturningHome, r, now).next == GettingUnstuck <==>
               elapsed > (if legacy then 2.5 else 3.0)))
  {
  }

  /** The stuck times differ between rule sets: with the timer armed on a
      stationary rover, the live going-to-sample handler gives up after 3 s
      and the older one only after 4 s; in GettingUnstuck the older handler
      gives up after 2.3 s, the live one after 3 s. */
  lemma StuckLimitsDiffer(r: RoverData, now: real)
    requires r.navAngles.Some? && r.vel < 0.1 && r.timerOn && r.nearSample == 0
    ensures var elapsed := now - r.startStuckTime;
      && (3.0 < elapsed <= 4.0 ==>
            Transition(TransitionActions, GoingToSample, r, now).next == GettingUnstuck
            && Transition(LegacyHandlers, GoingToSample, r, now).next == GoingToSample)
      && (2.3 < elapsed <= 3.0 ==>
            Transition(LegacyHandlers, GettingUnstuck, r, now).next != GettingUnstuck
            && Transition(TransitionActions, GettingUnstuck, r, now).next == GettingUnstuck)
  {
  }

  // ---------------------------------------------------------- actuation

  /** Every actuator except ReturningHome writes only throttle, brake and
      steer; ReturningHome also writes the home distance and angle. */
  lemma ActuateWritesOnlyControls(s: State, r: RoverData, home: States.HomeFix)
    requires r.navAngles.Some?
    ensures var d := Actuate(s, r, home);
      && (s != ReturningHome ==> d == States.WithControls(r, States.ControlsOf(d)))
      && (s == ReturningHome ==>
            d == States.WithControls(r.(distanceFromHome := home.distance, angleFromHome := home.angle),
                                     States.ControlsOf(d)))
  {
  }

  /** Every actuator keeps the commands within the simulator's bounds and
      leaves the perception outputs alone. */
  lemma ActuateKeepsControlsInRange(s: State, r: RoverData, home: States.HomeFix)
    requires r.navAngles.Some? && ControlsInRange(r)
    ensures ControlsInRange(Actuate(s, r, home))
    ensures Actuate(s, r, home).navAngles == r.navAngles && Actuate(s, r, home).navAnglesLeft == r.navAnglesLeft
  {
    match s
    case FollowingLeftWall =>
    case TurningToLeftWall =>
    case AvoidingLeftWall =>
    case AvoidingObstacles =>
    case GoingToSample =>
    case StoppingAtSample =>
    case GettingUnstuck =>
    case ReturningHome =>
    case ParkingAtHome =>
  }

  /** A decision cycle keeps the record's invariant: commands within bounds
      and positive left angles. */
  lemma CycleKeepsRoverInvariant(rules: Ruleset, s: State, r: RoverData, now: real, home: States.HomeFix)
    requires r.navAngles.Some? && ControlsInRange(r) && LeftAnglesPositive(r)
    ensures var o := Cycle(rules, s, r, now, home);
      ControlsInRange(o.data) && LeftAnglesPositive(o.data) && o.data.navAngles == r.navAngles
  {
    var m := Transition(rules, s, r, now);
    var flagged := WithFlags(r, m.flags);
    assert ControlsInRange(flagged) && flagged.navAnglesLeft == r.navAnglesLeft && flagged.navAngles == r.navAngles;
    ActuateKeepsControlsInRange(m.next, flagged, home);
  }

  /** The steer sent can be NaN: leaving GettingUnstuck at speed for
      FollowingLeftWall with no navigable pixel on the left makes the
      following actuator clip the mean of an empty set. */
  lemma UnstuckCanSteerNaN(r: RoverData, now: real, home: States.HomeFix)
    requires r.navAngles.Some? && r.vel >= 1.0 && !r.goingHome && r.navAnglesLeft == []
    ensures var o := Cycle(TransitionActions, GettingUnstuck, r, now, home);
      o.state == FollowingLeftWall && o.data.steer == NaN
  {
  }
}
