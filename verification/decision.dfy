/** The decision supervisor (DecisionMaker in decision.py) and the transition
    handlers it dispatches to. The handlers are imperative: they test the
    record, write its flags and call switch_to_state. Each is proved to leave
    the supervisor and the record exactly as the specification functions of
    module Transitions say. The rule-set parameter selects the predicates and
    stuck times of transition_actions.py, transition_handlers.py or
    handlers.py; run uses transition_actions.py. */
module Decision {
  import opened Numerics
  import opened RoverState
  import opened Transitions
  import States
  import Events
  import FsmProperties

  class DecisionMaker {
    /** The nine states in their fixed order. */
    const state: seq<State>
    /** The current state. */
    var curr: State

    ghost predicate Valid()
      reads this
    {
      state == StateList && curr in state
    }

    /** The supervisor starts in state[1], TurningToLeftWall. */
    constructor ()
      ensures Valid()
      ensures curr == state[1] == TurningToLeftWall
    {
      state := StateList;
      curr := StateList[1];
    }

    /** Store the new state, then run its actuator on the rover. */
    method SwitchToState(rover: Rover, name: State, home: States.HomeFix)
      requires Valid() && name in state
      requires rover.navAngles.Some?
      modifies this, rover
      ensures Valid() && curr == name
      ensures rover.Data() == Actuate(name, old(rover.Data()), home)
    {
      curr := name;
      match name
      case FollowingLeftWall => States.FollowingLeftWall(rover);
      case TurningToLeftWall => States.TurningToLeftWall(rover);
      case AvoidingLeftWall => States.AvoidingLeftWall(rover);
      case AvoidingObstacles => States.AvoidingObstacles(rover);
      case GoingToSample => States.GoingToSample(rover);
      case StoppingAtSample => States.StoppingAtSample(rover);
      case GettingUnstuck => States.GettingUnstuck(rover);
      case ReturningHome => States.ReturningHome(rover, home);
      case ParkingAtHome => States.ParkingAtHome(rover);
    }

    /** One decision cycle: nothing happens before the first perception step;
        otherwise the handler of the current state runs. The rover given is
        returned. */
    method Run(rover: Rover, now: real, home: States.HomeFix) returns (out: Rover)
      requires Valid() && rover.Valid()
      modifies this, rover
      ensures Valid() && rover.Valid() && out == rover
      ensures old(rover.navAngles).None? ==> curr == old(curr) && rover.Data() == old(rover.Data())
      ensures old(rover.navAngles).Some? ==>
        var o := Cycle(TransitionActions, old(curr), old(rover.Data()), now, home);
        curr == o.state && rover.Data() == o.data
    {
      if rover.navAngles.Some? {
        FsmProperties.CycleKeepsRoverInvariant(TransitionActions, curr, rover.Data(), now, home);
        var rules := TransitionActions;
        match curr
        case FollowingLeftWall => FollowingLeftWallTransitions(rules, this, rover, now, home);
        case TurningToLeftWall => TurningToLeftWallTransitions(rules, this, rover, now, home);
        case AvoidingLeftWall => AvoidingLeftWallTransitions(rules, this, rover, now, home);
        case AvoidingObstacles => AvoidingObstaclesTransitions(rules, this, rover, now, home);
        case GoingToSample => GoingToSampleTransitions(rules, this, rover, now, home);
        case StoppingAtSample => StoppingAtSampleTransitions(rules, this, rover, now, home);
        case GettingUnstuck => GettingUnstuckTransitions(rules, this, rover, now, home);
        case ReturningHome => ReturningHomeTransitions(rules, this, rover, now, home);
        case ParkingAtHome => ParkingAtHomeTransitions(rules, this, rover, now, home);
      }
      out := rover;
    }
  }

  /** The record after the handler's flags and the chosen actuator. */
  function Applied(m: Move, r: RoverData, home: States.HomeFix): RoverData
    requires r.navAngles.Some?
  {
    Actuate(m.next, WithFlags(r, m.flags), home)
  }

  /** Switch the stuck timer off, then switch to the given state. */
  method SwitchClearingTimer(decider: DecisionMaker, rover: Rover, name: State, home: States.HomeFix)
    requires decider.Valid() && name in decider.state && rover.navAngles.Some?
    modifies decider, rover
    ensures decider.Valid() && decider.curr == name
    ensures rover.Data() == Actuate(name, WithFlags(old(rover.Data()), TimerOff(old(rover.Data()))), home)
  {
    ghost var r0 := rover.Data();
    rover.timerOn := false;
    assert rover.Data() == WithFlags(r0, TimerOff(r0));
    decider.SwitchToState(rover, name, home);
  }

  /** Set going_home, then switch to the given state. */
  method SwitchGoingHome(decider: DecisionMaker, rover: Rover, name: State, home: States.HomeFix)
    requires decider.Valid() && name in decider.state && rover.navAngles.Some?
    modifies decider, rover
    ensures decider.Valid() && decider.curr == name
    ensures rover.Data() ==
      Actuate(name, WithFlags(old(rover.Data()), FlagsOf(old(rover.Data())).(goingHome := true)), home)
  {
    ghost var r0 := rover.Data();
    rover.goingHome := true;
    assert rover.Data() == WithFlags(r0, FlagsOf(r0).(goingHome := true));
    decider.SwitchToState(rover, name, home);
  }

  /** The stuck test that ends three handlers, with its two outcomes. */
  method StuckOrStay(decider: DecisionMaker, rover: Rover, now: real, limit: real, home: States.HomeFix)
    requires decider.Valid() && rover.navAngles.Some?
    modifies decider, rover
    ensures decider.Valid()
    ensures var m := StuckStep(old(decider.curr), old(rover.Data()), now, limit);
      decider.curr == m.next && rover.Data() == Applied(m, old(rover.Data()), home)
  {
    ghost var r0 := rover.Data();
    ghost var s := Stuck(r0, now, limit);
    var stuck := Events.IsStuck(rover, now, limit);
    if stuck {
      rover.timerOn := false;
      assert rover.Data() == WithFlags(r0, AfterStuck(r0, s).(timerOn := false));
      decider.SwitchToState(rover, decider.state[6], home);
    } else {
      assert rover.Data() == WithFlags(r0, AfterStuck(r0, s));
      decider.SwitchToState(rover, decider.curr, home);
    }
  }

  /** following_left_wall_transitions; following_wall in handlers.py. */
  method FollowingLeftWallTransitions(rules: Ruleset, decider: DecisionMaker, rover: Rover, now: real, home: States.HomeFix)
    requires decider.Valid() && rover.navAngles.Some?
    modifies decider, rover
    ensures decider.Valid()
    ensures var m := FollowingStep(rules, old(decider.curr), old(rover.Data()), now);
      decider.curr == m.next && rover.Data() == Applied(m, old(rover.Data()), home)
  {
    var r := rover.Data();
    if Deviated(rules, r) {
      SwitchClearingTimer(decider, rover, decider.state[1], home);
    } else if LeftObstacle(rules, r) {
      SwitchClearingTimer(decider, rover, decider.state[2], home);
    } else if SampleSeen(rules, r) {
      SwitchClearingTimer(decider, rover, decider.state[4], home);
    } else if MissionDone(rules, r) {
      SwitchGoingHome(decider, rover, decider.state[7], home);
    } else {
      StuckOrStay(decider, rover, now, StuckLimit(rules, FOLLOWING_STUCK_TIME), home);
    }
  }

  /** turning_to_left_wall_transitions; turning_to_wall in handlers.py. */
  method TurningToLeftWallTransitions(rules: Ruleset, decider: DecisionMaker, rover: Rover, now: real, home: States.HomeFix)
    requires decider.Valid() && rover.navAngles.Some?
    modifies decider, rover
    ensures decider.Valid()
    ensures var m := AlignStep(rules, old(decider.curr), old(rover.Data()));
      decider.curr == m.next && rover.Data() == Applied(m, old(rover.Data()), home)
  {
    if Aligned(rules, rover.Data()) {
      decider.SwitchToState(rover, decider.state[0], home);
    } else {
      decider.SwitchToState(rover, decider.curr, home);
    }
  }

  /** avoiding_left_wall_transitions; avoiding_wall in handlers.py. */
  method AvoidingLeftWallTransitions(rules: Ruleset, decider: DecisionMaker, rover: Rover, now: real, home: States.HomeFix)
    requires decider.Valid() && rover.navAngles.Some?
    modifies decider, rover
    ensures decider.Valid()
    ensures var m := AlignStep(rules, old(decider.curr), old(rover.Data()));
      decider.curr == m.next && rover.Data() == Applied(m, old(rover.Data()), home)
  {
    if Aligned(rules, rover.Data()) {
      decider.SwitchToState(rover, decider.state[0], home);
    } else {
      decider.SwitchToState(rover, decider.curr, home);
    }
  }

  /** avoiding_obstacles_transitions; avoiding_obstacles in handlers.py. */
  method AvoidingObstaclesTransitions(rules: Ruleset, decider: DecisionMaker, rover: Rover, now: real, home: States.HomeFix)
    requires decider.Valid() && rover.navAngles.Some?
    modifies decider, rover
    ensures decider.Valid()
    ensures var m := AvoidingObstaclesStep(rules, old(decider.curr), old(rover.Data()));
      decider.curr == m.next && rover.Data() == Applied(m, old(rover.Data()), home)
  {
    if MissionDone(rules, rover.Data()) {
      decider.SwitchToState(rover, decider.state[7], home);
    } else if Aligned(rules, rover.Data()) {
      decider.SwitchToState(rover, decider.state[0], home);
    } else {
      decider.SwitchToState(rover, decider.curr, home);
    }
  }

  /** going_to_sample_transitions; going_to_sample in handlers.py. */
  method GoingToSampleTransitions(rules: Ruleset, decider: DecisionMaker, rover: Rover, now: real, home: States.HomeFix)
    requires decider.Valid() && rover.navAngles.Some?
    modifies decider, rover
    ensures decider.Valid()
    ensures var m := GoingToSampleStep(rules, old(decider.curr), old(rover.Data()), now);
      decider.curr == m.next && rover.Data() == Applied(m, old(rover.Data()), home)
  {
    if rover.nearSample != 0 {
      SwitchClearingTimer(decider, rover, decider.state[5], home);
    } else {
      StuckOrStay(decider, rover, now, StuckLimit(rules, SAMPLE_STUCK_TIME), home);
    }
  }

  /** stopping_at_sample_transitions; stopped_at_sample in handlers.py. */
  method StoppingAtSampleTransitions(rules: Ruleset, decider: DecisionMaker, rover: Rover, now: real, home: States.HomeFix)
    requires decider.Valid() && rover.navAngles.Some?
    modifies decider, rover
    ensures decider.Valid()
    ensures var m := StoppingStep(old(decider.curr), old(rover.Data()));
      decider.curr == m.next && rover.Data() == Applied(m, old(rover.Data()), home)
  {
    rover.sendPickup := true;
    if rover.pickingUp == 0 {
      decider.SwitchToState(rover, decider.state[2], home);
    } else {
      decider.SwitchToState(rover, decider.curr, home);
    }
  }

  /** Leave GettingUnstuck: towards ReturningHome when going home, else
      FollowingLeftWall. */
  method SwitchToExit(decider: DecisionMaker, rover: Rover, home: States.HomeFix)
    requires decider.Valid() && rover.navAngles.Some?
    modifies decider, rover
    ensures decider.Valid() && decider.curr == ExitUnstuck(old(rover.Data()))
    ensures rover.Data() == Actuate(ExitUnstuck(old(rover.Data())), old(rover.Data()), home)
  {
    if rover.goingHome {
      decider.SwitchToState(rover, decider.state[7], home);
    } else {
      decider.SwitchToState(rover, decider.state[0], home);
    }
  }

  /** The stuck test of getting_unstuck_transitions, with its two outcomes. */
  method UnstuckTimerOrStay(decider: DecisionMaker, rover: Rover, now: real, limit: real, home: States.HomeFix)
    requires decider.Valid() && rover.navAngles.Some?
    modifies decider, rover
    ensures decider.Valid()
    ensures var r := old(rover.Data());
      var s := Stuck(r, now, limit);
      var m := if s.exceeded then Move(ExitUnstuck(r), AfterStuck(r, s).(timerOn := false))
               else Move(old(decider.curr), AfterStuck(r, s));
      decider.curr == m.next && rover.Data() == Applied(m, r, home)
  {
    ghost var r0 := rover.Data();
    ghost var s := Stuck(r0, now, limit);
    var stuck := Events.IsStuck(rover, now, limit);
    if stuck {
      rover.timerOn := false;
      assert rover.Data() == WithFlags(r0, AfterStuck(r0, s).(timerOn := false));
      SwitchToExit(decider, rover, home);
    } else {
      assert rover.Data() == WithFlags(r0, AfterStuck(r0, s));
      decider.SwitchToState(rover, decider.curr, home);
    }
  }

  /** getting_unstuck_transitions; getting_unstuck in handlers.py. */
  method GettingUnstuckTransitions(rules: Ruleset, decider: DecisionMaker, rover: Rover, now: real, home: States.HomeFix)
    requires decider.Valid() && rover.navAngles.Some?
    modifies decider, rover
    ensures decider.Valid()
    ensures var m := GettingUnstuckStep(rules, old(decider.curr), old(rover.Data()), now);
      decider.curr == m.next && rover.Data() == Applied(m, old(rover.Data()), home)
  {
    ghost var r0 := rover.Data();
    if rover.vel >= 1.0 {
      assert WithFlags(r0, FlagsOf(r0)) == r0;
      SwitchToExit(decider, rover, home);
    } else {
      UnstuckTimerOrStay(decider, rover, now, StuckLimit(rules, UNSTUCK_STUCK_TIME), home);
    }
  }

  /** returning_home_transitions; returning_home in handlers.py. */
  method ReturningHomeTransitions(rules: Ruleset, decider: DecisionMaker, rover: Rover, now: real, home: States.HomeFix)
    requires decider.Valid() && rover.navAngles.Some?
    modifies decider, rover
    ensures decider.Valid()
    ensures var m := ReturningHomeStep(rules, old(decider.curr), old(rover.Data()), now);
      decider.curr == m.next && rover.Data() == Applied(m, old(rover.Data()), home)
  {
    var r := rover.Data();
    if FrontObstacle(rules, r) {
      SwitchClearingTimer(decider, rover, decider.state[3], home);
    } else if AtHome(rules, r) {
      SwitchClearingTimer(decider, rover, decider.state[8], home);
    } else {
      StuckOrStay(decider, rover, now, StuckLimit(rules, HOMING_STUCK_TIME), home);
    }
  }

  /** parking_at_home_transitions; parking in handlers.py. */
  method ParkingAtHomeTransitions(rules: Ruleset, decider: DecisionMaker, rover: Rover, now: real, home: States.HomeFix)
    requires decider.Valid() && rover.navAngles.Some?
    modifies decider, rover
    ensures decider.Valid()
    ensures var m := ParkingStep(old(rover.Data()));
      decider.curr == m.next && rover.Data() == Applied(m, old(rover.Data()), home)
  {
    decider.SwitchToState(rover, decider.state[8], home);
  }
}
