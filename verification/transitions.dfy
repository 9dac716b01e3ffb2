/** The finite-state machine of the decision supervisor as specification
    functions: the nine states, the three rule sets of the repository
    (transition_actions.py, which the supervisor runs; transition_handlers.py;
    and the older handlers.py), the nine transition handlers as functions from
    the record to the chosen state and the record after the handler's flag
    updates, and the actuator dispatch that switch_to_state performs. */
module Transitions {
  import opened Numerics
  import opened RoverState
  import Events
  import Handlers
  import States

  /** The nine states, in the order of DecisionMaker.state. */
  datatype State =
    | FollowingLeftWall
    | TurningToLeftWall
    | AvoidingLeftWall
    | AvoidingObstacles
    | GoingToSample
    | StoppingAtSample
    | GettingUnstuck
    | ReturningHome
    | ParkingAtHome

  /** DecisionMaker.state: state[i] is the i-th state above. */
  const StateList: seq<State> := [
    FollowingLeftWall, TurningToLeftWall, AvoidingLeftWall, AvoidingObstacles,
    GoingToSample, StoppingAtSample, GettingUnstuck, ReturningHome, ParkingAtHome]

  /** Which of the repository's three handler sets decides the transitions. */
  datatype Ruleset =
    | TransitionActions   // transition_actions.py, the set the supervisor runs
    | TransitionHandlers  // transition_handlers.py
    | LegacyHandlers      // handlers.py

  /** The four fields of the record a handler writes. */
  datatype Flags = Flags(timerOn: bool, startStuckTime: real, goingHome: bool, sendPickup: bool)

  function FlagsOf(r: RoverData): Flags
  {
    Flags(r.timerOn, r.startStuckTime, r.goingHome, r.sendPickup)
  }

  function WithFlags(r: RoverData, f: Flags): RoverData
  {
    r.(timerOn := f.timerOn, startStuckTime := f.startStuckTime,
       goingHome := f.goingHome, sendPickup := f.sendPickup)
  }

  /** The state a handler chose and the handler's flag values (the actuator
      of the chosen state has not run yet). */
  datatype Move = Move(next: State, flags: Flags)

  /** The state and the record at the end of a decision cycle. */
  datatype Outcome = Outcome(state: State, data: RoverData)

  // ------------------------------------------------------------ triggers

  /** The test that sends FollowingLeftWall to TurningToLeftWall. */
  predicate Deviated(rules: Ruleset, r: RoverData)
  {
    if rules.LegacyHandlers? then Handlers.DeviatedFromWall(r) && Handlers.LeftPathClear(r)
    else Events.DeviatedFromLeftWall(r)
  }

  /** The test that sends FollowingLeftWall to AvoidingLeftWall. */
  predicate LeftObstacle(rules: Ruleset, r: RoverData)
  {
    if rules.LegacyHandlers? then Handlers.AtLeftObstacle(r) else Events.ObstacleOnLeft(r)
  }

  /** The test that sends FollowingLeftWall to GoingToSample. The variant set
      calls sample_on_left and sample_on_right_close, which events.py does not
      define; their definitions in handlers.py are used. */
  predicate SampleSeen(rules: Ruleset, r: RoverData)
  {
    if rules.TransitionActions? then Events.SampleLocated(r)
    else Handlers.SampleOnLeft(r) || Handlers.SampleRightClose(r)
  }

  /** The mission test. */
  predicate MissionDone(rules: Ruleset, r: RoverData)
  {
    if rules.LegacyHandlers? then Handlers.CompletedMission(r) else Events.CompletedMission(r)
  }

  /** The test that returns the turning and avoiding states to FollowingLeftWall. */
  predicate Aligned(rules: Ruleset, r: RoverData)
  {
    if rules.LegacyHandlers? then Handlers.PointedAlongWall(r) else Events.PointedAlongWall(r)
  }

  /** The test that sends ReturningHome to AvoidingObstacles. */
  predicate FrontObstacle(rules: Ruleset, r: RoverData)
    requires r.navAngles.Some?
  {
    if rules.LegacyHandlers? then Handlers.AtFrontObstacle(r) else Events.ObstacleAtFront(r)
  }

  /** The test that sends ReturningHome to ParkingAtHome. */
  predicate AtHome(rules: Ruleset, r: RoverData)
  {
    if rules.LegacyHandlers? then Handlers.ReachedHome(r) else Events.ReachedHome(r)
  }

  /** The stuck times the older handlers pass to their stuck check. */
  const FOLLOWING_STUCK_TIME: real := 2.0
  const SAMPLE_STUCK_TIME: real := 4.0
  const UNSTUCK_STUCK_TIME: real := 2.3
  const HOMING_STUCK_TIME: real := 2.5

  /** The stuck limit a handler uses: MAX_STUCK_TIME for the events-based sets,
      the handler's own stuck time for the older set. */
  function StuckLimit(rules: Ruleset, legacy: real): real
  {
    if rules.LegacyHandlers? then legacy else MAX_STUCK_TIME
  }

  /** The stuck check on the record. */
  function Stuck(r: RoverData, now: real, limit: real): Events.StuckResult
  {
    Events.StuckCheck(r.vel, r.timerOn, r.startStuckTime, now, limit)
  }

  /** The flags after the stuck check wrote its timer fields. */
  function AfterStuck(r: RoverData, s: Events.StuckResult): Flags
  {
    FlagsOf(r).(timerOn := s.timerOn, startStuckTime := s.start)
  }

  /** The flags with the stuck timer switched off. */
  function TimerOff(r: RoverData): Flags
  {
    FlagsOf(r).(timerOn := false)
  }

  // ---------------------------------------------------------- the handlers
  // `stay` is the supervisor's current state, which a handler re-selects
  // when none of its tests fires.

  /** The last test of the following, going-to-sample and returning-home
      handlers: when the stuck check fires, the timer is switched off and the
      rover goes to GettingUnstuck; otherwise it stays, with the timer fields
      the check wrote. */
  function StuckStep(stay: State, r: RoverData, now: real, limit: real): Move
  {
    var s := Stuck(r, now, limit);
    if s.exceeded then Move(GettingUnstuck, AfterStuck(r, s).(timerOn := false))
    else Move(stay, AfterStuck(r, s))
  }

  function FollowingStep(rules: Ruleset, stay: State, r: RoverData, now: real): Move
  {
    if Deviated(rules, r) then Move(TurningToLeftWall, TimerOff(r))
    else if LeftObstacle(rules, r) then Move(AvoidingLeftWall, TimerOff(r))
    else if SampleSeen(rules, r) then Move(GoingToSample, TimerOff(r))
    else if MissionDone(rules, r) then Move(ReturningHome, FlagsOf(r).(goingHome := true))
    else StuckStep(stay, r, now, StuckLimit(rules, FOLLOWING_STUCK_TIME))
  }

  /** Shared by TurningToLeftWall and AvoidingLeftWall. */
  function AlignStep(rules: Ruleset, stay: State, r: RoverData): Move
  {
    if Aligned(rules, r) then Move(FollowingLeftWall, FlagsOf(r)) else Move(stay, FlagsOf(r))
  }

  function AvoidingObstaclesStep(rules: Ruleset, stay: State, r: RoverData): Move
  {
    if MissionDone(rules, r) then Move(ReturningHome, FlagsOf(r))
    else if Aligned(rules, r) then Move(FollowingLeftWall, FlagsOf(r))
    else Move(stay, FlagsOf(r))
  }

  function GoingToSampleStep(rules: Ruleset, stay: State, r: RoverData, now: real): Move
  {
    if r.nearSample != 0 then Move(StoppingAtSample, TimerOff(r))
    else StuckStep(stay, r, now, StuckLimit(rules, SAMPLE_STUCK_TIME))
  }

  /** Where GettingUnstuck exits to. */
  function ExitUnstuck(r: RoverData): State
  {
    if r.goingHome then ReturningHome else FollowingLeftWall
  }

  function GettingUnstuckStep(rules: Ruleset, stay: State, r: RoverData, now: real): Move
  {
    if r.vel >= 1.0 then Move(ExitUnstuck(r), FlagsOf(r))
    else
      var s := Stuck(r, now, StuckLimit(rules, UNSTUCK_STUCK_TIME));
      if s.exceeded then Move(ExitUnstuck(r), AfterStuck(r, s).(timerOn := false))
      else Move(stay, AfterStuck(r, s))
  }

  function StoppingStep(stay: State, r: RoverData): Move
  {
    var f := FlagsOf(r).(sendPickup := true);
    if r.pickingUp == 0 then Move(AvoidingLeftWall, f) else Move(stay, f)
  }

  function ReturningHomeStep(rules: Ruleset, stay: State, r: RoverData, now: real): Move
    requires r.navAngles.Some?
  {
    if FrontObstacle(rules, r) then Move(AvoidingObstacles, TimerOff(r))
    else if AtHome(rules, r) then Move(ParkingAtHome, TimerOff(r))
    else StuckStep(stay, r, now, StuckLimit(rules, HOMING_STUCK_TIME))
  }

  function ParkingStep(r: RoverData): Move
  {
    Move(ParkingAtHome, FlagsOf(r))
  }

  /** The handler run selects for the current state s, applied with s as the
      state to stay in. */
  function Transition(rules: Ruleset, s: State, r: RoverData, now: real): Move
    requires r.navAngles.Some?
  {
    match s
    case FollowingLeftWall => FollowingStep(rules, s, r, now)
    case TurningToLeftWall => AlignStep(rules, s, r)
    case AvoidingLeftWall => AlignStep(rules, s, r)
    case AvoidingObstacles => AvoidingObstaclesStep(rules, s, r)
    case GoingToSample => GoingToSampleStep(rules, s, r, now)
    case StoppingAtSample => StoppingStep(s, r)
    case GettingUnstuck => GettingUnstuckStep(rules, s, r, now)
    case ReturningHome => ReturningHomeStep(rules, s, r, now)
    case ParkingAtHome => ParkingStep(r)
  }

  // ------------------------------------------------------------ actuation

  /** The record after the actuator of state s ran on r. */
  function Actuate(s: State, r: RoverData, home: States.HomeFix): RoverData
    requires r.navAngles.Some?
  {
    match s
    case FollowingLeftWall => States.WithControls(r, States.FollowingLeftWallLaw(r))
    case TurningToLeftWall => States.WithControls(r, States.TurningToLeftWallLaw(r))
    case AvoidingLeftWall => States.WithControls(r, States.AvoidingLeftWallLaw(r))
    case AvoidingObstacles => States.WithControls(r, States.AvoidingObstaclesLaw(r))
    case GoingToSample => States.WithControls(r, States.GoingToSampleLaw(r))
    case StoppingAtSample => States.WithControls(r, States.StoppingAtSampleLaw(r))
    case GettingUnstuck => States.WithControls(r, States.GettingUnstuckLaw(r))
    case ReturningHome => States.ReturningHomeLaw(r, home)
    case ParkingAtHome => States.WithControls(r, States.ParkingAtHomeLaw(r))
  }

  /** One decision cycle of run in state s: the handler chooses the next
      state and writes its flags, then switch_to_state runs the chosen state's
      actuator on that record. */
  function Cycle(rules: Ruleset, s: State, r: RoverData, now: real, home: States.HomeFix): Outcome
    requires r.navAngles.Some?
  {
    var m := Transition(rules, s, r, now);
    Outcome(m.next, Actuate(m.next, WithFlags(r, m.flags), home))
  }
}
