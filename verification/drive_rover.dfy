/** The per-message controller of drive_rover.py: telemetry updates the record,
    runs perception and the decision supervisor when the velocity is finite,
    and then sends either a pickup request or a control triple. */
module DriveRover {
  import opened Numerics
  import opened RoverState
  import opened Transitions
  import States
  import Events
  import Decision
  import Perception
  import FsmProperties

  /** What the controller sends back to the simulator. */
  datatype Command = Control(throttle: real, brake: real, steer: Float) | Pickup

  /** The command sent and the record after sending it. */
  datatype Emission = Emission(command: Command, data: RoverData)

  /** The arbitration at the end of telemetry. With an invalid velocity the
      null triple is sent; a requested pickup with no pickup in progress is
      sent instead of the controls and clears the request; otherwise the
      record's throttle, brake and steer are sent. */
  function Emit(velFinite: bool, r: RoverData): Emission
  {
    if !velFinite then Emission(Control(0.0, 0.0, Num(0.0)), r)
    else if r.sendPickup && r.pickingUp == 0 then Emission(Pickup, r.(sendPickup := false))
    else Emission(Control(r.throttle, r.brake, r.steer), r)
  }

  /** At most one message is sent per cycle: a pickup exactly when the
      velocity is valid, a pickup is requested and none is in progress; the
      pickup clears the request and nothing else; a control triple carries
      the record's controls unless the velocity is invalid. */
  lemma EmitArbitration(velFinite: bool, r: RoverData)
    ensures var e := Emit(velFinite, r);
      && (e.command.Pickup? <==> velFinite && r.sendPickup && r.pickingUp == 0)
      && (e.command.Pickup? ==> e.data == r.(sendPickup := false))
      && (e.command.Control? ==> e.data == r)
      && (e.command.Control? && velFinite ==> e.command == Control(r.throttle, r.brake, r.steer))
      && (!velFinite ==> e.command == Control(0.0, 0.0, Num(0.0)))
  {
  }

  /** One simulator message as it reaches the record: the telemetry fields
      update_rover writes, what perception makes of the message's camera
      image, and the cycle's clock reading and home fix. `velFinite` is
      np.isfinite(vel). */
  datatype Frame = Frame(
    velFinite: bool, vel: real, pitch: real, roll: real, posX: real, posY: real,
    samplesCollected: int, nearSample: int, pickingUp: int, percMapped: real,
    vision: Perception.Vision, now: real, home: States.HomeFix)

  /** The record after update_rover's pose fields. */
  function Posed(r: RoverData, f: Frame): RoverData
  {
    r.(vel := f.vel, pitch := f.pitch, roll := f.roll, posX := f.posX, posY := f.posY)
  }

  /** The record after update_rover. */
  function Telemetered(r: RoverData, f: Frame): RoverData
  {
    Posed(r, f).(samplesCollected := f.samplesCollected, nearSample := f.nearSample,
                 pickingUp := f.pickingUp, percMapped := f.percMapped)
  }

  /** The record after perception_step's stores. */
  function Perceived(r: RoverData, f: Frame): (d: RoverData)
    ensures d.navAngles.Some?
    ensures Perception.Coherent(f.vision) ==> LeftAnglesPositive(d)
  {
    Perception.Stored(r, f.vision)
  }

  /** The state, the command and the record after one message. */
  datatype Cycled = Cycled(state: State, command: Command, data: RoverData)

  /** telemetry for one message in supervisor state s. */
  function Tick(s: State, r: RoverData, f: Frame): Cycled
  {
    var r1 := Telemetered(r, f);
    if !f.velFinite then
      var e := Emit(false, r1);
      Cycled(s, e.command, e.data)
    else
      var o := Cycle(TransitionActions, s, Perceived(r1, f), f.now, f.home);
      var e := Emit(true, o.data);
      Cycled(o.state, e.command, e.data)
  }

  /** The supervisor state and the record after a run of messages. */
  function Drive(s: State, r: RoverData, frames: seq<Frame>): Outcome
    decreases |frames|
  {
    if |frames| == 0 then Outcome(s, r)
    else
      var t := Tick(s, r, frames[0]);
      Drive(t.state, t.data, frames[1..])
  }

  /** The pose part of update_rover. */
  method UpdatePose(rover: Rover, f: Frame)
    modifies rover
    ensures rover.Data() == Posed(old(rover.Data()), f)
  {
    rover.vel, rover.pitch, rover.roll := f.vel, f.pitch, f.roll;
    rover.posX, rover.posY := f.posX, f.posY;
  }

  /** update_rover, with the telemetry values given by the message. */
  method UpdateRover(rover: Rover, f: Frame)
    modifies rover
    ensures rover.Data() == Telemetered(old(rover.Data()), f)
  {
    UpdatePose(rover, f);
    rover.samplesCollected, rover.nearSample := f.samplesCollected, f.nearSample;
    rover.pickingUp, rover.percMapped := f.pickingUp, f.percMapped;
  }

  /** The pickup-or-controls choice of a cycle with a valid velocity. */
  method SendCommand(rover: Rover) returns (cmd: Command)
    modifies rover
    ensures var e := Emit(true, old(rover.Data()));
      cmd == e.command && rover.Data() == e.data
  {
    if rover.sendPickup && rover.pickingUp == 0 {
      cmd := Pickup;
      rover.sendPickup := false;
    } else {
      cmd := Control(rover.throttle, rover.brake, rover.steer);
    }
  }

  /** The telemetry handler on the rover and the supervisor, for a message
      whose vision is what perception makes of its warped image and warp
      mask at the message's position. The world map is marked only when the
      velocity is valid and the rover stable. */
  method Telemetry(decider: Decision.DecisionMaker, rover: Rover, f: Frame,
                   img: array2<Perception.Pixel>, mask: array2<int>,
                   rot: Perception.Rotation, polar: Perception.Polar) returns (cmd: Command)
    requires decider.Valid() && rover.Valid()
    requires mask.Length0 == img.Length0 && mask.Length1 == img.Length1
    requires f.vision == Perception.See(Perception.Cells(img), Perception.Cells(mask),
                                        Perception.Point(f.posX, f.posY), rot, polar)
    modifies decider, rover, rover.worldmap
    ensures decider.Valid() && rover.Valid()
    ensures var t := Tick(old(decider.curr), old(rover.Data()), f);
      decider.curr == t.state && rover.Data() == t.data && cmd == t.command
    ensures forall i, j, c :: 0 <= i < WORLD_SIZE && 0 <= j < WORLD_SIZE && 0 <= c < CHANNELS ==>
      rover.worldmap[i, j, c] ==
        Perception.MapAfter(old(rover.worldmap[i, j, c]), f.velFinite && Perception.IsStable(f.pitch, f.roll),
                            f.vision, i, j, c)
  {
    UpdateRover(rover, f);
    assert rover.posX == f.posX && rover.posY == f.posY && rover.pitch == f.pitch && rover.roll == f.roll;
    if f.velFinite {
      cmd := PerceiveDecideSend(decider, rover, f.vision, img, mask, rot, polar, f.now, f.home);
    } else {
      cmd := Control(0.0, 0.0, Num(0.0));
    }
  }

  /** The part of telemetry that runs on a valid velocity: perception, the
      supervisor's cycle and the command choice. */
  method PerceiveDecideSend(decider: Decision.DecisionMaker, rover: Rover, vision: Perception.Vision,
                            img: array2<Perception.Pixel>, mask: array2<int>,
                            rot: Perception.Rotation, polar: Perception.Polar,
                            now: real, home: States.HomeFix) returns (cmd: Command)
    requires decider.Valid() && rover.Valid()
    requires mask.Length0 == img.Length0 && mask.Length1 == img.Length1
    requires vision == Perception.See(Perception.Cells(img), Perception.Cells(mask),
                                      Perception.Point(rover.posX, rover.posY), rot, polar)
    modifies decider, rover, rover.worldmap
    ensures decider.Valid() && rover.Valid()
    ensures var o := Cycle(TransitionActions, old(decider.curr), Perception.Stored(old(rover.Data()), vision), now, home);
      var e := Emit(true, o.data);
      decider.curr == o.state && rover.Data() == e.data && cmd == e.command
    ensures forall i, j, c :: 0 <= i < WORLD_SIZE && 0 <= j < WORLD_SIZE && 0 <= c < CHANNELS ==>
      rover.worldmap[i, j, c] ==
        Perception.MapAfter(old(rover.worldmap[i, j, c]), Perception.IsStable(old(rover.pitch), old(rover.roll)),
                            vision, i, j, c)
  {
    Perception.PerceptionStep(rover, img, mask, rot, polar);
    label perceived:
    cmd := DecideSend(decider, rover, now, home);
    assert forall i, j, c :: 0 <= i < WORLD_SIZE && 0 <= j < WORLD_SIZE && 0 <= c < CHANNELS ==>
      rover.worldmap[i, j, c] == old@perceived(rover.worldmap[i, j, c]);
  }

  /** The decision cycle on a perceived record, then the command sent. */
  method DecideSend(decider: Decision.DecisionMaker, rover: Rover, now: real, home: States.HomeFix)
    returns (cmd: Command)
    requires decider.Valid() && rover.Valid() && rover.navAngles.Some?
    modifies decider, rover
    ensures decider.Valid() && rover.Valid()
    ensures var o := Cycle(TransitionActions, old(decider.curr), old(rover.Data()), now, home);
      var e := Emit(true, o.data);
      decider.curr == o.state && rover.Data() == e.data && cmd == e.command
  {
    var returned := decider.Run(rover, now, home);
    cmd := SendCommand(rover);
  }

  // ---------------------------------------------------------- traces

  /** A message under which the following handler stays put: valid and
      moving velocity, and none of the deviation, left-obstacle, sample and
      mission tests fires on what it brings. */
  predicate QuietFrame(f: Frame)
  {
    f.velFinite && f.vel >= 0.1 &&
    FsmProperties.FollowingQuiet(TransitionActions, Perceived(Telemetered(Initial, f), f))
  }

  /** The tests of the following handler read only what the message brings. */
  lemma QuietOnAnyRecord(r: RoverData, f: Frame)
    requires QuietFrame(f)
    ensures FsmProperties.FollowingQuiet(TransitionActions, Perceived(Telemetered(r, f), f))
  {
    var a := Perceived(Telemetered(r, f), f);
    var b := Perceived(Telemetered(Initial, f), f);
    assert a.navAnglesLeft == b.navAnglesLeft && a.rockAngles == b.rockAngles && a.rockDists == b.rockDists;
    assert a.samplesCollected == b.samplesCollected && a.percMapped == b.percMapped;
    assert a.navAngles == b.navAngles && a.obsAngles == b.obsAngles;
  }

  /** A rover that follows the wall keeps following it, with the stuck timer
      off, for as long as the messages are quiet. */
  lemma {:induction false} QuietFramesKeepFollowing(r: RoverData, frames: seq<Frame>)
    requires forall k :: 0 <= k < |frames| ==> QuietFrame(frames[k])
    ensures Drive(FollowingLeftWall, r, frames).state == FollowingLeftWall
    ensures |frames| > 0 ==> !Drive(FollowingLeftWall, r, frames).data.timerOn
    decreases |frames|
  {
    if |frames| > 0 {
      var f := frames[0];
      QuietOnAnyRecord(r, f);
      var t := Tick(FollowingLeftWall, r, f);
      assert t.state == FollowingLeftWall && !t.data.timerOn;
      QuietFramesKeepFollowing(t.data, frames[1..]);
    }
  }

  /** From TurningToLeftWall, a message that shows at least 500 positive
      navigable angles and is otherwise quiet, followed by quiet messages,
      leaves the rover following the wall. */
  lemma AlignedThenQuietFollows(r: RoverData, frames: seq<Frame>)
    requires |frames| > 0 && forall k :: 0 <= k < |frames| ==> QuietFrame(frames[k])
    requires Perception.Coherent(frames[0].vision) && |frames[0].vision.navAnglesLeft| >= 500
    ensures Drive(TurningToLeftWall, r, frames).state == FollowingLeftWall
  {
    var f := frames[0];
    var d := Perceived(Telemetered(r, f), f);
    Events.PointedAlongWallIsCountTest(d);
    var t := Tick(TurningToLeftWall, r, f);
    assert t.state == FollowingLeftWall;
    QuietFramesKeepFollowing(t.data, frames[1..]);
  }

  /** Once parked, always parked. */
  lemma {:induction false} ParkedStaysParked(r: RoverData, frames: seq<Frame>)
    ensures Drive(ParkingAtHome, r, frames).state == ParkingAtHome
    decreases |frames|
  {
    if |frames| > 0 {
      var t := Tick(ParkingAtHome, r, frames[0]);
      assert t.state == ParkingAtHome;
      ParkedStaysParked(t.data, frames[1..]);
    }
  }

  /** The stuck timer across two messages while going to a sample: the first
      stationary message arms it at that message's clock reading, and a
      second one more than MAX_STUCK_TIME later sends the rover to
      GettingUnstuck with the timer off; a second one within the limit keeps
      the rover where it is with the timer still armed at the first reading. */
  lemma StuckTimerTrace(r: RoverData, f0: Frame, f1: Frame)
    requires !r.timerOn
    requires f0.velFinite && f1.velFinite && f0.vel < 0.1 && f1.vel < 0.1
    requires f0.nearSample == 0 && f1.nearSample == 0
    ensures var t0 := Tick(GoingToSample, r, f0);
      t0.state == GoingToSample && t0.data.timerOn && t0.data.startStuckTime == f0.now
    ensures var t := Drive(GoingToSample, r, [f0, f1]);
      && (f1.now - f0.now > MAX_STUCK_TIME ==> t.state == GettingUnstuck && !t.data.timerOn)
      && (f1.now - f0.now <= MAX_STUCK_TIME ==>
            t.state == GoingToSample && t.data.timerOn && t.data.startStuckTime == f0.now)
  {
    var t0 := Tick(GoingToSample, r, f0);
    var t1 := Tick(t0.state, t0.data, f1);
    assert [f0, f1][1..] == [f1];
    assert Drive(GoingToSample, r, [f0, f1]) == Drive(t0.state, t0.data, [f1]);
    assert Drive(t0.state, t0.data, [f1]) == Outcome(t1.state, t1.data);
  }

  /** A stop at a sample with no pickup in progress sends the pickup request
      in the same cycle, clears it, and turns the rover to AvoidingLeftWall. */
  lemma StoppingSendsPickup(r: RoverData, f: Frame)
    requires f.velFinite && f.pickingUp == 0
    ensures var t := Tick(StoppingAtSample, r, f);
      t.command == Pickup && t.state == AvoidingLeftWall && !t.data.sendPickup
  {
  }

  /** An invalid velocity skips perception and decision: the state and every
      perception output are kept and the null triple is sent. */
  lemma InvalidVelocitySkipsDecision(s: State, r: RoverData, f: Frame)
    requires !f.velFinite
    ensures var t := Tick(s, r, f);
      t.state == s && t.command == Control(0.0, 0.0, Num(0.0)) && t.data == Telemetered(r, f)
  {
  }
}
