/** The rover's single mutable record (RoverState in drive_rover.py): telemetry,
    perception outputs, control outputs, mission counters and the
    decision-process bookkeeping, together with the constants it carries. */
module RoverState {
  import opened Numerics

  // Constants of the record (instance attributes that are never reassigned).
  const MAX_VEL: real := 2.0
  const MIN_VEL: real := 0.2
  const MAX_STEER_RIGHT: real := -15.0
  const MAX_STEER_LEFT: real := 15.0
  const MAX_BRAKE: real := 10.0
  const MIN_ANGLE_LEFT: real := 20.0
  const MIN_ANGLE_RIGHT: real := -20.0
  const MAX_STUCK_TIME: real := 3.0

  /** Side of the square world map, in cells. */
  const WORLD_SIZE: nat := 200
  /** Channels of the world map: obstacle (red), rock (green), navigable (blue). */
  const CHANNELS: nat := 3

  /** The value of every field of the record that the core reads or writes
      (the world map, an array, lives beside it in the class). */
  datatype RoverData = RoverData(
    posX: real, posY: real,
    pitch: real, roll: real,
    vel: real,
    throttle: real, brake: real, steer: Float,
    startStuckTime: real,
    navDists: seq<real>, navAngles: Option<seq<real>>, navAnglesLeft: seq<real>,
    obsDists: seq<real>, obsAngles: seq<real>,
    rockDists: seq<real>, rockAngles: seq<real>,
    samplesCollected: int, nearSample: int, pickingUp: int, sendPickup: bool,
    xNav: seq<real>, yNav: seq<real>,
    distanceFromHome: real, angleFromHome: real,
    goingHome: bool, timerOn: bool,
    percMapped: real)

  /** The commands the simulator accepts are within these bounds: throttle in
      [0, 0.8], brake in [0, MAX_BRAKE], and a numeric steer within the
      steering limits (a NaN steer is possible and is not excluded here). */
  predicate ControlsInRange(r: RoverData)
  {
    && 0.0 <= r.throttle <= 0.8
    && 0.0 <= r.brake <= MAX_BRAKE
    && (r.steer.Num? ==> MAX_STEER_RIGHT <= r.steer.val <= MAX_STEER_LEFT)
  }

  /** Every angle of the left subset is strictly positive. */
  predicate LeftAnglesPositive(r: RoverData)
  {
    AllAbove(r.navAnglesLeft, 0.0)
  }

  /** The record as RoverState.__init__ leaves it. */
  const Initial: RoverData := RoverData(
    0.0, 0.0,
    0.0, 0.0,
    0.0,
    0.0, 0.0, Num(0.0),
    0.0,
    [], None, [],
    [], [],
    [], [],
    0, 0, 0, false,
    [0.0], [0.0],
    0.0, 0.0,
    false, false,
    0.0)

  class Rover {
    var posX: real
    var posY: real
    var pitch: real
    var roll: real
    var vel: real
    var throttle: real
    var brake: real
    var steer: Float
    var startStuckTime: real
    var navDists: seq<real>
    var navAngles: Option<seq<real>>
    var navAnglesLeft: seq<real>
    var obsDists: seq<real>
    var obsAngles: seq<real>
    var rockDists: seq<real>
    var rockAngles: seq<real>
    var samplesCollected: int
    var nearSample: int
    var pickingUp: int
    var sendPickup: bool
    var xNav: seq<real>
    var yNav: seq<real>
    var distanceFromHome: real
    var angleFromHome: real
    var goingHome: bool
    var timerOn: bool
    var percMapped: real
    /** The 200 x 200 x 3 world map; its cells change, the array does not. */
    const worldmap: array3<int>

    /** The abstract value of the record. */
    function Data(): RoverData
      reads this
    {
      RoverData(
        posX, posY, pitch, roll, vel,
        throttle, brake, steer,
        startStuckTime,
        navDists, navAngles, navAnglesLeft,
        obsDists, obsAngles, rockDists, rockAngles,
        samplesCollected, nearSample, pickingUp, sendPickup,
        xNav, yNav,
        distanceFromHome, angleFromHome,
        goingHome, timerOn,
        percMapped)
    }

    ghost predicate Valid()
      reads this
    {
      && worldmap.Length0 == WORLD_SIZE
      && worldmap.Length1 == WORLD_SIZE
      && worldmap.Length2 == CHANNELS
      && ControlsInRange(Data())
      && LeftAnglesPositive(Data())
    }

    /** RoverState.__init__. */
    constructor ()
      ensures Valid()
      ensures Data() == Initial
      ensures fresh(worldmap)
      ensures forall i, j, c :: 0 <= i < WORLD_SIZE && 0 <= j < WORLD_SIZE && 0 <= c < CHANNELS ==>
        worldmap[i, j, c] == 0
    {
      posX, posY := 0.0, 0.0;
      pitch, roll := 0.0, 0.0;
      vel := 0.0;
      steer := Num(0.0);
      throttle := 0.0;
      brake := 0.0;
      startStuckTime := 0.0;
      navDists, navAngles, navAnglesLeft := [], None, [];
      obsDists, obsAngles := [], [];
      rockDists, rockAngles := [], [];
      samplesCollected := 0;
      nearSample := 0;
      pickingUp := 0;
      sendPickup := false;
      xNav, yNav := [0.0], [0.0];
      distanceFromHome, angleFromHome := 0.0, 0.0;
      goingHome := false;
      timerOn := false;
      worldmap := new int[WORLD_SIZE, WORLD_SIZE, CHANNELS]((i, j, c) => 0);
      percMapped := 0.0;
    }
  }

  /** The constants order the way the control laws assume. */
  lemma ConstantsOrdered()
    ensures MAX_STEER_RIGHT == -15.0 < 0.0 < MAX_STEER_LEFT == 15.0
    ensures 0.0 < MIN_VEL == 0.2 < MAX_VEL == 2.0
    ensures MAX_BRAKE == 10.0 && MAX_STUCK_TIME == 3.0
    ensures MIN_ANGLE_RIGHT == -MIN_ANGLE_LEFT
  {
  }

  /** A new record satisfies the command bounds and has no left angles. */
  lemma InitialIsConsistent()
    ensures ControlsInRange(Initial) && LeftAnglesPositive(Initial)
    ensures Initial.throttle == 0.0 && Initial.brake == 0.0 && Initial.steer == Num(0.0)
    ensures !Initial.sendPickup && !Initial.goingHome && !Initial.timerOn
    ensures Initial.samplesCollected == 0 && Initial.navAngles.None?
  {
  }
}
