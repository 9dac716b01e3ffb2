# Rover decision loop and perception, modelled in Dafny

This project models the autonomous-driving core of a simulated Mars-rover
controller. Each time the simulator sends a telemetry message, the
controller does four things:

- it copies the telemetry into one mutable rover record;
- it thresholds the warped camera image into navigable, obstacle and rock
  pixels, turns them into rover-frame points and polar coordinates, and
  marks a 200×200×3 world map;
- it runs a nine-state decision supervisor;
- it sends back either a pickup request or a (throttle, brake, steer)
  command.

The modules follow the repository's files:

- `Numerics` holds numpy's mean, with `NaN` for an empty array. Comparisons
  are false on `NaN`, and it also has the clip and truncation used by the
  code.
- `RoverState` holds the record. `RoverData` is its value, and the `Rover`
  class has the fields the methods update in place, plus the world map as
  an `array3`.
- `Events` holds the predicates of events.py and the wall-clock stuck timer
  `is_stuck`, with the clock reading as a parameter.
- `Handlers` holds the older predicate set of handlers.py.
- `States` holds the nine actuators of states.py. Each actuator method is
  proved to write exactly what its control-law function computes.
- `Transitions` holds the supervisor's handlers as specification functions.
  They are parameterised by the rule set: transition_actions.py (the one
  decision.py wires in), transition_handlers.py, or handlers.py.
  `Transitions` also holds the actuator dispatch of `switch_to_state` and
  one decision cycle.
- `Decision` holds the `DecisionMaker` class: its `curr` field, `run`,
  `switch_to_state`, and the nine imperative handler methods of
  transition_actions.py. Each is proved against the step functions.
- `FsmProperties` and `ActuatorProperties` hold the properties of the
  handlers and of the control laws.
- `Perception` holds the thresholding loops over the warped image, numpy's
  `nonzero`, `rover_coords`, the rotation and translation pairs, clipping
  to the world map, the distance cutoffs, the left-angle filter, and the
  stability-gated world-map write.
- `DriveRover` holds the telemetry handler, the command arbitration, and
  traces over runs of messages.

Where the source cannot run as written, the model follows what it evidently
means:

- decision.py:33 calls the actuator with an extra argument; the actuator is
  applied to the rover.
- handlers.py:155 calls a stuck method the supervisor does not have; the
  stuck check of events.py is used, with the handler's own stuck time.
- handlers.py:129 reads a record field that does not exist; the home
  distance field is used.
- transition_handlers.py:20 calls two sample predicates that events.py does
  not define; their definitions in handlers.py are used.

The stuck timer is switched off on most moves out of a state, but the code
leaves it as it is on these:

- TurningToLeftWall and AvoidingLeftWall to FollowingLeftWall;
- both moves out of AvoidingObstacles;
- the mission move to ReturningHome;
- GettingUnstuck left at speed;
- StoppingAtSample to AvoidingLeftWall.

`AlignTransitions` states this for the turning and avoiding moves,
`AvoidingObstaclesTransitions` for AvoidingObstacles, `FollowingFlags` for
the mission move, `UnstuckExits` for GettingUnstuck left at speed, and
`StoppingRequestsPickup` for the stop.

## Model

| member | source | states |
|---|---|---|
| Numerics.Mean | code/events.py:28 | np.mean is NaN exactly on an empty array, and otherwise is the sum over the count |
| Numerics.Gt | code/events.py:37 | a comparison with NaN is false; on a number it is the real comparison |
| Numerics.Clip | code/states.py:24-25 | np.clip keeps NaN, keeps a value within the bounds, and saturates at the bound it crosses |
| Numerics.ClipInt | code/perception.py:112-113 | an integer clipped to [lo, hi] lies in it, and one already inside is unchanged |
| Numerics.Trunc | code/perception.py:112 | np.int_ truncates toward zero: it brackets its argument from below for non-negative values and from above for negative ones |
| Numerics.MeanPositive | code/events.py:28-31 | the mean of a non-empty array of positive values is a number above 0 |
| RoverState.Rover.constructor | code/drive_rover.py:56-126 | a new record is the initial record (zero controls, no flags, no perception yet) with an all-zero 200×200×3 world map, and it satisfies the record invariant |
| RoverState.ConstantsOrdered | code/drive_rover.py:75-82 | the steering limits are ±15, MIN_VEL < MAX_VEL, MAX_BRAKE is 10 and MAX_STUCK_TIME is 3 |
| RoverState.InitialIsConsistent | code/drive_rover.py:63-124 | the initial record has commands in bounds, no flags set, no samples and no navigable angles |
| Events.StuckCheck | code/events.py:5-21 | a fast frame disarms the timer and says not stuck; a slow frame with the timer off arms it at the current time; a slow frame with the timer armed says stuck exactly when more than the limit has elapsed, keeping the start |
| Events.StuckOnlyWhenArmed | code/events.py:9-16 | stuck can be reported only on a slow frame with the timer already armed and the limit exceeded |
| Events.IsStuck | code/events.py:5-21 | the method returns the verdict of StuckCheck and changes only the timer flag and the start time |
| Events.PointedAlongWall | code/events.py:25-31 | at least 500 left angles whose mean is above -10 |
| Events.PointedAlongWallIsCountTest | code/events.py:25-31 | with positive left angles, the alignment test is the count test alone |
| Events.DeviatedFromLeftWall | code/events.py:34-37 | there are left angles and their mean is above 25 |
| Events.SampleLocatedMeaning | code/events.py:52-58 | sample_located holds exactly when both rock sets are non-empty, the mean rock angle is above -17 and the mean rock distance is below 71 |
| Events.LeftTestsDefineMean | code/events.py:25-49 | passing the left-obstacle test makes the left mean a number, and alignment implies no left obstacle |
| Handlers.PointedAtNav | code/handlers.py:29-37 | the navigable mean is defined and lies within [-17, 17] |
| Handlers.BiasedPointedMeaning | code/handlers.py:40-52 | the biased alignment test asks for 500 left angles with mean above 10, which implies the live test |
| Handlers.PathTestsExclusive | code/handlers.py:7-86 | a clear left path and a left obstacle exclude each other; a blocked front is the complement of a clear front, apart from the 500 to 600 gap where both hold |
| Handlers.SampleTestsNested | code/handlers.py:89-117 | sample_on_left implies sample_located, which implies sample_right_close, so the older disjunction is sample_right_close |
| Handlers.MissionTestsNested | code/handlers.py:120-123 | the older mission test (1 sample) is implied by the live one (5 samples) and differs only for 1 to 4 samples |
| States.FollowingLeftWall | code/states.py:8-25 | the actuator writes exactly the following law: throttle 0.8 below MAX_VEL, no brake, steer clip(left mean - 9) |
| States.SetControls | code/states.py:16-25 | the three control assignments of an actuator change throttle, brake and steer and nothing else in the record |
| States.TurningToLeftWall | code/states.py:29-41 | stop above MIN_VEL, otherwise pivot left at 15 |
| States.AvoidingLeftWall | code/states.py:44-56 | stop above MIN_VEL, otherwise pivot right at -15 |
| States.AvoidingObstacles | code/states.py:60-85 | stop above MIN_VEL, otherwise pivot right unless the navigable mean is above 20, and right when it is below -20 or undefined |
| States.GoingToSample | code/states.py:88-134 | stop above 1.0; with rocks in view pivot when the biased rock angle is 20 or more off, else creep at 0.39 steering on it; with no rock pivot left |
| States.GettingUnstuck | code/states.py:138-162 | stop above MIN_VEL, otherwise pivot left only when the navigable mean is above 15 |
| States.StoppingAtSample | code/states.py:164-168 | full brake, no throttle, straight wheels |
| States.HomeBandControls | code/states.py:188-241 | the branches compute the four distance bands of ReturningHomeControls |
| States.ReturningHome | code/states.py:171-241 | the actuator stores the home distance and angle and writes the banded controls |
| States.ParkingAtHome | code/states.py:246-252 | a moving rover is halted, otherwise the controls are kept |
| Decision.DecisionMaker.constructor | code/decision.py:12-27 | the supervisor starts in state[1], TurningToLeftWall, with the nine-state list |
| Decision.DecisionMaker.SwitchToState | code/decision.py:30-33 | switch_to_state stores the new state and the record becomes the chosen actuator's result |
| Decision.DecisionMaker.Run | code/decision.py:35-54 | before the first perception nothing changes; otherwise the state and the record are those of one decision cycle of transition_actions.py, and the record invariant is kept |
| Decision.SwitchClearingTimer | code/transition_actions.py:8-9 | the timer is switched off and the chosen state is entered |
| Decision.SwitchGoingHome | code/transition_actions.py:19-21 | going_home is set and the chosen state is entered, no other flag changes |
| Decision.StuckOrStay | code/transition_actions.py:23-27 | the stuck check decides between GettingUnstuck with the timer off and staying, as StuckStep says |
| Decision.SwitchToExit | code/transition_actions.py:67-71 | leaving GettingUnstuck enters ReturningHome when going home and FollowingLeftWall otherwise |
| Decision.UnstuckTimerOrStay | code/transition_actions.py:73-80 | when the stuck timer has run out the timer goes off and the exit state is entered; otherwise the handler stays, as GettingUnstuckStep says |
| Decision.FollowingLeftWallTransitions | code/transition_actions.py:5-27 | the handler's new state and record are those of FollowingStep followed by the chosen actuator |
| Decision.TurningToLeftWallTransitions | code/transition_actions.py:30-35 | as AlignStep followed by the chosen actuator |
| Decision.AvoidingLeftWallTransitions | code/transition_actions.py:37-42 | as AlignStep followed by the chosen actuator |
| Decision.AvoidingObstaclesTransitions | code/transition_actions.py:44-51 | as AvoidingObstaclesStep followed by the chosen actuator |
| Decision.GoingToSampleTransitions | code/transition_actions.py:53-63 | as GoingToSampleStep followed by the chosen actuator |
| Decision.GettingUnstuckTransitions | code/transition_actions.py:65-80 | as GettingUnstuckStep followed by the chosen actuator |
| Decision.StoppingAtSampleTransitions | code/transition_actions.py:82-88 | as StoppingStep followed by the chosen actuator |
| Decision.ReturningHomeTransitions | code/transition_actions.py:93-107 | as ReturningHomeStep followed by the chosen actuator |
| Decision.ParkingAtHomeTransitions | code/transition_actions.py:110-112 | as ParkingStep followed by the parking actuator |
| FsmProperties.StateListComplete | code/decision.py:14-24 | the state list holds each of the nine states exactly once |
| FsmProperties.FollowingPriority | code/transition_actions.py:5-27 | each target of the following handler is chosen exactly when its test fires and all earlier ones fail |
| FsmProperties.FollowingFlags | code/transition_actions.py:5-27 | every move of the following handler except the mission move clears the timer; the mission move sets going_home; send_pickup is untouched |
| FsmProperties.StayingInFollowingSteersOnTheWall | code/transition_actions.py:11-27 | staying in FollowingLeftWall implies at least 50 left angles and a numeric steer within the limits |
| FsmProperties.AlignTransitions | code/transition_actions.py:30-42 | the turning and avoiding handlers go to FollowingLeftWall exactly when aligned, else stay, writing no flag |
| FsmProperties.LiveAlignIsCountTest | code/transition_actions.py:30-42 | with positive left angles they leave exactly when there are at least 500 left angles |
| FsmProperties.LegacyAlignIsStricter | code/handlers.py:162-174 | when the older turning handler leaves, the live one leaves too |
| FsmProperties.AvoidingObstaclesTransitions | code/transition_actions.py:44-51 | mission first, then alignment, else stay; no flag written |
| FsmProperties.GoingToSampleTransitions | code/transition_actions.py:53-63 | near a sample stop; else stuck goes to GettingUnstuck, else stay; every move out clears the timer |
| FsmProperties.StoppingRequestsPickup | code/transition_actions.py:82-88 | a pickup is requested on every call, and the handler moves to AvoidingLeftWall exactly when no pickup is in progress |
| FsmProperties.UnstuckExits | code/transition_actions.py:65-80 | speed of at least 1.0 or the stuck timer ends the manoeuvre, towards ReturningHome when going home and FollowingLeftWall otherwise; leaving at speed writes no flag, so the timer is kept |
| FsmProperties.ReturningHomePriority | code/transition_actions.py:93-107 | front obstacle, then arrival, then stuck, else stay; every move out clears the timer |
| FsmProperties.ParkingAbsorbing | code/transition_actions.py:110-112 | ParkingAtHome re-selects itself and runs the parking actuator |
| FsmProperties.VariantsDifferOnlyInSampleTest | code/transition_handlers.py:20-22 | the two events-based handler sets agree everywhere but the following handler's sample test, which amounts to sample_right_close |
| FsmProperties.LegacyTurnNeedsClearLeft | code/handlers.py:139-141 | the older following handler turns only with at least 1500 left angles and a deviated mean |
| FsmProperties.StuckLimitsDiffer | code/handlers.py:186-228 | with the timer armed, the live and older handlers give up after different times (3 s against 4 s, and 3 s against 2.3 s) |
| FsmProperties.HandlerStuckTimes | code/handlers.py:133-248 | with the timer armed on a stationary rover and the earlier tests quiet, each stuck-checking handler gives up exactly when more than its stuck time has passed: 2, 4, 2.3 and 2.5 s in handlers.py, 3 s in the events-based sets |
| FsmProperties.ActuateWritesOnlyControls | code/decision.py:30-33 | every actuator writes only the three controls; ReturningHome also writes the home fix |
| FsmProperties.ActuateKeepsControlsInRange | code/states.py:8-252 | every actuator keeps throttle, brake and steer within the simulator's bounds |
| FsmProperties.CycleKeepsRoverInvariant | code/decision.py:35-54 | a decision cycle keeps the commands in bounds and the left angles positive |
| FsmProperties.UnstuckCanSteerNaN | code/transition_actions.py:67-71 | leaving GettingUnstuck at speed with no left angles makes the following actuator steer NaN |
| ActuatorProperties.FollowingLeftWallSteering | code/states.py:8-25 | the following law never brakes, steers on the left mean less 9 saturated at ±15, and steers NaN exactly without left angles |
| ActuatorProperties.StopThenPivot | code/states.py:29-162 | the four stop-then-pivot laws halt above MIN_VEL and otherwise pivot at a steering limit, each on its own side |
| ActuatorProperties.EmptyNavTurnsRight | code/states.py:60-85 | with no navigable pixel the obstacle and unstuck pivots turn right |
| ActuatorProperties.GoingToSampleCreepsOnlyWhenAimed | code/states.py:88-134 | the sample law creeps at 0.39 only when the biased rock angle is within (-20, 20), and pivots left with no rock |
| ActuatorProperties.ReturningHomeBands | code/states.py:193-241 | beyond 450 the home angle is ignored, within 100 the navigable angle is; throttle is at most 0.8, 0.3 or 0.2 by band |
| ActuatorProperties.HomeNavHeadingBetween | code/states.py:189-190 | the 3:7 heading lies between the home and navigable angles, and is NaN without navigable angles |
| ActuatorProperties.ParkingApproach | code/states.py:221-241 | close and slow, the rover pivots towards home when 23 degrees or more off and otherwise creeps at 0.3 |
| ActuatorProperties.ParkingIdempotent | code/states.py:246-252 | the parking law keeps a slow rover's controls and applying it twice equals applying it once |
| Perception.MaskMeaning | code/perception.py:7-32 | a colour mask has the image's shape, is binary and is 1 exactly on the pixels of its class |
| Perception.Threshold | code/perception.py:20-32 | the thresholding loop yields an array of the image's size holding the mask of the class |
| Perception.ColorThresh | code/perception.py:20-32 | a pixel is 1 exactly when all three channels exceed 160, else 0, on the image's size |
| Perception.RockThresh | code/perception.py:7-17 | a pixel is 1 exactly when each channel lies strictly between (130, 105, 0) and (220, 190, 70), else 0 |
| Perception.NavigableIsNeverRock | code/perception.py:7-28 | no pixel is both navigable and rock |
| Perception.ObstacleOffNavigable | code/perception.py:147 | the obstacle value is 0 where the navigable mask is 1, and the warp mask's value where it is 0 |
| Perception.RowNonzero | code/perception.py:45 | the nonzero columns of a row, each once, left to right |
| Perception.Nonzero | code/perception.py:45 | nonzero lists exactly the nonzero cells, in strict row-major order |
| Perception.NonzeroOnce | code/perception.py:45 | no cell is listed twice |
| Perception.RoverCoordsMeaning | code/perception.py:43-50 | one point per nonzero pixel; x = H - row lies in [1, H], so every point is ahead; y is the offset from the middle column |
| Perception.RoverCoordsCentred | code/perception.py:49 | with the middle column as centre, that column maps to y = 0 and mirror columns to opposite offsets |
| Perception.AsWrittenAgreesWhenTwiceAsWide | code/perception.py:49 | the code as written agrees with the middle-column version on images twice as wide as high, such as 160×320 |
| Perception.AsWrittenMisplacesCentre | code/perception.py:49 | on a 1×4 image the middle pixel is straight ahead, but the code as written puts it at y = -1 |
| Perception.RotateRoundTrip | code/perception.py:64-84 | on the unit circle inv_rotate_pixels undoes rotate_pixels, and the reverse |
| Perception.TranslateRoundTrip | code/perception.py:86-103 | for a non-zero scale inv_translate_pixels undoes translate_pixels, and the reverse |
| Perception.PixToWorld | code/perception.py:105-115 | every world index lies in [0, world_size - 1]; it equals the truncated coordinate when that is inside, and the nearer edge otherwise |
| Perception.PixToRoverUndoesToWorld | code/perception.py:118-124 | pix_to_rover recovers a rover point from its unclipped world point |
| Perception.WorldCells | code/perception.py:181-183 | one cell per point, all on the 200×200 map |
| Perception.Positives | code/perception.py:169 | the left angles are positive, no more numerous than the angles, and exactly the positive ones |
| Perception.PositivesOfConcat | code/perception.py:169 | the filter keeps order: filtering a concatenation concatenates the filtered parts |
| Perception.Within | code/perception.py:172-174 | the cutoff keeps every point whose distance is under the limit and only such points |
| Perception.WithinOfConcat | code/perception.py:172-174 | the distance cutoff keeps order and multiplicity: cutting a concatenation concatenates the cut parts |
| Perception.WithinOne | code/perception.py:172-174 | one point is kept exactly when its distance is under the limit |
| Perception.NothingWithin | code/perception.py:174 | with no distance under the limit nothing survives |
| Perception.SeeMeaning | code/perception.py:157-178 | one distance and angle per navigable pixel; the left angles are the positive ones; rock angles and rock cells only for rock pixels within 70, none when no rock is that close |
| Perception.Stored | code/perception.py:161-169 | the stored record has navigable angles, and its left angles are positive exactly when the vision's are |
| Perception.StoreNavigable | code/perception.py:161-169 | the navigable fields are written from the vision and no others |
| Perception.MapAfterMeaning | code/perception.py:187-193 | an unstable cycle leaves the map unchanged; with no rock cells the green channel is unchanged; every cell keeps its value or becomes 255 |
| Perception.MarkCells | code/perception.py:191-193 | exactly the listed cells of one channel become 255 and every other cell is unchanged |
| Perception.StoreVision | code/perception.py:161-178 | the record fields perception_step assigns, and no others |
| Perception.MarkWorld | code/perception.py:190-193 | each map cell becomes 255 on a mapped cell of its channel when stable and keeps its value otherwise, as MapAfter says |
| Perception.Look | code/perception.py:145-183 | the thresholding and coordinate work yields the vision of the image and the warp mask; its mapped cells lie on the world map and its left angles are positive |
| Perception.PerceptionStep | code/perception.py:127-195 | the record receives the vision's outputs and keeps its invariant; the world map is marked per channel when stable and is otherwise unchanged |
| DriveRover.EmitArbitration | code/drive_rover.py:231-243 | a pickup is sent exactly when the velocity is valid, a pickup is requested and none is in progress, and it clears the request; otherwise the controls are sent, or zeros when the velocity is invalid |
| DriveRover.Perceived | code/drive_rover.py:193 | after perception the record has navigable angles, positive left angles when the vision is coherent |
| DriveRover.UpdatePose | code/drive_rover.py:188 | update_rover's pose fields |
| DriveRover.UpdateRover | code/drive_rover.py:188 | update_rover writes the message's telemetry fields and no others |
| DriveRover.SendCommand | code/drive_rover.py:231-237 | the pickup-or-controls choice of a valid cycle |
| DriveRover.Telemetry | code/drive_rover.py:166-243 | one message: the state, record and command are those of Tick, the invariants are kept, and the world map is marked only when the velocity is valid and the rover stable |
| DriveRover.PerceiveDecideSend | code/drive_rover.py:193-237 | on a valid velocity: perception, one decision cycle and the command choice, with the world map marked only when stable |
| DriveRover.DecideSend | code/drive_rover.py:195-237 | one decision cycle on the perceived record, then the pickup-or-controls command, with the record invariant kept |
| DriveRover.QuietOnAnyRecord | code/drive_rover.py:188-195 | the following handler's tests read only what the message brings |
| DriveRover.QuietFramesKeepFollowing | code/transition_actions.py:5-27 | a following rover keeps following, with the timer off, through quiet messages |
| DriveRover.AlignedThenQuietFollows | code/transition_actions.py:30-35 | a turning rover that sees 500 left angles and then quiet messages ends up following |
| DriveRover.ParkedStaysParked | code/transition_actions.py:110-112 | once parked, always parked, for any run of messages |
| DriveRover.StuckTimerTrace | code/events.py:9-16 | two stationary messages: the first arms the timer, and the second sends the rover to GettingUnstuck when more than MAX_STUCK_TIME has passed, else keeps it with the first start time |
| DriveRover.StoppingSendsPickup | code/drive_rover.py:231-237 | a stop at a sample with no pickup in progress sends the pickup in the same cycle and turns to AvoidingLeftWall |
| DriveRover.InvalidVelocitySkipsDecision | code/drive_rover.py:190-243 | an invalid velocity keeps the state and the perception outputs and sends zeros |

## Left out

- perspect_transform is a wrapper over OpenCV's perspective warp. The warped image and the warp mask are inputs to `Perception.Look` and `Perception.PerceptionStep`.
- to_polar_coords uses square root and arctangent. Distance and angle are the two functions of a `Perception.Polar` parameter.
- The trigonometry of the yaw is not modelled. Rotation takes a (cos, sin) pair, and the round trip assumes the pair lies on the unit circle.
- The home distance and angle that ReturningHome computes with pix_to_rover and to_polar_coords are the `HomeFix` parameter.
- Wall-clock readings (time.time) are the `now` parameter of each cycle.
- update_rover, create_output_images and the simulator's socket I/O are not part of this model. supporting_functions.py is not part of this model either; the fields update_rover writes come from a `Frame`.
- The display-only vision_image writes and the debugging plots are not modelled.
- The record fields nothing in the core reads are not modelled: yaw, start_time, total_time, samples_pos, samples_to_find, ground_truth and the vision images.
- Fields that start as None (position, pitch, roll, velocity, home distance and angle) start at 0.0. The core reads none of them before the first telemetry.
- nav_dists, nav_angles_left, obs_dists, obs_angles, rock_dists and rock_angles also start as None; they start as empty sequences here. Perception writes all of them in the same step that makes nav_angles present, and the supervisor reads none of them while nav_angles is None.
- All arithmetic is exact over the reals. float32 and float64 rounding are not modelled, and NaN appears only as the mean of an empty array.
- Velocity finiteness (np.isfinite) is the frame's `velFinite` flag, not a property of a real number.
- Pixel channels and mask values are unbounded integers, not uint8.
- Perception.Translate: requires a non-zero scale. The source's only scale is the default 10, and a zero scale would give infinities, which the model does not represent.
- DriveRover.Telemetry: requires the frame's vision to equal what perception computes on the given image. This ties the trace functions to the message's camera image.
- decision.py runs only transition_actions.py. The handlers of transition_handlers.py and handlers.py are the `Ruleset` variants: the step functions and the imperative `Decision.*Transitions` methods take the rule set and are proved for all three, but `Decision.DecisionMaker.Run` dispatches only with `TransitionActions`.
- The frame-rate counter and the image saving in the telemetry handler are not modelled.

## Findings

| source | as written | input that shows it | evidently intended | confidence | as-written member | corrected member |
|---|---|---|---|---|---|---|
| code/perception.py:49 | the lateral offset is measured from column shape[0], the row count | a 1×4 binary image with only column 2 set: the pixel in the middle column gets y = -1 | the offset is measured from the middle column, shape[1] / 2; this agrees with the code on the simulator's 160×320 images | not executed | Perception.AsWrittenMisplacesCentre | Perception.RoverCoordsCentred |
