# SuperScanner 8000: controller and firmware core in Dafny

This project models the logic of the SuperScanner 8000 scanning robot. It
covers the Python controller that drives the robot and the ESP32-S2
firmware on board.

Controller side:

- **Navigation** (`navigator.py`): the potential-field navigator.
  - It lays a circle of waypoints around the object.
  - It pops waypoints behind the robot off the front of the trajectory.
  - It sums the force-point contributions of the aimed waypoint and the obstacles.
  - It rescales that sum to a 5 cm step and turns it into rotate and forward commands.
- **MotionApi** (`ss8.py`): the command layer. Every order becomes one
  HTTP request, with a JSON body in milliseconds of actuation, and an
  optional wait. Replies and exceptions become a return value or a
  callback. HTTP is a log of requests; waiting is a clock.
- **ArmPath** (`arm_positions.py`): the arm elevation path, a vertical
  segment, then a slanted one, then a fixed final point.
- **JpegFraming**, **UdpStream**, **HttpStream** (`udp_receiver.py`,
  `webserver.py`): cutting JPEG frames out of a byte buffer between the
  SOI (0xFFD8) and EOI (0xFFD9) markers of ITU-T T.81, Annex B,
  Table B.1, with the leftover bytes kept for the next read. The UDP
  receiver works datagram by datagram. The HTTP reader works in chunks
  of 1024 bytes.

Firmware side:

- **WheelControl** (`wheels.cpp`): timed motion with automatic stop, and
  the four direction pins.
- **LcdDisplay** (`display.cpp`): a 16x2 character LCD with text layout,
  a scrolling marquee and a progress bar.
- **LedStrip** (`led.cpp`): steady colours, a flash that restores what
  was there before, and the rainbow with its two 8-bit hue counters.
- **CameraGimbal** (`cam_angles.cpp`): conversion between angles and
  steps for two steppers moved together.
- **ArmControl** (`arm.cpp`): `setPos` validation, stepper targets, stop
  and update for the two-link arm.

Support modules:

- **Numeric**: plane vectors and the platform math library. `sqrt`,
  `cos`, `sin`, `acos`, `atan2` and `pow` are uninterpreted fields of a
  `MathLib` value. Only `SqrtSound` is ever assumed about them. The
  module also spells out Python's `round` (half to even) and `//`
  (floor), and C's `/` (truncation) and float-to-integer casts.
- **Arduino**: 32-bit `millis()` arithmetic with wrap-around, and an
  abstract AccelStepper with a position and a target.

Floating-point values are exact `real`s. `millis()` is an explicit
input, `U32`. Replies from the network, socket bind outcomes, datagrams,
HTTP bodies and JPEG decoding are parameters. Objects whose fields the
source updates in place are classes. Each method's postcondition ties the
new state to a specification function, and the lemmas state what the
source promises about those functions.

Facts about the navigator that shape the model:

- `navigator.py:87` documents a positive force as an object to reach and a
  negative one as an obstacle. But `navigator.py:102-108` compute
  `dist = pos − self.pos`, so as written a positive force pushes the robot
  away. The model takes the documented sign (see Findings).
- `add_obstacle` (`navigator.py:52`) gives obstacles force 1. Under the
  documented sign the model gives them −1, so obstacles push exactly as
  the code makes them push.
- Obstacles are appended without deduplication.
- Nothing in `navigator.py` or `ss8.py` updates the robot's position
  `pos`; it is never dead-reckoned.

## Model

| member | source | states |
|---|---|---|
| Navigation.RadiansWithinTurn | code/software/controllers/navigator.py:22-25 | a whole degree in 0..359 becomes an angle in [0, 2π) |
| Navigation.RadiansIncrease | code/software/controllers/navigator.py:22-25 | conversion to radians is strictly increasing, so waypoint angles rise with `a` |
| Navigation.ContributionAlongLine | code/software/controllers/navigator.py:87-108 | no force within 0.1 of the point; otherwise the contribution is a multiple of (point − query) whose sign is the force's: pull for positive, push for negative, nothing for zero, as documented |
| Navigation.OrderOneInverseDistance | code/software/controllers/navigator.py:102-108 | with distance order 1 and the point at order-1 distance d ≥ 0.1, the contribution's order-1 norm is `|force| / d`: an inverse-distance field |
| Navigation.AsWrittenFlipsEverySign | code/software/controllers/navigator.py:102-108 | as written (`dist = pos − self.pos`) every contribution is the documented one of the opposite force |
| Navigation.AsWrittenWaypointPushesAway | code/software/controllers/navigator.py:87-108 | a waypoint of force 1 at (10, 0) seen from the origin contributes (−0.1, 0), away from it, as written, and (0.1, 0), toward it, as documented |
| Navigation.ObstaclePushUnchanged | code/software/controllers/navigator.py:52 | an obstacle of force −1 under the documented sign contributes exactly what the code's force-1 obstacle contributes as written |
| Navigation.CountCoversSteps | code/software/controllers/navigator.py:22 | for 0 < step_nbr ≤ 360 the range step is ≥ 1 and the range has at least step_nbr values, exactly step_nbr when step_nbr divides 360 |
| Navigation.CircleLaidOut | code/software/controllers/navigator.py:21-25 | a list holding `CirclePoint(a)` for a = 0, k, 2k, … below 360 is the circle trajectory |
| Navigation.CircleTrajectoryCount | code/software/controllers/navigator.py:21-22 | an error exactly when step_nbr is 0 (division by zero) or above 360 (range step 0); an empty list for a negative step_nbr; at least step_nbr waypoints, and exactly step_nbr when it divides 360 |
| Navigation.CircleAnglesIncrease | code/software/controllers/navigator.py:22-25 | every waypoint angle lies in [0, 2π), and the angles are strictly increasing along the list |
| Navigation.RemainingAimsPastFirstAbove | code/software/controllers/navigator.py:36-39 | as written, the search keeps the list whole when its head is at or above the bearing; otherwise it pops through the first waypoint at or above the bearing and keeps exactly the suffix after it |
| Navigation.PopThroughFirstAbove | code/software/controllers/navigator.py:36-39 | as written, once popping starts the first waypoint at or above the bearing is popped too (`pop(0)` returns the head it tested), and the rest is kept |
| Navigation.PopThroughAllBelow | code/software/controllers/navigator.py:36-39 | as written, when no waypoint reaches the bearing the search empties the trajectory |
| Navigation.SkipBelowAimsAtClosestAbove | code/software/controllers/navigator.py:35-39 | corrected search: a suffix is kept, every dropped waypoint is below the bearing, the aimed one is at or above it, and on increasing angles it has the least angle at or above the bearing |
| Navigation.SkipBelowStopsAtFirstAbove | code/software/controllers/navigator.py:35-39 | the corrected search keeps the trajectory from the first waypoint at or above the bearing |
| Navigation.AsWrittenAimsPastClosest | code/software/controllers/navigator.py:35-39 | on increasing angles, when the loop pops at all and a waypoint follows the first one at or above the bearing, as written it aims at that follower, of larger angle, where the corrected search aims at the first one |
| Navigation.StepAlongHasStepLength | code/software/controllers/navigator.py:46-49 | a zero total force gives NaN; any other force is rescaled to a displacement whose squared length is exactly 25 (`STEP_DISTANCE` = 5), and the returned distance is 5 |
| Navigation.CorrectedStepApproachesWaypoint | code/software/controllers/navigator.py:42-108 | with only a waypoint of positive force, more than 2.5 away, the 5 cm step brings the robot strictly closer to it |
| Navigation.RepellerStepRecedes | code/software/controllers/navigator.py:87-108 | a step along a point of negative force (an obstacle) takes the robot strictly farther from it |
| Navigation.AsWrittenStepRecedes | code/software/controllers/navigator.py:102-108 | as written a step along a point of positive force (a waypoint) takes the robot strictly farther from it |
| Navigation.MovOf | code/software/controllers/navigator.py:60-78 | exactly two commands, the second a forward move by the distance |
| Navigation.MovOfTurn | code/software/controllers/navigator.py:67-71 | for every angle: rotate left iff the angle is below π, right otherwise; the rotation is the angle, or the angle less a full turn; the time is negative iff the angle is below 0 or above 2π; for an angle in [0, 2π) the rotation is between 0 and π |
| Navigation.NavigatorTurnsRotateLeft | code/software/controllers/navigator.py:47-69 | for a bearing in (−π, π] the turn `bearing − π/2` is always a left rotation, and a negative one when the bearing is below π/2 |
| Navigation.Navigator.constructor | code/software/controllers/navigator.py:7-12 | no obstacles, empty trajectory, robot and object at the origin, heading π/2 |
| Navigation.Navigator.SetCircleTrajectory | code/software/controllers/navigator.py:14-25 | the object is `radius` left of the robot; the trajectory is discarded, then becomes the circle trajectory, or stays empty with the error |
| Navigation.Navigator.NextDeplacement | code/software/controllers/navigator.py:27-49 | the trajectory becomes the suffix left by the corrected search (the waypoints below the bearing popped); the result is the step along the aimed waypoint's contribution plus every obstacle's, or IndexError on an empty trajectory |
| Navigation.Navigator.AddObstacle | code/software/controllers/navigator.py:51-52 | exactly one obstacle at `pos` of force −1 and order 4 is appended (the code's force 1 under the documented sign); existing obstacles are untouched and nothing is deduplicated |
| Navigation.FreshCircleAimsAtStart | code/software/controllers/navigator.py:22-39 | for a bearing at or below 0 a fresh circle is popped neither as written nor by the corrected search, and the robot aims at its first waypoint, angle 0 |
| Navigation.SetCircleTrajectoryAsWritten | code/software/controllers/navigator.py:20 | as written every call raises (`self.pos` does not exist) |
| Navigation.NextDeplacementAsWritten | code/software/controllers/navigator.py:33-37 | as written every call raises: IndexError on an empty list, otherwise comparing with the array `np.tan(...)` |
| Navigation.MovOfAsWritten | code/software/controllers/navigator.py:68-71 | as written every call raises (`np.PI` does not exist) |
| Navigation.AsWrittenNavigatorNeverSteps | code/software/controllers/navigator.py:14-78 | for a four-point circle of radius 10, as written no step is produced; as intended the circle has four points and `_mov_of(0.5, 5)` rotates left by 0.5 then moves forward 5 |
| MotionApi.SendReq | code/software/controllers/ss8.py:158-177 | the parsed JSON is returned iff the status is 200 and the body parses; `on_error` is called iff the status is not 200; the connection-lost callback is called for every exception; exactly one of the three happens |
| MotionApi.RequestFor | code/software/controllers/ss8.py:179-302 | every order is a POST; its body carries milliseconds exactly for the four timed orders, and then it is the order's actuation time |
| MotionApi.WaitedBounds | code/software/controllers/ss8.py:190-243 | a wait is never negative, and there is none unless a timed order is asked to wait |
| MotionApi.SleepMatchesRequest | code/software/controllers/ss8.py:184-243 | a timed order that waits sleeps exactly the milliseconds its request carries, in seconds |
| MotionApi.ConversionsPerPair | code/software/controllers/ss8.py:184-238 | forward and backward post the same body, `dist·66` ms; left and right post the same body, `angle·1591.55` ms; the two URLs of each pair differ |
| MotionApi.DefaultArgumentRequests | code/software/controllers/ss8.py:16-294 | with their defaults, forward and backward post 66000 ms to `/fwd` and `/bwd`, left and right post the same time of about 2500 ms, `goto_arm` sends the arm home and `goto_camera` aims at (0, 0) |
| MotionApi.NegativeRotationPostsNegativeTime | code/software/controllers/ss8.py:210-245 | a negative angle is posted as is, with negative milliseconds, and the wait after it is 0 |
| MotionApi.ArmHomeOnlyAtOrigin | code/software/controllers/ss8.py:265-268 | the home body `{x:0, y:0, angles:true}` is sent iff the target is (0, 0); any other target sends `{x, y}` |
| MotionApi.SimulationSendsNothing | code/software/controllers/ss8.py:186-301 | in simulation mode no request is sent and no callback called for any run of orders; only the waits happen |
| MotionApi.ConnectedSendsInOrder | code/software/controllers/ss8.py:179-305 | connected and not simulating, a run of orders sends one request per order, in order, and sleeps the sum of their waits |
| MotionApi.ReceiverBindingAsWritten | code/software/controllers/ss8.py:37-38 | as written the interface text lands in the receiver's port parameter |
| MotionApi.ReceiverBinding | code/software/controllers/udp_receiver.py:11-27 | a receiver given a port in range binds exactly when the port is free |
| MotionApi.ReceiversAsWrittenNeverBind | code/software/controllers/ss8.py:37-38 | with a camera enabled and no test video, `connect` as written always fails; as intended it succeeds exactly when the API answers (if checked) and the enabled ports are free |
| MotionApi.SS8.constructor | code/software/controllers/ss8.py:30-38 | two distinct idle receivers with empty buffers and no frame; no URL set; nothing sent |
| MotionApi.SS8.DefaultUrls | code/software/controllers/ss8.py:42-49 | the three default URLs, pairwise distinct |
| MotionApi.SS8.Connect | code/software/controllers/ss8.py:51-120 | stores the three URLs; GETs `/status` only when the API check is enabled; the verdict is the API check, then the test video, then the enabled receivers in order, stopping at the first failure; a receiver is started only when every earlier check passed |
| MotionApi.SS8.Perform | code/software/controllers/ss8.py:184-191 | the effects of one order are `Issue`: no request in simulation mode, a lost connection before `connect`, else the request and its handling; then the wait |
| MotionApi.SS8.MoveForwardCm | code/software/controllers/ss8.py:179-192 | the effects of `move_forward(dist, wait)` |
| MotionApi.SS8.MoveBackwardCm | code/software/controllers/ss8.py:194-208 | the effects of `move_backward(dist, wait)` |
| MotionApi.SS8.RotateLeftRad | code/software/controllers/ss8.py:210-226 | the effects of `rotate_left(angle, wait)` |
| MotionApi.SS8.RotateRightRad | code/software/controllers/ss8.py:228-245 | the effects of `rotate_right(angle, wait)` |
| MotionApi.SS8.StopMovement | code/software/controllers/ss8.py:247-255 | the effects of `stop_mov`, which never waits |
| MotionApi.SS8.GotoArmAt | code/software/controllers/ss8.py:257-271 | the effects of `goto_arm(x, y)` |
| MotionApi.SS8.StopArmMovement | code/software/controllers/ss8.py:273-282 | the effects of `stop_arm` |
| MotionApi.SS8.GotoCameraAt | code/software/controllers/ss8.py:284-294 | the effects of `goto_camera(alpha, beta)` |
| MotionApi.SS8.StopCamera | code/software/controllers/ss8.py:296-305 | the effects of `stop_cam` |
| MotionApi.SS8.CaptureImage | code/software/controllers/ss8.py:341-357 | the test-video frame under TEST_SEG_WITH_VID; else the top camera's frame for "arm", the front camera's for "front", and nothing for any other source |
| ArmPath.DistanceIsEuclidean | code/software/controllers/arm_positions.py:4-5 | with an exact square root the distance is non-negative, its square is the sum of the squared differences, and it is symmetric |
| ArmPath.GenerateLinePoints | code/software/controllers/arm_positions.py:8-15 | the loop's list is `LinePoints(N, s, e)` |
| ArmPath.Round1Within | code/software/controllers/arm_positions.py:12-13 | `round(v, 1)` is within 0.05 of v |
| ArmPath.Round1OfInt | code/software/controllers/arm_positions.py:12-13 | a whole number is unchanged by `round(v, 1)` |
| ArmPath.LinePointsShape | code/software/controllers/arm_positions.py:8-15 | exactly N points (none for N ≤ 0); point i lies within 0.05 per coordinate of `s + (i/N)(e − s)`, with i/N in [0, 1) |
| ArmPath.LinePointNear | code/software/controllers/arm_positions.py:8-15 | point i lies within 0.05 per coordinate of `s + (i/N)(e − s)`, with i/N in [0, 1) |
| ArmPath.LinePointsFromStart | code/software/controllers/arm_positions.py:8-23 | the first point is the whole-number start, and on a segment of constant whole x every point keeps that x |
| ArmPath.GeneratePath | code/software/controllers/arm_positions.py:18-51 | the list built by extend, pop and append is `PathOf(N)` |
| ArmPath.VerticalLength | code/software/controllers/arm_positions.py:22-28 | the vertical segment from (−10, −2) to (−10, 20) is 22 long |
| ArmPath.VerticalCountInRange | code/software/controllers/arm_positions.py:35-36 | for N ≥ 1 the total length is non-zero and `vertical_points` lies in [1, N] |
| ArmPath.PoppedVerticalPoint | code/software/controllers/arm_positions.py:39-41 | the point `pop` removes is the last generated vertical point: x = −10 and y within 0.05 of `20 − 22/vertical_points`, so not (−10, 20) for fewer than 440 vertical points |
| ArmPath.AssembledShape | code/software/controllers/arm_positions.py:39-51 | N points: `vertical_points − 1` points with x = −10, then exactly the `curve_points` curve points, then (0, 80) |
| ArmPath.PathHasNPoints | code/software/controllers/arm_positions.py:18-51 | for N ≥ 1 `generate_path(N)` is that assembly: exactly N points ending with (0, 80) |
| JpegFraming.FindFrom | code/software/controllers/udp_receiver.py:45-46 | −1 when no marker from the offset on, else the first marker position from the offset |
| JpegFraming.Find | code/software/controllers/udp_receiver.py:45-46 | `find`: −1 iff the marker is absent, else the position of its first occurrence |
| JpegFraming.FindFirst | code/software/controllers/udp_receiver.py:45-46 | `find` returns the index of the marker's first occurrence |
| JpegFraming.CutIffBothMarkers | code/software/controllers/udp_receiver.py:45-48 | a frame is cut iff both markers occur; otherwise the buffer keeps every byte |
| JpegFraming.CutKeepsAfterFirstEnd | code/software/controllers/udp_receiver.py:50-51 | after a cut the buffer is exactly the bytes after the first end marker |
| JpegFraming.CutFrameDelimited | code/software/controllers/udp_receiver.py:45-51 | when SOI comes first, the frame opens with SOI, closes with its only EOI, and prefix, frame and rest rebuild the buffer |
| JpegFraming.EndBeforeStartYieldsEmptyFrame | code/software/controllers/udp_receiver.py:45-51 | an end marker before the start marker gives an empty frame and still discards everything through it |
| JpegFraming.CutRestIsSuffix | code/software/controllers/udp_receiver.py:51 | the kept bytes are a suffix of the buffer |
| JpegFraming.OneFramePerCut | code/software/controllers/udp_receiver.py:45-51 | for any buffer whose first SOI precedes its first EOI and whose rest holds another such frame, one cut takes only the first frame and keeps the rest, and the next cut takes the second |
| UdpStream.ReceiveWithoutFrameKeepsAll | code/software/controllers/udp_receiver.py:41-48 | a datagram that completes no frame is appended whole behind the buffered bytes |
| UdpStream.FrameOnlyFromDecoder | code/software/controllers/udp_receiver.py:54-58 | the current frame changes only to an image the decoder returned |
| UdpStream.StopEndsLoop | code/software/controllers/udp_receiver.py:38-79 | after a stop no later event has any effect and the receiver is not running |
| UdpStream.BufferIsSuffixOfReceived | code/software/controllers/udp_receiver.py:38-51 | while running, the buffer is always a suffix of the old buffer followed by every datagram, in arrival order |
| UdpStream.UdpReceiver.constructor | code/software/controllers/udp_receiver.py:11-18 | empty buffer, no frame, not running |
| UdpStream.UdpReceiver.StartListening | code/software/controllers/udp_receiver.py:21-32 | running is set iff the bind succeeds, and the outcome is the bind's |
| UdpStream.UdpReceiver.ReceiveDatagram | code/software/controllers/udp_receiver.py:41-58 | the new state is one framing step on the datagram |
| UdpStream.UdpReceiver.FetchFrames | code/software/controllers/udp_receiver.py:34-61 | the new state is the fetch loop run over the events |
| UdpStream.UdpReceiver.GetCurrentFrame | code/software/controllers/udp_receiver.py:63-73 | the last decoded frame, or nothing before the first |
| UdpStream.UdpReceiver.Stop | code/software/controllers/udp_receiver.py:75-82 | clears `running` and nothing else |
| HttpStream.NoFrameKeepsEverything | code/software/controllers/webserver.py:26-44 | a stream that ends without a frame leaves every byte read in the buffer and the body consumed |
| HttpStream.PullKeepsOrder | code/software/controllers/webserver.py:26-37 | reading never reorders or invents bytes: buffer plus unread body afterwards ends the one before |
| HttpStream.FrameOnlyFromDecoder | code/software/controllers/webserver.py:40-44 | a returned frame is the decoding of some cut byte string |
| HttpStream.ReadStream | code/software/controllers/webserver.py:26-44 | the chunk loop computes `Pull` |
| HttpStream.Esp32Cam.constructor | code/software/controllers/webserver.py:7-17 | settles on the first response answering 200, with an empty buffer |
| HttpStream.Esp32Cam.GetFrame | code/software/controllers/webserver.py:19-51 | `exit()` with nothing read when the status is not 200; otherwise the outcome and new buffer of reading the stream, the leftover bytes kept for the next call |
| HttpStream.LastChunkSecondFrameStaysBuffered | code/software/controllers/webserver.py:26-44 | for any last chunk that completes two frames, only the first is returned, the second stays whole in the buffer, and the next call finds no new chunk and returns no frame |
| WheelControl.DirectionNamesDistinct | code/hardware/esp32-s2/wheels.cpp:5-23 | every direction has its own name, none "unknown", and every other code maps to "unknown" |
| WheelControl.CommandsDriveMotorsAsNamed | code/hardware/esp32-s2/wheels.cpp:77-146 | after any command the motors turn as its direction says: both ahead or both reverse, one motor for a gentle turn with the other left idle by the preceding stop, opposite senses for a hard turn; stop idles both |
| WheelControl.TimedMotionStopsAfterDuration | code/hardware/esp32-s2/wheels.cpp:69-75 | a motion with positive duration is stopped by the first update more than `ms` later and by none before, across a `millis()` wrap too |
| WheelControl.UntimedMotionRunsOn | code/hardware/esp32-s2/wheels.cpp:69-75 | with `ms ≤ 0` updates never stop the motion |
| WheelControl.Wheels.constructor | code/hardware/esp32-s2/wheels.cpp:26-45 | `t = 0`, `targetTime = 0`, direction STOP |
| WheelControl.Wheels.Update | code/hardware/esp32-s2/wheels.cpp:69-75 | the new state is `Tick` |
| WheelControl.Wheels.Stop | code/hardware/esp32-s2/wheels.cpp:77-84 | `targetTime = 0`, STOP, all four direction pins LOW |
| WheelControl.Wheels.Start | code/hardware/esp32-s2/wheels.cpp:86-90 | records `t = now`, `targetTime = ms` and the direction, leaving the pins |
| WheelControl.Wheels.Forward | code/hardware/esp32-s2/wheels.cpp:86-95 | stop, then record and drive forward |
| WheelControl.Wheels.Backward | code/hardware/esp32-s2/wheels.cpp:97-106 | stop, then record and drive backward |
| WheelControl.Wheels.Left | code/hardware/esp32-s2/wheels.cpp:108-115 | stop, then record and drive motor 1 only |
| WheelControl.Wheels.Right | code/hardware/esp32-s2/wheels.cpp:117-124 | stop, then record and drive motor 2 only |
| WheelControl.Wheels.HardLeft | code/hardware/esp32-s2/wheels.cpp:126-135 | stop, then record and drive the motors in opposite senses |
| WheelControl.Wheels.HardRight | code/hardware/esp32-s2/wheels.cpp:137-146 | stop, then record and drive the motors in the other opposite senses |
| Arduino.ElapsedAcrossWrap | code/hardware/esp32-s2/wheels.cpp:70 | `millis() - t` computed in 32-bit unsigned arithmetic is the true elapsed time across a wrap |
| Arduino.RunStepsReachTarget | code/hardware/esp32-s2/cam_angles.cpp:54-57 | as many due runs as the distance to go bring a stepper onto its target |
| CameraGimbal.AngleToStepsWithinOneStep | code/hardware/esp32-s2/cam_angles.cpp:25-27 | the step count is less than one step from the exact share of a turn and never on the other side of zero |
| CameraGimbal.StepsToAngleAsWrittenDropsPartialTurns | code/hardware/esp32-s2/cam_angles.cpp:30-32 | as written every position short of a full turn reads as 0 degrees |
| CameraGimbal.HalfTurnReadsAsZero | code/hardware/esp32-s2/cam_angles.cpp:25-32 | 180° is 1024 steps on a 2048-step motor, read back as 0° as written and as 180° when corrected |
| CameraGimbal.StepsToAngleInvertsAngleToSteps | code/hardware/esp32-s2/cam_angles.cpp:25-32 | the corrected conversion reads an angle's steps back within one step's angle of it |
| CameraGimbal.CamAngles.constructor | code/hardware/esp32-s2/cam_angles.cpp:5-13 | both steppers at home; the steps per revolution stored |
| CameraGimbal.CamAngles.MoveToAngles | code/hardware/esp32-s2/cam_angles.cpp:35-46 | the two targets become the step counts of the two angles, positions unchanged |
| CameraGimbal.CamAngles.IsMoving | code/hardware/esp32-s2/cam_angles.cpp:49-51 | true iff either stepper has distance to go |
| CameraGimbal.CamAngles.Update | code/hardware/esp32-s2/cam_angles.cpp:54-57 | both steppers run |
| CameraGimbal.CamAngles.Stop | code/hardware/esp32-s2/cam_angles.cpp:60-63 | both steppers brake |
| CameraGimbal.CamAngles.StepsToAngle | code/hardware/esp32-s2/cam_angles.cpp:30-32 | corrected: `angle · stepsPerRevolution = steps · 360` |
| CameraGimbal.GimbalSettlesAtAngles | code/hardware/esp32-s2/cam_angles.cpp:35-57 | after enough updates both motors stand still, each within one step's angle of its commanded angle |
| ArmControl.StepsRoundTrip | code/hardware/esp32-s2/arm.cpp:64-79 | the angles `stop` reads back from the step targets of `setPos` are within one motor step of the commanded angles |
| ArmControl.InitAngleAsWrittenVanishes | code/hardware/esp32-s2/arm.cpp:6 | as written `INIT_ANGLE` is 0, so an elbow at its 5° rest angle is sent 27 steps away |
| ArmControl.InitAngleIsElbowHome | code/hardware/esp32-s2/arm.cpp:65 | corrected, the 5° rest angle is step 0 of the elbow and step 0 reads back as 5° |
| ArmControl.SqrtDecidesReach | code/hardware/esp32-s2/arm.cpp:54 | with an exact square root the check refuses exactly the points farther than `a1 + a2` = 80 |
| ArmControl.InReachIffCosineValid | code/hardware/esp32-s2/arm.cpp:54-57 | a point passes the reach check iff the cosine handed to `acos` lies in [−1, 1] |
| ArmControl.FoldElbowRange | code/hardware/esp32-s2/arm.cpp:103-107 | the fold keeps an angle in [0, π] and maps [−π, 2π] into [0, π] |
| ArmControl.ElbowAngleInRange | code/hardware/esp32-s2/arm.cpp:101-110 | whenever `acos` answers within [−π, 2π], the computed elbow angle lies in [0, π] |
| ArmControl.ReachCheckAsWrittenLooksBack | code/hardware/esp32-s2/arm.cpp:54-60 | as written (500, 500) is accepted from home and stored, then the reachable (10, 40) is refused |
| ArmControl.HomeAcceptsAnyPoint | code/hardware/esp32-s2/arm.cpp:54-60 | as written, from home any point is accepted and stored |
| ArmControl.StoredPointDecides | code/hardware/esp32-s2/arm.cpp:54-57 | as written, once an unreachable point is stored every point is refused |
| ArmControl.AngleModeAcceptsJointRange | code/hardware/esp32-s2/arm.cpp:44-68 | angle mode accepts iff both angles are in [0, 190]; then the angles become radians and the steppers are aimed; a refusal returns −1 and changes nothing |
| ArmControl.CoordinateModeAcceptsReach | code/hardware/esp32-s2/arm.cpp:53-60 | corrected coordinate mode accepts iff the requested point is within 80; then it stores the point and its angles; a refusal returns −1 and changes nothing |
| ArmControl.StopRecoversAngles | code/hardware/esp32-s2/arm.cpp:72-83 | corrected `stop`: the arm stands still where it is, and, reading the elbow from its rest angle, the angles read back are within one step of those aimed at |
| ArmControl.StopAsWrittenReadsElbowLow | code/hardware/esp32-s2/arm.cpp:65-79 | as written `stop` reads the elbow without the rest angle: exactly the rest angle below the corrected readback, and more than one step away from the angle aimed at |
| ArmControl.ArmSettles | code/hardware/esp32-s2/arm.cpp:91-98 | updates never change angles or point, and enough updates bring both steppers onto their targets |
| ArmControl.Arm.constructor | code/hardware/esp32-s2/arm.cpp:8-21 | x = y = 0, q1 = q2 = 0, steppers at home |
| ArmControl.Arm.SetPosXY | code/hardware/esp32-s2/arm.cpp:35-37 | exactly `setPos(x, y, false)` |
| ArmControl.Arm.SetPos | code/hardware/esp32-s2/arm.cpp:44-69 | the new state and status are `Place` (the corrected `setPos`) |
| ArmControl.Arm.Stop | code/hardware/esp32-s2/arm.cpp:72-83 | the new state is `Halt` with the elbow read from its rest angle (corrected, see Findings) |
| ArmControl.Arm.GetMoving | code/hardware/esp32-s2/arm.cpp:86-88 | true iff either stepper has distance to go |
| ArmControl.Arm.Update | code/hardware/esp32-s2/arm.cpp:91-98 | only steppers with distance to go run |
| ArmControl.Arm.PosToAngles | code/hardware/esp32-s2/arm.cpp:101-110 | the angles become the inverse kinematics of the stored point |
| ArmControl.Arm.AngleToPos | code/hardware/esp32-s2/arm.cpp:113-116 | the point becomes the forward kinematics of the angles, truncated to integers |
| LedStrip.Rainbow | code/hardware/esp32-s2/led.cpp:56-58 | one colour per LED, the first LED at the base hue |
| LedStrip.RainbowShiftsByTen | code/hardware/esp32-s2/led.cpp:56-58 | LED i+1 shows what LED i shows ten hues later |
| LedStrip.RainbowRepeatsAfter128 | code/hardware/esp32-s2/led.cpp:56-58 | the 8-bit hue makes the pattern repeat every 128 LEDs |
| LedStrip.HueCountsTens | code/hardware/esp32-s2/led.cpp:59-62 | with no wrap of `hue1`, k updates advance `hue1` by k and `hue` by the multiples of ten crossed, modulo 256 |
| LedStrip.TenUpdatesOneHue | code/hardware/esp32-s2/led.cpp:59-62 | from a multiple of ten, ten updates advance `hue` by exactly one |
| LedStrip.CountWrapShortensHueStep | code/hardware/esp32-s2/led.cpp:59-62 | at the 8-bit wrap of `hue1` (250 → 0) `hue` advances after only six updates |
| LedStrip.FlashRestoresSteadyColour | code/hardware/esp32-s2/led.cpp:28-54 | a flash shows its colour until more than `duration` ms have passed, then the stored colour again, across a `millis()` wrap too |
| LedStrip.FlashResumesRainbow | code/hardware/esp32-s2/led.cpp:28-64 | a flash freezes the rainbow until it ends, then the rainbow resumes from the same hue |
| LedStrip.SecondFlashForgetsRainbow | code/hardware/esp32-s2/led.cpp:34-35 | a second flash during a flash over the rainbow records the rainbow as off, so the stored colour comes back instead |
| LedStrip.Led.constructor | code/hardware/esp32-s2/led.cpp:8-12 | a buffer of `numLeds` colours; hue counters 0, no flash, no rainbow |
| LedStrip.Led.Paint | code/hardware/esp32-s2/led.cpp:23-25 | every LED gets the colour |
| LedStrip.Led.PaintRainbow | code/hardware/esp32-s2/led.cpp:56-58 | the buffer becomes the rainbow at the current hue |
| LedStrip.Led.Show | code/hardware/esp32-s2/led.cpp:39-41 | the strip shows the buffer |
| LedStrip.Led.SetAll | code/hardware/esp32-s2/led.cpp:18-26 | rainbow off, colour stored, every LED set to it |
| LedStrip.Led.Flash | code/hardware/esp32-s2/led.cpp:28-37 | flash colour painted and shown; the stored colour untouched; rainbow mode saved then turned off; duration and start recorded |
| LedStrip.Led.Update | code/hardware/esp32-s2/led.cpp:43-65 | the new state is `Updated`: expiry of the flash, then a rainbow step |
| LcdDisplay.WindowIsSlice | code/hardware/esp32-s2/display.cpp:92-94 | `substring(i, i+16)` is the text from i, at most 16 characters, empty past the end |
| LcdDisplay.WindowedShows | code/hardware/esp32-s2/display.cpp:72-74 | each row shows its text's 16-character window from the index, blank-padded |
| LcdDisplay.PrintShortText | code/hardware/esp32-s2/display.cpp:28-36 | text shorter than 16 goes on the top row only, bottom blank, marquee texts dropped |
| LcdDisplay.PrintTwoRows | code/hardware/esp32-s2/display.cpp:37-41 | text of 16 to 31 characters: chars 0–15 on the top row, the rest on the bottom |
| LcdDisplay.PrintLongText | code/hardware/esp32-s2/display.cpp:42-45 | text of 32 or more starts the marquee: the first 16 characters shown, index 1, `ms = now` |
| LcdDisplay.DrawBar | code/hardware/esp32-s2/display.cpp:56-62 | the 16-cell loop prints the bar cells |
| LcdDisplay.BlocksProportional | code/hardware/esp32-s2/display.cpp:52 | for 0–100 % the block count is `p·16/100` rounded down, in [0, 16], and monotone |
| LcdDisplay.BarCellsFill | code/hardware/esp32-s2/display.cpp:52-62 | cell i is a full block iff i < blocks; all full from 100 %, all blank at 0 % and below |
| LcdDisplay.ProgressBarRow | code/hardware/esp32-s2/display.cpp:48-63 | the bar fills exactly the bottom row, the top row keeps what the caption left, the cursor ends after the bar |
| LcdDisplay.SecondLabelIsHidden | code/hardware/esp32-s2/display.cpp:49-55 | a second progress bar's caption lands in hidden columns; only the bar changes |
| LcdDisplay.FloatTimerStallsAfterWrap | code/hardware/esp32-s2/display.cpp:88 | as written, with `ms` stored just before the `millis()` wrap, no later time is ever due |
| LcdDisplay.ScrollDueAcrossWrap | code/hardware/esp32-s2/display.cpp:88 | corrected, a step is due exactly when more than 500 ms have passed, across the wrap too |
| LcdDisplay.RefreshShowsWindow | code/hardware/esp32-s2/display.cpp:86-102 | when due and some text is set: the windows at the index shown, the index advanced, `ms = now`; otherwise nothing changes |
| LcdDisplay.NextIndexCycles | code/hardware/esp32-s2/display.cpp:95-99 | within the longer text the index advances modulo its length |
| LcdDisplay.MarqueeCycles | code/hardware/esp32-s2/display.cpp:86-102 | k scroll steps move the index by k modulo the longer text's length |
| LcdDisplay.PrintKeepsInvariant | code/hardware/esp32-s2/display.cpp:28-84 | `print` and `clear` keep the LCD well formed, the cursor visible and the index within the texts |
| LcdDisplay.ScrollKeepsInvariant | code/hardware/esp32-s2/display.cpp:65-77 | `scroll` keeps the invariant |
| LcdDisplay.ProgressBarKeepsInvariant | code/hardware/esp32-s2/display.cpp:48-63 | `printProgressBar` keeps the invariant |
| LcdDisplay.RefreshKeepsInvariant | code/hardware/esp32-s2/display.cpp:86-102 | a scroll step keeps the invariant; a moved index is 0 or within the longer text |
| LcdDisplay.Display.constructor | code/hardware/esp32-s2/display.cpp:5-13 | blank LCD, `ms = 0`, index 0, no texts |
| LcdDisplay.Display.Print | code/hardware/esp32-s2/display.cpp:28-46 | the new state is `Printed` |
| LcdDisplay.Display.PrintProgressBar | code/hardware/esp32-s2/display.cpp:48-63 | the new state is `WithProgressBar` |
| LcdDisplay.Display.Scroll | code/hardware/esp32-s2/display.cpp:65-77 | the new state is `Scrolled`: both texts stored, windows from 0 shown, index 1, `ms = now` |
| LcdDisplay.Display.Clear | code/hardware/esp32-s2/display.cpp:79-84 | both texts emptied and the LCD blank |
| LcdDisplay.Display.Update | code/hardware/esp32-s2/display.cpp:86-102 | the new state is `Refreshed`, with the corrected 32-bit timer |

## Left out

- Threads and the lock of the UDP receiver, `asyncio`, and Tk `after` scheduling. The fetch loop is a sequence of events, so interleavings are not modelled.
- `start_moving` in `navigator.py` only defines an inner function that nothing calls.
- `turn_on_tracker` in `ss8.py` never calls its inner function.
- `get_top_cam_angle` in `ss8.py` only forwards to `_send_req`.
- The video loop of `fake_init_udp_connection` is not modelled. `connect` receives whether the test video was found; `capture_image` receives the stored frame.
- The `setup()` methods of the firmware are not modelled: pin modes, stepper speeds and accelerations, `lcd.begin` and `createChar`, FastLED registration and PWM duty cycles. The display constructor is taken as the cleared screen that `setup` leaves.
- Serial logging and every `print`.
- Floating-point rounding, including the precision `millis()` loses in a `float`. `pow(x, 2)` is taken as an exact square.
- Arduino.Stepper never overshoots: a stepper retargeted while moving is taken to step straight toward its new target, without AccelStepper's deceleration past it.
- AccelStepper speed profiles. Whether a step is due in a `run()` is an input, and the braking distance of `stop()` is an input. `Arm::stop`'s temporary acceleration change is not modelled.
- A JSON `null` reply body is not distinguished from a parsed value.
- `requests`' chunking is not modelled: each chunk is exactly 1024 bytes, the last one shorter.
- `WIFI_CONTROLLER` and the `__main__` blocks of `webserver.py` and `arm_positions.py` are not modelled.
- The error handlers of `get_frame` end in `Raised`, since `time` is not imported there.
- HttpStream.Esp32Cam.constructor: requires that some response answers 200. The source retries forever otherwise, and a never-ending constructor is not modelled.
- MotionApi.SS8.Connect: requires that the two receivers are distinct objects, which the constructor guarantees.
- Declarations in `wheels.h` with no definition in `wheels.cpp` are not modelled: `forward_cm`, `backward_cm`, `hard_left_angle`, `hard_right_angle`, `setDutyCycle` and `updateDistancePerSecond`.
- The headers' disagreements with their sources are not modelled. These are the `arm.h` constructor and conversion names, and `cam_angles.h`'s `stepsToAngle(int axis)`. The `.cpp` definitions are modelled.
- LCD texts are sequences of characters, while Arduino's `String` holds bytes: a multi-byte character would take several columns on the device.
- The LCD is the 2x16 visible glass plus a cursor. Characters written beyond column 15 are not stored. The 40-column line wrap of the controller's memory is not reached, because the cursor never passes column 32.
- The `CRGB` buffer's initial contents are indeterminate; the model starts it black. `r` and `g` in `led.h` are uninitialised, so the constructor takes them as inputs.
- `long` overflow of `currentPosition() * 2` in `Arm::stop` is not modelled.
- LcdDisplay.BarCellsFill: the full-bar and empty-bar cases are stated only for |percentage| below 2^27, because `percentage * 16` overflows a 32-bit `long` beyond that. The overflow itself is modelled as a wrap.
- Navigation.Navigator.NextDeplacement: the bearing to the object is an input. The code's `np.tan` of a vector is not a bearing. The obstacle list is read for the undefined `self.obstacle`. The robot's position is never updated, because nothing in `navigator.py` or `ss8.py` updates it.
- Navigation.Navigator.NextDeplacement: within 0.1 of the aimed waypoint `get_contribution` returns the integer array `[0, 0]`, and the `+=` of a float obstacle contribution (`navigator.py:44`) then raises a casting error; the model adds exact reals instead.
- Navigation.StepAlongHasStepLength: the exact step length is stated under an exact square root (`SqrtSound`).
- ArmPath.PathHasNPoints: stated under an exact square root (`SqrtSound`), so that the vertical share is exactly 22 over the total length.
- `GetFrame` reads the stream through local copies, so no aliasing between the buffer and the body is modelled.

## Findings

| source | as written | input that shows it | evidently intended | confidence | as-written member | corrected member |
|---|---|---|---|---|---|---|
| code/software/controllers/navigator.py:20-71 | `self.pos`, `np.tan(...)` compared with a float, and `np.PI` make `set_circle_trajectory`, `_get_next_deplacement` and `_mov_of` raise on every call | a fresh navigator, `set_circle_trajectory(10, 4)`, a bearing of 0 | a four-waypoint circle, then a 5 cm step, then rotate-left and forward commands | not executed; high | Navigation.AsWrittenNavigatorNeverSteps | Navigation.CircleTrajectoryCount |
| code/software/controllers/ss8.py:37-38 | `UDPReceiver(12346, "0.0.0.0")` passes the port as the controller and the interface text as the port, so `bind` raises | `connect()` with a camera receiver enabled and no test video | bind the given port on all interfaces | not executed; high | MotionApi.ReceiversAsWrittenNeverBind | MotionApi.SS8.Connect |
| code/hardware/esp32-s2/cam_angles.cpp:30-32 | `steps / stepsPerRevolution` is integer division, so partial turns read as 0° | 1024 steps on a 2048-step motor read as 0° | 180°, the inverse of `angleToSteps` | not executed; high | CameraGimbal.HalfTurnReadsAsZero | CameraGimbal.StepsToAngleInvertsAngleToSteps |
| code/hardware/esp32-s2/arm.cpp:54 | the reach check tests the stored `x, y` of the previous call, not the requested `_x, _y` | from home `setPos(500, 500)` is accepted, then `setPos(10, 40)` is refused | accept exactly the requested points within `a1 + a2` | not executed; high | ArmControl.ReachCheckAsWrittenLooksBack | ArmControl.CoordinateModeAcceptsReach |
| code/hardware/esp32-s2/arm.cpp:6 | `INIT_ANGLE` expands to `5 / 180 * PI`, which is 0 by integer division | `setPos(0, 5, true)` aims the elbow 27 steps away instead of at step 0 | an elbow offset of 5° in radians | not executed; medium | ArmControl.InitAngleAsWrittenVanishes | ArmControl.InitAngleIsElbowHome |
| code/software/controllers/navigator.py:87-108 | `dist = pos − self.pos` points from the force point to the robot, so a positive force, documented as an object to reach, pushes the robot away | a waypoint of force 1 at (10, 0), the robot at the origin: the contribution is (−0.1, 0) | `dist = self.pos − pos`, so the step approaches the waypoint | not executed; high | Navigation.AsWrittenStepRecedes | Navigation.CorrectedStepApproachesWaypoint |
| code/software/controllers/navigator.py:35-39 | the comment aims at the waypoint with the closest angle above the bearing, but `pop(0)` returns the head it removes and the loop tests that, so once it pops at all it also pops the first waypoint at or above the bearing and aims one further | waypoints at 0°, 90°, 180°, 270° and a bearing of 45°: 0° and 90° are popped and 180° is aimed at | pop only the waypoints below the bearing and aim at 90° | not executed; high | Navigation.AsWrittenAimsPastClosest | Navigation.SkipBelowAimsAtClosestAbove |
| code/hardware/esp32-s2/arm.cpp:79 | `q2` is read back as `currentPosition() · 2π / 2000` with no rest angle, while `setPos` (`arm.cpp:65`) counts the elbow's steps from `INIT_ANGLE` | once `INIT_ANGLE` is 5°, `setPos(0, 90, true)` then `stop()` reads the elbow back as about 85° | add `INIT_ANGLE` back when reading the elbow | not executed; medium | ArmControl.StopAsWrittenReadsElbowLow | ArmControl.StopRecoversAngles |
| code/hardware/esp32-s2/display.cpp:88 | `ms` is a `float` (`display.h:21`), so after `millis()` wraps `millis() - ms` is negative and scrolling stops for good | `ms` stored at 2^32 − 400, then `millis()` = 101 | the 32-bit unsigned difference, due 501 ms later | not executed; high | LcdDisplay.FloatTimerStallsAfterWrap | LcdDisplay.ScrollDueAcrossWrap |
