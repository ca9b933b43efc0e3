# PX4 SITL Gazebo plugins: decision and bookkeeping logic

This project models, in Dafny, the per-tick logic of the PX4 software-in-the-loop
Gazebo plugins. Each plugin wakes up once per frame, world update or ROS message.
It runs a short piece of sequential logic that can be stated with integers and reals:

- a rate gate;
- a FIFO delay line;
- a three-slot PID history;
- a clamp or a selection;
- a message mapping.

Simulation time is held as whole microseconds or nanoseconds (`int`). Doubles are `real`.
Normal-distribution draws, camera data, square roots, clocks and the simulator's state
are method parameters. π is the constant `Common.PI`.

There is one module per source file:

| module | source file | form |
|---|---|---|
| `OpticalFlow` | src/gazebo_opticalFlow_plugin.cpp | class for the plugin; the record is a pure function |
| `GpsPlugin` | src/gazebo_gps_plugin.cpp | class with the delay buffer as a `seq`, pruned by a `while` loop and specified by `Prune` |
| `Pid` | include/PID.h | class with three `array<real>` histories, shifted in place |
| `GimbalController` | src/gazebo_gimbal_controller_plugin.cpp | loop methods for angle folding; classes for the controller and the function-static counter |
| `HilInterface` | src/gazebo_hil_interface.cpp | class for the unsigned-nanosecond GPS gate; pure message builders |
| `RosInterface` | src/gazebo_ros_interface.cpp | class for `ConnectHelper` over a shared registry object; pure stamps and callbacks |
| `LidarPlugin` | src/gazebo_lidar_plugin.cpp | class; name splitting and link search as functions and loop methods |
| `VisionPlugin` | src/gazebo_vision_plugin.cpp | class whose covariance lists grow inside a 36-step `for` loop |
| `GpsOriginPlugin` | src/gazebo_gps_origin_plugin.cpp | class; pure precedence and degree/radian functions |
| `WindPlugin` | src/gazebo_wind_plugin.cpp | class; pure gust-window test |
| `LtaAerodynamics` | src/gazebo_lta_aerodynamics_plugin.cpp | pure functions |

`Common` holds:

- the vector type;
- `Option`;
- `FloatValue`, the result of a double division, which is infinite or NaN when the divisor is zero;
- the Gauss–Markov bias step that the GPS and vision plugins share.

Where a plugin has a `GAZEBO_MAJOR_VERSION` branch, the `>= 9` branch is the one modelled.

## Model

| member | source | states |
|---|---|---|
| Common.Divide | src/gazebo_opticalFlow_plugin.cpp:131 | a double division is a finite number exactly when the divisor is non-zero, and then it is the quotient |
| Common.BiasStep | src/gazebo_gps_plugin.cpp:237-239 | with a zero random-walk sample the bias only decays by the factor 1 − 1/τ per step |
| OpticalFlow.FrameInterval | src/gazebo_opticalFlow_plugin.cpp:162 | dt = 1/rate: for a non-zero rate a finite dt with dt·rate = 1; a zero rate gives a non-finite dt (no guard) |
| OpticalFlow.Microseconds | src/gazebo_opticalFlow_plugin.cpp:177 | dt·10^6 is finite exactly when dt is, and then it is 10^6·dt |
| OpticalFlow.BuildRecord | src/gazebo_opticalFlow_plugin.cpp:162-186 | time_usec, the three gyro integrals, time_delta_distance_us and distance are 0; sensor_id is 2 and temperature is 20; quality and the integrated x/y are exactly the estimator's; integration_time_us is 10^6/rate, and non-finite when rate is 0 (no guard) |
| OpticalFlow.FrameEventsCounts | src/gazebo_opticalFlow_plugin.cpp:164-189 | one frame publishes exactly one record and stops and then starts the timer once |
| OpticalFlow.PublishesConcat | src/gazebo_opticalFlow_plugin.cpp:188 | the publish count of a history is additive over concatenation |
| OpticalFlow.TimerEventsConcat | src/gazebo_opticalFlow_plugin.cpp:164-189 | the timer events of a history are additive over concatenation |
| OpticalFlow.StopStartLength | src/gazebo_opticalFlow_plugin.cpp:164-189 | n stop/start pairs are 2n timer events |
| OpticalFlow.FramesPublishOnce | src/gazebo_opticalFlow_plugin.cpp:154-189 | after n frames, exactly n records have been published and the timer has seen 2n events, alternating stop and start |
| OpticalFlow.OpticalFlowPlugin.constructor | src/gazebo_opticalFlow_plugin.cpp:102-140 | nothing is connected or active before Load, and the history is empty |
| OpticalFlow.OpticalFlowPlugin.Load | src/gazebo_opticalFlow_plugin.cpp:102-140 | the size error is logged iff width or height ≠ 64; the frame callback is connected and the sensor activated anyway; focal_length = (width div 2)/tan(hfov/2), and the estimator is created with it |
| OpticalFlow.OpticalFlowPlugin.OnNewFrame | src/gazebo_opticalFlow_plugin.cpp:154-189 | rate is the reported FPS and dt = 1/rate; the stored message is the record for this frame; the history grows by stop, calcFlow, publish, start; the counting invariant is kept |
| GpsPlugin.SampleNoise | src/gazebo_gps_plugin.cpp:226-234 | with noise off all nine noise and random-walk components are exactly 0; with noise on each is density·sqrt(dt)·draw |
| GpsPlugin.QuietBiasStaysZero | src/gazebo_gps_plugin.cpp:226-239 | with noise off a zero bias stays zero |
| GpsPlugin.Reproject | src/gazebo_gps_plugin.cpp:393-409 | at zero horizontal offset the result is exactly (lat_home, lon_home) |
| GpsPlugin.Accuracy | src/gazebo_gps_plugin.cpp:246-262 | with noise off eph/epv are the configured values; with noise on eph is the smaller of std_x + d² and std_y + d², and epv = std_z + d_z |
| GpsPlugin.Prune | src/gazebo_gps_plugin.cpp:340-357 | the pop loop stops only at an empty buffer or at one whose front is at most delay old and whose size is at most the maximum; so a pruned buffer is not pruned further at the same time |
| GpsPlugin.PruneIsSuffix | src/gazebo_gps_plugin.cpp:340-357 | pruning only pops from the front: the result is a suffix of the buffer |
| GpsPlugin.PruneBounds | src/gazebo_gps_plugin.cpp:340-357 | if the newest message is young enough and the maximum size is ≥ 1: the result is non-empty, ends with the newest message, has a front of age ≤ delay and length ≤ the maximum |
| GpsPlugin.PruneReadsAreSafe | src/gazebo_gps_plugin.cpp:269-356 | after pushing an age-0 message, with delay ≥ 0 and maximum size ≥ 1, pruning never empties the queue, so every front() read is safe |
| GpsPlugin.PopStale | src/gazebo_gps_plugin.cpp:340-357 | the `while (true)` loop leaves exactly Prune's result, a non-empty suffix of the pushed buffer that ends with the new message, with front age ≤ delay and size ≤ max; the message it returns is that front |
| GpsPlugin.LoadAccuracyAsWritten | src/gazebo_gps_plugin.cpp:77-90 | as written: when an "epv" element is present, epv_ is never assigned |
| GpsPlugin.ConfiguredEpvIsIgnored | src/gazebo_gps_plugin.cpp:85-86 | a configured epv of 3 without eph leaves eph at its default and epv unset |
| GpsPlugin.LoadAccuracy | src/gazebo_gps_plugin.cpp:77-90 | corrected: eph and epv each come from their own element, else the default |
| GpsPlugin.GpsPlugin.constructor | src/gazebo_gps_plugin.cpp:77-90 | eph/epv as in the corrected reading; the last times are the load time; the bias and the buffer start empty |
| GpsPlugin.GpsPlugin.Stamp | src/gazebo_gps_plugin.cpp:226-269 | the noise is SampleNoise of the draws, the bias takes one BiasStep with that random walk, the message is built from position, velocity, noise and bias, and exactly that message is pushed at the back; the last times and the published list are unchanged |
| GpsPlugin.GpsPlugin.OnUpdate | src/gazebo_gps_plugin.cpp:203-390 | each update samples the noise, steps the bias with dt, and pushes exactly one message at the back. If and only if now − last_gps_time > interval (strict): the buffer becomes its pruned form (a non-empty suffix ending in the new message, front age ≤ delay, size ≤ max), that front is published, and last_gps_time := now. Otherwise the buffer is just the pushed one and nothing is published. last_time := now always |
| Pid.Coefficients | include/PID.h:21-33 | c[1] = c[0] + c[2] (the output terms cancel) and c[3] + c[4] + c[5] = Ts²/Ti (the integral gain) |
| Pid.Saturate | include/PID.h:52-58 | above maxTh becomes maxTh; otherwise below minTh becomes minTh; the result is ≤ maxTh, and within [minTh, maxTh] whenever minTh ≤ maxTh |
| Pid.ZeroErrorHoldsOutput | include/PID.h:28-50 | with zero error the difference equation holds a steady output |
| Pid.ConstantErrorIntegrates | include/PID.h:28-50 | for any coefficients with the two sums Coefficients guarantees (c[1] = c[0] + c[2], c[3] + c[4] + c[5] = Ts²/Ti), a constant error moves a steady output by Kp·(Ts²/Ti)·e/c[0] per step |
| Pid.Pid.constructor | include/PID.h:19-34 | Ti = Kp/Ki, Td = Kd/Kp, all histories zero, c as Coefficients |
| Pid.Pid.Update | include/PID.h:38-60 | y and y_bar are shifted with the new values in front; u[1], u[2] get the old u[0], u[1]; the result is the saturated difference-equation value and is stored in u[0]; c is unchanged; the result lies in [minTh, maxTh] when minTh ≤ maxTh |
| GimbalController.NormalizeAbout | src/gazebo_gimbal_controller_plugin.cpp:497-510 | the result minus the reference lies in (−π, π]; it differs from the angle by a whole number of turns; it equals the angle when the angle is already within range |
| GimbalController.ShortestAngularDistance | src/gazebo_gimbal_controller_plugin.cpp:513-516 | the distance lies in (−π, π] and equals to − from up to whole turns |
| GimbalController.Clamp | src/gazebo_gimbal_controller_plugin.cpp:368-403 | with lo ≤ hi: below lo becomes lo, above hi becomes hi, values in [lo, hi] are unchanged, so the result is in [lo, hi]; with hi < lo the result is lo |
| GimbalController.LimitError | src/gazebo_gimbal_controller_plugin.cpp:368-403 | the clamped error keeps current − error within the joint limits, whichever order the limits come in |
| GimbalController.SelectError | src/gazebo_gimbal_controller_plugin.cpp:422-448 | whichever branch is taken, the error is current − command |
| GimbalController.StatusMessages | src/gazebo_gimbal_controller_plugin.cpp:479-492 | the stream is never cleared: the second message is pitch then roll, and the third is the second then yaw |
| GimbalController.CounterCycle | src/gazebo_gimbal_controller_plugin.cpp:475-478 | from 1000 the counter publishes on the first counted call and then on every 101st |
| GimbalController.StatusCounter.constructor | src/gazebo_gimbal_controller_plugin.cpp:475 | the static counter starts at 1000 |
| GimbalController.StatusCounter.Tick | src/gazebo_gimbal_controller_plugin.cpp:475-492 | publishes iff ++i > 100, then resets to 0; publishes iff the call number is 1 mod 101 |
| GimbalController.GimbalController.constructor | src/gazebo_gimbal_controller_plugin.cpp:35-37 | commands start at pitch π/2, roll 0, yaw 0; the last update time is the load time |
| GimbalController.GimbalController.AxisError | src/gazebo_gimbal_controller_plugin.cpp:353-448 | the per-axis error after folding, clamping and selection is current − command |
| GimbalController.GimbalController.OnUpdate | src/gazebo_gimbal_controller_plugin.cpp:279-493 | a missing joint changes nothing. time < last: last := time and return before the counter. time == last: no control step, counter runs. time > last: one step with dt = last − time < 0 and errors current − command, last := time, counter runs. Whenever the counter runs, the three status messages are published exactly when the counted call number is 1 mod 101, and nothing else is published |
| HilInterface.GpsIntervalNsec | src/gazebo_hil_interface.cpp:56 | the interval is 10^9/gps_freq truncated toward zero |
| HilInterface.DefaultGpsInterval | src/gazebo_hil_interface.cpp:24-56 | the default 5 Hz gives 200,000,000 ns |
| HilInterface.WrapSub | src/gazebo_hil_interface.cpp:107 | uint64 subtraction: a − b when b ≤ a, else wraps by 2^64 |
| HilInterface.FixType | src/gazebo_hil_interface.cpp:112 | fix type is 3 iff status > STATUS_NO_FIX, else 0 |
| HilInterface.BuildHilGps | src/gazebo_hil_interface.cpp:111-123 | eph = epv = 100, cog = 65535, satellites = 4, position copied, (vn, ve, vd) = ground velocity, vel its length |
| HilInterface.BuildHilSensor | src/gazebo_hil_interface.cpp:168-182 | abs_pressure passes through; temperature is 15 and fields_updated is 4095; acc/gyro/mag are copied |
| HilInterface.BuildHilState | src/gazebo_hil_interface.cpp:225-243 | ind and true airspeed are both the length of the air velocity; linear acceleration is the IMU acceleration × 9.8068 |
| HilInterface.HilInterfaceNode.constructor | src/gazebo_hil_interface.cpp:56 | the interval is GpsIntervalNsec(gps_freq); the last publish time is arbitrary (uninitialised) |
| HilInterface.HilInterfaceNode.HilGpsPubCallback | src/gazebo_hil_interface.cpp:107-127 | iff (now − last) mod 2^64 ≥ interval, last := now and one HIL_GPS is published; otherwise no state changes |
| HilInterface.HilInterfaceNode.HilControlsCallback | src/gazebo_hil_interface.cpp:249-264 | actuators.normalized is exactly [roll_ailerons, pitch_elevator, yaw_rudder, aux1, aux2, throttle] |
| RosInterface.StampFromUsec | src/gazebo_ros_interface.cpp:284 | nsec < 10^9, and sec fits 32 bits |
| RosInterface.StampIsExact | src/gazebo_ros_interface.cpp:284-365 | below 2^32 s, sec·10^9 + nsec = usec·1000 and sec = usec div 10^6 |
| RosInterface.Connect | src/gazebo_ros_interface.cpp:186-212 | first wins: a duplicate topic keeps the existing entry and logs an error; a new topic adds its entry; either way exactly one subscriber is appended, bound to the map's entry |
| RosInterface.ConnectAllSubscribers | src/gazebo_ros_interface.cpp:207-212 | n ConnectHelper calls append exactly n subscribers, in order, for their own topics, duplicates included |
| RosInterface.ConnectAllKeepsEntries | src/gazebo_ros_interface.cpp:192-203 | an entry already in the map is never replaced |
| RosInterface.ConnectAllKeys | src/gazebo_ros_interface.cpp:192-203 | the map ends up holding exactly the old keys and the requested ones |
| RosInterface.ConnectAllConcat | src/gazebo_ros_interface.cpp:79-155 | connecting a then b is connecting a + b |
| RosInterface.Appended | src/gazebo_ros_interface.cpp:186-212 | connecting one more request is one more Connect step |
| RosInterface.PluginRequest | src/gazebo_ros_interface.cpp:82-112 | a bridge is requested iff the plugin file is the GPS, IMU or barometer plugin, with the GPS topics "~/model/gps" and "/gazebo/model/gps" |
| RosInterface.IRLockRequest | src/gazebo_ros_interface.cpp:125-132 | IRLock messages from "~/" + model + "/camera/link/irlock" go to the one ROS topic "/gazebo/" + model + "/irlock/data" |
| RosInterface.LidarRequest | src/gazebo_ros_interface.cpp:134-144 | the lidar topic is "~/" + model + "lidar/link/laser/scan", with no separating "/" |
| RosInterface.SonarRequest | src/gazebo_ros_interface.cpp:146-154 | range messages from "~/" + model + "/sonar_model/link/sonar" go to the one ROS topic "/gazebo/" + model + "/sonar/data" |
| RosInterface.JointRequests | src/gazebo_ros_interface.cpp:118-155 | IRLock is bridged iff "irlock_joint" is a joint; lidar iff "lidar_joint" or "sf10a_joint"; sonar iff "sonar_joint" or "mb1240-xl-ez4_joint" |
| RosInterface.CallbackRegistry.constructor | src/gazebo_ros_interface.cpp:192 | the static maps start empty |
| RosInterface.GazeboRosInterface.constructor | src/gazebo_ros_interface.cpp:28-30 | no subscribers yet |
| RosInterface.GazeboRosInterface.ConnectHelper | src/gazebo_ros_interface.cpp:186-213 | the shared map and this instance's subscribers change exactly as Connect says |
| RosInterface.GazeboRosInterface.Load | src/gazebo_ros_interface.cpp:67-157 | the connections are those of every model's plugins and then its joints, in model order |
| RosInterface.GazeboRosInterface.ConnectModel | src/gazebo_ros_interface.cpp:79-155 | one model's plugin bridges (only when its plugin info was obtained), then its joint bridges |
| RosInterface.GazeboRosInterface.ConnectPlugins | src/gazebo_ros_interface.cpp:79-113 | one ConnectHelper per recognised plugin file, in file order |
| RosInterface.GazeboRosInterface.ConnectJoints | src/gazebo_ros_interface.cpp:118-155 | the IRLock, lidar and sonar bridges, in that order, as JointRequests says |
| RosInterface.CopyCovariance | src/gazebo_ros_interface.cpp:241-274 | the 9-entry block is copied index for index |
| RosInterface.ImuToRos | src/gazebo_ros_interface.cpp:215-278 | frame "gz_base_link", stamp from the simulation time; orientation, rates and accelerations copied with their three covariance blocks |
| RosInterface.GpsToNavSatFix | src/gazebo_ros_interface.cpp:280-299 | position_covariance [0] = [4] = eph² and [8] = epv², zero elsewhere; status FIX, service GPS, approximated covariance; stamp split from time_usec |
| RosInterface.BaroToRos | src/gazebo_ros_interface.cpp:301-332 | temperature is published as K − 273.15 with variance 0; pressure and altitude pass through |
| RosInterface.IRLockToRos | src/gazebo_ros_interface.cpp:334-345 | positions and sizes pass through with the split stamp |
| RosInterface.RangeToRos | src/gazebo_ros_interface.cpp:347-373 | ranges pass through. Lidar: infrared with a 3° field of view; sonar: ultrasound with 30° |
| LidarPlugin.MinDistance | src/gazebo_lidar_plugin.cpp:82-90 | a given min_distance is raised to at least the sensor minimum and otherwise kept; a missing one is the default |
| LidarPlugin.MaxDistance | src/gazebo_lidar_plugin.cpp:93-101 | a given max_distance is lowered to at most the sensor maximum and otherwise kept; a missing one is the default |
| LidarPlugin.SplitColons | src/gazebo_lidar_plugin.cpp:106-108 | splitting at every ':' gives at least one piece, no piece contains ':', and a name without ':' is one piece |
| LidarPlugin.SplitJoin | src/gazebo_lidar_plugin.cpp:106-108 | joining the pieces with ':' gives back the scoped name |
| LidarPlugin.NonEmpty | src/gazebo_lidar_plugin.cpp:113-116 | the kept pieces are exactly the non-empty ones, never more than the input; a single piece is kept iff it is non-empty |
| LidarPlugin.NonEmptyConcat | src/gazebo_lidar_plugin.cpp:113-116 | filtering distributes over concatenation, so the kept pieces stay in their input order |
| LidarPlugin.NonEmptyCounts | src/gazebo_lidar_plugin.cpp:113-116 | every non-empty piece is kept as often as it occurs, and no empty piece is kept (multiset equality) |
| LidarPlugin.RemoveEmpty | src/gazebo_lidar_plugin.cpp:113-116 | erase/remove_if leaves the non-empty pieces in order |
| LidarPlugin.FindLink | src/gazebo_lidar_plugin.cpp:129-156 | the first link whose name contains the pattern, or none iff no link does |
| LidarPlugin.ClampReading | src/gazebo_lidar_plugin.cpp:194-201 | below min or infinite becomes min; else above max becomes max; else unchanged. NaN passes through. Given min ≤ max every non-NaN result lies in [min, max] |
| LidarPlugin.PublishedInRange | src/gazebo_lidar_plugin.cpp:82-203 | with the limits Load reads and min ≤ max, every published non-NaN distance lies within the sensor limits |
| LidarPlugin.LidarPlugin.constructor | src/gazebo_lidar_plugin.cpp:47-49 | nothing published yet |
| LidarPlugin.LidarPlugin.Load | src/gazebo_lidar_plugin.cpp:82-177 | limits as MinDistance/MaxDistance; topic "~/" + first piece + "/link/lidar"; root model = first non-empty piece, sensor model = second-to-last. Each failure is exactly characterised: no pieces, no "::base_link" link (throw), fewer than two pieces, no sensor link (throw) |
| LidarPlugin.LidarPlugin.OnNewLaserScans | src/gazebo_lidar_plugin.cpp:190-208 | one message per scan, with the configured limits, the clamped reading, both fields of view 0.0523598776, and the orientation; the limits, the orientation, the topic and both model names are unchanged |
| VisionPlugin.SdfParams | src/gazebo_vision_plugin.cpp:64-97 | missing parameters default to 30 Hz, 60 s, 1.0, 0.0005 and odometry off |
| VisionPlugin.PublishDue | src/gazebo_vision_plugin.cpp:316-318 | for a positive rate, due iff dt·rate > 1; a zero rate never publishes |
| VisionPlugin.RateGate | src/gazebo_vision_plugin.cpp:318 | for a positive rate, dt > 1/rate iff dt·rate > 1 |
| VisionPlugin.RelativePose | src/gazebo_vision_plugin.cpp:331-336 | position = world − start; roll and pitch are the world's; yaw = world yaw − start yaw |
| VisionPlugin.CovarianceBlock | src/gazebo_vision_plugin.cpp:404-416 | 36 entries: entry i is noise_density² iff i ∈ {0,7,14,21,28,35}, else 0 |
| VisionPlugin.BlocksGrow | src/gazebo_vision_plugin.cpp:404-416 | appending one block keeps the per-36 layout |
| VisionPlugin.VisionPlugin.Load | src/gazebo_vision_plugin.cpp:123-178 | the last times are the load time; the start pose is remembered; the update callback is connected iff ROS odometry is off |
| VisionPlugin.VisionPlugin.SetMessage | src/gazebo_vision_plugin.cpp:331-403 | the bias takes one BiasStep with the random-walk sample; orientation is the pose relative to the start; position = relative + noise + bias; velocity = world + noise + bias; angular velocity = rates + noise; usec and last_pub_time := current; the covariance lists and the times are unchanged |
| VisionPlugin.VisionPlugin.AppendCovariances | src/gazebo_vision_plugin.cpp:404-416 | the 36-step loop appends exactly one block to each covariance list, counts one more publication so the 36-per-publication layout is kept, and changes nothing else |
| VisionPlugin.VisionPlugin.Publish | src/gazebo_vision_plugin.cpp:331-418 | bias step b + rw·dt − b/τ; position = relative + noise + bias; velocity = world + noise + bias; one more block on each list (36n entries after n publishes); last_pub_time := current |
| VisionPlugin.VisionPlugin.OnUpdate | src/gazebo_vision_plugin.cpp:180-418 | the current time is recorded; iff dt > 1/pub_rate, exactly the publishing step happens; otherwise the bias, the whole message (usec, position, orientation, both velocities), the covariance lists and last_pub_time are unchanged |
| GpsOriginPlugin.DegToRad | src/gazebo_gps_origin_plugin.cpp:52-64 | rad·180 = deg·π |
| GpsOriginPlugin.RadToDeg | src/gazebo_gps_origin_plugin.cpp:94-95 | deg·π = rad·180, and it undoes DegToRad |
| GpsOriginPlugin.HomeAngle | src/gazebo_gps_origin_plugin.cpp:50-65 | environment value if set, else the SDF element, else unchanged (in degrees) |
| GpsOriginPlugin.HomeAltitude | src/gazebo_gps_origin_plugin.cpp:66-71 | environment value if set, else the SDF element, else unchanged |
| GpsOriginPlugin.PublishedHome | src/gazebo_gps_origin_plugin.cpp:50-96 | a freshly loaded plugin publishes env > sdf > default for each coordinate, in degrees |
| GpsOriginPlugin.GpsOriginPlugin.constructor | include/gazebo_gps_origin_plugin.h:71-76 | defaults 47.397742°, 8.545594°, 488 m; last time 0 |
| GpsOriginPlugin.GpsOriginPlugin.Load | src/gazebo_gps_origin_plugin.cpp:42-81 | each of lat, lon, alt follows HomeAngle/HomeAltitude precedence |
| GpsOriginPlugin.GpsOriginPlugin.OnUpdate | src/gazebo_gps_origin_plugin.cpp:83-101 | publishes iff now − last > 1 s (strict), with time_usec = now and lat/lon in degrees; last advances only then |
| WindPlugin.Normalize | src/gazebo_wind_plugin.cpp:66-67 | a vector longer than the zero tolerance becomes a unit vector along it; a shorter one is left alone |
| WindPlugin.UnitAfterDivide | src/gazebo_wind_plugin.cpp:66-67 | dividing by the length gives a unit vector that scales back to the original |
| WindPlugin.GustActive | src/gazebo_wind_plugin.cpp:112 | active iff start ≤ now < end, a half-open window |
| WindPlugin.Gust | src/gazebo_wind_plugin.cpp:110-114 | zero outside the window; gust_force_mean × direction inside, with no randomness |
| WindPlugin.GustWindow | src/gazebo_wind_plugin.cpp:67-122 | during [start, start + duration) the gust has magnitude gust_force_mean; outside it the force is the wind alone |
| WindPlugin.WindPlugin.constructor | src/gazebo_wind_plugin.cpp:31-83 | nothing is connected before Load connects the update at its end, and no force has been applied or message published |
| WindPlugin.WindPlugin.Load | src/gazebo_wind_plugin.cpp:31-86 | directions are normalised; end = start + duration; Load fails iff the named link is missing, and otherwise connects |
| WindPlugin.WindPlugin.OnUpdate | src/gazebo_wind_plugin.cpp:89-129 | the wind force is always applied and the gust only inside the window; the message carries their sum with usec = now; the connection and the mean wind direction are unchanged |
| LtaAerodynamics.TransformNED2XYZ | src/gazebo_lta_aerodynamics_plugin.cpp:261-267 | component 0 is kept, components 1 and 2 are negated, and the length is preserved |
| LtaAerodynamics.TransformXYZ2NED | src/gazebo_lta_aerodynamics_plugin.cpp:269-275 | the same sign flips |
| LtaAerodynamics.TransformsAreInverse | src/gazebo_lta_aerodynamics_plugin.cpp:261-275 | the two transforms are one map; each is an involution, and they are mutual inverses |
| LtaAerodynamics.AlphaArgument | src/gazebo_lta_aerodynamics_plugin.cpp:332-335 | atan is taken iff w ≥ 1e-6 and u ≥ 1e-6, on the positive w/u; otherwise alpha stays 0 |
| LtaAerodynamics.BetaArgument | src/gazebo_lta_aerodynamics_plugin.cpp:336-338 | asin is taken iff v_total ≥ 1e-6 and v ≥ 1e-6, on v/v_total; otherwise beta stays 0 |
| LtaAerodynamics.BetaArgumentInDomain | src/gazebo_lta_aerodynamics_plugin.cpp:294-338 | when v_total is the length of the transformed velocity, the asin argument always lies in (0, 1] |

## Left out

- Gazebo, ROS and MAVROS plumbing are not modelled:
  - transport nodes, Advertise/Subscribe/Publish;
  - SDF parsing, `getenv` with `std::stod`;
  - sensor casts and event connections.
  Their results are method parameters, or recorded as connected flags and published-message lists.
- Other I/O and concurrency are not modelled: the ROS callback-queue threads and the mutex-protected push, the HIL `MainTask` spin loop, and logging text.
- Random draws (`std::normal_distribution`) are parameters, and so are `sqrt(dt)` and vector lengths. Lengths are tied to their vectors by `IsNorm`.
- Trigonometry, quaternion maths and float physics are not modelled:
  - `tan`, `atan`, `asin`, `exp`;
  - the gimbal `QtoZXY` and IMU orientation;
  - LTA forces and moments;
  - `reproject` beyond the zero-offset case (`Reproject` returns None there);
  - the HIL pressure-altitude and differential-pressure formulas.
- Single-precision rounding is not modelled: `float` fields, `sqrtf`, the `1e-6f` LTA threshold, and hfov cast to float in the optical-flow Load. GPS ages are exact integer microseconds, and times are converted to µs/ns without rounding.
- The optical-flow estimator `OpticalFlowPX4::calcFlow` is not part of this model. Its result is an input of `OnNewFrame`, and nothing is assumed about it. The OpenCV `Mat` wrapping and the `ImageData(0)` fetch are foreign calls.
- OpticalFlow.OpticalFlowPlugin.Load: the topic name built by replacing "::" with "/" in the scoped name is not modelled.
- GpsPlugin.GpsPlugin.constructor: requires correlation time ≠ 0, delay ≥ 0 and maximum buffer size ≥ 1.
  - These are the conditions under which the source's `front()` reads are defined (see `PruneReadsAreSafe`).
  - gps_delay, the buffer size, the update interval and the noise densities come from include/gazebo_gps_plugin.h, which does not match the .cpp file and is not part of this model. They are constructor parameters.
- GpsPlugin.GpsPlugin.constructor: it uses the corrected `LoadAccuracy`; the as-written reading is `LoadAccuracyAsWritten` (see Findings).
- GpsPlugin.Accuracy: the factor τ/sqrtf(2τ − 1) of the random-walk standard deviation (src/gazebo_gps_plugin.cpp:245-247) is the free parameter `stdScale`, so the NaN or infinity the source computes when 2τ − 1 ≤ 0 is not modelled.
- The ROS-build NavSatFix, pose and ground-truth messages of the GPS plugin are not modelled.
- Pid.Pid.constructor: requires Kp ≠ 0 and Ki ≠ 0, because Ti = Kp/Ki and Td = Kd/Kp divide by them; the source divides regardless.
- Pid.Pid.Update: requires c[0] = G + Ts/2 ≠ 0, because the source divides by it regardless.
- The gazebo `common::PID` objects that the gimbal errors feed, and the joint forces they set, are not modelled: a control step is recorded as its dt and its three errors.
- GimbalController: the command-message handlers (OnPitchStringMsg and its roll and yaw counterparts) are not modelled; the commands keep their Load values.
- The `static int i` of the gimbal and the static callback maps of the ROS bridge are objects passed in (`StatusCounter`, `CallbackRegistry`), because they are shared by every plugin instance.
- HilInterface.HilInterfaceNode.constructor: requires gps_freq > 0 and 10^9/gps_freq < 2^64, because the cast to uint64_t is undefined otherwise.
- HilInterface.HilInterfaceNode.HilGpsPubCallback: the header stamp reads `ros::Time::now()` a third time; the model stamps with the second reading.
- HIL_SENSOR, HIL_STATE_QUATERNION and HIL_CONTROLS header stamps, and the attitude quaternion copy, are not modelled.
- RosInterface.StampFromUsec: requires time_usec < 2^64 (the protobuf field is uint64).
- RosInterface.ImuToRos: requires three 9-entry covariance blocks, as the message definition fixes them.
- LidarPlugin: the .cpp clamps with `kSensorMinDistance`, `kSensorMaxDistance`, `kDefaultMinDistance` and `kDefaultMaxDistance` (src/gazebo_lidar_plugin.cpp:84-100), which include/gazebo_lidar_plugin.h does not define; the model takes the values of the header's `SENSOR_MIN_DISTANCE` (0.06), `SENSOR_MAX_DISTANCE` (35), `DEFAULT_MIN_DISTANCE` (0.2) and `DEFAULT_MAX_DISTANCE` (15) macros (include/gazebo_lidar_plugin.h:32-35).
- LidarPlugin.LidarPlugin.Load:
  - the orientation computed from the link poses is an opaque input;
  - the world's model lookup is replaced by the root model's link names;
  - a missing root model (a null pointer) is not modelled.
- VisionPlugin.VisionPlugin.Load: requires correlation time ≠ 0, because the bias update divides by it.
- VisionPlugin.VisionPlugin.Publish:
  - the angular-rate noise, built from `exp` and `sqrt` and one more draw per axis, is an input;
  - orientation is kept as roll/pitch/yaw, without the quaternion conversion.
- VisionPlugin.SdfParams: correlation time, random walk and noise density are read as `float` and widened; the rounding is not modelled.
- The vision plugin's ROS odometry, pose and pose-covariance callbacks (BUILD_ROS_INTERFACE) are not modelled.
- The wind plugin header is not part of this model, so the default gust start, gust duration and topic are parameters. The gust start and duration arrive already converted to nanoseconds.
- UUV, buoyancy and model-reset plugins, and the declaration-only headers, are not part of this model.

## Findings

| source | as written | input that shows it | evidently intended | confidence | as-written member | corrected member |
|---|---|---|---|---|---|---|
| src/gazebo_gps_plugin.cpp:85-90 | when an `epv` element is present, the branch calls `getSdfParam<double>(_sdf, "eph", eph_, eph_)`, re-reading eph into eph_; epv_ is never assigned | SDF with `<epv>3</epv>` and no `<eph>`: eph_ = default, epv_ uninitialised | `getSdfParam<double>(_sdf, "epv", epv_, epv_)`: epv_ = 3 | not executed | GpsPlugin.LoadAccuracyAsWritten, GpsPlugin.ConfiguredEpvIsIgnored | GpsPlugin.LoadAccuracy |
