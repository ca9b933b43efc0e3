/**
 The Gazebo-to-ROS bridge: on Load it looks at every model's plugins and
 joints and connects one Gazebo topic per sensor to a list of ROS
 publishers; the connection keeps one static first-wins map per Gazebo
 message type and appends every subscriber it creates. The message callbacks
 turn Gazebo sensor messages into ROS messages.

 The Gazebo and ROS transports are not modelled: a connection is recorded
 as the registry entry and the subscriber it creates, a callback returns
 the ROS message it would publish. The GAZEBO_MAJOR_VERSION >= 9 branch is
 the one modelled (simulation time read from the world).
 */
module RosInterface {
  import opened Common

  const TwoTo32: int := 0x1_0000_0000
  const TwoTo64: int := 0x1_0000_0000_0000_0000
  const NsecPerSec: int := 1000000000

  /** A ROS header stamp. */
  datatype Stamp = Stamp(sec: int, nsec: int)

  /**
   ros::Time(usec * 1000UL / 10^9, usec * 1000UL % 10^9): the product is an
   unsigned 64-bit value and the constructor takes 32-bit seconds.
   */
  function StampFromUsec(usec: nat): (s: Stamp)
    requires usec < TwoTo64
    ensures 0 <= s.nsec < NsecPerSec && 0 <= s.sec < TwoTo32
  {
    var ns := (usec * 1000) % TwoTo64;
    Stamp((ns / NsecPerSec) % TwoTo32, ns % NsecPerSec)
  }

  /**
   For any time below 2^32 seconds the split is exact: the stamp holds the
   same number of nanoseconds as usec * 1000.
   */
  lemma StampIsExact(usec: nat)
    requires usec < TwoTo32 * 1000000
    ensures var s := StampFromUsec(usec);
      s.sec * NsecPerSec + s.nsec == usec * 1000 && s.sec == usec / 1000000
  {
    var ns := usec * 1000;
    assert ns < TwoTo64;
    assert ns / NsecPerSec == usec / 1000000;
    assert ns / NsecPerSec < TwoTo32;
  }

  // ---------------------------------------------------------------------
  // Connections

  /** The Gazebo message types, each with its own static callback map. */
  datatype MsgType = SitlGpsMsg | ImuMsg | PressureMsg | IRLockMsg | RangeMsg

  datatype Callback = GpsCallback | ImuCallback | BaroCallback | IRLockCallback | LidarCallback | SonarCallback

  /** One ConnectHelper call: message type, callback, Gazebo topic and ROS publisher topics. */
  datatype ConnectRequest = ConnectRequest(msgType: MsgType, callback: Callback, topic: string, rosTopics: seq<string>)

  /** A ConnectHelperStorage: the plugin instance, the callback and its ROS publishers. */
  datatype Entry = Entry(owner: int, callback: Callback, rosTopics: seq<string>)

  /** A Gazebo subscriber, bound to the storage entry its messages go to. */
  datatype Subscription = Subscription(topic: string, entry: Entry)

  /** The static maps, the subscriber list and the count of duplicate-topic errors. */
  datatype BridgeState = BridgeState(
    entries: map<(MsgType, string), Entry>,
    subscribers: seq<Subscription>,
    duplicateErrors: nat)

  function Key(r: ConnectRequest): (MsgType, string) {
    (r.msgType, r.topic)
  }

  /**
   One ConnectHelper: emplace (which keeps an existing entry and reports a
   duplicate), then subscribe to the entry the map holds, and keep the
   subscriber.
   */
  function Connect(s: BridgeState, owner: int, r: ConnectRequest): (t: BridgeState)
    ensures Key(r) in s.entries ==> t.entries == s.entries && t.duplicateErrors == s.duplicateErrors + 1
    ensures Key(r) !in s.entries ==>
      t.entries == s.entries[Key(r) := Entry(owner, r.callback, r.rosTopics)] && t.duplicateErrors == s.duplicateErrors
    ensures Key(r) in t.entries && t.subscribers == s.subscribers + [Subscription(r.topic, t.entries[Key(r)])]
  {
    var isNew := Key(r) !in s.entries;
    var entries := if isNew then s.entries[Key(r) := Entry(owner, r.callback, r.rosTopics)] else s.entries;
    BridgeState(entries, s.subscribers + [Subscription(r.topic, entries[Key(r)])],
                if isNew then s.duplicateErrors else s.duplicateErrors + 1)
  }

  /** A sequence of ConnectHelper calls, in order. */
  function ConnectAll(s: BridgeState, owner: int, rs: seq<ConnectRequest>): BridgeState
  {
    if rs == [] then s else Connect(ConnectAll(s, owner, rs[..|rs| - 1]), owner, rs[|rs| - 1])
  }

  /** Every call adds exactly one subscriber, for its own topic, duplicates included. */
  lemma {:induction false} ConnectAllSubscribers(s: BridgeState, owner: int, rs: seq<ConnectRequest>)
    ensures var t := ConnectAll(s, owner, rs);
      |t.subscribers| == |s.subscribers| + |rs|
      && t.subscribers[..|s.subscribers|] == s.subscribers
      && forall i :: 0 <= i < |rs| ==> t.subscribers[|s.subscribers| + i].topic == rs[i].topic
  {
    if rs != [] {
      var init := rs[..|rs| - 1];
      ConnectAllSubscribers(s, owner, init);
      var m := ConnectAll(s, owner, init);
      var t := Connect(m, owner, rs[|rs| - 1]);
      assert t.subscribers == m.subscribers + [Subscription(rs[|rs| - 1].topic, t.entries[Key(rs[|rs| - 1])])];
      forall i | 0 <= i < |rs|
        ensures t.subscribers[|s.subscribers| + i].topic == rs[i].topic
      {
        if i < |rs| - 1 {
          assert init[i] == rs[i];
        }
      }
    }
  }

  /** First wins: an entry already in the map is never replaced. */
  lemma {:induction false} ConnectAllKeepsEntries(s: BridgeState, owner: int, rs: seq<ConnectRequest>, k: (MsgType, string))
    requires k in s.entries
    ensures var t := ConnectAll(s, owner, rs); k in t.entries && t.entries[k] == s.entries[k]
  {
    if rs != [] {
      ConnectAllKeepsEntries(s, owner, rs[..|rs| - 1], k);
    }
  }

  /** The map ends up holding exactly the old keys and those of the requests. */
  lemma {:induction false} ConnectAllKeys(s: BridgeState, owner: int, rs: seq<ConnectRequest>)
    ensures ConnectAll(s, owner, rs).entries.Keys == s.entries.Keys + set i | 0 <= i < |rs| :: Key(rs[i])
  {
    if rs != [] {
      var init := rs[..|rs| - 1];
      ConnectAllKeys(s, owner, init);
      var old_keys := set i | 0 <= i < |init| :: Key(init[i]);
      var new_keys := set i | 0 <= i < |rs| :: Key(rs[i]);
      assert new_keys == old_keys + {Key(rs[|rs| - 1])} by {
        forall k | k in new_keys ensures k in old_keys + {Key(rs[|rs| - 1])} {
          var i :| 0 <= i < |rs| && k == Key(rs[i]);
          if i < |rs| - 1 {
            assert init[i] == rs[i];
          }
        }
        forall k | k in old_keys ensures k in new_keys {
          var i :| 0 <= i < |init| && k == Key(init[i]);
          assert rs[i] == init[i];
        }
      }
    }
  }

  /** What Load sees of one model: its name, its plugin info and its joints. */
  datatype ModelInfo = ModelInfo(name: string, pluginInfoOk: bool, pluginFiles: seq<string>, joints: seq<string>)

  /** The connection a plugin file asks for, if it is one of the bridged plugins. */
  function PluginRequest(model: string, file: string): (rs: seq<ConnectRequest>)
    ensures |rs| <= 1
    ensures file == "libgazebo_gps_plugin.so" ==>
      rs == [ConnectRequest(SitlGpsMsg, GpsCallback, "~/" + model + "/gps", ["/gazebo/" + model + "/gps"])]
    ensures rs != [] <==> file in {"libgazebo_gps_plugin.so", "libgazebo_imu_plugin.so", "libgazebo_barometer_plugin.so"}
  {
    if file == "libgazebo_gps_plugin.so" then
      [ConnectRequest(SitlGpsMsg, GpsCallback, "~/" + model + "/gps", ["/gazebo/" + model + "/gps"])]
    else if file == "libgazebo_imu_plugin.so" then
      [ConnectRequest(ImuMsg, ImuCallback, "~/" + model + "/imu", ["/gazebo/" + model + "/imu"])]
    else if file == "libgazebo_barometer_plugin.so" then
      [ConnectRequest(PressureMsg, BaroCallback, "~/" + model + "/baro",
                      ["/gazebo/" + model + "/baro/abs_pressure",
                       "/gazebo/" + model + "/baro/pressure_alt",
                       "/gazebo/" + model + "/baro/temperature"])]
    else []
  }

  function PluginRequests(model: string, files: seq<string>): seq<ConnectRequest> {
    if files == [] then []
    else PluginRequests(model, files[..|files| - 1]) + PluginRequest(model, files[|files| - 1])
  }

  const IRLockJoint: string := "irlock_joint"

  /** The IRLock camera topic, bridged to one ROS publisher under /gazebo/<model>. */
  function IRLockRequest(model: string): (r: ConnectRequest)
    ensures r.msgType == IRLockMsg && r.callback == IRLockCallback
    ensures r.topic == "~/" + model + "/camera/link/irlock"
    ensures r.rosTopics == ["/gazebo/" + model + "/irlock/data"]
  {
    ConnectRequest(IRLockMsg, IRLockCallback, "~/" + model + "/camera/link/irlock", ["/gazebo/" + model + "/irlock/data"])
  }

  /** The lidar topic has no "/" between the model name and "lidar". */
  function LidarRequest(model: string): (r: ConnectRequest)
    ensures r.topic == "~/" + model + "lidar/link/laser/scan"
  {
    ConnectRequest(RangeMsg, LidarCallback, "~/" + model + "lidar/link/laser/scan", ["/gazebo/" + model + "/lidar/data"])
  }

  /** The sonar topic, bridged as a range message to one ROS publisher under /gazebo/<model>. */
  function SonarRequest(model: string): (r: ConnectRequest)
    ensures r.msgType == RangeMsg && r.callback == SonarCallback
    ensures r.topic == "~/" + model + "/sonar_model/link/sonar"
    ensures r.rosTopics == ["/gazebo/" + model + "/sonar/data"]
  {
    ConnectRequest(RangeMsg, SonarCallback, "~/" + model + "/sonar_model/link/sonar", ["/gazebo/" + model + "/sonar/data"])
  }

  /** The sensor bridges a model's joint names ask for: IRLock, then lidar, then sonar. */
  function JointRequests(model: string, joints: seq<string>): (rs: seq<ConnectRequest>)
    ensures IRLockRequest(model) in rs <==> IRLockJoint in joints
    ensures LidarRequest(model) in rs <==> "lidar_joint" in joints || "sf10a_joint" in joints
    ensures SonarRequest(model) in rs <==> "sonar_joint" in joints || "mb1240-xl-ez4_joint" in joints
    ensures |rs| <= 3
  {
    (if IRLockJoint in joints then [IRLockRequest(model)] else [])
    + (if "lidar_joint" in joints || "sf10a_joint" in joints then [LidarRequest(model)] else [])
    + (if "sonar_joint" in joints || "mb1240-xl-ez4_joint" in joints then [SonarRequest(model)] else [])
  }

  function ModelRequests(m: ModelInfo): seq<ConnectRequest> {
    (if m.pluginInfoOk then PluginRequests(m.name, m.pluginFiles) else [])
    + JointRequests(m.name, m.joints)
  }

  /** Every connection Load makes, model by model. */
  function LoadRequests(models: seq<ModelInfo>): seq<ConnectRequest> {
    if models == [] then []
    else LoadRequests(models[..|models| - 1]) + ModelRequests(models[|models| - 1])
  }

  /** Load's requests for one more model are those of the models before it, then its own. */
  lemma LoadRequestsStep(models: seq<ModelInfo>, i: nat)
    requires i < |models|
    ensures LoadRequests(models[..i + 1]) == LoadRequests(models[..i]) + ModelRequests(models[i])
  {
    assert models[..i + 1][..i] == models[..i];
  }

  /** The static callback maps, one per Gazebo message type, shared by every plugin instance. */
  class CallbackRegistry {
    var entries: map<(MsgType, string), Entry>
    var duplicateErrors: nat

    constructor ()
      ensures entries == map[] && duplicateErrors == 0
    {
      entries := map[];
      duplicateErrors := 0;
    }
  }

  class GazeboRosInterface {
    const id: int
    var subscribers: seq<Subscription>

    constructor (instance: int)
      ensures id == instance && subscribers == []
    {
      id := instance;
      subscribers := [];
    }

    function State(registry: CallbackRegistry): BridgeState
      reads this, registry
    {
      BridgeState(registry.entries, subscribers, registry.duplicateErrors)
    }

    method ConnectHelper(r: ConnectRequest, registry: CallbackRegistry)
      modifies this, registry
      ensures State(registry) == Connect(old(State(registry)), id, r)
    {
      var key := Key(r);
      var isNew := key !in registry.entries;
      if isNew {
        registry.entries := registry.entries[key := Entry(id, r.callback, r.rosTopics)];
      } else {
        registry.duplicateErrors := registry.duplicateErrors + 1;
      }
      subscribers := subscribers + [Subscription(r.topic, registry.entries[key])];
    }

    /** Connect everything the models ask for, in the order Load visits them. */
    method Load(models: seq<ModelInfo>, registry: CallbackRegistry)
      modifies this, registry
      ensures State(registry) == ConnectAll(old(State(registry)), id, LoadRequests(models))
    {
      ghost var s0 := State(registry);
      var i := 0;
      while i < |models|
        invariant 0 <= i <= |models|
        invariant State(registry) == ConnectAll(s0, id, LoadRequests(models[..i]))
      {
        ConnectModel(models[i], registry);
        ConnectAllConcat(s0, id, LoadRequests(models[..i]), ModelRequests(models[i]));
        LoadRequestsStep(models, i);
        i := i + 1;
      }
      assert models[..i] == models;
    }

    /** The plugin bridges of one model, then its joint bridges. */
    method ConnectModel(m: ModelInfo, registry: CallbackRegistry)
      modifies this, registry
      ensures State(registry) == ConnectAll(old(State(registry)), id, ModelRequests(m))
    {
      ghost var s0 := State(registry);
      if m.pluginInfoOk && |m.pluginFiles| > 0 {
        ConnectPlugins(m.name, m.pluginFiles, registry);
      }
      ghost var s1 := State(registry);
      assert s1 == ConnectAll(s0, id, if m.pluginInfoOk then PluginRequests(m.name, m.pluginFiles) else []);
      ConnectJoints(m.name, m.joints, registry);
      ConnectAllConcat(s0, id, if m.pluginInfoOk then PluginRequests(m.name, m.pluginFiles) else [],
                       JointRequests(m.name, m.joints));
    }

    method ConnectPlugins(model: string, files: seq<string>, registry: CallbackRegistry)
      modifies this, registry
      ensures State(registry) == ConnectAll(old(State(registry)), id, PluginRequests(model, files))
    {
      ghost var s0 := State(registry);
      var j := 0;
      while j < |files|
        invariant 0 <= j <= |files|
        invariant State(registry) == ConnectAll(s0, id, PluginRequests(model, files[..j]))
      {
        var rs := PluginRequest(model, files[j]);
        ghost var done := PluginRequests(model, files[..j]);
        assert files[..j + 1][..j] == files[..j];
        assert PluginRequests(model, files[..j + 1]) == done + rs;
        if rs != [] {
          ConnectHelper(rs[0], registry);
          Appended(s0, id, done, rs[0]);
          assert rs == [rs[0]];
        } else {
          assert done + rs == done;
        }
        j := j + 1;
      }
      assert files[..j] == files;
    }

    method ConnectJoints(model: string, joints: seq<string>, registry: CallbackRegistry)
      modifies this, registry
      ensures State(registry) == ConnectAll(old(State(registry)), id, JointRequests(model, joints))
    {
      ghost var s0 := State(registry);
      ghost var done: seq<ConnectRequest> := [];
      if IRLockJoint in joints {
        ConnectHelper(IRLockRequest(model), registry);
        Appended(s0, id, done, IRLockRequest(model));
        done := done + [IRLockRequest(model)];
      }
      if "lidar_joint" in joints || "sf10a_joint" in joints {
        ConnectHelper(LidarRequest(model), registry);
        Appended(s0, id, done, LidarRequest(model));
        done := done + [LidarRequest(model)];
      }
      if "sonar_joint" in joints || "mb1240-xl-ez4_joint" in joints {
        ConnectHelper(SonarRequest(model), registry);
        Appended(s0, id, done, SonarRequest(model));
        done := done + [SonarRequest(model)];
      }
      assert done == JointRequests(model, joints);
    }
  }

  /** Connecting a then b is connecting a + b. */
  lemma {:induction false} ConnectAllConcat(s: BridgeState, owner: int, a: seq<ConnectRequest>, b: seq<ConnectRequest>)
    ensures ConnectAll(s, owner, a + b) == ConnectAll(ConnectAll(s, owner, a), owner, b)
  {
    if b == [] {
      assert a + b == a;
    } else {
      ConnectAllConcat(s, owner, a, b[..|b| - 1]);
      assert (a + b)[..|a + b| - 1] == a + b[..|b| - 1];
    }
  }

  lemma Appended(s: BridgeState, owner: int, rs: seq<ConnectRequest>, r: ConnectRequest)
    ensures ConnectAll(s, owner, rs + [r]) == Connect(ConnectAll(s, owner, rs), owner, r)
  {
    assert (rs + [r])[..|rs|] == rs;
  }

  // ---------------------------------------------------------------------
  // Message callbacks

  /** Copy a 9-entry covariance block, index for index. */
  method CopyCovariance(src: seq<real>, dst: array<real>)
    requires |src| == 9 && dst.Length == 9
    modifies dst
    ensures dst[..] == src
  {
    for i := 0 to |src|
      invariant dst[..i] == src[..i]
    {
      dst[i] := src[i];
    }
  }

  datatype GzImu = GzImu(
    orientation: (real, real, real, real), orientationCovariance: seq<real>,
    angularVelocity: Vec3, angularVelocityCovariance: seq<real>,
    linearAcceleration: Vec3, linearAccelerationCovariance: seq<real>)

  datatype RosImu = RosImu(
    frameId: string, stamp: Stamp,
    orientation: (real, real, real, real), orientationCovariance: seq<real>,
    angularVelocity: Vec3, angularVelocityCovariance: seq<real>,
    linearAcceleration: Vec3, linearAccelerationCovariance: seq<real>)

  /** The IMU callback, stamped with the simulation time. */
  method ImuToRos(gz: GzImu, simTime: Stamp) returns (m: RosImu)
    requires |gz.orientationCovariance| == 9 && |gz.angularVelocityCovariance| == 9
    requires |gz.linearAccelerationCovariance| == 9
    ensures m.frameId == "gz_base_link" && m.stamp == simTime
    ensures m.orientation == gz.orientation && m.orientationCovariance == gz.orientationCovariance
    ensures m.angularVelocity == gz.angularVelocity && m.angularVelocityCovariance == gz.angularVelocityCovariance
    ensures m.linearAcceleration == gz.linearAcceleration
    ensures m.linearAccelerationCovariance == gz.linearAccelerationCovariance
  {
    var orientationCov := new real[9](_ => 0.0);
    CopyCovariance(gz.orientationCovariance, orientationCov);
    var angularCov := new real[9](_ => 0.0);
    CopyCovariance(gz.angularVelocityCovariance, angularCov);
    var linearCov := new real[9](_ => 0.0);
    CopyCovariance(gz.linearAccelerationCovariance, linearCov);
    m := RosImu("gz_base_link", simTime, gz.orientation, orientationCov[..],
                gz.angularVelocity, angularCov[..], gz.linearAcceleration, linearCov[..]);
  }

  datatype SitlGps = SitlGps(timeUsec: nat, latitudeDeg: real, longitudeDeg: real, altitude: real, eph: real, epv: real)

  const StatusFix: int := 0
  const ServiceGps: int := 1
  const CovarianceTypeApproximated: int := 1

  datatype NavSatFix = NavSatFix(
    frameId: string, stamp: Stamp,
    latitude: real, longitude: real, altitude: real,
    status: int, service: int,
    positionCovariance: seq<real>, covarianceType: int)

  /** The NavSatFix for a SITL GPS message: a diagonal covariance from eph and epv. */
  function GpsToNavSatFix(gz: SitlGps): (m: NavSatFix)
    requires gz.timeUsec < TwoTo64
    ensures m.stamp == StampFromUsec(gz.timeUsec) && m.frameId == "map"
    ensures (m.latitude, m.longitude, m.altitude) == (gz.latitudeDeg, gz.longitudeDeg, gz.altitude)
    ensures m.status == StatusFix && m.service == ServiceGps && m.covarianceType == CovarianceTypeApproximated
    ensures |m.positionCovariance| == 9
    ensures m.positionCovariance[0] == m.positionCovariance[4] == gz.eph * gz.eph
    ensures m.positionCovariance[8] == gz.epv * gz.epv
    ensures forall i :: 0 <= i < 9 && i != 0 && i != 4 && i != 8 ==> m.positionCovariance[i] == 0.0
  {
    var h := gz.eph * gz.eph;
    NavSatFix("map", StampFromUsec(gz.timeUsec), gz.latitudeDeg, gz.longitudeDeg, gz.altitude,
              StatusFix, ServiceGps,
              [h, 0.0, 0.0, 0.0, h, 0.0, 0.0, 0.0, gz.epv * gz.epv], CovarianceTypeApproximated)
  }

  datatype GzBaro = GzBaro(absolutePressure: real, pressureAltitude: real, temperatureKelvin: real)

  /** The three barometer messages: pressure, altitude and temperature, with one header. */
  datatype BaroMessages = BaroMessages(
    frameId: string, stamp: Stamp,
    fluidPressure: real, pressureVariance: real,
    altitudeZ: real,
    temperatureCelsius: real, temperatureVariance: real)

  function BaroToRos(gz: GzBaro, simTime: Stamp): (m: BaroMessages)
    ensures m.fluidPressure == gz.absolutePressure && m.altitudeZ == gz.pressureAltitude
    ensures m.temperatureCelsius + 273.15 == gz.temperatureKelvin
    ensures m.pressureVariance == 0.0 && m.temperatureVariance == 0.0
    ensures m.frameId == "base_link" && m.stamp == simTime
  {
    BaroMessages("base_link", simTime, gz.absolutePressure, 0.0, gz.pressureAltitude,
                 gz.temperatureKelvin - 273.15, 0.0)
  }

  datatype GzIRLock = GzIRLock(timeUsec: nat, posX: real, posY: real, sizeX: real, sizeY: real)

  datatype RosIRLock = RosIRLock(frameId: string, stamp: Stamp, posX: real, posY: real, sizeX: real, sizeY: real)

  function IRLockToRos(gz: GzIRLock): (m: RosIRLock)
    requires gz.timeUsec < TwoTo64
    ensures m.stamp == StampFromUsec(gz.timeUsec) && m.frameId == "base_link"
    ensures (m.posX, m.posY, m.sizeX, m.sizeY) == (gz.posX, gz.posY, gz.sizeX, gz.sizeY)
  {
    RosIRLock("base_link", StampFromUsec(gz.timeUsec), gz.posX, gz.posY, gz.sizeX, gz.sizeY)
  }

  datatype GzRange = GzRange(timeUsec: nat, minDistance: real, maxDistance: real, currentDistance: real)

  const Ultrasound: int := 0
  const Infrared: int := 1
  /** 3 degrees and 30 degrees, as the literals the callbacks use. */
  const LidarFieldOfView: real := 0.05235987756
  const SonarFieldOfView: real := 0.5235987756

  datatype RosRange = RosRange(frameId: string, stamp: Stamp, radiationType: int, fieldOfView: real,
                               minRange: real, maxRange: real, range: real)

  /** A Range message; the lidar and sonar callbacks differ only in frame, radiation type and field of view. */
  function RangeToRos(gz: GzRange, isLidar: bool): (m: RosRange)
    requires gz.timeUsec < TwoTo64
    ensures m.stamp == StampFromUsec(gz.timeUsec)
    ensures (m.minRange, m.maxRange, m.range) == (gz.minDistance, gz.maxDistance, gz.currentDistance)
    ensures isLidar ==> m.frameId == "lidar_link" && m.radiationType == Infrared && m.fieldOfView == 0.05235987756
    ensures !isLidar ==> m.frameId == "sonar_link" && m.radiationType == Ultrasound && m.fieldOfView == 0.5235987756
  {
    if isLidar then
      RosRange("lidar_link", StampFromUsec(gz.timeUsec), Infrared, LidarFieldOfView,
               gz.minDistance, gz.maxDistance, gz.currentDistance)
    else
      RosRange("sonar_link", StampFromUsec(gz.timeUsec), Ultrasound, SonarFieldOfView,
               gz.minDistance, gz.maxDistance, gz.currentDistance)
  }
}
