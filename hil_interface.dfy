/**
 The HIL interface node: a rate limiter on HIL_GPS messages that works in
 unsigned 64-bit nanoseconds, the constant and copied fields of the HIL_GPS,
 HIL_SENSOR and HIL_STATE_QUATERNION messages, and the order in which
 HIL_CONTROLS become actuator commands.

 Clock readings are inputs. Vector norms come in as parameters, and so do
 the pressure-altitude and differential-pressure values, whose power-law
 formulas are not part of this model.
 */
module HilInterface {
  import opened Common

  const TwoTo64: int := 0x1_0000_0000_0000_0000
  type Nsec = x: int | 0 <= x < TwoTo64

  const DefaultGpsFrequency: real := 5.0
  const SecToNsec: real := 1000000000.0
  const Gravity: real := 9.8068
  const TemperatureC: real := 15.0
  const FixNone: int := 0
  const Fix3D: int := 3
  const Hdop: int := 100
  const Vdop: int := 100
  const SatellitesVisible: int := 4
  const Unknown: int := 65535
  const AllFieldsUpdated: int := 4095
  /** sensor_msgs::NavSatStatus::STATUS_NO_FIX */
  const StatusNoFix: int := -1

  /** gps_interval_nsec_: 10^9 / gps_freq, truncated by the cast to uint64_t. */
  function GpsIntervalNsec(freq: real): (r: Nsec)
    requires freq > 0.0 && SecToNsec / freq < TwoTo64 as real
    ensures r as real <= SecToNsec / freq < r as real + 1.0
  {
    (SecToNsec / freq).Floor
  }

  lemma DefaultGpsInterval()
    ensures GpsIntervalNsec(DefaultGpsFrequency) == 200000000
  {
    assert SecToNsec / DefaultGpsFrequency == 200000000.0;
  }

  /** a - b on uint64_t: wraps modulo 2^64. */
  function WrapSub(a: Nsec, b: Nsec): (r: Nsec)
    ensures b <= a ==> r == a - b
    ensures a < b ==> r == a - b + TwoTo64
  {
    (a - b) % TwoTo64
  }

  /** The fix type: 3D for any status better than "no fix", otherwise none. */
  function FixType(status: int): (r: int)
    ensures r == Fix3D <==> status > StatusNoFix
    ensures r == FixNone <==> status <= StatusNoFix
  {
    if status > StatusNoFix then Fix3D else FixNone
  }

  /** A NavSatFix as the GPS callback reads it. */
  datatype NavSatFix = NavSatFix(status: int, latitude: real, longitude: real, altitude: real)

  datatype HilGps = HilGps(
    stampNsec: Nsec,
    fixType: int,
    latitude: real, longitude: real, altitude: real,
    eph: int, epv: int,
    vel: real, vn: real, ve: real, vd: real,
    cog: int,
    satellitesVisible: int)

  /** The HIL_GPS message for a fix and a ground velocity of length `speed`. */
  function BuildHilGps(stamp: Nsec, fix: NavSatFix, groundVel: Vec3, speed: real): (m: HilGps)
    requires IsNorm(speed, groundVel)
    ensures m.fixType == FixType(fix.status)
    ensures (m.latitude, m.longitude, m.altitude) == (fix.latitude, fix.longitude, fix.altitude)
    ensures m.eph == 100 && m.epv == 100 && m.cog == 65535 && m.satellitesVisible == 4
    ensures m.vel >= 0.0 && m.vel * m.vel == m.vn * m.vn + m.ve * m.ve + m.vd * m.vd
    ensures (m.vn, m.ve, m.vd) == (groundVel.x, groundVel.y, groundVel.z)
  {
    HilGps(stamp, FixType(fix.status), fix.latitude, fix.longitude, fix.altitude,
           Hdop, Vdop, speed, groundVel.x, groundVel.y, groundVel.z, Unknown, SatellitesVisible)
  }

  datatype HilSensor = HilSensor(
    acc: Vec3, gyro: Vec3, mag: Vec3,
    absPressure: real, diffPressure: real, pressureAlt: real,
    temperature: real, fieldsUpdated: int)

  /** HIL_SENSOR: readings copied, temperature fixed at 15 C, every field flagged as updated. */
  function BuildHilSensor(acc: Vec3, gyro: Vec3, mag: Vec3, fluidPressure: real,
                          diffPressure: real, pressureAlt: real): (m: HilSensor)
    ensures m.absPressure == fluidPressure
    ensures m.temperature == 15.0 && m.fieldsUpdated == 4095
    ensures m.acc == acc && m.gyro == gyro && m.mag == mag
  {
    HilSensor(acc, gyro, mag, fluidPressure, diffPressure, pressureAlt, TemperatureC, AllFieldsUpdated)
  }

  datatype HilState = HilState(
    angularVelocity: Vec3,
    latitude: real, longitude: real, altitude: real,
    linearVelocity: Vec3,
    indAirspeed: real, trueAirspeed: real,
    linearAcceleration: Vec3)

  /**
   HIL_STATE_QUATERNION: both airspeeds are the length of the air velocity,
   and the IMU acceleration is scaled by 9.8068.
   */
  function BuildHilState(airVelocity: Vec3, airspeed: real, fix: NavSatFix, groundVel: Vec3,
                         acc: Vec3, gyro: Vec3): (m: HilState)
    requires IsNorm(airspeed, airVelocity)
    ensures m.indAirspeed == m.trueAirspeed && IsNorm(m.indAirspeed, airVelocity)
    ensures m.linearAcceleration == Scale(9.8068, acc)
    ensures m.linearVelocity == groundVel && m.angularVelocity == gyro
    ensures (m.latitude, m.longitude, m.altitude) == (fix.latitude, fix.longitude, fix.altitude)
  {
    HilState(gyro, fix.latitude, fix.longitude, fix.altitude, groundVel, airspeed, airspeed,
             Vec3(acc.x * Gravity, acc.y * Gravity, acc.z * Gravity))
  }

  datatype HilControls = HilControls(
    rollAilerons: real, pitchElevator: real, yawRudder: real,
    throttle: real, aux1: real, aux2: real)

  datatype Actuators = Actuators(sec: int, nsec: int, normalized: seq<real>)

  class HilInterfaceNode {
    const gpsIntervalNsec: Nsec
    var lastGpsPubTimeNsec: Nsec
    var gpsPublished: seq<HilGps>
    var actuatorsPublished: seq<Actuators>

    ghost predicate Valid()
      reads this
    {
      gpsPublished != [] ==> lastGpsPubTimeNsec == gpsPublished[|gpsPublished| - 1].stampNsec
    }

    /**
     `gpsFreq` is the configured rate; `initialLast` is whatever the
     uninitialised last_gps_pub_time_nsec_ happens to hold.
     */
    constructor (gpsFreq: real, initialLast: Nsec)
      requires gpsFreq > 0.0 && SecToNsec / gpsFreq < TwoTo64 as real
      ensures Valid()
      ensures gpsIntervalNsec == GpsIntervalNsec(gpsFreq) && lastGpsPubTimeNsec == initialLast
      ensures gpsPublished == [] && actuatorsPublished == []
    {
      gpsIntervalNsec := GpsIntervalNsec(gpsFreq);
      lastGpsPubTimeNsec := initialLast;
      gpsPublished := [];
      actuatorsPublished := [];
    }

    /**
     A synchronised GPS and ground-speed pair. The clock is read once for the
     gate (`checkNsec`) and again for the new last time and the stamp (`nowNsec`).
     */
    method HilGpsPubCallback(checkNsec: Nsec, nowNsec: Nsec, fix: NavSatFix, groundVel: Vec3, speed: real)
      requires Valid() && IsNorm(speed, groundVel)
      modifies this
      ensures Valid() && actuatorsPublished == old(actuatorsPublished)
      ensures WrapSub(checkNsec, old(lastGpsPubTimeNsec)) >= gpsIntervalNsec ==>
        lastGpsPubTimeNsec == nowNsec
        && gpsPublished == old(gpsPublished) + [BuildHilGps(nowNsec, fix, groundVel, speed)]
      ensures WrapSub(checkNsec, old(lastGpsPubTimeNsec)) < gpsIntervalNsec ==>
        lastGpsPubTimeNsec == old(lastGpsPubTimeNsec) && gpsPublished == old(gpsPublished)
    {
      if WrapSub(checkNsec, lastGpsPubTimeNsec) >= gpsIntervalNsec {
        lastGpsPubTimeNsec := nowNsec;
        var msg := BuildHilGps(nowNsec, fix, groundVel, speed);
        gpsPublished := gpsPublished + [msg];
      }
    }

    /** HIL_CONTROLS to actuators: six values pushed in a fixed order. */
    method HilControlsCallback(controls: HilControls, sec: int, nsec: int)
      modifies this
      ensures actuatorsPublished == old(actuatorsPublished) + [Actuators(sec, nsec,
        [controls.rollAilerons, controls.pitchElevator, controls.yawRudder,
         controls.aux1, controls.aux2, controls.throttle])]
      ensures lastGpsPubTimeNsec == old(lastGpsPubTimeNsec) && gpsPublished == old(gpsPublished)
    {
      var normalized: seq<real> := [];
      normalized := normalized + [controls.rollAilerons];
      normalized := normalized + [controls.pitchElevator];
      normalized := normalized + [controls.yawRudder];
      normalized := normalized + [controls.aux1];
      normalized := normalized + [controls.aux2];
      normalized := normalized + [controls.throttle];
      assert normalized == [controls.rollAilerons, controls.pitchElevator, controls.yawRudder,
                            controls.aux1, controls.aux2, controls.throttle];
      actuatorsPublished := actuatorsPublished + [Actuators(sec, nsec, normalized)];
    }
  }
}
