/**
 The GPS origin world plugin: the home latitude, longitude and altitude come
 from the PX4_HOME_* environment variables if set, else from the world's SDF
 elements, else from the built-in defaults; once more than one second of
 simulation time has passed since the last message, the home position is
 published again.

 Simulation time is in whole microseconds. The environment variables are
 inputs already converted to numbers (the string parse is not modelled).
 */
module GpsOriginPlugin {
  import opened Common

  /** The default home, in degrees and metres, and the publish interval in seconds. */
  const DefaultLatitudeDeg: real := 47.397742
  const DefaultLongitudeDeg: real := 8.545594
  const DefaultAltitude: real := 488.0
  const IntervalUs: int := 1000000

  function DegToRad(deg: real): (rad: real)
    ensures rad * 180.0 == deg * PI
  {
    deg * PI / 180.0
  }

  function RadToDeg(rad: real): (deg: real)
    ensures deg * PI == rad * 180.0
    ensures RadToDeg(DegToRad(deg)) == deg
  {
    rad * 180.0 / PI
  }

  /**
   A home angle (latitude or longitude) after Load: the environment value if
   set, else the SDF element if present, else the value held before, all in
   radians.
   */
  function HomeAngle(env: Option<real>, sdf: Option<real>, current: real): (rad: real)
    ensures env.Some? ==> RadToDeg(rad) == env.value
    ensures env.None? && sdf.Some? ==> RadToDeg(rad) == sdf.value
    ensures env.None? && sdf.None? ==> rad == current
  {
    if env.Some? then DegToRad(env.value)
    else if sdf.Some? then DegToRad(sdf.value)
    else current
  }

  /** The home altitude after Load, in metres, with the same precedence. */
  function HomeAltitude(env: Option<real>, sdf: Option<real>, current: real): (alt: real)
    ensures env.Some? ==> alt == env.value
    ensures env.None? && sdf.Some? ==> alt == sdf.value
    ensures env.None? && sdf.None? ==> alt == current
  {
    match env
    case Some(a) => a
    case None => if sdf.Some? then sdf.value else current
  }

  /** The SITLGps message: time, latitude and longitude in degrees, altitude. */
  datatype OriginMsg = OriginMsg(timeUsec: int, latitudeDeg: real, longitudeDeg: real, altitude: real)

  class GpsOriginPlugin {
    /** Home latitude and longitude in radians, altitude in metres. */
    var latHome: real
    var lonHome: real
    var altHome: real
    var lastTimeUs: int
    var published: seq<OriginMsg>

    constructor ()
      ensures RadToDeg(latHome) == DefaultLatitudeDeg && RadToDeg(lonHome) == DefaultLongitudeDeg
      ensures altHome == DefaultAltitude
      ensures lastTimeUs == 0 && published == []
    {
      latHome := DegToRad(DefaultLatitudeDeg);
      lonHome := DegToRad(DefaultLongitudeDeg);
      altHome := DefaultAltitude;
      lastTimeUs := 0;
      published := [];
    }

    /**
     Load with the PX4_HOME_LAT/LON/ALT environment values and the
     homeLatitude/homeLongitude/homeAltitude SDF elements, each if present.
     */
    method Load(envLat: Option<real>, envLon: Option<real>, envAlt: Option<real>,
                sdfLat: Option<real>, sdfLon: Option<real>, sdfAlt: Option<real>)
      modifies this
      ensures latHome == HomeAngle(envLat, sdfLat, old(latHome))
      ensures lonHome == HomeAngle(envLon, sdfLon, old(lonHome))
      ensures altHome == HomeAltitude(envAlt, sdfAlt, old(altHome))
      ensures lastTimeUs == old(lastTimeUs) && published == old(published)
    {
      if envLat.Some? {
        latHome := DegToRad(envLat.value);
      } else if sdfLat.Some? {
        latHome := DegToRad(sdfLat.value);
      }
      if envLon.Some? {
        lonHome := DegToRad(envLon.value);
      } else if sdfLon.Some? {
        lonHome := DegToRad(sdfLon.value);
      }
      if envAlt.Some? {
        altHome := envAlt.value;
      } else if sdfAlt.Some? {
        altHome := sdfAlt.value;
      }
    }

    /** One world update at `nowUs`: publish only when more than one second has passed. */
    method OnUpdate(nowUs: int)
      modifies this
      ensures nowUs - old(lastTimeUs) > IntervalUs ==>
        lastTimeUs == nowUs
        && published == old(published) + [OriginMsg(nowUs, RadToDeg(latHome), RadToDeg(lonHome), altHome)]
      ensures nowUs - old(lastTimeUs) <= IntervalUs ==>
        lastTimeUs == old(lastTimeUs) && published == old(published)
      ensures latHome == old(latHome) && lonHome == old(lonHome) && altHome == old(altHome)
    {
      var dtUs := nowUs - lastTimeUs;
      if dtUs > IntervalUs {
        var msg := OriginMsg(nowUs, RadToDeg(latHome), RadToDeg(lonHome), altHome);
        lastTimeUs := nowUs;
        published := published + [msg];
      }
    }
  }

  /**
   The home a fresh plugin publishes after Load: each coordinate is the
   environment value if set, else the SDF value, else the default.
   */
  function PublishedHome(envLat: Option<real>, envLon: Option<real>, envAlt: Option<real>,
                         sdfLat: Option<real>, sdfLon: Option<real>, sdfAlt: Option<real>): (home: (real, real, real))
    ensures home.0 == (if envLat.Some? then envLat.value else if sdfLat.Some? then sdfLat.value else DefaultLatitudeDeg)
    ensures home.1 == (if envLon.Some? then envLon.value else if sdfLon.Some? then sdfLon.value else DefaultLongitudeDeg)
    ensures home.2 == (if envAlt.Some? then envAlt.value else if sdfAlt.Some? then sdfAlt.value else DefaultAltitude)
  {
    (RadToDeg(HomeAngle(envLat, sdfLat, DegToRad(DefaultLatitudeDeg))),
     RadToDeg(HomeAngle(envLon, sdfLon, DegToRad(DefaultLongitudeDeg))),
     HomeAltitude(envAlt, sdfAlt, DefaultAltitude))
  }
}
