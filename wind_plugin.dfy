/**
 The wind plugin: Load normalises the mean wind direction and the gust
 direction and fixes the gust window; every world update applies the base
 wind force, applies the gust only inside the half-open window
 [start, start + duration), and publishes their sum.

 Simulation time is in whole nanoseconds, and the gust start and duration
 arrive already converted to that unit. The wind strength and direction
 drawn from the normal distributions are inputs, and so are the vector
 lengths Normalize divides by.
 */
module WindPlugin {
  import opened Common

  /** The tolerance under which ignition::math treats a length as zero. */
  const ZeroLength: real := 0.000001

  /**
   Vector3d::Normalize: divide by the length `len`, unless the length is
   (within the tolerance) zero, in which case the vector is left as it is.
   */
  function Normalize(v: Vec3, len: real): (r: Vec3)
    requires IsNorm(len, v)
    ensures len <= ZeroLength ==> r == v
    ensures len > ZeroLength ==> NormSq(r) == 1.0 && Scale(len, r) == v
  {
    if len <= ZeroLength then v
    else
      var r := Scale(1.0 / len, v);
      UnitAfterDivide(v, len);
      r
  }

  lemma UnitAfterDivide(v: Vec3, len: real)
    requires len > 0.0 && len * len == NormSq(v)
    ensures NormSq(Scale(1.0 / len, v)) == 1.0 && Scale(len, Scale(1.0 / len, v)) == v
  {
    var k := 1.0 / len;
    assert k * len == 1.0;
    calc {
      NormSq(Scale(k, v));
      (k * v.x) * (k * v.x) + (k * v.y) * (k * v.y) + (k * v.z) * (k * v.z);
      { assert (k * v.x) * (k * v.x) == (k * k) * (v.x * v.x);
        assert (k * v.y) * (k * v.y) == (k * k) * (v.y * v.y);
        assert (k * v.z) * (k * v.z) == (k * k) * (v.z * v.z); }
      (k * k) * NormSq(v);
      (k * k) * (len * len);
      { assert (k * k) * (len * len) == (k * len) * (k * len); }
      1.0;
    }
    assert len * (k * v.x) == (len * k) * v.x;
    assert len * (k * v.y) == (len * k) * v.y;
    assert len * (k * v.z) == (len * k) * v.z;
  }

  /** The gust window test: now >= start and now < end. */
  function GustActive(nowNs: int, startNs: int, endNs: int): (active: bool)
    ensures active <==> startNs <= nowNs < endNs
    ensures endNs <= startNs ==> !active
  {
    nowNs >= startNs && nowNs < endNs
  }

  /** The gust vector: the mean gust force along the gust direction inside the window, zero outside. */
  function Gust(active: bool, gustForceMean: real, gustDirection: Vec3): (g: Vec3)
    ensures !active ==> g == Vec3(0.0, 0.0, 0.0)
    ensures active ==> g == Scale(gustForceMean, gustDirection)
  {
    if active then Scale(gustForceMean, gustDirection) else Vec3(0.0, 0.0, 0.0)
  }

  /** The Wind message: frame id, time in microseconds and the total force. */
  datatype WindMsg = WindMsg(frameId: string, usec: int, force: Vec3)

  /** A force applied to the link at a position relative to it. */
  datatype AppliedForce = AppliedForce(force: Vec3, offset: Vec3)

  /** The SDF settings Load reads, with the two direction vectors and their lengths. */
  datatype Settings = Settings(
    xyzOffset: Vec3, frameId: string, linkName: string,
    windDirectionMean: Vec3, windDirectionLength: real,
    gustStartNs: int, gustDurationNs: int,
    gustForceMean: real,
    gustDirection: Vec3, gustDirectionLength: real)

  datatype LoadOutcome = Loaded | LinkNotFound

  class WindPlugin {
    var xyzOffset: Vec3
    var frameId: string
    var windDirectionMean: Vec3
    var gustDirection: Vec3
    var gustForceMean: real
    var gustStartNs: int
    var gustEndNs: int
    var connected: bool
    var applied: seq<AppliedForce>
    var published: seq<WindMsg>

    constructor ()
      ensures !connected && applied == [] && published == []
    {
      xyzOffset, windDirectionMean, gustDirection := Vec3(0.0, 0.0, 0.0), Vec3(0.0, 0.0, 0.0), Vec3(0.0, 0.0, 0.0);
      frameId := "";
      gustForceMean := 0.0;
      gustStartNs, gustEndNs := 0, 0;
      connected := false;
      applied, published := [], [];
    }

    /**
     Load with the settings and the names of the model's links. A missing
     link ends Load with an exception, before the update is connected.
     */
    method Load(s: Settings, links: seq<string>) returns (outcome: LoadOutcome)
      requires IsNorm(s.windDirectionLength, s.windDirectionMean)
      requires IsNorm(s.gustDirectionLength, s.gustDirection)
      modifies this
      ensures windDirectionMean == Normalize(s.windDirectionMean, s.windDirectionLength)
      ensures gustDirection == Normalize(s.gustDirection, s.gustDirectionLength)
      ensures gustStartNs == s.gustStartNs && gustEndNs == s.gustStartNs + s.gustDurationNs
      ensures xyzOffset == s.xyzOffset && frameId == s.frameId && gustForceMean == s.gustForceMean
      ensures outcome == LinkNotFound <==> s.linkName !in links
      ensures connected <==> outcome == Loaded
      ensures applied == old(applied) && published == old(published)
    {
      xyzOffset := s.xyzOffset;
      frameId := s.frameId;
      gustForceMean := s.gustForceMean;
      windDirectionMean := Normalize(s.windDirectionMean, s.windDirectionLength);
      gustDirection := Normalize(s.gustDirection, s.gustDirectionLength);
      gustStartNs := s.gustStartNs;
      gustEndNs := s.gustStartNs + s.gustDurationNs;
      if s.linkName !in links {
        connected := false;
        return LinkNotFound;
      }
      connected := true;
      return Loaded;
    }

    /**
     One world update at `nowNs` with the drawn wind strength and direction:
     the base force is always applied, the gust only inside the window, and
     the message carries their sum.
     */
    method OnUpdate(nowNs: int, windStrength: real, windDirection: Vec3)
      modifies this
      ensures var wind := Scale(windStrength, windDirection);
        var gust := Gust(GustActive(nowNs, gustStartNs, gustEndNs), gustForceMean, gustDirection);
        && applied == old(applied) + [AppliedForce(wind, xyzOffset)]
                      + (if GustActive(nowNs, gustStartNs, gustEndNs) then [AppliedForce(gust, xyzOffset)] else [])
        && published == old(published) + [WindMsg(frameId, nowNs / 1000, Add(wind, gust))]
      ensures xyzOffset == old(xyzOffset) && frameId == old(frameId)
      ensures gustStartNs == old(gustStartNs) && gustEndNs == old(gustEndNs)
      ensures gustForceMean == old(gustForceMean) && gustDirection == old(gustDirection)
      ensures connected == old(connected) && windDirectionMean == old(windDirectionMean)
    {
      var wind := Scale(windStrength, windDirection);
      applied := applied + [AppliedForce(wind, xyzOffset)];

      var gust := Vec3(0.0, 0.0, 0.0);
      if nowNs >= gustStartNs && nowNs < gustEndNs {
        gust := Scale(gustForceMean, gustDirection);
        applied := applied + [AppliedForce(gust, xyzOffset)];
      }

      var force := Vec3(wind.x + gust.x, wind.y + gust.y, wind.z + gust.z);
      published := published + [WindMsg(frameId, nowNs / 1000, force)];
    }
  }

  /**
   With a loaded gust window, the published force is the wind plus the mean
   gust along its unit direction exactly during [start, start + duration),
   and the wind alone otherwise.
   */
  lemma GustWindow(s: Settings, nowNs: int, wind: Vec3)
    requires IsNorm(s.gustDirectionLength, s.gustDirection) && s.gustDirectionLength > ZeroLength
    ensures var active := GustActive(nowNs, s.gustStartNs, s.gustStartNs + s.gustDurationNs);
      var g := Gust(active, s.gustForceMean, Normalize(s.gustDirection, s.gustDirectionLength));
      && (active <==> s.gustStartNs <= nowNs < s.gustStartNs + s.gustDurationNs)
      && (!active ==> Add(wind, g) == wind)
      && (active ==> NormSq(g) == s.gustForceMean * s.gustForceMean)
  {
    var d := Normalize(s.gustDirection, s.gustDirectionLength);
    var m := s.gustForceMean;
    assert NormSq(d) == 1.0;
    calc {
      NormSq(Scale(m, d));
      (m * d.x) * (m * d.x) + (m * d.y) * (m * d.y) + (m * d.z) * (m * d.z);
      { assert (m * d.x) * (m * d.x) == (m * m) * (d.x * d.x);
        assert (m * d.y) * (m * d.y) == (m * m) * (d.y * d.y);
        assert (m * d.z) * (m * d.z) == (m * m) * (d.z * d.z); }
      (m * m) * NormSq(d);
      m * m;
    }
  }
}
