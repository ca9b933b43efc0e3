/**
 The GPS plugin. Every world update it draws (optionally) noise, integrates
 the random-walk bias, builds a SITLGps message and pushes it at the back of
 a FIFO delay buffer. Only on ticks that pass a strict rate gate does it prune
 the buffer from the front, by age and by size, and publish the front.

 Simulator time is in whole microseconds. The nine standard-normal draws and
 sqrt(dt) are inputs; the spherical reprojection is modelled only in its
 zero-offset case.
 */
module GpsPlugin {
  import opened Common

  /** Noise parameters. `stdScale` is tau / sqrtf(2 tau - 1), computed once from the correlation time. */
  datatype NoiseParams = NoiseParams(
    xyNoiseDensity: real,
    zNoiseDensity: real,
    vxyNoiseDensity: real,
    vzNoiseDensity: real,
    xyRandomWalk: real,
    zRandomWalk: real,
    correlationTime: real,
    stdScale: real)

  /** The nine draws of randn_(rand_), in the order the source makes them. */
  datatype Draws = Draws(
    posX: real, posY: real, posZ: real,
    velX: real, velY: real, velZ: real,
    walkX: real, walkY: real, walkZ: real)

  /** noise_gps_pos, noise_gps_vel and random_walk_gps for one update. */
  datatype NoiseSample = NoiseSample(pos: Vec3, vel: Vec3, randomWalk: Vec3)

  const Zero: Vec3 := Vec3(0.0, 0.0, 0.0)

  /** One noise component: density * sqrt(dt) * draw when noise is on, exactly 0 when off. */
  function NoiseTerm(enabled: bool, density: real, sqrtDt: real, draw: real): real {
    if enabled then density * sqrtDt * draw else 0.0
  }

  function SampleNoise(enabled: bool, p: NoiseParams, sqrtDt: real, d: Draws): (n: NoiseSample)
    ensures !enabled ==> n == NoiseSample(Zero, Zero, Zero)
    ensures enabled && sqrtDt == 0.0 ==> n == NoiseSample(Zero, Zero, Zero)
    ensures enabled ==> n.pos == Vec3(p.xyNoiseDensity * sqrtDt * d.posX,
                                      p.xyNoiseDensity * sqrtDt * d.posY,
                                      p.zNoiseDensity * sqrtDt * d.posZ)
    ensures enabled ==> n.vel == Vec3(p.vxyNoiseDensity * sqrtDt * d.velX,
                                      p.vxyNoiseDensity * sqrtDt * d.velY,
                                      p.vzNoiseDensity * sqrtDt * d.velZ)
    ensures enabled ==> n.randomWalk == Vec3(p.xyRandomWalk * sqrtDt * d.walkX,
                                             p.xyRandomWalk * sqrtDt * d.walkY,
                                             p.zRandomWalk * sqrtDt * d.walkZ)
  {
    NoiseSample(
      Vec3(NoiseTerm(enabled, p.xyNoiseDensity, sqrtDt, d.posX),
           NoiseTerm(enabled, p.xyNoiseDensity, sqrtDt, d.posY),
           NoiseTerm(enabled, p.zNoiseDensity, sqrtDt, d.posZ)),
      Vec3(NoiseTerm(enabled, p.vxyNoiseDensity, sqrtDt, d.velX),
           NoiseTerm(enabled, p.vxyNoiseDensity, sqrtDt, d.velY),
           NoiseTerm(enabled, p.vzNoiseDensity, sqrtDt, d.velZ)),
      Vec3(NoiseTerm(enabled, p.xyRandomWalk, sqrtDt, d.walkX),
           NoiseTerm(enabled, p.xyRandomWalk, sqrtDt, d.walkY),
           NoiseTerm(enabled, p.zRandomWalk, sqrtDt, d.walkZ)))
  }

  /** With noise off the bias only decays, so a zero bias stays zero. */
  lemma QuietBiasStaysZero(p: NoiseParams, sqrtDt: real, d: Draws, dt: real)
    requires p.correlationTime != 0.0
    ensures BiasStep(Zero, SampleNoise(false, p, sqrtDt, d).randomWalk, dt, p.correlationTime) == Zero
  {
  }

  /**
   reproject: the c == 0 branch returns the home position exactly; the
   spherical projection of the other branch is not part of this model (None).
   */
  function Reproject(pos: Vec3, latHome: real, lonHome: real): (r: Option<(real, real)>)
    ensures r.Some? <==> pos.x == 0.0 && pos.y == 0.0
    ensures r.Some? ==> r.value == (latHome, lonHome)
  {
    if pos.x == 0.0 && pos.y == 0.0 then Some((latHome, lonHome)) else None
  }

  function Min(a: real, b: real): real {
    if a <= b then a else b
  }

  /**
   eph and epv of the message: the configured values with noise off; with
   noise on, min(std_x + d^2, std_y + d^2) and std_z + d_z.
   */
  function Accuracy(enabled: bool, p: NoiseParams, randomWalk: Vec3, eph: real, epv: real): (r: (real, real))
    ensures !enabled ==> r == (eph, epv)
    ensures enabled ==> var d2 := p.xyNoiseDensity * p.xyNoiseDensity;
      var sx := randomWalk.x * p.stdScale + d2;
      var sy := randomWalk.y * p.stdScale + d2;
      r.0 <= sx && r.0 <= sy && (r.0 == sx || r.0 == sy)
    ensures enabled ==> r.1 == randomWalk.z * p.stdScale + p.zNoiseDensity
  {
    if enabled then
      var d2 := p.xyNoiseDensity * p.xyNoiseDensity;
      (Min(randomWalk.x * p.stdScale + d2, randomWalk.y * p.stdScale + d2),
       randomWalk.z * p.stdScale + p.zNoiseDensity)
    else
      (eph, epv)
  }

  /**
   A SITLGps message. `position` is the noisy local position whose
   reprojection gives the latitude and longitude.
   */
  datatype GpsMsg = GpsMsg(
    timeUsec: int,
    position: Vec3,
    altitude: real,
    eph: real,
    epv: real,
    velocity: real,
    velocityEast: real,
    velocityNorth: real,
    velocityUp: real)

  function Age(nowUs: int, m: GpsMsg): int {
    nowUs - m.timeUsec
  }

  /** The front of `buf` is popped: too old, or the buffer too long. */
  predicate PopsFront(buf: seq<GpsMsg>, nowUs: int, delayUs: int, sizeMax: nat)
    requires buf != []
  {
    Age(nowUs, buf[0]) > delayUs || |buf| > sizeMax
  }

  /**
   What the pruning loop leaves in the buffer: it stops only at an empty
   buffer or at one whose front it would not pop, so a pruned buffer is not
   pruned further at the same time.
   */
  function Prune(buf: seq<GpsMsg>, nowUs: int, delayUs: int, sizeMax: nat): (r: seq<GpsMsg>)
    ensures r == [] || !PopsFront(r, nowUs, delayUs, sizeMax)
  {
    if buf == [] then []
    else if PopsFront(buf, nowUs, delayUs, sizeMax) then Prune(buf[1..], nowUs, delayUs, sizeMax)
    else buf
  }

  ghost predicate IsSuffix(s: seq<GpsMsg>, t: seq<GpsMsg>) {
    |s| <= |t| && s == t[|t| - |s|..]
  }

  /** Pruning only removes from the front. */
  lemma {:induction false} PruneIsSuffix(buf: seq<GpsMsg>, nowUs: int, delayUs: int, sizeMax: nat)
    ensures IsSuffix(Prune(buf, nowUs, delayUs, sizeMax), buf)
  {
    if buf != [] && PopsFront(buf, nowUs, delayUs, sizeMax) {
      PruneIsSuffix(buf[1..], nowUs, delayUs, sizeMax);
    }
  }

  /**
   When the newest message is young enough and the buffer may hold at least
   one message, pruning never empties the buffer, keeps the newest message,
   and leaves a front that is young enough in a buffer that is short enough.
   */
  lemma {:induction false} PruneBounds(buf: seq<GpsMsg>, nowUs: int, delayUs: int, sizeMax: nat)
    requires buf != [] && Age(nowUs, buf[|buf| - 1]) <= delayUs && sizeMax >= 1
    ensures var r := Prune(buf, nowUs, delayUs, sizeMax);
      r != [] && r[|r| - 1] == buf[|buf| - 1] && Age(nowUs, r[0]) <= delayUs && |r| <= sizeMax
  {
    if PopsFront(buf, nowUs, delayUs, sizeMax) {
      assert |buf| > 1;
      PruneBounds(buf[1..], nowUs, delayUs, sizeMax);
    }
  }

  /** The source reads gps_delay_buffer.front() before testing emptiness; that read is safe. */
  lemma PruneReadsAreSafe(buf: seq<GpsMsg>, m: GpsMsg, nowUs: int, delayUs: int, sizeMax: nat)
    requires m.timeUsec == nowUs && delayUs >= 0 && sizeMax >= 1
    ensures Prune(buf + [m], nowUs, delayUs, sizeMax) != []
  {
    PruneBounds(buf + [m], nowUs, delayUs, sizeMax);
  }

  /**
   Reading the eph/epv parameters in Load, as written: when an "epv" element
   is present the code reads the "eph" element again into eph_, so epv_ is
   never assigned (None stands for the indeterminate value).
   */
  function LoadAccuracyAsWritten(ephElement: Option<real>, epvElement: Option<real>, defaultEph: real)
    : (r: (real, Option<real>))
    ensures epvElement.Some? ==> r.1 == None
  {
    var eph := if ephElement.Some? then ephElement.value else defaultEph;
    if epvElement.Some? then
      // getSdfParam(_sdf, "eph", eph_, eph_) re-reads the same element
      (if ephElement.Some? then ephElement.value else eph, None)
    else
      (eph, Some(defaultEph))
  }

  lemma ConfiguredEpvIsIgnored()
    ensures LoadAccuracyAsWritten(None, Some(3.0), 5.0) == (5.0, None)
  {
  }

  /** Reading eph/epv as intended: each from its own element, else the default. */
  function LoadAccuracy(ephElement: Option<real>, epvElement: Option<real>, defaultEph: real): (r: (real, real))
    ensures ephElement.Some? ==> r.0 == ephElement.value
    ensures epvElement.Some? ==> r.1 == epvElement.value
    ensures ephElement.None? ==> r.0 == defaultEph
    ensures epvElement.None? ==> r.1 == defaultEph
  {
    (if ephElement.Some? then ephElement.value else defaultEph,
     if epvElement.Some? then epvElement.value else defaultEph)
  }

  /**
   The pruning loop of a publishing tick on a buffer whose newest message was
   stamped now: pop the front while it is too old or the buffer too long.
   Returns what remains and the front last read, which is the one published.
   */
  method PopStale(pushed: seq<GpsMsg>, nowUs: int, delayUs: int, sizeMax: nat) returns (buf: seq<GpsMsg>, front: GpsMsg)
    requires pushed != [] && pushed[|pushed| - 1].timeUsec == nowUs
    requires delayUs >= 0 && sizeMax >= 1
    ensures buf == Prune(pushed, nowUs, delayUs, sizeMax)
    ensures buf != [] && front == buf[0] && buf[|buf| - 1] == pushed[|pushed| - 1]
    ensures IsSuffix(buf, pushed)
    ensures Age(nowUs, front) <= delayUs && |buf| <= sizeMax
  {
    ghost var m := pushed[|pushed| - 1];
    buf, front := pushed, pushed[0];
    while true
      invariant buf != [] && buf[|buf| - 1] == m
      invariant Prune(buf, nowUs, delayUs, sizeMax) == Prune(pushed, nowUs, delayUs, sizeMax)
      decreases |buf|
    {
      front := buf[0];
      var currentDelay := nowUs - buf[0].timeUsec;
      if currentDelay > delayUs {
        buf := buf[1..];
      } else if |buf| > sizeMax {
        buf := buf[1..];
      } else {
        break;
      }
    }
    PruneIsSuffix(pushed, nowUs, delayUs, sizeMax);
    PruneBounds(pushed, nowUs, delayUs, sizeMax);
  }

  class GpsPlugin {
    const params: NoiseParams
    const updateIntervalUs: int
    const delayUs: int
    const bufferSizeMax: nat
    const gpsNoise: bool
    const eph: real
    const epv: real
    const latHome: real
    const lonHome: real
    const altHome: real

    var bias: Vec3
    var noise: NoiseSample
    var lastTimeUs: int
    var lastGpsTimeUs: int
    /** gps_delay_buffer, front first. */
    var buffer: seq<GpsMsg>
    /** The gps_msg member, reused by every update. */
    var gpsMsg: GpsMsg
    var published: seq<GpsMsg>

    ghost predicate Valid()
      reads this
    {
      params.correlationTime != 0.0 && delayUs >= 0 && bufferSizeMax >= 1
    }

    constructor (p: NoiseParams, interval: int, delay: int, sizeMax: nat, noiseOn: bool,
                 ephElement: Option<real>, epvElement: Option<real>, defaultEph: real,
                 lat: real, lon: real, alt: real, simTimeUs: int)
      requires p.correlationTime != 0.0 && delay >= 0 && sizeMax >= 1
      ensures Valid()
      ensures params == p && updateIntervalUs == interval && delayUs == delay && bufferSizeMax == sizeMax
      ensures gpsNoise == noiseOn
      ensures (eph, epv) == LoadAccuracy(ephElement, epvElement, defaultEph)
      ensures latHome == lat && lonHome == lon && altHome == alt
      ensures lastTimeUs == simTimeUs && lastGpsTimeUs == simTimeUs
      ensures bias == Zero && buffer == [] && published == []
    {
      params, updateIntervalUs, delayUs, bufferSizeMax := p, interval, delay, sizeMax;
      gpsNoise := noiseOn;
      var acc := LoadAccuracy(ephElement, epvElement, defaultEph);
      eph, epv := acc.0, acc.1;
      latHome, lonHome, altHome := lat, lon, alt;
      lastTimeUs, lastGpsTimeUs := simTimeUs, simTimeUs;
      bias := Zero;
      noise := NoiseSample(Zero, Zero, Zero);
      buffer := [];
      gpsMsg := GpsMsg(0, Zero, 0.0, 0.0, 0.0, 0.0, 0.0, 0.0, 0.0);
      published := [];
    }

    /** The message an update at `nowUs` builds, from the state the update has reached. */
    function Message(nowUs: int, pos: Vec3, vel: Vec3, groundSpeed: real, n: NoiseSample, b: Vec3): GpsMsg
      reads this
    {
      var acc := Accuracy(gpsNoise, params, n.randomWalk, eph, epv);
      GpsMsg(
        timeUsec := nowUs,
        position := Add(Add(pos, n.pos), b),
        altitude := pos.z + altHome + n.pos.z + b.z,
        eph := acc.0,
        epv := acc.1,
        velocity := groundSpeed,
        velocityEast := vel.x + n.vel.y,
        velocityNorth := vel.y + n.vel.x,
        velocityUp := vel.z + n.vel.z)
    }

    /**
     The first half of an update: sample the noise, step the bias over `dt`
     seconds, build the message and push it at the back of the delay buffer.
     */
    method Stamp(nowUs: int, pos: Vec3, vel: Vec3, groundSpeed: real, sqrtDt: real, draws: Draws, dt: real)
      requires Valid()
      modifies this
      ensures noise == SampleNoise(gpsNoise, params, sqrtDt, draws)
      ensures bias == BiasStep(old(bias), noise.randomWalk, dt, params.correlationTime)
      ensures gpsMsg == Message(nowUs, pos, vel, groundSpeed, noise, bias)
      ensures buffer == old(buffer) + [gpsMsg]
      ensures lastTimeUs == old(lastTimeUs) && lastGpsTimeUs == old(lastGpsTimeUs)
      ensures published == old(published)
    {
      noise := SampleNoise(gpsNoise, params, sqrtDt, draws);
      bias := BiasStep(bias, noise.randomWalk, dt, params.correlationTime);
      gpsMsg := Message(nowUs, pos, vel, groundSpeed, noise, bias);
      buffer := buffer + [gpsMsg];
    }

    /**
     One world update at simulator time `nowUs`, with the model's world
     position and velocity, the horizontal speed |(vel.x, vel.y)|, sqrt(dt)
     and the nine normal draws.
     */
    method OnUpdate(nowUs: int, pos: Vec3, vel: Vec3, groundSpeed: real, sqrtDt: real, draws: Draws)
      requires Valid()
      requires IsNorm(groundSpeed, Vec3(vel.x, vel.y, 0.0))
      modifies this
      ensures Valid()
      ensures noise == SampleNoise(gpsNoise, params, sqrtDt, draws)
      ensures bias == BiasStep(old(bias), noise.randomWalk,
                               (nowUs - old(lastTimeUs)) as real / 1000000.0, params.correlationTime)
      ensures var m := Message(nowUs, pos, vel, groundSpeed, noise, bias);
        var pushed := old(buffer) + [m];
        if nowUs - old(lastGpsTimeUs) > updateIntervalUs then
          && lastGpsTimeUs == nowUs
          && buffer == Prune(pushed, nowUs, delayUs, bufferSizeMax)
          && buffer != [] && IsSuffix(buffer, pushed) && buffer[|buffer| - 1] == m
          && Age(nowUs, buffer[0]) <= delayUs && |buffer| <= bufferSizeMax
          && gpsMsg == buffer[0]
          && published == old(published) + [buffer[0]]
        else
          && lastGpsTimeUs == old(lastGpsTimeUs)
          && buffer == pushed
          && gpsMsg == m
          && published == old(published)
      ensures lastTimeUs == nowUs
    {
      Stamp(nowUs, pos, vel, groundSpeed, sqrtDt, draws, (nowUs - lastTimeUs) as real / 1000000.0);
      ghost var m := gpsMsg;
      var pushed := buffer;
      assert m == Message(nowUs, pos, vel, groundSpeed, noise, bias);
      if nowUs - lastGpsTimeUs > updateIntervalUs {
        var pruned, front := PopStale(pushed, nowUs, delayUs, bufferSizeMax);
        lastGpsTimeUs, buffer, gpsMsg := nowUs, pruned, front;
        published := published + [front];
      }
      lastTimeUs := nowUs;
    }
  }
}
