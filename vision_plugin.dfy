/**
 The vision (visual odometry) plugin: parameters with defaults, a publish
 gate on the time since the last publication, the pose relative to the
 start pose, a random-walk bias, and an odometry message whose covariance
 lists grow by 36 entries with every publication because the message is a
 member that is never cleared.

 Simulation time is in whole microseconds. sqrt(dt) and the normal draws are
 inputs; the angular-rate noise (built from exp and sqrt) is an input too.
 Orientation is kept as roll, pitch, yaw: the Euler-to-quaternion conversion
 is not part of this model.
 */
module VisionPlugin {
  import opened Common

  const DefaultPubRate: real := 30.0
  const DefaultCorrelationTime: real := 60.0
  const DefaultRandomWalk: real := 1.0
  const DefaultNoiseDensity: real := 0.0005
  const DefaultEnableRosOdom: bool := false

  datatype Params = Params(pubRate: real, correlationTime: real, randomWalk: real,
                           noiseDensity: real, enableRosOdom: bool)

  /** getSdfParams: each element if present, else its default. pubRate is read as an int. */
  function SdfParams(pubRate: Option<int>, correlationTime: Option<real>, randomWalk: Option<real>,
                     noiseDensity: Option<real>, enableRosOdom: Option<bool>): (p: Params)
    ensures p.pubRate == (if pubRate.Some? then pubRate.value as real else 30.0)
    ensures p.correlationTime == (if correlationTime.Some? then correlationTime.value else 60.0)
    ensures p.randomWalk == (if randomWalk.Some? then randomWalk.value else 1.0)
    ensures p.noiseDensity == (if noiseDensity.Some? then noiseDensity.value else 0.0005)
    ensures p.enableRosOdom == (enableRosOdom.Some? && enableRosOdom.value)
  {
    Params(
      if pubRate.Some? then pubRate.value as real else DefaultPubRate,
      if correlationTime.Some? then correlationTime.value else DefaultCorrelationTime,
      if randomWalk.Some? then randomWalk.value else DefaultRandomWalk,
      if noiseDensity.Some? then noiseDensity.value else DefaultNoiseDensity,
      if enableRosOdom.Some? then enableRosOdom.value else DefaultEnableRosOdom)
  }

  /**
   dt > 1.0 / pub_rate. A zero rate divides to +infinity, which no dt
   exceeds, so a zero rate never publishes.
   */
  function PublishDue(dt: real, pubRate: real): (due: bool)
    ensures pubRate == 0.0 ==> !due
    ensures pubRate > 0.0 ==> (due <==> dt * pubRate > 1.0)
  {
    if pubRate == 0.0 then false
    else
      RateGate(dt, pubRate);
      dt > 1.0 / pubRate
  }

  lemma RateGate(dt: real, pubRate: real)
    requires pubRate != 0.0
    ensures pubRate > 0.0 ==> (dt > 1.0 / pubRate <==> dt * pubRate > 1.0)
  {
    if pubRate > 0.0 {
      var q := 1.0 / pubRate;
      var one := q * pubRate;
      assert one == 1.0;
      ScaleKeepsOrder(dt, q, pubRate);
      assert dt > q <==> dt * pubRate > one;
    }
  }

  /** Multiplying both sides by a positive number keeps a strict order. */
  lemma ScaleKeepsOrder(a: real, b: real, r: real)
    requires r > 0.0
    ensures a > b <==> a * r > b * r
  {
    assert (a - b) * r == a * r - b * r;
    if a > b {
      assert (a - b) * r > 0.0;
    } else {
      assert (b - a) * r >= 0.0;
    }
  }

  /** A pose as position plus roll, pitch and yaw. */
  datatype Pose = Pose(pos: Vec3, roll: real, pitch: real, yaw: real)

  /** The pose relative to the start: position difference, world roll and pitch, yaw difference. */
  function RelativePose(world: Pose, start: Pose): (p: Pose)
    ensures p.pos == Sub(world.pos, start.pos)
    ensures p.roll == world.roll && p.pitch == world.pitch && p.yaw + start.yaw == world.yaw
    ensures world == start ==> p == Pose(Vec3(0.0, 0.0, 0.0), world.roll, world.pitch, 0.0)
  {
    Pose(Sub(world.pos, start.pos), world.roll, world.pitch, world.yaw - start.yaw)
  }

  /** Entries 0, 7, 14, 21, 28 and 35 of a row-major 6 x 6 matrix: its diagonal. */
  predicate OnDiagonal(k: int) {
    k == 0 || k == 7 || k == 14 || k == 21 || k == 28 || k == 35
  }

  function CovarianceEntry(k: int, noiseDensity: real): real {
    if OnDiagonal(k) then noiseDensity * noiseDensity else 0.0
  }

  /** One 6 x 6 covariance matrix, row-major: nd^2 on the diagonal, 0 elsewhere. */
  function CovarianceBlock(nd: real): (b: seq<real>)
    ensures |b| == 36
    ensures forall k :: 0 <= k < 36 ==> b[k] == CovarianceEntry(k, nd)
  {
    seq(36, k => CovarianceEntry(k, nd))
  }

  /** Every entry of a covariance list after whole blocks of 36. */
  ghost predicate Blocks(cov: seq<real>, noiseDensity: real) {
    |cov| % 36 == 0 && forall i :: 0 <= i < |cov| ==> cov[i] == CovarianceEntry(i % 36, noiseDensity)
  }

  /** The nine normal draws the position, velocity and random-walk noise take, in order. */
  datatype Draws = Draws(pos: Vec3, vel: Vec3, walk: Vec3)

  class VisionPlugin {
    const params: Params
    const startPose: Pose
    var updateConnected: bool
    var lastTimeUs: int
    var lastPubTimeUs: int
    var currentTimeUs: int
    var bias: Vec3
    /** The odom_msg member. */
    var usec: int
    var position: Vec3
    var orientation: Pose
    var linearVelocity: Vec3
    var angularVelocity: Vec3
    var poseCovariance: seq<real>
    var twistCovariance: seq<real>
    var publications: nat

    ghost predicate Valid()
      reads this`poseCovariance, this`twistCovariance, this`publications
    {
      params.correlationTime != 0.0
      && |poseCovariance| == 36 * publications && |twistCovariance| == 36 * publications
      && Blocks(poseCovariance, params.noiseDensity) && Blocks(twistCovariance, params.noiseDensity)
    }

    /**
     Load at simulation time `simTimeUs` with the model's pose then. With ROS
     odometry enabled no update callback is connected.
     */
    constructor Load(p: Params, simTimeUs: int, modelPose: Pose)
      requires p.correlationTime != 0.0
      ensures Valid() && publications == 0
      ensures params == p && startPose == modelPose
      ensures lastTimeUs == simTimeUs && lastPubTimeUs == simTimeUs
      ensures updateConnected <==> !p.enableRosOdom
      ensures bias == Vec3(0.0, 0.0, 0.0)
    {
      params := p;
      startPose := modelPose;
      lastTimeUs, lastPubTimeUs, currentTimeUs := simTimeUs, simTimeUs, simTimeUs;
      bias := Vec3(0.0, 0.0, 0.0);
      usec := 0;
      position, linearVelocity, angularVelocity := Vec3(0.0, 0.0, 0.0), Vec3(0.0, 0.0, 0.0), Vec3(0.0, 0.0, 0.0);
      orientation := Pose(Vec3(0.0, 0.0, 0.0), 0.0, 0.0, 0.0);
      poseCovariance, twistCovariance := [], [];
      publications := 0;
      if p.enableRosOdom {
        updateConnected := false;
      } else {
        updateConnected := true;
      }
    }

    /**
     The 36-step loop: one entry appended to each covariance list per step,
     for one more publication.
     */
    method AppendCovariances()
      requires Valid()
      modifies this
      ensures Valid()
      ensures poseCovariance == old(poseCovariance) + CovarianceBlock(params.noiseDensity)
      ensures twistCovariance == old(twistCovariance) + CovarianceBlock(params.noiseDensity)
      ensures publications == old(publications) + 1
      ensures updateConnected == old(updateConnected) && bias == old(bias)
      ensures lastTimeUs == old(lastTimeUs) && lastPubTimeUs == old(lastPubTimeUs)
      ensures currentTimeUs == old(currentTimeUs) && usec == old(usec)
      ensures position == old(position) && orientation == old(orientation)
      ensures linearVelocity == old(linearVelocity) && angularVelocity == old(angularVelocity)
    {
      var nd := params.noiseDensity;
      ghost var block := CovarianceBlock(nd);
      var pose0, twist0 := poseCovariance, twistCovariance;
      var pose, twist := pose0, twist0;
      for i := 0 to 36
        invariant pose == pose0 + block[..i]
        invariant twist == twist0 + block[..i]
      {
        assert block[..i + 1] == block[..i] + [block[i]];
        assert block[i] == CovarianceEntry(i, nd);
        assert OnDiagonal(i) ==> block[i] == nd * nd;
        if OnDiagonal(i) {
          pose := pose + [nd * nd];
          twist := twist + [nd * nd];
        } else {
          pose := pose + [0.0];
          twist := twist + [0.0];
        }
      }
      assert block[..36] == block;
      BlocksGrow(pose0, nd);
      BlocksGrow(twist0, nd);
      poseCovariance, twistCovariance := pose, twist;
      publications := publications + 1;
    }

    /**
     The message fields a publishing update sets from the position and
     velocity noise and the random-walk sample, after stepping the bias.
     */
    method SetMessage(dt: real, worldPose: Pose, worldVel: Vec3, angularVel: Vec3,
                      noisePos: Vec3, noiseVel: Vec3, randomWalk: Vec3, angularNoise: Vec3)
      requires params.correlationTime != 0.0
      modifies this
      ensures bias == BiasStep(old(bias), randomWalk, dt, params.correlationTime)
      ensures usec == currentTimeUs && lastPubTimeUs == currentTimeUs
      ensures orientation == RelativePose(worldPose, startPose)
      ensures position == Add(Add(orientation.pos, noisePos), bias)
      ensures linearVelocity == Add(Add(worldVel, noiseVel), bias)
      ensures angularVelocity == Add(angularVel, angularNoise)
      ensures publications == old(publications)
      ensures poseCovariance == old(poseCovariance) && twistCovariance == old(twistCovariance)
      ensures currentTimeUs == old(currentTimeUs)
      ensures updateConnected == old(updateConnected) && lastTimeUs == old(lastTimeUs)
    {
      var rel := RelativePose(worldPose, startPose);
      var b := BiasStep(bias, randomWalk, dt, params.correlationTime);
      bias, usec, orientation := b, currentTimeUs, rel;
      position := Add(Add(rel.pos, noisePos), b);
      linearVelocity := Add(Add(worldVel, noiseVel), b);
      angularVelocity := Add(angularVel, angularNoise);
      lastPubTimeUs := currentTimeUs;
    }

    /** The publishing branch of an update: bias step, message fields, covariance lists. */
    method Publish(dt: real, worldPose: Pose, worldVel: Vec3, angularVel: Vec3,
                   sqrtDt: real, draws: Draws, angularNoise: Vec3)
      requires Valid()
      modifies this
      ensures Valid()
      ensures bias == BiasStep(old(bias), Scale(params.randomWalk * sqrtDt, draws.walk), dt, params.correlationTime)
      ensures usec == currentTimeUs && lastPubTimeUs == currentTimeUs
      ensures orientation == RelativePose(worldPose, startPose)
      ensures position == Add(Add(orientation.pos, Scale(params.noiseDensity * sqrtDt, draws.pos)), bias)
      ensures linearVelocity == Add(Add(worldVel, Scale(params.noiseDensity * sqrtDt, draws.vel)), bias)
      ensures angularVelocity == Add(angularVel, angularNoise)
      ensures publications == old(publications) + 1
      ensures poseCovariance == old(poseCovariance) + CovarianceBlock(params.noiseDensity)
      ensures twistCovariance == old(twistCovariance) + CovarianceBlock(params.noiseDensity)
      ensures currentTimeUs == old(currentTimeUs)
      ensures updateConnected == old(updateConnected) && lastTimeUs == old(lastTimeUs)
    {
      var nd := params.noiseDensity;
      var noisePos, noiseVel := Scale(nd * sqrtDt, draws.pos), Scale(nd * sqrtDt, draws.vel);
      var walk := Scale(params.randomWalk * sqrtDt, draws.walk);
      SetMessage(dt, worldPose, worldVel, angularVel, noisePos, noiseVel, walk, angularNoise);
      AppendCovariances();
    }

    /**
     One world update at `nowUs`, with the model's world pose and velocities,
     sqrt(dt), the normal draws and the angular-rate noise. The current time
     is recorded on every update; a message goes out only once more than
     1 / pub_rate seconds have passed since the last one.
     */
    method OnUpdate(nowUs: int, worldPose: Pose, worldVel: Vec3, angularVel: Vec3,
                    sqrtDt: real, draws: Draws, angularNoise: Vec3)
      requires Valid()
      modifies this
      ensures Valid()
      ensures currentTimeUs == nowUs
      ensures var dt := (nowUs - old(lastPubTimeUs)) as real / 1000000.0;
        if PublishDue(dt, params.pubRate) then
          && bias == BiasStep(old(bias), Scale(params.randomWalk * sqrtDt, draws.walk), dt, params.correlationTime)
          && usec == nowUs && lastPubTimeUs == nowUs
          && orientation == RelativePose(worldPose, startPose)
          && position == Add(Add(orientation.pos, Scale(params.noiseDensity * sqrtDt, draws.pos)), bias)
          && linearVelocity == Add(Add(worldVel, Scale(params.noiseDensity * sqrtDt, draws.vel)), bias)
          && angularVelocity == Add(angularVel, angularNoise)
          && publications == old(publications) + 1
          && poseCovariance == old(poseCovariance) + CovarianceBlock(params.noiseDensity)
          && twistCovariance == old(twistCovariance) + CovarianceBlock(params.noiseDensity)
        else
          && bias == old(bias) && publications == old(publications)
          && poseCovariance == old(poseCovariance) && twistCovariance == old(twistCovariance)
          && lastPubTimeUs == old(lastPubTimeUs) && usec == old(usec)
          && position == old(position) && orientation == old(orientation)
          && linearVelocity == old(linearVelocity) && angularVelocity == old(angularVelocity)
      ensures updateConnected == old(updateConnected) && lastTimeUs == old(lastTimeUs)
    {
      currentTimeUs := nowUs;
      var dt := (currentTimeUs - lastPubTimeUs) as real / 1000000.0;
      if PublishDue(dt, params.pubRate) {
        Publish(dt, worldPose, worldVel, angularVel, sqrtDt, draws, angularNoise);
      }
    }
  }

  /** Appending one more block of 36 keeps the block layout. */
  lemma BlocksGrow(cov: seq<real>, nd: real)
    requires Blocks(cov, nd)
    ensures Blocks(cov + CovarianceBlock(nd), nd)
  {
    var block := CovarianceBlock(nd);
    var grown := cov + block;
    forall i | 0 <= i < |grown|
      ensures grown[i] == CovarianceEntry(i % 36, nd)
    {
      if i >= |cov| {
        var n := |cov| / 36;
        assert |cov| == 36 * n;
        assert i % 36 == i - |cov|;
      }
    }
  }
}
