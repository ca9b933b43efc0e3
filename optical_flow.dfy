/**
 The optical-flow camera plugin: Load checks the frame size and derives the
 focal length; every new frame derives dt from the camera's average frame
 rate, stops the integration timer, runs the flow estimator, fills a
 HIL_OPTICAL_FLOW-shaped record, publishes it and restarts the timer.

 The flow estimator (OpticalFlowPX4::calcFlow) is not part of this model: its
 result for a frame, the quality it returns and the two angles it writes, is
 an input of OnNewFrame and nothing is assumed about it.
 */
module OpticalFlow {
  import opened Common

  /** The only frame size the plugin accepts without an error message. */
  const RequiredSize: int := 64
  const SensorId: int := 2
  const NominalTemperature: real := 20.0

  /** What calcFlow hands back for one frame: its return value and its two out-parameters. */
  datatype FlowResult = FlowResult(quality: int, angleX: real, angleY: real)

  /** The opticalFlow message, field for field. */
  datatype FlowRecord = FlowRecord(
    timeUsec: int,
    sensorId: int,
    integrationTimeUs: FloatValue,
    integratedX: real,
    integratedY: real,
    integratedXGyro: real,
    integratedYGyro: real,
    integratedZGyro: real,
    temperature: real,
    quality: int,
    timeDeltaDistanceUs: int,
    distance: real)

  /** dt = 1.0 / rate; a rate of zero gives an IEEE infinity. */
  function FrameInterval(rate: real): (dt: FloatValue)
    ensures rate != 0.0 ==> dt.Num? && dt.v * rate == 1.0
    ensures rate == 0.0 ==> dt.NonFinite?
  {
    Divide(1.0, rate)
  }

  /** dt * 1000000, carried through a non-finite dt. */
  function Microseconds(dt: FloatValue): (us: FloatValue)
    ensures us.Num? <==> dt.Num?
    ensures dt.Num? ==> us.v == 1000000.0 * dt.v
  {
    match dt
    case Num(s) => Num(s * 1000000.0)
    case NonFinite => NonFinite
  }

  /** The record assembled from the frame rate and the estimator's result. */
  function BuildRecord(rate: real, flow: FlowResult): (r: FlowRecord)
    // placeholders that a downstream component fills in
    ensures r.timeUsec == 0 && r.timeDeltaDistanceUs == 0 && r.distance == 0.0
    ensures r.integratedXGyro == 0.0 && r.integratedYGyro == 0.0 && r.integratedZGyro == 0.0
    // constants, whatever the frame
    ensures r.sensorId == 2 && r.temperature == 20.0
    // the estimator's output is passed through untouched
    ensures r.quality == flow.quality && r.integratedX == flow.angleX && r.integratedY == flow.angleY
    // integration time is 10^6 / rate, with no guard for a zero rate
    ensures rate != 0.0 ==> r.integrationTimeUs == Num(1000000.0 / rate)
    ensures rate == 0.0 ==> r.integrationTimeUs == NonFinite
  {
    if rate != 0.0 then
      assert (1.0 / rate) * 1000000.0 == 1000000.0 / rate;
      Record(rate, flow)
    else
      Record(rate, flow)
  }

  function Record(rate: real, flow: FlowResult): FlowRecord {
    FlowRecord(
      timeUsec := 0,
      sensorId := SensorId,
      integrationTimeUs := Microseconds(FrameInterval(rate)),
      integratedX := flow.angleX,
      integratedY := flow.angleY,
      integratedXGyro := 0.0,
      integratedYGyro := 0.0,
      integratedZGyro := 0.0,
      temperature := NominalTemperature,
      quality := flow.quality,
      timeDeltaDistanceUs := 0,
      distance := 0.0)
  }

  /** What happens, in order, in one frame callback. */
  datatype Event = TimerStop | CalcFlow | Publish(record: FlowRecord) | TimerStart

  function FrameEvents(r: FlowRecord): seq<Event> {
    [TimerStop, CalcFlow, Publish(r), TimerStart]
  }

  function Publishes(t: seq<Event>): nat {
    if t == [] then 0 else (if t[0].Publish? then 1 else 0) + Publishes(t[1..])
  }

  function TimerEvents(t: seq<Event>): seq<Event> {
    if t == [] then []
    else (if t[0] == TimerStop || t[0] == TimerStart then [t[0]] else []) + TimerEvents(t[1..])
  }

  /** n repetitions of stop-then-start. */
  function StopStart(n: nat): seq<Event> {
    if n == 0 then [] else StopStart(n - 1) + [TimerStop, TimerStart]
  }

  lemma {:induction false} PublishesConcat(a: seq<Event>, b: seq<Event>)
    ensures Publishes(a + b) == Publishes(a) + Publishes(b)
  {
    if a == [] {
      assert a + b == b;
    } else {
      assert (a + b)[1..] == a[1..] + b;
      PublishesConcat(a[1..], b);
    }
  }

  lemma {:induction false} TimerEventsConcat(a: seq<Event>, b: seq<Event>)
    ensures TimerEvents(a + b) == TimerEvents(a) + TimerEvents(b)
  {
    if a == [] {
      assert a + b == b;
    } else {
      assert (a + b)[1..] == a[1..] + b;
      TimerEventsConcat(a[1..], b);
      var head := if a[0] == TimerStop || a[0] == TimerStart then [a[0]] else [];
      assert TimerEvents(a + b) == head + TimerEvents(a[1..] + b);
      assert TimerEvents(a) == head + TimerEvents(a[1..]);
      assert head + (TimerEvents(a[1..]) + TimerEvents(b)) == (head + TimerEvents(a[1..])) + TimerEvents(b);
    }
  }

  /**
   One frame adds exactly one published record, and to the timer exactly one
   stop followed by one start.
   */
  lemma FrameEventsCounts(r: FlowRecord)
    ensures Publishes(FrameEvents(r)) == 1
    ensures TimerEvents(FrameEvents(r)) == [TimerStop, TimerStart]
  {
    var t := FrameEvents(r);
    var t1, t2, t3 := t[1..], t[1..][1..], t[1..][1..][1..];
    assert t1 == [CalcFlow, Publish(r), TimerStart];
    assert t2 == [Publish(r), TimerStart];
    assert t3 == [TimerStart] && t3[1..] == [];
    assert Publishes(t3) == 0 && TimerEvents(t3) == [TimerStart];
    assert Publishes(t2) == 1 && TimerEvents(t2) == [TimerStart];
    assert Publishes(t1) == 1 && TimerEvents(t1) == [TimerStart];
  }

  class OpticalFlowPlugin {
    var width: int
    var height: int
    var focalLength: FloatValue
    /** The "Incorrect image size" error was written by Load. */
    var sizeErrorLogged: bool
    var frameCallbackConnected: bool
    var sensorActive: bool
    /** The focal length the estimator was created with, once Load has run. */
    var estimatorFocalLength: Option<FloatValue>
    var rate: real
    var dt: FloatValue
    var message: FlowRecord
    /** Everything the frame callbacks did, in order. */
    var events: seq<Event>
    ghost var frames: nat

    ghost predicate Valid()
      reads this
    {
      Publishes(events) == frames && TimerEvents(events) == StopStart(frames)
    }

    constructor ()
      ensures Valid() && frames == 0 && events == []
      ensures width == 0 && height == 0
      ensures !frameCallbackConnected && !sensorActive && estimatorFocalLength == None
    {
      width, height := 0, 0;
      focalLength := Num(0.0);
      sizeErrorLogged := false;
      frameCallbackConnected, sensorActive := false, false;
      estimatorFocalLength := None;
      rate, dt := 0.0, Num(0.0);
      message := BuildRecord(1.0, FlowResult(0, 0.0, 0.0));
      events := [];
      frames := 0;
    }

    /**
     Load with the camera's image size and tan(hfov / 2). A size other than
     64 x 64 only produces an error message: the frame callback is still
     connected, the sensor activated and the estimator created.
     */
    method Load(imageWidth: nat, imageHeight: nat, tanHalfHfov: real)
      requires Valid()
      modifies this
      ensures Valid() && frames == old(frames) && events == old(events)
      ensures width == imageWidth && height == imageHeight
      ensures sizeErrorLogged <==> (imageWidth != RequiredSize || imageHeight != RequiredSize)
      ensures focalLength == Divide((imageWidth / 2) as real, tanHalfHfov)
      ensures frameCallbackConnected && sensorActive
      ensures estimatorFocalLength == Some(focalLength)
      ensures rate == old(rate) && dt == old(dt) && message == old(message)
    {
      width := imageWidth;
      height := imageHeight;
      sizeErrorLogged := width != RequiredSize || height != RequiredSize;
      // integer division of the unsigned width, then a floating-point division
      focalLength := Divide((width / 2) as real, tanHalfHfov);
      frameCallbackConnected := true;
      sensorActive := true;
      estimatorFocalLength := Some(focalLength);
    }

    /**
     One frame: `avgFps` is the camera's reported average rate, `flow` what
     the estimator returns for this frame.
     */
    method OnNewFrame(avgFps: real, flow: FlowResult)
      requires Valid()
      modifies this
      ensures Valid() && frames == old(frames) + 1
      ensures rate == avgFps && dt == FrameInterval(avgFps)
      ensures message == BuildRecord(avgFps, flow)
      ensures events == old(events) + FrameEvents(message)
      ensures width == old(width) && height == old(height) && focalLength == old(focalLength)
      ensures sizeErrorLogged == old(sizeErrorLogged)
      ensures frameCallbackConnected == old(frameCallbackConnected)
      ensures sensorActive == old(sensorActive) && estimatorFocalLength == old(estimatorFocalLength)
    {
      rate := avgFps;
      dt := FrameInterval(rate);
      events := events + [TimerStop];
      events := events + [CalcFlow];
      message := BuildRecord(rate, flow);
      events := events + [Publish(message)];
      events := events + [TimerStart];
      frames := frames + 1;

      assert events == old(events) + FrameEvents(message);
      PublishesConcat(old(events), FrameEvents(message));
      TimerEventsConcat(old(events), FrameEvents(message));
      FrameEventsCounts(message);
    }
  }

  /** After n frames, n records were published and the timer was stopped and restarted n times. */
  lemma FramesPublishOnce(p: OpticalFlowPlugin)
    requires p.Valid()
    ensures Publishes(p.events) == p.frames
    ensures |TimerEvents(p.events)| == 2 * p.frames
  {
    StopStartLength(p.frames);
  }

  lemma {:induction false} StopStartLength(n: nat)
    ensures |StopStart(n)| == 2 * n
  {
    if n > 0 {
      StopStartLength(n - 1);
    }
  }
}
