/**
 The gimbal controller's decision logic: angle folding into (-pi, pi], the
 time-reset branching of the update, the per-axis error that is handed to
 the joint PIDs, and the function-static counter that throttles the status
 messages.

 Simulator time is an integer number of nanoseconds. The quaternion maths
 (QtoZXY, the IMU orientation) and the joint limits are inputs; the gazebo
 common::PID the errors are fed to is not part of this model, so a control
 step is recorded as the dt and the three errors it passes on.
 */
module GimbalController {
  import opened Common

  const TwoPi: real := 2.0 * PI

  /**
   Fold `angle` about `reference`: the result differs from `angle` by a whole
   number of turns and lies in (reference - pi, reference + pi].
   */
  method NormalizeAbout(angle: real, reference: real) returns (r: real, ghost turns: int)
    ensures -PI < r - reference <= PI
    ensures r == angle + (turns as real) * TwoPi
    ensures -PI < angle - reference <= PI ==> r == angle
  {
    var diff := angle - reference;
    turns := 0;
    while diff <= -PI
      invariant diff == angle - reference + (turns as real) * TwoPi
      invariant turns >= 0
      invariant -PI < angle - reference ==> turns == 0
      decreases (-diff).Floor
    {
      diff := diff + TwoPi;
      turns := turns + 1;
    }
    while diff > PI
      invariant diff == angle - reference + (turns as real) * TwoPi
      invariant diff > -PI
      invariant -PI < angle - reference <= PI ==> turns == 0
      decreases diff.Floor
    {
      diff := diff - TwoPi;
      turns := turns - 1;
    }
    r := diff + reference;
  }

  /** The signed angle from `from` to `to`, folded into (-pi, pi]. */
  method ShortestAngularDistance(from: real, to: real) returns (d: real, ghost turns: int)
    ensures -PI < d <= PI
    ensures d == to - from + (turns as real) * TwoPi
  {
    var folded;
    folded, turns := NormalizeAbout(to, from);
    d := folded - from;
  }

  /** ignition::math::clamp: max(min(v, hi), lo). */
  function Clamp(v: real, lo: real, hi: real): (r: real)
    ensures lo <= hi ==> lo <= r <= hi
    ensures lo <= v <= hi ==> r == v
    ensures lo <= hi && v < lo ==> r == lo
    ensures lo <= hi && v > hi ==> r == hi
    ensures hi < lo ==> r == lo
  {
    var m := if v < hi then v else hi;
    if m > lo then m else lo
  }

  /**
   Clamp an error so that current - error stays inside the joint limits,
   whichever order the (direction-flipped) limits come in.
   */
  function LimitError(error: real, current: real, lower: real, upper: real): (r: real)
    ensures lower < upper ==> current - upper <= r <= current - lower
    ensures upper <= lower ==> current - lower <= r <= current - upper
  {
    if lower < upper then Clamp(error, current - upper, current - lower)
    else Clamp(error, current - lower, current - upper)
  }

  function Abs(x: real): real {
    if x < 0.0 then -x else x
  }

  /**
   The comparison with the direct Euler error: both branches assign
   current - command, so the folded and clamped candidate never survives.
   */
  function SelectError(candidate: real, current: real, command: real): (r: real)
    ensures r == current - command
  {
    var direct := current - command;
    if Abs(candidate) > Abs(direct) then direct else direct
  }

  /** What one control step hands to the pitch, roll and yaw PIDs. */
  datatype ControlStep = ControlStep(dt: real, pitchError: real, rollError: real, yawError: real)

  /** The three status strings, built with one stream that is never cleared. */
  function StatusMessages(pitch: string, roll: string, yaw: string): (m: seq<string>)
    ensures |m| == 3 && m[0] == pitch
    ensures |m[1]| == |pitch| + |roll| && |m[2]| == |m[1]| + |yaw|
    ensures m[1][..|pitch|] == pitch && m[1][|pitch|..] == roll
    ensures m[2][..|m[1]|] == m[1] && m[2][|m[1]|..] == yaw
  {
    [pitch, pitch + roll, pitch + roll + yaw]
  }

  /** One use of the function-static counter: ++i > 100 publishes and resets. */
  function CounterStep(i: int): (int, bool) {
    if i + 1 > 100 then (0, true) else (i + 1, false)
  }

  /** The counter after n counted calls, starting from 1000. */
  function CounterAfter(n: nat): int {
    if n == 0 then 1000 else CounterStep(CounterAfter(n - 1)).0
  }

  /**
   The first counted call publishes, and then every 101st: call n (from 1)
   publishes exactly when (n - 1) is a multiple of 101.
   */
  lemma {:induction false} CounterCycle(n: nat)
    requires n >= 1
    ensures CounterAfter(n) == (n - 1) % 101
    ensures CounterStep(CounterAfter(n - 1)).1 <==> (n - 1) % 101 == 0
  {
    if n > 1 {
      CounterCycle(n - 1);
      var q, j := (n - 2) / 101, (n - 2) % 101;
      assert n - 2 == 101 * q + j;
      assert CounterAfter(n) == CounterStep(j).0;
      if j == 100 {
        RemainderOf(n - 1, q + 1, 0);
      } else {
        RemainderOf(n - 1, q, j + 1);
      }
    }
  }

  /** x % 101 is r when x is 101 q + r with r a remainder. */
  lemma RemainderOf(x: int, q: int, r: int)
    requires x == 101 * q + r && 0 <= r < 101
    ensures x % 101 == r
  {
  }

  /** The `static int i` of OnUpdate, shared by every gimbal plugin instance. */
  class StatusCounter {
    var i: int
    /** The status strings published so far, three per publishing call. */
    var published: seq<seq<string>>
    ghost var calls: nat

    ghost predicate Valid()
      reads this
    {
      i == CounterAfter(calls)
    }

    constructor ()
      ensures Valid() && calls == 0 && i == 1000 && published == []
    {
      i := 1000;
      published := [];
      calls := 0;
    }

    /** ++i > 100: reset and publish the current pitch, roll and yaw angle texts. */
    method Tick(pitch: string, roll: string, yaw: string) returns (didPublish: bool)
      requires Valid()
      modifies this
      ensures Valid() && calls == old(calls) + 1
      ensures didPublish <==> old(i) + 1 > 100
      ensures didPublish <==> (calls - 1) % 101 == 0
      ensures didPublish ==> i == 0 && published == old(published) + [StatusMessages(pitch, roll, yaw)]
      ensures !didPublish ==> i == old(i) + 1 && published == old(published)
    {
      CounterCycle(calls + 1);
      i := i + 1;
      didPublish := i > 100;
      if didPublish {
        i := 0;
        var ss := pitch;
        var m1 := ss;
        ss := ss + roll;
        var m2 := ss;
        ss := ss + yaw;
        var m3 := ss;
        published := published + [[m1, m2, m3]];
      }
      calls := calls + 1;
    }
  }

  /**
   The readings one update works from: the negated quaternion error and the
   current angles (pitch, roll, yaw in x, y, z), and the joint limits with
   the joint directions already applied.
   */
  datatype Readings = Readings(errors: Vec3, current: Vec3, lower: Vec3, upper: Vec3)

  class GimbalController {
    var lastUpdateTime: int
    var pitchCommand: real
    var rollCommand: real
    var yawCommand: real
    var steps: seq<ControlStep>
    var timeResets: nat

    constructor (simTime: int)
      ensures lastUpdateTime == simTime && steps == [] && timeResets == 0
      ensures pitchCommand == 0.5 * PI && rollCommand == 0.0 && yawCommand == 0.0
    {
      lastUpdateTime := simTime;
      pitchCommand, rollCommand, yawCommand := 0.5 * PI, 0.0, 0.0;
      steps := [];
      timeResets := 0;
    }

    /** One per-axis error: fold, clamp to the limits, then compare with the direct error. */
    method AxisError(error: real, current: real, lower: real, upper: real, command: real) returns (e: real)
      ensures e == current - command
    {
      var folded, _ := NormalizeAbout(error, 0.0);
      var limited := LimitError(folded, current, lower, upper);
      e := SelectError(limited, current, command);
    }

    /**
     One world update at `time`. `counter` is the static counter shared by
     all instances; the angle texts are what the joints' angles print as.
     */
    method OnUpdate(jointsPresent: bool, time: int, rd: Readings,
                    counter: StatusCounter, pitchText: string, rollText: string, yawText: string)
      requires counter.Valid()
      modifies this, counter
      ensures counter.Valid()
      ensures pitchCommand == old(pitchCommand) && rollCommand == old(rollCommand) && yawCommand == old(yawCommand)
      // a missing joint: nothing at all happens
      ensures !jointsPresent ==>
        lastUpdateTime == old(lastUpdateTime) && steps == old(steps)
        && timeResets == old(timeResets) && counter.calls == old(counter.calls)
        && counter.i == old(counter.i) && counter.published == old(counter.published)
      // time went backwards: resynchronise and return before the counter
      ensures jointsPresent && time < old(lastUpdateTime) ==>
        lastUpdateTime == time && steps == old(steps) && timeResets == old(timeResets) + 1
        && counter.calls == old(counter.calls) && counter.i == old(counter.i)
        && counter.published == old(counter.published)
      // same time: no control step, but the counter runs
      ensures jointsPresent && time == old(lastUpdateTime) ==>
        lastUpdateTime == old(lastUpdateTime) && steps == old(steps) && timeResets == old(timeResets)
        && counter.calls == old(counter.calls) + 1
      // time advanced: one control step with dt = last - time < 0, then the counter
      ensures jointsPresent && time > old(lastUpdateTime) ==>
        lastUpdateTime == time && timeResets == old(timeResets)
        && counter.calls == old(counter.calls) + 1
        && steps == old(steps) + [ControlStep((old(lastUpdateTime) - time) as real / 1000000000.0,
                                              rd.current.x - pitchCommand,
                                              rd.current.y - rollCommand,
                                              rd.current.z - yawCommand)]
        && steps[|steps| - 1].dt < 0.0
      // wherever the counter runs, it publishes on the first call and then on every 101st
      ensures jointsPresent && time >= old(lastUpdateTime) ==>
        counter.published == old(counter.published)
          + (if (counter.calls - 1) % 101 == 0 then [StatusMessages(pitchText, rollText, yawText)] else [])
    {
      if !jointsPresent {
        return;
      }
      if time < lastUpdateTime {
        lastUpdateTime := time;
        timeResets := timeResets + 1;
        return;
      } else if time > lastUpdateTime {
        var dt := (lastUpdateTime - time) as real / 1000000000.0;
        var pitchError := AxisError(rd.errors.x, rd.current.x, rd.lower.x, rd.upper.x, pitchCommand);
        var rollError := AxisError(rd.errors.y, rd.current.y, rd.lower.y, rd.upper.y, rollCommand);
        var yawError := AxisError(rd.errors.z, rd.current.z, rd.lower.z, rd.upper.z, yawCommand);
        steps := steps + [ControlStep(dt, pitchError, rollError, yawError)];
        lastUpdateTime := time;
      }
      var _ := counter.Tick(pitchText, rollText, yawText);
    }
  }
}
