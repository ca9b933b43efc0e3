/**
 The lidar (ray sensor) plugin: Load reads and clamps the distance limits,
 derives the publish topic and the root and sensor model names from the
 sensor's scoped parent name, and looks up the base link and the sensor
 link; every scan publishes one Range message whose distance is clamped to
 the limits.

 The root model's link names are an input (the world lookup is not
 modelled), and the orientation Load computes from the link poses is an
 opaque quaternion input.
 */
module LidarPlugin {
  import opened Common

  /**
   The limits Load names kSensorMinDistance, kSensorMaxDistance,
   kDefaultMinDistance and kDefaultMaxDistance. The plugin header defines them
   only as the macros SENSOR_MIN_DISTANCE, SENSOR_MAX_DISTANCE,
   DEFAULT_MIN_DISTANCE and DEFAULT_MAX_DISTANCE; these are their values.
   */
  const SensorMinDistance: real := 0.06
  const SensorMaxDistance: real := 35.0
  const DefaultMinDistance: real := 0.2
  const DefaultMaxDistance: real := 15.0
  /** 3 degrees. */
  const FieldOfView: real := 0.0523598776

  /** min_distance_: the configured value raised to the sensor minimum, or the default. */
  function MinDistance(configured: Option<real>): (r: real)
    ensures configured.Some? ==> r >= SensorMinDistance && r >= configured.value
    ensures configured.Some? && configured.value >= SensorMinDistance ==> r == configured.value
    ensures configured.None? ==> r == DefaultMinDistance
  {
    match configured
    case Some(d) => if d < SensorMinDistance then SensorMinDistance else d
    case None => DefaultMinDistance
  }

  /** max_distance_: the configured value lowered to the sensor maximum, or the default. */
  function MaxDistance(configured: Option<real>): (r: real)
    ensures configured.Some? ==> r <= SensorMaxDistance && r <= configured.value
    ensures configured.Some? && configured.value <= SensorMaxDistance ==> r == configured.value
    ensures configured.None? ==> r == DefaultMaxDistance
  {
    match configured
    case Some(d) => if d > SensorMaxDistance then SensorMaxDistance else d
    case None => DefaultMaxDistance
  }

  /** boost::split at every ':' (no token compression): "a::b" gives "a", "", "b". */
  function SplitColons(s: string): (pieces: seq<string>)
    ensures |pieces| >= 1
    ensures forall i :: 0 <= i < |pieces| ==> ':' !in pieces[i]
    ensures ':' !in s ==> pieces == [s]
  {
    if s == [] then [""]
    else
      var rest := SplitColons(s[1..]);
      if s[0] == ':' then [""] + rest
      else
        assert s == [s[0]] + s[1..];
        [[s[0]] + rest[0]] + rest[1..]
  }

  /** The pieces joined back with ':' give the original name. */
  function JoinColons(pieces: seq<string>): string
    requires |pieces| >= 1
  {
    if |pieces| == 1 then pieces[0] else pieces[0] + ":" + JoinColons(pieces[1..])
  }

  lemma {:induction false} SplitJoin(s: string)
    ensures JoinColons(SplitColons(s)) == s
  {
    if s != [] {
      SplitJoin(s[1..]);
      var rest := SplitColons(s[1..]);
      if s[0] == ':' {
        assert ([""] + rest)[1..] == rest;
        assert s == [':'] + s[1..];
      } else {
        var p := [[s[0]] + rest[0]] + rest[1..];
        if |rest| == 1 {
          assert s == [s[0]] + s[1..];
        } else {
          assert p[1..] == rest[1..];
          assert JoinColons(rest) == rest[0] + ":" + JoinColons(rest[1..]);
          assert s == [s[0]] + s[1..];
        }
      }
    }
  }

  /** The erase/remove_if idiom: the pieces that are not empty, in order. */
  function NonEmpty(pieces: seq<string>): (r: seq<string>)
    ensures |r| <= |pieces|
    ensures forall x :: x in r <==> x in pieces && x != ""
    ensures |pieces| == 1 ==> r == (if pieces[0] == "" then [] else pieces)
  {
    if pieces == [] then []
    else (if pieces[0] == "" then [] else [pieces[0]]) + NonEmpty(pieces[1..])
  }

  /** Filtering a concatenation filters each part and keeps them in order. */
  lemma {:induction false} NonEmptyConcat(a: seq<string>, b: seq<string>)
    ensures NonEmpty(a + b) == NonEmpty(a) + NonEmpty(b)
  {
    if a == [] {
      assert a + b == b;
    } else {
      assert (a + b)[1..] == a[1..] + b;
      NonEmptyConcat(a[1..], b);
    }
  }

  /** Every non-empty piece is kept as often as it occurs, and no empty one. */
  lemma {:induction false} NonEmptyCounts(pieces: seq<string>)
    ensures multiset(NonEmpty(pieces)) == multiset(pieces)["" := 0]
  {
    if pieces != [] {
      NonEmptyCounts(pieces[1..]);
      assert pieces == [pieces[0]] + pieces[1..];
    }
  }

  /** Drop the empty strings, keeping the order of the others. */
  method RemoveEmpty(names: seq<string>) returns (r: seq<string>)
    ensures r == NonEmpty(names)
  {
    r := [];
    var i := |names|;
    while i > 0
      invariant 0 <= i <= |names|
      invariant r == NonEmpty(names[i..])
    {
      i := i - 1;
      assert names[i..][1..] == names[i + 1..];
      if names[i] != "" {
        r := [names[i]] + r;
      }
    }
  }

  /** std::string::find(pattern) != npos. */
  predicate Contains(s: string, pattern: string) {
    exists i :: 0 <= i <= |s| - |pattern| && OccursAt(s, pattern, i)
  }

  predicate OccursAt(s: string, pattern: string, i: int)
    requires 0 <= i <= |s| - |pattern|
  {
    s[i..i + |pattern|] == pattern
  }

  /** The first link whose name contains `pattern`, as the range-for loop with break finds it. */
  /** Some link name in `links` contains `pattern`. */
  predicate HasLink(links: seq<string>, pattern: string) {
    exists j :: 0 <= j < |links| && Contains(links[j], pattern)
  }

  method FindLink(links: seq<string>, pattern: string) returns (found: Option<nat>)
    ensures found.Some? ==>
      found.value < |links| && Contains(links[found.value], pattern)
      && forall j :: 0 <= j < found.value ==> !Contains(links[j], pattern)
    ensures found.None? <==> !HasLink(links, pattern)
  {
    found := None;
    var k := 0;
    while k < |links|
      invariant 0 <= k <= |links|
      invariant forall j :: 0 <= j < k ==> !Contains(links[j], pattern)
    {
      if Contains(links[k], pattern) {
        found := Some(k);
        return;
      }
      k := k + 1;
    }
  }

  /** A laser reading as a double: finite, an infinity, or NaN. */
  datatype Reading = Finite(v: real) | PosInf | NegInf | NaN

  /**
   Below the minimum or infinite: the minimum; else above the maximum: the
   maximum; else unchanged. NaN fails every comparison and passes through.
   */
  function ClampReading(r: Reading, minD: real, maxD: real): (o: Reading)
    ensures r.PosInf? || r.NegInf? ==> o == Finite(minD)
    ensures r.NaN? ==> o == NaN
    ensures r.Finite? && r.v < minD ==> o == Finite(minD)
    ensures r.Finite? && minD <= r.v <= maxD ==> o == r
    ensures r.Finite? && r.v > maxD && r.v >= minD ==> o == Finite(maxD)
    ensures !r.NaN? && minD <= maxD ==> o.Finite? && minD <= o.v <= maxD
  {
    match r
    case Finite(v) => if v < minD then Finite(minD) else if v > maxD then Finite(maxD) else r
    case PosInf => Finite(minD)
    case NegInf => Finite(minD)
    case NaN => NaN
  }

  /** The Range message. */
  datatype RangeMsg = RangeMsg(
    timeUsec: int, minDistance: real, maxDistance: real, currentDistance: Reading,
    hFov: real, vFov: real, orientation: (real, real, real, real))

  /** How Load ends: normally, or at one of its throws or undefined reads. */
  datatype LoadOutcome =
    | Loaded
    | NoRootModelName     // every piece of the scoped name is empty: front() on an empty vector
    | NoBaseLink          // no link name contains "::base_link": Load throws
    | NoSensorModelName   // fewer than two pieces: rbegin()[1] out of range
    | NoSensorLink        // no link name contains the sensor model name: Load throws

  class LidarPlugin {
    var minDistance: real
    var maxDistance: real
    var topic: string
    var rootModelName: string
    var sensorModelName: string
    var orientation: (real, real, real, real)
    var published: seq<RangeMsg>

    constructor ()
      ensures published == []
    {
      minDistance, maxDistance := DefaultMinDistance, DefaultMaxDistance;
      topic, rootModelName, sensorModelName := "", "", "";
      orientation := (0.0, 0.0, 0.0, 1.0);
      published := [];
    }

    /**
     Load with the optional min/max elements, the sensor's scoped parent name,
     the root model's link names and the orientation the link poses give.
     */
    method Load(minElement: Option<real>, maxElement: Option<real>, parentName: string,
                rootLinks: seq<string>, sensorOrientation: (real, real, real, real))
      returns (outcome: LoadOutcome)
      modifies this
      ensures minDistance == MinDistance(minElement) && maxDistance == MaxDistance(maxElement)
      ensures topic == "~/" + SplitColons(parentName)[0] + "/link/lidar"
      ensures var names := NonEmpty(SplitColons(parentName));
        && (outcome == NoRootModelName <==> names == [])
        && (names != [] ==> rootModelName == names[0])
        && (outcome == NoBaseLink <==>
              names != [] && !HasLink(rootLinks, "::base_link"))
        && (outcome == NoSensorModelName <==>
              |names| == 1 && HasLink(rootLinks, "::base_link"))
        && (outcome.NoSensorLink? || outcome.Loaded? ==> |names| >= 2 && sensorModelName == names[|names| - 2])
        && (outcome == Loaded <==>
              |names| >= 2 && HasLink(rootLinks, "::base_link") && HasLink(rootLinks, names[|names| - 2]))
      ensures outcome == Loaded ==> orientation == sensorOrientation
      ensures published == old(published)
    {
      minDistance := MinDistance(minElement);
      maxDistance := MaxDistance(maxElement);

      var pieces := SplitColons(parentName);
      topic := "~/" + pieces[0] + "/link/lidar";

      var names := RemoveEmpty(pieces);
      if names == [] {
        return NoRootModelName;
      }
      rootModelName := names[0];

      var baseLink := FindLink(rootLinks, "::base_link");
      if baseLink.None? {
        return NoBaseLink;
      }

      if |names| < 2 {
        return NoSensorModelName;
      }
      sensorModelName := names[|names| - 2];
      var sensorLink := FindLink(rootLinks, sensorModelName);
      if sensorLink.None? {
        return NoSensorLink;
      }
      orientation := sensorOrientation;
      return Loaded;
    }

    /** One scan at simulation time `nowUsec` with first range `range`. */
    method OnNewLaserScans(nowUsec: int, range: Reading)
      modifies this
      ensures published == old(published) + [RangeMsg(nowUsec, minDistance, maxDistance,
        ClampReading(range, minDistance, maxDistance), FieldOfView, FieldOfView, orientation)]
      ensures minDistance == old(minDistance) && maxDistance == old(maxDistance)
      ensures orientation == old(orientation) && topic == old(topic)
      ensures rootModelName == old(rootModelName) && sensorModelName == old(sensorModelName)
    {
      var current := range;
      if (current.Finite? && current.v < minDistance) || current.PosInf? || current.NegInf? {
        current := Finite(minDistance);
      } else if current.Finite? && current.v > maxDistance {
        current := Finite(maxDistance);
      }
      var msg := RangeMsg(nowUsec, minDistance, maxDistance, current, FieldOfView, FieldOfView, orientation);
      published := published + [msg];
    }
  }

  /** With limits read by Load, every published distance that is a number lies in [min, max]. */
  lemma PublishedInRange(minElement: Option<real>, maxElement: Option<real>, r: Reading)
    requires MinDistance(minElement) <= MaxDistance(maxElement) && !r.NaN?
    ensures var o := ClampReading(r, MinDistance(minElement), MaxDistance(maxElement));
      o.Finite? && SensorMinDistance <= o.v <= SensorMaxDistance
  {
    var lo, hi := MinDistance(minElement), MaxDistance(maxElement);
    assert lo >= SensorMinDistance by {
      if minElement.None? { assert lo == 0.2; }
    }
    assert hi <= SensorMaxDistance by {
      if maxElement.None? { assert hi == 15.0; }
    }
  }
}
