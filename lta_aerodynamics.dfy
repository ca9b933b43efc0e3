/**
 The frame transforms and the angle gates of the lighter-than-air
 aerodynamics plugin. The two transforms flip the sign of the second and
 third components, so they are the same map. The angle of attack and the
 sideslip angle are computed only when the velocity components they use
 reach a small threshold, and are zero otherwise.

 atan and asin are not part of this model: a gate yields the argument the
 trigonometric function would receive, or None where the angle stays 0.
 */
module LtaAerodynamics {
  import opened Common

  const Threshold: real := 0.000001

  /** TransformNED2XYZ: component 0 kept, components 1 and 2 negated. */
  function TransformNED2XYZ(v: Vec3): (r: Vec3)
    ensures r.x == v.x && r.y == -v.y && r.z == -v.z
    ensures NormSq(r) == NormSq(v)
  {
    Vec3(v.x, -v.y, -v.z)
  }

  /** TransformXYZ2NED: the same sign flips. */
  function TransformXYZ2NED(v: Vec3): (r: Vec3)
    ensures r.x == v.x && r.y == -v.y && r.z == -v.z
    ensures NormSq(r) == NormSq(v)
  {
    Vec3(v.x, -v.y, -v.z)
  }

  /** The two transforms are one map, each undoes itself, and each undoes the other. */
  lemma TransformsAreInverse(v: Vec3)
    ensures TransformNED2XYZ(v) == TransformXYZ2NED(v)
    ensures TransformNED2XYZ(TransformNED2XYZ(v)) == v
    ensures TransformXYZ2NED(TransformXYZ2NED(v)) == v
    ensures TransformNED2XYZ(TransformXYZ2NED(v)) == v
    ensures TransformXYZ2NED(TransformNED2XYZ(v)) == v
  {
  }

  /**
   The angle of attack gate: atan(w / u) is taken only when both w and u
   reach the threshold; the argument is then positive.
   */
  function AlphaArgument(u: real, w: real): (arg: Option<real>)
    ensures arg.Some? <==> w >= Threshold && u >= Threshold
    ensures arg.Some? ==> arg.value * u == w && arg.value > 0.0
  {
    if w >= Threshold && u >= Threshold then Some(w / u) else None
  }

  /**
   The sideslip gate: asin(v / v_total) is taken only when both v_total and v
   reach the threshold.
   */
  function BetaArgument(v: real, vTotal: real): (arg: Option<real>)
    ensures arg.Some? <==> vTotal >= Threshold && v >= Threshold
    ensures arg.Some? ==> arg.value * vTotal == v && arg.value > 0.0
  {
    if vTotal >= Threshold && v >= Threshold then Some(v / vTotal) else None
  }

  /**
   With v the lateral component of a velocity and v_total its length, the
   sideslip argument always lies in (0, 1], inside the domain of asin.
   The sign flip between the frames the two values are read in does not
   change the length.
   */
  lemma {:induction false} BetaArgumentInDomain(vel: Vec3, vTotal: real)
    requires IsNorm(vTotal, TransformXYZ2NED(vel))
    ensures var arg := BetaArgument(vel.y, vTotal);
      arg.Some? ==> 0.0 < arg.value <= 1.0
  {
    var arg := BetaArgument(vel.y, vTotal);
    if arg.Some? {
      var v := vel.y;
      assert vTotal * vTotal == NormSq(vel);
      assert v * v <= vTotal * vTotal by {
        assert vel.x * vel.x >= 0.0 && vel.z * vel.z >= 0.0;
      }
      SquaresOrdered(v, vTotal);
      assert arg.value * vTotal <= 1.0 * vTotal;
    }
  }

  /** For non-negative a and b, a^2 <= b^2 gives a <= b. */
  lemma SquaresOrdered(a: real, b: real)
    requires a >= 0.0 && b >= 0.0 && a * a <= b * b
    ensures a <= b
  {
    if a + b > 0.0 {
      assert (b - a) * (a + b) == b * b - a * a;
      NonnegFactor(b - a, a + b);
    }
  }

  lemma NonnegFactor(x: real, p: real)
    requires p > 0.0 && x * p >= 0.0
    ensures x >= 0.0
  {
    var q := 1.0 / p;
    assert q * p == 1.0;
    assert q > 0.0;
    assert x == (x * p) * q;
    assert (x * p) * q >= 0.0;
  }
}
