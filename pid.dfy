/**
 The discrete PID controller of PID.h: a second-order difference equation in
 the error e = y_bar - y, with the last three inputs, set-points and outputs
 kept in three-element arrays, and the output clamped to [minTh, maxTh].
 */
module Pid {

  /**
   The six coefficients c[0..5] of the difference equation, from the gains,
   the sample time Ts and the filter constant G, with Ti = Kp / Ki and
   Td = Kd / Kp.
   */
  function Coefficients(kp: real, ki: real, kd: real, ts: real, g: real): (c: seq<real>)
    requires kp != 0.0 && ki != 0.0
    ensures |c| == 6
    // the output terms sum to one: c0 - c1 + c2 == 0
    ensures c[1] == c[0] + c[2]
    // the error terms sum to the integral gain Ts^2 / Ti
    ensures c[3] + c[4] + c[5] == ts * ts / (kp / ki)
  {
    var ti := kp / ki;
    var td := kd / kp;
    var s := ts * ts;
    QuarterHalfQuarter(s, ti);
    assert g * ts == ts * g;
    [g + ts / 2.0,
     2.0 * g,
     g - ts / 2.0,
     g + ts / 2.0 + (g * ts / (2.0 * ti)) + s / (4.0 * ti) + td,
     -2.0 * g + s / (2.0 * ti) - 2.0 * td,
     g - ts / 2.0 - ts * g / (2.0 * ti) + s / (4.0 * ti) + td]
  }

  lemma QuarterHalfQuarter(s: real, t: real)
    requires t != 0.0
    ensures s / (4.0 * t) + s / (2.0 * t) + s / (4.0 * t) == s / t
  {
    var q := s / t;
    assert s == q * t;
    assert s / (4.0 * t) == q / 4.0 by {
      assert (q / 4.0) * (4.0 * t) == q * t;
    }
    assert s / (2.0 * t) == q / 2.0 by {
      assert (q / 2.0) * (2.0 * t) == q * t;
    }
  }

  /**
   The unclamped new output from the previous outputs u1, u2 and the errors
   e0 (newest), e1, e2 (oldest).
   */
  function RawOutput(c: seq<real>, kp: real, u1: real, u2: real, e0: real, e1: real, e2: real): real
    requires |c| == 6 && c[0] != 0.0
  {
    (c[1] * u1 - c[2] * u2 + kp * (c[3] * e2 + c[4] * e1 + c[5] * e0)) / c[0]
  }

  /** Clamp from above first: a value above maxTh becomes maxTh, else one below minTh becomes minTh. */
  function Saturate(v: real, maxTh: real, minTh: real): (r: real)
    ensures r <= maxTh || (minTh > maxTh && r == minTh)
    ensures minTh <= maxTh ==> minTh <= r <= maxTh
    ensures minTh <= v <= maxTh ==> r == v
    ensures v > maxTh ==> r == maxTh
    ensures v <= maxTh && v < minTh ==> r == minTh
  {
    if v > maxTh then maxTh else if v < minTh then minTh else v
  }

  /** With no error the equation holds a steady output: integral action. */
  lemma ZeroErrorHoldsOutput(kp: real, ki: real, kd: real, ts: real, g: real, u: real)
    requires kp != 0.0 && ki != 0.0 && g + ts / 2.0 != 0.0
    ensures var c := Coefficients(kp, ki, kd, ts, g);
      RawOutput(c, kp, u, u, 0.0, 0.0, 0.0) == u
  {
    var c := Coefficients(kp, ki, kd, ts, g);
    assert c[1] * u - c[2] * u == c[0] * u;
  }

  /**
   A constant error e moves a steady output by Kp * (Ts^2 / Ti) * e / c0 per
   step, for any coefficients with the two sums Coefficients guarantees.
   */
  lemma ConstantErrorIntegrates(c: seq<real>, kp: real, ki: real, ts: real, u: real, e: real)
    requires kp != 0.0 && ki != 0.0
    requires |c| == 6 && c[0] != 0.0 && c[1] == c[0] + c[2] && c[3] + c[4] + c[5] == ts * ts / (kp / ki)
    ensures RawOutput(c, kp, u, u, e, e, e) == u + kp * (ts * ts / (kp / ki)) * e / c[0]
  {
    var k := c[3] + c[4] + c[5];
    assert c[1] * u - c[2] * u == c[0] * u by {
      assert c[1] * u == c[0] * u + c[2] * u;
    }
    assert c[3] * e + c[4] * e + c[5] * e == k * e;
    assert kp * (k * e) == kp * k * e;
    DivideSum(c[0], u, kp * k * e);
  }

  /** (d * x + y) / d == x + y / d for a non-zero d. */
  lemma DivideSum(d: real, x: real, y: real)
    requires d != 0.0
    ensures (d * x + y) / d == x + y / d
  {
    var q := y / d;
    assert y == q * d;
    assert d * x + y == (x + q) * d;
  }

  class Pid {
    const kp: real
    const ti: real
    const td: real
    const ts: real
    const maxTh: real
    const minTh: real
    /** Measurements, newest first. */
    const y: array<real>
    /** Set-points, newest first. */
    const yBar: array<real>
    /** Outputs, newest first. */
    const u: array<real>
    const c: array<real>

    ghost predicate Valid()
      reads this
    {
      y.Length == 3 && yBar.Length == 3 && u.Length == 3 && c.Length == 6
      && y != yBar && y != u && yBar != u
      && c != y && c != yBar && c != u
    }

    constructor (kP: real, kI: real, kD: real, tS: real, g: real, maxT: real, minT: real)
      requires kP != 0.0 && kI != 0.0
      ensures Valid()
      ensures kp == kP && ti == kP / kI && td == kD / kP && ts == tS && maxTh == maxT && minTh == minT
      ensures y[..] == [0.0, 0.0, 0.0] && yBar[..] == [0.0, 0.0, 0.0] && u[..] == [0.0, 0.0, 0.0]
      ensures c[..] == Coefficients(kP, kI, kD, tS, g)
      ensures fresh(y) && fresh(yBar) && fresh(u) && fresh(c)
    {
      kp, ti, td, ts := kP, kP / kI, kD / kP, tS;
      maxTh, minTh := maxT, minT;
      y := new real[3](_ => 0.0);
      yBar := new real[3](_ => 0.0);
      u := new real[3](_ => 0.0);
      var cs := Coefficients(kP, kI, kD, tS, g);
      c := new real[6](i requires 0 <= i < 6 => cs[i]);
    }

    /**
     Shift in the new measurement and set-point, shift the outputs, and
     compute the clamped new output, which is also returned.
     */
    method Update(yNew: real, yBarNew: real) returns (r: real)
      requires Valid() && c[0] != 0.0
      modifies y, yBar, u
      ensures y[..] == [yNew, old(y[0]), old(y[1])]
      ensures yBar[..] == [yBarNew, old(yBar[0]), old(yBar[1])]
      ensures u[1] == old(u[0]) && u[2] == old(u[1])
      ensures r == u[0]
      ensures r == Saturate(RawOutput(c[..], kp, old(u[0]), old(u[1]),
                                      yBarNew - yNew, old(yBar[0]) - old(y[0]), old(yBar[1]) - old(y[1])),
                            maxTh, minTh)
      ensures minTh <= maxTh ==> minTh <= r <= maxTh
      ensures c[..] == old(c[..])
    {
      y[2] := y[1];
      y[1] := y[0];
      y[0] := yNew;

      yBar[2] := yBar[1];
      yBar[1] := yBar[0];
      yBar[0] := yBarNew;

      u[2] := u[1];
      u[1] := u[0];

      u[0] := (c[1] * u[1] - c[2] * u[2]
               + kp * (c[3] * (yBar[2] - y[2]) + c[4] * (yBar[1] - y[1]) + c[5] * (yBar[0] - y[0]))) / c[0];
      assert u[0] == RawOutput(c[..], kp, u[1], u[2], yBar[0] - y[0], yBar[1] - y[1], yBar[2] - y[2]);

      if u[0] > maxTh {
        u[0] := maxTh;
      } else if u[0] < minTh {
        u[0] := minTh;
      }
      r := u[0];
    }
  }
}
