/**
 Values shared by the plugin models: three-component vectors, the constant pi,
 an option type, and the few pieces of floating-point behaviour that the
 plugins depend on (a division that may leave the finite reals, a square root
 supplied by the caller).
 */
module Common {

  datatype Option<T> = None | Some(value: T)

  /** pi as the C library's M_PI; the proofs only use that it is positive. */
  const PI: real := 3.141592653589793

  /** An ignition::math::Vector3d. */
  datatype Vec3 = Vec3(x: real, y: real, z: real)

  function Add(a: Vec3, b: Vec3): Vec3 {
    Vec3(a.x + b.x, a.y + b.y, a.z + b.z)
  }

  function Sub(a: Vec3, b: Vec3): Vec3 {
    Vec3(a.x - b.x, a.y - b.y, a.z - b.z)
  }

  function Scale(k: real, v: Vec3): Vec3 {
    Vec3(k * v.x, k * v.y, k * v.z)
  }

  function NormSq(v: Vec3): real {
    v.x * v.x + v.y * v.y + v.z * v.z
  }

  /** `n` is the Euclidean length of `v` (the value a caller obtained from sqrt). */
  ghost predicate IsNorm(n: real, v: Vec3) {
    n >= 0.0 && n * n == NormSq(v)
  }

  /**
   The result of an IEEE double division: a finite value, or the infinity or
   NaN that a division by zero gives.
   */
  datatype FloatValue = Num(v: real) | NonFinite

  function Divide(a: real, b: real): (r: FloatValue)
    ensures r.Num? <==> b != 0.0
    ensures r.Num? ==> r.v * b == a
  {
    if b == 0.0 then NonFinite else Num(a / b)
  }

  /**
   One step of the first-order Gauss-Markov bias used by the GPS and vision
   plugins: b := b + rw * dt - b / tau, per component.
   */
  function BiasStep(bias: Vec3, randomWalk: Vec3, dt: real, tau: real): (r: Vec3)
    requires tau != 0.0
    ensures randomWalk == Vec3(0.0, 0.0, 0.0) ==> r == Scale(1.0 - 1.0 / tau, bias)
  {
    Vec3(bias.x + randomWalk.x * dt - bias.x / tau,
         bias.y + randomWalk.y * dt - bias.y / tau,
         bias.z + randomWalk.z * dt - bias.z / tau)
  }
}
