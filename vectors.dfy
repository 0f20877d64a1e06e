/** Element-wise vector arithmetic over reals, standing for the numpy array
    operations the swarm update uses (`+`, `-`, scalar `*`, `np.multiply`). */
module Vectors {

  type Vector = seq<real>

  /** `a + b` on two arrays of equal length. */
  function Add(a: Vector, b: Vector): Vector
    requires |a| == |b|
  {
    seq(|a|, i requires 0 <= i < |a| => a[i] + b[i])
  }

  /** `a - b` on two arrays of equal length. */
  function Sub(a: Vector, b: Vector): Vector
    requires |a| == |b|
  {
    seq(|a|, i requires 0 <= i < |a| => a[i] - b[i])
  }

  /** `k * a` for a scalar `k`. */
  function Scale(k: real, a: Vector): Vector
  {
    seq(|a|, i requires 0 <= i < |a| => k * a[i])
  }

  /** `np.multiply(a, b)`: the element-wise product. */
  function Mul(a: Vector, b: Vector): Vector
    requires |a| == |b|
  {
    seq(|a|, i requires 0 <= i < |a| => a[i] * b[i])
  }

  /** The all-zero vector of length `n`. */
  function Zeros(n: nat): Vector
  {
    seq(n, i => 0.0)
  }
}
