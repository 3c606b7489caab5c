/** Two-dimensional vectors of exact reals, standing for the numpy arrays [x, y] of the source. */
module Vectors {

  datatype Vec2 = Vec2(x: real, y: real)

  const Zero: Vec2 := Vec2(0.0, 0.0)

  function Add(a: Vec2, b: Vec2): Vec2 {
    Vec2(a.x + b.x, a.y + b.y)
  }

  function Sub(a: Vec2, b: Vec2): Vec2 {
    Vec2(a.x - b.x, a.y - b.y)
  }

  function Scale(k: real, a: Vec2): Vec2 {
    Vec2(k * a.x, k * a.y)
  }

  /** Element-wise division of a vector by a scalar (numpy `v / m`). */
  function Div(a: Vec2, m: real): Vec2
    requires m != 0.0
  {
    Vec2(a.x / m, a.y / m)
  }

  function Dot(a: Vec2, b: Vec2): real {
    a.x * b.x + a.y * b.y
  }

  function Abs(r: real): real {
    if r < 0.0 then -r else r
  }

  function Min(a: real, b: real): real {
    if a <= b then a else b
  }

  function Max(a: real, b: real): real {
    if a >= b then a else b
  }

  /**
   * `norm` behaves as the Euclidean length of a 2-vector (np.linalg.norm):
   * it is non-negative and its square is the sum of the squared components.
   */
  ghost predicate IsNorm(norm: (real, real) -> real) {
    forall a: real, b: real :: norm(a, b) >= 0.0 && norm(a, b) * norm(a, b) == a * a + b * b
  }
}
