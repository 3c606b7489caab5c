/** The clamps and the wind dial behind the game's keyboard controls. */
module Controls {
  import opened Vectors

  /** max(lo, min(hi, v)): v pulled into [lo, hi]. */
  function Clamp(lo: real, hi: real, v: real): (r: real)
    ensures lo <= hi ==> lo <= r <= hi
    ensures lo <= v <= hi ==> r == v
    ensures lo <= hi && v < lo ==> r == lo
    ensures lo <= hi && v > hi ==> r == hi
  {
    Max(lo, Min(hi, v))
  }

  /** Python's min on integers. */
  function IntMin(a: int, b: int): (r: int)
    ensures r <= a && r <= b && (r == a || r == b)
  {
    if a <= b then a else b
  }

  /** Python's max on integers. */
  function IntMax(a: int, b: int): (r: int)
    ensures r >= a && r >= b && (r == a || r == b)
  {
    if a >= b then a else b
  }

  /**
   * A wind direction turned by delta degrees and reduced modulo 360 (Python's
   * `%` with a positive modulus, which is never negative, as Dafny's is).
   */
  function TurnWind(direction: int, delta: int): (r: int)
    ensures 0 <= r < 360
    ensures (direction + delta - r) % 360 == 0
    ensures 0 <= direction + delta < 360 ==> r == direction + delta
  {
    (direction + delta) % 360
  }

  /** LEFT and RIGHT on the menu undo each other on every dial position. */
  lemma {:induction false} TurnWindUndo(direction: int)
    requires 0 <= direction < 360
    ensures TurnWind(TurnWind(direction, 15), -15) == direction
    ensures TurnWind(TurnWind(direction, -15), 15) == direction
  {
    if direction + 15 >= 360 {
      assert TurnWind(direction, 15) == direction + 15 - 360;
    }
    if direction < 15 {
      assert TurnWind(direction, -15) == direction - 15 + 360;
    }
  }
}
