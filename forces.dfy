/**
 * The force model shared by the batch simulator and the interactive game:
 * thrust, drag, the game's phase-dependent wind nudge, the linear burn of
 * propellant mass, and the field/trees landing classifier.
 */
module Forces {
  import opened Vectors

  const Gravity: real := 9.81       // m/s^2
  const AirDensity: real := 1.225   // kg/m^3 at sea level
  const Propellant: real := 0.012   // kg of propellant loaded before each flight
  const FieldLength: real := 109.7  // m, the football field including end zones

  /** Thrust of a constant-thrust motor: straight up at the average thrust while the burn lasts. */
  function Thrust(time: real, burnTime: real, averageThrust: real): (f: Vec2)
    ensures f.x == 0.0
    ensures time <= burnTime ==> f.y == averageThrust
    ensures time > burnTime ==> f == Zero
  {
    if time <= burnTime then Vec2(0.0, averageThrust) else Vec2(0.0, 0.0)
  }

  /** Thrust is a step function: it never grows as time goes on. */
  lemma ThrustNonIncreasing(t1: real, t2: real, burnTime: real, averageThrust: real)
    requires averageThrust >= 0.0 && t1 <= t2
    ensures Thrust(t2, burnTime, averageThrust).y <= Thrust(t1, burnTime, averageThrust).y
  {
  }

  /** The factor 0.5 * air density * cd * area of the drag equation. */
  function DragFactor(cd: real, area: real): real {
    0.5 * AirDensity * cd * area
  }

  /**
   * Aerodynamic drag against the velocity relative to the wind. `speed` is the
   * length of that relative velocity, computed by the caller. The deployed
   * parachute selects the same coefficient and area as the bare rocket.
   */
  function Drag(velocity: Vec2, wind: Vec2, cd: real, area: real, deployed: bool, speed: real): (f: Vec2)
    requires speed >= 0.0
    requires speed * speed == Dot(Sub(velocity, wind), Sub(velocity, wind))
    ensures speed == 0.0 ==> f == Zero
    ensures speed != 0.0 ==> f == Scale(-(DragFactor(cd, area) * speed), Sub(velocity, wind))
  {
    var rel := Sub(velocity, wind);
    if speed == 0.0 then
      Vec2(0.0, 0.0)
    else
      var c := if deployed then cd else cd;
      var a := if deployed then area else area;
      var magnitude := 0.5 * AirDensity * c * a * (speed * speed);
      var direction := Scale(-1.0 / speed, rel);
      DragDirection(rel, speed, DragFactor(cd, area));
      Scale(magnitude, direction)
  }

  /** magnitude * (-rel / speed) is -(factor * speed) * rel. */
  lemma DragDirection(rel: Vec2, speed: real, factor: real)
    requires speed > 0.0
    ensures Scale(factor * (speed * speed), Scale(-1.0 / speed, rel)) == Scale(-(factor * speed), rel)
  {
    var k := -1.0 / speed;
    assert speed * k == -1.0;
    var m := factor * (speed * speed);
    assert m * k == factor * speed * (speed * k);
    assert m * k == -(factor * speed);
    assert m * (k * rel.x) == (m * k) * rel.x;
    assert m * (k * rel.y) == (m * k) * rel.y;
  }

  /**
   * What drag means physically: it points against the relative velocity, lies
   * on the same line, has magnitude factor * speed^2, and vanishes only when
   * the relative speed or the factor does.
   */
  lemma DragOpposesRelativeVelocity(velocity: Vec2, wind: Vec2, cd: real, area: real, deployed: bool, speed: real)
    requires speed >= 0.0
    requires speed * speed == Dot(Sub(velocity, wind), Sub(velocity, wind))
    ensures var f := Drag(velocity, wind, cd, area, deployed, speed);
      var rel := Sub(velocity, wind);
      var factor := DragFactor(cd, area);
      (factor >= 0.0 ==> Dot(f, rel) <= 0.0) &&
      f.x * rel.y == f.y * rel.x &&
      Dot(f, f) == (factor * (speed * speed)) * (factor * (speed * speed)) &&
      (f == Zero <==> speed == 0.0 || factor == 0.0)
  {
    var rel := Sub(velocity, wind);
    var factor := DragFactor(cd, area);
    if speed != 0.0 {
      AgainstFacts(rel, speed, factor);
    }
  }

  /** The four facts of DragOpposesRelativeVelocity for f = -(factor * speed) * rel. */
  lemma AgainstFacts(rel: Vec2, speed: real, factor: real)
    requires speed > 0.0 && speed * speed == Dot(rel, rel)
    ensures var f := Scale(-(factor * speed), rel);
      (factor >= 0.0 ==> Dot(f, rel) <= 0.0) &&
      f.x * rel.y == f.y * rel.x &&
      Dot(f, f) == (factor * (speed * speed)) * (factor * (speed * speed)) &&
      (f == Zero <==> factor == 0.0)
  {
    AgainstSign(rel, speed, factor);
    ScaledDot(-(factor * speed), rel, speed * speed);
    AgainstMagnitude(rel, speed, factor);
    AgainstZero(rel, speed, factor);
  }

  lemma AgainstSign(rel: Vec2, speed: real, factor: real)
    requires speed > 0.0 && speed * speed == Dot(rel, rel)
    ensures factor >= 0.0 ==> Dot(Scale(-(factor * speed), rel), rel) <= 0.0
  {
    var fs := factor * speed;
    var s2 := speed * speed;
    ScaledDot(-fs, rel, s2);
    if factor >= 0.0 {
      NonNegProduct(factor, speed);
      NonNegProduct(fs, s2);
    }
  }

  lemma AgainstMagnitude(rel: Vec2, speed: real, factor: real)
    requires speed * speed == Dot(rel, rel)
    ensures Dot(Scale(-(factor * speed), rel), Scale(-(factor * speed), rel)) == (factor * (speed * speed)) * (factor * (speed * speed))
  {
    var fs := factor * speed;
    var s2 := speed * speed;
    ScaledDot(-fs, rel, s2);
    NegSquare(fs);
    SquareOfProduct(factor, speed);
  }

  lemma AgainstZero(rel: Vec2, speed: real, factor: real)
    requires speed > 0.0 && speed * speed == Dot(rel, rel)
    ensures Scale(-(factor * speed), rel) == Zero <==> factor == 0.0
  {
    var c := -(factor * speed);
    if factor == 0.0 {
      assert c == 0.0;
    } else {
      NonZeroProduct(factor, speed);
      PositiveLength(rel, speed, Dot(rel, rel));
      ScaledNonZero(c, rel);
    }
  }

  /** A vector whose squared length is a positive number squared is not the zero vector. */
  lemma PositiveLength(rel: Vec2, speed: real, lengthSquared: real)
    requires speed > 0.0 && lengthSquared == speed * speed && lengthSquared == Dot(rel, rel)
    ensures rel != Zero
  {
    PositiveSquare(speed, lengthSquared);
  }

  lemma PositiveSquare(s: real, square: real)
    requires s > 0.0 && square == s * s
    ensures square > 0.0
  {
    calc {
      square;
      s * s;
    >  { assert s * s > 0.0 * s; }
      0.0;
    }
  }

  lemma ScaledNonZero(c: real, rel: Vec2)
    requires c != 0.0 && rel != Zero
    ensures Scale(c, rel) != Zero
  {
    if rel.x != 0.0 {
      NonZeroProduct(c, rel.x);
    } else {
      NonZeroProduct(c, rel.y);
    }
  }

  lemma ScaledDot(c: real, rel: Vec2, s2: real)
    requires s2 == Dot(rel, rel)
    ensures Dot(Scale(c, rel), rel) == c * s2
    ensures Dot(Scale(c, rel), Scale(c, rel)) == (c * c) * s2
    ensures Scale(c, rel).x * rel.y == Scale(c, rel).y * rel.x
  {
    assert Dot(Scale(c, rel), rel) == c * (rel.x * rel.x) + c * (rel.y * rel.y);
    assert Dot(Scale(c, rel), Scale(c, rel)) == (c * c) * (rel.x * rel.x) + (c * c) * (rel.y * rel.y);
  }

  lemma SquareOfProduct(factor: real, speed: real)
    ensures (factor * speed) * (factor * speed) * (speed * speed) == (factor * (speed * speed)) * (factor * (speed * speed))
  {
  }

  lemma NonNegProduct(a: real, b: real)
    requires a >= 0.0 && b >= 0.0
    ensures a * b >= 0.0
  {
  }

  lemma NegSquare(x: real)
    ensures (-x) * (-x) == x * x
  {
  }

  lemma NonZeroProduct(a: real, b: real)
    requires a != 0.0 && b != 0.0
    ensures a * b != 0.0
  {
  }

  /** Drag does not depend on whether the parachute is out. */
  lemma DragIgnoresParachute(velocity: Vec2, wind: Vec2, cd: real, area: real, speed: real)
    requires speed >= 0.0
    requires speed * speed == Dot(Sub(velocity, wind), Sub(velocity, wind))
    ensures Drag(velocity, wind, cd, area, true, speed) == Drag(velocity, wind, cd, area, false, speed)
  {
  }

  /**
   * The share of the wind vector the interactive stepper adds as a horizontal
   * force: light under power, heavier under the parachute, medium when coasting.
   */
  function WindFraction(time: real, burnTime: real, deployed: bool): (k: real)
    ensures 0.02 <= k <= 0.05
    ensures time <= burnTime ==> k == 0.02
    ensures time > burnTime && deployed ==> k == 0.05
    ensures time > burnTime && !deployed ==> k == 0.03
  {
    if time <= burnTime then 0.02
    else if deployed then 0.05
    else 0.03
  }

  /** The horizontal wind nudge of the interactive stepper. */
  function WindNudge(time: real, burnTime: real, deployed: bool, wind: Vec2): (f: Vec2)
    ensures f.y == 0.0
    ensures f.x == WindFraction(time, burnTime, deployed) * wind.x
  {
    Vec2(wind.x * WindFraction(time, burnTime, deployed), 0.0)
  }

  /** The nudge only grows as the flight moves from powered ascent to coast to parachute descent. */
  lemma WindFractionByPhase(powered: real, time: real, burnTime: real, deployed: bool)
    requires powered <= burnTime
    ensures WindFraction(time, burnTime, false) <= WindFraction(time, burnTime, true)
    ensures time > burnTime ==> WindFraction(powered, burnTime, deployed) < WindFraction(time, burnTime, false)
  {
  }

  /**
   * Linear burn of the interactive stepper: the rocket carries the full
   * propellant load at time 0 and none at the end of the burn.
   */
  function BurnMass(dryMass: real, time: real, burnTime: real): (m: real)
    requires burnTime > 0.0
    ensures 0.0 <= time <= burnTime ==> dryMass <= m <= dryMass + Propellant
    ensures time == 0.0 ==> m == dryMass + Propellant
    ensures time == burnTime ==> m == dryMass
  {
    var propellantUsed := (time / burnTime) * Propellant;
    BurnFractionBounds(time, burnTime);
    dryMass + Propellant - propellantUsed
  }

  lemma BurnFractionBounds(time: real, burnTime: real)
    requires burnTime > 0.0
    ensures 0.0 <= time <= burnTime ==> 0.0 <= time / burnTime <= 1.0
    ensures time == burnTime ==> time / burnTime == 1.0
  {
    if 0.0 <= time <= burnTime {
      assert time / burnTime * burnTime == time;
    }
  }

  /** Burning never adds mass: later in the burn the rocket is no heavier. */
  lemma {:induction false} BurnMassNonIncreasing(dryMass: real, t1: real, t2: real, burnTime: real)
    requires burnTime > 0.0 && t1 <= t2
    ensures BurnMass(dryMass, t2, burnTime) <= BurnMass(dryMass, t1, burnTime)
  {
    assert t2 / burnTime - t1 / burnTime == (t2 - t1) / burnTime;
    assert (t2 - t1) / burnTime >= 0.0;
  }

  datatype Landing = Field | Trees

  /** check_landing_location: on the field exactly when 0 <= x <= field length. */
  function Classify(x: real, fieldLength: real): (r: Landing)
    ensures r == Field <==> 0.0 <= x <= fieldLength
    ensures r == Trees <==> x < 0.0 || x > fieldLength
  {
    if 0.0 <= x <= fieldLength then Field else Trees
  }

  const GameTreeHeight: real := 6.0  // m, the canopy height the interactive stepper lands on

  /** The altitude at which the interactive stepper counts the rocket as landed. */
  function LandingAltitude(x: real): (h: real)
    ensures h == GameTreeHeight <==> Classify(x, FieldLength) == Trees
    ensures h == 0.0 <==> 0.0 <= x <= FieldLength
  {
    if Classify(x, FieldLength) == Trees then GameTreeHeight else 0.0
  }
}
