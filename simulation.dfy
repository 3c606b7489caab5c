/**
 * The batch flight simulator: a rocket whose kinematic state is updated in
 * place, and a simulation that integrates it with a fixed-step Euler loop,
 * recording a time/position/velocity trace until ground impact or 300 s.
 */
module Simulation {
  import opened Vectors
  import opened Forces
  import opened Engines
  import opened Trace

  /** Python's math.pi, the double closest to pi. */
  const Pi: real := 3.141592653589793

  const Dt: real := 0.01             // s, the batch time step
  const MaxFlightTime: real := 300.0 // s, the safety bound on simulated time
  const MaxSamples: nat := 30001     // samples at times 0, Dt, ..., MaxFlightTime
  const FieldWidth: real := 48.8     // m; declared by the simulator but never read
  const TreeHeight: real := 10.0     // m; read only to draw the trees, never to decide a landing

  /** The simulated time after n steps of Dt (n * Dt, written so that the step stays a literal). */
  function Clock(n: nat): real
  {
    n as real / 100.0
  }

  /** The phases the simulator names; coast is named but no code sets it. */
  datatype FlightPhase = Launch | Coast | Descent

  /** A position and a velocity: what one Euler step advances. */
  datatype Kinematics = Kinematics(position: Vec2, velocity: Vec2)

  /**
   * What the loop of simulate_flight carries from one pass to the next: the
   * rocket's kinematic and parachute state, the three histories, and the
   * running maximum altitude and apogee time.
   */
  datatype FlightState = FlightState(
    position: Vec2, velocity: Vec2, deployed: bool, phase: FlightPhase,
    times: seq<real>, positions: seq<Vec2>, velocities: seq<Vec2>,
    maxAltitude: real, apogeeTime: real)

  /**
   * One Euler step of simulate_flight: thrust, drag (against the velocity
   * relative to the wind) and gravity at the given mass give the
   * acceleration, which updates the velocity, and the new velocity updates
   * the position.
   */
  function EulerUpdate(k: Kinematics, time: real, engine: Engine, wind: Vec2, cd: real, area: real, mass: real,
                       norm: (real, real) -> real): Kinematics
    requires IsNorm(norm) && mass > 0.0
  {
    var rel := Sub(k.velocity, wind);
    var thrust := Thrust(time, engine.burnTime, engine.averageThrust);
    var drag := Drag(k.velocity, wind, cd, area, false, norm(rel.x, rel.y));
    var gravity := Vec2(0.0, -mass * Gravity);
    var acceleration := Div(Add(Add(thrust, drag), gravity), mass);
    var velocity := Add(k.velocity, Scale(Dt, acceleration));
    Kinematics(Add(k.position, Scale(Dt, velocity)), velocity)
  }

  /** An Estes Alpha III with its default dimensions, and its mutable flight state. */
  class Rocket {
    const dryMass: real := 0.034    // kg
    const diameter: real := 0.0248  // m
    const length: real := 0.311     // m
    const cd: real := 0.3           // drag coefficient
    const area: real := Pi * (diameter / 2.0) * (diameter / 2.0)

    var position: Vec2
    var velocity: Vec2
    var mass: real
    var parachuteDeployed: bool
    var engineBurning: bool
    var flightPhase: FlightPhase

    constructor ()
      ensures position == Zero && velocity == Zero && mass == dryMass
      ensures !parachuteDeployed && !engineBurning && flightPhase == Launch
    {
      position := Vec2(0.0, 0.0);
      velocity := Vec2(0.0, 0.0);
      mass := dryMass;
      parachuteDeployed := false;
      engineBurning := false;
      flightPhase := Launch;
    }
  }

  class RocketSimulation {
    const rocket: Rocket
    const engine: Engine
    const windSpeed: real
    const windDirection: real
    /** The wind as a vector, (speed cos d, speed sin d), computed by the caller. */
    const windVector: Vec2
    /** The Euclidean length of a 2-vector (np.linalg.norm). */
    const norm: (real, real) -> real
    /** The integrator of the batch loop: one Euler step at a given time, fixed to BatchStep by Sound(). */
    const step: (Kinematics, real) -> Kinematics

    var timeHistory: seq<real>
    var positionHistory: seq<Vec2>
    var velocityHistory: seq<Vec2>

    /**
     * The fixed parameters are sound: norm is the Euclidean length, the burn
     * takes time, and step is BatchStep.
     */
    ghost predicate Sound() {
      IsNorm(norm) && engine.burnTime > 0.0 &&
      forall k: Kinematics, time: real {:trigger BatchStep(k, time)} :: step(k, time) == BatchStep(k, time)
    }

    /** The three histories are recorded together, one entry per sample. */
    ghost predicate Valid()
      reads this
    {
      |timeHistory| == |positionHistory| == |velocityHistory|
    }

    constructor (key: EngineKey, windSpeed: real, windDirection: real, windVector: Vec2, norm: (real, real) -> real)
      requires IsNorm(norm)
      ensures Sound() && Valid() && fresh(rocket)
      ensures engine == EngineFor(key)
      ensures this.windSpeed == windSpeed && this.windDirection == windDirection
      ensures this.windVector == windVector && this.norm == norm
      ensures timeHistory == [] && positionHistory == [] && velocityHistory == []
      ensures rocket.position == Zero && rocket.velocity == Zero && rocket.mass == rocket.dryMass
      ensures !rocket.parachuteDeployed && rocket.flightPhase == Launch
    {
      var r := new Rocket();
      rocket := r;
      engine := EngineFor(key);
      this.windSpeed := windSpeed;
      this.windDirection := windDirection;
      this.windVector := windVector;
      this.norm := norm;
      step := (k: Kinematics, time: real) =>
        EulerUpdate(k, time, EngineFor(key), windVector, r.cd, r.area, r.dryMass + Propellant, norm);
      timeHistory := [];
      positionHistory := [];
      velocityHistory := [];
    }

    /** The length of the velocity relative to the wind. */
    function RelativeSpeed(velocity: Vec2): (s: real)
      requires IsNorm(norm)
      ensures s >= 0.0 && s * s == Dot(Sub(velocity, windVector), Sub(velocity, windVector))
    {
      var rel := Sub(velocity, windVector);
      norm(rel.x, rel.y)
    }

    /** drag_force for the rocket's current parachute state. */
    function DragForce(velocity: Vec2): (f: Vec2)
      reads rocket
      requires IsNorm(norm)
      ensures f == Drag(velocity, windVector, rocket.cd, rocket.area, false, RelativeSpeed(velocity))
    {
      DragIgnoresParachute(velocity, windVector, rocket.cd, rocket.area, RelativeSpeed(velocity));
      Drag(velocity, windVector, rocket.cd, rocket.area, rocket.parachuteDeployed, RelativeSpeed(velocity))
    }

    /** thrust_force for this simulation's engine. */
    function ThrustForce(time: real): (f: Vec2)
      ensures time <= engine.burnTime ==> f == Vec2(0.0, engine.averageThrust)
      ensures time > engine.burnTime ==> f == Vec2(0.0, 0.0)
    {
      Thrust(time, engine.burnTime, engine.averageThrust)
    }

    /** check_landing_location on the rocket's current horizontal position. */
    function CheckLandingLocation(): (r: Landing)
      reads rocket
      ensures r == Field <==> 0.0 <= rocket.position.x <= FieldLength
    {
      Classify(rocket.position.x, FieldLength)
    }

    /**
     * One Euler step of simulate_flight at the loaded mass: thrust, drag and
     * gravity give the acceleration, which updates the velocity, and the new
     * velocity updates the position.
     */
    function BatchStep(k: Kinematics, time: real): Kinematics
      requires IsNorm(norm)
    {
      EulerUpdate(k, time, engine, windVector, rocket.cd, rocket.area, rocket.dryMass + Propellant, norm)
    }

    /** The automatic deployment rule: past burn time plus delay, and not climbing. */
    predicate DeploysAt(time: real, velocity: Vec2) {
      time > engine.burnTime + engine.delay && velocity.y <= 0.0
    }

    /** Some recorded sample met the automatic deployment rule. */
    ghost predicate DeployedBy(ts: seq<real>, vs: seq<Vec2>)
      requires |ts| == |vs|
    {
      exists i :: 0 <= i < |ts| && DeploysAt(ts[i], vs[i])
    }

    lemma DeployedByAppend(ts: seq<real>, vs: seq<Vec2>, t: real, v: Vec2)
      requires |ts| == |vs|
      ensures DeployedBy(ts + [t], vs + [v]) <==> DeployedBy(ts, vs) || DeploysAt(t, v)
    {
      if DeployedBy(ts + [t], vs + [v]) && !DeploysAt(t, v) {
        var i :| 0 <= i < |ts| + 1 && DeploysAt((ts + [t])[i], (vs + [v])[i]);
        assert i < |ts| && DeploysAt(ts[i], vs[i]);
      }
      if DeployedBy(ts, vs) {
        var i :| 0 <= i < |ts| && DeploysAt(ts[i], vs[i]);
        assert DeploysAt((ts + [t])[i], (vs + [v])[i]);
      }
      if DeploysAt(t, v) {
        assert DeploysAt((ts + [t])[|ts|], (vs + [v])[|ts|]);
      }
    }

    /** The trace recorded by a run: consecutive samples are one BatchStep apart. */
    ghost predicate StepsFollow(ts: seq<real>, ps: seq<Vec2>, vs: seq<Vec2>)
      requires IsNorm(norm)
      requires |ts| == |ps| == |vs|
    {
      forall i :: 0 <= i < |ts| - 1 ==>
        Kinematics(ps[i + 1], vs[i + 1]) == BatchStep(Kinematics(ps[i], vs[i]), ts[i])
    }

    /** Sample i was taken at time i * Dt. */
    ghost predicate Sampled(ts: seq<real>) {
      forall i :: 0 <= i < |ts| ==> ts[i] == Clock(i)
    }

    /** The first sample is the launch pad at rest. */
    ghost predicate Launched(ps: seq<Vec2>, vs: seq<Vec2>) {
      |ps| > 0 && |vs| > 0 && ps[0] == Vec2(FieldLength / 2.0, 0.0) && vs[0] == Zero
    }

    /** Every sample after the first is above the ground. */
    ghost predicate Airborne(ps: seq<Vec2>) {
      forall i :: 1 <= i < |ps| ==> ps[i].y > 0.0
    }

    /** (p, v) is one BatchStep after the last recorded sample. */
    ghost predicate Follows(ts: seq<real>, ps: seq<Vec2>, vs: seq<Vec2>, p: Vec2, v: Vec2)
      requires IsNorm(norm)
      requires 0 < |ts| == |ps| == |vs|
    {
      var last := |ts| - 1;
      Kinematics(p, v) == BatchStep(Kinematics(ps[last], vs[last]), ts[last])
    }

    /** Recording the state that followed the last sample keeps the trace a chain of steps. */
    lemma RecordAppend(ts: seq<real>, ps: seq<Vec2>, vs: seq<Vec2>, t: real, p: Vec2, v: Vec2)
      requires IsNorm(norm)
      requires |ts| == |ps| == |vs|
      requires StepsFollow(ts, ps, vs)
      requires ts != [] ==> Follows(ts, ps, vs, p, v)
      ensures StepsFollow(ts + [t], ps + [p], vs + [v])
    {
      var ts', ps', vs' := ts + [t], ps + [p], vs + [v];
      forall i | 0 <= i < |ts'| - 1
        ensures Kinematics(ps'[i + 1], vs'[i + 1]) == BatchStep(Kinematics(ps'[i], vs'[i]), ts'[i])
      {
        if i < |ts| - 1 {
          assert ps'[i + 1] == ps[i + 1] && vs'[i + 1] == vs[i + 1];
        }
      }
    }

    /**
     * The force and integration part of one simulate_flight iteration:
     * thrust, drag and gravity at the current mass, then velocity and position
     * updated in place.
     */
    method EulerStep(time: real)
      requires Sound() && rocket.mass == rocket.dryMass + Propellant
      modifies rocket
      ensures Kinematics(rocket.position, rocket.velocity) ==
        step(Kinematics(old(rocket.position), old(rocket.velocity)), time)
      ensures rocket.mass == old(rocket.mass) && rocket.parachuteDeployed == old(rocket.parachuteDeployed)
      ensures rocket.flightPhase == old(rocket.flightPhase) && rocket.engineBurning == old(rocket.engineBurning)
    {
      ghost var k := Kinematics(rocket.position, rocket.velocity);
      var thrust := ThrustForce(time);
      var drag := DragForce(rocket.velocity);
      var gravity := Vec2(0.0, -rocket.mass * Gravity);
      var totalForce := Add(Add(thrust, drag), gravity);
      var acceleration := Div(totalForce, rocket.mass);
      rocket.velocity := Add(rocket.velocity, Scale(Dt, acceleration));
      rocket.position := Add(rocket.position, Scale(Dt, rocket.velocity));
      assert Kinematics(rocket.position, rocket.velocity) == BatchStep(k, time);
    }

    /** The state simulate_flight starts its loop from: mid-field, at rest, nothing recorded. */
    function Start(deployed: bool, phase: FlightPhase): (s: FlightState)
      ensures s.times == [] && s.positions == [] && s.velocities == []
    {
      FlightState(Vec2(FieldLength / 2.0, 0.0), Zero, deployed, phase, [], [], [], 0.0, 0.0)
    }

    /**
     * One pass of the loop body at `time`: record the sample, raise the
     * maximum altitude if the rocket is strictly higher, deploy the parachute
     * if due, and take one Euler step.
     */
    function Iteration(s: FlightState, time: real): (r: FlightState)
      ensures r.times == s.times + [time] && r.positions == s.positions + [s.position]
      ensures r.velocities == s.velocities + [s.velocity]
      ensures Kinematics(r.position, r.velocity) == step(Kinematics(s.position, s.velocity), time)
      ensures r.deployed == (s.deployed || DeploysAt(time, s.velocity))
      ensures r.phase == if !s.deployed && DeploysAt(time, s.velocity) then Descent else s.phase
    {
      var higher := s.position.y > s.maxAltitude;
      var deploy := !s.deployed && DeploysAt(time, s.velocity);
      var k := step(Kinematics(s.position, s.velocity), time);
      FlightState(k.position, k.velocity, s.deployed || deploy, if deploy then Descent else s.phase,
        s.times + [time], s.positions + [s.position], s.velocities + [s.velocity],
        if higher then s.position.y else s.maxAltitude, if higher then time else s.apogeeTime)
    }

    /**
     * The loop of simulate_flight from its n-th pass on (the clock reads n * Dt):
     * stop after the pass that brings the rocket to or below the ground, or
     * whose clock advance passes 300 s.
     */
    function Flight(s: FlightState, n: nat): FlightState
      requires n < MaxSamples
      decreases MaxSamples - n
    {
      var next := Iteration(s, Clock(n));
      if Stops(next, n) then next
      else
        ClockBound(n + 1);
        Flight(next, n + 1)
    }

    /** The loop ends after pass n: the rocket is at or below the ground, or the advanced clock is past 300 s. */
    predicate Stops(next: FlightState, n: nat) {
      next.position.y <= 0.0 || Clock(n + 1) > MaxFlightTime
    }

    /**
     * The run from pass n is decided by that pass: if it leaves the rocket at
     * or below the ground, or advances the clock past 300 s, the run ends
     * there; otherwise it continues from pass n + 1 at the advanced clock.
     */
    lemma Advance(s: FlightState, n: nat)
      requires n < MaxSamples
      ensures var next := Iteration(s, Clock(n));
        if next.position.y <= 0.0 || Clock(n) + Dt > MaxFlightTime then Flight(s, n) == next
        else n + 1 < MaxSamples && Clock(n) + Dt == Clock(n + 1) && Flight(s, n) == Flight(next, n + 1)
    {
      ClockBound(n + 1);
    }

    /** The histories after n passes: sampled every Dt from launch, one Euler step apart, airborne after launch. */
    ghost predicate Recorded(s: FlightState, n: nat)
      requires IsNorm(norm)
    {
      |s.times| == n && |s.positions| == n && |s.velocities| == n &&
      Sampled(s.times) && StepsFollow(s.times, s.positions, s.velocities) && Airborne(s.positions) &&
      (n == 0 ==> s.position == Vec2(FieldLength / 2.0, 0.0) && s.velocity == Zero) &&
      (n > 0 ==> Launched(s.positions, s.velocities) && Follows(s.times, s.positions, s.velocities, s.position, s.velocity))
    }

    /** The running maximum altitude and apogee time agree with the recorded positions. */
    ghost predicate Tracked(s: FlightState) {
      s.maxAltitude == Peak(s.positions) && s.apogeeTime == Clock(ApogeeIndex(s.positions))
    }

    /** The parachute is out exactly when it started out or some sample met the deployment rule. */
    ghost predicate Deployment(s: FlightState, deployed: bool, phase: FlightPhase) {
      |s.times| == |s.velocities| &&
      s.deployed == (deployed || DeployedBy(s.times, s.velocities)) &&
      s.phase == if !deployed && s.deployed then Descent else phase
    }

    /** What n passes of the loop from Start(deployed, phase) have established. */
    ghost predicate Reached(s: FlightState, n: nat, deployed: bool, phase: FlightPhase)
      requires IsNorm(norm)
    {
      Recorded(s, n) && Tracked(s) && Deployment(s, deployed, phase)
    }

    /** One more pass keeps everything Reached states. */
    lemma IterationKeeps(s: FlightState, n: nat, deployed: bool, phase: FlightPhase)
      requires Sound() && Reached(s, n, deployed, phase)
      requires n > 0 ==> s.position.y > 0.0
      ensures Reached(Iteration(s, Clock(n)), n + 1, deployed, phase)
    {
      var time := Clock(n);
      var r := Iteration(s, time);
      PeakAppend(s.positions, s.position);
      DeployedByAppend(s.times, s.velocities, time, s.velocity);
      RecordAppend(s.times, s.positions, s.velocities, time, s.position, s.velocity);
      assert Sampled(r.times) by {
        forall i | 0 <= i < |r.times| ensures r.times[i] == Clock(i) {
          if i < n { assert r.times[i] == s.times[i]; }
        }
      }
      assert Airborne(r.positions) by {
        forall i | 1 <= i < |r.positions| ensures r.positions[i].y > 0.0 {
          if i < n { assert r.positions[i] == s.positions[i]; }
        }
      }
      if n > 0 {
        assert r.positions[0] == s.positions[0] && r.velocities[0] == s.velocities[0];
      }
    }

    /** The clock stays within 300 s only for the first MaxSamples - 1 passes. */
    lemma ClockBound(m: nat)
      ensures Clock(m) <= MaxFlightTime <==> m < MaxSamples - 1 || m == MaxSamples - 1
    {
    }

    /**
     * Running the loop from a Reached state: the result records every pass,
     * each sample one Euler step after the previous, the rocket ends one step
     * after the last sample, every sample after launch is airborne, and the
     * loop ends on the ground or when the sample budget of 300 s is spent.
     */
    lemma {:induction false} FlightFrom(s: FlightState, n: nat, deployed: bool, phase: FlightPhase)
      requires Sound() && n < MaxSamples && Reached(s, n, deployed, phase)
      requires n > 0 ==> s.position.y > 0.0
      ensures var r := Flight(s, n);
        n < |r.times| <= MaxSamples && Reached(r, |r.times|, deployed, phase) &&
        (r.position.y <= 0.0 || |r.times| == MaxSamples)
      decreases MaxSamples - n
    {
      IterationKeeps(s, n, deployed, phase);
      var next := Iteration(s, Clock(n));
      if Stops(next, n) {
        ClockBound(n + 1);
      } else {
        ClockBound(n + 1);
        FlightFrom(next, n + 1, deployed, phase);
      }
    }

    /**
     * The whole simulate_flight run from launch: at least one and at most
     * MaxSamples samples, taken every Dt from time 0 at the launch point at
     * rest; consecutive samples one Euler step apart and the final state one
     * step after the last; every sample after launch above the ground; the run
     * ends on the ground unless the 300 s budget ran out; max_altitude is the
     * highest recorded altitude (or 0) and apogee_time the first time it was
     * reached; the parachute is out exactly when it was already out or some
     * sample met the deployment rule, and the phase becomes descent exactly
     * when the loop deployed it.
     */
    lemma SimulatedFlight(deployed: bool, phase: FlightPhase)
      requires Sound()
      ensures var r := Flight(Start(deployed, phase), 0);
        var ts, ps, vs := r.times, r.positions, r.velocities;
        1 <= |ts| <= MaxSamples && |ps| == |ts| && |vs| == |ts| &&
        ts[0] == 0.0 && ps[0] == Vec2(FieldLength / 2.0, 0.0) && vs[0] == Zero &&
        (forall i :: 0 <= i < |ts| ==> ts[i] == Clock(i)) &&
        StepsFollow(ts, ps, vs) &&
        Kinematics(r.position, r.velocity) == BatchStep(Kinematics(ps[|ts| - 1], vs[|ts| - 1]), ts[|ts| - 1]) &&
        (forall i :: 1 <= i < |ps| ==> ps[i].y > 0.0) &&
        (r.position.y <= 0.0 || |ts| == MaxSamples) &&
        r.maxAltitude == Peak(ps) && r.apogeeTime == ts[ApogeeIndex(ps)] &&
        r.deployed == (deployed || DeployedBy(ts, vs)) &&
        r.phase == if !deployed && r.deployed then Descent else phase
    {
      FlightFrom(Start(deployed, phase), 0, deployed, phase);
    }

    /**
     * With no wind, an Euler step of a rocket that is not moving sideways
     * keeps it from moving sideways: thrust, drag and gravity have no
     * horizontal part.
     */
    lemma NoDrift(k: Kinematics, time: real, engine: Engine, cd: real, area: real, mass: real, norm: (real, real) -> real)
      requires IsNorm(norm) && mass > 0.0 && k.velocity.x == 0.0
      ensures var r := EulerUpdate(k, time, engine, Zero, cd, area, mass, norm);
        r.velocity.x == 0.0 && r.position.x == k.position.x
    {
      var rel := Sub(k.velocity, Zero);
      var speed := norm(rel.x, rel.y);
      var drag := Drag(k.velocity, Zero, cd, area, false, speed);
      assert drag.x == 0.0;
      var force := Add(Add(Thrust(time, engine.burnTime, engine.averageThrust), drag), Vec2(0.0, -mass * Gravity));
      assert force.x == 0.0;
      assert Div(force, mass).x == 0.0;
    }

    /** The rocket is over the middle of the field, not moving sideways, and so was every recorded sample. */
    ghost predicate Calm(s: FlightState) {
      s.position.x == FieldLength / 2.0 && s.velocity.x == 0.0 &&
      forall i :: 0 <= i < |s.positions| ==> s.positions[i].x == FieldLength / 2.0
    }

    /** With no wind, the loop from a calm state stays calm to the end. */
    lemma {:induction false} CalmFrom(s: FlightState, n: nat)
      requires Sound() && windVector == Zero && n < MaxSamples && Calm(s)
      ensures Calm(Flight(s, n))
      decreases MaxSamples - n
    {
      var k := Kinematics(s.position, s.velocity);
      NoDrift(k, Clock(n), engine, rocket.cd, rocket.area, rocket.dryMass + Propellant, norm);
      assert step(k, Clock(n)) == BatchStep(k, Clock(n));
      var next := Iteration(s, Clock(n));
      assert Calm(next) by {
        forall i | 0 <= i < |next.positions| ensures next.positions[i].x == FieldLength / 2.0 {
          if i < |s.positions| { assert next.positions[i] == s.positions[i]; }
        }
      }
      ClockBound(n + 1);
      if !Stops(next, n) {
        CalmFrom(next, n + 1);
      }
    }

    /**
     * With no wind the rocket never drifts: every sample and the final
     * position are over the launch point in the middle of the field, so the
     * landing is classified Field.
     */
    lemma CalmFlight(deployed: bool, phase: FlightPhase)
      requires Sound() && windVector == Zero
      ensures var r := Flight(Start(deployed, phase), 0);
        && (forall i :: 0 <= i < |r.positions| ==> r.positions[i].x == FieldLength / 2.0)
        && r.position.x == FieldLength / 2.0
        && Classify(r.position.x, FieldLength) == Field
    {
      CalmFrom(Start(deployed, phase), 0);
    }

    /** The loop's state as the method holds it: the rocket, the histories and the two locals. */
    ghost function Current(maxAltitude: real, apogeeTime: real): FlightState
      reads this, rocket
    {
      FlightState(rocket.position, rocket.velocity, rocket.parachuteDeployed, rocket.flightPhase,
        timeHistory, positionHistory, velocityHistory, maxAltitude, apogeeTime)
    }

    /**
     * One pass of the simulate_flight loop body: record the current state,
     * track the maximum altitude, deploy the parachute if due, and take an
     * Euler step. maxAltitude and apogeeTime are the loop's two locals.
     */
    method Pass(time: real, maxAltitude: real, apogeeTime: real, ghost n: nat) returns (maxAltitude': real, apogeeTime': real)
      requires Sound() && Valid() && rocket.mass == rocket.dryMass + Propellant
      requires n < MaxSamples && time == Clock(n)
      modifies this, rocket
      ensures if rocket.position.y <= 0.0 || time + Dt > MaxFlightTime then
                Flight(old(Current(maxAltitude, apogeeTime)), n) == Current(maxAltitude', apogeeTime')
              else
                n + 1 < MaxSamples && time + Dt == Clock(n + 1) &&
                Flight(old(Current(maxAltitude, apogeeTime)), n) == Flight(Current(maxAltitude', apogeeTime'), n + 1)
      ensures rocket.mass == old(rocket.mass) && rocket.engineBurning == old(rocket.engineBurning) && Valid()
    {
      // Record the current state
      timeHistory := timeHistory + [time];
      positionHistory := positionHistory + [rocket.position];
      velocityHistory := velocityHistory + [rocket.velocity];

      // Track the maximum altitude
      maxAltitude', apogeeTime' := maxAltitude, apogeeTime;
      if rocket.position.y > maxAltitude {
        maxAltitude' := rocket.position.y;
        apogeeTime' := time;
      }

      // Automatic parachute deployment after burn plus delay, once not climbing
      if !rocket.parachuteDeployed && time > engine.burnTime + engine.delay && rocket.velocity.y <= 0.0 {
        rocket.parachuteDeployed := true;
        rocket.flightPhase := Descent;
      }

      // Forces, acceleration and the Euler update
      EulerStep(time);
      Advance(old(Current(maxAltitude, apogeeTime)), n);
    }

    /** The set-up of simulate_flight: the rocket at rest mid-field with the propellant loaded, the histories cleared. */
    method Reset()
      modifies this, rocket
      ensures Current(0.0, 0.0) == Start(old(rocket.parachuteDeployed), old(rocket.flightPhase))
      ensures rocket.mass == rocket.dryMass + Propellant && rocket.engineBurning == old(rocket.engineBurning) && Valid()
    {
      rocket.position := Vec2(FieldLength / 2.0, 0.0);
      rocket.velocity := Vec2(0.0, 0.0);
      rocket.mass := rocket.dryMass + Propellant;
      timeHistory := [];
      positionHistory := [];
      velocityHistory := [];
    }

    /**
     * simulate_flight: launch from the middle of the field at rest with the
     * propellant loaded, then loop recording a sample, deploying the parachute
     * if due and taking an Euler step, until the rocket is at or below the
     * ground or the clock has passed 300 s. Returns the maximum altitude,
     * where the rocket came down, and the apogee time (which the source
     * computes but does not return). The run is exactly Flight from Start;
     * SimulatedFlight states what that run satisfies.
     */
    method SimulateFlight() returns (maxAltitude: real, landing: Landing, apogeeTime: real)
      requires Sound() && Valid()
      modifies this, rocket
      ensures Valid()
      ensures Current(maxAltitude, apogeeTime) == Flight(Start(old(rocket.parachuteDeployed), old(rocket.flightPhase)), 0)
      ensures rocket.mass == rocket.dryMass + Propellant
      ensures landing == Classify(rocket.position.x, FieldLength)
      ensures windVector == Zero ==> landing == Field && rocket.position.x == FieldLength / 2.0
      ensures rocket.engineBurning == old(rocket.engineBurning)
    {
      ghost var start := Start(rocket.parachuteDeployed, rocket.flightPhase);
      var time := 0.0;
      Reset();
      maxAltitude := 0.0;
      apogeeTime := 0.0;
      ghost var n: nat := 0;
      ghost var result := Flight(start, 0);
      while true
        invariant n < MaxSamples && time == Clock(n)
        invariant Valid() && rocket.mass == rocket.dryMass + Propellant
        invariant rocket.engineBurning == old(rocket.engineBurning)
        invariant Flight(Current(maxAltitude, apogeeTime), n) == result
        decreases MaxSamples - n
      {
        maxAltitude, apogeeTime := Pass(time, maxAltitude, apogeeTime, n);

        // Ground impact
        if rocket.position.y <= 0.0 {
          break;
        }

        time := time + Dt;

        // Safety bound on simulated time
        if time > MaxFlightTime {
          break;
        }
        n := n + 1;
      }
      landing := CheckLandingLocation();
      if windVector == Zero {
        CalmFlight(start.deployed, start.phase);
        assert rocket.position.x == Flight(start, 0).position.x;
      }
    }
  }
}
