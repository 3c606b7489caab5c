/**
 * The interactive game of rocket_game_v2.0.py (VisualRocketGame): a state
 * machine over the menu, the launch countdown, the flight, the baseball
 * recovery game, the time-travel game and the results screen; its own
 * per-frame flight stepper; and the keyboard controls with their clamps.
 */
module Game {
  import opened Wrappers
  import opened Vectors
  import opened Forces
  import opened Engines
  import opened Simulation
  import opened Controls
  import opened Sound
  import opened Eras

  const ScreenWidth: int := 1200
  const TimeStep: real := 0.033           // s per frame of the interactive stepper
  const CountdownDuration: int := 6000    // ms of counting down
  const BlastOffDuration: int := 2000     // ms of BLAST OFF after the countdown
  const MaxAttempts: int := 10            // baseball throws before the recovery game is lost
  const LaunchX: real := 54.85            // m, the middle of the field
  const TreeWait: real := 2.0             // s shown in the trees before the recovery game
  const FieldWait: real := 3.0            // s shown on the field before time travel
  const TreeOffsetLimit: real := 400.0    // ScreenWidth // 2 - 200
  const MinX: int := 50                   // px, the leftmost player position
  const MaxX: int := ScreenWidth - 50     // px, the rightmost player position
  const BaseballStartX: int := 100
  const PlayerStartX: int := 200
  const DinosaurStartX: real := 1000.0    // ScreenWidth - 200
  const RobotStartX: real := 900.0        // ScreenWidth - 300

  datatype GameState = Menu | Countdown | Flying | Recovery | TimeTravel | Results

  datatype Key = KeyA | KeyB | KeyC | KeyD | KeyE | KeyQ | KeyR | KeyS | KeyW | Key4 | Key5
    | Space | Return | Escape | Up | Down | Left | Right
    | Minus | KeypadMinus | Plus | KeypadPlus | Equals | OtherKey

  datatype Event = Quit | KeyDown(key: Key) | OtherEvent

  /** A wind re-roll: a speed drawn from [0.5, 8.0] and a direction step drawn from 0..23 (15 degrees each). */
  datatype WindDraw = WindDraw(speed: real, step: int)

  predicate Drawn(d: WindDraw) {
    0.5 <= d.speed <= 8.0 && 0 <= d.step <= 23
  }

  /** What an event brings from outside: a wind re-roll, the clock in ms, and whether a baseball throw hits. */
  datatype Inputs = Inputs(wind: WindDraw, now: int, hit: bool)

  /** The menu choices: engine and wind. */
  datatype Choice = Choice(engine: EngineKey, windSpeed: real, windDirection: int) {
    predicate InRange() {
      0.0 <= windSpeed <= 10.0 && 0 <= windDirection < 360
    }
  }

  /** The flight bookkeeping of the game object. */
  datatype FlightRecord = FlightRecord(simTime: real, manualParachute: bool, countdownStart: int,
                                       landingPosition: Option<Vec2>, landingTime: real, showLandingMarker: bool)

  /** The baseball recovery game: throw angle and power, attempts, where the tree is drawn, and the player. */
  datatype Baseball = Baseball(angle: int, power: real, attempts: int, treeX: real, treeHeight: real, playerX: int) {
    predicate InRange() {
      0 <= angle <= 90 && 0.1 <= power <= 1.0 && 0 <= attempts &&
      -TreeOffsetLimit <= treeX <= TreeOffsetLimit && MinX <= playerX <= MaxX
    }
  }

  /** The time-travel game: era, power, collections, the player and the two creatures, and the outcome. */
  datatype Travel = Travel(era: Era, power: real, crystals: int, energy: int, playerX: int,
                           dinosaurX: real, robotX: real, gameOver: bool, gameOverTime: int,
                           jumping: bool, jumpStartTime: int, jumpStartX: int,
                           dinosaurMoving: bool, robotMoving: bool, won: bool, winStartTime: int) {
    predicate InRange() {
      0.1 <= power <= 1.0 && MinX <= playerX <= MaxX &&
      0 <= crystals <= Goal && 0 <= energy <= Goal
    }

    /** A won game is never lost, and a win means one kind of item is complete. */
    predicate Decided() {
      !(won && gameOver) && (won ==> crystals == Goal || energy == Goal)
    }
  }

  const InitialBaseball: Baseball := Baseball(45, 0.5, 0, 0.0, 6.0, BaseballStartX)

  const InitialTravel: Travel :=
    Travel(Present, 0.5, 0, 0, PlayerStartX, DinosaurStartX, RobotStartX, false, 0, false, 0, 0, false, false, false, 0)

  /** The menu keys: engine selection, wind speed and direction, wind re-roll. */
  function Dial(c: Choice, key: Key, wind: WindDraw): (r: Choice)
    requires Drawn(wind)
    ensures c.InRange() ==> r.InRange()
    ensures r.engine == match key case KeyA => A case KeyB => B case KeyC => C case _ => c.engine
    ensures key == Up && c.InRange() ==> r.windSpeed == if c.windSpeed <= 9.5 then c.windSpeed + 0.5 else 10.0
    ensures key == Down && c.InRange() ==> r.windSpeed == if c.windSpeed >= 0.5 then c.windSpeed - 0.5 else 0.0
    ensures key == Left || key == Right ==> r.windSpeed == c.windSpeed
    ensures key == Left ==> r.windDirection == TurnWind(c.windDirection, -15)
    ensures key == Right ==> r.windDirection == TurnWind(c.windDirection, 15)
    ensures key == KeyW ==> r.windSpeed == wind.speed && r.windDirection == 15 * wind.step
    ensures key in {KeyA, KeyB, KeyC} ==> r.windSpeed == c.windSpeed && r.windDirection == c.windDirection
    ensures key in {Up, Down} ==> r.windDirection == c.windDirection
    ensures key !in {Up, Down, Left, Right, KeyW, KeyA, KeyB, KeyC} ==> r == c
  {
    match key
    case KeyA => c.(engine := A)
    case KeyB => c.(engine := B)
    case KeyC => c.(engine := C)
    case Up => c.(windSpeed := Min(10.0, c.windSpeed + 0.5))
    case Down => c.(windSpeed := Max(0.0, c.windSpeed - 0.5))
    case Left => c.(windDirection := TurnWind(c.windDirection, -15))
    case Right => c.(windDirection := TurnWind(c.windDirection, 15))
    case KeyW => c.(windSpeed := wind.speed, windDirection := wind.step * 15)
    case _ => c
  }

  /** The recovery keys other than the throw: angle by 5 degrees, power by 0.05, the player by 20 px. */
  function Pitch(b: Baseball, key: Key): (r: Baseball)
    ensures b.InRange() ==> r.InRange()
    ensures r.attempts == b.attempts && r.treeX == b.treeX && r.treeHeight == b.treeHeight
    ensures key == Up && b.InRange() ==> r.angle == if b.angle <= 85 then b.angle + 5 else 90
    ensures key == Down && b.InRange() ==> r.angle == if b.angle >= 5 then b.angle - 5 else 0
    ensures key == Left ==> r.power == Max(0.1, b.power - 0.05)
    ensures key == Right ==> r.power == Min(1.0, b.power + 0.05)
    ensures key == KeyA ==> r.playerX == IntMax(MinX, b.playerX - 20)
    ensures key == KeyD ==> r.playerX == IntMin(MaxX, b.playerX + 20)
    ensures key in {Up, Down} ==> r.power == b.power && r.playerX == b.playerX
    ensures key in {Left, Right} ==> r.angle == b.angle && r.playerX == b.playerX
    ensures key in {KeyA, KeyD} ==> r.angle == b.angle && r.power == b.power
    ensures key !in {Up, Down, Left, Right, KeyA, KeyD} ==> r == b
  {
    match key
    case Up => b.(angle := IntMin(90, b.angle + 5))
    case Down => b.(angle := IntMax(0, b.angle - 5))
    case Left => b.(power := Max(0.1, b.power - 0.05))
    case Right => b.(power := Min(1.0, b.power + 0.05))
    case KeyA => b.(playerX := IntMax(MinX, b.playerX - 20))
    case KeyD => b.(playerX := IntMin(MaxX, b.playerX + 20))
    case _ => b
  }

  /**
   * The time-travel keys while the game is neither won nor lost: UP and DOWN
   * move the era, LEFT and RIGHT the power, W/A and S/D the player by 10 px,
   * E or SPACE starts a jump unless one is under way, 4 or 5 wakes the
   * creature of the current era.
   */
  function Steer(t: Travel, key: Key, now: int): (r: Travel)
    ensures t.InRange() ==> r.InRange()
    ensures r.crystals == t.crystals && r.energy == t.energy && r.won == t.won && r.gameOver == t.gameOver
    ensures r.era == match key case Up => EraUp(t.era) case Down => EraDown(t.era) case _ => t.era
    ensures key == Left ==> r.power == Max(0.1, t.power - 0.1)
    ensures key == Right ==> r.power == Min(1.0, t.power + 0.1)
    ensures key in {KeyW, KeyA} ==> r.playerX == IntMax(MinX, t.playerX - 10)
    ensures key in {KeyS, KeyD} ==> r.playerX == IntMin(MaxX, t.playerX + 10)
    ensures r == t.(era := r.era, power := r.power, playerX := r.playerX, jumping := r.jumping,
                    jumpStartTime := r.jumpStartTime, jumpStartX := r.jumpStartX,
                    dinosaurMoving := r.dinosaurMoving, robotMoving := r.robotMoving)
    ensures key !in {Left, Right} ==> r.power == t.power
    ensures key !in {KeyW, KeyA, KeyS, KeyD} ==> r.playerX == t.playerX
    ensures key !in {KeyE, Space} ==>
      r.jumping == t.jumping && r.jumpStartTime == t.jumpStartTime && r.jumpStartX == t.jumpStartX
    ensures key !in {Key4, Key5} ==> r.dinosaurMoving == t.dinosaurMoving && r.robotMoving == t.robotMoving
    ensures key in {KeyE, Space} ==> r == Jump(t, now)
    ensures key in {Key4, Key5} ==> r == Wake(t)
    ensures key !in {Up, Down, Left, Right, KeyW, KeyA, KeyS, KeyD, KeyE, Space, Key4, Key5} ==> r == t
  {
    if key in {KeyE, Space} then Jump(t, now)
    else if key in {Key4, Key5} then Wake(t)
    else t.(era := EraKey(t.era, key), power := PowerKey(t.power, key), playerX := WalkKey(t.playerX, key))
  }

  /** UP and DOWN move the era one step along the dial. */
  function EraKey(e: Era, key: Key): Era {
    match key
    case Up => EraUp(e)
    case Down => EraDown(e)
    case _ => e
  }

  /** LEFT and RIGHT move the time machine's power by 0.1 within [0.1, 1.0]. */
  function PowerKey(p: real, key: Key): (r: real)
    ensures 0.1 <= p <= 1.0 ==> 0.1 <= r <= 1.0
  {
    if key == Left then Max(0.1, p - 0.1)
    else if key == Right then Min(1.0, p + 0.1)
    else p
  }

  /** W/A and S/D move the player by 10 px within the walkable strip. */
  function WalkKey(x: int, key: Key): (r: int)
    ensures MinX <= x <= MaxX ==> MinX <= r <= MaxX
  {
    if key in {KeyW, KeyA} then IntMax(MinX, x - 10)
    else if key in {KeyS, KeyD} then IntMin(MaxX, x + 10)
    else x
  }

  /** E or SPACE: a jump starts from the player's position unless one is under way. */
  function Jump(t: Travel, now: int): (r: Travel)
    ensures r.jumping && (t.jumping ==> r == t)
    ensures !t.jumping ==> r == t.(jumping := true, jumpStartTime := now, jumpStartX := t.playerX)
  {
    if t.jumping then t else t.(jumping := true, jumpStartTime := now, jumpStartX := t.playerX)
  }

  /** 4 or 5: the creature of the current era starts moving; the present has none. */
  function Wake(t: Travel): (r: Travel)
    ensures r.dinosaurMoving == (t.dinosaurMoving || t.era == Past)
    ensures r.robotMoving == (t.robotMoving || t.era == Future)
    ensures r == t.(dinosaurMoving := r.dinosaurMoving, robotMoving := r.robotMoving)
  {
    if t.era == Past then t.(dinosaurMoving := true)
    else if t.era == Future then t.(robotMoving := true)
    else t
  }

  /** The mass a frame divides by: the rocket's mass, or its dry mass when the mass is not positive. */
  function SafeMass(mass: real, dryMass: real): real {
    if mass <= 0.0 then dryMass else mass
  }

  /** What a frame needs of a simulation: engine, wind vector, the rocket's drag coefficient, area and dry mass, and the norm. */
  datatype Rig = Rig(engine: Engine, wind: Vec2, cd: real, area: real, dryMass: real, norm: (real, real) -> real)

  /** The rig of a simulation. */
  function RigOf(sim: RocketSimulation): (r: Rig)
    ensures r.engine == sim.engine && r.wind == sim.windVector && r.norm == sim.norm
    ensures r.cd == sim.rocket.cd && r.area == sim.rocket.area && r.dryMass == sim.rocket.dryMass
  {
    Rig(sim.engine, sim.windVector, sim.rocket.cd, sim.rocket.area, sim.rocket.dryMass, sim.norm)
  }

  /**
   * The total force of one frame: thrust, drag against the velocity relative
   * to the wind, gravity at the given mass, and the horizontal wind nudge.
   */
  function FrameForce(rig: Rig, time: real, velocity: Vec2, mass: real, deployed: bool): Vec2
    requires IsNorm(rig.norm)
  {
    var rel := Sub(velocity, rig.wind);
    Add(Add(Add(Thrust(time, rig.engine.burnTime, rig.engine.averageThrust),
                Drag(velocity, rig.wind, rig.cd, rig.area, false, rig.norm(rel.x, rel.y))),
            Vec2(0.0, -mass * Gravity)),
        WindNudge(time, rig.engine.burnTime, deployed, rig.wind))
  }

  /** The rocket has reached the ground, or the canopy when it is over the trees. */
  predicate Landed(k: Kinematics) {
    k.position.y <= LandingAltitude(k.position.x)
  }

  /** The landing check of a frame: a rocket at or below its landing altitude is put on it and stopped. */
  function Settle(k: Kinematics): (r: Kinematics)
    ensures r.position.x == k.position.x
    ensures r.position.y >= LandingAltitude(r.position.x)
    ensures Landed(k) ==> r.position.y == LandingAltitude(k.position.x) && r.velocity == Zero
    ensures !Landed(k) ==> r == k
  {
    if Landed(k) then Kinematics(Vec2(k.position.x, LandingAltitude(k.position.x)), Zero) else k
  }

  /**
   * One frame of update_simulation before the landing check: the force is
   * divided by the mass (the dry mass when the mass is not positive), the
   * velocity is updated by it and the position by the new velocity.
   */
  function FrameUpdate(rig: Rig, k: Kinematics, time: real, mass: real, deployed: bool): Kinematics
    requires IsNorm(rig.norm) && rig.dryMass > 0.0
  {
    var force := FrameForce(rig, time, k.velocity, mass, deployed);
    var velocity := Add(k.velocity, Scale(TimeStep, Div(force, SafeMass(mass, rig.dryMass))));
    Kinematics(Add(k.position, Scale(TimeStep, velocity)), velocity)
  }

  /**
   * The rocket's mass after a frame at the given time: the linear burn while
   * the engine burns, otherwise the mass kept (the dry mass if it was not
   * positive).
   */
  function FrameMass(sim: RocketSimulation, time: real, mass: real): real
    requires sim.engine.burnTime > 0.0
  {
    if time <= sim.engine.burnTime then BurnMass(sim.rocket.dryMass, time, sim.engine.burnTime)
    else SafeMass(mass, sim.rocket.dryMass)
  }

  /**
   * A rocket that carries what the burn has left keeps doing so frame after
   * frame: the mass stays between the dry and the loaded mass, never grows,
   * and is at most what the burn leaves at the next frame's time.
   */
  lemma FrameMassBounds(sim: RocketSimulation, time: real, mass: real)
    requires sim.engine.burnTime > 0.0 && time >= 0.0
    requires sim.rocket.dryMass <= mass <= sim.rocket.dryMass + Propellant
    requires time <= sim.engine.burnTime ==> BurnMass(sim.rocket.dryMass, time, sim.engine.burnTime) <= mass
    ensures sim.rocket.dryMass <= FrameMass(sim, time, mass) <= mass
    ensures time + TimeStep <= sim.engine.burnTime ==>
      BurnMass(sim.rocket.dryMass, time + TimeStep, sim.engine.burnTime) <= FrameMass(sim, time, mass)
  {
    if time + TimeStep <= sim.engine.burnTime {
      BurnMassNonIncreasing(sim.rocket.dryMass, time, time + TimeStep, sim.engine.burnTime);
    }
  }

  /** The landing marker: placed where the rocket settles, with the time, the first time it lands. */
  function Mark(f: FlightRecord, k: Kinematics): (r: FlightRecord)
    ensures r.simTime == f.simTime && r.manualParachute == f.manualParachute && r.countdownStart == f.countdownStart
    ensures r.showLandingMarker == (f.showLandingMarker || Landed(k))
    ensures !Landed(k) || f.showLandingMarker ==> r == f
    ensures Landed(k) && !f.showLandingMarker ==>
      r.landingPosition == Some(Vec2(k.position.x, LandingAltitude(k.position.x))) && r.landingTime == f.simTime
  {
    if Landed(k) && !f.showLandingMarker
    then f.(landingPosition := Some(Settle(k).position), landingTime := f.simTime, showLandingMarker := true)
    else f
  }

  /** Once placed, the marker stays where the first landing put it, whatever later frames do. */
  lemma MarkOnce(f: FlightRecord, k: Kinematics, later: Kinematics, time: real)
    requires Landed(k)
    ensures var g := Mark(f, k); Mark(g.(simTime := time), later) == g.(simTime := time)
    ensures !f.showLandingMarker ==> Mark(f, k).landingPosition == Some(Vec2(k.position.x, LandingAltitude(k.position.x)))
    ensures !f.showLandingMarker ==> Mark(f, k).landingTime == f.simTime
  {
  }

  /** How long a landed rocket is shown before the game moves on: 2 s in the trees, 3 s on the field. */
  function Wait(x: real): (w: real)
    ensures 0.0 <= x <= FieldLength ==> w == 3.0
    ensures x < 0.0 || x > FieldLength ==> w == 2.0
  {
    if Classify(x, FieldLength) == Trees then TreeWait else FieldWait
  }

  /** The frame ends the flight: the rocket has landed and has been shown for longer than the wait. */
  predicate Waited(f: FlightRecord, k: Kinematics) {
    Landed(k) && f.simTime - Mark(f, k).landingTime > Wait(k.position.x)
  }

  /** A rocket's position and velocity. */
  ghost function Kin(r: Rocket): Kinematics
    reads r
  {
    Kinematics(r.position, r.velocity)
  }

  /** Whether the player on the ground touches the creature of the current era (the present has none). */
  function Touches(t: Travel): (r: bool)
    ensures r ==> t.era != Present
  {
    match t.era
    case Past => Abs(t.playerX as real - t.dinosaurX) < CollisionReach
    case Future => Abs(t.playerX as real - t.robotX) < CollisionReach
    case Present => false
  }

  /**
   * One frame of the time-travel rules from t to r at clock now: in the past
   * the crystals and in the future the energy orbs near the player are
   * collected, and the third of a kind wins the game; touching the era's
   * creature on the ground loses a game not yet won; nothing else changes.
   */
  predicate Explored(t: Travel, r: Travel, now: int)
    requires t.InRange()
  {
    var completed := (r.crystals > t.crystals && r.crystals >= Goal) || (r.energy > t.energy && r.energy >= Goal);
    && r.(crystals := t.crystals, energy := t.energy, won := t.won, winStartTime := t.winStartTime,
          gameOver := t.gameOver, gameOverTime := t.gameOverTime) == t
    && (if t.era == Past then Collected(t.crystals, r.crystals, t.playerX, Crystals) else r.crystals == t.crystals)
    && (if t.era == Future then Collected(t.energy, r.energy, t.playerX, Orbs) else r.energy == t.energy)
    && r.won == (t.won || completed)
    && r.winStartTime == (if completed then now else t.winStartTime)
    && r.gameOver == (Touches(t) && !t.jumping && !r.won)
    && r.gameOverTime == (if r.gameOver then now else t.gameOverTime)
  }

  /**
   * The collection and collision rules of update_time_travel for a game not
   * yet lost. Collections never fall, and a decided game stays decided.
   */
  method Explore(t: Travel, now: int) returns (r: Travel)
    requires t.InRange() && t.Decided() && !t.gameOver
    ensures Explored(t, r, now)
    ensures r.InRange() && r.Decided()
    ensures r.crystals >= t.crystals && r.energy >= t.energy
  {
    r := t;
    if r.era == Past {
      var count, completed := Collect(r.crystals, r.playerX, Crystals);
      r := r.(crystals := count);
      if completed {
        r := r.(won := true, winStartTime := now);
      }
      if Abs(r.playerX as real - r.dinosaurX) < CollisionReach && !r.jumping && !r.won {
        r := r.(gameOver := true, gameOverTime := now);
      }
    } else if r.era == Future {
      var count, completed := Collect(r.energy, r.playerX, Orbs);
      r := r.(energy := count);
      if completed {
        r := r.(won := true, winStartTime := now);
      }
      if Abs(r.playerX as real - r.robotX) < CollisionReach && !r.jumping && !r.won {
        r := r.(gameOver := true, gameOverTime := now);
      }
    }
  }

  /** An event that ends the game when handled on screen s: a quit event, or ESCAPE or Q on the menu. */
  predicate Quits(e: Event, s: GameState) {
    e == Quit || (e.KeyDown? && s == Menu && e.key in {Escape, KeyQ})
  }

  /**
   * The screens one event can lead to from screen s: only a key changes the
   * screen, and not during the countdown; SPACE starts the flight from the
   * menu; a flight stays in flight; SPACE throws in the recovery game, which
   * may end it; a time-travel game may restart or end; SPACE leaves the
   * results for the menu.
   */
  predicate Next(s: GameState, e: Event, t: GameState) {
    if !e.KeyDown? || s == Countdown then t == s
    else match s
      case Menu => t == if e.key == Space then Countdown else Menu
      case Flying => t == Flying
      case Recovery => if e.key == Space then t in {Recovery, TimeTravel, Results} else t == Recovery
      case TimeTravel => t in {TimeTravel, Menu, Results}
      case Results => t == if e.key == Space then Menu else Results
      case Countdown => t == s
  }

  /**
   * The game object. Its fields are grouped by screen: the menu choices, the
   * flight bookkeeping, the baseball game and the time-travel game, each a
   * record that the methods reassign.
   */
  class VisualRocketGame {
    const soundManager: SoundManager
    /** The Euclidean length of a 2-vector, handed to every simulation the game creates. */
    const norm: (real, real) -> real
    /** The wind vector for a speed and a direction in degrees (speed cos d, speed sin d). */
    const polar: (real, real) -> Vec2
    /** The frame stepper of update_simulation, fixed to FrameUpdate by the constructor (see Geared). */
    ghost const frame: (Rig, Kinematics, real, real, bool) -> Kinematics

    var state: GameState
    var simulation: RocketSimulation?
    var choice: Choice
    var flight: FlightRecord
    var baseball: Baseball
    var travel: Travel

    /** The frame stepper is FrameUpdate wherever FrameUpdate is defined. */
    ghost predicate Geared() {
      forall rig: Rig, k: Kinematics, time: real, mass: real, deployed: bool
        {:trigger FrameUpdate(rig, k, time, mass, deployed)} ::
        IsNorm(rig.norm) && rig.dryMass > 0.0 ==> frame(rig, k, time, mass, deployed) == FrameUpdate(rig, k, time, mass, deployed)
    }

    /** The rocket of the current simulation, if there is one. */
    ghost function Rockets(): set<object>
      reads this
    {
      if simulation == null then {} else {simulation.rocket}
    }

    /** During the countdown and the flight there is a simulation whose rocket carries what the burn has left. */
    ghost predicate Airworthy()
      reads this, simulation, Rockets()
    {
      simulation != null && simulation.Sound() && simulation.Valid() && flight.simTime >= 0.0 &&
      var r := simulation.rocket;
      r.dryMass <= r.mass <= r.dryMass + Propellant &&
      (flight.simTime <= simulation.engine.burnTime ==>
         BurnMass(r.dryMass, flight.simTime, simulation.engine.burnTime) <= r.mass)
    }

    /**
     * The game's invariant: every control value is in its range, a recovery
     * game always has a throw left, a decided time-travel game is still on
     * screen, and a flight has its simulation.
     */
    ghost predicate Valid()
      reads this, soundManager, simulation, Rockets()
    {
      IsNorm(norm) && Geared() && 0.0 <= soundManager.volume <= 1.0 &&
      choice.InRange() && baseball.InRange() && travel.InRange() && travel.Decided() &&
      (state == Recovery ==> baseball.attempts < MaxAttempts) &&
      (travel.won || travel.gameOver ==> state == TimeTravel) &&
      (state == Countdown || state == Flying ==> Airworthy())
    }

    /** The game at start-up: the menu, engine B, a drawn wind, and every mini-game at its start. */
    constructor (norm: (real, real) -> real, polar: (real, real) -> Vec2, wind: WindDraw)
      requires IsNorm(norm) && Drawn(wind)
      ensures Valid() && fresh(soundManager)
      ensures this.norm == norm && this.polar == polar
      ensures state == Menu && simulation == null
      ensures choice == Choice(B, wind.speed, 15 * wind.step)
      ensures flight == FlightRecord(0.0, false, 0, None, 0.0, false)
      ensures baseball == InitialBaseball && travel == InitialTravel
      ensures soundManager.soundsEnabled && !soundManager.musicEnabled && soundManager.volume == 0.7
    {
      soundManager := new SoundManager();
      this.norm := norm;
      this.polar := polar;
      frame := (rig: Rig, k: Kinematics, time: real, mass: real, deployed: bool) =>
        if IsNorm(rig.norm) && rig.dryMass > 0.0 then FrameUpdate(rig, k, time, mass, deployed) else k;
      state := Menu;
      simulation := null;
      choice := Choice(B, wind.speed, wind.step * 15);
      flight := FlightRecord(0.0, false, 0, None, 0.0, false);
      baseball := InitialBaseball;
      travel := InitialTravel;
    }

    /**
     * What start_flight leaves: the countdown started at now, a new
     * simulation for the chosen engine and wind whose rocket stands
     * mid-field, at rest, fully loaded, and the flight bookkeeping afresh;
     * the menu choices and the mini-games as they were.
     */
    twostate predicate Started(now: int)
      reads this, simulation, Rockets()
    {
      && state == Countdown
      && simulation != null && fresh(simulation) && fresh(simulation.rocket)
      && simulation.engine == EngineFor(choice.engine) && simulation.norm == norm
      && simulation.windSpeed == choice.windSpeed && simulation.windDirection == choice.windDirection as real
      && simulation.windVector == polar(choice.windSpeed, choice.windDirection as real)
      && simulation.timeHistory == [] && simulation.positionHistory == [] && simulation.velocityHistory == []
      && Kin(simulation.rocket) == Kinematics(Vec2(LaunchX, 0.0), Zero)
      && simulation.rocket.mass == simulation.rocket.dryMass + Propellant
      && !simulation.rocket.parachuteDeployed && simulation.rocket.flightPhase == Launch
      && flight == FlightRecord(0.0, false, now, None, 0.0, false)
      && choice == old(choice) && baseball == old(baseball) && travel == old(travel)
    }

    /**
     * start_flight: the countdown starts now, with a new simulation for the
     * chosen engine and wind whose rocket stands mid-field, at rest, fully
     * loaded; the flight bookkeeping starts afresh.
     */
    method StartFlight(now: int)
      requires Valid() && state == Menu
      modifies this
      ensures Valid() && Started(now)
    {
      var direction := choice.windDirection as real;
      var sim := new RocketSimulation(choice.engine, choice.windSpeed, direction, polar(choice.windSpeed, direction), norm);
      sim.rocket.position := Vec2(LaunchX, 0.0);
      sim.rocket.velocity := Zero;
      sim.rocket.mass := sim.rocket.dryMass + Propellant;
      state := Countdown;
      simulation := sim;
      flight := FlightRecord(0.0, false, now, None, 0.0, false);
    }

    /**
     * The end of the countdown screen: once the countdown and the BLAST OFF
     * message have both been shown, the flight begins.
     */
    method CountdownTick(now: int)
      requires Valid() && state == Countdown
      modifies this
      ensures Valid()
      ensures state == if now - flight.countdownStart >= CountdownDuration + BlastOffDuration then Flying else Countdown
      ensures simulation == old(simulation) && choice == old(choice) && flight == old(flight)
      ensures baseball == old(baseball) && travel == old(travel)
    {
      if now - flight.countdownStart >= CountdownDuration + BlastOffDuration {
        state := Flying;
      }
    }

    /**
     * The physics of one update_simulation frame: the forces and the Euler
     * update at the current mass, and the linear burn.
     */
    method Frame()
      requires simulation != null && simulation.Sound() && Geared()
      modifies simulation.rocket
      ensures Kin(simulation.rocket) == frame(RigOf(simulation), old(Kin(simulation.rocket)), flight.simTime,
                                                    old(simulation.rocket.mass), old(simulation.rocket.parachuteDeployed))
      ensures simulation.rocket.mass == FrameMass(simulation, flight.simTime, old(simulation.rocket.mass))
      ensures simulation.rocket.parachuteDeployed == old(simulation.rocket.parachuteDeployed)
      ensures simulation.rocket.flightPhase == old(simulation.rocket.flightPhase)
    {
      var sim := simulation;
      var r := sim.rocket;
      var time := flight.simTime;
      ghost var k, mass, deployed := Kin(r), r.mass, r.parachuteDeployed;
      var thrust := sim.ThrustForce(time);
      var drag := sim.DragForce(r.velocity);
      var gravity := Vec2(0.0, -r.mass * Gravity);
      var windForce := WindNudge(time, sim.engine.burnTime, r.parachuteDeployed, sim.windVector);
      r.mass := SafeMass(r.mass, r.dryMass);
      var totalForce := Add(Add(Add(thrust, drag), gravity), windForce);
      var acceleration := Div(totalForce, r.mass);
      if time <= sim.engine.burnTime {
        var propellantUsed := (time / sim.engine.burnTime) * Propellant;
        r.mass := r.dryMass + Propellant - propellantUsed;
      }
      r.velocity := Add(r.velocity, Scale(TimeStep, acceleration));
      r.position := Add(r.position, Scale(TimeStep, r.velocity));
      assert Kin(r) == FrameUpdate(RigOf(sim), k, time, mass, deployed);
    }

    /**
     * The frame of update_simulation before the landing check: the physics,
     * and the sample recorded in each history. The rocket still carries what
     * the burn leaves, and no more than it did.
     */
    method Fly()
      requires Valid() && state == Flying
      modifies simulation, simulation.rocket
      ensures var sim := simulation;
        var time := flight.simTime;
        var k := frame(RigOf(sim), old(Kin(sim.rocket)), time, old(sim.rocket.mass), old(sim.rocket.parachuteDeployed));
        && sim.timeHistory == old(sim.timeHistory) + [time]
        && sim.positionHistory == old(sim.positionHistory) + [k.position]
        && sim.velocityHistory == old(sim.velocityHistory) + [k.velocity]
        && Kin(sim.rocket) == k
        && sim.rocket.mass == FrameMass(sim, time, old(sim.rocket.mass))
        && sim.rocket.parachuteDeployed == old(sim.rocket.parachuteDeployed)
        && sim.rocket.flightPhase == old(sim.rocket.flightPhase)
      ensures var r := simulation.rocket;
        && simulation.Valid() && r.dryMass <= r.mass <= old(r.mass)
        && (flight.simTime + TimeStep <= simulation.engine.burnTime ==>
              BurnMass(r.dryMass, flight.simTime + TimeStep, simulation.engine.burnTime) <= r.mass)
    {
      var sim := simulation;
      var time := flight.simTime;
      FrameMassBounds(sim, time, sim.rocket.mass);
      Frame();
      sim.timeHistory := sim.timeHistory + [time];
      sim.positionHistory := sim.positionHistory + [sim.rocket.position];
      sim.velocityHistory := sim.velocityHistory + [sim.rocket.velocity];
    }

    /**
     * The landing check of update_simulation: a rocket at or below its
     * landing altitude is put on it and stopped, the first landing is
     * marked, and once the landing has been shown long enough the game moves
     * to the recovery game (trees) or the time-travel game (field).
     */
    method Touchdown() returns (stopped: bool)
      requires simulation != null
      modifies this, simulation.rocket
      ensures simulation == old(simulation) && choice == old(choice)
      ensures Kin(simulation.rocket) == Settle(old(Kin(simulation.rocket)))
      ensures simulation.rocket.mass == old(simulation.rocket.mass)
      ensures simulation.rocket.parachuteDeployed == old(simulation.rocket.parachuteDeployed)
      ensures simulation.rocket.flightPhase == old(simulation.rocket.flightPhase)
      ensures flight == Mark(old(flight), old(Kin(simulation.rocket)))
      ensures stopped == Waited(old(flight), old(Kin(simulation.rocket)))
      ensures !stopped ==> state == old(state) && baseball == old(baseball) && travel == old(travel)
      ensures stopped && Classify(old(simulation.rocket.position.x), FieldLength) == Trees ==>
        state == Recovery && travel == old(travel) &&
        baseball == old(baseball).(attempts := 0, playerX := BaseballStartX, treeHeight := GameTreeHeight,
                                   treeX := Clamp(-TreeOffsetLimit, TreeOffsetLimit, old(simulation.rocket.position.x) - LaunchX))
      ensures stopped && Classify(old(simulation.rocket.position.x), FieldLength) == Field ==>
        state == TimeTravel && baseball == old(baseball) && travel == old(travel).(era := Present, crystals := 0, energy := 0)
    {
      var r := simulation.rocket;
      var landing := simulation.CheckLandingLocation();
      var landingAltitude := if landing == Trees then GameTreeHeight else 0.0;
      stopped := false;
      if r.position.y <= landingAltitude {
        r.position := Vec2(r.position.x, landingAltitude);
        r.velocity := Zero;
        if !flight.showLandingMarker {
          flight := flight.(landingPosition := Some(r.position), landingTime := flight.simTime, showLandingMarker := true);
        }
        if landing == Trees {
          if flight.simTime - flight.landingTime > TreeWait {
            state := Recovery;
            var rawTreeX := r.position.x - LaunchX;
            baseball := baseball.(treeX := Clamp(-TreeOffsetLimit, TreeOffsetLimit, rawTreeX), treeHeight := GameTreeHeight,
                                  attempts := 0, playerX := BaseballStartX);
            stopped := true;
          }
        } else {
          if flight.simTime - flight.landingTime > FieldWait {
            state := TimeTravel;
            travel := travel.(era := Present, crystals := 0, energy := 0);
            stopped := true;
          }
        }
      }
    }

    /**
     * update_simulation: nothing unless a flight is under way; otherwise one
     * frame of physics recorded in the histories, the landing check, and the
     * clock advanced by one time step unless the game has moved on.
     */
    method UpdateSimulation()
      requires Valid()
      modifies this, simulation, Rockets()
      ensures Valid() && simulation == old(simulation) && choice == old(choice)
      ensures old(state) != Flying ==> unchanged(this) && unchanged(Rockets()) && (simulation != null ==> unchanged(simulation))
      ensures old(state) == Flying ==>
        var sim := simulation;
        var time := old(flight.simTime);
        var k := frame(RigOf(sim), old(Kin(sim.rocket)), time, old(sim.rocket.mass), old(sim.rocket.parachuteDeployed));
        && sim.timeHistory == old(sim.timeHistory) + [time]
        && sim.positionHistory == old(sim.positionHistory) + [k.position]
        && sim.velocityHistory == old(sim.velocityHistory) + [k.velocity]
        && Kin(sim.rocket) == Settle(k)
        && sim.rocket.mass == FrameMass(sim, time, old(sim.rocket.mass)) <= old(sim.rocket.mass)
        && sim.rocket.parachuteDeployed == old(sim.rocket.parachuteDeployed)
        && sim.rocket.flightPhase == old(sim.rocket.flightPhase)
        && (state == Flying <==> !Waited(old(flight), k))
        && flight == Mark(old(flight), k).(simTime := if state == Flying then time + TimeStep else time)
        && (state == Flying ==> baseball == old(baseball) && travel == old(travel))
        && (state != Flying && Classify(k.position.x, FieldLength) == Trees ==>
              state == Recovery && travel == old(travel) &&
              baseball == old(baseball).(attempts := 0, playerX := BaseballStartX, treeHeight := GameTreeHeight,
                                         treeX := Clamp(-TreeOffsetLimit, TreeOffsetLimit, k.position.x - LaunchX)))
        && (state != Flying && Classify(k.position.x, FieldLength) == Field ==>
              state == TimeTravel && baseball == old(baseball) && travel == old(travel).(era := Present, crystals := 0, energy := 0))
    {
      if simulation != null && state == Flying {
        Fly();
        var stopped := Touchdown();
        if !stopped {
          flight := flight.(simTime := flight.simTime + TimeStep);
        }
      }
    }

    /** What throw_baseball leaves: one more attempt; a hit recovers the rocket, a miss with no attempt left ends the game. */
    twostate predicate Thrown(hit: bool)
      reads this
    {
      && baseball == old(baseball).(attempts := old(baseball.attempts) + 1)
      && state == (if hit then TimeTravel else if baseball.attempts >= MaxAttempts then Results else Recovery)
      && travel == (if hit then old(travel).(era := Present, crystals := 0, energy := 0) else old(travel))
      && simulation == old(simulation) && choice == old(choice) && flight == old(flight)
    }

    /** throw_baseball, with whether the throw hits the rocket as an input. */
    method ThrowBaseball(hit: bool)
      requires Valid() && state == Recovery
      modifies this
      ensures Valid() && Thrown(hit)
    {
      baseball := baseball.(attempts := baseball.attempts + 1);
      if hit {
        state := TimeTravel;
        travel := travel.(era := Present, crystals := 0, energy := 0);
      } else if baseball.attempts >= MaxAttempts {
        state := Results;
      }
    }

    /**
     * What restart_game leaves: the menu with no simulation, a new wind, the
     * flight clock and landing cleared, and both mini-games at their start;
     * the chosen engine, the manual-parachute flag, the countdown start, the
     * game-over time and the jump start time are left as they were.
     */
    twostate predicate Restarted(wind: WindDraw)
      reads this
    {
      && state == Menu && simulation == null
      && choice == old(choice).(windSpeed := wind.speed, windDirection := 15 * wind.step)
      && flight == old(flight).(simTime := 0.0, landingPosition := None, landingTime := 0.0, showLandingMarker := false)
      && baseball == InitialBaseball
      && travel == InitialTravel.(gameOverTime := old(travel.gameOverTime), jumpStartTime := old(travel.jumpStartTime))
    }

    /** restart_game, with the wind re-roll as an input. */
    method Restart(wind: WindDraw)
      requires Valid() && Drawn(wind)
      modifies this
      ensures Valid() && Restarted(wind)
    {
      state := Menu;
      simulation := null;
      flight := flight.(simTime := 0.0, landingPosition := None, landingTime := 0.0, showLandingMarker := false);
      baseball := InitialBaseball;
      travel := InitialTravel.(gameOverTime := travel.gameOverTime, jumpStartTime := travel.jumpStartTime);
      choice := choice.(windSpeed := wind.speed, windDirection := wind.step * 15);
    }

    /** update_time_travel: nothing once the game is lost, otherwise the rules of one frame (Explore). */
    method UpdateTimeTravel(now: int)
      requires Valid() && state == TimeTravel
      modifies this
      ensures Valid() && state == TimeTravel
      ensures simulation == old(simulation) && choice == old(choice) && flight == old(flight) && baseball == old(baseball)
      ensures old(travel.gameOver) ==> travel == old(travel)
      ensures !old(travel.gameOver) ==> Explored(old(travel), travel, now)
    {
      if travel.gameOver {
        return;
      }
      travel := Explore(travel, now);
    }

    /**
     * What a menu key does: SPACE starts the flight; any other key leaves the
     * menu on screen with the choices turned by Dial; S toggles the sound
     * effects and minus and plus move the volume by 0.1; no key touches the
     * music, and no other key touches the sound settings.
     */
    twostate predicate MenuKeyed(key: Key, inputs: Inputs)
      requires Drawn(inputs.wind)
      reads this, soundManager, simulation, Rockets()
    {
      && (key == Space ==> Started(inputs.now))
      && (key != Space ==>
            && state == Menu && choice == Dial(old(choice), key, inputs.wind)
            && simulation == old(simulation) && flight == old(flight) && baseball == old(baseball) && travel == old(travel))
      && (key == KeyS ==> soundManager.soundsEnabled == !old(soundManager.soundsEnabled) &&
                          soundManager.volume == old(soundManager.volume))
      && (key in {Minus, KeypadMinus} ==> soundManager.volume == Clamp(0.0, 1.0, old(soundManager.volume) - 0.1))
      && (key in {Plus, KeypadPlus, Equals} ==> soundManager.volume == Clamp(0.0, 1.0, old(soundManager.volume) + 0.1))
      && (key in {Minus, KeypadMinus, Plus, KeypadPlus, Equals} ==>
            soundManager.soundsEnabled == old(soundManager.soundsEnabled))
      && soundManager.musicEnabled == old(soundManager.musicEnabled)
      && (key !in {KeyS, Minus, KeypadMinus, Plus, KeypadPlus, Equals} ==> unchanged(soundManager))
    }

    /**
     * The menu keys: engine and wind choices, SPACE starts the flight, S
     * toggles the sound effects, minus and plus move the volume by 0.1, and
     * ESCAPE or Q quits.
     */
    method MenuKey(key: Key, inputs: Inputs) returns (running: bool)
      requires Valid() && state == Menu && Drawn(inputs.wind)
      modifies this, soundManager
      ensures Valid()
      ensures running == (key != Escape && key != KeyQ)
      ensures MenuKeyed(key, inputs)
    {
      running := true;
      if key == Space {
        StartFlight(inputs.now);
      } else if key in {KeyS, Minus, KeypadMinus, Plus, KeypadPlus, Equals} {
        Adjust(key);
      } else if key == Escape || key == KeyQ {
        running := false;
      } else {
        Choose(key, inputs.wind);
      }
    }

    /** The sound keys of the menu: S toggles the sound effects, minus and plus move the volume by 0.1. */
    method Adjust(key: Key)
      requires Valid() && key in {KeyS, Minus, KeypadMinus, Plus, KeypadPlus, Equals}
      modifies soundManager
      ensures Valid()
      ensures key == KeyS ==> soundManager.soundsEnabled == !old(soundManager.soundsEnabled) &&
                              soundManager.volume == old(soundManager.volume)
      ensures key in {Minus, KeypadMinus} ==> soundManager.volume == Clamp(0.0, 1.0, old(soundManager.volume) - 0.1)
      ensures key in {Plus, KeypadPlus, Equals} ==> soundManager.volume == Clamp(0.0, 1.0, old(soundManager.volume) + 0.1)
      ensures key != KeyS ==> soundManager.soundsEnabled == old(soundManager.soundsEnabled)
      ensures soundManager.musicEnabled == old(soundManager.musicEnabled)
    {
      if key == KeyS {
        soundManager.ToggleSounds();
      } else if key == Minus || key == KeypadMinus {
        soundManager.SetVolume(soundManager.volume - 0.1);
      } else {
        soundManager.SetVolume(soundManager.volume + 0.1);
      }
    }

    /** The choice keys of the menu: engine, wind speed and direction, wind re-roll. */
    method Choose(key: Key, wind: WindDraw)
      requires Valid() && state == Menu && Drawn(wind)
      modifies this
      ensures Valid() && state == Menu && choice == Dial(old(choice), key, wind)
      ensures simulation == old(simulation) && flight == old(flight) && baseball == old(baseball) && travel == old(travel)
    {
      choice := Dial(choice, key, wind);
    }

    /**
     * What a key does in flight: SPACE deploys the parachute by hand, entering
     * descent, exactly when it was not triggered by hand before, is not out,
     * and the engine has burnt out; nothing else changes.
     */
    twostate predicate FlyingKeyed(key: Key)
      reads this, simulation, Rockets()
    {
      && state == Flying && simulation != null && simulation == old(simulation)
      && Kin(simulation.rocket) == old(Kin(simulation.rocket)) && simulation.rocket.mass == old(simulation.rocket.mass)
      && choice == old(choice) && baseball == old(baseball) && travel == old(travel)
      && var fires := key == Space && !old(flight.manualParachute) && !old(simulation.rocket.parachuteDeployed) &&
                      old(flight.simTime) > simulation.engine.burnTime;
         && (fires ==> flight == old(flight).(manualParachute := true) &&
                       simulation.rocket.parachuteDeployed && simulation.rocket.flightPhase == Descent)
         && (!fires ==> flight == old(flight) && simulation.rocket.parachuteDeployed == old(simulation.rocket.parachuteDeployed) &&
                        simulation.rocket.flightPhase == old(simulation.rocket.flightPhase))
    }

    /**
     * SPACE in flight: the parachute is deployed by hand, once, only after the
     * engine has burnt out and only if it is not out already.
     */
    method FlyingKey(key: Key)
      requires Valid() && state == Flying
      modifies this, simulation.rocket
      ensures Valid() && FlyingKeyed(key)
    {
      if key == Space {
        var r := simulation.rocket;
        if !flight.manualParachute && !r.parachuteDeployed && flight.simTime > simulation.engine.burnTime {
          flight := flight.(manualParachute := true);
          r.parachuteDeployed := true;
          r.flightPhase := Descent;
        }
      }
    }

    /** What a recovery key does: SPACE throws; any other key acts as Pitch and changes nothing else. */
    twostate predicate Aimed(key: Key, hit: bool)
      reads this
    {
      && (key == Space ==> Thrown(hit))
      && (key != Space ==>
            && state == Recovery && baseball == Pitch(old(baseball), key)
            && simulation == old(simulation) && choice == old(choice) && flight == old(flight) && travel == old(travel))
    }

    /** The recovery keys: aim, power and the player's place, and SPACE throws. */
    method RecoveryKey(key: Key, hit: bool)
      requires Valid() && state == Recovery
      modifies this
      ensures Valid() && Aimed(key, hit)
    {
      if key == Space {
        ThrowBaseball(hit);
      } else {
        baseball := Pitch(baseball, key);
      }
    }

    /**
     * What a time-travel key does: a won game restarts on RETURN and a lost
     * one on SPACE, and no other key touches them; otherwise the key acts as
     * Steer, and R moves to the results.
     */
    twostate predicate Travelled(key: Key, inputs: Inputs)
      reads this
    {
      && (old(travel.won) ==> if key == Return then Restarted(inputs.wind) else unchanged(this))
      && (!old(travel.won) && old(travel.gameOver) ==> if key == Space then Restarted(inputs.wind) else unchanged(this))
      && (!old(travel.won) && !old(travel.gameOver) ==>
            && travel == Steer(old(travel), key, inputs.now)
            && state == (if key == KeyR then Results else TimeTravel)
            && simulation == old(simulation) && choice == old(choice) && flight == old(flight) && baseball == old(baseball))
    }

    /**
     * The time-travel keys: a won game waits for RETURN and a lost one for
     * SPACE to restart; otherwise the controls steer the game and R ends it.
     */
    method TravelKey(key: Key, inputs: Inputs)
      requires Valid() && state == TimeTravel && Drawn(inputs.wind)
      modifies this
      ensures Valid() && Travelled(key, inputs)
    {
      if travel.won {
        if key == Return {
          Restart(inputs.wind);
        }
      } else if travel.gameOver {
        if key == Space {
          Restart(inputs.wind);
        }
      } else {
        travel := Steer(travel, key, inputs.now);
        if key == KeyR {
          state := Results;
        }
      }
    }

    /** What a key does on the results screen: SPACE returns to the menu with a new wind; nothing else changes. */
    twostate predicate Resulted(key: Key, wind: WindDraw)
      reads this
    {
      && (key == Space ==> state == Menu && choice == old(choice).(windSpeed := wind.speed, windDirection := 15 * wind.step))
      && (key != Space ==> state == Results && choice == old(choice))
      && simulation == old(simulation) && flight == old(flight) && baseball == old(baseball) && travel == old(travel)
    }

    /** The results screen: SPACE returns to the menu with a new wind. */
    method ResultsKey(key: Key, wind: WindDraw)
      requires Valid() && state == Results && Drawn(wind)
      modifies this
      ensures Valid() && Resulted(key, wind)
    {
      if key == Space {
        state := Menu;
        choice := choice.(windSpeed := wind.speed, windDirection := wind.step * 15);
      }
    }

    /**
     * One event of handle_events: a quit event stops the game, a key goes to
     * the handler of the current screen (the countdown takes none), and the
     * result says whether the game goes on. Only the menu touches the sound
     * settings, and only the flight touches the rocket it flies.
     */
    method HandleEvent(e: Event, inputs: Inputs) returns (running: bool)
      requires Valid() && Drawn(inputs.wind)
      modifies this, soundManager, Rockets()
      ensures Valid()
      ensures running == !Quits(e, old(state))
      ensures fresh(Rockets() - old(Rockets()))
      ensures Next(old(state), e, state)
      ensures !e.KeyDown? || old(state) == Countdown ==> unchanged(this) && unchanged(soundManager) && unchanged(Rockets())
      ensures e.KeyDown? && old(state) == Menu ==> MenuKeyed(e.key, inputs)
      ensures e.KeyDown? && old(state) == Flying ==> FlyingKeyed(e.key)
      ensures e.KeyDown? && old(state) == Recovery ==> Aimed(e.key, inputs.hit)
      ensures e.KeyDown? && old(state) == TimeTravel ==> Travelled(e.key, inputs)
      ensures e.KeyDown? && old(state) == Results ==> Resulted(e.key, inputs.wind)
      ensures old(state) != Menu ==> unchanged(soundManager)
      ensures old(state) != Flying && old(simulation) != null ==> unchanged(old(simulation).rocket)
    {
      running := true;
      match e
      case Quit =>
        running := false;
      case OtherEvent =>
      case KeyDown(key) =>
        match state
        case Menu =>
          running := MenuKey(key, inputs);
        case Countdown =>
        case Flying =>
          FlyingKey(key);
        case Recovery =>
          RecoveryKey(key, inputs.hit);
        case TimeTravel =>
          TravelKey(key, inputs);
        case Results =>
          ResultsKey(key, inputs.wind);
    }

    /**
     * handle_events: the queued events in order, each with what it brings
     * from outside; the first one that quits ends the pass with false.
     * `screens` is the screen before each handled event followed by the
     * screen at the end: consecutive screens follow the transitions of one
     * event, the pass goes on while no handled event quits, and it returns
     * true exactly when it handled every event.
     */
    method HandleEvents(events: seq<Event>, inputs: seq<Inputs>) returns (running: bool, ghost screens: seq<GameState>)
      requires Valid() && |inputs| == |events|
      requires forall i :: 0 <= i < |inputs| ==> Drawn(inputs[i].wind)
      modifies this, soundManager, Rockets()
      ensures Valid()
      ensures 1 <= |screens| <= |events| + 1 && screens[0] == old(state) && screens[|screens| - 1] == state
      ensures forall i :: 0 <= i < |screens| - 1 ==> Next(screens[i], events[i], screens[i + 1])
      ensures running ==> |screens| == |events| + 1 && forall i :: 0 <= i < |events| ==> !Quits(events[i], screens[i])
      ensures !running ==>
        var n := |screens| - 1;
        1 <= n && Quits(events[n - 1], screens[n - 1]) && forall i :: 0 <= i < n - 1 ==> !Quits(events[i], screens[i])
      ensures Quit in events ==> !running
      ensures events == [] ==> running && unchanged(this)
    {
      running := true;
      screens := [state];
      var i := 0;
      while i < |events| && running
        invariant 0 <= i <= |events|
        invariant Valid()
        invariant |screens| == i + 1 && screens[0] == old(state) && screens[i] == state
        invariant forall j :: 0 <= j < i ==> Next(screens[j], events[j], screens[j + 1])
        invariant running ==> forall j :: 0 <= j < i ==> !Quits(events[j], screens[j])
        invariant !running ==>
          1 <= i && Quits(events[i - 1], screens[i - 1]) && forall j :: 0 <= j < i - 1 ==> !Quits(events[j], screens[j])
        invariant fresh(Rockets() - old(Rockets()))
        invariant i == 0 ==> running && unchanged(this)
      {
        running := HandleEvent(events[i], inputs[i]);
        screens := screens + [state];
        i := i + 1;
      }
    }
  }
}
