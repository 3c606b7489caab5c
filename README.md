# Model rocket flight and recovery game

This project models the core of a model-rocket game written in Python.

- **The batch flight simulator.** An Estes Alpha III rocket flies on one of three Estes motors (A8-3, B6-4, C6-5) in a steady wind. A fixed-step Euler loop integrates it:
  - thrust, drag against the velocity relative to the wind, and gravity;
  - the loop records a time, position and velocity trace;
  - it keeps the maximum altitude and the apogee time;
  - it deploys the parachute automatically once the burn plus the ejection delay has passed and the rocket is no longer climbing;
  - it stops when the rocket reaches the ground or after 300 s;
  - the landing point is classified as on the field or in the trees.
- **The interactive game.** It runs a state machine over the menu, the launch countdown, the flight, a baseball game to knock a rocket out of a tree, a time-travel collecting game, and the results screen. It has its own per-frame flight stepper:
  - a phase-dependent horizontal wind nudge;
  - a linear burn of the 12 g of propellant;
  - a manually deployed parachute;
  - landing on the canopy (6 m) over the trees.

  Its keyboard controls carry clamps and wrap-arounds, and the sound settings have a clamped volume.

The batch loop is `Simulation.RocketSimulation.SimulateFlight`.
- It is proved equal to a function `Flight` that unrolls the loop pass by pass.
- `SimulatedFlight` states what every run satisfies, for all inputs: the trace is sampled every 0.01 s, consecutive samples are one Euler step apart, it ends on the ground or at the 300 s budget, the maximum altitude is the trace's maximum, and the parachute is deployed exactly by the rule.

The game object is the class `Game.VisualRocketGame`.
- Its fields are grouped by screen into records that its methods reassign.
- The rocket's position, velocity and mass are updated in place.
- Every method that handles a frame or an event keeps the game's invariant `Valid()` (the helpers `Frame`, `Fly` and `Touchdown` work for `UpdateSimulation`, which keeps it): controls in range, a throw left in the recovery game, a decided time-travel game still on screen, and a flight always backed by a simulation whose rocket carries what the burn has left.

Vectors are pairs of exact reals. Two Python facilities become parameters of the model:
- `np.linalg.norm` becomes a function `norm`, constrained to return the non-negative square root of the squared length (`IsNorm`);
- the wind vector `(speed cos d, speed sin d)` is an input, `polar` in the game.

The Euler step of each stepper is reached through a constant that a predicate ties to the step function:
- `step` in the simulation, with `Sound()` tying it to `BatchStep`;
- `frame` in the game, with `Geared()` tying it to `FrameUpdate`.

This keeps the arithmetic of one step out of the proofs about the loop and the game's state.

Notes on the code's behaviour:
- **Flight phases.** The code sets only two phases: launch when a rocket is built (rocket_simulation.py:28) and descent when the parachute deploys (rocket_simulation.py:115). Coast appears only in the comment at rocket_simulation.py:28, and no code sets a landed phase.
- **Unknown engine key.** The `ENGINES` table (rocket_simulation.py:31-35) has keys 'A', 'B' and 'C', and looking up any other key raises `KeyError`. `Engines.EngineByName` models this as `None`.
- **Mass.** The batch loop sets the loaded mass once (rocket_simulation.py:89) and never changes it, so the rocket flies its whole run at that mass. The game's stepper burns the propellant and resets a non-positive mass to the dry mass (rocket_game_v2.0.py:1284-1296).
- **Parachute deployment.** The two steppers deploy differently, and both are modelled: automatically in the batch simulator (rocket_simulation.py:110-115), and only by SPACE in the game (rocket_game_v2.0.py:1397-1406).

## Model

| member | source | states |
|---|---|---|
| Engines.EngineFor | rocket_simulation.py:31-35 | each key's motor is named after the key (four characters, starting with the key's letter) and has a positive impulse, thrust, burn time and delay |
| Engines.KeyOf | rocket_simulation.py:31-35 | exactly 'A', 'B' and 'C' are keys of the table, and each names the motor whose name starts with that letter |
| Engines.EngineByName | rocket_simulation.py:40 | the lookup succeeds exactly for 'A', 'B' and 'C', giving the table's row whose name starts with the key, which has a positive burn; any other key fails |
| Engines.ImpulseMatchesThrust | rocket_simulation.py:6-12 | each motor's average thrust times burn time is within 0.01 N s of its total impulse |
| Simulation.Rocket.constructor | rocket_simulation.py:14-28 | a new rocket is at the origin, at rest, at its dry mass, with the parachute stowed, the engine off and the phase launch |
| Simulation.RocketSimulation.constructor | rocket_simulation.py:38-61 | a new simulation holds the selected motor, the wind and a fresh rocket, and all three histories are empty |
| Simulation.RocketSimulation.RelativeSpeed | rocket_simulation.py:63-66 | the relative speed is non-negative and its square is the squared length of velocity minus wind |
| Simulation.RocketSimulation.DragForce | rocket_simulation.py:63-76 | drag_force is the drag of the rocket's coefficient and area against the relative velocity, whatever the parachute state |
| Simulation.RocketSimulation.ThrustForce | rocket_simulation.py:78-82 | thrust_force is (0, average thrust) up to the motor's burn time and zero after it |
| Simulation.RocketSimulation.CheckLandingLocation | rocket_simulation.py:142-150 | the landing is on the field exactly when 0 <= x <= 109.7 |
| Simulation.RocketSimulation.DeployedByAppend | rocket_simulation.py:110-115 | the deployment rule has fired in a longer trace exactly when it fired before or fires on the new sample |
| Simulation.RocketSimulation.RecordAppend | rocket_simulation.py:101-103 | recording the state one step after the last sample keeps the trace a chain of Euler steps |
| Simulation.RocketSimulation.EulerStep | rocket_simulation.py:118-128 | the rocket's position and velocity become one Euler step of thrust, drag and gravity at the current mass; mass, parachute and phase are untouched |
| Simulation.RocketSimulation.Start | rocket_simulation.py:86-98 | the loop starts with all three histories empty |
| Simulation.RocketSimulation.Iteration | rocket_simulation.py:100-128 | one pass appends the current sample, deploys the parachute exactly when due and not yet out (entering descent), and takes one Euler step |
| Simulation.RocketSimulation.Advance | rocket_simulation.py:130-138 | the run stops after a pass that leaves the rocket at or below the ground or moves the clock past 300 s, and otherwise continues at the next clock reading |
| Simulation.RocketSimulation.IterationKeeps | rocket_simulation.py:100-128 | one more airborne pass keeps the trace sampled every 0.01 s, chained by Euler steps, airborne after launch, with the running maximum and deployment in agreement |
| Simulation.RocketSimulation.ClockBound | rocket_simulation.py:136-138 | the clock stays within 300 s for exactly the first 30001 samples |
| Simulation.RocketSimulation.FlightFrom | rocket_simulation.py:100-138 | from any reached state the loop terminates within 30001 samples, on the ground or at the time budget, with everything the trace must satisfy kept |
| Simulation.RocketSimulation.SimulatedFlight | rocket_simulation.py:84-140 | the whole run:<br>• its sampling, Euler chaining and launch state;<br>• termination on the ground or at 300 s;<br>• max_altitude equals the trace's maximum and apogee_time the time of its first sample;<br>• the parachute deploys exactly by the automatic rule |
| Simulation.RocketSimulation.NoDrift | rocket_simulation.py:117-128 | with no wind, an Euler step of a rocket not moving sideways leaves it not moving sideways and at the same x |
| Simulation.RocketSimulation.CalmFrom | rocket_simulation.py:99-138 | with no wind, a run from a state over mid-field with no sideways motion keeps every sample and the final position over mid-field |
| Simulation.RocketSimulation.CalmFlight | rocket_simulation.py:84-150 | with no wind, every sample of the run and its final position are over the launch point, so the landing is classified as the field |
| Simulation.RocketSimulation.Pass | rocket_simulation.py:100-138 | one execution of the loop body is exactly the run's next pass, and it decides whether the loop stops |
| Simulation.RocketSimulation.Reset | rocket_simulation.py:86-98 | the set-up puts the rocket mid-field at rest with the propellant loaded and clears the histories |
| Simulation.RocketSimulation.SimulateFlight | rocket_simulation.py:84-140 | the loop computes exactly Flight from the launch state (see SimulatedFlight), keeps the loaded mass, keeps the engine flag, and classifies the final x; with no wind the landing is on the field, over the launch point |
| Trace.ApogeeIndex | rocket_simulation.py:106-108 | the apogee index lies within a non-empty trace |
| Trace.PeakIsMaximum | rocket_simulation.py:106-108 | max_altitude is non-negative and at least every sample's altitude; when positive, it is the altitude at the apogee index, and every earlier sample is lower |
| Trace.PeakAppend | rocket_simulation.py:106-108 | a new sample raises max_altitude and moves the apogee exactly when it is strictly higher |
| Forces.Thrust | rocket_simulation.py:78-82 | thrust is (0, average thrust) up to the burn time and zero after it |
| Forces.ThrustNonIncreasing | rocket_simulation.py:78-82 | thrust never grows with time |
| Forces.Drag | rocket_simulation.py:63-76 | drag is zero at zero relative speed, and otherwise -(0.5 rho cd A v) times the relative velocity |
| Forces.DragDirection | rocket_simulation.py:73-76 | the magnitude 0.5 rho cd A v^2 times the unit vector against the relative velocity equals -(0.5 rho cd A v) times that velocity |
| Forces.DragOpposesRelativeVelocity | rocket_simulation.py:63-76 | drag points against the relative velocity on the same line, has magnitude 0.5 rho cd A v^2, and vanishes only with the speed or the factor |
| Forces.DragIgnoresParachute | rocket_simulation.py:63-76 | drag is the same with the parachute out or in |
| Forces.WindFraction | rocket_game_v2.0.py:1272-1282 | the wind share is 0.02 under power, 0.05 under the parachute after burn-out, and 0.03 when coasting |
| Forces.WindNudge | rocket_game_v2.0.py:1272-1282 | the wind force is horizontal, the wind share of the wind's x component |
| Forces.WindFractionByPhase | rocket_game_v2.0.py:1272-1282 | the parachute share is at least the coasting share, and any moment of powered flight gets a lighter share than coasting after burn-out |
| Forces.BurnMass | rocket_game_v2.0.py:1292-1296 | the burning mass lies between the dry mass and the loaded mass, is fully loaded at time 0, and dry at burn-out |
| Forces.BurnFractionBounds | rocket_game_v2.0.py:1295 | the burnt fraction lies in [0, 1] during the burn and is 1 at burn-out |
| Forces.BurnMassNonIncreasing | rocket_game_v2.0.py:1292-1296 | a later time in the burn never gives a heavier rocket |
| Forces.Classify | rocket_simulation.py:142-150 | field exactly when 0 <= x <= field length, trees exactly otherwise |
| Forces.LandingAltitude | rocket_game_v2.0.py:1307-1315 | the landing altitude is the 6 m canopy exactly over the trees and 0 exactly over the field |
| Controls.Clamp | rocket_game_v2.0.py:1334-1338 | the result lies in [lo, hi], is v inside the range, and is the nearer bound outside it |
| Controls.IntMin | rocket_game_v2.0.py:1410 | the smaller of two integers |
| Controls.IntMax | rocket_game_v2.0.py:1412 | the larger of two integers |
| Controls.TurnWind | rocket_game_v2.0.py:1377-1380 | the turned direction lies in [0, 360) and is congruent to direction plus delta modulo 360 |
| Controls.TurnWindUndo | rocket_game_v2.0.py:1377-1380 | LEFT then RIGHT, and RIGHT then LEFT, restore every direction |
| Sound.SoundManager.constructor | rocket_game_v2.0.py:34-37 | sounds on, music off, volume 0.7 |
| Sound.SoundManager.SetVolume | rocket_game_v2.0.py:277-279 | the volume becomes the value clamped to [0, 1] and is the value itself when in range; the toggles are untouched |
| Sound.SoundManager.ToggleSounds | rocket_game_v2.0.py:267-269 | flips the sound-effects switch and nothing else |
| Sound.SoundManager.ToggleMusic | rocket_game_v2.0.py:271-275 | flips the music switch and nothing else |
| Eras.Age | rocket_game_v2.0.py:1441-1454 | an era's age is at most 2 |
| Eras.EraUp | rocket_game_v2.0.py:1441-1447 | UP moves one era back in time, stopping at the past |
| Eras.EraDown | rocket_game_v2.0.py:1448-1454 | DOWN moves one era forward, stopping at the future |
| Eras.EraUndo | rocket_game_v2.0.py:1441-1454 | UP then DOWN undo each other away from the ends of the dial |
| Eras.Distance | rocket_game_v2.0.py:1521 | the distance is a non-negative difference of the two positions |
| Eras.Scan | rocket_game_v2.0.py:1517-1529 | a reference collection pass, scanning backwards: it never lowers the count nor passes the number of items |
| Eras.ScanIsCollected | rocket_game_v2.0.py:1517-1529 | the reference pass never lowers or overruns the count, is near the last item taken when the count rises, and leaves no near item from the new count on |
| Eras.CollectedIsScan | rocket_game_v2.0.py:1517-1529 | any outcome with those three properties is the reference pass's: they determine the new count |
| Eras.Collect | rocket_game_v2.0.py:1517-1529 | the collection loop, which takes item i only when i is at or past the count and the player is within 30 px:<br>• never lowers or overruns the count;<br>• when the count rises, the player is near the last item taken;<br>• no item from the new count on is near (so by CollectedIsScan the count is the reference pass's);<br>• it reports completion exactly when it brings the count to 3 |
| Game.Dial | rocket_game_v2.0.py:1360-1384 | the menu keys:<br>• A, B, C choose the engine;<br>• UP and DOWN move the wind speed by 0.5 within [0, 10];<br>• LEFT and RIGHT turn the direction 15 degrees modulo 360;<br>• W re-rolls the wind;<br>• each key changes only its own choice;<br>• choices stay in range;<br>• other keys change nothing |
| Game.Pitch | rocket_game_v2.0.py:1409-1422 | the recovery keys:<br>• angle by 5 within [0, 90];<br>• power by 0.05 within [0.1, 1];<br>• player by 20 px within [50, 1150];<br>• each key changes only its own field;<br>• attempts and tree untouched;<br>• other keys change nothing |
| Game.Steer | rocket_game_v2.0.py:1440-1481 | the time-travel keys:<br>• UP and DOWN move the era;<br>• LEFT and RIGHT the power within [0.1, 1];<br>• W/A and S/D the player by 10 px within [50, 1150];<br>• E or SPACE jumps; 4 or 5 wakes the creature;<br>• each key changes only its own fields;<br>• collections and outcome untouched;<br>• other keys change nothing |
| Game.Jump | rocket_game_v2.0.py:1467-1472 | a jump starts from the player's place at the given time unless one is under way |
| Game.Wake | rocket_game_v2.0.py:1474-1479 | 4 or 5 starts the dinosaur in the past and the robot in the future, changing nothing else |
| Game.Settle | rocket_game_v2.0.py:1317-1320 | a rocket at or below its landing altitude is put on it at rest, otherwise untouched; it is never left below that altitude |
| Game.FrameMassBounds | rocket_game_v2.0.py:1284-1296 | a frame keeps the mass between the dry mass and its previous value, and no more than what the burn leaves at the next frame |
| Game.Mark | rocket_game_v2.0.py:1322-1326 | the marker shows exactly once the rocket has landed; the first landing records the settled point and the time, and any other frame leaves the record as it was |
| Game.MarkOnce | rocket_game_v2.0.py:1322-1326 | the first landing places the marker at the settled point with its time, and no later frame moves it |
| Game.Wait | rocket_game_v2.0.py:1329-1345 | a landing is shown 3 s when 0 <= x <= 109.7 (on the field) and 2 s otherwise (in the trees) |
| Game.Touches | rocket_game_v2.0.py:1531-1533 | only the past and the future hold a creature to touch |
| Game.Explore | rocket_game_v2.0.py:1513-1560 | one frame of the rules:<br>• the item of the era near the player is collected;<br>• the third of a kind wins;<br>• touching the creature on the ground loses a game not won;<br>• nothing else changes;<br>• counts never fall and a decided game stays decided |
| Game.VisualRocketGame.constructor | rocket_game_v2.0.py:404-480 | the game starts in the menu with engine B, a drawn wind, no simulation, both mini-games at their start, and the invariant |
| Game.VisualRocketGame.StartFlight | rocket_game_v2.0.py:1234-1257 | the countdown starts now with a new simulation for the chosen engine and wind, its rocket mid-field, at rest and fully loaded, and the flight bookkeeping reset |
| Game.VisualRocketGame.CountdownTick | rocket_game_v2.0.py:667-768 | the flight begins exactly when 8 s have passed since the countdown started |
| Game.VisualRocketGame.Frame | rocket_game_v2.0.py:1261-1300 | one frame's forces, Euler update and linear burn at the current time and mass |
| Game.VisualRocketGame.Fly | rocket_game_v2.0.py:1261-1305 | the frame's physics plus one sample appended to each history; the mass never grows and stays at least dry |
| Game.VisualRocketGame.Touchdown | rocket_game_v2.0.py:1307-1350 | the landing check:<br>• settles the rocket and marks the first landing;<br>• once shown for more than 2 s in the trees, enters the recovery game with the tree offset clamped to ±400;<br>• once shown for more than 3 s on the field, enters time travel in the present with nothing collected |
| Game.VisualRocketGame.UpdateSimulation | rocket_game_v2.0.py:1259-1352 | nothing unless flying; otherwise one frame recorded, the rocket settled, the flight ending exactly when the landing has been shown long enough, the clock advanced while flying, and the invariant kept |
| Game.VisualRocketGame.ThrowBaseball | rocket_game_v2.0.py:1492-1506 | one more attempt; a hit goes to time travel in the present with nothing collected, and a miss with 10 attempts used goes to the results |
| Game.VisualRocketGame.Restart | rocket_game_v2.0.py:1694-1749 | the menu with no simulation, a new wind, the flight clock and landing cleared, both mini-games reset, and the other fields kept |
| Game.VisualRocketGame.UpdateTimeTravel | rocket_game_v2.0.py:1508-1560 | nothing once the game is lost, otherwise exactly one frame of the rules (Explored) |
| Game.VisualRocketGame.MenuKey | rocket_game_v2.0.py:1360-1395 | menu keys:<br>• SPACE starts the flight;<br>• S toggles sounds; minus and plus move the volume by 0.1 within [0, 1];<br>• no key changes the music setting, and other keys leave the sound settings alone;<br>• ESCAPE or Q quits;<br>• other keys act on the choices |
| Game.VisualRocketGame.Adjust | rocket_game_v2.0.py:1385-1393 | S toggles the sound effects and keeps the volume; minus and plus move the volume by 0.1, clamped to [0, 1], and keep the sound effects; the music setting is kept |
| Game.VisualRocketGame.Choose | rocket_game_v2.0.py:1361-1384 | the choice keys act as Dial and nothing else changes |
| Game.VisualRocketGame.FlyingKey | rocket_game_v2.0.py:1397-1406 | SPACE deploys the parachute by hand exactly when not yet triggered, not out and past burn-out, entering descent; nothing else changes |
| Game.VisualRocketGame.RecoveryKey | rocket_game_v2.0.py:1408-1424 | SPACE throws, and the other keys act as Pitch |
| Game.VisualRocketGame.TravelKey | rocket_game_v2.0.py:1426-1481 | a won game restarts only on RETURN and a lost one only on SPACE; otherwise the keys act as Steer, and R goes to the results |
| Game.VisualRocketGame.ResultsKey | rocket_game_v2.0.py:1483-1488 | SPACE returns to the menu with a new wind; other keys change nothing |
| Game.VisualRocketGame.HandleEvent | rocket_game_v2.0.py:1354-1490 | one event:<br>• quit, or ESCAPE/Q in the menu, stops the game (Quits);<br>• the countdown and non-key events change nothing;<br>• a key has exactly the effect of the current screen's handler (MenuKeyed, FlyingKeyed, Aimed, Travelled, Resulted);<br>• the screen moves only as Next allows;<br>• only the menu changes the sound settings, and only the flight changes the rocket it flies;<br>• the invariant is kept |
| Game.VisualRocketGame.HandleEvents | rocket_game_v2.0.py:1354-1490 | the events in order:<br>• each moves the screen as Next allows;<br>• the pass returns true exactly when no handled event quits, and then it has handled them all;<br>• otherwise it stops right after the first event that quits;<br>• an empty queue changes nothing |

## Left out

- Rendering, sprites, particles, the trajectory points kept for drawing, and the animations (`animate_baseball_throw`, `animate_rocket_falling`). Whether a throw hits is an input to `ThrowBaseball` and `RecoveryKey`.
- Sound synthesis and playback (`create_sound_effects`, `play_sound`, the background music), and the mixer stop in `toggle_music`. Only the three settings of the sound manager are modelled.
- The jump physics and landing of the time-travel player (rocket_game_v2.0.py:1656-1692). A jump is modelled only as starting.
- The dinosaur and robot movement (rocket_game_v2.0.py:1565-1652), including the random `dinosaur_direction`. Restart does not model the re-drawn direction and the stuck counter.
- Random draws (wind re-rolls) and the millisecond clock are inputs. The countdown screen's drawing is left out; only its transition to the flight is modelled.
- Floating point. Vectors are exact reals and the batch clock is n/100, so rounding in the time and position updates is not modelled. `math.cos`/`math.sin` and `np.linalg.norm` are parameters constrained as described above.
- `plot_trajectory`, `run_simulation`, `run_multiple_simulations` and the `run` main loop.
- The earlier game versions (rocket_game_v1.0.py) and the automatic game (auto_rocket_game.py) are not part of this model.
- The `Rocket` constructor's optional parameters are fixed at their default values, the only ones the core uses.
- The `TreeHeight` and `FieldWidth` attributes of the batch simulator are kept as constants only. `field_width` is never read, and `tree_height` is read only when plot_trajectory draws the trees (rocket_simulation.py:170-173). No landing height depends on them: only the game's 6 m canopy decides one.
- Simulation.RocketSimulation.SimulateFlight: also returns the apogee time, which the source computes but does not return.
- Game.VisualRocketGame.HandleEvents: states the sequence of screens and the quit rule across the events, not the field-by-field effect of the whole queue. A contract can name only the states before and after the pass, so that effect is stated per event, by HandleEvent.
- Game.VisualRocketGame.Frame: states the new kinematics through the `frame` constant, which `Geared()` ties to FrameUpdate. The force arithmetic itself is the body of FrameUpdate.
