# physics_hub simulations in Dafny

This project models the simulation components of physics_hub, an interactive
physics teaching site written in React. Each component keeps a little state,
draws it on a canvas and changes it in reaction to a frame timer, sliders and
buttons. The model keeps the state and the arithmetic and drops the drawing.

The components fall into four groups.

- **The kinematics challenge quiz** (`KinematicsChallenges`). A fixed table of
  five textbook problems. Submissions are graded with a 5 % tolerance. An
  attempt counter escalates from a hint to revealing the answer. The session
  also keeps the set of solved problems, a cyclic problem index and the
  progress clock of the solution animation.
- **The friction integrator** (`FrictionDemo`). This is the one scenario whose
  state depends on its own history. Each frame integrates velocity, position
  and time.
- **Clocked closed-form scenarios.** These are `ProjectileMotion`,
  `SuvatEquations`, `VelocityComparator`, `NewtonSecondLaw`,
  `PositionTimeGraph`, `VelocityAccelGraphs` and `CentripetalForce`. Each has a
  play flag and a time or angle that a frame advances by a fixed step. Each
  stops, clamps or wraps by its own rule, and derives position and velocity
  from closed-form formulas.
- **Static algebra.** `FreeBodyDiagram`, `VectorAddition` and
  `VectorDecomposition` have no state at all. Their values are recomputed from
  the sliders.

## Modelling choices

- **Numbers are Dafny `real`s.** Where JavaScript yields an infinity or NaN,
  the model says so explicitly:
  - `RealMath.JsDiv` models the time-free SUVAT form when `a = 0`.
  - `RealMath.JsNumber` is the result of `parseFloat` on the answer box.
  - `RealMath.JsRem` is JavaScript's `%`, which truncates toward zero.
- **`Math.sin`, `cos`, `sqrt` and `atan2` are opaque.** They are the fields of a
  `RealMath.MathLib` value that every component receives. A lemma that needs
  one of their laws asks for it in its `requires`: sin² + cos² = 1, sqrt is
  the non-negative root, or sin and cos are non-negative on [0, π/2].
  `Math.PI` is the decimal 3.141592653589793.
- **Stateful components are classes.** Their fields are the component's state
  variables. One animation frame is a call of `Tick`, and each slider or button
  handler is a method. The clamped scenarios share `Playback.Clock` and its
  pure rule `Playback.ClampedTick`. Each scenario keeps its own step and limit.
  Newton's second law stops without clamping, and the centripetal angle wraps
  modulo 2π, so those two have rules of their own.
- **Two stale values are kept as the code uses them.**
  - The quiz's reveal test reads the attempt count from before the
    increment.
  - The friction position step uses the velocity from before the frame.
- **The projectile trail stores canvas pixel points**, exactly as the frame
  computes them. The class invariant says the trail is a run of consecutive
  0.02 s samples of the path. A ghost field records the time of the newest
  sample.

Some behaviour below is surprising, but the model keeps it as the code has it.

- **Friction when μk > μs.** A push between the two thresholds counts as
  "moving", yet a block at rest gains no speed. The force panel then shows a
  negative acceleration for a block that stays put
  (`FrictionDemo.KineticAboveStaticStalls`).
- **Problem 5 of the challenge table.** Its stated equation, 8 t = 50 + t², has
  no real solution, because the student never catches the bus. The stored
  answer, 10 s, does not satisfy it (`KinematicsChallenges.StoredAnswers`,
  `KinematicsChallenges.ChaseHasNoSolution`). The table is modelled as given.
- **The Enter key.** The Submit button is disabled for an empty entry and
  during the animation, but the Enter key calls `checkAnswer` regardless. So
  `CheckAnswer` has no precondition.

## Model

| member | source | states |
|---|---|---|
| RealMath.JsDiv | src/components/simulations/kinematics/SUVATEquations.jsx:23 | JavaScript division is finite exactly when the divisor is non-zero, and then the quotient times the divisor is the dividend |
| RealMath.Clamp | src/components/simulations/kinematics/VelocityAccelGraphs.jsx:75 | `Math.max(lo, Math.min(hi, v))` lies in [lo, hi], is v inside the range and the nearer bound outside it |
| RealMath.JsRemRange | src/components/simulations/forces/CentripetalForce.jsx:117 | JavaScript `%` of a non-negative dividend by a positive modulus lies in [0, m) |
| RealMath.JsRemIdentity | src/components/simulations/forces/CentripetalForce.jsx:117 | a dividend already in [0, m) is its own remainder |
| RealMath.RadiansOfRightAngleRange | src/components/simulations/vectors/VectorDecomposition.jsx:24 | `deg·π/180` maps [0°, 90°] into [0, π/2] |
| RealMath.AcuteUnitBounds | src/components/simulations/forces/FreeBodyDiagram.jsx:25-26 | under the trigonometric laws, sin and cos of an acute angle lie in [0, 1] |
| RealMath.SqrtOfSquare | src/components/simulations/vectors/VectorDecomposition.jsx:78 | under the square-root law, sqrt(v²) = v for v ≥ 0 |
| Playback.ClampedTickKeepsBand | src/components/simulations/kinematics/SUVATEquations.jsx:161-167 | a clamped frame keeps the time in [0, limit + step) |
| Playback.ClampedTick | src/components/simulations/kinematics/SUVATEquations.jsx:161-167 | a paused clock is unchanged; a running one keeps playing exactly while below the limit, then advancing by one step, and otherwise stops with the time set to the limit |
| Playback.ClampedTickStopsOnLimit | src/components/simulations/kinematics/SUVATEquations.jsx:161-164 | a frame stops a running clock exactly when its time has reached the limit, and then leaves it on the limit |
| Playback.ClampedRunKeepsBand | src/components/simulations/kinematics/VelocityComparator.jsx:221-227 | any number of clamped frames keeps the time in [0, limit + step) |
| Playback.ClampedRunStops | src/components/simulations/kinematics/PositionTimeGraph.jsx:111-116 | a running clock is stopped on the limit after every n frames with (n − 1)·step ≥ limit − t |
| Playback.PausedRunUnchanged | src/components/simulations/kinematics/PositionTimeGraph.jsx:109 | a paused clock schedules no frame, so any number of frames leaves it unchanged |
| Playback.Clock.Tick | src/components/simulations/kinematics/VelocityAccelGraphs.jsx:118-123 | the new time and play flag are the clamped-tick rule applied to the old ones |
| Playback.Clock.Toggle | src/components/simulations/kinematics/VelocityAccelGraphs.jsx:172 | the Play/Pause button flips the flag and keeps the time |
| Playback.Clock.Reset | src/components/simulations/kinematics/SUVATEquations.jsx:174-177 | stop and rewind to 0 |
| Playback.Clock.Seek | src/components/simulations/kinematics/VelocityComparator.jsx:319 | set the time and stop |
| UniformMotion.AtStart | src/components/simulations/kinematics/VelocityComparator.jsx:51-52 | at t = 0 the velocity is u and the displacement 0 |
| UniformMotion.Timeless | src/components/simulations/kinematics/SUVATEquations.jsx:81-82 | v² = u² + 2as for v = u + at and s = ut + ½at² |
| UniformMotion.AverageVelocityForm | src/components/simulations/kinematics/SUVATEquations.jsx:22-24 | s = ½(u + v)t for v = u + at |
| KinematicsChallenges.ProblemIds | src/components/simulations/kinematics/KinematicsChallenges.jsx:5-66 | the table's ids are exactly 1 to 5, one per problem |
| KinematicsChallenges.StoredAnswers | src/components/simulations/kinematics/KinematicsChallenges.jsx:5-66 | problems 1 to 4 store the answer their SUVAT relation gives for the given values; problem 5's answer does not satisfy its chase equation |
| KinematicsChallenges.ChaseHasNoSolution | src/components/simulations/kinematics/KinematicsChallenges.jsx:63-65 | 8t = 50 + ½·2·t² has no real solution |
| KinematicsChallenges.IsCorrect | src/components/simulations/kinematics/KinematicsChallenges.jsx:308-311 | a submission passes iff it is a finite number within 5 % of the answer, bounds included; NaN and the infinities never pass |
| KinematicsChallenges.ToleranceBand | src/components/simulations/kinematics/KinematicsChallenges.jsx:309-311 | for a positive answer the accepted band is exactly [0.95·answer, 1.05·answer]; the exact answer passes, 6 % over and NaN do not |
| KinematicsChallenges.AnimationEnds | src/components/simulations/kinematics/KinematicsChallenges.jsx:294-300 | from progress 0 the animation stops at exactly 1 after 126 frames |
| KinematicsChallenges.SubmitEnabled | src/components/simulations/kinematics/KinematicsChallenges.jsx:419 | the Submit button is enabled exactly when the entry is non-empty and no animation runs |
| KinematicsChallenges.ChallengeSession.constructor | src/components/simulations/kinematics/KinematicsChallenges.jsx:70-77 | starts on problem 1 with an empty entry, no feedback, no hint, progress 0, no attempts and nothing solved |
| KinematicsChallenges.ChallengeSession.SolvedCountBounded | src/components/simulations/kinematics/KinematicsChallenges.jsx:313 | the solved set holds only table ids, so the "Solved" count never exceeds 5 |
| KinematicsChallenges.ChallengeSession.CheckAnswer | src/components/simulations/kinematics/KinematicsChallenges.jsx:307-323 | a correct answer adds the problem's id to the solved set, restarts the animation and leaves attempts alone; a wrong one adds an attempt and reveals answer and equation iff the count before it was at least 2, otherwise shows the hint |
| KinematicsChallenges.ChallengeSession.NextProblem | src/components/simulations/kinematics/KinematicsChallenges.jsx:326-334 | index becomes (index + 1) mod 5; entry, feedback, hint, progress, animation and attempts are cleared; the solved set is kept |
| KinematicsChallenges.ChallengeSession.SelectProblem | src/components/simulations/kinematics/KinematicsChallenges.jsx:504-511 | index becomes i; entry, feedback, hint, progress and attempts are cleared; the animation flag and the solved set are kept |
| KinematicsChallenges.ChallengeSession.ProgressTick | src/components/simulations/kinematics/KinematicsChallenges.jsx:294-300 | one frame of the progress clock: at or past 1 it is set to 1 and stops, otherwise it grows by 0.008; progress stays in [0, 1.008) |
| KinematicsChallenges.ChallengeSession.ToggleHint | src/components/simulations/kinematics/KinematicsChallenges.jsx:435 | flips the hint and changes nothing else |
| KinematicsChallenges.ChallengeSession.SetEntry | src/components/simulations/kinematics/KinematicsChallenges.jsx:401 | typing replaces the entry and changes nothing else |
| FrictionDemo.ForcesByRegime | src/components/simulations/forces/FrictionDemo.jsx:22-30 | at rest the shown friction equals the push, which is at most the largest static friction, and net force and acceleration are 0; moving, friction is kinetic, net = push − kinetic and a·m = net |
| FrictionDemo.ForcesOf | src/components/simulations/forces/FrictionDemo.jsx:22-30 | the panel's net force is the push minus the shown friction, a·m = net, and a block not counted as moving has no net force |
| FrictionDemo.VelocityStep | src/components/simulations/forces/FrictionDemo.jsx:147-158 | the new velocity is never negative, is 0 when the block is not moving, and max(0, v + (push − kinetic)/m·0.03) when it is |
| FrictionDemo.MovingVelocityFollowsPush | src/components/simulations/forces/FrictionDemo.jsx:149-157 | a moving block speeds up iff the push exceeds kinetic friction |
| FrictionDemo.KineticAboveStaticStalls | src/components/simulations/forces/FrictionDemo.jsx:148-157 | with μs·N < push ≤ μk·N a block at rest counts as moving but keeps speed 0, and for a push below μk·N the panel shows a negative acceleration |
| FrictionDemo.FrictionTick | src/components/simulations/forces/FrictionDemo.jsx:145-171 | a frame advances time by 0.03 s and sets the velocity by VelocityStep; the new position is x + v·0.03 with the pre-frame velocity; the block stops exactly when that position passes 40 m, and is then left at 40 m; a paused block is unchanged |
| FrictionDemo.FrictionTickKeepsTrack | src/components/simulations/forces/FrictionDemo.jsx:161-170 | a frame keeps velocity ≥ 0, position in [0, 40] and time ≥ 0, and never moves the block or the time backwards |
| FrictionDemo.FrictionRunKeepsTrack | src/components/simulations/forces/FrictionDemo.jsx:161-170 | any number of frames keeps the block on the track and never behind its start |
| FrictionDemo.RestingBlockStays | src/components/simulations/forces/FrictionDemo.jsx:148-155 | a block at rest pushed no harder than the largest static friction stays at rest in place for any number of frames |
| FrictionDemo.FrictionSim.constructor | src/components/simulations/forces/FrictionDemo.jsx:7-14 | mass 10, push 30, μs 0.5, μk 0.3, at rest at 0, paused |
| FrictionDemo.FrictionSim.Tick | src/components/simulations/forces/FrictionDemo.jsx:145-171 | the new block state is FrictionTick of the old one |
| FrictionDemo.FrictionSim.TogglePlay | src/components/simulations/forces/FrictionDemo.jsx:249 | flips the play flag only |
| FrictionDemo.FrictionSim.Reset | src/components/simulations/forces/FrictionDemo.jsx:177-182 | stops and zeroes time, velocity and position, keeping the sliders |
| FrictionDemo.FrictionSim.SetMass | src/components/simulations/forces/FrictionDemo.jsx:215 | stores the mass and resets the block |
| FrictionDemo.FrictionSim.SetMuStatic | src/components/simulations/forces/FrictionDemo.jsx:228 | stores μs and resets the block |
| FrictionDemo.FrictionSim.SetMuKinetic | src/components/simulations/forces/FrictionDemo.jsx:241 | stores μk and resets the block |
| FrictionDemo.FrictionSim.SetApplied | src/components/simulations/forces/FrictionDemo.jsx:203 | stores the push and keeps the block state and play flag |
| ProjectileMotion.LandsAtTotalTime | src/components/simulations/kinematics/ProjectileMotion.jsx:24 | the height vy·t − ½g·t² is 0 at launch and at totalTime = 2vy/g |
| ProjectileMotion.MaxHeightIsApex | src/components/simulations/kinematics/ProjectileMotion.jsx:25 | maxHeight − y(t) = (vy − g·t)²/(2g), so y(t) ≤ vy²/(2g) for every t, with equality at totalTime/2 |
| ProjectileMotion.FlightMatchesLaunch | src/components/simulations/kinematics/ProjectileMotion.jsx:21-26 | for the launch the sliders give, vx·totalTime is the range, the height is 0 at launch and at totalTime, never above maxHeight, and equal to it at totalTime/2 |
| ProjectileMotion.LaunchOf | src/components/simulations/kinematics/ProjectileMotion.jsx:21-26 | totalTime·g = 2vy, maxHeight·2g = vy² and range·g = 2·vx·vy |
| ProjectileMotion.PixelOnGroundAtEnds | src/components/simulations/kinematics/ProjectileMotion.jsx:143-144 | the plotted point is at the launch point on the ground line at t = 0 and back on the ground line at totalTime |
| ProjectileMotion.PixelAt | src/components/simulations/kinematics/ProjectileMotion.jsx:143-144 | the point is on the ground line exactly when the height is 0 and above it exactly when the height is positive |
| ProjectileMotion.AppendTrail | src/components/simulations/kinematics/ProjectileMotion.jsx:145 | the new trail keeps the last ≤ 50 old points in order and ends with the new one, so it has at most 51 points |
| ProjectileMotion.FlightTick | src/components/simulations/kinematics/ProjectileMotion.jsx:137-146 | the clock follows the clamped rule with limit totalTime; only a running clock changes; a frame that advances the time appends the point at the new time to the last 50 trail points, any other frame keeps the trail |
| ProjectileMotion.FlightTickKeepsTrail | src/components/simulations/kinematics/ProjectileMotion.jsx:141-145 | every frame keeps the trail a run of consecutive 0.02 s samples of the path, at most 51 long, ending at the current time while the flight lasts |
| ProjectileMotion.SampleAt | src/components/simulations/kinematics/ProjectileMotion.jsx:141-145 | in a run of n samples ending at time t₀, the i-th point is where the projectile is drawn at t₀ − (n − 1 − i)·0.02 s |
| ProjectileMotion.ProjectileSim.constructor | src/components/simulations/kinematics/ProjectileMotion.jsx:7-11 | 45°, 20 m/s, empty trail, paused at 0 |
| ProjectileMotion.ProjectileSim.Tick | src/components/simulations/kinematics/ProjectileMotion.jsx:135-150 | the new clock and trail are FlightTick of the old ones, and the trail invariant is kept |
| ProjectileMotion.ProjectileSim.TogglePlay | src/components/simulations/kinematics/ProjectileMotion.jsx:199 | flips the play flag only |
| ProjectileMotion.ProjectileSim.Reset | src/components/simulations/kinematics/ProjectileMotion.jsx:154-158 | stops, rewinds to 0 and empties the trail |
| ProjectileMotion.ProjectileSim.SetAngle | src/components/simulations/kinematics/ProjectileMotion.jsx:179 | stores the angle and resets |
| ProjectileMotion.ProjectileSim.SetSpeed | src/components/simulations/kinematics/ProjectileMotion.jsx:191 | stores the speed and resets |
| SuvatEquations.AverageAgreesWhenConsistent | src/components/simulations/kinematics/SUVATEquations.jsx:22-24 | when the v slider equals u + a·t the average-velocity form equals ut + ½at² |
| SuvatEquations.TimelessAgreesWhenConsistent | src/components/simulations/kinematics/SUVATEquations.jsx:22-23 | when v = u + a·t and a ≠ 0 the time-free form is finite and equals ut + ½at² |
| SuvatEquations.TimelessFiniteIffAccelerating | src/components/simulations/kinematics/SUVATEquations.jsx:23 | the time-free form is finite iff a ≠ 0, and the slider includes 0 |
| SuvatEquations.DisplacementTimeless | src/components/simulations/kinematics/SUVATEquations.jsx:23 | finite exactly when a ≠ 0, and then v² = u² + 2·a·s |
| SuvatEquations.AnimatedStateTimeless | src/components/simulations/kinematics/SUVATEquations.jsx:81-82 | the animated velocity and displacement satisfy v² = u² + 2as at every animation time |
| SuvatEquations.DrawnDisplacement | src/components/simulations/kinematics/SUVATEquations.jsx:85 | the drawn distance is at most 50 m and at most s, equals s iff s ≤ 50, and is exactly 50 m beyond that |
| SuvatEquations.SuvatSim.constructor | src/components/simulations/kinematics/SUVATEquations.jsx:7-13 | u 5, v 15, a 2, t 5, first equation, paused at 0 |
| SuvatEquations.SuvatSim.Tick | src/components/simulations/kinematics/SUVATEquations.jsx:157-171 | the animation clock follows the clamped rule with step 0.03 s and limit the chosen t |
| SuvatEquations.SuvatSim.TogglePlay | src/components/simulations/kinematics/SUVATEquations.jsx:290 | flips the play flag only |
| SuvatEquations.SuvatSim.Reset | src/components/simulations/kinematics/SUVATEquations.jsx:174-177 | stops and rewinds the animation |
| SuvatEquations.SuvatSim.SetInitialVelocity | src/components/simulations/kinematics/SUVATEquations.jsx:236 | stores u and resets the animation |
| SuvatEquations.SuvatSim.SetFinalVelocity | src/components/simulations/kinematics/SUVATEquations.jsx:250 | stores v and resets the animation |
| SuvatEquations.SuvatSim.SetAcceleration | src/components/simulations/kinematics/SUVATEquations.jsx:265 | stores a and resets the animation |
| SuvatEquations.SuvatSim.SetTime | src/components/simulations/kinematics/SUVATEquations.jsx:280 | stores t and resets the animation |
| SuvatEquations.SuvatSim.SelectEquation | src/components/simulations/kinematics/SUVATEquations.jsx:190 | changes only the highlighted equation, not the animation |
| VelocityComparator.PresetOf | src/components/simulations/kinematics/VelocityComparator.jsx:12-46 | every preset scenario runs for a positive duration |
| VelocityComparator.StartOfEveryScenario | src/components/simulations/kinematics/VelocityComparator.jsx:51-52 | at t = 0 each scenario shows its initial velocity and zero displacement |
| VelocityComparator.ConstantScenarioKeepsVelocity | src/components/simulations/kinematics/VelocityComparator.jsx:29-36 | the constant scenario shows velocity u at every time |
| VelocityComparator.DeltaTone | src/components/simulations/kinematics/VelocityComparator.jsx:181 | the change box is green iff Δv > 0 and red iff Δv < 0 |
| VelocityComparator.DeltaFollowsAcceleration | src/components/simulations/kinematics/VelocityComparator.jsx:180-181 | Δv = a·t, so for t > 0 the box colour follows the sign of a |
| VelocityComparator.RangeIsProper | src/components/simulations/kinematics/VelocityComparator.jsx:80-82 | the graph top is ≥ 25 and its bottom ≤ 0, so the span is positive and contains the run's end velocity |
| VelocityComparator.RangeOf | src/components/simulations/kinematics/VelocityComparator.jsx:80-82 | the top is the largest of 25, u and the end velocity, the bottom the smaller of 0 and the end velocity |
| VelocityComparator.ComparatorSim.Tick | src/components/simulations/kinematics/VelocityComparator.jsx:219-230 | the clock follows the clamped rule with step 0.02 s and the scenario's duration |
| VelocityComparator.ComparatorSim.TogglePlay | src/components/simulations/kinematics/VelocityComparator.jsx:282 | flips the play flag only |
| VelocityComparator.ComparatorSim.SelectScenario | src/components/simulations/kinematics/VelocityComparator.jsx:245 | selects the scenario, rewinds and stops |
| VelocityComparator.ComparatorSim.Reset | src/components/simulations/kinematics/VelocityComparator.jsx:297 | rewinds and stops, keeping the scenario |
| VelocityComparator.ComparatorSim.Scrub | src/components/simulations/kinematics/VelocityComparator.jsx:315-319 | the time slider sets a time in [0, duration] and stops |
| NewtonSecondLaw.Acceleration | src/components/simulations/forces/NewtonSecondLaw.jsx:17 | a·m = F; a is positive for a positive force and, for a mass of at least 1 kg, no larger than the force |
| NewtonSecondLaw.AccelerationPositiveOnSliders | src/components/simulations/forces/NewtonSecondLaw.jsx:17 | every slider setting gives a positive acceleration |
| NewtonSecondLaw.PositionIsHalfVelocityTimesTime | src/components/simulations/forces/NewtonSecondLaw.jsx:42-43 | from rest, position = ½·velocity·t |
| NewtonSecondLaw.ArrowShownAfterThreshold | src/components/simulations/forces/NewtonSecondLaw.jsx:81 | the velocity arrow is drawn iff t > 0.1/a |
| NewtonSecondLaw.NewtonTick | src/components/simulations/forces/NewtonSecondLaw.jsx:110-116 | a frame never moves time back, a frame that moves it adds exactly 0.03 s from below 5 s and keeps playing, and a paused clock is unchanged |
| NewtonSecondLaw.NewtonRunBounded | src/components/simulations/forces/NewtonSecondLaw.jsx:110-116 | from a time in [0, 5.03) every run of frames stays in [0, 5.03) |
| NewtonSecondLaw.StopKeepsTime | src/components/simulations/forces/NewtonSecondLaw.jsx:112-114 | a running clock stops iff t ≥ 5 or ½at² > 25, and it keeps its time exactly when it stops |
| NewtonSecondLaw.NewtonSim.constructor | src/components/simulations/forces/NewtonSecondLaw.jsx:7-10 | mass 5, force 20, paused at 0 |
| NewtonSecondLaw.NewtonSim.Tick | src/components/simulations/forces/NewtonSecondLaw.jsx:108-121 | the new clock is NewtonTick of the old one under a = F/m |
| NewtonSecondLaw.NewtonSim.TogglePlay | src/components/simulations/forces/NewtonSecondLaw.jsx:169 | flips the play flag only |
| NewtonSecondLaw.NewtonSim.Reset | src/components/simulations/forces/NewtonSecondLaw.jsx:124-127 | stops and rewinds to 0 |
| NewtonSecondLaw.NewtonSim.SetMass | src/components/simulations/forces/NewtonSecondLaw.jsx:148 | stores the mass and resets |
| NewtonSecondLaw.NewtonSim.SetForce | src/components/simulations/forces/NewtonSecondLaw.jsx:161 | stores the force and resets |
| PositionTimeGraph.VisibilityOfCurrentPoint | src/components/simulations/kinematics/PositionTimeGraph.jsx:74-85 | the current point is drawn iff the curve sample at its position is drawn and t ≤ 10 s; for v = 0, iff x0 is in [0, 25] and t ≤ 10 s |
| PositionTimeGraph.SignText | src/components/simulations/kinematics/PositionTimeGraph.jsx:97 | the equation shows "+" iff v ≥ 0 and nothing iff v < 0 |
| PositionTimeGraph.GraphSim.constructor | src/components/simulations/kinematics/PositionTimeGraph.jsx:7-10 | v 2, x0 0, paused at 0 |
| PositionTimeGraph.GraphSim.Tick | src/components/simulations/kinematics/PositionTimeGraph.jsx:108-118 | the clock follows the clamped rule with step 0.05 s and limit 10 s |
| PositionTimeGraph.GraphSim.TogglePlay | src/components/simulations/kinematics/PositionTimeGraph.jsx:172 | flips the play flag only |
| PositionTimeGraph.GraphSim.Reset | src/components/simulations/kinematics/PositionTimeGraph.jsx:126-129 | stops and rewinds to 0 |
| PositionTimeGraph.GraphSim.SetVelocity | src/components/simulations/kinematics/PositionTimeGraph.jsx:147-151 | stores v without touching the clock |
| PositionTimeGraph.GraphSim.SetInitialPosition | src/components/simulations/kinematics/PositionTimeGraph.jsx:160-164 | stores x0 without touching the clock |
| VelocityAccelGraphs.PlottedVelocityOnAxis | src/components/simulations/kinematics/VelocityAccelGraphs.jsx:74-84 | the plotted velocity lies in [−10, 10], equals u + a·t inside that range and the nearer bound outside it |
| VelocityAccelGraphs.AccelerationLineFlat | src/components/simulations/kinematics/VelocityAccelGraphs.jsx:95-102 | the acceleration graph has the same height at every time, and that height is the slope of the unclamped velocity u + a·t between any two times |
| VelocityAccelGraphs.FooterDiffersOnlyOffAxis | src/components/simulations/kinematics/VelocityAccelGraphs.jsx:203 | the unclamped footer velocity differs from the plotted one iff u + a·t is off the axis |
| VelocityAccelGraphs.GraphsSim.constructor | src/components/simulations/kinematics/VelocityAccelGraphs.jsx:8-11 | u 5, a −1, paused at 0 |
| VelocityAccelGraphs.GraphsSim.Tick | src/components/simulations/kinematics/VelocityAccelGraphs.jsx:116-125 | the clock follows the clamped rule with step 0.05 s and limit 10 s |
| VelocityAccelGraphs.GraphsSim.TogglePlay | src/components/simulations/kinematics/VelocityAccelGraphs.jsx:172 | flips the play flag only |
| VelocityAccelGraphs.GraphsSim.Reset | src/components/simulations/kinematics/VelocityAccelGraphs.jsx:187 | stops and rewinds to 0 |
| VelocityAccelGraphs.GraphsSim.SetInitialVelocity | src/components/simulations/kinematics/VelocityAccelGraphs.jsx:147-151 | stores u without touching the clock |
| VelocityAccelGraphs.GraphsSim.SetAcceleration | src/components/simulations/kinematics/VelocityAccelGraphs.jsx:160-164 | stores a without touching the clock |
| CentripetalForce.AngularVelocity | src/components/simulations/forces/CentripetalForce.jsx:19 | ω·r = v, and ω > 0 for positive speed |
| CentripetalForce.CentripetalAccel | src/components/simulations/forces/CentripetalForce.jsx:20 | ac·r = v², and ac ≥ 0 |
| CentripetalForce.Period | src/components/simulations/forces/CentripetalForce.jsx:22 | T·v = 2πr, and T > 0 for positive radius |
| CentripetalForce.DerivedQuantitiesAgree | src/components/simulations/forces/CentripetalForce.jsx:19-22 | on the sliders ac = ω·v, Fc·r = m·v², Fc > 0 and ω·T = 2π |
| CentripetalForce.CentripetalForceOf | src/components/simulations/forces/CentripetalForce.jsx:21 | Fc·r = m·v², and Fc ≥ 0 for a non-negative mass |
| CentripetalForce.AngleTickInTurn | src/components/simulations/forces/CentripetalForce.jsx:117 | a frame keeps the angle in [0, 2π), and below a full turn it simply adds ω·0.016 |
| CentripetalForce.AngleTick | src/components/simulations/forces/CentripetalForce.jsx:117 | the new angle differs from angle + ω·0.016 by a whole number of turns of 2π |
| CentripetalForce.AngleRunInTurn | src/components/simulations/forces/CentripetalForce.jsx:117 | any number of frames keeps the angle in [0, 2π) |
| CentripetalForce.CentripetalSim.constructor | src/components/simulations/forces/CentripetalForce.jsx:7-11 | mass 2, radius 100, speed 5, angle 0, playing |
| CentripetalForce.CentripetalSim.Tick | src/components/simulations/forces/CentripetalForce.jsx:115-119 | while playing the angle becomes AngleTick of the old angle under ω = v/r; paused it stays |
| CentripetalForce.CentripetalSim.TogglePlay | src/components/simulations/forces/CentripetalForce.jsx:181 | flips the play flag only |
| CentripetalForce.CentripetalSim.SetMass | src/components/simulations/forces/CentripetalForce.jsx:144 | stores the mass, keeping the angle and play flag |
| CentripetalForce.CentripetalSim.SetRadius | src/components/simulations/forces/CentripetalForce.jsx:158 | stores the radius, keeping the angle and play flag |
| CentripetalForce.CentripetalSim.SetSpeed | src/components/simulations/forces/CentripetalForce.jsx:172 | stores the speed, keeping the angle and play flag |
| FreeBodyDiagram.Forces | src/components/simulations/forces/FreeBodyDiagram.jsx:23-26 | the weight is positive for a positive mass, and for an angle in [0°, 90°] both components are non-negative |
| FreeBodyDiagram.Panel | src/components/simulations/forces/FreeBodyDiagram.jsx:137-138 | the panel's W∥ and W⊥, computed a second time, are the friction arrow and the normal force |
| FreeBodyDiagram.ComponentsRecombine | src/components/simulations/forces/FreeBodyDiagram.jsx:24-26 | under sin² + cos² = 1, N² + f² = W² |
| FreeBodyDiagram.ComponentsWithinWeight | src/components/simulations/forces/FreeBodyDiagram.jsx:24-26 | on the sliders W > 0 and both components lie in [0, W] |
| VectorAddition.SumCommutes | src/components/simulations/vectors/VectorAddition.jsx:30-38 | swapping A and B gives the same resultant, magnitude and angle |
| VectorAddition.Resolve | src/components/simulations/vectors/VectorAddition.jsx:27-38 | A and B are the canvas components of the sliders, the resultant minus either part is the other, and under the square-root law rMag ≥ 0 with rMag² = rx² + ry² |
| VectorAddition.HeadToTailCloses | src/components/simulations/vectors/VectorAddition.jsx:43-65 | B drawn from A's tip, and the dashed component path through the corners, end exactly at the resultant's tip |
| VectorAddition.ParallelogramEdgeIsA | src/components/simulations/vectors/VectorAddition.jsx:73-74 | the parallelogram edge from B's tip to the resultant's tip has A's components |
| VectorAddition.AngleUsesUpwardComponent | src/components/simulations/vectors/VectorAddition.jsx:31-38 | −ry = magA·sin θ₁ + magB·sin θ₂, the upward sum that the resultant angle is taken of |
| VectorAddition.MagnitudeSquared | src/components/simulations/vectors/VectorAddition.jsx:37 | under the square-root law, rMag ≥ 0 and rMag² = rx² + ry² |
| VectorAddition.ComponentsLength | src/components/simulations/vectors/VectorAddition.jsx:30-33 | under sin² + cos² = 1, each vector's components have squared length mag² |
| VectorAddition.ResultantNoLongerThanParts | src/components/simulations/vectors/VectorAddition.jsx:30-37 | under the laws, the resultant is no longer than the sum of the two magnitudes |
| VectorDecomposition.ArrowsProjectTip | src/components/simulations/vectors/VectorDecomposition.jsx:28-50 | the tip is origin + (vx, vy), and the component arrows end at (endX, originY) and (originX, endY) |
| VectorDecomposition.Decompose | src/components/simulations/vectors/VectorDecomposition.jsx:24-29 | the components are those of the sliders, the tip is the origin moved by them, and the shown Vy undoes the canvas flip |
| VectorDecomposition.LabelsAreTextbookComponents | src/components/simulations/vectors/VectorDecomposition.jsx:47-51 | the labels show |V|·cos θ and |V|·sin θ, the canvas y being negated |
| VectorDecomposition.ReconstructionIsMagnitude | src/components/simulations/vectors/VectorDecomposition.jsx:78 | under the laws, √(vx² + vy²) equals |V| for every slider setting |
| VectorDecomposition.FirstQuadrantComponents | src/components/simulations/vectors/VectorDecomposition.jsx:25-26 | for θ in [0°, 90°] both shown components lie in [0, |V|], so the tip is right of and above the origin |

## Left out

- Canvas drawing: every `ctx` call, the canvas helpers, pixel scales and layout constants. The exception is the projectile trail, whose points are stored state.
- React plumbing: state batching, effect dependency lists, `requestAnimationFrame` scheduling and cancellation. One frame while playing is one `Tick` call.
- Number formatting with `toFixed`. Parsing by `parseFloat`/`parseInt` is an input: `CheckAnswer` receives the parsed `JsNumber`, and the sliders pass reals.
- The integer steps of the `parseInt` sliders. Slider values are reals in the slider's range.
- Rounding drift of repeated floating-point steps. Arithmetic is exact over the reals.
- The internals of `Math.sin`, `cos`, `sqrt` and `atan2`. They appear only through the stated laws.
- VectorAddition.AngleUsesUpwardComponent: no property of the resultant angle beyond the arguments passed to `atan2`.
- The flame flicker of the challenge visuals, which uses `Math.random`, and the per-problem visuals in `drawProblemVisual`. Both are display only.
- The centripetal formula breakdown text, which divides by the radius in metres. The model uses the code's own formulas.
- The display-only checkboxes: the free-body normal and friction toggles and the vector component toggle.
- The conditions under which the projectile, Newton and SUVAT velocity and acceleration arrows are drawn. The exception is the Newton threshold of 0.1 m/s.
- Routing, the navigation bar, pages, theme colours and re-exports. They are not part of this model.
- KinematicsChallenges.ChallengeSession.CheckAnswer: takes the parsed number rather than the entry text, because `parseFloat` is not modelled.
