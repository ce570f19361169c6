# Event-driven hard-disc simulation: a Dafny model

The repository simulates hard discs bouncing inside a circular board around a
central circular obstacle. A Java core handles the event-driven part:

- `Board` finds, for every particle, its soonest collision (with the wall,
  the obstacle, or another particle).
- It advances every particle to the earliest such time.
- It applies the collisions happening then and writes them to a log.

Python scripts read that log back:

- `collision_count.py` counts obstacle collisions.
- `pressure.py` turns changes of velocity into wall and obstacle pressures.
- `average_pressure.py` averages a pressure series.
- The two `animation.py` scripts rebuild frames of the simulation.

This project models those pieces in Dafny, one module per source file:

| module | file | models |
|---|---|---|
| `Vectors` | `vector2d.dfy` | `Vector2D` |
| `Particles` | `particle.dfy` | `Particle` |
| `Collisions` | `collision.dfy` | `Collision` |
| `Quadratics` | `quadratic.dfy` | the three collision-time solvers of `Board` |
| `Boards` | `board.dfy` | `Board.toNextCollisionTime` |
| `ObstacleCounts` | `collision_count.dfy` | both readers of `collision_count.py` |
| `Pressure` | `pressure.dfy` | `pressure.py` |
| `AveragePressure` | `average_pressure.dfy` | `average_pressure.py` |
| `InitialConditions` | `initial_conditions.dfy` | `read_initial_conditions` and the particle loop of `src/main/animation.py` |
| `EventGroups` | `event_groups.dfy` | `read_simulation_events` |
| `Animation` | `animation.dfy` | the frame times and the `update` closure |
| `Snapshots` | `snapshots.dfy` | the stride loop of `src/main/animation.py` |

`Common` holds `Result`/`Option`, tokenised lines and Python's integer
indexing. `Formatting` holds `%d`/`%f` rendering and `split()`.

Modelling conventions:

- Doubles are `real`.
- `Math.sqrt` and `** 0.5` are a parameter `sqrt` with `IsSqrt(sqrt)`: a
  non-negative square root of every non-negative number.
- A line of a text file is a sequence of tokens, its `split()`. Each token
  carries what Python's `int()`/`float()` make of it, or nothing when they
  raise.
- Exceptions are `Err` values of `Result`, naming the Python or Java error
  and the line index that raises it.
- Objects whose fields the source updates are classes:
  - `Vector2D` (its magnitude cache), `Particle`, `Collision` and `Board`.
  - `Animator`, which holds the particle dictionaries that the `update`
    closure mutates.
- Loops become methods proved against a function of the inputs. The
  properties are lemmas about those functions.

## Model

| member | source | states |
|---|---|---|
| Formatting.FixedSix | src/main/java/ar/edu/itba/ss/Particle.java:95-96 | the %f text is an optional minus sign (exactly for negative values), integer digits, a dot and six digits, and the digits denote the magnitude of the value in millionths, rounded |
| Formatting.MillionthsRounds | src/main/java/ar/edu/itba/ss/Particle.java:95-96 | the millionths count is the nearest one to the value, halves rounded away from zero |
| Vectors.NormSq | src/main/java/ar/edu/itba/ss/Vector2D.java:54-59 | the squared length is non-negative and zero exactly for the zero vector |
| Vectors.MagnitudeOf | src/main/java/ar/edu/itba/ss/Vector2D.java:54-59 | magnitude() is the non-negative number whose square is x^2 + y^2, zero exactly for the zero vector |
| Vectors.Distance | src/main/java/ar/edu/itba/ss/Vector2D.java:48-52 | distance is non-negative and zero exactly when the two points coincide |
| Vectors.DistanceSymmetric | src/main/java/ar/edu/itba/ss/Vector2D.java:48-52 | distance(a, b) == distance(b, a) |
| Vectors.Equals | src/main/java/ar/edu/itba/ss/Vector2D.java:32-36 | equals holds exactly when both coordinates agree |
| Vectors.NormalizedOf | src/main/java/ar/edu/itba/ss/Vector2D.java:77-83 | normalizing the zero vector raises, any other vector normalizes |
| Vectors.NormalizedIsUnit | src/main/java/ar/edu/itba/ss/Vector2D.java:77-83 | the normalized vector has length 1 and points the same way as the input (parallel, positive dot product) |
| Vectors.SubtractIsAddNegated | src/main/java/ar/edu/itba/ss/Vector2D.java:61-71 | subtract(b) is add(b.scale(-1)) |
| Vectors.DotLaws | src/main/java/ar/edu/itba/ss/Vector2D.java:61-75 | dotProduct is symmetric, linear in add, subtract and scale, and v.v is the squared length |
| Vectors.Vector2D.constructor | src/main/java/ar/edu/itba/ss/Vector2D.java:11-14 | the coordinates are stored and the magnitude cache starts empty (-1) |
| Vectors.Vector2D.Magnitude | src/main/java/ar/edu/itba/ss/Vector2D.java:54-59 | returns the magnitude and caches it; a cached value is returned unchanged |
| Vectors.Vector2D.Normalized | src/main/java/ar/edu/itba/ss/Vector2D.java:77-83 | the result is the unit vector of the value (an error for the zero vector), with the magnitude cached |
| Particles.Advanced | src/main/java/ar/edu/itba/ss/Particle.java:51-56 | the displacement of a move is velocity * dt |
| Particles.AdvanceComposes | src/main/java/ar/edu/itba/ss/Particle.java:51-56 | moving by s then by t is moving by s + t |
| Particles.ReflectionLaws | src/main/java/ar/edu/itba/ss/Particle.java:58-62 | reflecting on a unit normal negates the normal component, keeps the tangential one and the speed, and reflecting twice is the identity |
| Particles.BouncedVelocity | src/main/java/ar/edu/itba/ss/Particle.java:58-62 | bounce raises exactly for a particle at the origin, where the normal cannot be normalized |
| Particles.BounceLaws | src/main/java/ar/edu/itba/ss/Particle.java:58-62 | after a bounce the radial velocity component is reversed, the tangential one and the speed are kept |
| Particles.AsWrittenConservesMomentum | src/main/java/ar/edu/itba/ss/Particle.java:64-75 | the impulse exchange as written conserves total momentum |
| Particles.AsWrittenGainsEnergy | src/main/java/ar/edu/itba/ss/Particle.java:70-74 | as written, at contact the sum of m v^2 (twice the kinetic energy) grows by 4 J (dR.dV) and strictly grows whenever the discs approach or separate (see Findings) |
| Particles.ElasticConservesMomentum | src/main/java/ar/edu/itba/ss/Particle.java:64-75 | the corrected exchange conserves total momentum |
| Particles.ElasticActsAlongNormal | src/main/java/ar/edu/itba/ss/Particle.java:64-75 | each velocity changes only along the line of centres |
| Particles.ElasticAtContact | src/main/java/ar/edu/itba/ss/Particle.java:64-75 | at contact the corrected exchange conserves the sum of m v^2 (so the kinetic energy) and reverses the normal relative velocity |
| Particles.LongHash | src/main/java/ar/edu/itba/ss/Particle.java:85-87 | Long.hashCode is a 32-bit int and is the id itself for ids in 0 .. 2^31 - 1 |
| Particles.Particle.constructor | src/main/java/ar/edu/itba/ss/Particle.java:15-21 | all five fields are stored |
| Particles.Particle.Move | src/main/java/ar/edu/itba/ss/Particle.java:51-56 | the position advances by velocity * dt and nothing else changes |
| Particles.Particle.Bounce | src/main/java/ar/edu/itba/ss/Particle.java:58-62 | at the origin it raises and changes nothing; elsewhere the velocity becomes the reflected one |
| Particles.Particle.CollideWithParticle | src/main/java/ar/edu/itba/ss/Particle.java:64-75 | both velocities become the elastic result (sign corrected), and a particle colliding with itself keeps its velocity |
| Particles.Particle.HashCode | src/main/java/ar/edu/itba/ss/Particle.java:85-87 | the hash of a non-negative 32-bit id is the id |
| Particles.Particle.ToString | src/main/java/ar/edu/itba/ss/Particle.java:94-104 | split() of the line gives back the id and the six formatted numbers, in order |
| Particles.Particle.PositionalInfo | src/main/java/ar/edu/itba/ss/Particle.java:106-114 | split() of the line gives back the id, the position and the velocity, in order |
| Particles.EqualsIsEquivalence | src/main/java/ar/edu/itba/ss/Particle.java:77-87 | equals is reflexive, symmetric and transitive, never holds for null, and equal particles hash alike |
| Particles.OverlapLaws | src/main/java/ar/edu/itba/ss/Particle.java:89-91 | isOverlapped is symmetric, is the squared-distance test for non-negative radii, and fails for negative radius sums |
| Collisions.Collision.constructor | src/main/java/ar/edu/itba/ss/Collision.java:14-19 | a new collision is a pair collision with the given particles and time |
| Collisions.Collision.WithWall | src/main/java/ar/edu/itba/ss/Collision.java:21-25 | a fresh wall collision of a alone |
| Collisions.Collision.WithObstacle | src/main/java/ar/edu/itba/ss/Collision.java:27-31 | a fresh obstacle collision of a alone |
| Collisions.Collision.Execute | src/main/java/ar/edu/itba/ss/Collision.java:50-59 | wall and obstacle collisions bounce a and leave b alone; pair collisions exchange the elastic impulse (sign corrected) or raise on a missing b; positions never change |
| Collisions.Collision.ToString | src/main/java/ar/edu/itba/ss/Collision.java:74-80 | the line is "id W", "id O" or "id id", and raises only for a pair without b |
| Collisions.CollisionLine | src/main/java/ar/edu/itba/ss/Board.java:174-190 | the printed collision line splits into the id and the tag, or the two ids |
| Collisions.IdIsNoTag | src/main/java/ar/edu/itba/ss/Collision.java:74-80 | a printed id is never "W" or "O" |
| Collisions.LineTellsKind | src/main/java/ar/edu/itba/ss/Collision.java:74-80 | the second field is "O" exactly for an obstacle collision and "W" exactly for a wall collision |
| Collisions.EqualsIsEquivalence | src/main/java/ar/edu/itba/ss/Collision.java:61-66 | equals is an equivalence, never holds for null, and holds for equal particles and type |
| Quadratics.Clamped | src/main/java/ar/edu/itba/ss/Board.java:42-44 | a discriminant within EPS below zero becomes 0; any other is kept |
| Quadratics.PickRoot | src/main/java/ar/edu/itba/ss/Board.java:50-58 | the result is -1 or one of the roots above EPS, -1 exactly when neither root is above EPS, and never above a root that is |
| Quadratics.EarliestRoot | src/main/java/ar/edu/itba/ss/Board.java:34-59 | -1 or a time above EPS; -1 without motion (A < EPS) or for a discriminant at or below -EPS |
| Quadratics.EarliestRootIsFirstContact | src/main/java/ar/edu/itba/ss/Board.java:34-59 | for a non-negative discriminant the result is a root, and no root above EPS comes earlier |
| Quadratics.WallQuadraticMeaning | src/main/java/ar/edu/itba/ss/Board.java:35-37 | the wall quadratic at t is the squared length of p + v t - (R - r)^2: its roots are the times the disc touches the wall |
| Quadratics.ObstacleQuadraticMeaning | src/main/java/ar/edu/itba/ss/Board.java:65-67 | the obstacle quadratic at t is the squared length of p + v t - (R_o + r)^2 |
| Quadratics.PairQuadraticMeaning | src/main/java/ar/edu/itba/ss/Board.java:92-102 | the pair quadratic at t is the squared distance of the moved centres minus sigma^2 |
| Quadratics.WallTime | src/main/java/ar/edu/itba/ss/Board.java:34-59 | boardCollisionTime is -1 or above EPS |
| Quadratics.ObstacleTime | src/main/java/ar/edu/itba/ss/Board.java:61-89 | obstacleCollisionTime is -1 or above EPS, and -1 without an obstacle |
| Quadratics.PairTime | src/main/java/ar/edu/itba/ss/Board.java:91-124 | particlePairCollisionTime is -1 or above EPS |
| Boards.TimesOf | src/main/java/ar/edu/itba/ss/Board.java:129-143 | the table holds the three solvers' times for every particle and every pair, each -1 or above EPS |
| Boards.Soonest | src/main/java/ar/edu/itba/ss/Board.java:145-150 | the filtered minimum is none exactly when no time is positive, and otherwise a positive candidate no later than any positive one |
| Boards.SoonestIsFirst | src/main/java/ar/edu/itba/ss/Board.java:145-150 | ties go to the first candidate with the minimal time |
| Boards.SoonestPerParticle | src/main/java/ar/edu/itba/ss/Board.java:129-151 | one entry per particle |
| Boards.MinTime | src/main/java/ar/edu/itba/ss/Board.java:153 | the minimum is none exactly when every entry is null, and otherwise the time of some entry and no larger than any |
| Boards.Happening | src/main/java/ar/edu/itba/ss/Board.java:163-169 | happeningNow holds exactly the soonest entries whose time equals the step |
| Boards.PairEventsShape | src/main/java/ar/edu/itba/ss/Board.java:137-143 | the pair candidates of a particle are exactly the other particles with a larger id, at their pair time |
| Boards.CandidatesShape | src/main/java/ar/edu/itba/ss/Board.java:130-143 | a particle's candidates are its wall event, its obstacle event and its pair events with larger ids, and nothing else |
| Boards.SoonestOfParticle | src/main/java/ar/edu/itba/ss/Board.java:145-150 | a particle's soonest event is its own, lies above EPS, and no positive candidate comes sooner |
| Boards.SearchFailsWhenNothingAhead | src/main/java/ar/edu/itba/ss/Board.java:153-157 | the exception is thrown exactly when no particle has a candidate with a positive time |
| Boards.SearchIsEarliest | src/main/java/ar/edu/itba/ss/Board.java:129-157 | the step lies above EPS and no positive candidate of any particle comes earlier |
| Boards.SearchFindsOne | src/main/java/ar/edu/itba/ss/Board.java:163-169 | when the search succeeds, happeningNow is not empty |
| Boards.SearchGathersSimultaneous | src/main/java/ar/edu/itba/ss/Board.java:163-169 | every collision in happeningNow happens at the step and is its particle's soonest |
| Boards.SearchMissesNone | src/main/java/ar/edu/itba/ss/Board.java:163-169 | every particle whose soonest collision is at the step is in happeningNow |
| Boards.SelectNext | src/main/java/ar/edu/itba/ss/Board.java:127-169 | the loops of toNextCollisionTime compute the specified step and happeningNow |
| Boards.CollisionsOf | src/main/java/ar/edu/itba/ss/Board.java:130-143 | the collisions list built for a particle is its candidate list |
| Boards.SoonestIn | src/main/java/ar/edu/itba/ss/Board.java:145-150 | the stream filter and min computes Soonest |
| Boards.ConcludeSearch | src/main/java/ar/edu/itba/ss/Board.java:153-169 | the minimum, the exception and happeningNow agree with the search function |
| Boards.MinOf | src/main/java/ar/edu/itba/ss/Board.java:153 | the loop computes the minimum over the non-null entries |
| Boards.HappeningAt | src/main/java/ar/edu/itba/ss/Board.java:163-169 | the loop collects exactly Happening |
| Boards.AdvancedAll | src/main/java/ar/edu/itba/ss/Board.java:159-161 | every particle moves by its velocity times the step, velocities kept |
| Boards.Collide | src/main/java/ar/edu/itba/ss/Board.java:174-190 | one collision changes only the velocities of its particles, never a position |
| Boards.CollideAll | src/main/java/ar/edu/itba/ss/Board.java:174-191 | applying the collisions in order keeps the particle count and every position |
| Boards.LogLines | src/main/java/ar/edu/itba/ss/Board.java:171-190 | the count line, then one collision line per entry of happeningNow, in order |
| Boards.WriteLines | src/main/java/ar/edu/itba/ss/Board.java:171-190 | the println calls write exactly LogLines |
| Boards.Board.constructor | src/main/java/ar/edu/itba/ss/Board.java:12-16 | the radius is L / 2 and the obstacle and particles are stored; particles with distinct ids (a Set) give a board whose ids are distinct (Valid) |
| Boards.Board.States | src/main/java/ar/edu/itba/ss/Board.java:10 | one state per particle, in iteration order |
| Boards.Board.Ids | src/main/java/ar/edu/itba/ss/Board.java:10 | one id per particle, in iteration order |
| Boards.Board.Snap | src/main/java/ar/edu/itba/ss/Board.java:7-10 | the board's values form a well-formed snapshot |
| Boards.Board.ToNextCollisionTime | src/main/java/ar/edu/itba/ss/Board.java:126-194 | with nothing ahead it raises and changes nothing; otherwise every particle moves by the step, the simultaneous collisions are applied in order, the lines are written when asked, and currentTime + step is returned |
| Boards.Board.AdvanceAll | src/main/java/ar/edu/itba/ss/Board.java:159-161 | every particle's state becomes AdvancedAll |
| Boards.Board.ApplyAndLog | src/main/java/ar/edu/itba/ss/Board.java:171-191 | the states become CollideAll, and the lines are LogLines or nothing |
| Boards.Board.ApplyInOrder | src/main/java/ar/edu/itba/ss/Board.java:174-191 | the states become CollideAll of happeningNow |
| Boards.Board.ApplyOne | src/main/java/ar/edu/itba/ss/Board.java:175-190 | the states become Collide of one collision |
| ObstacleCounts.CountLine | src/collision_count.py:22-28 | a short line raises IndexError; a non-obstacle line changes nothing; the counter rises by at most one; what each reader records |
| ObstacleCounts.CountLineKeepsShape | src/collision_count.py:21-28 | one collision line keeps the sampling invariant and adds at most one sample time |
| ObstacleCounts.CountLinesKeepShape | src/collision_count.py:21-28 | a block keeps the invariant, never lowers the counter, and samples only times of the log |
| ObstacleCounts.ScanKeepsShape | src/collision_count.py:16-31 | the while loop keeps the invariant and ends at the end of the log or with the counter above 200 |
| ObstacleCounts.SamplesShape | src/collision_count.py:4-64 | equal-length lists of log times; counts 1, 21, 41, ... for first contacts and 21, 41, ... for independent collisions; the number of samples is fixed by the final counter (one per 1, 21, 41, ... or per multiple of 20 it reached), so no sample is missed |
| ObstacleCounts.CountLinesSampleAtTime | src/collision_count.py:21-28 | the collision lines of one block keep the earlier samples and add samples only at that block's time |
| ObstacleCounts.ScanBlocks | src/collision_count.py:16-31 | the while loop processes blocks at increasing time lines starting with the first; every block but the last leaves the counter at most 200, and the last passes 200 unless the log ended; every sample carries the time of the block whose collision line recorded it |
| ObstacleCounts.IndependentLabelsOneAhead | src/collision_count.py:54-59 | as written, the 20th, 40th, ... collision is recorded as counter + 1 (see Findings) |
| ObstacleCounts.IndependentFixedLabelsCollision | src/collision_count.py:54-59 | corrected, the recorded count is the number of the collision just counted |
| ObstacleCounts.FirstContactRecounts | src/collision_count.py:23-28 | as written, the lines "5 O", "7 O", "7 O" count 3 first contacts with two particles (see Findings) |
| ObstacleCounts.FirstContactFixedCountsParticles | src/collision_count.py:23-28 | corrected, every counted particle is excluded from then on, so the counter is the number of distinct particles |
| ObstacleCounts.ScanLog | src/collision_count.py:8-33 | the reading loop returns the samples of the log |
| ObstacleCounts.CountBlock | src/collision_count.py:21-28 | the for loop over the collision lines computes CountLines (none for a negative count) |
| ObstacleCounts.ReadFirstTimeObstacleCollisions | src/collision_count.py:4-33 | read_simulation_events_for_first_time_obstacle_collisions returns the first-contact samples |
| ObstacleCounts.ReadIndependentObstacleCollisions | src/collision_count.py:35-64 | read_simulation_events_for_independent_obstacle_collisions returns the independent samples |
| Pressure.MassEntry | src/main/pressure.py:13-16 | a line gives (id, mass) exactly when it has six fields with an int first and a float sixth; an empty line raises IndexError |
| Pressure.LastLineWins | src/main/pressure.py:12-16 | the dictionary holds exactly the ids of the particle lines, each with the mass on the last line naming it |
| Pressure.ReadParticlesFile | src/main/pressure.py:3-18 | returns the diameter, the obstacle radius and the mass dictionary of the file |
| Pressure.DropFirstDot | src/main/pressure.py:28 | without a dot the text is kept, otherwise exactly one character goes |
| Pressure.StateOf | src/main/pressure.py:33-38 | a state line parses exactly when its id is an int and fields 3 and 4 are floats, to those values |
| Pressure.StatesFrom | src/main/pressure.py:32-39 | the inner loop stops at the first blank or count line, collecting one state per line before it |
| Pressure.Block | src/main/pressure.py:28-46 | a parsed block is its time line (the event's time), the state lines that StatesFrom reads after it, a count line with value c, and exactly the max(c, 0) collision lines after the count line, ending right after them |
| Pressure.EventsAreBlocks | src/main/pressure.py:27-48 | a successful read yields one event per block the loop reaches, in file order: the blocks tile the file, and every line between them is a non-time line skipped by itself |
| Pressure.TilingIncreasing | src/main/pressure.py:27-48 | the time lines that head the blocks are strictly increasing and none comes before the starting index |
| Pressure.EventsFromTimeLines | src/main/pressure.py:27-48 | events are only appended, and each one's time is the value of some time line of the log |
| Pressure.ReadOutputFile | src/main/pressure.py:20-50 | the loop returns the events of the log |
| Pressure.ReadBlock | src/main/pressure.py:28-46 | one turn of the outer loop reads the block at a time line |
| Pressure.FirstStateIsFirst | src/main/pressure.py:74-75 | next() finds nothing exactly when no state has the id, and otherwise the first state that has it |
| Pressure.HitOf | src/main/pressure.py:67-79 | a hit carries the collision's second field; an id missing from the masses raises KeyError |
| Pressure.HitImpulse | src/main/pressure.py:77-79 | the impulse squared is m^2 times the squared length of dv; it is non-negative for a non-negative mass and 0 when the velocity did not change |
| Pressure.AddHit | src/main/pressure.py:81-84 | "W" adds to the wall impulse, "O" to the obstacle impulse, anything else to neither |
| Pressure.ImpulsesBySide | src/main/pressure.py:64-84 | with non-negative masses both impulses are non-negative; without a "W" line the wall gets 0, and without an "O" line the obstacle gets 0 |
| Pressure.PressureOf | src/main/pressure.py:87-88 | 0 when the time does not advance; otherwise pressure * dt * circumference == impulse, raising on a zero circumference |
| Pressure.SeriesShape | src/main/pressure.py:52-94 | one entry per consecutive pair of events, stamped with the later time; 0 where time does not advance; never negative with non-negative data |
| Pressure.CalculatePressure | src/main/pressure.py:52-94 | the loop returns the specified pressure series |
| Pressure.PressureStep | src/main/pressure.py:61-92 | one turn computes the time and the two pressures of event i |
| Pressure.EventImpulses | src/main/pressure.py:64-84 | the loop over an event's collisions sums the impulses by side |
| AveragePressure.SampleOf | src/main/average_pressure.py:12 | a line gives (time, pressure) exactly when it holds two floats, and raises ValueError otherwise |
| AveragePressure.LateLines | src/main/average_pressure.py:11-14 | the indices of the lines at or after start_time, in increasing order, and no other |
| AveragePressure.KeptExactlyLate | src/main/average_pressure.py:11-14 | reading succeeds exactly when every line parses, keeping exactly the pressures of the late lines, in order |
| AveragePressure.Mean | src/main/average_pressure.py:17-20 | 0 for no samples, and otherwise mean * count == sum |
| AveragePressure.MeanBetween | src/main/average_pressure.py:17-18 | the mean of values between two bounds lies between them |
| AveragePressure.AverageWithinLateSamples | src/main/average_pressure.py:6-22 | 0 with no late line; otherwise the average lies within any bounds of the late pressures |
| AveragePressure.ReadPressureFile | src/main/average_pressure.py:6-22 | read_pressure_file returns the specified average |
| AveragePressure.CalculateTemperature | src/main/average_pressure.py:24-26 | the temperature is non-negative and zero exactly for v0 = 0 |
| AveragePressure.TemperatureOrdersSpeeds | src/main/average_pressure.py:24-26 | temperatures are ordered as the absolute speeds are |
| InitialConditions.RecordOf | src/main/java/ar/edu/itba/ss/animation.py:19-30 | a line parses exactly when it has seven floats (more raise ValueError); the id is the truncated first field |
| InitialConditions.ParticleLines | src/main/java/ar/edu/itba/ss/animation.py:17-20 | the indices from 2 on of the non-blank lines with at least seven fields, in order |
| InitialConditions.ParticlesAreKeptLines | src/main/java/ar/edu/itba/ss/animation.py:17-30 | reading succeeds exactly when every such line parses, giving one record per such line, in order |
| InitialConditions.ReadParticleLines | src/main/java/ar/edu/itba/ss/animation.py:17-30 | the loop returns the specified records |
| InitialConditions.ConditionsOf | src/main/java/ar/edu/itba/ss/animation.py:8-32 | the diameter and obstacle radius come from lines 0 and 1, and the particles from the rest |
| InitialConditions.ReadInitialConditions | src/main/java/ar/edu/itba/ss/animation.py:8-32 | read_initial_conditions returns the specified conditions |
| EventGroups.EntryOf | src/main/java/ar/edu/itba/ss/animation.py:55-73 | a state line is kept exactly when it has five fields with an int id and four floats; any other is skipped |
| EventGroups.EntriesAreFiveNumberLines | src/main/java/ar/edu/itba/ss/animation.py:54-73 | the entries of a block are exactly the parsed entries of its lines |
| EventGroups.StartIsStride | src/main/java/ar/edu/itba/ss/animation.py:44-74 | block s starts at line i + s (N + 1) |
| EventGroups.BlocksStride | src/main/java/ar/edu/itba/ss/animation.py:44-74 | block s is read from its stride position and lies within the file |
| EventGroups.MergeKeys | src/main/java/ar/edu/itba/ss/animation.py:49-50 | events_per_time has exactly the keys of the blocks, each once, in insertion order |
| EventGroups.MergeGathers | src/main/java/ar/edu/itba/ss/animation.py:49-71 | each key holds the entries of all blocks with that key, in block order |
| EventGroups.MergeFirstAppearance | src/main/java/ar/edu/itba/ss/animation.py:49-50 | keys are ordered by first appearance |
| EventGroups.Kept | src/main/java/ar/edu/itba/ss/animation.py:76-77 | the positions of the non-empty groups, in order, and no other |
| EventGroups.CollectKeepsNonEmpty | src/main/java/ar/edu/itba/ss/animation.py:76-81 | one group per non-empty key, in key order, with that key's entries and its time |
| EventGroups.MergedLog | src/main/java/ar/edu/itba/ss/animation.py:44-74 | every key of the order has a group |
| EventGroups.ReadSimulationEvents | src/main/java/ar/edu/itba/ss/animation.py:34-83 | read_simulation_events returns the specified groups |
| EventGroups.MergeBlocks | src/main/java/ar/edu/itba/ss/animation.py:44-74 | the while loop builds the merged dictionary |
| EventGroups.AddBlock | src/main/java/ar/edu/itba/ss/animation.py:45-74 | one turn merges one more block, or raises IndexError past the end |
| EventGroups.ReadStates | src/main/java/ar/edu/itba/ss/animation.py:54-73 | the for loop appends the entries of the N lines, or raises past the end |
| EventGroups.CollectGroups | src/main/java/ar/edu/itba/ss/animation.py:76-81 | the final loop returns the specified groups |
| EventGroups.GroupsAreMergedBlocks | src/main/java/ar/edu/itba/ss/animation.py:34-83 | each group is the time of some block's key with all the entries of the blocks with that key, and is not empty |
| Animation.Ramp | src/main/java/ar/edu/itba/ss/animation.py:123-124 | entry i is start + step * i |
| Animation.RampStep | src/main/java/ar/edu/itba/ss/animation.py:123-124 | one more turn appends the next entry |
| Animation.FrameTimes | src/main/java/ar/edu/itba/ss/animation.py:115-126 | raises IndexError without groups and ZeroDivisionError for k = 0 with two groups or more, and otherwise succeeds |
| Animation.BuildFrameTimes | src/main/java/ar/edu/itba/ss/animation.py:115-126 | the loops build the specified frame times |
| Animation.LeadFrames | src/main/java/ar/edu/itba/ss/animation.py:116-117 | the first loop builds the lead-in frames |
| Animation.AppendGap | src/main/java/ar/edu/itba/ss/animation.py:123-124 | the inner loop appends the gap's ramp |
| Animation.SegmentsLength | src/main/java/ar/edu/itba/ss/animation.py:119-124 | s gaps give s k frames |
| Animation.FrameCount | src/main/java/ar/edu/itba/ss/animation.py:113-126 | there are L k + 1 frame times and total_frames is k fewer, so every frame index asked for exists |
| Animation.SubFrame | src/main/java/ar/edu/itba/ss/animation.py:119-124 | frame (s + 1) k + i is i steps of (next - current) / k after event time s |
| Animation.EventTimesAppear | src/main/java/ar/edu/itba/ss/animation.py:115-126 | frames start at 0, frame (s + 1) k is event time s, and each gap is split into k equal steps |
| Animation.ReplayAll | src/main/java/ar/edu/itba/ss/animation.py:154-156 | every record is replayed through the group's events |
| Animation.DriftAll | src/main/java/ar/edu/itba/ss/animation.py:142-145 | every record drifts by its velocity times the delta |
| Animation.LastFor | src/main/java/ar/edu/itba/ss/animation.py:130-140 | the last event naming the id, or none when no event names it |
| Animation.LastEventWins | src/main/java/ar/edu/itba/ss/animation.py:130-140 | a replayed record takes the position and velocity of the last event for its id and is untouched without one |
| Animation.DriftComposes | src/main/java/ar/edu/itba/ss/animation.py:142-145 | two drifts are one drift over the summed time, and velocities do not change |
| Animation.ScanStopsAtFirstEvent | src/main/java/ar/edu/itba/ss/animation.py:152-161 | as written, a frame at any later event time stops the scan at index 0, replaying nothing (see Findings) |
| Animation.ScanMisses | src/main/java/ar/edu/itba/ss/animation.py:152-161 | the corrected scan changes nothing when no timestamp equals the frame time |
| Animation.ScanAppliesFrameGroup | src/main/java/ar/edu/itba/ss/animation.py:152-161 | the corrected scan replays exactly the group at the frame time and counts the groups up to it |
| Animation.ScanBetweenEvents | src/main/java/ar/edu/itba/ss/animation.py:150-161 | between event times the corrected scan leaves the records alone and the frame stays in-between |
| Animation.TimeDelta | src/main/java/ar/edu/itba/ss/animation.py:163-167 | the step from the previous frame, or frame_times[1] for the first frames, which must exist |
| Animation.UpdateAtAndBetweenEvents | src/main/java/ar/edu/itba/ss/animation.py:147-169 | with the corrected scan, a frame at an event time replays that group without drifting; a frame at no event time drifts every record by its time step |
| Animation.Animator.constructor | src/main/java/ar/edu/itba/ss/animation.py:113-128 | the closure's state: the records, the frame times and the groups |
| Animation.Animator.UpdateParticleVelocities | src/main/java/ar/edu/itba/ss/animation.py:130-134 | only records with the event's id take its velocity |
| Animation.Animator.UpdateParticlePositions | src/main/java/ar/edu/itba/ss/animation.py:136-140 | only records with the event's id take its position |
| Animation.Animator.UpdateParticlePositionsBetweenEvents | src/main/java/ar/edu/itba/ss/animation.py:142-145 | the records become DriftAll |
| Animation.Animator.ReplayGroup | src/main/java/ar/edu/itba/ss/animation.py:154-156 | the records become ReplayAll of the group |
| Animation.Animator.ScanTimestamps | src/main/java/ar/edu/itba/ss/animation.py:150-161 | the loop (corrected break test) leaves the records, is_in_between and collitions of the corrected scan |
| Animation.Animator.Update | src/main/java/ar/edu/itba/ss/animation.py:147-169 | update(frame) leaves the records and the count of UpdateOf, or raises IndexError |
| Snapshots.ShownOf | src/main/animation.py:53-55 | a particle line gives its x, y and the radius of particles[int(id)] exactly when it has five floats and the index is in range; otherwise ValueError or IndexError |
| Snapshots.ShownLinesAreEntries | src/main/animation.py:52-55 | the block's lines are read exactly when each parses, one entry per line, in order |
| Snapshots.SnapshotAt | src/main/animation.py:46-56 | a snapshot has the time line's value and one entry per line of the clamped slice, and fails exactly when one of them does |
| Snapshots.KeptStepsAreHundreds | src/main/animation.py:44-60 | the kept steps are consecutive multiples of 100, and no multiple of 100 within the file is missed |
| Snapshots.FramesAtKeptSteps | src/main/animation.py:45-60 | each snapshot is read from the block of a kept step |
| Snapshots.EveryHundredthBlock | src/main/animation.py:42-60 | snapshot j comes from block 100 j, and every block 0, 100, 200, ... within the file gives a snapshot |
| Snapshots.BlockLine | src/main/animation.py:43-59 | block s starts at line 1 + s (particle_count + 1) |
| Snapshots.ReadShown | src/main/animation.py:52-55 | the for loop reads the specified entries |
| Snapshots.ReadBlock | src/main/animation.py:46-60 | one turn of the while loop reads the block at a time line |
| Snapshots.ReadSnapshots | src/main/animation.py:42-60 | the while loop returns the specified snapshots |
| Snapshots.SceneOf | src/main/animation.py:16-60 | the board radius is half the diameter, the particles are those of the initial conditions, and the snapshots are those of the output file |
| Snapshots.ReadScene | src/main/animation.py:16-60 | the script's reading phase returns the specified scene |

## Definitions

The definitions below model source functions directly and carry no contract of their own. What the source promises about each is stated by the members named in the last column, which have rows above.

| definition | source | stated by |
|---|---|---|
| Vectors.Add | src/main/java/ar/edu/itba/ss/Vector2D.java:61-63 | Vectors.DotLaws, Vectors.SubtractIsAddNegated |
| Vectors.Subtract | src/main/java/ar/edu/itba/ss/Vector2D.java:65-67 | Vectors.SubtractIsAddNegated, Vectors.DotLaws, Vectors.Distance |
| Vectors.Scale | src/main/java/ar/edu/itba/ss/Vector2D.java:69-71 | Vectors.DotLaws, Vectors.NormalizedIsUnit |
| Vectors.Dot | src/main/java/ar/edu/itba/ss/Vector2D.java:73-75 | Vectors.DotLaws |
| Particles.Particle.Equals | src/main/java/ar/edu/itba/ss/Particle.java:78-82 | Particles.EqualsIsEquivalence |
| Particles.Particle.IsOverlapped | src/main/java/ar/edu/itba/ss/Particle.java:89-91 | Particles.OverlapLaws |
| Particles.CollideAsWritten | src/main/java/ar/edu/itba/ss/Particle.java:70-74 | Particles.AsWrittenConservesMomentum, Particles.AsWrittenGainsEnergy |
| Particles.CollideElastic | src/main/java/ar/edu/itba/ss/Particle.java:64-75 | Particles.ElasticConservesMomentum, Particles.ElasticActsAlongNormal, Particles.ElasticAtContact, Particles.Particle.CollideWithParticle |
| Collisions.Collision.Equals | src/main/java/ar/edu/itba/ss/Collision.java:62-66 | Collisions.EqualsIsEquivalence |
| Quadratics.WallQuadratic | src/main/java/ar/edu/itba/ss/Board.java:35-37 | Quadratics.WallQuadraticMeaning, Quadratics.WallTime |
| Quadratics.ObstacleQuadratic | src/main/java/ar/edu/itba/ss/Board.java:65-67 | Quadratics.ObstacleQuadraticMeaning, Quadratics.ObstacleTime |
| Quadratics.PairQuadratic | src/main/java/ar/edu/itba/ss/Board.java:92-102 | Quadratics.PairQuadraticMeaning, Quadratics.PairTime |
| Boards.Search | src/main/java/ar/edu/itba/ss/Board.java:127-169 | Boards.SearchFailsWhenNothingAhead, Boards.SearchIsEarliest, Boards.SearchFindsOne, Boards.SearchGathersSimultaneous, Boards.SearchMissesNone, Boards.SelectNext |
| ObstacleCounts.Scan | src/collision_count.py:16-31 | ObstacleCounts.ScanKeepsShape, ObstacleCounts.ScanBlocks, ObstacleCounts.ScanLog |
| ObstacleCounts.ObstacleSamples | src/collision_count.py:4-64 | ObstacleCounts.SamplesShape, ObstacleCounts.ReadFirstTimeObstacleCollisions, ObstacleCounts.ReadIndependentObstacleCollisions |
| Pressure.Masses | src/main/pressure.py:12-16 | Pressure.LastLineWins, Pressure.ReadParticlesFile |
| Pressure.Events | src/main/pressure.py:27-48 | Pressure.EventsAreBlocks, Pressure.EventsFromTimeLines, Pressure.ReadOutputFile |
| Pressure.PressureSeries | src/main/pressure.py:52-94 | Pressure.SeriesShape, Pressure.CalculatePressure, Pressure.PressureStep |
| EventGroups.Merge | src/main/java/ar/edu/itba/ss/animation.py:44-74 | EventGroups.MergeKeys, EventGroups.MergeGathers, EventGroups.MergeFirstAppearance, EventGroups.MergeBlocks |
| EventGroups.Collect | src/main/java/ar/edu/itba/ss/animation.py:76-81 | EventGroups.CollectKeepsNonEmpty, EventGroups.CollectGroups |
| EventGroups.SimulationEvents | src/main/java/ar/edu/itba/ss/animation.py:34-83 | EventGroups.GroupsAreMergedBlocks, EventGroups.ReadSimulationEvents |
| Animation.Scan | src/main/java/ar/edu/itba/ss/animation.py:150-161 | Animation.ScanStopsAtFirstEvent, Animation.ScanMisses, Animation.ScanAppliesFrameGroup, Animation.ScanBetweenEvents, Animation.Animator.ScanTimestamps |
| Animation.UpdateOf | src/main/java/ar/edu/itba/ss/animation.py:147-169 | Animation.UpdateAtAndBetweenEvents, Animation.Animator.Update |
| Snapshots.Steps | src/main/animation.py:45-60 | Snapshots.KeptStepsAreHundreds, Snapshots.FramesAtKeptSteps, Snapshots.EveryHundredthBlock, Snapshots.ReadSnapshots |
| Snapshots.Scene (datatype) | src/main/animation.py:16-60 | Snapshots.SceneOf, Snapshots.ReadScene |

## Left out

- Floating point: doubles are real numbers. Binary rounding, overflow, infinities and NaN are not modelled. `%f` is modelled as rounding the exact value half-up to six decimals (Formatting.FixedSix). Java picks its digits from the shortest decimal representation of the double before it rounds, and that step is not modelled.
- `Math.sqrt` and `** 0.5` are not computed: they are a parameter that is assumed to return a non-negative square root.
- Reading a file and `split()` are not modelled. A line is given already split into tokens, each carrying its `int()`/`float()` value.
- A negative particle or collision count in a log makes the scripts index from the end of the list, and possibly loop forever. Where that would move a loop backwards or nowhere, the model stops with a `NegativeCount` error.
- Particles.Particle.CollideWithParticle: requires non-zero masses, a non-zero mass sum and a non-zero radius sum. Java's division by zero gives infinities or NaN, which the real-number model cannot represent. Collisions.Collision.Execute inherits this requirement.
- Particles.Particle.CollideWithParticle: uses the corrected impulse sign. The source's sign is modelled separately by Particles.AsWrittenGainsEnergy (see Findings).
- Collisions.Collision.Execute: a pair collision applies the corrected impulse sign, through Particles.Particle.CollideWithParticle. As written, `execute` gives the velocities of Particles.CollideAsWritten, which gain energy (see Findings).
- `Particle.update` does not exist in `Particle`. `Board` calls it on every particle and it is read as `move`.
- `Particle.bounceOffWall`, `bounceOffObstacle` and `bounceOffParticle` do not exist either, nor do the `withWall`/`withObstacle` fields that `Board` reads. Boards.Board.ToNextCollisionTime therefore takes the bounce as a parameter and applies it to each collision in order.
- Boards.Board.ToNextCollisionTime: the collision times are computed once per call as a table. The Java code computes them inside its loops, which gives the same values because the solvers are pure.
- The iteration order of the particle `HashSet` is taken to be the order of the particle sequence.
- `Collision.hashCode` (`Objects.hash`) is not modelled, and neither are `Vector2D.hashCode`, `Vector2D.toString`, `Board.toString` or the getters and setters.
- `Vector2D.fromPolar` and `Vector2D.angle` are not modelled: they need trigonometry.
- Vectors.Vector2D.Normalized and Particles.BouncedVelocity: normalizing fails exactly for the zero vector. The Java code tests the computed magnitude, which is zero for the same vectors.
- `ParticleGenerator.java` and `Simulation.java` are not part of this model.
- Plotting is left out: matplotlib figures, `scatter_collisions`, the pressure plots, writing pressure files, the animation's circles and text label, `FuncAnimation`, and the snapshot script's `update` closure.
- Animation.Animator.Update: uses the corrected timestamp scan. The scan as written is Animation.ScanStopsAtFirstEvent (see Findings).
- Animation.Animator.ScanTimestamps: the corrected scan breaks when `g.time > currentTime`. animation.py line 159 breaks when `current_time > event_time`, and that scan is Animation.ScanStopsAtFirstEvent (see Findings).
- Animation.UpdateAtAndBetweenEvents: is stated for the corrected scan. As written, a frame at the time of any event group after the first replays nothing (Animation.ScanStopsAtFirstEvent).
- The time-line test of `pressure.py` (`str.isdigit` after dropping the first dot) is modelled as accepting ASCII digits only. Python's `isdigit` also accepts other Unicode digits, such as superscripts and Arabic-Indic digits.
- Animation.Animator.Update: returns the collitions count where the script would draw it, and does not return the redrawn artists.
- Snapshots.SceneOf: errors from the two files share one error type, so an error does not say which file raised it.

## Findings

| source | as written | input that shows it | evidently intended | confidence | as-written member | corrected member |
|---|---|---|---|---|---|---|
| src/main/java/ar/edu/itba/ss/Particle.java:70-74 | the impulse J (deltaR = a - b) is added to a and subtracted from b | a at (0,0) with v = (1,0), b at (1,0) at rest, radii 0.5, masses 1: the result is va = (2,0), vb = (-1,0), and the kinetic energy goes from 0.5 to 2.5 (the sum of m v^2 from 1 to 5) | va - J/m, vb + J/m', which gives va = (0,0), vb = (1,0) and conserves energy | not executed; high (energy provably grows at every contact with dR.dV != 0) | Particles.AsWrittenGainsEnergy | Particles.ElasticAtContact |
| src/collision_count.py:54-59 | counter is incremented first, then counter + 1 is recorded | 20 obstacle collisions: the recorded count is 21 | record the number of the collision counted: 20, 40, ... | not executed; medium | ObstacleCounts.IndependentLabelsOneAhead | ObstacleCounts.IndependentFixedLabelsCollision |
| src/collision_count.py:23-28 | only sampled particles are added to the exclusion list | collision lines "5 O", "7 O", "7 O": the counter reaches 3 with two particles | each particle counted once, at its first obstacle collision | not executed; medium | ObstacleCounts.FirstContactRecounts | ObstacleCounts.FirstContactFixedCountsParticles |
| src/main/java/ar/edu/itba/ss/animation.py:159-161 | the loop breaks at the first event time below the frame time | groups at 1.0, 2.0 and 3.0 with min_frames_per_event = 1: frame_times is [0, 1, 2, 3], and update(2) breaks at index 0, so the group at 2.0 is never replayed | break at the first event time above the frame time, after replaying the group at the frame time | not executed; high | Animation.ScanStopsAtFirstEvent | Animation.ScanAppliesFrameGroup |
