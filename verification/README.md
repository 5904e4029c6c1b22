# Geometry kernel and bouncing-box step of a Rust ray tracer

This project models two parts of a small Rust ray tracer in Dafny.

The first is its geometry kernel (`src/tuple.rs`). It has three value types:
an affine `Point`, a free `Vector` and a dimensionless `Scalar`. It defines the
closed set of operators between them:

- Vector ± Vector, -Vector, Vector += Vector;
- Point + Vector, Point += Vector, Point - Vector, Point - Point;
- Vector * Scalar, Vector / Scalar;
- magnitude, normalize, dot and cross;
- the ordering of Scalars.

The second is the simulation step of the demo program (`src/main.rs`). A
projectile has a position and a velocity. It moves under a constant
environment (gravity plus wind) inside a 320 x 240 frame. Each tick:

- damps and reverses the velocity at the left/right and top/bottom edges, as
  two independent tests;
- clamps a velocity slower than one unit per second to exactly zero, and
  otherwise accelerates it by (gravity + wind) * dt;
- moves the position by the new velocity times dt.

The modules are:

- `Tuple` (`tuple.dfy`): the three types and every operator.
- `TupleLaws` (`tuple_laws.dfy`): the algebra that relates the operators, and
  one lemma for each unit test in the source, except `normalizing_vector`.
  That test became two lemmas, and its (4,0,0) case is generalised to every
  positive multiple (a,0,0) of the x axis (`NormalizingAxisVector`).
- `Simulation` (`simulation.dfy`): `Projectile`, `Environment`, `World`, the
  starting world, one tick, and a run of ticks (the event loop's effect on the
  world).
- `SimulationLaws` (`simulation_laws.dfy`): a componentwise reference tick that the
  tick is proved equal to, the bounce cases, and the rest clamp stated through
  the magnitude. It also proves that a box at rest (zero velocity) stays at rest over
  any run, that motion in the z = 0 plane stays planar, and the demo's concrete
  scenarios.

Coordinates are exact reals. Dafny has no square root, so a magnitude is a
relation, `IsMagnitude(v, m)`: m is non-negative and m * m = v . v.
`Normalize` takes that magnitude as an argument. The rest clamp compares the
squared magnitude with 1. `TupleLaws.MagnitudeBelow` proves this is the same as
comparing the magnitude with 1.

The rest clamp ignores position. `SimulationLaws.StopsInMidAir` shows that a
slow box at the top of a climb freezes in mid-air for good: once the velocity
is exactly zero, no later tick changes the world
(`SimulationLaws.RestingIsTerminal`).

## Model

| member | source | states |
|---|---|---|
| Tuple.Less | src/tuple.rs:28-32 | no contract of its own; Scalars compare by their wrapped values, and its laws are in TupleLaws.ScalarOrder |
| Tuple.Add | src/tuple.rs:56-90 | no contract of its own; the owned, by-reference and mixed forms are one function, and its laws are in TupleLaws.AddGroup and Tuple.Sub |
| Tuple.PointPlusVector | src/tuple.rs:100-110 | no contract of its own; its laws are in TupleLaws.PointVectorRoundTrip, TupleLaws.PointDifference and TupleLaws.TranslateAdditive |
| Tuple.Mul | src/tuple.rs:169-191 | no contract of its own; both forms are one function, and its laws are in Tuple.Div, TupleLaws.ScaleThenDivide, TupleLaws.ScaleLinear and TupleLaws.ScaleCompose |
| Tuple.Dot | src/tuple.rs:219-221 | no contract of its own; its laws are in TupleLaws.DotLaws, Tuple.MagnitudeSquared and Tuple.Cross |
| Tuple.AddAssign | src/tuple.rs:92-98 | vector `+=`, done one field at a time, gives the vector sum, and subtracting the right operand again restores the left |
| Tuple.Sub | src/tuple.rs:144-154 | the difference a - b is the vector that, added to b on either side, gives back a |
| Tuple.Neg | src/tuple.rs:156-167 | negation is the additive inverse: v + (-v) and (-v) + v are the zero vector |
| Tuple.PointAddAssign | src/tuple.rs:112-118 | point `+=` translates the point by the vector, and the displacement from the old to the new point is that vector |
| Tuple.PointMinusPoint | src/tuple.rs:120-130 | p - q is the displacement that carries q to p |
| Tuple.PointMinusVector | src/tuple.rs:132-142 | (p - v) + v is p, and p - v is p translated by -v |
| Tuple.Div | src/tuple.rs:193-203 | dividing by a nonzero Scalar is undone by multiplying by it |
| Tuple.Cross | src/tuple.rs:223-229 | the cross product is orthogonal to both operands |
| Tuple.MagnitudeSquared | src/tuple.rs:206-208 | the radicand of the magnitude is never negative and equals v . v |
| Tuple.MagnitudeSquaredZero | src/tuple.rs:206-208 | the radicand of the magnitude is zero exactly for the zero vector |
| Tuple.IsMagnitude | src/tuple.rs:206-208 | m is the magnitude of v: non-negative, and its square is v . v; TupleLaws.MagnitudeUnique proves it unique |
| Tuple.Normalize | src/tuple.rs:210-217 | the normalized vector has magnitude one, and scaling it by the magnitude gives back the original |
| Tuple.UnitAfterScale | src/tuple.rs:210-217 | a vector that, scaled by the magnitude of v, gives v has squared magnitude one |
| TupleLaws.ScalarOrder | src/tuple.rs:28-32 | Scalars compare by their values: irreflexive, transitive and total |
| TupleLaws.AddGroup | src/tuple.rs:56-90 | vector addition is commutative and associative, has the zero vector as identity, and a - b is a + (-b) |
| TupleLaws.NegIsZeroMinus | src/tuple.rs:157-167 | -v is 0 - v, and negating twice gives v back |
| TupleLaws.PointVectorRoundTrip | src/tuple.rs:100-142 | adding a vector to a point and then subtracting it, in either order, gives the point back |
| TupleLaws.PointDifference | src/tuple.rs:120-130 | q + v = p exactly when v = p - q, and q - p = -(p - q) |
| TupleLaws.TranslateAdditive | src/tuple.rs:100-110 | translating by u and then by v is translating by u + v, and translating by zero changes nothing |
| TupleLaws.ScaleThenDivide | src/tuple.rs:169-203 | multiplying and dividing by the same nonzero Scalar cancel, and scaling by 0.5 is dividing by 2 |
| TupleLaws.ScaleLinear | src/tuple.rs:169-191 | scaling distributes over vector addition, and scaling by zero or scaling the zero vector gives zero |
| TupleLaws.ScaleCompose | src/tuple.rs:169-191 | scaling by s and then by t is scaling by s * t |
| TupleLaws.DotLaws | src/tuple.rs:219-221 | the dot product is symmetric, and v . v is the squared magnitude, never negative |
| TupleLaws.CrossAnticommutative | src/tuple.rs:223-229 | a x b = -(b x a), and a x a = 0 |
| TupleLaws.MagnitudeUnique | src/tuple.rs:206-208 | a vector has at most one magnitude, and it is zero exactly for the zero vector |
| TupleLaws.MagnitudeBelow | src/tuple.rs:205-208 | a magnitude is below a non-negative bound exactly when v . v is below the bound squared; for the bound 1 the two tests agree |
| TupleLaws.NormalizeIdempotent | src/tuple.rs:210-217 | normalizing a normalized vector leaves it unchanged |
| TupleLaws.AddingPointAndVector | src/tuple.rs:237-258 | (3,-2,5) + (-2,3,1) = (1,1,6) |
| TupleLaws.SubtractingTwoPoints | src/tuple.rs:260-281 | (3,2,1) - (5,6,7) = vector (-2,-4,-6) |
| TupleLaws.SubtractingVectorFromPoint | src/tuple.rs:283-304 | point (3,2,1) - vector (5,6,7) = point (-2,-4,-6) |
| TupleLaws.SubtractingTwoVectors | src/tuple.rs:306-327 | vector (3,2,1) - vector (5,6,7) = (-2,-4,-6) |
| TupleLaws.SubtractingFromZeroVector | src/tuple.rs:329-350 | 0 - (1,-2,3) = (-1,2,-3) |
| TupleLaws.NegatingVector | src/tuple.rs:352-368 | -(1,-2,3) = (-1,2,-3) |
| TupleLaws.MultiplyingByScalar | src/tuple.rs:370-385 | (1,-2,3) * 3.5 = (3.5,-7,10.5) |
| TupleLaws.MultiplyingByFraction | src/tuple.rs:387-402 | (1,-2,3) * 0.5 = (0.5,-1,1.5) |
| TupleLaws.DividingByScalar | src/tuple.rs:404-419 | (1,-2,3) / 2 = (0.5,-1,1.5) |
| TupleLaws.ComputingMagnitude | src/tuple.rs:421-457 | the unit axes have magnitude 1; the magnitude of (1,2,3) squares to 14 and is also the magnitude of (-1,-2,-3) |
| TupleLaws.NormalizingAxisVector | src/tuple.rs:459-473 | a positive multiple of the x axis, such as (4,0,0), normalizes to (1,0,0) |
| TupleLaws.NormalizingVector | src/tuple.rs:474-490 | (1,2,3) normalizes to (1,2,3) divided by its magnitude (the square root of 14), and the result has magnitude one |
| TupleLaws.DotProduct | src/tuple.rs:492-505 | (1,2,3) . (2,3,4) = 20 |
| TupleLaws.CrossProduct | src/tuple.rs:507-535 | (1,2,3) x (2,3,4) = (-1,2,-1), and the reverse order gives (1,-2,1) |
| Simulation.NewWorld | src/main.rs:96-125 | no contract of its own; SimulationLaws.NewWorldIsPlanar and SimulationLaws.FirstSecondOfNewWorld state what it starts |
| Simulation.BounceHorizontal | src/main.rs:130-134 | no contract of its own; SimulationLaws.BounceScalesAxes, SimulationLaws.BounceNeverSpeedsUp and SimulationLaws.CornerBounceCompounds state its effect |
| Simulation.BounceVertical | src/main.rs:135-139 | no contract of its own; SimulationLaws.BounceScalesAxes, SimulationLaws.BounceNeverSpeedsUp and SimulationLaws.CornerBounceCompounds state its effect |
| Simulation.BelowRestSpeed | src/main.rs:141 | no contract of its own; TupleLaws.MagnitudeBelow and SimulationLaws.RestClampByMagnitude show it equals magnitude < 1 |
| Simulation.ClampOrAccelerate | src/main.rs:141-149 | no contract of its own; SimulationLaws.ClampComponents and SimulationLaws.RestClampByMagnitude state both branches |
| Simulation.Tick | src/main.rs:127-151 | a tick never changes the environment; a projectile with zero velocity is left exactly as it is; a tick of zero length does not move the position |
| Simulation.RestingStaysPut | src/main.rs:130-150 | zero velocity passes both bounce tests and the rest clamp unchanged and then moves the position by nothing |
| Simulation.NoTimeNoMove | src/main.rs:150 | moving by any velocity for zero seconds leaves the position where it is |
| Simulation.Simulate | src/main.rs:86-90 | a run of ticks never changes gravity or wind |
| SimulationLaws.BounceScalesAxes | src/main.rs:130-139 | the two edge tests scale the x velocity by (-0.8 at the left/right edge) times (0.8 at the top/bottom edge) and the y velocity by 0.8 times -0.8 in the same way; z is untouched |
| SimulationLaws.ClampComponents | src/main.rs:141-149 | below speed one (x*x + y*y + z*z < 1) the velocity becomes exactly zero; otherwise each component gains (gravity + wind) * dt |
| SimulationLaws.TickStages | src/main.rs:128-151 | the tick's new position is the old one plus the new velocity times dt, whether or not the clamp fired |
| SimulationLaws.TickMatchesReference | src/main.rs:128-151 | for every world and every dt >= 0 the tick equals a reference tick written on plain reals, with edge limits 312 and 232 |
| SimulationLaws.CornerBounceCompounds | src/main.rs:130-139 | in a corner both tests fire, and the x and y velocities are each scaled by -0.64 |
| SimulationLaws.BounceNeverSpeedsUp | src/main.rs:130-139 | each bounce stage only damps: the squared speed after it is never above the squared speed before it |
| SimulationLaws.NoBounceInside | src/main.rs:130-139 | away from every edge the bounce tests leave the velocity unchanged |
| SimulationLaws.RestClampByMagnitude | src/main.rs:141-150 | given the magnitude of the bounced velocity: below one, the projectile stops exactly and stays in place; otherwise its velocity becomes bounced + (gravity + wind) * dt; in both cases the position moves by the new velocity times dt |
| SimulationLaws.SimulateAppend | src/main.rs:86-90 | running two stretches of ticks in turn is the same as running their concatenation |
| SimulationLaws.StopsInMidAir | src/main.rs:141-150 | the clamp ignores position: a slow box in the middle of the frame stops in mid-air, and no later run moves it |
| SimulationLaws.RestingIsTerminal | src/main.rs:128-151 | once the velocity is exactly zero, no run of ticks of any lengths changes the world |
| SimulationLaws.TickKeepsPlanar | src/main.rs:128-151 | if position, velocity, gravity and wind have no z component, neither does anything after one tick |
| SimulationLaws.PlanarForever | src/main.rs:86-90 | a planar world stays planar over any run |
| SimulationLaws.NewWorldIsPlanar | src/main.rs:96-125 | the starting world is planar and moving, and stays planar over any run |
| SimulationLaws.FirstSecondOfNewWorld | src/main.rs:96-151 | one second from the starting world the box is at (159,110) moving at (149,10) |
| SimulationLaws.DampedIntoRest | src/main.rs:130-150 | a box at the left edge moving at (1,0.5) bounces to (-0.8,0.4), whose speed is below one, and stops there for good |

## Left out

- The window, the `pixels` surface, input handling and the event loop itself (src/main.rs:37-94) are I/O. Their effect on the world is modelled by `Simulation.Simulate`, one tick per elapsed time.
- `World::draw` (src/main.rs:156-174) only paints the frame buffer and changes no state.
- The `SCALE` window constant is not modelled either.
- `SystemTime` and `Duration::as_secs_f64` are left out. Elapsed times are parameters, non-negative because a `Duration` is.
- f64 rounding, NaN and infinities are not modelled: coordinates are exact reals.
- The `PartialEq` impls compare with `relative_eq!` (src/tuple.rs:34-54). The model uses exact equality, so every test-case lemma states an exact result.
- `Scalar::new` and the `Debug`/`Clone`/`Copy` derives are not modelled separately. The datatype constructor `Scalar(value)` stands in for `Scalar::new`.
- The owned, by-reference and mixed forms of `Add` and `Mul` are one function each. On immutable values they cannot differ.
- Tuple.Div: the source divides by a zero Scalar and yields infinities or NaN. The model requires a nonzero divisor.
- Tuple.Normalize: Dafny has no square root, so the caller supplies the magnitude, and the model proves it unique and fixed by the vector. The zero vector, whose normalization is NaN in the source, is excluded.
- A magnitude is not returned by a function. It is the relation `IsMagnitude` together with `Tuple.MagnitudeSquared`, and so a Scalar whose existence the model does not prove.
- Simulation.Tick: the edge limits are computed by unsigned 32-bit subtraction in the source. 8 is below both 320 and 240, so this never wraps, and the model uses unbounded naturals.
- The open question in the source comment about a fourth (w) component is not modelled, because the types have no such component.

