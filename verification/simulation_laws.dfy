/** Properties of the simulation step: a componentwise reference for one
    tick, the meaning of the rest clamp in terms of the magnitude, the
    terminal resting state, planar motion, and the source's own scenario. */
module SimulationLaws {
  import opened Tuple
  import opened TupleLaws
  import opened Simulation

  // ---------------------------------------------------------------------
  // A componentwise reference for one tick

  /** The factor by which the two bounce stages scale each axis: each edge
      test contributes a reversal (-0.8) on its own axis and a damping (0.8)
      on the other, and the two tests compound. */
  function FactorX(position: Point): real {
    (if position.x <= 0.0 || position.x >= 312.0 then -0.8 else 1.0)
    * (if position.y <= 0.0 || position.y >= 232.0 then 0.8 else 1.0)
  }

  function FactorY(position: Point): real {
    (if position.x <= 0.0 || position.x >= 312.0 then 0.8 else 1.0)
    * (if position.y <= 0.0 || position.y >= 232.0 then -0.8 else 1.0)
  }

  /** The rest test on the three components of a velocity. */
  predicate SlowerThanOne(x: real, y: real, z: real) {
    x * x + y * y + z * z < 1.0
  }

  /** Both bounce stages, on components. */
  function ReferenceBounce(position: Point, v: Vector): Vector {
    Vector(FactorX(position) * v.x, FactorY(position) * v.y, v.z)
  }

  /** The rest clamp and the acceleration by gravity plus wind, on
      components. */
  function ReferenceVelocity(b: Vector, env: Environment, dt: real): Vector {
    if SlowerThanOne(b.x, b.y, b.z) then Vector(0.0, 0.0, 0.0)
    else Vector(b.x + (env.gravity.x + env.wind.x) * dt,
                b.y + (env.gravity.y + env.wind.y) * dt,
                b.z + (env.gravity.z + env.wind.z) * dt)
  }

  /** The move by velocity times dt, on components. */
  function ReferenceMove(p: Point, v: Vector, dt: real): Point {
    Point(p.x + v.x * dt, p.y + v.y * dt, p.z + v.z * dt)
  }

  /** One tick written out on plain reals, with the edge limits as
      literals and the rest test as x*x + y*y + z*z < 1. */
  function ReferenceTick(w: World, dt: real): World {
    var v := ReferenceVelocity(ReferenceBounce(w.proj.position, w.proj.velocity), w.env, dt);
    World(Projectile(ReferenceMove(w.proj.position, v, dt), v), w.env)
  }

  /** The two bounce stages scale the horizontal and vertical velocity by
      FactorX and FactorY and leave the depth velocity alone. */
  lemma BounceScalesAxes(position: Point, v: Vector)
    ensures BounceVertical(position, BounceHorizontal(position, v))
         == ReferenceBounce(position, v)
  {
  }

  /** The rest clamp and the acceleration stage, on components. */
  lemma ClampComponents(b: Vector, env: Environment, dt: real)
    ensures ClampOrAccelerate(b, env, dt) == ReferenceVelocity(b, env, dt)
  {
    assert MagnitudeSquared(b) == b.x * b.x + b.y * b.y + b.z * b.z;
    assert BelowRestSpeed(b) == SlowerThanOne(b.x, b.y, b.z);
    if !BelowRestSpeed(b) {
      var a := Mul(Add(env.gravity, env.wind), Scalar(dt));
      assert AddAssign(b, a) == Vector(b.x + a.x, b.y + a.y, b.z + a.z);
    }
  }

  /** The tick is the composition of its stages. */
  lemma TickStages(w: World, dt: real)
    requires dt >= 0.0
    ensures var p := w.proj.position;
            var v := ClampOrAccelerate(BounceVertical(p, BounceHorizontal(p, w.proj.velocity)), w.env, dt);
            Tick(w, dt) == World(Projectile(ReferenceMove(p, v, dt), v), w.env)
  {
  }

  /** The tick is the reference tick, for every world and duration. */
  lemma TickMatchesReference(w: World, dt: real)
    requires dt >= 0.0
    ensures Tick(w, dt) == ReferenceTick(w, dt)
  {
    var p := w.proj.position;
    var b := BounceVertical(p, BounceHorizontal(p, w.proj.velocity));
    BounceScalesAxes(p, w.proj.velocity);
    ClampComponents(b, w.env, dt);
    TickStages(w, dt);
  }

  /** A box in a corner is reversed and damped on both axes in one tick:
      each of the horizontal and vertical velocities is scaled by -0.64. */
  lemma CornerBounceCompounds(position: Point, v: Vector)
    requires AtHorizontalEdge(position) && AtVerticalEdge(position)
    ensures BounceVertical(position, BounceHorizontal(position, v))
         == Vector(-0.64 * v.x, -0.64 * v.y, v.z)
  {
    BounceScalesAxes(position, v);
  }

  /** Each bounce stage only damps: the speed after it is never above the
      speed before it. */
  lemma BounceNeverSpeedsUp(position: Point, v: Vector)
    ensures MagnitudeSquared(BounceHorizontal(position, v)) <= MagnitudeSquared(v)
    ensures MagnitudeSquared(BounceVertical(position, v)) <= MagnitudeSquared(v)
  {
    DampedSquare(v.x, -0.8);
    DampedSquare(v.y, 0.8);
    DampedSquare(v.x, 0.8);
    DampedSquare(v.y, -0.8);
  }

  /** Scaling by a factor of size at most one never enlarges a square. */
  lemma DampedSquare(a: real, k: real)
    requires Sq(k) <= 1.0
    ensures Sq(a * k) <= Sq(a)
  {
    ScaleSquare(a, k);
    SquareFacts(a);
    MulAtMost(Sq(a), Sq(k), 1.0);
  }

  /** Away from every edge the bounce stages change nothing. */
  lemma NoBounceInside(position: Point, v: Vector)
    requires !AtHorizontalEdge(position) && !AtVerticalEdge(position)
    ensures BounceVertical(position, BounceHorizontal(position, v)) == v
  {
  }

  // ---------------------------------------------------------------------
  // The rest clamp and the integration step

  /** Given the magnitude `m` of the bounced velocity: below one, the tick
      stops the projectile exactly and leaves its position alone; otherwise
      the velocity gains (gravity + wind) * dt, and in both cases the
      position moves by the new velocity times dt. */
  lemma RestClampByMagnitude(w: World, dt: real, m: Scalar)
    requires dt >= 0.0
    requires IsMagnitude(BounceVertical(w.proj.position,
               BounceHorizontal(w.proj.position, w.proj.velocity)), m)
    ensures var bounced := BounceVertical(w.proj.position,
              BounceHorizontal(w.proj.position, w.proj.velocity));
            var w' := Tick(w, dt);
            && (Less(m, Scalar(1.0)) ==>
                  w'.proj.velocity == Zero && w'.proj.position == w.proj.position)
            && (!Less(m, Scalar(1.0)) ==>
                  w'.proj.velocity == Add(bounced, Mul(Add(w.env.gravity, w.env.wind), Scalar(dt))))
            && w'.proj.position == PointPlusVector(w.proj.position, Mul(w'.proj.velocity, Scalar(dt)))
  {
    var bounced := BounceVertical(w.proj.position,
                     BounceHorizontal(w.proj.position, w.proj.velocity));
    MagnitudeBelow(bounced, m, 1.0);
    MoveByZero(w.proj.position, dt);
  }

  // ---------------------------------------------------------------------
  // Runs of many ticks

  /** Running two stretches of ticks one after the other is running their
      concatenation. */
  lemma {:induction false} SimulateAppend(w: World, first: seq<real>, second: seq<real>)
    requires NonNegative(first) && NonNegative(second)
    ensures NonNegative(first + second)
    ensures Simulate(w, first + second) == Simulate(Simulate(w, first), second)
    decreases |first|
  {
    if |first| == 0 {
      assert first + second == second;
    } else {
      assert (first + second)[0] == first[0];
      assert (first + second)[1..] == first[1..] + second;
      SimulateAppend(Tick(w, first[0]), first[1..], second);
    }
  }

  /** Rest is terminal: once the velocity is exactly zero, no run of
      ticks, of any durations, moves the projectile or gives it speed. */
  lemma {:induction false} RestingIsTerminal(w: World, dts: seq<real>)
    requires NonNegative(dts) && Resting(w.proj)
    ensures Simulate(w, dts) == w
    decreases |dts|
  {
    if |dts| > 0 {
      var rest := dts[1..];
      assert NonNegative(rest);
      assert Tick(w, dts[0]) == w;
      assert Simulate(w, dts) == Simulate(w, rest);
      RestingIsTerminal(w, rest);
    }
  }

  /** Motion confined to the z = 0 plane: position and velocity have no
      depth component and neither do gravity and wind. */
  predicate Planar(w: World) {
    && w.proj.position.z == 0.0
    && w.proj.velocity.z == 0.0
    && w.env.gravity.z == 0.0
    && w.env.wind.z == 0.0
  }

  lemma TickKeepsPlanar(w: World, dt: real)
    requires dt >= 0.0 && Planar(w)
    ensures Planar(Tick(w, dt))
  {
    TickMatchesReference(w, dt);
  }

  /** A planar world stays planar for any run of ticks. */
  lemma {:induction false} PlanarForever(w: World, dts: seq<real>)
    requires NonNegative(dts) && Planar(w)
    ensures Planar(Simulate(w, dts))
    decreases |dts|
  {
    if |dts| > 0 {
      TickKeepsPlanar(w, dts[0]);
      PlanarForever(Tick(w, dts[0]), dts[1..]);
    }
  }

  // ---------------------------------------------------------------------
  // Scenarios

  /** The starting world is planar and moving, so it stays in the plane
      for every run. */
  lemma NewWorldIsPlanar(dts: seq<real>)
    requires NonNegative(dts)
    ensures Planar(NewWorld()) && !Resting(NewWorld().proj)
    ensures Planar(Simulate(NewWorld(), dts))
  {
    PlanarForever(NewWorld(), dts);
  }

  /** One second from the starting world: no edge is touched, the speed
      is far above one, so the velocity (150, -90) gains (-1, 100) and the
      position (10, 100) moves by the new velocity (149, 10). */
  lemma FirstSecondOfNewWorld()
    ensures Tick(NewWorld(), 1.0).proj == Projectile(Point(159.0, 110.0, 0.0), Vector(149.0, 10.0, 0.0))
  {
    var w := NewWorld();
    var b := Vector(150.0, -90.0, 0.0);
    NoBounceInside(w.proj.position, w.proj.velocity);
    assert !SlowerThanOne(150.0, -90.0, 0.0);
    ClampComponents(b, w.env, 1.0);
    assert ClampOrAccelerate(b, w.env, 1.0) == Vector(149.0, 10.0, 0.0);
    TickStages(w, 1.0);
  }

  /** The rest clamp does not ask where the box is: a slow box in the
      middle of the frame, here at the top of a climb, stops in mid-air and
      gravity never moves it again. */
  lemma StopsInMidAir(dt: real, later: seq<real>)
    requires dt >= 0.0 && NonNegative(later)
    ensures var w := World(Projectile(Point(100.0, 100.0, 0.0), Vector(0.0, -0.5, 0.0)), NewWorld().env);
            && Tick(w, dt).proj == Projectile(Point(100.0, 100.0, 0.0), Zero)
            && Simulate(Tick(w, dt), later) == Tick(w, dt)
  {
    var w := World(Projectile(Point(100.0, 100.0, 0.0), Vector(0.0, -0.5, 0.0)), NewWorld().env);
    NoBounceInside(w.proj.position, w.proj.velocity);
    assert SlowerThanOne(0.0, -0.5, 0.0);
    ClampComponents(w.proj.velocity, w.env, dt);
    TickStages(w, dt);
    RestingIsTerminal(Tick(w, dt), later);
  }

  /** A slow box at the left edge: the bounce leaves the velocity
      (-0.8, 0.4, 0), whose squared magnitude 0.8 is below one, so the box
      stops where it is and stays there for every later run. */
  lemma DampedIntoRest(dt: real, later: seq<real>)
    requires dt >= 0.0 && NonNegative(later)
    ensures var w := World(Projectile(Point(0.0, 100.0, 0.0), Vector(1.0, 0.5, 0.0)), NewWorld().env);
            && Tick(w, dt).proj == Projectile(Point(0.0, 100.0, 0.0), Zero)
            && Simulate(Tick(w, dt), later) == Tick(w, dt)
  {
    var w := World(Projectile(Point(0.0, 100.0, 0.0), Vector(1.0, 0.5, 0.0)), NewWorld().env);
    TickMatchesReference(w, dt);
    RestingIsTerminal(Tick(w, dt), later);
  }
}
