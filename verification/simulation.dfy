/** The simulation step of the bouncing-box demo: a projectile (position and
    velocity) moves under a constant environment (gravity and wind) inside a
    320 x 240 frame, bouncing with damping off the four edges and coming to
    rest for good once its speed drops below one unit per second. */
module Simulation {
  import opened Tuple

  /** Frame width and height in pixels, and the edge length of the box. */
  const Width: nat := 320
  const Height: nat := 240
  const BoxSize: nat := 8

  /** The box touches the right or bottom edge when its top-left corner
      reaches these coordinates. The source subtracts in unsigned 32-bit
      arithmetic; 8 is below both 320 and 240, so nothing wraps. */
  const HorizontalLimit: real := (Width - BoxSize) as real
  const VerticalLimit: real := (Height - BoxSize) as real

  datatype Projectile = Projectile(position: Point, velocity: Vector)

  datatype Environment = Environment(gravity: Vector, wind: Vector)

  datatype World = World(proj: Projectile, env: Environment)

  /** The starting state: the box at (10, 100) moving right and up, under
      downward gravity and a light wind to the left. */
  function NewWorld(): World {
    World(
      Projectile(Point(10.0, 100.0, 0.0), Vector(150.0, -90.0, 0.0)),
      Environment(Vector(0.0, 100.0, 0.0), Vector(-1.0, 0.0, 0.0)))
  }

  // ---------------------------------------------------------------------
  // The stages of one tick, in the source's order

  predicate AtHorizontalEdge(p: Point) {
    p.x <= 0.0 || p.x >= HorizontalLimit
  }

  predicate AtVerticalEdge(p: Point) {
    p.y <= 0.0 || p.y >= VerticalLimit
  }

  /** Stage 1: at the left or right edge, reverse and damp the horizontal
      velocity and damp the vertical one. */
  function BounceHorizontal(position: Point, velocity: Vector): Vector {
    if AtHorizontalEdge(position) then
      velocity.(x := velocity.x * -0.8).(y := velocity.y * 0.8)
    else
      velocity
  }

  /** Stage 2, tested independently of stage 1: at the top or bottom edge,
      damp the horizontal velocity and reverse and damp the vertical one. */
  function BounceVertical(position: Point, velocity: Vector): Vector {
    if AtVerticalEdge(position) then
      velocity.(x := velocity.x * 0.8).(y := velocity.y * -0.8)
    else
      velocity
  }

  /** The source's `magnitude() < Scalar::new(1.)`, compared through the
      square of the magnitude (see TupleLaws.MagnitudeBelow). */
  predicate BelowRestSpeed(v: Vector) {
    MagnitudeSquared(v) < 1.0
  }

  /** Stages 3 and 4: below the rest speed the velocity becomes exactly
      zero; otherwise gravity and wind accelerate it for `dt` seconds. */
  function ClampOrAccelerate(v: Vector, env: Environment, dt: real): Vector {
    if BelowRestSpeed(v) then
      Zero
    else
      AddAssign(v, Mul(Add(env.gravity, env.wind), Scalar(dt)))
  }

  /** A projectile at rest: its velocity is exactly zero. */
  predicate Resting(p: Projectile) {
    p.velocity == Zero
  }

  /** One tick of `dt` seconds. Stage 5 always moves the position by the
      new velocity times `dt`. The environment is never changed; a resting
      projectile is a fixed point; a zero-length tick does not move it. */
  function Tick(w: World, dt: real): (w': World)
    requires dt >= 0.0
    ensures w'.env == w.env
    ensures Resting(w.proj) ==> w'.proj == w.proj
    ensures dt == 0.0 ==> w'.proj.position == w.proj.position
  {
    var bounced := BounceVertical(w.proj.position,
                     BounceHorizontal(w.proj.position, w.proj.velocity));
    var velocity := ClampOrAccelerate(bounced, w.env, dt);
    var position := PointAddAssign(w.proj.position, Mul(velocity, Scalar(dt)));
    RestingStaysPut(w.proj, w.env, dt);
    NoTimeNoMove(w.proj.position, velocity);
    World(Projectile(position, velocity), w.env)
  }

  /** A zero velocity survives both bounce stages and the rest clamp, and
      then moves the position by nothing. */
  lemma RestingStaysPut(p: Projectile, env: Environment, dt: real)
    ensures Resting(p) ==>
      var bounced := BounceVertical(p.position, BounceHorizontal(p.position, p.velocity));
      && bounced == Zero
      && ClampOrAccelerate(bounced, env, dt) == Zero
      && PointAddAssign(p.position, Mul(Zero, Scalar(dt))) == p.position
  {
    if Resting(p) {
      BounceKeepsZero(p.position);
      ClampKeepsZero(env, dt);
      MoveByZero(p.position, dt);
    }
  }

  lemma BounceKeepsZero(position: Point)
    ensures BounceVertical(position, BounceHorizontal(position, Zero)) == Zero
  {
  }

  lemma ClampKeepsZero(env: Environment, dt: real)
    ensures ClampOrAccelerate(Zero, env, dt) == Zero
  {
    assert MagnitudeSquared(Zero) == 0.0;
  }

  lemma MoveByZero(position: Point, dt: real)
    ensures PointAddAssign(position, Mul(Zero, Scalar(dt))) == position
  {
    assert Mul(Zero, Scalar(dt)) == Zero;
  }

  /** Moving for zero seconds leaves a position where it is. */
  lemma NoTimeNoMove(position: Point, velocity: Vector)
    ensures PointAddAssign(position, Mul(velocity, Scalar(0.0))) == position
  {
  }

  /** All durations of a run are non-negative, as elapsed times are. */
  predicate NonNegative(dts: seq<real>) {
    forall i :: 0 <= i < |dts| ==> dts[i] >= 0.0
  }

  /** The event loop's effect on the world: one tick per elapsed time. No
      tick changes gravity or wind, so neither does a run. */
  function Simulate(w: World, dts: seq<real>): (w': World)
    requires NonNegative(dts)
    ensures w'.env == w.env
    decreases |dts|
  {
    if |dts| == 0 then w else Simulate(Tick(w, dts[0]), dts[1..])
  }
}
