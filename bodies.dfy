/** `Body` of test.js and covid_rage_room.js (the two copies are identical):
    the point tests of the colliders, the sampling collision check, and a body
    object whose position, velocity and size the simulation overwrites in place.
    Rotation, spin and the matrix that blends two rotations are not modelled. */
module Bodies {
  import opened Vectors

  /** The `temporary` field.  The scenes store a wall-type code in it (F, N, S,
      W, E, C), U = -1 for a body that moves, and covid_rage_room.js gives its
      floor the boolean `false`.  Comparisons in the source are strict (`===`,
      `!==`), so `false` equals no code. */
  datatype Tag = Code(n: int) | False

  const C: Tag := Code(0)
  const F: Tag := Code(1)
  const N: Tag := Code(2)
  const S: Tag := Code(3)
  const W: Tag := Code(4)
  const E: Tag := Code(5)
  const U: Tag := Code(-1)

  /** `temporary !== U`: everything that is not a movable body is a wall. */
  predicate IsWall(t: Tag)
  {
    t != U
  }

  /** Body.intersect_cube: every coordinate of p lies in [-1 - margin, 1 + margin]. */
  predicate IntersectCube(p: Vec3, margin: real)
  {
    forall a :: -1.0 - margin <= Get(p, a) <= 1.0 + margin
  }

  /** Body.intersect_sphere: p is strictly inside the sphere whose SQUARED radius
      is 1 + margin (the margin is added to the square, not to the radius). */
  predicate IntersectSphere(p: Vec3, margin: real)
  {
    Dot(p, p) < 1.0 + margin
  }

  lemma SquareNonNegative(c: real)
    ensures c * c >= 0.0
  {
    if c < 0.0 {
      assert c * c == (-c) * (-c);
    }
  }

  lemma SquareMonotone(a: real, b: real)
    requires 0.0 <= a <= b
    ensures a * a <= b * b
  {
    assert a * a <= a * b <= b * b;
  }

  lemma SquareBelow(c: real, k: real)
    requires k >= 1.0
    ensures c * c < k ==> -k < c < k
  {
    assert k <= k * k;
    if c >= k {
      SquareMonotone(k, c);
    } else if c <= -k {
      SquareMonotone(k, -c);
      assert c * c == (-c) * (-c);
    }
  }

  /** With a non-negative margin the sphere test is the stricter one: a point
      the sphere test accepts is accepted by the cube test with the same margin. */
  lemma SphereWithinCube(p: Vec3, margin: real)
    requires margin >= 0.0
    requires IntersectSphere(p, margin)
    ensures IntersectCube(p, margin)
  {
    SquareNonNegative(p.x);
    SquareNonNegative(p.y);
    SquareNonNegative(p.z);
    SquareBelow(p.x, 1.0 + margin);
    SquareBelow(p.y, 1.0 + margin);
    SquareBelow(p.z, 1.0 + margin);
    forall a ensures -1.0 - margin <= Get(p, a) <= 1.0 + margin {
    }
  }

  /** The converse of SphereWithinCube fails, so the inclusion is strict: the
      cube test accepts the corner (1, 1, 1) of the unit cube with margin 0,
      and the sphere test with margin 0 rejects it. */
  lemma CornerOnCubeOutsideSphere()
    ensures IntersectCube(Vec3(1.0, 1.0, 1.0), 0.0)
    ensures !IntersectSphere(Vec3(1.0, 1.0, 1.0), 0.0)
  {
    var p := Vec3(1.0, 1.0, 1.0);
    forall a ensures -1.0 <= Get(p, a) <= 1.0 {
    }
  }

  datatype PointTest = Sphere | Cube

  predicate Intersect(test: PointTest, p: Vec3, margin: real)
  {
    match test
    case Sphere => IntersectSphere(p, margin)
    case Cube => IntersectCube(p, margin)
  }

  /** An entry of `colliders`: the point test, the sample points of the proxy
      shape (`points.arrays.position`) and the leeway. */
  datatype Collider = Collider(test: PointTest, points: seq<Vec3>, leeway: real)

  /** The matrix part of check_if_colliding, `T = wall.inverse * b.drawn_location`
      applied to a sample point, is toolkit arithmetic and is an input:
      it maps (the wall's drawn location, the body's drawn location, a sample
      point) to that point in the wall's frame. */
  type ToLocal = (Mat4, Mat4, Vec3) -> Vec3

  /** `points.some(p => intersect_test(T.times(p), leeway))` from index k on. */
  function SomeSampleHits(c: Collider, toLocal: ToLocal, wall: Mat4, body: Mat4, k: nat): (r: bool)
    requires k <= |c.points|
    ensures r <==> exists j :: k <= j < |c.points| && Intersect(c.test, toLocal(wall, body, c.points[j]), c.leeway)
    decreases |c.points| - k
  {
    if k == |c.points| then false
    else Intersect(c.test, toLocal(wall, body, c.points[k]), c.leeway)
         || SomeSampleHits(c, toLocal, wall, body, k + 1)
  }

  /** The collision verdict for two drawn locations, as used between a wall and
      a different (movable) body. */
  predicate CollidesAt(c: Collider, toLocal: ToLocal, wall: Mat4, body: Mat4)
  {
    SomeSampleHits(c, toLocal, wall, body, 0)
  }

  /** The state of one body, as the physics reads it. */
  datatype BodyState = BodyState(
    center: Vec3,
    previous: Vec3,   // previous.center
    velocity: Vec3,   // linear_velocity
    size: Vec3,
    temporary: Tag,
    debris: bool,
    duration: real,
    drawn: Mat4)      // drawn_location

  /** `new Body(shape, material, size, temporary, debris, duration).emplace(location, velocity, ...)`. */
  function Placed(size: Vec3, temporary: Tag, debris: bool, duration: real, location: Mat4, velocity: Vec3): (b: BodyState)
    ensures b.center == b.previous == Origin(location) && b.drawn == location
  {
    BodyState(Origin(location), Origin(location), velocity, size, temporary, debris, duration, location)
  }

  /** Body.advance on a state: previous.center becomes the old center and the
      center moves by velocity * dt (forward Euler); nothing else changes. */
  function Advanced(b: BodyState, dt: real): (a: BodyState)
    ensures a.previous == b.center
    ensures a.center == Plus(b.center, Times(b.velocity, dt))
    ensures a == b.(previous := a.previous, center := a.center)
  {
    b.(previous := b.center, center := Plus(b.center, Times(b.velocity, dt)))
  }

  /** The drawn location blend_state computes from the two latest physical
      states is toolkit matrix composition and is an input: it maps (previous
      center, center, size, alpha) to the drawn location. */
  type Blend = (Vec3, Vec3, Vec3, real) -> Mat4

  class Body {
    var center: Vec3
    var previous: Vec3
    var velocity: Vec3
    var size: Vec3
    const temporary: Tag
    const debris: bool
    var duration: real
    var drawn: Mat4

    function Value(): BodyState
      reads this
    {
      BodyState(center, previous, velocity, size, temporary, debris, duration, drawn)
    }

    /** The constructor followed by emplace (the scenes always chain the two). */
    constructor (size: Vec3, temporary: Tag, debris: bool, duration: real, location: Mat4, velocity: Vec3)
      ensures Value() == Placed(size, temporary, debris, duration, location, velocity)
    {
      this.size := size;
      this.temporary := temporary;
      this.debris := debris;
      this.duration := duration;
      new;
      Emplace(location, velocity);
    }

    /** emplace(): the center is where the location puts the origin, the
        previous state is a copy of it, and the location is drawn as given. */
    method Emplace(location: Mat4, linearVelocity: Vec3)
      modifies this
      ensures center == Origin(location) && previous == center
      ensures drawn == location && velocity == linearVelocity
      ensures size == old(size) && duration == old(duration)
    {
      center := Origin(location);
      previous := center;
      drawn := location;
      velocity := linearVelocity;
    }

    method Advance(timeAmount: real)
      modifies this`previous, this`center
      ensures Value() == Advanced(old(Value()), timeAmount)
    {
      previous := center;
      center := Plus(center, Times(velocity, timeAmount));
    }

    method BlendState(alpha: real, blend: Blend)
      modifies this`drawn
      ensures Value() == old(Value()).(drawn := blend(previous, center, size, alpha))
    {
      drawn := blend(previous, center, size, alpha);
    }

    /** check_if_colliding: nothing collides with itself; otherwise some sample
        point of the collider, carried into this body's frame, passes the test. */
    function CheckIfColliding(b: Body, collider: Collider, toLocal: ToLocal): (r: bool)
      reads this, b
      ensures this == b ==> !r
      ensures this != b ==> (r <==> exists j :: 0 <= j < |collider.points|
                                      && Intersect(collider.test, toLocal(drawn, b.drawn, collider.points[j]), collider.leeway))
    {
      this != b && CollidesAt(collider, toLocal, drawn, b.drawn)
    }
  }
}
