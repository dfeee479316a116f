/** What one call of `update_state` does to the list of bodies, on values:
    Test.update_state (test.js) and Rage_Room.update_state (covid_rage_room.js)
    are one definition here, parameterised by the scene.  The class in
    simulation.dfy runs the same steps in place and is proved equal to this. */
module Room {
  import opened Vectors
  import opened Bodies

  const Gravity: real := -9.8
  /** `linear_velocity[k] *= -.8` */
  const Restitution: real := 0.8
  /** `size.times(1 / 1.05)` for a body that shatters */
  const Shrink: real := 1.05
  /** the lifetime of a body that is not debris */
  const Lifetime: real := 100.0
  /** bodies with size . size at or below this are deleted */
  const MinSizeSquared: real := 0.001
  /** debris bodies appended per shattering */
  const ShardCount: nat := 4
  /** test.js tops the list up to this many bodies */
  const Population: nat := 6

  /** What distinguishes the two scenes. */
  datatype Scene = Scene(
    walls: seq<Tag>,        // the tags of the walls built on the first call, in order
    randomHeight: bool,     // test.js gives each wall the size vec3(1, 1 + Math.random(), 1)
    topUp: bool,            // test.js appends cubes until there are Population bodies
    debrisLifetime: real,
    debrisDivisor: real)    // a debris body has size s.times(1 / debrisDivisor)

  const TestScene: Scene := Scene([F, S, N, E, W], true, true, 10.0, 4.0)
  const RageRoom: Scene := Scene([False, S, N, E, W, C], false, false, 8.0, 9.0)

  /** The random quantities a created body may use: `Math.random()` for a wall
      height, the random placement of a spawned cube, and the launch velocity
      (`vec3(..).randomized(2).normalized().times(3)`). */
  datatype Draw = Draw(lift: real, place: Vec3, launch: Vec3)

  /** Everything update_state reads besides the bodies: the scene, the wall
      placements (toolkit matrix products), the selected collider, the
      collision transform, and the stream of random draws. */
  datatype Env = Env(scene: Scene, layout: seq<Mat4>, collider: Collider, toLocal: ToLocal, random: nat -> Draw)

  predicate WellFormed(env: Env)
  {
    && |env.layout| == |env.scene.walls|
    && (forall i :: 0 <= i < |env.scene.walls| ==> IsWall(env.scene.walls[i]))
    && env.scene.debrisDivisor > 0.0
  }

  /** The bodies, and how many random draws have been used so far. */
  datatype World = World(bodies: seq<BodyState>, draws: nat)

  // ----- building the room -----

  function WallSize(env: Env, k: nat, i: nat): Vec3
  {
    if env.scene.randomHeight then Vec3(1.0, 1.0 + env.random(k + i).lift, 1.0) else Vec3(1.0, 1.0, 1.0)
  }

  /** The walls of the room, built from draw k on: each at rest, not debris, duration 0. */
  function RoomWalls(env: Env, k: nat): (ws: seq<BodyState>)
    requires WellFormed(env)
    ensures |ws| == |env.scene.walls|
    ensures forall i :: 0 <= i < |ws| ==>
              ws[i].temporary == env.scene.walls[i] && IsWall(ws[i].temporary) && Settled(ws[i])
              && ws[i].drawn == env.layout[i] && ws[i].center == ws[i].previous == Origin(env.layout[i])
  {
    seq(|env.scene.walls|, i requires 0 <= i < |env.scene.walls| =>
      Placed(WallSize(env, k, i), env.scene.walls[i], false, 0.0, env.layout[i], Zero))
  }

  function RoomDraws(scene: Scene): nat
  {
    if scene.randomHeight then |scene.walls| else 0
  }

  /** A cube spawned by test.js: movable, not debris, duration 0, size (1, 1, 1). */
  function SpawnedCube(d: Draw): BodyState
  {
    Placed(Vec3(1.0, 1.0, 1.0), U, false, 0.0, Translation(d.place), d.launch)
  }

  /** One turn of the spawning loop: the next draw's cube is pushed. */
  function WithCube(env: Env, wd: World): World
  {
    World(wd.bodies + [SpawnedCube(env.random(wd.draws))], wd.draws + 1)
  }

  /** `while (this.bodies.length < 6) this.bodies.push(<cube>)` */
  function TopUp(env: Env, wd: World): (r: World)
    ensures |r.bodies| >= Population && |r.bodies| >= |wd.bodies|
    ensures r.bodies[..|wd.bodies|] == wd.bodies
    ensures forall i :: |wd.bodies| <= i < |r.bodies| ==> r.bodies[i] == SpawnedCube(env.random(wd.draws + i - |wd.bodies|))
    ensures r.draws == wd.draws + (|r.bodies| - |wd.bodies|)
    ensures |wd.bodies| >= Population ==> r == wd
    ensures |wd.bodies| < Population ==> |r.bodies| == Population
    decreases Population - |wd.bodies|
  {
    if |wd.bodies| < Population then
      TopUp(env, WithCube(env, wd))
    else wd
  }

  lemma TopUpStep(env: Env, wd: World)
    requires |wd.bodies| < Population
    ensures TopUp(env, WithCube(env, wd)) == TopUp(env, wd)
  {
  }

  /** The part of update_state before the filters: the room on the first
      call, and in test.js the cubes that bring the list up to six. */
  function Furnish(env: Env, wd: World): World
    requires WellFormed(env)
  {
    var built := if |wd.bodies| == 0
                 then World(RoomWalls(env, wd.draws), wd.draws + RoomDraws(env.scene))
                 else wd;
    if env.scene.topUp then TopUp(env, built) else built
  }

  // ----- filters -----

  /** The three filters update_state applies: by lifetime, by size, and
      `filter(b => b.temporary !== U)` for the walls. */
  datatype Keep = Lasting(scene: Scene) | Sizable | Walls

  predicate Keeps(k: Keep, b: BodyState)
  {
    match k
    case Lasting(scene) => (!b.debris && b.duration < Lifetime) || (b.debris && b.duration < scene.debrisLifetime)
    case Sizable => Dot(b.size, b.size) > MinSizeSquared
    case Walls => IsWall(b.temporary)
  }

  /** Array.prototype.filter: the bodies that pass, in their order. */
  function Filter(s: seq<BodyState>, k: Keep): (r: seq<BodyState>)
    ensures |r| <= |s|
    ensures forall b :: b in r <==> b in s && Keeps(k, b)
  {
    if s == [] then []
    else (if Keeps(k, s[0]) then [s[0]] else []) + Filter(s[1..], k)
  }

  lemma {:induction false} FilterAppend(s: seq<BodyState>, t: seq<BodyState>, k: Keep)
    ensures Filter(s + t, k) == Filter(s, k) + Filter(t, k)
  {
    if s == [] {
      assert s + t == t;
    } else {
      assert (s + t)[1..] == s[1..] + t;
      FilterAppend(s[1..], t, k);
    }
  }

  /** Replacing a body that the filter drops by another one it drops does not
      change what the filter keeps. */
  lemma FilterUpdateDropped(s: seq<BodyState>, i: nat, x: BodyState, k: Keep)
    requires i < |s| && !Keeps(k, s[i]) && !Keeps(k, x)
    ensures Filter(s[i := x], k) == Filter(s, k)
  {
    assert s == s[..i] + [s[i]] + s[i + 1..];
    assert s[i := x] == s[..i] + [x] + s[i + 1..];
    FilterAppend(s[..i] + [s[i]], s[i + 1..], k);
    FilterAppend(s[..i], [s[i]], k);
    FilterAppend(s[..i] + [x], s[i + 1..], k);
    FilterAppend(s[..i], [x], k);
  }

  /** If every body that k2 keeps passes k1, filtering by k1 first does not
      change what k2 keeps. */
  lemma {:induction false} FilterThrough(s: seq<BodyState>, k1: Keep, k2: Keep)
    requires forall b :: b in s && Keeps(k2, b) ==> Keeps(k1, b)
    ensures Filter(Filter(s, k1), k2) == Filter(s, k2)
  {
    if s != [] {
      FilterThrough(s[1..], k1, k2);
      var head := if Keeps(k1, s[0]) then [s[0]] else [];
      FilterAppend(head, Filter(s[1..], k1), k2);
    }
  }

  function Survivors(s: seq<BodyState>, scene: Scene): seq<BodyState>
  {
    Filter(Filter(s, Lasting(scene)), Sizable)
  }

  /** A body survives the two filters iff it is within its lifetime (100 for a
      body that is not debris, the scene's debris lifetime for debris) and its
      size . size exceeds 0.001. */
  lemma SurvivorsAre(s: seq<BodyState>, scene: Scene, b: BodyState)
    ensures b in Survivors(s, scene) <==>
              b in s
              && ((!b.debris && b.duration < 100.0) || (b.debris && b.duration < scene.debrisLifetime))
              && Dot(b.size, b.size) > 0.001
  {
  }

  // ----- aging -----

  /** The aging loop on one body: only a movable body (temporary === U) ages by
      dt and gains dt * gravity on its vertical velocity. */
  function Aged(b: BodyState, dt: real): (a: BodyState)
    ensures IsWall(b.temporary) ==> a == b
    ensures !IsWall(b.temporary) ==>
              a == b.(duration := b.duration + dt, velocity := a.velocity)
              && a.velocity.y == b.velocity.y + dt * Gravity
              && a.velocity.x == b.velocity.x && a.velocity.z == b.velocity.z
  {
    if b.temporary != U then b
    else b.(duration := b.duration + dt, velocity := With(b.velocity, Y, b.velocity.y + dt * Gravity))
  }

  function AgeAll(s: seq<BodyState>, dt: real): (r: seq<BodyState>)
    ensures |r| == |s| && forall i :: 0 <= i < |s| ==> r[i] == Aged(s[i], dt)
  {
    if s == [] then [] else [Aged(s[0], dt)] + AgeAll(s[1..], dt)
  }

  lemma {:induction false} AgingKeepsWalls(s: seq<BodyState>, dt: real)
    ensures Filter(AgeAll(s, dt), Walls) == Filter(s, Walls)
  {
    if s != [] {
      AgingKeepsWalls(s[1..], dt);
      assert AgeAll(s, dt) == [Aged(s[0], dt)] + AgeAll(s[1..], dt);
      FilterAppend([Aged(s[0], dt)], AgeAll(s[1..], dt), Walls);
      FilterAppend([s[0]], s[1..], Walls);
      assert s == [s[0]] + s[1..];
    }
  }

  // ----- collision response -----

  /** The axis a wall type governs in the `switch`: floor F and the default
      branch the vertical one, N and S the z axis, W and E the x axis. */
  function AxisOf(t: Tag): Axis
  {
    if t == N || t == S then Z
    else if t == W || t == E then X
    else Y
  }

  /** Whether the velocity moves the body toward the wall of type t: S and E
      sit on the positive side of their axis, every other type on the negative. */
  predicate Inbound(t: Tag, v: Vec3)
  {
    if t == S || t == E then Get(v, AxisOf(t)) > 0.0 else Get(v, AxisOf(t)) < 0.0
  }

  /** The `switch (w.temporary)` of the collision loop. */
  function Reflect(t: Tag, v: Vec3): (r: Vec3)
    ensures forall a :: a != AxisOf(t) ==> Get(r, a) == Get(v, a)
    ensures Get(r, AxisOf(t)) == if Inbound(t, v) then -Restitution * Get(v, AxisOf(t)) else Get(v, AxisOf(t))
    ensures !Inbound(t, r)
  {
    if t == F then (if v.y < 0.0 then With(v, Y, v.y * -0.8) else v)
    else if t == N then (if v.z < 0.0 then With(v, Z, v.z * -0.8) else v)
    else if t == S then (if v.z > 0.0 then With(v, Z, v.z * -0.8) else v)
    else if t == W then (if v.x < 0.0 then With(v, X, v.x * -0.8) else v)
    else if t == E then (if v.x > 0.0 then With(v, X, v.x * -0.8) else v)
    else (if v.y < 0.0 then With(v, Y, v.y * -0.8) else v)
  }

  /** covid_rage_room.js tags its floor `false` and its ceiling C = 0; neither
      matches a `case`, so both take the default branch, which acts exactly as
      the floor F does: it flips a downward vertical velocity, and leaves an
      upward one alone, at the ceiling too. */
  lemma FloorAndCeilingTakeDefault(v: Vec3)
    ensures Reflect(False, v) == Reflect(F, v) && Reflect(C, v) == Reflect(F, v)
    ensures v.y > 0.0 ==> Reflect(C, v) == v
    ensures v.y < 0.0 ==> Reflect(C, v) == v.(y := 0.8 * -v.y)
  {
  }

  /** The four debris of a shattering body: movable, debris, duration 0, the
      body's old size divided by the scene's divisor, placed at its drawn
      location, each with a launch velocity drawn from draw k on. */
  function Shards(env: Env, size: Vec3, at: Mat4, k: nat): (ds: seq<BodyState>)
    requires WellFormed(env)
    ensures |ds| == ShardCount
    ensures forall j :: 0 <= j < |ds| ==>
              IsShard(ds[j]) && ds[j].size == Times(size, 1.0 / env.scene.debrisDivisor)
              && ds[j].drawn == at && ds[j].velocity == env.random(k + j).launch
  {
    var ds := seq(ShardCount, j requires 0 <= j < ShardCount =>
      Placed(Times(size, 1.0 / env.scene.debrisDivisor), U, true, 0.0, at, env.random(k + j).launch));
    assert forall j :: 0 <= j < |ds| ==>
      ds[j] == Placed(Times(size, 1.0 / env.scene.debrisDivisor), U, true, 0.0, at, env.random(k + j).launch);
    ds
  }

  predicate IsShard(b: BodyState)
  {
    b.temporary == U && b.debris && b.duration == 0.0
  }

  /** b is a, possibly with a new velocity and size; a wall is untouched and
      debris keep their size. */
  predicate Kin(a: BodyState, b: BodyState)
  {
    && b == a.(velocity := b.velocity, size := b.size)
    && (IsWall(a.temporary) ==> b == a)
    && (a.debris ==> b.size == a.size)
  }

  /** r is s with some bodies bounced or shrunk and some debris appended. */
  predicate Extends(s: seq<BodyState>, r: seq<BodyState>)
  {
    && |s| <= |r|
    && (forall i :: 0 <= i < |s| ==> Kin(s[i], r[i]))
    && (forall i :: |s| <= i < |r| ==> IsShard(r[i]))
  }

  lemma ExtendsTransitive(s: seq<BodyState>, t: seq<BodyState>, r: seq<BodyState>)
    requires Extends(s, t) && Extends(t, r)
    ensures Extends(s, r)
  {
    forall i | |s| <= i < |r| ensures IsShard(r[i]) {
      if i < |t| {
        assert IsShard(t[i]) && Kin(t[i], r[i]);
      }
    }
  }

  /** One turn of the inner loop: wall w meets the body at index i. */
  function Visit(env: Env, w: BodyState, wd: World, i: nat): (r: World)
    requires WellFormed(env) && i < |wd.bodies|
    ensures Extends(wd.bodies, r.bodies)
    // wall-wall pairs are skipped, and so is every pair that does not collide
    ensures IsWall(wd.bodies[i].temporary) || !CollidesAt(env.collider, env.toLocal, w.drawn, wd.bodies[i].drawn) ==> r == wd
    // otherwise the velocity is reflected as the wall's type says
    ensures !IsWall(wd.bodies[i].temporary) && CollidesAt(env.collider, env.toLocal, w.drawn, wd.bodies[i].drawn) ==>
              r.bodies[i].velocity == Reflect(w.temporary, wd.bodies[i].velocity)
    // debris never shatter
    ensures wd.bodies[i].debris ==> |r.bodies| == |wd.bodies| && r.draws == wd.draws
    // everything but the visited body and the appended debris stays as it was
    ensures forall j :: 0 <= j < |wd.bodies| && j != i ==> r.bodies[j] == wd.bodies[j]
  {
    var b := wd.bodies[i];
    if b.temporary != U || !CollidesAt(env.collider, env.toLocal, w.drawn, b.drawn) then wd
    else
      var bounced := b.(velocity := Reflect(w.temporary, b.velocity));
      if b.debris then World(wd.bodies[i := bounced], wd.draws)
      else World(wd.bodies[i := bounced.(size := Times(b.size, 1.0 / Shrink))] + Shards(env, b.size, b.drawn, wd.draws),
                 wd.draws + ShardCount)
  }

  /** A body that is not debris and collides shrinks to size / 1.05, and exactly
      four debris are appended. */
  lemma VisitShatters(env: Env, w: BodyState, wd: World, i: nat)
    requires WellFormed(env) && i < |wd.bodies|
    requires !IsWall(wd.bodies[i].temporary) && !wd.bodies[i].debris
    requires CollidesAt(env.collider, env.toLocal, w.drawn, wd.bodies[i].drawn)
    ensures var r := Visit(env, w, wd, i);
            && |r.bodies| == |wd.bodies| + 4
            && r.bodies[i].size == Times(wd.bodies[i].size, 1.0 / 1.05)
            && r.bodies[|wd.bodies|..] == Shards(env, wd.bodies[i].size, wd.bodies[i].drawn, wd.draws)
            && r.draws == wd.draws + 4
  {
  }

  /** The number of bodies that are not debris. */
  function Intact(s: seq<BodyState>): nat
  {
    if s == [] then 0 else (if s[0].debris then 0 else 1) + Intact(s[1..])
  }

  lemma {:induction false} IntactAppend(s: seq<BodyState>, t: seq<BodyState>)
    ensures Intact(s + t) == Intact(s) + Intact(t)
  {
    if s == [] {
      assert s + t == t;
    } else {
      assert (s + t)[1..] == s[1..] + t;
      IntactAppend(s[1..], t);
    }
  }

  lemma {:induction false} AllDebrisNotIntact(s: seq<BodyState>)
    requires forall j :: 0 <= j < |s| ==> s[j].debris
    ensures Intact(s) == 0
  {
    if s != [] {
      AllDebrisNotIntact(s[1..]);
    }
  }

  /** The work left to the inner loop at index i: each step passes one body,
      and only a body that is not debris can add (four debris) to the list. */
  function Pending(s: seq<BodyState>, i: nat): nat
    requires i <= |s|
  {
    |s| - i + ShardCount * Intact(s[i..])
  }

  lemma VisitDecreases(env: Env, w: BodyState, wd: World, i: nat)
    requires WellFormed(env) && i < |wd.bodies|
    ensures i < |Visit(env, w, wd, i).bodies|
    ensures Pending(Visit(env, w, wd, i).bodies, i + 1) < Pending(wd.bodies, i)
  {
    var s, r := wd.bodies, Visit(env, w, wd, i).bodies;
    assert s[i..] == [s[i]] + s[i + 1..];
    IntactAppend([s[i]], s[i + 1..]);
    var b := s[i];
    if b.temporary != U || !CollidesAt(env.collider, env.toLocal, w.drawn, b.drawn) {
    } else if b.debris {
      assert r[i + 1..] == s[i + 1..];
    } else {
      var ds := Shards(env, b.size, b.drawn, wd.draws);
      assert r[i + 1..] == s[i + 1..] + ds;
      IntactAppend(s[i + 1..], ds);
      AllDebrisNotIntact(ds);
    }
  }

  /** `for (let b of this.bodies)` from index i, with the bodies the loop
      itself appends visited in the same pass. */
  function InnerPass(env: Env, w: BodyState, wd: World, i: nat): (r: World)
    requires WellFormed(env) && i <= |wd.bodies|
    decreases Pending(wd.bodies, i)
  {
    if i == |wd.bodies| then wd
    else
      VisitDecreases(env, w, wd, i);
      InnerPass(env, w, Visit(env, w, wd, i), i + 1)
  }

  /** `for (let w of walls)` around the inner loop. */
  function CollisionPass(env: Env, walls: seq<BodyState>, wd: World): World
    requires WellFormed(env)
  {
    if walls == [] then wd else CollisionPass(env, walls[1..], InnerPass(env, walls[0], wd, 0))
  }

  lemma {:induction false} InnerPassExtends(env: Env, w: BodyState, wd: World, i: nat)
    requires WellFormed(env) && i <= |wd.bodies|
    ensures Extends(wd.bodies, InnerPass(env, w, wd, i).bodies)
    decreases Pending(wd.bodies, i)
  {
    if i < |wd.bodies| {
      var next := Visit(env, w, wd, i);
      VisitDecreases(env, w, wd, i);
      InnerPassExtends(env, w, next, i + 1);
      ExtendsTransitive(wd.bodies, next.bodies, InnerPass(env, w, next, i + 1).bodies);
    }
  }

  /** The collision pass only bounces and shrinks bodies it found and appends
      debris: every body keeps its tag, flags, duration, position and drawn
      location; walls and debris keep their size; what is appended is debris. */
  lemma {:induction false} CollisionPassExtends(env: Env, walls: seq<BodyState>, wd: World)
    requires WellFormed(env)
    ensures Extends(wd.bodies, CollisionPass(env, walls, wd).bodies)
  {
    if walls != [] {
      var next := InnerPass(env, walls[0], wd, 0);
      InnerPassExtends(env, walls[0], wd, 0);
      CollisionPassExtends(env, walls[1..], next);
      ExtendsTransitive(wd.bodies, next.bodies, CollisionPass(env, walls[1..], next).bodies);
    }
  }

  // ----- one call of update_state -----

  function UpdateSpec(env: Env, wd: World, dt: real): World
    requires WellFormed(env)
  {
    var full := Furnish(env, wd);
    var aged := AgeAll(Survivors(full.bodies, env.scene), dt);
    CollisionPass(env, Filter(aged, Walls), World(aged, full.draws))
  }

  // ----- properties of the room -----

  /** On the first call test.js builds the walls F, S, N, E, W and then one
      movable cube, which makes six bodies. */
  lemma TestFirstCall(env: Env, k: nat)
    requires WellFormed(env) && env.scene == TestScene
    ensures var r := Furnish(env, World([], k));
            && |r.bodies| == 6
            && (forall i :: 0 <= i < 5 ==> r.bodies[i].temporary == [F, S, N, E, W][i] && !r.bodies[i].debris)
            && r.bodies[5] == SpawnedCube(env.random(k + 5))
            && r.draws == k + 6
  {
    var built := World(RoomWalls(env, k), k + 5);
    assert Furnish(env, World([], k)) == TopUp(env, built);
  }

  /** On the first call covid_rage_room.js builds six walls, floor `false`, S,
      N, E, W, ceiling C, and nothing movable; later calls add nothing. */
  lemma RageRoomFurnish(env: Env, wd: World)
    requires WellFormed(env) && env.scene == RageRoom
    ensures wd.bodies == [] ==>
              var r := Furnish(env, wd);
              && |r.bodies| == 6
              && (forall i :: 0 <= i < 6 ==> r.bodies[i].temporary == [False, S, N, E, W, C][i] && IsWall(r.bodies[i].temporary))
              && r.draws == wd.draws
    ensures wd.bodies != [] ==> Furnish(env, wd) == wd
  {
  }

  /** A wall at rest: not debris, duration 0, zero velocity, size that passes
      the size filter. */
  predicate Settled(b: BodyState)
  {
    !b.debris && b.duration == 0.0 && b.velocity == Zero && Dot(b.size, b.size) > MinSizeSquared
  }

  predicate WallsSettled(s: seq<BodyState>)
  {
    forall i :: 0 <= i < |s| && IsWall(s[i].temporary) ==> Settled(s[i])
  }

  lemma RoomWallsSettled(env: Env, k: nat)
    requires WellFormed(env)
    ensures Filter(RoomWalls(env, k), Walls) == RoomWalls(env, k)
    ensures WallsSettled(RoomWalls(env, k))
  {
    var ws := RoomWalls(env, k);
    forall i | 0 <= i < |ws| ensures Settled(ws[i]) && IsWall(ws[i].temporary) {
      var h := WallSize(env, k, i).y;
      SquareNonNegative(h);
    }
    AllKept(ws, Walls);
  }

  lemma {:induction false} AllKept(s: seq<BodyState>, k: Keep)
    requires forall i :: 0 <= i < |s| ==> Keeps(k, s[i])
    ensures Filter(s, k) == s
  {
    if s != [] {
      AllKept(s[1..], k);
    }
  }

  lemma {:induction false} NoneKept(s: seq<BodyState>, k: Keep)
    requires forall i :: 0 <= i < |s| ==> !Keeps(k, s[i])
    ensures Filter(s, k) == []
  {
    if s != [] {
      NoneKept(s[1..], k);
    }
  }

  /** The cubes test.js appends are movable, so the walls stay as they were. */
  lemma TopUpKeepsWalls(env: Env, wd: World)
    requires WallsSettled(wd.bodies)
    ensures Filter(TopUp(env, wd).bodies, Walls) == Filter(wd.bodies, Walls)
    ensures WallsSettled(TopUp(env, wd).bodies)
  {
    var r := TopUp(env, wd);
    var extra := r.bodies[|wd.bodies|..];
    assert r.bodies == wd.bodies + extra;
    FilterAppend(wd.bodies, extra, Walls);
    NoneKept(extra, Walls);
    WallsSettledByFilter(wd.bodies, r.bodies);
  }

  lemma FurnishWalls(env: Env, wd: World)
    requires WellFormed(env) && WallsSettled(wd.bodies)
    ensures Filter(Furnish(env, wd).bodies, Walls)
            == if wd.bodies == [] then RoomWalls(env, wd.draws) else Filter(wd.bodies, Walls)
    ensures WallsSettled(Furnish(env, wd).bodies)
  {
    if wd.bodies == [] {
      var built := World(RoomWalls(env, wd.draws), wd.draws + RoomDraws(env.scene));
      RoomWallsSettled(env, wd.draws);
      FurnishFrom(env, wd, built);
    } else {
      FurnishFrom(env, wd, wd);
    }
  }

  lemma FurnishFrom(env: Env, wd: World, built: World)
    requires WellFormed(env) && WallsSettled(built.bodies)
    requires built == if |wd.bodies| == 0
                      then World(RoomWalls(env, wd.draws), wd.draws + RoomDraws(env.scene))
                      else wd
    ensures Filter(Furnish(env, wd).bodies, Walls) == Filter(built.bodies, Walls)
    ensures WallsSettled(Furnish(env, wd).bodies)
  {
    FurnishUnfold(env, wd, built);
    if env.scene.topUp {
      TopUpKeepsWalls(env, built);
    }
  }

  lemma FurnishUnfold(env: Env, wd: World, built: World)
    requires WellFormed(env)
    requires built == if |wd.bodies| == 0
                      then World(RoomWalls(env, wd.draws), wd.draws + RoomDraws(env.scene))
                      else wd
    ensures Furnish(env, wd) == if env.scene.topUp then TopUp(env, built) else built
  {
  }

  lemma VisitKeepsWalls(env: Env, w: BodyState, wd: World, i: nat)
    requires WellFormed(env) && i < |wd.bodies|
    ensures Filter(Visit(env, w, wd, i).bodies, Walls) == Filter(wd.bodies, Walls)
  {
    var s, b := wd.bodies, wd.bodies[i];
    if b.temporary != U || !CollidesAt(env.collider, env.toLocal, w.drawn, b.drawn) {
    } else {
      var bounced := b.(velocity := Reflect(w.temporary, b.velocity));
      if b.debris {
        FilterUpdateDropped(s, i, bounced, Walls);
      } else {
        var shrunk := bounced.(size := Times(b.size, 1.0 / Shrink));
        var ds := Shards(env, b.size, b.drawn, wd.draws);
        FilterUpdateDropped(s, i, shrunk, Walls);
        FilterAppend(s[i := shrunk], ds, Walls);
        NoneKept(ds, Walls);
      }
    }
  }

  lemma {:induction false} InnerPassKeepsWalls(env: Env, w: BodyState, wd: World, i: nat)
    requires WellFormed(env) && i <= |wd.bodies|
    ensures Filter(InnerPass(env, w, wd, i).bodies, Walls) == Filter(wd.bodies, Walls)
    decreases Pending(wd.bodies, i)
  {
    if i < |wd.bodies| {
      VisitDecreases(env, w, wd, i);
      VisitKeepsWalls(env, w, wd, i);
      InnerPassKeepsWalls(env, w, Visit(env, w, wd, i), i + 1);
    }
  }

  lemma {:induction false} CollisionPassKeepsWalls(env: Env, walls: seq<BodyState>, wd: World)
    requires WellFormed(env)
    ensures Filter(CollisionPass(env, walls, wd).bodies, Walls) == Filter(wd.bodies, Walls)
  {
    if walls != [] {
      InnerPassKeepsWalls(env, walls[0], wd, 0);
      CollisionPassKeepsWalls(env, walls[1..], InnerPass(env, walls[0], wd, 0));
    }
  }

  lemma WallsSettledByFilter(s: seq<BodyState>, t: seq<BodyState>)
    requires WallsSettled(s) && Filter(t, Walls) == Filter(s, Walls)
    ensures WallsSettled(t)
  {
    forall i | 0 <= i < |t| && IsWall(t[i].temporary) ensures Settled(t[i]) {
      assert t[i] in Filter(t, Walls);
      assert t[i] in s;
    }
  }

  /** Walls are never removed and never changed: after a call the walls, in
      order, are those before it (on the first call, the room's walls), and
      they are still at rest. */
  lemma UpdateKeepsWalls(env: Env, wd: World, dt: real)
    requires WellFormed(env) && WallsSettled(wd.bodies)
    ensures Filter(UpdateSpec(env, wd, dt).bodies, Walls)
            == if wd.bodies == [] then RoomWalls(env, wd.draws) else Filter(wd.bodies, Walls)
    ensures WallsSettled(UpdateSpec(env, wd, dt).bodies)
  {
    var full := Furnish(env, wd);
    FurnishWalls(env, wd);
    var s := full.bodies;
    FilterThrough(s, Lasting(env.scene), Walls);
    FilterThrough(Filter(s, Lasting(env.scene)), Sizable, Walls);
    var aged := AgeAll(Survivors(s, env.scene), dt);
    AgingKeepsWalls(Survivors(s, env.scene), dt);
    CollisionPassKeepsWalls(env, Filter(aged, Walls), World(aged, full.draws));
    WallsSettledByFilter(s, UpdateSpec(env, wd, dt).bodies);
  }
}
