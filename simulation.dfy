/** `Simulation` and the `update_state` of its two scenes (test.js and
    covid_rage_room.js): a fixed-timestep clock that steps a list of Body
    objects in place.  Every method is proved against the value-level
    definitions of room.dfy through Snapshot, the states of the bodies in
    list order. */
module Simulations {
  import opened Vectors
  import opened Bodies
  import opened Room

  /** `dt: 1 / 20`, set by the constructor and never reassigned. */
  const DT: real := 0.05
  /** `Math.min(frame_time, 0.1)`: the most one frame adds to the accumulator. */
  const FrameCap: real := 0.1

  function Min(a: real, b: real): real
  {
    if a < b then a else b
  }

  /** Math.sign */
  function Sign(r: real): real
  {
    if r > 0.0 then 1.0 else if r < 0.0 then -1.0 else 0.0
  }

  function Abs(r: real): real
  {
    if r < 0.0 then -r else r
  }

  /** `Math.sign(frame_time) * dt`, the time one step moves. */
  function Stride(sign: real): real
  {
    if sign > 0.0 then DT else if sign < 0.0 then -DT else 0.0
  }

  /** The blend factor of simulate: the fraction of a step left in the accumulator. */
  function BlendFactor(accumulator: real): real
  {
    accumulator / DT
  }

  /** The clock of a simulation: `t`, `time_accumulator` and `steps_taken`. */
  datatype Clock = Clock(t: real, accumulator: real, steps: nat)

  /** Where the loop of simulate can start for a frame of the given sign: a
      forward frame has only added time, a backward frame only removed it, and
      a zero frame leaves less than one step in the accumulator. */
  predicate Draining(accumulator: real, sign: real)
  {
    (sign == 1.0 && -DT < accumulator) || (sign == -1.0 && accumulator < DT)
    || (sign == 0.0 && -DT < accumulator < DT)
  }

  /** One turn of the loop on the clock: dt moves, in the direction of the
      frame, from the accumulator to t, and a step is counted. */
  function NextClock(c: Clock, sign: real): Clock
  {
    Clock(c.t + Stride(sign), c.accumulator - Stride(sign), c.steps + 1)
  }

  /** The while loop of simulate on the clock alone: while a whole step is
      left in the accumulator, one dt moves, in the direction of the frame,
      from the accumulator to t and a step is counted. */
  function CaughtUp(c: Clock, sign: real): (r: Clock)
    requires Draining(c.accumulator, sign)
    ensures Abs(r.accumulator) < DT && r.steps >= c.steps
    decreases if sign > 0.0 then (c.accumulator * 20.0).Floor else (-c.accumulator * 20.0).Floor
  {
    if Abs(c.accumulator) < DT then c
    else CaughtUp(NextClock(c, sign), sign)
  }

  /** A turn taken while a whole step is left keeps the loop draining and
      does not change where it ends. */
  lemma NextClockDrains(c: Clock, sign: real)
    requires Draining(c.accumulator, sign) && Abs(c.accumulator) >= DT
    ensures NextClock(c, sign).steps == c.steps + 1
    ensures Draining(NextClock(c, sign).accumulator, sign)
    ensures CaughtUp(NextClock(c, sign), sign) == CaughtUp(c, sign)
  {
  }

  /** One call of simulate on the clock: the scaled frame time, capped at
      FrameCap, goes into the accumulator and the loop catches up. */
  function FrameClock(c: Clock, frame: real): (r: Clock)
    requires -DT < c.accumulator < DT
    ensures -DT < r.accumulator < DT && r.steps >= c.steps
  {
    CaughtUp(Started(c, frame), Sign(frame))
  }

  /** The clock at the start of the loop: the scaled frame time, capped at
      FrameCap, added to the accumulator. */
  function Started(c: Clock, frame: real): Clock
  {
    c.(accumulator := c.accumulator + Min(frame, FrameCap))
  }

  lemma StartDrains(c: Clock, frame: real)
    requires -DT < c.accumulator < DT
    ensures Draining(Started(c, frame).accumulator, Sign(frame))
  {
  }

  /** The loop only moves time between the accumulator and t, one dt per
      step in the direction of the frame; with a zero frame it does nothing. */
  lemma {:induction false} CaughtUpMovesTime(c: Clock, sign: real)
    requires Draining(c.accumulator, sign)
    ensures var r := CaughtUp(c, sign);
            r.t + r.accumulator == c.t + c.accumulator
            && (sign > 0.0 ==> r.t == c.t + DT * (r.steps - c.steps) as real)
            && (sign < 0.0 ==> r.t == c.t - DT * (r.steps - c.steps) as real)
            && (sign == 0.0 ==> r == c)
    decreases if sign > 0.0 then (c.accumulator * 20.0).Floor else (-c.accumulator * 20.0).Floor
  {
    if Abs(c.accumulator) >= DT {
      var next := NextClock(c, sign);
      CaughtUpMovesTime(next, sign);
    }
  }

  /** A forward loop that starts with less than m + 1 steps in the
      accumulator takes at most m steps. */
  lemma {:induction false} CaughtUpForwardSteps(c: Clock, m: nat)
    requires -DT < c.accumulator < DT * (m as real + 1.0)
    ensures CaughtUp(c, 1.0).steps <= c.steps + m
    decreases m
  {
    if Abs(c.accumulator) >= DT {
      assert m > 0;
      CaughtUpForwardSteps(Clock(c.t + DT, c.accumulator - DT, c.steps + 1), m - 1);
    }
  }

  /** The laws of one frame: t + accumulator grows by exactly the capped
      frame time, each step moves t by dt in the frame's direction, a zero
      frame changes nothing, a forward frame takes at most two steps, and
      the blend factor accumulator / dt lies strictly between -1 and 1. */
  lemma FrameClockLaws(c: Clock, frame: real)
    requires -DT < c.accumulator < DT
    ensures var r := FrameClock(c, frame);
            r.t + r.accumulator == c.t + c.accumulator + Min(frame, FrameCap)
            && (frame > 0.0 ==> r.t == c.t + DT * (r.steps - c.steps) as real)
            && (frame < 0.0 ==> r.t == c.t - DT * (r.steps - c.steps) as real)
            && (frame == 0.0 ==> r == c)
            && (frame >= 0.0 ==> r.steps <= c.steps + 2)
            && -1.0 < r.accumulator / DT < 1.0
  {
    var start := Started(c, frame);
    CaughtUpMovesTime(start, Sign(frame));
    if frame >= 0.0 {
      CaughtUpForwardSteps(start, 2);
    }
  }

  /** The states of the bodies, in list order. */
  function Snapshot(bs: seq<Body>): (r: seq<BodyState>)
    reads set b | b in bs
    ensures |r| == |bs| && forall i :: 0 <= i < |bs| ==> r[i] == bs[i].Value()
  {
    if bs == [] then [] else [bs[0].Value()] + Snapshot(bs[1..])
  }

  /** No body object appears twice in the list. */
  predicate Distinct(bs: seq<Body>)
  {
    forall i, j :: 0 <= i < j < |bs| ==> Apart(bs, i, j)
  }

  /** The bodies at positions i and j are different objects.  Distinct is
      stated through this predicate so that its quantifier only fires where
      Separated, DistinctSplit or DistinctAppend bring it out. */
  predicate Apart(bs: seq<Body>, i: int, j: int)
    requires 0 <= i < |bs| && 0 <= j < |bs|
  {
    bs[i] != bs[j]
  }

  lemma Separated(bs: seq<Body>)
    requires Distinct(bs)
    ensures forall i, j :: 0 <= i < |bs| && 0 <= j < |bs| && i != j ==> bs[i] != bs[j]
  {
    forall i, j | 0 <= i < |bs| && 0 <= j < |bs| && i != j
      ensures bs[i] != bs[j]
    {
      if i < j {
        assert Apart(bs, i, j);
      } else {
        assert Apart(bs, j, i);
      }
    }
  }

  lemma DistinctSplit(bs: seq<Body>)
    requires bs != []
    ensures Distinct(bs) <==> bs[0] !in bs[1..] && Distinct(bs[1..])
  {
    if Distinct(bs) {
      forall i, j | 0 <= i < j < |bs| - 1
        ensures Apart(bs[1..], i, j)
      {
        assert Apart(bs, i + 1, j + 1);
      }
      forall j | 0 <= j < |bs| - 1
        ensures bs[1..][j] != bs[0]
      {
        assert Apart(bs, 0, j + 1);
      }
    }
    if bs[0] !in bs[1..] && Distinct(bs[1..]) {
      forall i, j | 0 <= i < j < |bs|
        ensures Apart(bs, i, j)
      {
        if i == 0 {
          assert bs[j] == bs[1..][j - 1];
        } else {
          assert Apart(bs[1..], i - 1, j - 1);
        }
      }
    }
  }

  lemma DistinctAppend(bs: seq<Body>, b: Body)
    requires Distinct(bs) && b !in bs
    ensures Distinct(bs + [b])
  {
    forall i, j | 0 <= i < j < |bs| + 1
      ensures Apart(bs + [b], i, j)
    {
      if j < |bs| {
        assert Apart(bs, i, j);
      } else {
        assert bs[i] in bs;
      }
    }
  }

  /** `this.bodies.filter(...)` on the objects: the same objects, in order,
      whose states the value-level filter keeps. */
  function Kept(bs: seq<Body>, k: Keep): (r: seq<Body>)
    reads set b | b in bs
    ensures Snapshot(r) == Filter(Snapshot(bs), k)
    ensures forall b :: b in r ==> b in bs && Keeps(k, b.Value())
  {
    if bs == [] then []
    else
      var head := if Keeps(k, bs[0].Value()) then [bs[0]] else [];
      var r := head + Kept(bs[1..], k);
      SnapshotAppend(head, Kept(bs[1..], k));
      assert Snapshot(bs) == [bs[0].Value()] + Snapshot(bs[1..]);
      assert Snapshot(bs)[1..] == Snapshot(bs[1..]);
      r
  }

  /** Filtering a list of distinct objects leaves them distinct. */
  lemma {:induction false} KeptDistinct(bs: seq<Body>, k: Keep)
    requires Distinct(bs)
    ensures Distinct(Kept(bs, k))
    decreases |bs|
  {
    if bs != [] {
      DistinctSplit(bs);
      KeptDistinct(bs[1..], k);
      var r := Kept(bs, k);
      if Keeps(k, bs[0].Value()) {
        assert r[0] == bs[0] && r[1..] == Kept(bs[1..], k);
        assert bs[0] !in Kept(bs[1..], k);
        DistinctSplit(r);
      } else {
        assert r == Kept(bs[1..], k);
      }
    }
  }

  lemma SnapshotAppend(a: seq<Body>, b: seq<Body>)
    ensures Snapshot(a + b) == Snapshot(a) + Snapshot(b)
  {
  }

  /** `for (let b of this.bodies) b.advance(dt)` on states. */
  function AdvancedAll(s: seq<BodyState>, dt: real): (r: seq<BodyState>)
    ensures |r| == |s| && forall i :: 0 <= i < |s| ==> r[i] == Advanced(s[i], dt)
  {
    seq(|s|, i requires 0 <= i < |s| => Advanced(s[i], dt))
  }

  /** `for (let b of this.bodies) b.blend_state(alpha)` on states. */
  function BlendedAll(s: seq<BodyState>, alpha: real, blend: Blend): (r: seq<BodyState>)
    ensures |r| == |s|
    ensures forall i :: 0 <= i < |s| ==>
              r[i] == s[i].(drawn := blend(s[i].previous, s[i].center, s[i].size, alpha))
  {
    seq(|s|, i requires 0 <= i < |s| => s[i].(drawn := blend(s[i].previous, s[i].center, s[i].size, alpha)))
  }

  /** What simulate leaves to be drawn: the world with every body blended. */
  function Shown(wd: World, alpha: real, blend: Blend): World
  {
    wd.(bodies := BlendedAll(wd.bodies, alpha, blend))
  }

  /** One turn of the simulate loop: update_state(dt), then advance(dt) on every body. */
  function Step(env: Env, wd: World): World
    requires WellFormed(env)
  {
    var u := UpdateSpec(env, wd, DT);
    World(MovedAll(u.bodies), u.draws)
  }

  /** Body.advance(dt) with dt written as the literal 0.05: `Advanced(b, DT)`
      multiplies by the constant DT, which the solver treats as nonlinear, so
      the loop proofs use this form and MovedIsAdvanced connects the two. */
  function Moved(b: BodyState): BodyState
  {
    b.(previous := b.center,
       center := Vec3(b.center.x + b.velocity.x * 0.05, b.center.y + b.velocity.y * 0.05, b.center.z + b.velocity.z * 0.05))
  }

  function MovedAll(s: seq<BodyState>): (r: seq<BodyState>)
    ensures |r| == |s| && forall i :: 0 <= i < |s| ==> r[i] == Moved(s[i])
  {
    seq(|s|, i requires 0 <= i < |s| => Moved(s[i]))
  }

  lemma MovedIsAdvanced(s: seq<BodyState>)
    ensures MovedAll(s) == AdvancedAll(s, DT)
  {
  }

  /** n turns of the simulate loop.  Run, Last and After are one iteration
      split over three functions: the solver unfolds a recursive function two
      levels deep, and with Step two levels below Run a goal that mentions Run
      never sees UpdateSpec; RunSucc is the one place that unfolds a turn. */
  function Run(env: Env, wd: World, n: nat): World
    requires WellFormed(env)
    decreases n, 2
  {
    if n == 0 then wd else Last(env, wd, n)
  }

  /** The world after the n-th turn. */
  function Last(env: Env, wd: World, n: nat): World
    requires WellFormed(env) && n > 0
    decreases n, 1
  {
    After(env, wd, n)
  }

  /** One step after the first n - 1 turns. */
  function After(env: Env, wd: World, n: nat): World
    requires WellFormed(env) && n > 0
    decreases n, 0
  {
    Step(env, Run(env, wd, n - 1))
  }

  lemma RunSucc(env: Env, wd: World, n: nat)
    requires WellFormed(env)
    ensures Run(env, wd, n + 1) == Step(env, Run(env, wd, n))
  {
    assert Run(env, wd, n + 1) == Last(env, wd, n + 1);
    assert Last(env, wd, n + 1) == After(env, wd, n + 1);
  }

  /** Advancing and blending never touch what makes a wall settled. */
  lemma AdvanceKeepsSettled(s: seq<BodyState>, dt: real)
    requires WallsSettled(s)
    ensures WallsSettled(AdvancedAll(s, dt))
  {
  }

  lemma BlendKeepsSettled(s: seq<BodyState>, alpha: real, blend: Blend)
    requires WallsSettled(s)
    ensures WallsSettled(BlendedAll(s, alpha, blend))
  {
  }

  /** Every state the clock reaches keeps the walls at rest. */
  lemma {:induction false} RunKeepsWallsSettled(env: Env, wd: World, n: nat)
    requires WellFormed(env) && WallsSettled(wd.bodies)
    ensures WallsSettled(Run(env, wd, n).bodies)
  {
    if n > 0 {
      var prev := Run(env, wd, n - 1);
      RunSucc(env, wd, n - 1);
      RunKeepsWallsSettled(env, wd, n - 1);
      UpdateKeepsWalls(env, prev, DT);
      AdvanceKeepsSettled(UpdateSpec(env, prev, DT).bodies, DT);
    }
  }

  class Simulation {
    var timeAccumulator: real
    var timeScale: real
    var t: real
    var bodies: seq<Body>
    var stepsTaken: nat
    /** how many random draws the scene has used */
    var draws: nat
    /** the scene, wall placements, collider, collision transform and random draws */
    const env: Env
    /** the matrix composition of blend_state */
    const blend: Blend

    /** What holds between steps and inside the simulate loop. */
    ghost predicate Consistent()
      reads this`bodies, set b | b in bodies
    {
      WellFormed(env) && Distinct(bodies) && WallsSettled(Snapshot(bodies))
    }

    /** What holds between frames: additionally, less than one time step is
        left in the accumulator. */
    ghost predicate Valid()
      reads this`bodies, this`timeAccumulator, set b | b in bodies
    {
      Consistent() && -DT < timeAccumulator < DT
    }

    function State(): World
      reads this`bodies, this`draws, set b | b in bodies
    {
      World(Snapshot(bodies), draws)
    }

    constructor (env: Env, blend: Blend)
      requires WellFormed(env)
      ensures Valid()
      ensures timeAccumulator == 0.0 && timeScale == 1.0 && t == 0.0
      ensures bodies == [] && stepsTaken == 0 && draws == 0
      ensures this.env == env && this.blend == blend
    {
      this.env := env;
      this.blend := blend;
      timeAccumulator := 0.0;
      timeScale := 1.0;
      t := 0.0;
      bodies := [];
      stepsTaken := 0;
      draws := 0;
    }

    /** simulate(frame_time) */
    method Simulate(frameTime: real)
      requires Valid()
      modifies this`timeAccumulator, this`t, this`stepsTaken, this`bodies, this`draws, set b | b in bodies
      ensures Valid()
      ensures Clock(t, timeAccumulator, stepsTaken) == FrameClock(old(Clock(t, timeAccumulator, stepsTaken)), old(timeScale * frameTime))
      ensures State() == Shown(Run(env, old(State()), stepsTaken - old(stepsTaken)), BlendFactor(timeAccumulator), blend)
    {
      var frame := timeScale * frameTime;
      var clock := Clock(t, timeAccumulator, stepsTaken);
      StartDrains(clock, frame);
      var c := CatchUp(Started(clock, frame), Sign(frame));
      Present(c);
    }

    /** The while loop of simulate.  The clock fields are carried in a value
        while the loop runs (update_state and advance do not read them) and
        stored by Present after it. */
    method CatchUp(c0: Clock, sign: real) returns (c: Clock)
      requires Consistent() && Draining(c0.accumulator, sign)
      modifies this`bodies, this`draws, set b | b in bodies
      ensures Consistent()
      ensures forall b :: b in bodies ==> b in old(bodies) || fresh(b)
      ensures c == CaughtUp(c0, sign)
      ensures State() == Run(env, old(State()), c.steps - c0.steps)
    {
      ghost var w0 := State();
      ghost var final := CaughtUp(c0, sign);
      ghost var n: nat := 0;
      c := c0;
      while Abs(c.accumulator) >= DT
        invariant Consistent()
        invariant forall b :: b in bodies ==> b in old(bodies) || fresh(b)
        invariant Draining(c.accumulator, sign) && CaughtUp(c, sign) == final
        invariant n == c.steps - c0.steps
        invariant State() == Run(env, w0, n)
        decreases final.steps - c.steps
      {
        NextClockDrains(c, sign);
        Tick(w0, n);
        c := NextClock(c, sign);
        n := n + 1;
      }
    }

    /** The end of simulate: the clock fields take the values the loop
        computed and every body is blended by the fraction of a step left. */
    method Present(c: Clock)
      requires Consistent() && -DT < c.accumulator < DT
      modifies this`t, this`timeAccumulator, this`stepsTaken, bodies`drawn
      ensures Valid() && Clock(t, timeAccumulator, stepsTaken) == c
      ensures State() == Shown(old(State()), BlendFactor(c.accumulator), blend)
    {
      t, timeAccumulator, stepsTaken := c.t, c.accumulator, c.steps;
      BlendBodies(BlendFactor(timeAccumulator));
    }

    /** One step of the loop in simulate: update_state(dt), then advance(dt)
        on every body. */
    method Tick(ghost w0: World, ghost n: nat)
      requires Consistent() && State() == Run(env, w0, n)
      modifies this`bodies, this`draws, set b | b in bodies
      ensures Consistent()
      ensures forall b :: b in bodies ==> b in old(bodies) || fresh(b)
      ensures State() == Run(env, w0, n + 1)
    {
      RunSucc(env, w0, n);
      UpdateState(DT);
      MovedIsAdvanced(Snapshot(bodies));
      AdvanceBodies(DT);
    }

    /** `for (let b of this.bodies) b.advance(dt)` */
    method AdvanceBodies(dt: real)
      requires Consistent()
      modifies bodies`previous, bodies`center
      ensures Consistent()
      ensures Snapshot(bodies) == AdvancedAll(old(Snapshot(bodies)), dt)
    {
      ghost var s := Snapshot(bodies);
      Separated(bodies);
      for i := 0 to |bodies|
        invariant forall j :: 0 <= j < i ==> bodies[j].Value() == Advanced(s[j], dt)
        invariant forall j :: i <= j < |bodies| ==> bodies[j].Value() == s[j]
      {
        bodies[i].Advance(dt);
      }
      AdvanceKeepsSettled(s, dt);
    }

    /** `for (let b of this.bodies) b.blend_state(alpha)` */
    method BlendBodies(alpha: real)
      requires Consistent()
      modifies bodies`drawn
      ensures Consistent()
      ensures State() == Shown(old(State()), alpha, blend)
    {
      ghost var s := Snapshot(bodies);
      Separated(bodies);
      for i := 0 to |bodies|
        invariant forall j :: 0 <= j < i ==> bodies[j].Value() == s[j].(drawn := blend(s[j].previous, s[j].center, s[j].size, alpha))
        invariant forall j :: i <= j < |bodies| ==> bodies[j].Value() == s[j]
      {
        bodies[i].BlendState(alpha, blend);
      }
      BlendKeepsSettled(s, alpha, blend);
    }

    /** update_state(dt) of the scene */
    method UpdateState(dt: real)
      requires Consistent()
      modifies this`bodies, this`draws, set b | b in bodies
      ensures Consistent()
      ensures forall b :: b in bodies ==> b in old(bodies) || fresh(b)
      ensures State() == UpdateSpec(env, old(State()), dt)
    {
      ghost var w0 := State();
      Populate();
      Cull();
      AgeBodies(dt);
      Collide();
      UpdateKeepsWalls(env, w0, dt);
    }

    /** The room on the first call and, in test.js, the cubes that bring the
        list up to six. */
    method Populate()
      requires WellFormed(env) && Distinct(bodies)
      modifies this`bodies, this`draws
      ensures Distinct(bodies) && forall b :: b in bodies ==> b in old(bodies) || fresh(b)
      ensures State() == Furnish(env, old(State()))
    {
      ghost var w0 := State();
      if |bodies| == 0 {
        BuildWalls();
      }
      FurnishUnfold(env, w0, State());
      if env.scene.topUp {
        SpawnCubes();
      }
    }

    /** The two filters: by lifetime, then by size. */
    method Cull()
      requires Distinct(bodies)
      modifies this`bodies
      ensures Distinct(bodies) && forall b :: b in bodies ==> b in old(bodies)
      ensures Snapshot(bodies) == Survivors(old(Snapshot(bodies)), env.scene)
    {
      var lasting := Kept(bodies, Lasting(env.scene));
      KeptDistinct(bodies, Lasting(env.scene));
      KeptDistinct(lasting, Sizable);
      bodies := Kept(lasting, Sizable);
    }

    /** The room of the first call: one wall per tag of the scene, in order. */
    method BuildWalls()
      requires WellFormed(env) && bodies == []
      modifies this`bodies, this`draws
      ensures Distinct(bodies) && forall b :: b in bodies ==> fresh(b)
      ensures State() == World(RoomWalls(env, old(draws)), old(draws) + RoomDraws(env.scene))
    {
      ghost var k := draws;
      var i := 0;
      while i < |env.scene.walls|
        invariant 0 <= i <= |env.scene.walls| && |bodies| == i
        invariant Distinct(bodies) && forall b :: b in bodies ==> fresh(b)
        invariant forall j :: 0 <= j < i ==> bodies[j].Value() == RoomWalls(env, k)[j]
        invariant draws == k + if env.scene.randomHeight then i else 0
      {
        var size := Vec3(1.0, 1.0, 1.0);
        if env.scene.randomHeight {
          size := Vec3(1.0, 1.0 + env.random(draws).lift, 1.0);
          draws := draws + 1;
        }
        var b := new Body(size, env.scene.walls[i], false, 0.0, env.layout[i], Zero);
        DistinctAppend(bodies, b);
        bodies := bodies + [b];
        i := i + 1;
      }
    }

    /** `while (this.bodies.length < 6) this.bodies.push(<cube>)` */
    method SpawnCubes()
      requires Distinct(bodies)
      modifies this`bodies, this`draws
      ensures Distinct(bodies) && forall b :: b in bodies ==> b in old(bodies) || fresh(b)
      ensures State() == TopUp(env, old(State()))
    {
      ghost var w0 := State();
      while |bodies| < Population
        invariant Distinct(bodies) && forall b :: b in bodies ==> b in old(bodies) || fresh(b)
        invariant TopUp(env, State()) == TopUp(env, w0)
        decreases Population - |bodies|
      {
        TopUpStep(env, State());
        var b := PushCube();
      }
    }

    /** The body of the spawning loop: a unit cube at the next random place,
        launched with that draw's velocity. */
    method PushCube() returns (b: Body)
      requires Distinct(bodies)
      modifies this`bodies, this`draws
      ensures Distinct(bodies) && bodies == old(bodies) + [b] && fresh(b)
      ensures State() == WithCube(env, old(State()))
    {
      var d := env.random(draws);
      b := new Body(Vec3(1.0, 1.0, 1.0), U, false, 0.0, Translation(d.place), d.launch);
      DistinctAppend(bodies, b);
      SnapshotAppend(bodies, [b]);
      bodies := bodies + [b];
      draws := draws + 1;
    }

    /** The aging loop: movable bodies age by dt and fall. */
    method AgeBodies(dt: real)
      requires Distinct(bodies)
      modifies set b | b in bodies
      ensures bodies == old(bodies) && draws == old(draws)
      ensures Snapshot(bodies) == AgeAll(old(Snapshot(bodies)), dt)
    {
      ghost var s := Snapshot(bodies);
      Separated(bodies);
      for i := 0 to |bodies|
        invariant forall j :: 0 <= j < i ==> bodies[j].Value() == Aged(s[j], dt)
        invariant forall j :: i <= j < |bodies| ==> bodies[j].Value() == s[j]
      {
        var a := bodies[i];
        if a.temporary == U {
          a.duration := a.duration + dt;
          a.velocity := With(a.velocity, Y, a.velocity.y + dt * Gravity);
        }
      }
    }

    /** The collision process: `walls` are the bodies that are not movable. */
    method Collide()
      requires WellFormed(env) && Distinct(bodies)
      modifies this`bodies, this`draws, set b | b in bodies
      ensures Distinct(bodies) && forall b :: b in bodies ==> b in old(bodies) || fresh(b)
      ensures State() == CollisionPass(env, Filter(old(Snapshot(bodies)), Walls), old(State()))
    {
      var walls := Kept(bodies, Walls);
      KeptDistinct(bodies, Walls);
      forall m | 0 <= m < |walls| ensures walls[m].temporary != U {
        assert walls[m] in walls;
      }
      SweepAll(walls, Snapshot(walls), State());
    }

    /** `for (let w of walls)` around the inner loop. */
    method SweepAll(walls: seq<Body>, ghost ws: seq<BodyState>, ghost w0: World)
      requires WellFormed(env) && Distinct(bodies)
      requires |walls| == |ws| && forall m :: 0 <= m < |walls| ==> walls[m].Value() == ws[m] && walls[m].temporary != U
      requires |bodies| == |w0.bodies| && forall m :: 0 <= m < |bodies| ==> bodies[m].Value() == w0.bodies[m]
      requires draws == w0.draws
      modifies this`bodies, this`draws, set b | b in bodies && b.temporary == U
      ensures Distinct(bodies) && forall b :: b in bodies ==> b in old(bodies) || fresh(b)
      ensures State() == CollisionPass(env, ws, w0)
    {
      ghost var cur := w0;
      for j := 0 to |walls|
        invariant Distinct(bodies) && forall b :: b in bodies ==> b in old(bodies) || fresh(b)
        invariant forall m :: j <= m < |walls| ==> walls[m].Value() == ws[m]
        invariant |bodies| == |cur.bodies| && forall m :: 0 <= m < |bodies| ==> bodies[m].Value() == cur.bodies[m]
        invariant draws == cur.draws
        invariant CollisionPass(env, ws[j..], cur) == CollisionPass(env, ws, w0)
      {
        assert ws[j..][1..] == ws[j + 1..];
        Sweep(walls[j], cur);
        cur := InnerPass(env, ws[j], cur, 0);
      }
      assert Snapshot(bodies) == cur.bodies;
    }

    /** `for (let b of this.bodies)` against wall w; the debris pushed during
        the loop are visited by the same loop. */
    method Sweep(w: Body, ghost w0: World)
      requires WellFormed(env) && Distinct(bodies) && w.temporary != U
      requires |bodies| == |w0.bodies| && forall m :: 0 <= m < |bodies| ==> bodies[m].Value() == w0.bodies[m]
      requires draws == w0.draws
      modifies this`bodies, this`draws, set b | b in bodies && b.temporary == U
      ensures Distinct(bodies) && forall b :: b in bodies ==> b in old(bodies) || fresh(b)
      ensures var r := InnerPass(env, w.Value(), w0, 0);
              |bodies| == |r.bodies| && (forall m :: 0 <= m < |bodies| ==> bodies[m].Value() == r.bodies[m]) && draws == r.draws
    {
      ghost var wv := w.Value();
      ghost var cur := w0;
      var i := 0;
      while i < |bodies|
        invariant 0 <= i <= |bodies| == |cur.bodies|
        invariant Distinct(bodies) && forall b :: b in bodies ==> b in old(bodies) || fresh(b)
        invariant w.Value() == wv
        invariant forall m :: 0 <= m < |bodies| ==> bodies[m].Value() == cur.bodies[m]
        invariant draws == cur.draws
        invariant InnerPass(env, wv, cur, i) == InnerPass(env, wv, w0, 0)
        decreases Pending(cur.bodies, i)
      {
        VisitDecreases(env, wv, cur, i);
        Meet(w, i, cur);
        cur := Visit(env, wv, cur, i);
        i := i + 1;
      }
    }

    /** One turn of the inner loop: wall w meets the body at index i.  Walls
        are skipped; a movable body that collides has its velocity reflected
        as the wall's type says and, unless it is debris, shrinks and shatters. */
    method Meet(w: Body, i: nat, ghost cur: World)
      requires WellFormed(env) && Distinct(bodies) && w.temporary != U && i < |bodies| == |cur.bodies|
      requires forall m :: 0 <= m < |bodies| ==> bodies[m].Value() == cur.bodies[m]
      requires draws == cur.draws
      modifies this`bodies, this`draws, if bodies[i].temporary == U then {bodies[i]} else {}
      ensures Distinct(bodies) && forall b :: b in bodies ==> b in old(bodies) || fresh(b)
      ensures |bodies| == |Visit(env, w.Value(), cur, i).bodies|
      ensures forall m :: 0 <= m < |bodies| ==> bodies[m].Value() == Visit(env, w.Value(), cur, i).bodies[m]
      ensures draws == Visit(env, w.Value(), cur, i).draws
    {
      Separated(bodies);
      var b := bodies[i];
      if b.temporary == U && w.CheckIfColliding(b, env.collider, env.toLocal) {
        b.velocity := Reflect(w.temporary, b.velocity);
        if !b.debris {
          var s := b.size;
          b.size := Times(s, 1.0 / Shrink);
          AppendDebris(s, b.drawn);
        }
      }
    }

    /** The shattering loop: four debris of size / divisor at the drawn location. */
    method AppendDebris(size: Vec3, at: Mat4)
      requires WellFormed(env) && Distinct(bodies)
      modifies this`bodies, this`draws
      ensures Distinct(bodies) && |bodies| == old(|bodies|) + ShardCount && bodies[..old(|bodies|)] == old(bodies)
      ensures forall m :: old(|bodies|) <= m < |bodies| ==> fresh(bodies[m])
      ensures forall m :: old(|bodies|) <= m < |bodies| ==>
                bodies[m].Value() == Shards(env, size, at, old(draws))[m - old(|bodies|)]
      ensures draws == old(draws) + ShardCount
    {
      ghost var k := draws;
      ghost var ds := Shards(env, size, at, k);
      ghost var n := |bodies|;
      for i := 0 to ShardCount
        invariant |bodies| == n + i && bodies[..n] == old(bodies)
        invariant forall m :: n <= m < |bodies| ==> fresh(bodies[m])
        invariant Distinct(bodies)
        invariant forall m :: n <= m < |bodies| ==> bodies[m].Value() == ds[m - n]
        invariant draws == k + i
      {
        var d := new Body(Times(size, 1.0 / env.scene.debrisDivisor), U, true, 0.0, at, env.random(draws).launch);
        DistinctAppend(bodies, d);
        bodies := bodies + [d];
        draws := draws + 1;
      }
    }

    /** drop_object: one movable cube of size (2, 2, 2) at the given placement,
        launched with the next random velocity. */
    method DropObject(location: Mat4)
      requires Valid()
      modifies this`bodies, this`draws
      ensures Valid()
      ensures State() == World(old(Snapshot(bodies)) + [Placed(Vec3(2.0, 2.0, 2.0), U, false, 0.0, location, env.random(old(draws)).launch)],
                               old(draws) + 1)
    {
      var b := new Body(Vec3(2.0, 2.0, 2.0), U, false, 0.0, location, env.random(draws).launch);
      DistinctAppend(bodies, b);
      SnapshotAppend(bodies, [b]);
      bodies := bodies + [b];
      draws := draws + 1;
    }

    /** throw_object: one movable cube of size (1, 1, 1) at the given
        placement, moving in the given direction. */
    method ThrowObject(location: Mat4, direction: Vec3)
      requires Valid()
      modifies this`bodies
      ensures Valid()
      ensures Snapshot(bodies) == old(Snapshot(bodies)) + [Placed(Vec3(1.0, 1.0, 1.0), U, false, 0.0, location, direction)]
    {
      var b := new Body(Vec3(1.0, 1.0, 1.0), U, false, 0.0, location, direction);
      DistinctAppend(bodies, b);
      SnapshotAppend(bodies, [b]);
      bodies := bodies + [b];
    }
  }
}
