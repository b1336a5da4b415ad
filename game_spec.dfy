/** The per-tick simulation of the runner as pure functions over values: the
    reference the imperative engine in module Game is proved against, and the
    place where the promises of one tick are proved. */
module GameSpec {
  import opened Base
  import opened Constants
  import opened Types

  /** The player record, with the furthest-x bookkeeping made explicit. */
  datatype PlayerV = PlayerV(
    x: real, y: real, vx: real, vy: real, grounded: bool, ducking: bool,
    coyote: real, jumpBuf: real, anim: real, maxX: Option<real>)

  /** Everything one tick reads and writes; `drawn` counts the random values
      consumed so far. */
  datatype World = World(
    player: PlayerV, camX: real, obstacles: seq<Obstacle>, nextSpawnX: real,
    drawn: nat, score: real, paused: bool, gameOver: bool)

  /** The fresh state exactly as the engine builds it: no furthest-x mark. */
  function InitialWorld(): (w: World)
    ensures w.player.maxX == None
  {
    World(PlayerV(50.0, GroundY - PlayerH, 0.0, 0.0, true, false, 0.0, 0.0, 0.0, None),
          0.0, [], 400.0, 0, 0.0, false, false)
  }

  /** The fresh state with the furthest-x mark set to the starting x, so that
      progress to the right is scored from the first tick on. */
  function FreshWorld(): (w: World)
    ensures w == InitialWorld().(player := InitialWorld().player.(maxX := Some(50.0)))
    ensures Tracked(w)
  {
    World(PlayerV(50.0, GroundY - PlayerH, 0.0, 0.0, true, false, 0.0, 0.0, 0.0, Some(50.0)),
          0.0, [], 400.0, 0, 0.0, false, false)
  }

  /** The on-screen touch buttons, each held or not. */
  datatype Touch = Touch(left: bool, right: bool, jump: bool, duck: bool)

  datatype Input = Input(left: bool, right: bool, up: bool, down: bool)

  /** `keys[code]` as a truth value: a code never pressed reads as false. */
  predicate Held(keys: map<string, bool>, code: string) {
    code in keys && keys[code]
  }

  function ReadInput(keys: map<string, bool>, touch: Touch): Input {
    Input(Held(keys, "ArrowLeft") || Held(keys, "KeyA") || touch.left,
          Held(keys, "ArrowRight") || Held(keys, "KeyD") || touch.right,
          Held(keys, "ArrowUp") || Held(keys, "Space") || touch.jump,
          Held(keys, "ArrowDown") || Held(keys, "KeyS") || touch.duck)
  }

  /** The codes the engine listens to. */
  const Bound: set<string> :=
    {"ArrowLeft", "KeyA", "ArrowRight", "KeyD", "ArrowUp", "Space", "ArrowDown", "KeyS"}

  /** Pressing more keys or buttons never releases a direction, and a key
      outside the eight bound codes changes nothing. */
  lemma ReadInputMonotone(keys: map<string, bool>, more: map<string, bool>, t: Touch, u: Touch)
    requires forall c :: Held(keys, c) ==> Held(more, c)
    requires (t.left ==> u.left) && (t.right ==> u.right) && (t.jump ==> u.jump) && (t.duck ==> u.duck)
    ensures ReadInput(keys, t).left ==> ReadInput(more, u).left
    ensures ReadInput(keys, t).right ==> ReadInput(more, u).right
    ensures ReadInput(keys, t).up ==> ReadInput(more, u).up
    ensures ReadInput(keys, t).down ==> ReadInput(more, u).down
  {
  }

  lemma ReadInputIgnoresUnbound(keys: map<string, bool>, code: string, b: bool, t: Touch)
    requires code !in Bound
    ensures ReadInput(keys[code := b], t) == ReadInput(keys, t)
  {
    assert forall c :: c in Bound ==> Held(keys[code := b], c) == Held(keys, c);
  }

  /** The height of the player's box: the ducked height is floor(48 * 0.6). */
  function Height(ducking: bool): (h: real)
    ensures h == if ducking then 28.0 else PlayerH
  {
    if ducking then Floor(PlayerH * 0.6) as real else PlayerH
  }

  // ---------------------------------------------------------------- player

  /** Horizontal speed: friction when no direction is held, otherwise a step of
      `Accel * dt` towards the target speed; then the run-speed clamp. */
  function RunVelocity(vx: real, left: bool, right: bool, dt: real): real {
    var v :=
      if !left && !right then vx * Friction
      else
        var target := (if right then MaxRunSpeed else 0.0) - (if left then MaxRunSpeed else 0.0);
        vx + Sign(target - vx) * Accel * dt;
    Max(-MaxRunSpeed, Min(MaxRunSpeed, v))
  }

  function Target(left: bool, right: bool): real {
    (if right then MaxRunSpeed else 0.0) - (if left then MaxRunSpeed else 0.0)
  }

  lemma RunVelocityFacts(vx: real, left: bool, right: bool, dt: real)
    requires dt >= 0.0
    ensures -MaxRunSpeed <= RunVelocity(vx, left, right, dt) <= MaxRunSpeed
    ensures !left && !right && -MaxRunSpeed <= vx <= MaxRunSpeed ==>
      RunVelocity(vx, left, right, dt) == vx * Friction
    ensures (left || right) && -MaxRunSpeed <= vx <= MaxRunSpeed ==>
      (Target(left, right) > vx ==> RunVelocity(vx, left, right, dt) >= vx) &&
      (Target(left, right) < vx ==> RunVelocity(vx, left, right, dt) <= vx) &&
      (Target(left, right) == vx ==> RunVelocity(vx, left, right, dt) == vx)
  {
  }

  function JumpTimers(p: PlayerV, up: bool, dt: real): PlayerV {
    p.(jumpBuf := if up then JumpBuffer else Max(0.0, p.jumpBuf - dt),
       coyote := if p.grounded then CoyoteTime else Max(0.0, p.coyote - dt))
  }

  /** Releasing the jump key while rising cuts the upward speed. */
  function CutJump(p: PlayerV, up: bool): PlayerV {
    if !up && p.vy < 0.0 then p.(vy := p.vy * 0.55) else p
  }

  predicate JumpReady(p: PlayerV) {
    p.jumpBuf > 0.0 && p.coyote > 0.0
  }

  function ConsumeJump(p: PlayerV): PlayerV {
    if JumpReady(p) then p.(vy := -JumpVel, grounded := false, coyote := 0.0, jumpBuf := 0.0) else p
  }

  function Fall(p: PlayerV, dt: real): PlayerV {
    p.(vy := Min(MaxFallSpeed, p.vy + Gravity * dt))
  }

  /** The player after the velocity phases of a tick, with the position it
      is about to take and the height of its box (position not yet written). */
  datatype Motion = Motion(p: PlayerV, nextX: real, nextY: real, ph: real)

  /** The velocity phases before the ground test. */
  function Airborne(p0: PlayerV, inp: Input, dt: real): PlayerV {
    Fall(ConsumeJump(CutJump(JumpTimers(Walk(p0, inp, dt), inp.up, dt), inp.up)), dt)
  }

  /** Ducking (only from the ground) and the horizontal speed. */
  function Walk(p: PlayerV, inp: Input, dt: real): PlayerV {
    p.(ducking := inp.down && p.grounded, vx := RunVelocity(p.vx, inp.left, inp.right, dt))
  }

  function Move(p0: PlayerV, inp: Input, dt: real): Motion {
    Land(Airborne(p0, inp, dt), dt)
  }

  /** Integration and the flat-ground test: a box reaching the ground is
      set on it with zero vertical speed. */
  function Land(p: PlayerV, dt: real): Motion {
    var nextX := p.x + p.vx * dt;
    var nextY := p.y + p.vy * dt;
    var ph := Height(p.ducking);
    if nextY + ph >= GroundY then Motion(p.(vy := 0.0, grounded := true), nextX, GroundY - ph, ph)
    else Motion(p.(grounded := false), nextX, nextY, ph)
  }

  /** One tick of player motion: ducking only from the ground, the clamped
      speeds, the landing rule, and the position left alone. */
  lemma MoveFacts(p0: PlayerV, inp: Input, dt: real)
    requires 0.0 <= dt
    ensures var m := Move(p0, inp, dt);
      && (m.p.ducking <==> inp.down && p0.grounded)
      && -MaxRunSpeed <= m.p.vx <= MaxRunSpeed
      && m.p.vy <= MaxFallSpeed
      && m.ph == Height(m.p.ducking)
      && m.nextX == p0.x + m.p.vx * dt
      && m.nextY + m.ph <= GroundY
      && (m.p.grounded <==> m.nextY + m.ph == GroundY)
      && (m.p.grounded ==> m.p.vy == 0.0)
      && (!m.p.grounded ==> m.nextY == p0.y + m.p.vy * dt)
      && m.p.x == p0.x && m.p.y == p0.y && m.p.anim == p0.anim && m.p.maxX == p0.maxX
  {
    AirborneFacts(p0, inp, dt);
    LandFacts(Airborne(p0, inp, dt), dt);
  }

  lemma AirborneFacts(p0: PlayerV, inp: Input, dt: real)
    requires 0.0 <= dt
    ensures var p := Airborne(p0, inp, dt);
      && (p.ducking <==> inp.down && p0.grounded)
      && -MaxRunSpeed <= p.vx <= MaxRunSpeed
      && p.vy <= MaxFallSpeed
      && p.x == p0.x && p.y == p0.y && p.anim == p0.anim && p.maxX == p0.maxX
  {
    RunVelocityFacts(p0.vx, inp.left, inp.right, dt);
  }

  /** The ground test keeps the box on or above the ground. */
  lemma LandFacts(p: PlayerV, dt: real)
    ensures var m := Land(p, dt);
      && m.p == p.(vy := m.p.vy, grounded := m.p.grounded)
      && m.ph == Height(p.ducking)
      && m.nextX == p.x + p.vx * dt
      && m.nextY + m.ph <= GroundY
      && (m.p.grounded <==> m.nextY + m.ph == GroundY)
      && (m.p.grounded ==> m.p.vy == 0.0)
      && (!m.p.grounded ==> m.nextY == p.y + p.vy * dt && m.p.vy == p.vy)
  {
  }

  /** The jump timers stay within their windows. */
  lemma TimersBounded(p0: PlayerV, inp: Input, dt: real)
    requires 0.0 <= dt
    requires 0.0 <= p0.jumpBuf <= JumpBuffer && 0.0 <= p0.coyote <= CoyoteTime
    ensures var m := Move(p0, inp, dt);
      0.0 <= m.p.jumpBuf <= JumpBuffer && 0.0 <= m.p.coyote <= CoyoteTime
  {
  }

  /** When both timers are still open after their update a jump fires: both
      are zeroed, and unless the player lands in the same tick the vertical
      speed is the jump speed plus one tick of gravity. */
  lemma JumpFires(p0: PlayerV, inp: Input, dt: real)
    requires JumpReady(JumpTimers(p0, inp.up, dt))
    ensures var m := Move(p0, inp, dt);
      && m.p.jumpBuf == 0.0 && m.p.coyote == 0.0
      && (!m.p.grounded ==> m.p.vy == Min(MaxFallSpeed, -JumpVel + Gravity * dt))
  {
  }

  /** A player standing on the ground who presses jump leaves the ground in
      the same tick. */
  lemma TakeOff(p0: PlayerV, inp: Input, dt: real)
    requires 0.0 < dt <= MaxDt
    requires p0.grounded && inp.up
    requires p0.y + Height(inp.down) <= GroundY
    ensures var m := Move(p0, inp, dt);
      && !m.p.grounded && m.p.vy == -JumpVel + Gravity * dt && m.nextY < p0.y
      && m.p.jumpBuf == 0.0 && m.p.coyote == 0.0
  {
    var m := Move(p0, inp, dt);
    var v := -JumpVel + Gravity * dt;
    assert v < 0.0;
    assert Airborne(p0, inp, dt).vy == v;
    assert v * dt < 0.0;
  }

  /** Without the coyote window and off the ground no jump fires: holding the
      key in the air does nothing, and releasing it while rising cuts the
      upward speed to 55%. */
  lemma NoJumpInAir(p0: PlayerV, inp: Input, dt: real)
    requires !p0.grounded && p0.coyote <= dt
    ensures var m := Move(p0, inp, dt);
      && m.p.coyote == 0.0
      && (!m.p.grounded ==>
            m.p.vy == Min(MaxFallSpeed, (if !inp.up && p0.vy < 0.0 then p0.vy * 0.55 else p0.vy) + Gravity * dt))
  {
  }

  // -------------------------------------------------------------- collision

  /** Only obstacles within [camX - 100, camX + 1300] are tested. */
  predicate Near(ob: Obstacle, camX: real) {
    !(ob.x + ob.w < camX - 100.0 || ob.x > camX + ViewWidth + 300.0)
  }

  predicate Blocked(obs: seq<Obstacle>, box: Rect, camX: real, overlap: Overlap) {
    exists i :: 0 <= i < |obs| && Near(obs[i], camX) && overlap(box, BoxOf(obs[i]))
  }

  // ----------------------------------------------------------------- camera

  /** Auto-scroll, then ease 8% towards keeping the player at 35% of the view,
      never left of the origin. */
  function Follow(camX: real, px: real, dt: real): (c: real)
    ensures c >= 0.0
  {
    var c1 := camX + BaseSpeed * dt;
    var desired := px - ViewWidth * 0.35;
    var c2 := c1 + (desired - c1) * 0.08;
    if c2 < 0.0 then 0.0 else c2
  }

  // -------------------------------------------------------------- spawning

  /** The three flight heights of a bird (tops at 160, 110 and 200). */
  const BirdBands: seq<real> := [GroundY - 110.0, GroundY - 160.0, GroundY - 70.0]

  /** `rng() * 1e9 | 0`. */
  function ObstacleId(r: Draw): (id: int)
    ensures 0 <= id < 1_000_000_000
  {
    ToInt32Small(r * 1_000_000_000.0);
    ToInt32(r * 1_000_000_000.0)
  }

  /** `count` cacti of height `cH` standing on the ground, 32 apart from
      `startX`, their ids drawn from the stream from position `d` on. */
  function Cluster(rng: Stream, d: nat, startX: real, cH: real, count: nat): (r: seq<Obstacle>)
    ensures |r| == count && forall i :: 0 <= i < count ==> r[i].kind == Cactus
  {
    seq(count, i requires 0 <= i < count =>
      Obstacle(ObstacleId(rng(d + i)), startX + (i * 32) as real, 18.0, cH, Cactus, GroundY - cH, None))
  }

  predicate CactusShaped(ob: Obstacle) {
    ob.kind == Cactus && ob.w == 18.0 && 36.0 <= ob.h <= 69.0 && ob.y + ob.h == GroundY
    && ob.vy == None && 0 <= ob.id < 1_000_000_000
  }

  predicate BirdShaped(ob: Obstacle) {
    ob.kind == Bird && ob.w == 40.0 && ob.h == 24.0 && ob.y in BirdBands
    && (ob.vy == Some(40.0) || ob.vy == Some(-40.0)) && 0 <= ob.id < 1_000_000_000
  }

  /** The obstacles added by one spawn step, the new cursor, and the draws used. */
  datatype Group = Group(added: seq<Obstacle>, next: real, drawn: nat)

  /** The obstacles of one spawn step and the stream position after them. */
  datatype Batch = Batch(added: seq<Obstacle>, drawn: nat)

  /** One pass of the spawn loop: a gap of 160..359, then a cactus cluster
      (80% of draws) or a bird, then a further 80..199. */
  function SpawnGroup(rng: Stream, next: real, d: nat): (g: Group)
    ensures next + 240.0 <= g.next <= next + 558.0
    ensures g.drawn >= d + 5
    ensures 1 <= |g.added| <= 3
  {
    var at := next + Spread(rng, d, 160, 200.0) as real;
    var b := Pick(rng, at, d + 1);
    Group(b.added, at + Spread(rng, b.drawn, 80, 120.0) as real, b.drawn + 1)
  }

  /** A spawn step is the first gap, the pick, then the second gap. */
  lemma SpawnGroupSteps(rng: Stream, next: real, d: nat, at: real, b: Batch)
    requires at == next + Spread(rng, d, 160, 200.0) as real && b == Pick(rng, at, d + 1)
    ensures SpawnGroup(rng, next, d) == Group(b.added, at + Spread(rng, b.drawn, 80, 120.0) as real, b.drawn + 1)
  {
  }

  /** `base + Math.floor(rng() * span)`: a whole number from `base` up to
      below `base + span`. */
  function Spread(rng: Stream, d: nat, base: int, span: real): (r: int)
    requires span >= 0.0
    ensures base <= r && (r - base) as real <= span
    ensures span > 0.0 ==> (r - base) as real < span
  {
    assert rng(d) * span >= 0.0 && (span > 0.0 ==> rng(d) * span < span) by {
      if span > 0.0 {
        MulLess(span, rng(d), 1.0);
        MulLessEq(span, 0.0, rng(d));
      }
    }
    base + Floor(rng(d) * span)
  }

  /** The obstacle of one group: a draw below 0.8 picks a cactus cluster,
      any other a bird. */
  function Pick(rng: Stream, at: real, d: nat): (b: Batch)
    ensures 1 <= |b.added| <= 3 && d + 4 <= b.drawn <= d + 6
    ensures rng(d) >= 0.8 <==> |b.added| == 1 && b.added[0].kind == Bird
  {
    var t := rng(d);
    if t < 0.8 then Cacti(rng, at, t, d + 1) else BirdAt(rng, at, d + 1)
  }

  /** A cactus cluster at `at`: its height, its size chosen by `t`, its
      offset, then one id per cactus. */
  function Cacti(rng: Stream, at: real, t: real, d: nat): (b: Batch)
    ensures 1 <= |b.added| <= 3 && b.drawn == d + 2 + |b.added|
  {
    var cH := (36 + Floor(rng(d) * 34.0)) as real;
    var count := if t < 0.4 then 1 else if t < 0.65 then 2 else 3;
    var startX := at + Floor(rng(d + 1) * 70.0) as real;
    Batch(Cluster(rng, d + 2, startX, cH, count), d + 2 + count)
  }

  /** A bird at `at`: its band, its id, then the direction of its speed. */
  function BirdAt(rng: Stream, at: real, d: nat): (b: Batch)
    ensures |b.added| == 1 && b.drawn == d + 3
  {
    var band := BirdBands[Floor(rng(d) * 3.0)];
    var id := ObstacleId(rng(d + 1));
    var vy := if rng(d + 2) < 0.5 then 40.0 else -40.0;
    Batch([Obstacle(id, at, 40.0, 24.0, Bird, band, Some(vy))], d + 3)
  }

  /** A row of cacti of one height, 32 apart. */
  predicate CactusRow(c: seq<Obstacle>) {
    && (forall i :: 0 <= i < |c| ==> CactusShaped(c[i]))
    && (forall i :: 0 < i < |c| ==> c[i].x == c[i - 1].x + 32.0 && c[i].h == c[0].h)
  }

  lemma ClusterIsRow(rng: Stream, d: nat, startX: real, cH: real, count: nat)
    requires 36.0 <= cH <= 69.0
    ensures CactusRow(Cluster(rng, d, startX, cH, count))
    ensures forall i :: 0 <= i < count ==> Cluster(rng, d, startX, cH, count)[i].x >= startX
  {
    var c := Cluster(rng, d, startX, cH, count);
    forall i | 0 <= i < count ensures CactusShaped(c[i]) {
      var id := ObstacleId(rng(d + i));
      assert c[i] == Obstacle(id, startX + (i * 32) as real, 18.0, cH, Cactus, GroundY - cH, None);
    }
    forall i | 0 < i < count ensures c[i].x == c[i - 1].x + 32.0 && c[i].h == c[0].h {
      assert c[i].x == startX + (i * 32) as real;
      assert c[i - 1].x == startX + ((i - 1) * 32) as real;
    }
  }

  /** A spawn step adds either 1 to 3 cacti 32 apart of one height, or one
      bird, all right of the old cursor by at least the minimum gap. */
  lemma SpawnGroupShapes(rng: Stream, next: real, d: nat)
    ensures var g := SpawnGroup(rng, next, d);
      CactusRow(g.added) || (|g.added| == 1 && BirdShaped(g.added[0]))
    ensures var g := SpawnGroup(rng, next, d);
      forall i :: 0 <= i < |g.added| ==> next + 160.0 <= g.added[i].x
  {
    var at := next + Spread(rng, d, 160, 200.0) as real;
    var t := rng(d + 1);
    if t < 0.8 {
      var cH := (36 + Floor(rng(d + 2) * 34.0)) as real;
      var count := if t < 0.4 then 1 else if t < 0.65 then 2 else 3;
      var startX := at + Floor(rng(d + 3) * 70.0) as real;
      assert SpawnGroup(rng, next, d).added == Cluster(rng, d + 4, startX, cH, count);
      ClusterIsRow(rng, d + 4, startX, cH, count);
    } else {
      var k := Floor(rng(d + 2) * 3.0);
      assert BirdBands[k] in BirdBands;
    }
  }

  /** The result of the whole spawn loop. */
  datatype Spawned = Spawned(obstacles: seq<Obstacle>, next: real, drawn: nat)

  function Gap(next: real, front: real): nat {
    if next < front then (front - next).Floor + 1 else 0
  }

  /** `while (nextSpawnX < front) { ... }`. */
  function SpawnAhead(rng: Stream, obs: seq<Obstacle>, next: real, d: nat, front: real): Spawned
    decreases Gap(next, front)
  {
    if next < front then
      var g := SpawnGroup(rng, next, d);
      SpawnAhead(rng, obs + g.added, g.next, g.drawn, front)
    else
      Spawned(obs, next, d)
  }

  predicate Shaped(ob: Obstacle) {
    CactusShaped(ob) || BirdShaped(ob)
  }

  /** The spawn loop leaves the cursor at or past the front, never moves it
      back, keeps the old obstacles as a prefix and only appends well-shaped
      ones lying right of the old cursor. */
  lemma {:induction false} SpawnAheadFacts(rng: Stream, obs: seq<Obstacle>, next: real, d: nat, front: real)
    ensures var s := SpawnAhead(rng, obs, next, d, front);
      && s.next >= front && s.next >= next && s.drawn >= d
      && (next < front ==> s.next >= next + 240.0)
      && obs <= s.obstacles
      && (forall i :: |obs| <= i < |s.obstacles| ==> Shaped(s.obstacles[i]) && s.obstacles[i].x >= next + 160.0)
    decreases Gap(next, front)
  {
    if next < front {
      var g := SpawnGroup(rng, next, d);
      SpawnGroupShapes(rng, next, d);
      SpawnAheadFacts(rng, obs + g.added, g.next, g.drawn, front);
      var s := SpawnAhead(rng, obs, next, d, front);
      assert s == SpawnAhead(rng, obs + g.added, g.next, g.drawn, front);
      forall i | |obs| <= i < |s.obstacles|
        ensures Shaped(s.obstacles[i]) && s.obstacles[i].x >= next + 160.0
      {
        if i < |obs| + |g.added| {
          assert s.obstacles[i] == (obs + g.added)[i] == g.added[i - |obs|];
        }
      }
    }
  }

  // ------------------------------------------------------------------ birds

  /** A bird with a non-zero speed moves by `vy * dt`, and its speed flips when
      it ends up above y = 70 or below y = 210. */
  function MoveBird(ob: Obstacle, dt: real): Obstacle {
    if ob.kind == Bird && ob.vy.Some? && ob.vy.value != 0.0 then
      var y := ob.y + ob.vy.value * dt;
      ob.(y := y, vy := if y < GroundY - 200.0 || y > GroundY - 60.0 then Some(ob.vy.value * -1.0) else ob.vy)
    else ob
  }

  function MoveBirds(obs: seq<Obstacle>, dt: real): (r: seq<Obstacle>)
    ensures |r| == |obs|
  {
    seq(|obs|, i requires 0 <= i < |obs| => MoveBird(obs[i], dt))
  }

  /** Moving a bird changes only its height and the sign of its speed, and
      the sign flips exactly when the bird leaves the band [70, 210]. */
  lemma MoveBirdFacts(ob: Obstacle, dt: real)
    ensures var r := MoveBird(ob, dt);
      && r.id == ob.id && r.x == ob.x && r.w == ob.w && r.h == ob.h && r.kind == ob.kind
      && (r.vy.Some? <==> ob.vy.Some?)
      && (ob.vy.Some? ==> Abs(r.vy.value) == Abs(ob.vy.value))
      && (ob.kind == Cactus ==> r == ob)
      && (ob.kind == Bird && ob.vy.Some? && ob.vy.value != 0.0 ==>
            r.y == ob.y + ob.vy.value * dt &&
            (r.vy == Some(-ob.vy.value) <==> (r.y < GroundY - 200.0 || r.y > GroundY - 60.0)))
  {
  }

  /** Shape of an obstacle apart from a bird's height, kept by every tick. */
  predicate Sized(ob: Obstacle) {
    || CactusShaped(ob)
    || (ob.kind == Bird && ob.w == 40.0 && ob.h == 24.0
        && (ob.vy == Some(40.0) || ob.vy == Some(-40.0)) && 0 <= ob.id < 1_000_000_000)
  }

  lemma MoveBirdsKeepsSized(obs: seq<Obstacle>, dt: real)
    requires forall i :: 0 <= i < |obs| ==> Sized(obs[i])
    ensures forall i :: 0 <= i < |obs| ==> Sized(MoveBirds(obs, dt)[i])
  {
    forall i | 0 <= i < |obs| ensures Sized(MoveBirds(obs, dt)[i]) {
      MoveBirdFacts(obs[i], dt);
    }
  }

  // ------------------------------------------------------------------- cull

  predicate Kept(ob: Obstacle, camX: real) {
    ob.x + ob.w > camX - 600.0
  }

  /** `obstacles.filter(o => o.x + o.w > camX - 600)`. */
  function Cull(obs: seq<Obstacle>, camX: real): (r: seq<Obstacle>)
    ensures |r| <= |obs|
  {
    if obs == [] then [] else (if Kept(obs[0], camX) then [obs[0]] else []) + Cull(obs[1..], camX)
  }

  /** The cull keeps exactly the obstacles whose right edge lies right of
      camX - 600. */
  lemma {:induction false} CullMembers(obs: seq<Obstacle>, camX: real, ob: Obstacle)
    ensures ob in Cull(obs, camX) <==> ob in obs && Kept(ob, camX)
  {
    if obs != [] {
      CullMembers(obs[1..], camX, ob);
      assert obs == [obs[0]] + obs[1..];
    }
  }

  /** The cull works element by element, so it keeps the original order. */
  lemma {:induction false} CullConcat(a: seq<Obstacle>, b: seq<Obstacle>, camX: real)
    ensures Cull(a + b, camX) == Cull(a, camX) + Cull(b, camX)
  {
    if a != [] {
      var head := if Kept(a[0], camX) then [a[0]] else [];
      assert (a + b)[0] == a[0];
      assert (a + b)[1..] == a[1..] + b;
      calc {
        Cull(a + b, camX);
        head + Cull(a[1..] + b, camX);
        { CullConcat(a[1..], b, camX); }
        head + (Cull(a[1..], camX) + Cull(b, camX));
        (head + Cull(a[1..], camX)) + Cull(b, camX);
        Cull(a, camX) + Cull(b, camX);
      }
    } else {
      assert a + b == b;
    }
  }

  lemma {:induction false} CullKeepsAllKept(obs: seq<Obstacle>, camX: real)
    requires forall i :: 0 <= i < |obs| ==> Kept(obs[i], camX)
    ensures Cull(obs, camX) == obs
  {
    if obs != [] {
      CullKeepsAllKept(obs[1..], camX);
    }
  }

  lemma CullKeepsProperty(obs: seq<Obstacle>, camX: real)
    requires forall i :: 0 <= i < |obs| ==> Sized(obs[i])
    ensures forall i :: 0 <= i < |Cull(obs, camX)| ==> Sized(Cull(obs, camX)[i]) && Kept(Cull(obs, camX)[i], camX)
  {
    forall i | 0 <= i < |Cull(obs, camX)|
      ensures Sized(Cull(obs, camX)[i]) && Kept(Cull(obs, camX)[i], camX)
    {
      CullMembers(obs, camX, Cull(obs, camX)[i]);
    }
  }

  // ------------------------------------------------------------------ score

  datatype Scored = Scored(player: PlayerV, score: real, reported: Option<int>)

  /** Score as written: the previous maximum is the stored mark, or the
      current x when there is none; a new maximum adds a quarter of the
      progress and reports the floored score. */
  function ScoreUpdate(p: PlayerV, score: real): (r: Scored)
    ensures r.player == p.(maxX := r.player.maxX)
  {
    var prevMax := p.maxX.GetOr(p.x);
    if p.x > prevMax then
      var s := score + (p.x - prevMax) / 4.0;
      Scored(p.(maxX := Some(p.x)), s, Some(Floor(s)))
    else Scored(p, score, None)
  }

  /** The animation clock: run speed on the ground, 6 per second in the air. */
  function Animate(p: PlayerV, dt: real): real {
    p.anim + dt * (if p.grounded then (Abs(p.vx) + BaseSpeed) / 180.0 else 6.0)
  }

  // ------------------------------------------------------------------- tick

  /** The result of a tick: the new state, whether `onOver(true)` was called,
      and the value passed to `onScore`, if any. */
  datatype Tick = Tick(world: World, over: bool, reported: Option<int>)

  function Box(m: Motion): Rect {
    Rect(m.nextX, m.nextY, PlayerW, m.ph)
  }

  /** `stepUpdate`. */
  function Step(w: World, rng: Stream, keys: map<string, bool>, touch: Touch, dt: real, overlap: Overlap): Tick {
    var m := Move(w.player, ReadInput(keys, touch), dt);
    if Blocked(w.obstacles, Box(m), w.camX, overlap) then
      Tick(w.(player := m.p), true, None)
    else
      Commit(w, m, rng, dt)
  }

  /** A tick is the move, then either the stop at an obstacle or the commit. */
  lemma StepSteps(w: World, rng: Stream, keys: map<string, bool>, touch: Touch, dt: real, overlap: Overlap, m: Motion)
    requires m == Move(w.player, ReadInput(keys, touch), dt)
    ensures Blocked(w.obstacles, Box(m), w.camX, overlap) ==> Step(w, rng, keys, touch, dt, overlap) == Tick(w.(player := m.p), true, None)
    ensures !Blocked(w.obstacles, Box(m), w.camX, overlap) ==> Step(w, rng, keys, touch, dt, overlap) == Commit(w, m, rng, dt)
  {
  }

  /** The commit reads the player only through the motion. */
  lemma CommitIgnoresPlayer(w: World, q: PlayerV, m: Motion, rng: Stream, dt: real)
    ensures Commit(w.(player := q), m, rng, dt) == Commit(w, m, rng, dt)
  {
  }

  /** The animation clock does not depend on the furthest-x mark. */
  lemma AnimateIgnoresMark(p: PlayerV, q: PlayerV, dt: real)
    requires q == p.(maxX := q.maxX)
    ensures Animate(q, dt) == Animate(p, dt)
  {
  }

  /** The part of a tick after the collision test: position, camera and
      obstacles, score and animation clock. */
  function Commit(w: World, m: Motion, rng: Stream, dt: real): Tick {
    var p := m.p.(x := m.nextX, y := m.nextY);
    var v := Scroll(w, p.x, rng, dt);
    var sc := ScoreUpdate(p, w.score);
    Tick(World(sc.player.(anim := Animate(p, dt)), v.camX, v.obstacles, v.next, v.drawn, sc.score, w.paused, w.gameOver),
         false, sc.reported)
  }

  /** A committed tick is the move, the scroll, the score update and the
      animation clock, each taken from the moved player. */
  lemma CommitSteps(w: World, m: Motion, rng: Stream, dt: real, moved: PlayerV, v: Scene, sc: Scored)
    requires moved == m.p.(x := m.nextX, y := m.nextY)
    requires v == Scroll(w, moved.x, rng, dt) && sc == ScoreUpdate(moved, w.score)
    ensures Commit(w, m, rng, dt)
         == Tick(World(sc.player.(anim := Animate(moved, dt)), v.camX, v.obstacles, v.next, v.drawn, sc.score, w.paused, w.gameOver),
                 false, sc.reported)
  {
  }

  /** The camera and the obstacle list after a committed move. */
  datatype Scene = Scene(camX: real, obstacles: seq<Obstacle>, next: real, drawn: nat)

  /** Camera follow, the spawn loop, the bird update and the cull, for a
      player now at `px`. */
  function Scroll(w: World, px: real, rng: Stream, dt: real): Scene {
    var camX := Follow(w.camX, px, dt);
    var s := SpawnAhead(rng, w.obstacles, w.nextSpawnX, w.drawn, camX + ViewWidth + 400.0);
    Scene(camX, Cull(MoveBirds(s.obstacles, dt), camX), s.next, s.drawn)
  }

  /** A collision ends the tick early: position, animation clock, camera,
      obstacles, spawn cursor and score stay as they were, while the speeds,
      timers and flags already updated by the tick are kept. */
  lemma StepAbort(w: World, rng: Stream, keys: map<string, bool>, touch: Touch, dt: real, overlap: Overlap)
    ensures var m := Move(w.player, ReadInput(keys, touch), dt);
      var t := Step(w, rng, keys, touch, dt, overlap);
      && (t.over <==> Blocked(w.obstacles, Rect(m.nextX, m.nextY, PlayerW, m.ph), w.camX, overlap))
      && (t.over ==>
            && t.world.player.x == w.player.x && t.world.player.y == w.player.y
            && t.world.player.anim == w.player.anim && t.world.player.maxX == w.player.maxX
            && t.world.player.vx == m.p.vx && t.world.player.vy == m.p.vy
            && t.world.player.ducking == m.p.ducking && t.world.player.grounded == m.p.grounded
            && t.world.player.coyote == m.p.coyote && t.world.player.jumpBuf == m.p.jumpBuf
            && t.world.camX == w.camX && t.world.obstacles == w.obstacles
            && t.world.nextSpawnX == w.nextSpawnX && t.world.drawn == w.drawn
            && t.world.score == w.score && t.reported == None)
      && t.world.paused == w.paused && t.world.gameOver == w.gameOver
  {
  }

  /** A committed tick keeps the player's box on or above the ground (landed
      exactly when it touches it), the camera right of the origin, the spawn
      cursor past the spawn front, only obstacles right of the cull line,
      and never lowers the score or the animation clock. */
  lemma StepCommit(w: World, rng: Stream, keys: map<string, bool>, touch: Touch, dt: real, overlap: Overlap)
    requires 0.0 <= dt
    ensures var t := Step(w, rng, keys, touch, dt, overlap);
      var q := t.world.player;
      !t.over ==>
        && q.y + Height(q.ducking) <= GroundY
        && (q.grounded <==> q.y + Height(q.ducking) == GroundY)
        && t.world.camX >= 0.0
        && t.world.nextSpawnX >= t.world.camX + ViewWidth + 400.0
        && t.world.nextSpawnX >= w.nextSpawnX
        && (forall i :: 0 <= i < |t.world.obstacles| ==> Kept(t.world.obstacles[i], t.world.camX))
        && t.world.score >= w.score
        && q.anim >= w.player.anim
  {
    var m := Move(w.player, ReadInput(keys, touch), dt);
    MoveFacts(w.player, ReadInput(keys, touch), dt);
    if !Blocked(w.obstacles, Box(m), w.camX, overlap) {
      CommitFacts(w, m, rng, dt);
    }
  }

  lemma CommitFacts(w: World, m: Motion, rng: Stream, dt: real)
    requires 0.0 <= dt
    requires m.ph == Height(m.p.ducking) && m.nextY + m.ph <= GroundY
    requires m.p.grounded <==> m.nextY + m.ph == GroundY
    requires m.p.anim == w.player.anim
    ensures var t := Commit(w, m, rng, dt);
      var q := t.world.player;
      && q.y + Height(q.ducking) <= GroundY
      && (q.grounded <==> q.y + Height(q.ducking) == GroundY)
      && t.world.camX >= 0.0
      && t.world.nextSpawnX >= t.world.camX + ViewWidth + 400.0
      && t.world.nextSpawnX >= w.nextSpawnX
      && (forall i :: 0 <= i < |t.world.obstacles| ==> Kept(t.world.obstacles[i], t.world.camX))
      && t.world.score >= w.score
      && q.anim >= w.player.anim
  {
    var p := m.p.(x := m.nextX, y := m.nextY);
    var camX := Follow(w.camX, p.x, dt);
    var front := camX + ViewWidth + 400.0;
    SpawnAheadFacts(rng, w.obstacles, w.nextSpawnX, w.drawn, front);
    var s := SpawnAhead(rng, w.obstacles, w.nextSpawnX, w.drawn, front);
    var obs := Cull(MoveBirds(s.obstacles, dt), camX);
    forall i | 0 <= i < |obs| ensures Kept(obs[i], camX) {
      CullMembers(MoveBirds(s.obstacles, dt), camX, obs[i]);
    }
    assert (Abs(p.vx) + BaseSpeed) / 180.0 >= 0.0;
    var sc := ScoreUpdate(p, w.score);
    assert sc.score >= w.score;
  }

  // ------------------------------------------------------------- invariant

  /** The bounds every reachable state keeps. */
  predicate PlayerOk(p: PlayerV) {
    && -MaxRunSpeed <= p.vx <= MaxRunSpeed
    && -JumpVel <= p.vy <= MaxFallSpeed
    && 0.0 <= p.jumpBuf <= JumpBuffer && 0.0 <= p.coyote <= CoyoteTime
    && p.y + Height(true) <= GroundY
    && p.anim >= 0.0
  }

  predicate WorldOk(w: World) {
    && PlayerOk(w.player)
    && w.camX >= 0.0 && w.score >= 0.0
    && (forall i :: 0 <= i < |w.obstacles| ==> Sized(w.obstacles[i]))
  }

  lemma InitialOk()
    ensures WorldOk(InitialWorld()) && WorldOk(FreshWorld())
  {
  }

  lemma AirborneVy(p0: PlayerV, inp: Input, dt: real)
    requires 0.0 <= dt && -JumpVel <= p0.vy
    ensures -JumpVel <= Airborne(p0, inp, dt).vy <= MaxFallSpeed
  {
  }

  /** Every tick, committed or not, keeps the bounds. */
  lemma StepKeepsOk(w: World, rng: Stream, keys: map<string, bool>, touch: Touch, dt: real, overlap: Overlap)
    requires 0.0 <= dt <= MaxDt
    requires WorldOk(w)
    ensures WorldOk(Step(w, rng, keys, touch, dt, overlap).world)
  {
    var inp := ReadInput(keys, touch);
    var m := Move(w.player, inp, dt);
    MoveFacts(w.player, inp, dt);
    TimersBounded(w.player, inp, dt);
    AirborneVy(w.player, inp, dt);
    StepCommit(w, rng, keys, touch, dt, overlap);
    if !Blocked(w.obstacles, Box(m), w.camX, overlap) {
      ScrollKeepsSized(w, m.nextX, rng, dt);
    }
  }

  /** The obstacle list after the camera moves keeps every obstacle sized. */
  lemma ScrollKeepsSized(w: World, px: real, rng: Stream, dt: real)
    requires forall i :: 0 <= i < |w.obstacles| ==> Sized(w.obstacles[i])
    ensures var v := Scroll(w, px, rng, dt);
      forall i :: 0 <= i < |v.obstacles| ==> Sized(v.obstacles[i])
  {
    var camX := Follow(w.camX, px, dt);
    var front := camX + ViewWidth + 400.0;
    var s := SpawnAhead(rng, w.obstacles, w.nextSpawnX, w.drawn, front);
    SpawnAheadFacts(rng, w.obstacles, w.nextSpawnX, w.drawn, front);
    assert forall i :: 0 <= i < |s.obstacles| ==> Sized(s.obstacles[i]) by {
      forall i | 0 <= i < |s.obstacles| ensures Sized(s.obstacles[i]) {
        if i < |w.obstacles| {
          assert s.obstacles[i] == w.obstacles[i];
        }
      }
    }
    MoveBirdsKeepsSized(s.obstacles, dt);
    CullKeepsProperty(MoveBirds(s.obstacles, dt), camX);
  }

  // ------------------------------------------------------------ score runs

  /** The state of the score bookkeeping when the furthest-x mark is set:
      the score is a quarter of the distance from the start to the mark, and
      the player is never right of the mark. */
  predicate Tracked(w: World) {
    && w.player.maxX.Some?
    && w.player.x <= w.player.maxX.value
    && w.score == (w.player.maxX.value - 50.0) / 4.0
  }

  /** As written, a state without a mark never gains one: the score stays
      put and `onScore` is never called. */
  lemma ScoreFrozen(w: World, rng: Stream, keys: map<string, bool>, touch: Touch, dt: real, overlap: Overlap)
    requires w.player.maxX == None
    ensures var t := Step(w, rng, keys, touch, dt, overlap);
      t.world.player.maxX == None && t.world.score == w.score && t.reported == None
  {
    var m := Move(w.player, ReadInput(keys, touch), dt);
    if !Blocked(w.obstacles, Box(m), w.camX, overlap) {
      var p := m.p.(x := m.nextX, y := m.nextY);
      assert p.maxX == None;
      assert ScoreUpdate(p, w.score) == Scored(p, w.score, None);
    }
  }

  /** With the mark set, a committed tick that passes the mark adds a quarter
      of the new progress and reports the floored score; any other tick
      leaves the score and the mark alone. */
  lemma ScoreTracksProgress(w: World, rng: Stream, keys: map<string, bool>, touch: Touch, dt: real, overlap: Overlap)
    requires Tracked(w)
    ensures var t := Step(w, rng, keys, touch, dt, overlap);
      var best := w.player.maxX.value;
      && Tracked(t.world)
      && (!t.over && t.world.player.x > best ==>
            t.world.score == w.score + (t.world.player.x - best) / 4.0 && t.world.score > w.score
            && t.reported == Some(Floor(t.world.score)))
      && (t.over || t.world.player.x <= best ==> t.world.score == w.score && t.reported == None)
  {
    var m := Move(w.player, ReadInput(keys, touch), dt);
    LandFacts(Airborne(w.player, ReadInput(keys, touch), dt), dt);
    if !Blocked(w.obstacles, Box(m), w.camX, overlap) {
      var p := m.p.(x := m.nextX, y := m.nextY);
      assert p.maxX == w.player.maxX;
      var t := Step(w, rng, keys, touch, dt, overlap);
      var sc := ScoreUpdate(p, w.score);
      assert t.world.player.x == p.x && t.world.player.maxX == sc.player.maxX;
      assert t.world.score == sc.score && t.reported == sc.reported;
    }
  }

  /** One frame of input as the host loop passes it. */
  datatype Frame = Frame(keys: map<string, bool>, touch: Touch, dt: real)

  /** A run of ticks, one per frame. */
  function Run(w: World, rng: Stream, frames: seq<Frame>, overlap: Overlap): World
    decreases |frames|
  {
    if frames == [] then w
    else Run(Step(w, rng, frames[0].keys, frames[0].touch, frames[0].dt, overlap).world, rng, frames[1..], overlap)
  }

  /** As written, the score shown is 0 forever after a fresh start. */
  lemma {:induction false} RunNeverScores(w: World, rng: Stream, frames: seq<Frame>, overlap: Overlap)
    requires w.player.maxX == None
    ensures Run(w, rng, frames, overlap).score == w.score
    ensures Run(w, rng, frames, overlap).player.maxX == None
    decreases |frames|
  {
    if frames != [] {
      var f := frames[0];
      ScoreFrozen(w, rng, f.keys, f.touch, f.dt, overlap);
      RunNeverScores(Step(w, rng, f.keys, f.touch, f.dt, overlap).world, rng, frames[1..], overlap);
    }
  }

  lemma InitialNeverScores(rng: Stream, frames: seq<Frame>, overlap: Overlap)
    ensures Run(InitialWorld(), rng, frames, overlap).score == 0.0
  {
    RunNeverScores(InitialWorld(), rng, frames, overlap);
  }

  /** With the mark set at the start, the score is always a quarter of the
      furthest distance run. */
  lemma {:induction false} RunTracks(w: World, rng: Stream, frames: seq<Frame>, overlap: Overlap)
    requires Tracked(w)
    ensures Tracked(Run(w, rng, frames, overlap))
    ensures Run(w, rng, frames, overlap).player.maxX.value >= w.player.maxX.value
    decreases |frames|
  {
    if frames != [] {
      var f := frames[0];
      ScoreTracksProgress(w, rng, f.keys, f.touch, f.dt, overlap);
      RunTracks(Step(w, rng, f.keys, f.touch, f.dt, overlap).world, rng, frames[1..], overlap);
    }
  }

  /** Progress is scored from a fresh start: the score equals (furthest x - 50) / 4. */
  lemma FreshScores(rng: Stream, frames: seq<Frame>, overlap: Overlap)
    ensures var w := Run(FreshWorld(), rng, frames, overlap);
      w.player.maxX.Some? && w.score == (w.player.maxX.value - 50.0) / 4.0 && w.score >= 0.0
  {
    RunTracks(FreshWorld(), rng, frames, overlap);
  }
}
