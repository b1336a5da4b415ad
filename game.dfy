/** The engine as it runs: a game state object whose player, camera and
    obstacle list are updated in place by `StepUpdate`, each step proved
    equal to the tick of module GameSpec. */
module Game {
  import opened Base
  import opened Constants
  import opened Types
  import opened GameSpec

  class Player {
    var x: real
    var y: real
    var vx: real
    var vy: real
    var grounded: bool
    var ducking: bool
    var coyote: real
    var jumpBuf: real
    var anim: real
    /** The furthest x reached so far, once there is one. */
    var maxX: Option<real>

    function View(): PlayerV
      reads this
    {
      PlayerV(x, y, vx, vy, grounded, ducking, coyote, jumpBuf, anim, maxX)
    }

    /** A player standing at the start. Without `markStart` it has no
        furthest-x mark, as `createInitialState` builds it; with `markStart`
        the mark is the start x, the corrected player that is scored. */
    constructor (markStart: bool)
      ensures !markStart ==> View() == InitialWorld().player
      ensures markStart ==> View() == FreshWorld().player
    {
      x, y, vx, vy := 50.0, GroundY - PlayerH, 0.0, 0.0;
      grounded, ducking := true, false;
      coyote, jumpBuf, anim := 0.0, 0.0, 0.0;
      maxX := if markStart then Some(50.0) else None;
    }

    /** The velocity phases and the ground test of one tick; returns the
        position the player is about to take and the height of its box. */
    method Steer(inp: Input, dt: real) returns (nextX: real, nextY: real, ph: real)
      modifies this
      ensures var m := Move(old(View()), inp, dt);
        View() == m.p && nextX == m.nextX && nextY == m.nextY && ph == m.ph
    {
      Walk(inp, dt);
      Timers(inp.up, dt);
      CutJump(inp.up);
      TryJump();
      Fall(dt);
      nextX, nextY, ph := Land(dt);
    }

    /** Integration and the flat-ground test. */
    method Land(dt: real) returns (nextX: real, nextY: real, ph: real)
      modifies this
      ensures Motion(View(), nextX, nextY, ph) == GameSpec.Land(old(View()), dt)
    {
      nextX := x + vx * dt;
      nextY := y + vy * dt;

      ph := Height(ducking);
      if nextY + ph >= GroundY {
        nextY := GroundY - ph;
        vy := 0.0;
        grounded := true;
      } else {
        grounded := false;
      }
    }

    /** Releasing the jump key while rising cuts the upward speed. */
    method CutJump(up: bool)
      modifies this
      ensures View() == GameSpec.CutJump(old(View()), up)
    {
      if !up && vy < 0.0 {
        vy := vy * 0.55;
      }
    }

    /** Gravity with the fall-speed cap. */
    method Fall(dt: real)
      modifies this
      ensures View() == GameSpec.Fall(old(View()), dt)
    {
      vy := Min(MaxFallSpeed, vy + Gravity * dt);
    }

    /** Ducking and the horizontal speed. */
    method Walk(inp: Input, dt: real)
      modifies this
      ensures View() == GameSpec.Walk(old(View()), inp, dt)
    {
      ducking := inp.down && grounded;
      var v := vx;
      if !inp.left && !inp.right {
        v := v * Friction;
      } else {
        var targetVx := (if inp.right then MaxRunSpeed else 0.0) - (if inp.left then MaxRunSpeed else 0.0);
        var sign := Sign(targetVx - v);
        v := v + sign * Accel * dt;
      }
      vx := Max(-MaxRunSpeed, Min(MaxRunSpeed, v));
      assert vx == RunVelocity(old(vx), inp.left, inp.right, dt);
    }

    /** The jump buffer and the coyote window. */
    method Timers(up: bool, dt: real)
      modifies this
      ensures View() == JumpTimers(old(View()), up, dt)
    {
      jumpBuf := if up then JumpBuffer else Max(0.0, jumpBuf - dt);
      coyote := if grounded then CoyoteTime else Max(0.0, coyote - dt);
    }

    /** A jump fires when both windows are open. */
    method TryJump()
      modifies this
      ensures View() == ConsumeJump(old(View()))
    {
      if jumpBuf > 0.0 && coyote > 0.0 {
        vy := -JumpVel;
        grounded := false;
        coyote := 0.0;
        jumpBuf := 0.0;
      }
    }

    /** The animation clock: faster with running speed, fixed in the air. */
    method Animate(dt: real)
      modifies this
      ensures View() == old(View()).(anim := GameSpec.Animate(old(View()), dt))
    {
      anim := anim + dt * (if grounded then (Abs(vx) + BaseSpeed) / 180.0 else 6.0);
    }
  }

  class Camera {
    var x: real

    constructor ()
      ensures x == 0.0
    {
      x := 0.0;
    }

    /** Auto-scroll and easing towards the player at `px`. */
    method Follow(px: real, dt: real)
      modifies this
      ensures x == GameSpec.Follow(old(x), px, dt)
    {
      x := x + BaseSpeed * dt;
      var desired := px - ViewWidth * 0.35;
      x := x + (desired - x) * 0.08;
      if x < 0.0 {
        x := 0.0;
      }
    }
  }

  class GameState {
    const player: Player
    const camera: Camera
    /** The seeded random stream; `drawn` values of it have been used. */
    const rng: Stream
    var obstacles: seq<Obstacle>
    var nextSpawnX: real
    var drawn: nat
    var score: real
    var paused: bool
    var gameOver: bool

    function View(): World
      reads this, player, camera
    {
      World(player.View(), camera.x, obstacles, nextSpawnX, drawn, score, paused, gameOver)
    }

    /** `createInitialState`, with the random stream given. Without
        `markStart` the state is the one written there, with no furthest-x
        mark; with `markStart` it is the corrected state `FreshWorld`. */
    constructor (rng: Stream, markStart: bool)
      ensures !markStart ==> View() == InitialWorld()
      ensures markStart ==> View() == FreshWorld()
      ensures this.rng == rng
      ensures fresh(player) && fresh(camera)
    {
      player := new Player(markStart);
      camera := new Camera();
      this.rng := rng;
      obstacles := [];
      nextSpawnX := 400.0;
      drawn := 0;
      score := 0.0;
      paused := false;
      gameOver := false;
    }

    /** `state.rng()`: the next value of the stream. */
    method Next() returns (r: Draw)
      modifies this
      ensures r == rng(old(drawn)) && drawn == old(drawn) + 1
      ensures obstacles == old(obstacles) && nextSpawnX == old(nextSpawnX)
      ensures score == old(score) && paused == old(paused) && gameOver == old(gameOver)
    {
      r := rng(drawn);
      drawn := drawn + 1;
    }

    /** The spawn loop: obstacle groups are appended until the cursor
        reaches `front`. */
    method SpawnAhead(front: real)
      modifies this
      ensures var s := GameSpec.SpawnAhead(rng, old(obstacles), old(nextSpawnX), old(drawn), front);
        obstacles == s.obstacles && nextSpawnX == s.next && drawn == s.drawn
      ensures score == old(score) && paused == old(paused) && gameOver == old(gameOver)
    {
      while nextSpawnX < front
        invariant GameSpec.SpawnAhead(rng, obstacles, nextSpawnX, drawn, front)
               == GameSpec.SpawnAhead(rng, old(obstacles), old(nextSpawnX), old(drawn), front)
        invariant score == old(score) && paused == old(paused) && gameOver == old(gameOver)
        decreases Gap(nextSpawnX, front)
      {
        var g := SpawnGroup(rng, nextSpawnX, drawn);
        SpawnOne();
        assert nextSpawnX == g.next;
      }
    }

    /** One pass of the spawn loop. */
    method SpawnOne()
      modifies this
      ensures var g := SpawnGroup(rng, old(nextSpawnX), old(drawn));
        obstacles == old(obstacles) + g.added && nextSpawnX == g.next && drawn == g.drawn
      ensures score == old(score) && paused == old(paused) && gameOver == old(gameOver)
    {
      ghost var d0 := drawn;
      ghost var next0 := nextSpawnX;
      Stride(160, 200.0);
      var at := nextSpawnX;
      SpawnPick(at);
      ghost var b := Pick(rng, at, d0 + 1);
      Stride(80, 120.0);
      SpawnGroupSteps(rng, next0, d0, at, b);
    }

    /** Moves the spawn cursor by `base` plus a random whole number below `span`. */
    method Stride(base: int, span: real)
      modifies this
      requires span >= 0.0
      ensures nextSpawnX == old(nextSpawnX) + Spread(rng, old(drawn), base, span) as real
      ensures drawn == old(drawn) + 1 && obstacles == old(obstacles)
      ensures score == old(score) && paused == old(paused) && gameOver == old(gameOver)
    {
      var r: real := Next();
      nextSpawnX := nextSpawnX + (base + Floor(r * span)) as real;
      assert base + Floor(r * span) == Spread(rng, old(drawn), base, span);
    }

    /** The obstacle of one group, at `at`. */
    method SpawnPick(at: real)
      modifies this
      ensures var b := Pick(rng, at, old(drawn));
        obstacles == old(obstacles) + b.added && drawn == b.drawn
      ensures nextSpawnX == old(nextSpawnX)
      ensures score == old(score) && paused == old(paused) && gameOver == old(gameOver)
    {
      var t: real := Next();
      if t < 0.8 {
        SpawnCacti(at, t);
      } else {
        SpawnBird(at);
      }
    }

    /** A cactus cluster at `at`. */
    method SpawnCacti(at: real, t: real)
      modifies this
      ensures var b := Cacti(rng, at, t, old(drawn));
        obstacles == old(obstacles) + b.added && drawn == b.drawn
      ensures nextSpawnX == old(nextSpawnX)
      ensures score == old(score) && paused == old(paused) && gameOver == old(gameOver)
    {
      var r2: real := Next();
      var cH := (36 + Floor(r2 * 34.0)) as real;
      var count := if t < 0.4 then 1 else if t < 0.65 then 2 else 3;
      var r3: real := Next();
      var startX := at + Floor(r3 * 70.0) as real;
      PushCluster(startX, cH, count);
    }

    /** A bird at `at`. */
    method SpawnBird(at: real)
      modifies this
      ensures var b := BirdAt(rng, at, old(drawn));
        obstacles == old(obstacles) + b.added && drawn == b.drawn
      ensures nextSpawnX == old(nextSpawnX)
      ensures score == old(score) && paused == old(paused) && gameOver == old(gameOver)
    {
      var r2: real := Next();
      var band := BirdBands[Floor(r2 * 3.0)];
      var r3: real := Next();
      var r4: real := Next();
      obstacles := obstacles + [Obstacle(ObstacleId(r3), at, 40.0, 24.0, Bird, band, Some(if r4 < 0.5 then 40.0 else -40.0))];
    }

    /** The inner loop of a cactus cluster: one id drawn per cactus. */
    method PushCluster(startX: real, cH: real, count: nat)
      modifies this
      ensures obstacles == old(obstacles) + Cluster(rng, old(drawn), startX, cH, count)
      ensures drawn == old(drawn) + count && nextSpawnX == old(nextSpawnX)
      ensures score == old(score) && paused == old(paused) && gameOver == old(gameOver)
    {
      ghost var row := Cluster(rng, drawn, startX, cH, count);
      for i := 0 to count
        invariant drawn == old(drawn) + i
        invariant obstacles == old(obstacles) + row[..i]
        invariant nextSpawnX == old(nextSpawnX)
        invariant score == old(score) && paused == old(paused) && gameOver == old(gameOver)
      {
        var r: real := Next();
        obstacles := obstacles + [Obstacle(ObstacleId(r), startX + (i * 32) as real, 18.0, cH, Cactus, GroundY - cH, None)];
        assert row[..i + 1] == row[..i] + [row[i]];
      }
      assert row[..count] == row;
    }

    /** The score: a new furthest x adds a quarter of the progress. */
    method Score() returns (reported: Option<int>)
      modifies this, player
      ensures var sc := ScoreUpdate(old(player.View()), old(score));
        player.View() == sc.player && score == sc.score && reported == sc.reported
      ensures obstacles == old(obstacles) && nextSpawnX == old(nextSpawnX) && drawn == old(drawn)
      ensures paused == old(paused) && gameOver == old(gameOver)
    {
      var prevMax := player.maxX.GetOr(player.x);
      if player.x > prevMax {
        player.maxX := Some(player.x);
        score := score + (player.x - prevMax) / 4.0;
        reported := Some(Floor(score));
      } else {
        reported := None;
      }
    }

    /** The bird update: every bird with a non-zero speed moves and bounces. */
    method UpdateBirds(dt: real)
      modifies this
      ensures obstacles == MoveBirds(old(obstacles), dt)
      ensures nextSpawnX == old(nextSpawnX) && drawn == old(drawn)
      ensures score == old(score) && paused == old(paused) && gameOver == old(gameOver)
    {
      for i := 0 to |obstacles|
        invariant |obstacles| == |old(obstacles)|
        invariant forall j :: 0 <= j < i ==> obstacles[j] == MoveBird(old(obstacles)[j], dt)
        invariant forall j :: i <= j < |obstacles| ==> obstacles[j] == old(obstacles)[j]
        invariant nextSpawnX == old(nextSpawnX) && drawn == old(drawn)
        invariant score == old(score) && paused == old(paused) && gameOver == old(gameOver)
      {
        var ob := obstacles[i];
        if ob.kind == Bird && ob.vy.Some? && ob.vy.value != 0.0 {
          var y := ob.y + ob.vy.value * dt;
          var vy := ob.vy.value;
          if y < GroundY - 200.0 || y > GroundY - 60.0 {
            vy := vy * -1.0;
          }
          obstacles := obstacles[i := ob.(y := y, vy := Some(vy))];
        }
      }
    }
  }

  /** The collision scan: does the box overlap an obstacle near the view? */
  method HitsObstacle(obs: seq<Obstacle>, box: Rect, camX: real, overlap: Overlap) returns (hit: bool)
    ensures hit <==> Blocked(obs, box, camX, overlap)
  {
    var viewMin := camX - 100.0;
    var viewMax := camX + ViewWidth + 300.0;
    for i := 0 to |obs|
      invariant forall j :: 0 <= j < i ==> !(Near(obs[j], camX) && overlap(box, BoxOf(obs[j])))
    {
      var ob := obs[i];
      if ob.x + ob.w < viewMin || ob.x > viewMax {
        continue;
      }
      if overlap(box, Rect(ob.x, ob.y, ob.w, ob.h)) {
        return true;
      }
    }
    return false;
  }

  /** `stepUpdate`: one tick in place. `over` is true when `onOver(true)` is
      called, `reported` the value passed to `onScore`, if any. */
  method StepUpdate(state: GameState, keys: map<string, bool>, touch: Touch, dt: real, overlap: Overlap)
    returns (over: bool, reported: Option<int>)
    modifies state, state.player, state.camera
    ensures var t := Step(old(state.View()), state.rng, keys, touch, dt, overlap);
      state.View() == t.world && over == t.over && reported == t.reported
  {
    ghost var w := state.View();
    var p := state.player;
    var inp := ReadInput(keys, touch);
    ghost var m := Move(p.View(), inp, dt);
    StepSteps(w, state.rng, keys, touch, dt, overlap, m);
    var nextX, nextY, ph := p.Steer(inp, dt);
    over := HitsObstacle(state.obstacles, Rect(nextX, nextY, PlayerW, ph), state.camera.x, overlap);
    if over {
      reported := None;
      assert state.View() == w.(player := m.p);
      return;
    }
    reported := Advance(state, nextX, nextY, dt, m);
    CommitIgnoresPlayer(w, m.p, m, state.rng, dt);
  }

  /** The rest of a tick once no obstacle is hit. */
  method Advance(state: GameState, nextX: real, nextY: real, dt: real, ghost m: Motion) returns (reported: Option<int>)
    requires state.player.View() == m.p && nextX == m.nextX && nextY == m.nextY
    modifies state, state.player, state.camera
    ensures var t := Commit(old(state.View()), m, state.rng, dt);
      state.View() == t.world && reported == t.reported
  {
    ghost var w := state.View();
    var p := state.player;
    p.x := nextX;
    p.y := nextY;
    ghost var moved := p.View();
    Scroll(state, p.x, dt);
    ghost var v := Scene(state.camera.x, state.obstacles, state.nextSpawnX, state.drawn);
    reported := state.Score();
    ghost var sc := ScoreUpdate(moved, w.score);
    AnimateIgnoresMark(moved, p.View(), dt);
    p.Animate(dt);
    CommitSteps(w, m, state.rng, dt, moved, v, sc);
  }

  /** Camera, spawning, birds and cull, for a player now at `px`. */
  method Scroll(state: GameState, px: real, dt: real)
    modifies state, state.camera
    ensures Scene(state.camera.x, state.obstacles, state.nextSpawnX, state.drawn)
         == GameSpec.Scroll(old(state.View()), px, state.rng, dt)
    ensures state.score == old(state.score) && state.paused == old(state.paused) && state.gameOver == old(state.gameOver)
  {
    var cam := state.camera;
    cam.Follow(px, dt);
    state.SpawnAhead(cam.x + ViewWidth + 400.0);
    state.UpdateBirds(dt);
    state.obstacles := Cull(state.obstacles, cam.x);
  }
}
