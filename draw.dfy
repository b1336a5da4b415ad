/** The renderer: each drawing routine appends its calls to the canvas log,
    loading images through the cache as it goes. Each is proved to append
    exactly the calls the pure model of the same routine lists, with the
    images that were decoded when the frame began. */
module Draw {
  import opened Base
  import opened Constants
  import opened Types
  import opened DrawSpec
  import Assets
  import GameSpec
  import Game

  /** A canvas 2D context, seen as the log of the calls made on it. */
  class Canvas {
    var log: seq<Call>

    constructor ()
      ensures log == []
    {
      log := [];
    }
  }

  /** `loadImage(src)` followed by `imgReady(img)`: the decoded size when the
      image is ready. Loading never makes an image ready, so the decoded set
      is what it was when the frame began. */
  method Load(cache: Assets.ImageCache, src: string, ghost imgs: map<string, Assets.ImgState>)
    returns (img: Option<Assets.ImgState>)
    requires cache.Valid() && cache.ReadyImages() == imgs
    modifies cache
    ensures cache.Valid() && cache.ReadyImages() == imgs
    ensures img == ImageFor(imgs, src)
  {
    var h := cache.LoadImage(Some(src));
    if Assets.ImgReady(h) {
      img := Some(h.value.State());
    } else {
      img := None;
    }
  }

  /** The tile loop `for (let x = start; x < VIEW.width + tileW; x += tileW)`. */
  method DrawTiles(ctx: Canvas, s: Strip, start: int)
    requires s.srcW > 0
    modifies ctx
    ensures ctx.log == old(ctx.log) + TileRow(s, start)
  {
    var x := start;
    while x as real < ViewWidth + s.srcW as real
      invariant ctx.log + TileRow(s, x) == old(ctx.log) + TileRow(s, start)
      decreases ViewWidth.Floor + s.srcW - x
    {
      ctx.log := ctx.log + [TileAt(s, x as real)];
      x := x + s.srcW;
    }
  }

  /** `drawBackground`. */
  method DrawBackground(ctx: Canvas, cache: Assets.ImageCache, camX: real, theme: Theme,
                        ghost imgs: map<string, Assets.ImgState>)
    requires cache.Valid() && cache.ReadyImages() == imgs
    modifies ctx, cache
    ensures cache.Valid() && cache.ReadyImages() == imgs
    ensures ctx.log == old(ctx.log) + BackgroundCalls(camX, theme, imgs)
  {
    var sky := [FillStyle(theme.colors.sky), FillRect(0.0, 0.0, ViewWidth, ViewHeight)];
    ctx.log := ctx.log + sky;
    var layers := theme.images.backgroundLayers.GetOr([]);
    DrawLayers(ctx, cache, layers, camX, imgs);
    ghost var layered := ctx.log;
    if |layers| == 0 {
      DrawMountains(ctx, camX, theme);
    }
    assert ctx.log == layered + (if |layers| == 0 then [FillStyle(theme.colors.mountain)] + Mountains(camX, 8) else []);
  }

  /** The layer loop, in the theme's order. */
  method DrawLayers(ctx: Canvas, cache: Assets.ImageCache, layers: seq<BgLayer>, camX: real,
                    ghost imgs: map<string, Assets.ImgState>)
    requires cache.Valid() && cache.ReadyImages() == imgs
    modifies ctx, cache
    ensures cache.Valid() && cache.ReadyImages() == imgs
    ensures ctx.log == old(ctx.log) + LayersCalls(layers, camX, imgs)
  {
    ghost var start := ctx.log;
    for n := 0 to |layers|
      invariant cache.Valid() && cache.ReadyImages() == imgs
      invariant ctx.log == start + LayersCalls(layers[..n], camX, imgs)
    {
      ghost var done := LayersCalls(layers[..n], camX, imgs);
      ghost var one := LayerCalls(layers[n], camX, imgs);
      DrawLayer(ctx, cache, layers[n], camX, imgs);
      AppendParts(start, done, one, [], []);
      LayersStep(layers, n, camX, imgs);
    }
    assert layers[..|layers|] == layers;
  }

  /** The fallback mountains, `i` from -1 to 7. */
  method DrawMountains(ctx: Canvas, camX: real, theme: Theme)
    modifies ctx
    ensures ctx.log == old(ctx.log) + ([FillStyle(theme.colors.mountain)] + Mountains(camX, 8))
  {
    ctx.log := ctx.log + [FillStyle(theme.colors.mountain)];
    var baseY := GroundY - 80.0;
    for i := -1 to 8
      invariant ctx.log == old(ctx.log) + [FillStyle(theme.colors.mountain)] + Mountains(camX, i)
    {
      var mx := Floor(JsMod(-camX * 0.2 + i as real * 240.0, ViewWidth + 240.0)) as real;
      ctx.log := ctx.log + [Triangle(mx, baseY, mx + 80.0, baseY - 40.0, mx + 160.0, baseY)];
    }
  }

  /** One pass of the layer loop: skipped until decoded, then cropped and
      tiled from the parallax offset. */
  method DrawLayer(ctx: Canvas, cache: Assets.ImageCache, layer: BgLayer, camX: real,
                   ghost imgs: map<string, Assets.ImgState>)
    requires cache.Valid() && cache.ReadyImages() == imgs
    modifies ctx, cache
    ensures cache.Valid() && cache.ReadyImages() == imgs
    ensures ctx.log == old(ctx.log) + LayerCalls(layer, camX, imgs)
  {
    var img := Load(cache, layer.src, imgs);
    if img.None? {
      return;
    }
    var srcW := img.value.naturalWidth;
    var fullH := img.value.naturalHeight as real;
    var srcH := Max(1.0, Min(layer.srcH.GetOr(fullH), fullH));
    var srcY := Max(0.0, Min(layer.srcY.GetOr(fullH - srcH), fullH - srcH));
    var drawH := layer.height.GetOr(srcH);
    var y := layer.topY.GetOr(GroundY - drawH - 40.0);
    var tileW := srcW;
    var parX := -camX * layer.speed.GetOr(0.5);
    var start := Floor(JsMod(parX, tileW as real)) - tileW;
    DrawTiles(ctx, Strip(layer.src, srcY, srcW, srcH, y, drawH), start);
  }

  /** `drawGround`. */
  method DrawGround(ctx: Canvas, cache: Assets.ImageCache, camX: real, theme: Theme,
                    ghost imgs: map<string, Assets.ImgState>)
    requires cache.Valid() && cache.ReadyImages() == imgs
    modifies ctx, cache
    ensures cache.Valid() && cache.ReadyImages() == imgs
    ensures ctx.log == old(ctx.log) + GroundCalls(camX, theme, imgs)
  {
    var g := theme.images.ground;
    if g.Some? && g.value.src != "" {
      var img := Load(cache, g.value.src, imgs);
      if img.None? {
        return;
      }
      var srcW := img.value.naturalWidth;
      var fullH := img.value.naturalHeight as real;
      var srcH := Max(1.0, Min(g.value.srcH.GetOr(fullH), fullH));
      var srcY := Max(0.0, Min(g.value.srcY.GetOr(fullH - srcH), fullH - srcH));
      var drawH := g.value.height.GetOr(srcH);
      var y := g.value.topY.GetOr(GroundY);
      var tileW := srcW;
      var start := -Floor(JsMod(camX, tileW as real) + tileW as real);
      DrawTiles(ctx, Strip(g.value.src, srcY, srcW, srcH, y, drawH), start);
    } else {
      ctx.log := ctx.log + [FillStyle(theme.colors.groundTop), FillRect(0.0, GroundY, ViewWidth, ViewHeight - GroundY),
                            StrokeStyle(theme.colors.groundStripe), LineWidth(2.0), LineDash([10.0, 10.0]),
                            Line(-JsMod(camX * 1.2, 20.0), GroundY + 18.0, ViewWidth, GroundY + 18.0),
                            LineDash([])];
    }
  }

  /** `drawObstacle`. */
  method DrawObstacle(ctx: Canvas, cache: Assets.ImageCache, ob: Obstacle, camX: real, theme: Theme,
                      sin: real -> real, now: real, ghost imgs: map<string, Assets.ImgState>)
    requires cache.Valid() && cache.ReadyImages() == imgs
    modifies ctx, cache
    ensures cache.Valid() && cache.ReadyImages() == imgs
    ensures ctx.log == old(ctx.log) + ObstacleCalls(ob, camX, theme, imgs, sin, now)
  {
    var sx := Round(ob.x - camX) as real;
    if sx + ob.w < -50.0 || sx > ViewWidth + 50.0 {
      return;
    }
    match ob.kind {
      case Cactus => DrawCactus(ctx, cache, ob, sx, theme, imgs);
      case Bird => DrawBird(ctx, cache, ob, sx, theme, sin, now, imgs);
    }
  }

  /** The cactus branch of `drawObstacle`. */
  method DrawCactus(ctx: Canvas, cache: Assets.ImageCache, ob: Obstacle, sx: real, theme: Theme,
                    ghost imgs: map<string, Assets.ImgState>)
    requires cache.Valid() && cache.ReadyImages() == imgs
    modifies ctx, cache
    ensures cache.Valid() && cache.ReadyImages() == imgs
    ensures ctx.log == old(ctx.log) + CactusCalls(ob, sx, theme, imgs)
  {
    var c := theme.images.cactus;
    if c.Some? && c.value.src != "" {
      var img := Load(cache, c.value.src, imgs);
      var w := c.value.w.GetOr(ob.w);
      var h := c.value.h.GetOr(ob.h);
      if img.Some? {
        ctx.log := ctx.log + [Place(c.value.src, sx, ob.y + (ob.h - h), w, h)];
      }
    } else {
      ctx.log := ctx.log + [FillStyle(theme.colors.cactus), FillRect(sx, ob.y, ob.w, ob.h),
                            FillRect(sx - 8.0, ob.y + 10.0, 6.0, Max(12.0, ob.h - 28.0)),
                            FillRect(sx + ob.w + 2.0, ob.y + 18.0, 6.0, Max(10.0, ob.h - 36.0))];
    }
  }

  /** The bird branch of `drawObstacle`. */
  method DrawBird(ctx: Canvas, cache: Assets.ImageCache, ob: Obstacle, sx: real, theme: Theme,
                  sin: real -> real, now: real, ghost imgs: map<string, Assets.ImgState>)
    requires cache.Valid() && cache.ReadyImages() == imgs
    modifies ctx, cache
    ensures cache.Valid() && cache.ReadyImages() == imgs
    ensures ctx.log == old(ctx.log) + BirdCalls(ob, sx, theme, imgs, sin, now)
  {
    var b := theme.images.bird;
    if b.Some? && b.value.src != "" {
      var img := Load(cache, b.value.src, imgs);
      var w := b.value.w.GetOr(ob.w);
      var h := b.value.h.GetOr(ob.h);
      if img.Some? {
        ctx.log := ctx.log + [Place(b.value.src, sx, ob.y, w, h)];
      }
    } else {
      var fl := if sin(ob.id as real * 13.0 + now / 80.0) > 0.0 then 8.0 else -8.0;
      ctx.log := ctx.log + [FillStyle(theme.colors.bird), FillRect(sx, ob.y, ob.w, ob.h),
                            FillRect(sx - 10.0, ob.y + 8.0 + fl, 18.0, 4.0),
                            FillRect(sx + ob.w - 8.0, ob.y + 8.0 - fl, 18.0, 4.0)];
    }
  }

  /** `drawPlayer`. */
  method DrawPlayer(ctx: Canvas, cache: Assets.ImageCache, p: GameSpec.PlayerV, camX: real, theme: Theme,
                    debug: bool, sin: real -> real, ghost imgs: map<string, Assets.ImgState>)
    requires cache.Valid() && cache.ReadyImages() == imgs
    modifies ctx, cache
    ensures cache.Valid() && cache.ReadyImages() == imgs
    ensures ctx.log == old(ctx.log) + PlayerCalls(p, camX, theme, imgs, debug, sin)
  {
    var ph := if p.ducking then Floor(PlayerH * 0.6) else PlayerH.Floor;
    var sx := Round(p.x - camX);
    var sy := Round(p.y + (PlayerH - ph as real));
    var shadow := [FillStyle(theme.colors.dinoShadow), Ellipse(sx as real + PlayerW / 2.0, GroundY + 6.0, 18.0, 6.0)];
    var body := DrawBody(cache, p, theme, sx, sy, ph, sin, imgs);
    var outline: seq<Call> := [];
    if debug {
      outline := [StrokeStyle("red"), StrokeRect(sx as real, sy as real, PlayerW, ph as real)];
    }
    ctx.log := ctx.log + (shadow + body + outline);
  }

  /** The runner's calls: the sprite's current frame, or the block runner. */
  method DrawBody(cache: Assets.ImageCache, p: GameSpec.PlayerV, theme: Theme, sx: int, sy: int, ph: int,
                  sin: real -> real, ghost imgs: map<string, Assets.ImgState>) returns (body: seq<Call>)
    requires cache.Valid() && cache.ReadyImages() == imgs
    modifies cache
    ensures cache.Valid() && cache.ReadyImages() == imgs
    ensures body == BodyCalls(p, theme, imgs, sx, sy, ph, sin)
  {
    body := [];
    var sprite := theme.images.player;
    if sprite.Some? && sprite.value.src != "" {
      var img := Load(cache, sprite.value.src, imgs);
      if img.Some? {
        var frames := sprite.value.frames.GetOr(1.0);
        var fps := sprite.value.fps.GetOr(10.0);
        if frames != 0.0 {
          var frameIndex := FrameIndex(p.anim, fps, frames);
          var sw := FrameWidth(img.value.naturalWidth, frames);
          var sh := img.value.naturalHeight as real;
          var dw := sprite.value.w.GetOr(PlayerW);
          var dh := sprite.value.h.GetOr(ph as real);
          if sw > 0.0 {
            body := [Blit(sprite.value.src, FrameX(frameIndex, sw), 0.0, sw, sh, sx as real, sy as real, dw, dh)];
          }
        }
      }
    } else {
      body := BlockRunner(p, theme, sx as real, sy as real, ph as real, sin(p.anim * 10.0));
    }
  }

  /** `drawHUD`. */
  method DrawHud(ctx: Canvas, score: int, hi: int, paused: bool, over: bool, theme: Theme)
    modifies ctx
    ensures ctx.log == old(ctx.log) + HudCalls(score, hi, paused, over, theme)
  {
    var line := HudLine(score, hi);
    var pausedNote: seq<Call> := if paused then [Text(PausedText, 20.0, 30.0)] else [];
    var overNote: seq<Call> := if over then [Font(BannerFont), Text(GameOverText, ViewWidth / 2.0 - 150.0, 100.0)] else [];
    ctx.log := ctx.log + ([FillStyle(theme.colors.hud), Font(HudFont), Text(line, ViewWidth - 220.0, 30.0)] + pausedNote + overNote);
  }

  /** `drawFrame`: the canvas receives exactly the calls of the frame model,
      with the images decoded when the frame began; the game state is only
      read. */
  method DrawFrame(ctx: Canvas, cache: Assets.ImageCache, state: Game.GameState, theme: Theme,
                   debug: bool, sin: real -> real, now: real)
    requires cache.Valid()
    modifies ctx, cache
    ensures cache.Valid() && cache.ReadyImages() == old(cache.ReadyImages())
    ensures ctx.log == old(ctx.log) + FrameCalls(state.View(), theme, old(cache.ReadyImages()), debug, sin, now)
  {
    ghost var imgs := cache.ReadyImages();
    ghost var w := state.View();
    var camX, obstacles, player := state.camera.x, state.obstacles, state.player.View();
    var score, paused, gameOver := Floor(state.score), state.paused, state.gameOver;
    assert camX == w.camX && obstacles == w.obstacles && player == w.player;
    assert score == Floor(w.score) && paused == w.paused && gameOver == w.gameOver;
    ghost var frame := SceneCalls(camX, theme, imgs) + ObstaclesCalls(obstacles, camX, theme, imgs, sin, now)
                       + PlayerCalls(player, camX, theme, imgs, debug, sin) + HudCalls(score, 0, paused, gameOver, theme);
    assert frame == FrameCalls(w, theme, imgs, debug, sin, now);
    DrawScene(ctx, cache, camX, theme, imgs);
    DrawObstacles(ctx, cache, obstacles, camX, theme, sin, now, imgs);
    DrawPlayer(ctx, cache, player, camX, theme, debug, sin, imgs);
    DrawHud(ctx, score, 0, paused, gameOver, theme);
    AppendParts(old(ctx.log), SceneCalls(camX, theme, imgs), ObstaclesCalls(obstacles, camX, theme, imgs, sin, now),
                PlayerCalls(player, camX, theme, imgs, debug, sin), HudCalls(score, 0, paused, gameOver, theme));
    assert w == state.View();
  }

  /** Appending parts one at a time appends their concatenation. */
  lemma AppendParts(log: seq<Call>, a: seq<Call>, b: seq<Call>, c: seq<Call>, d: seq<Call>)
    ensures log + a + b + c + d == log + (a + b + c + d)
    ensures log + a + b + c == log + (a + b + c)
    ensures log + a + b == log + (a + b)
  {
  }

  /** Smoothing, clearing, background and ground. */
  method DrawScene(ctx: Canvas, cache: Assets.ImageCache, camX: real, theme: Theme,
                   ghost imgs: map<string, Assets.ImgState>)
    requires cache.Valid() && cache.ReadyImages() == imgs
    modifies ctx, cache
    ensures cache.Valid() && cache.ReadyImages() == imgs
    ensures ctx.log == old(ctx.log) + SceneCalls(camX, theme, imgs)
  {
    ctx.log := ctx.log + [Smoothing(!theme.pixelArt), ClearRect(0.0, 0.0, ViewWidth, ViewHeight)];
    ghost var l0 := ctx.log;
    DrawBackground(ctx, cache, camX, theme, imgs);
    ghost var l1 := ctx.log;
    DrawGround(ctx, cache, camX, theme, imgs);
    AppendParts(old(ctx.log), [Smoothing(!theme.pixelArt), ClearRect(0.0, 0.0, ViewWidth, ViewHeight)],
                BackgroundCalls(camX, theme, imgs), GroundCalls(camX, theme, imgs), []);
  }

  /** The obstacle loop, in list order. */
  method DrawObstacles(ctx: Canvas, cache: Assets.ImageCache, obstacles: seq<Obstacle>, camX: real, theme: Theme,
                       sin: real -> real, now: real, ghost imgs: map<string, Assets.ImgState>)
    requires cache.Valid() && cache.ReadyImages() == imgs
    modifies ctx, cache
    ensures cache.Valid() && cache.ReadyImages() == imgs
    ensures ctx.log == old(ctx.log) + ObstaclesCalls(obstacles, camX, theme, imgs, sin, now)
  {
    ghost var start := ctx.log;
    for n := 0 to |obstacles|
      invariant cache.Valid() && cache.ReadyImages() == imgs
      invariant ctx.log == start + ObstaclesCalls(obstacles[..n], camX, theme, imgs, sin, now)
    {
      ghost var done := ObstaclesCalls(obstacles[..n], camX, theme, imgs, sin, now);
      ghost var one := ObstacleCalls(obstacles[n], camX, theme, imgs, sin, now);
      DrawObstacle(ctx, cache, obstacles[n], camX, theme, sin, now, imgs);
      AppendParts(start, done, one, [], []);
      ObstaclesStep(obstacles, n, camX, theme, imgs, sin, now);
    }
    assert obstacles[..|obstacles|] == obstacles;
  }
}
