# Journey Runner, header switch, chat store and twin workflow in Dafny

This project models the logic of the personal website `website_ai`. Six pieces are modelled:

- **The Journey Runner engine** (`src/app/journey/engine/`).
  - The per-tick simulation `stepUpdate` and the state built by `createInitialState`.
  - The renderer `drawFrame` and its helpers.
  - The memoising image cache `loadImage` / `loadThemeImages` / `imgReady`.
- **The header switch**: the route-prefix rule that hides the global header.
- **The chat message store**: its initial messages and its three actions.
- **The digital-twin workflow**: the guardrail result helpers and the tripwire/route dispatch of `runWorkflow`.

Layout:

- `base.dfy`: `Option` and `Outcome`, and the JavaScript number helpers the engine uses (`Math.floor`, `Math.round`, `Math.sign`, `%` on reals, `| 0`).
- `strings.dfy`: `toString` of integers, `padStart`, `startsWith`, and a decimal reader that is the inverse of `toString`.
- `constants.dfy`, `types.dfy`: the engine's constants and record shapes.
- `game_spec.dfy`: one tick as pure functions over a `World` value, with the lemmas about it.
- `game.dfy`: the engine as it runs.
  - Classes `Player`, `Camera` and `GameState`, whose fields are updated in place.
  - `StepUpdate`, whose `ensures` ties the new state to the tick of `game_spec.dfy`.
- `assets.dfy`: the image objects and the module-level cache, as classes.
- `draw_spec.dfy`: the canvas calls every drawing routine issues, as functions of the state, the theme and the images ready at the start of the frame.
- `draw.dfy`: the drawing routines as methods that append to a canvas call log. Each is proved equal to its specification.
- `header_switch.dfy`, `chat_store.dfy`, `guardrails.dfy`, `workflow.dfy`: the other four pieces.

Numbers are `real`. The random generator is a given stream `rng: nat -> Draw` of values in [0, 1); the state counts the values drawn so far. The rectangle test `aabb` is an uninterpreted parameter. `Math.sin` and `performance.now()` are parameters of the renderer. Agents are one opaque function from an agent and the history it is given to the items it adds and its final output.

## Model

| member | source | states |
|---|---|---|
| GameSpec.InitialWorld | src/app/journey/engine/game.ts:5-26 | the state as `createInitialState` builds it carries no furthest-x mark: the player record has no `_maxX` |
| GameSpec.FreshWorld | src/app/journey/engine/game.ts:5-26 | the initial state with the furthest-x mark set to the start x 50 and nothing else changed; it satisfies `Tracked` (score = (mark − 50) / 4, player not right of the mark) |
| GameSpec.InitialOk | src/app/journey/engine/game.ts:5-26 | both initial states satisfy the reachable-state bounds `WorldOk`: speeds and timers in range, box on or above the ground, camera and score non-negative |
| GameSpec.ReadInputMonotone | src/app/journey/engine/game.ts:39-42 | each direction is the OR of arrow key, letter key and touch flag, so holding more keys or flags never releases a direction |
| GameSpec.ReadInputIgnoresUnbound | src/app/journey/engine/game.ts:39-42 | a key code other than the eight the engine reads changes no direction |
| GameSpec.Height | src/app/journey/engine/game.ts:80 | the box is floor(48 · 0.6) = 28 tall when ducking, 48 otherwise |
| GameSpec.RunVelocityFacts | src/app/journey/engine/game.ts:47-55 | after the horizontal step −360 ≤ vx ≤ 360. With no direction held vx is multiplied by the friction 0.85. With a direction held vx moves towards the target speed, never away from it |
| GameSpec.MoveFacts | src/app/journey/engine/game.ts:44-87 | for one tick: ducking ⇔ down held ∧ grounded at tick start; vx within ±360; vy ≤ 1800; the next box bottom is at most groundY; grounded ⇔ the bottom sits exactly on groundY, and then vy = 0; in the air the next y is y + vy·dt; x, y, anim and the mark are not yet written |
| GameSpec.AirborneFacts | src/app/journey/engine/game.ts:44-73 | the velocity phases keep the ducking rule, the run-speed clamp and the fall cap, and leave position, clock and mark alone |
| GameSpec.LandFacts | src/app/journey/engine/game.ts:75-87 | the ground test changes only vy and grounded; a box reaching the ground is set exactly on it with vy = 0; any other box keeps y + vy·dt and its vy |
| GameSpec.TimersBounded | src/app/journey/engine/game.ts:57-70 | jumpBuf stays in [0, 0.12] and coyote in [0, 0.1] |
| GameSpec.JumpFires | src/app/journey/engine/game.ts:64-73 | when both timers are positive after their update, both are zeroed, and unless the player lands in the same tick vy = min(1800, −980 + 3000·dt) |
| GameSpec.TakeOff | src/app/journey/engine/game.ts:57-87 | a grounded player pressing up, with 0 < dt ≤ 0.032, leaves the ground in that tick and moves up |
| GameSpec.NoJumpInAir | src/app/journey/engine/game.ts:59-73 | off the ground with coyote ≤ dt no jump fires; releasing up while rising multiplies vy by 0.55 before gravity |
| GameSpec.Follow | src/app/journey/engine/game.ts:104-109 | after auto-scroll and easing the camera is never left of 0 |
| GameSpec.ObstacleId | src/app/journey/engine/game.ts:125 | the id `rng() * 1e9` truncated to a 32-bit integer lies in [0, 1e9) |
| GameSpec.Cluster | src/app/journey/engine/game.ts:123-132 | a cluster has exactly `count` members, all cacti |
| GameSpec.ClusterIsRow | src/app/journey/engine/game.ts:120-132 | every cactus is 18 wide with height in [36, 69] standing on groundY; neighbours are 32 apart and of one height; none is left of the start |
| GameSpec.Spread | src/app/journey/engine/game.ts:114 | `base + Math.floor(rng() * span)` lies in [base, base + span) |
| GameSpec.Pick | src/app/journey/engine/game.ts:117-146 | one group adds 1 to 3 obstacles using 4 to 6 draws; the draw is ≥ 0.8 ⇔ the group is one bird |
| GameSpec.Cacti | src/app/journey/engine/game.ts:118-132 | a cactus group has 1 to 3 members and uses 2 draws plus one per member |
| GameSpec.BirdAt | src/app/journey/engine/game.ts:133-146 | a bird group is one obstacle and uses 3 draws |
| GameSpec.SpawnGroup | src/app/journey/engine/game.ts:113-148 | one pass of the spawn loop raises the cursor by 240 to 558, adds 1 to 3 obstacles and uses at least 5 draws |
| GameSpec.SpawnGroupShapes | src/app/journey/engine/game.ts:113-148 | one pass adds either a cactus row or one bird 40×24 in one of the three bands with vy = ±40; every new obstacle is at least 160 right of the old cursor |
| GameSpec.SpawnAheadFacts | src/app/journey/engine/game.ts:111-149 | the loop exits with the cursor at or past the spawn front; it never lowers the cursor; when it runs at least once it raises the cursor by at least 240; old obstacles stay as a prefix; every appended obstacle is well shaped and right of the old cursor + 160 |
| GameSpec.MoveBirdFacts | src/app/journey/engine/game.ts:151-159 | the bird update changes only y and the sign of vy, keeps a cactus as it is, and flips vy exactly when the moved bird is outside [groundY − 200, groundY − 60] |
| GameSpec.MoveBirds | src/app/journey/engine/game.ts:152-159 | the bird update keeps the list length |
| GameSpec.MoveBirdsKeepsSized | src/app/journey/engine/game.ts:151-159 | after the bird update every obstacle that was well sized (a spawned-shape cactus, or a 40×24 bird with vy = ±40) still is |
| GameSpec.Cull | src/app/journey/engine/game.ts:161-163 | the cull never lengthens the list |
| GameSpec.CullMembers | src/app/journey/engine/game.ts:161-163 | an obstacle survives the cull ⇔ it was in the list and x + w > camX − 600 |
| GameSpec.CullConcat | src/app/journey/engine/game.ts:163 | the cull works element by element (cull(a + b) = cull(a) + cull(b)), so the original order is kept |
| GameSpec.CullKeepsAllKept | src/app/journey/engine/game.ts:163 | a list whose obstacles all pass the test is returned unchanged |
| GameSpec.CullKeepsProperty | src/app/journey/engine/game.ts:161-163 | every survivor keeps its shape and passes the test |
| GameSpec.ScoreUpdate | src/app/journey/engine/game.ts:165-171 | the score step changes no player field other than the mark |
| GameSpec.StepAbort | src/app/journey/engine/game.ts:89-98 | `onOver(true)` is called ⇔ the next box overlaps an obstacle inside [camX − 100, camX + 1300]. Then x, y, anim, the mark, camera, obstacles, cursor and score are unchanged, nothing is reported, and the already-updated vx, vy, ducking, grounded, coyote and jumpBuf are kept |
| GameSpec.StepCommit | src/app/journey/engine/game.ts:99-174 | after a committed tick the box is on or above the ground (grounded exactly when it touches it); camera ≥ 0; cursor ≥ camX + 1400 and not lowered; every obstacle passes the cull test; score and animation clock do not decrease |
| GameSpec.CommitFacts | src/app/journey/engine/game.ts:100-174 | the same facts for the part of the tick after the collision test |
| GameSpec.AirborneVy | src/app/journey/engine/game.ts:62-73 | vy stays in [−980, 1800] through the velocity phases |
| GameSpec.StepKeepsOk | src/app/journey/engine/game.ts:28-175 | every tick with dt in [0, 0.032], committed or not, preserves `WorldOk` |
| GameSpec.ScrollKeepsSized | src/app/journey/engine/game.ts:111-163 | spawning, the bird update and the cull keep every obstacle well sized |
| GameSpec.ScoreFrozen | src/app/journey/engine/game.ts:165-171 | as written, a player without a mark never gains one: the score stays put and `onScore` is not called |
| GameSpec.ScoreTracksProgress | src/app/journey/engine/game.ts:165-171 | with the mark set, a committed tick that passes it adds (x − mark) / 4 and reports the floored score; any other tick keeps score and mark; `Tracked` is preserved |
| GameSpec.RunNeverScores | src/app/journey/engine/game.ts:165-171 | as written, over any sequence of ticks from a state without a mark, the score never changes |
| GameSpec.InitialNeverScores | src/app/journey/engine/game.ts:165-171 | from the state `createInitialState` builds, the score stays 0 forever |
| GameSpec.RunTracks | src/app/journey/engine/game.ts:165-171 | from a tracked state, every sequence of ticks keeps the score at a quarter of the furthest distance, and the mark never moves back |
| GameSpec.FreshScores | src/app/journey/engine/game.ts:165-171 | from the corrected fresh state the score always equals (furthest x − 50) / 4 ≥ 0 |
| Game.Player.constructor | src/app/journey/engine/game.ts:7-17 | without `markStart` the player of `InitialWorld`, with no furthest-x mark as written; with it the corrected player of `FreshWorld`, marked at the start x |
| Game.Player.Steer | src/app/journey/engine/game.ts:44-87 | the in-place velocity phases and ground test equal `Move`, returning the next position and box height |
| Game.Player.Walk | src/app/journey/engine/game.ts:44-55 | ducking and the clamped horizontal speed as `Walk` |
| Game.Player.Timers | src/app/journey/engine/game.ts:57-59 | jump buffer and coyote window as `JumpTimers` |
| Game.Player.CutJump | src/app/journey/engine/game.ts:61-62 | the variable-height cut as `CutJump` |
| Game.Player.TryJump | src/app/journey/engine/game.ts:64-70 | the jump fires as `ConsumeJump` |
| Game.Player.Fall | src/app/journey/engine/game.ts:72-73 | gravity with the fall cap as `Fall` |
| Game.Player.Land | src/app/journey/engine/game.ts:75-87 | integration and the ground test as `Land` |
| Game.Player.Animate | src/app/journey/engine/game.ts:173-174 | only the animation clock changes, as `Animate` |
| Game.Camera.constructor | src/app/journey/engine/game.ts:18 | the camera starts at 0 |
| Game.Camera.Follow | src/app/journey/engine/game.ts:104-109 | the camera moves as `Follow` (so never below 0) |
| Game.GameState.constructor | src/app/journey/engine/game.ts:5-26 | without `markStart` the new state is `InitialWorld`, the state as written; with it the corrected `FreshWorld`; the random stream is the given one |
| Game.GameState.Next | src/app/journey/engine/game.ts:114 | `state.rng()` returns the next stream value and advances the count by one, changing nothing else |
| Game.GameState.SpawnAhead | src/app/journey/engine/game.ts:111-149 | the in-place `while` loop ends in the state `SpawnAhead` computes |
| Game.GameState.SpawnOne | src/app/journey/engine/game.ts:114-148 | one loop pass appends the group's obstacles and moves cursor and draw count as `SpawnGroup` |
| Game.GameState.Stride | src/app/journey/engine/game.ts:114-115 | the cursor moves by `Spread`, using one draw |
| Game.GameState.SpawnPick | src/app/journey/engine/game.ts:117-146 | appends the obstacles of `Pick`, leaving the cursor |
| Game.GameState.SpawnCacti | src/app/journey/engine/game.ts:118-132 | appends the cactus group of `Cacti` |
| Game.GameState.SpawnBird | src/app/journey/engine/game.ts:133-146 | appends the bird of `BirdAt` |
| Game.GameState.PushCluster | src/app/journey/engine/game.ts:123-132 | the inner `for` loop appends exactly `Cluster`, one draw per cactus |
| Game.GameState.Score | src/app/journey/engine/game.ts:165-171 | the score step in place equals `ScoreUpdate`, including the value passed to `onScore` |
| Game.GameState.UpdateBirds | src/app/journey/engine/game.ts:151-159 | the in-place loop leaves `MoveBirds` of the old list |
| Game.HitsObstacle | src/app/journey/engine/game.ts:89-98 | the scan finds a hit ⇔ `Blocked`: some obstacle near the view overlaps the box |
| Game.StepUpdate | src/app/journey/engine/game.ts:28-175 | the in-place tick ends in `Step(old state).world`, returns `onOver`'s call and `onScore`'s value, so every `Step` lemma holds of the running engine |
| Game.Advance | src/app/journey/engine/game.ts:100-174 | the rest of a tick without a hit equals `Commit` |
| Game.Scroll | src/app/journey/engine/game.ts:104-163 | camera, spawning, bird update and cull in place equal `Scroll` |
| Assets.Image.constructor | src/app/journey/engine/assets.ts:8-9 | a new image has its `src` and is not decoded |
| Assets.Adds | src/app/journey/engine/assets.ts:6-10 | a load adds a key ⇔ the source is defined and non-empty, and the key is the source |
| Assets.ThemeSources | src/app/journey/engine/assets.ts:14-21 | every background layer, ground, cactus, bird, player and billboard-frame source the theme defines is requested |
| Assets.AllAdds | src/app/journey/engine/assets.ts:14-21 | loading a sequence adds exactly its defined non-empty sources |
| Assets.ImageCache.constructor | src/app/journey/engine/assets.ts:3 | the cache starts empty |
| Assets.ImageCache.LoadImage | src/app/journey/engine/assets.ts:5-12 | an undefined or empty source returns undefined and changes nothing; a cached source returns the cached image; a new source creates one undecoded image with that `src`, stores it under the source and returns it; keys only grow and no entry is replaced |
| Assets.ImageCache.LoadThemeImages | src/app/journey/engine/assets.ts:14-21 | afterwards the keys are the old keys plus every defined theme source; no entry is replaced; no image's readiness changes |
| Assets.LoadTwice | src/app/journey/engine/assets.ts:5-12 | two loads of the same non-empty source return the identical image and add only that key |
| Assets.AllAddsAppend | src/app/journey/engine/assets.ts:14-21 | loading two sequences in turn adds the union of what each adds |
| Assets.ThemeReloadAddsNothing | src/app/journey/engine/assets.ts:14-21 | loading a theme's images a second time adds no key |
| DrawSpec.ImageFor | src/app/journey/engine/draw.ts:31-32 | an image is used only when its source is non-empty and `imgReady` holds: decoded, positive width and height |
| DrawSpec.CropOf | src/app/journey/engine/draw.ts:37-40 | for fullH ≥ 1: srcH ∈ [1, fullH] and srcY ∈ [0, fullH − srcH]; an omitted srcY is the bottom-aligned fullH − srcH; an omitted srcH is fullH; in-range values are kept |
| DrawSpec.LayerStrip | src/app/journey/engine/draw.ts:34-44 | a background layer's tiles are the image's natural width with a crop height in [1, naturalHeight] |
| DrawSpec.GroundStrip | src/app/journey/engine/draw.ts:70-80 | the ground's tiles are the image's natural width with a crop height in [1, naturalHeight] |
| DrawSpec.LayerStart | src/app/journey/engine/draw.ts:46-47 | the first background tile starts in [−2·tileW, −1], and at or left of −tileW when camX·speed ≥ 0 |
| DrawSpec.GroundStart | src/app/journey/engine/draw.ts:82 | the first ground tile starts in [−2·tileW, 0], and in [−2·tileW + 1, −tileW] when camX ≥ 0 |
| DrawSpec.TileRow | src/app/journey/engine/draw.ts:49-51 | the tile loop draws whole-width crops from the start, each tileW right of the previous one, all left of VIEW.width + tileW |
| DrawSpec.TileRowCovers | src/app/journey/engine/draw.ts:49-51 | a row starting at or left of column p, for p in the view, has a tile spanning p: the view [0, 1000) is covered |
| DrawSpec.Mountains | src/app/journey/engine/draw.ts:57-60 | the fallback draws mountains −1 to 7, nine triangles, in order |
| DrawSpec.ObstacleCalls | src/app/journey/engine/draw.ts:106-107 | an obstacle with sx + w < −50 or sx > VIEW.width + 50 produces no call |
| DrawSpec.Visible | src/app/journey/engine/draw.ts:106-107 | the obstacles that may draw are those not off screen, in list order |
| DrawSpec.OffScreenDrawsNothing | src/app/journey/engine/draw.ts:17-19 | drawing only the on-screen obstacles issues exactly the same calls as drawing them all |
| DrawSpec.CulledAreOffScreen | src/app/journey/engine/draw.ts:106-107 | an obstacle the engine culls is off screen, so culling never removes a drawn obstacle |
| DrawSpec.SpriteHeight | src/app/journey/engine/draw.ts:146 | the drawn height is 28 when ducking and 48 otherwise |
| DrawSpec.SpriteMatchesBox | src/app/journey/engine/draw.ts:146 | the drawn height equals the engine's collision-box height |
| DrawSpec.SpriteBottomAligned | src/app/journey/engine/draw.ts:146-148 | the sprite is bottom-aligned: sy + ph = round(y + 48), ducking or not |
| DrawSpec.FrameIndexBounds | src/app/journey/engine/draw.ts:159-161 | for anim ≥ 0, fps ≥ 0 and frames ≥ 1 the frame index lies in [0, frames) |
| DrawSpec.FrameWidth | src/app/journey/engine/draw.ts:162-166 | for a decoded sheet the frame width is positive ⇔ the frame count is positive, so the sprite is drawn only then |
| DrawSpec.HudCalls | src/app/journey/engine/draw.ts:196-205 | the HUD's third call writes `HI <hi>   <score>` at (VIEW.width − 220, 30) |
| DrawSpec.HudShowsScore | src/app/journey/engine/draw.ts:198-200 | with hi = 0 the HUD line is `HI 00000   ` followed by at least five digits that read back as the score |
| DrawSpec.PaddedReadsBack | src/app/journey/engine/draw.ts:198 | a zero-padded score is at least five digits and reads back as the score |
| DrawSpec.ZeroPadded | src/app/journey/engine/draw.ts:199 | the high score 0 shows as `00000` |
| DrawSpec.SceneCalls | src/app/journey/engine/draw.ts:11-15 | a frame starts with the smoothing setting, then the clear of the whole view |
| DrawSpec.FrameCalls | src/app/journey/engine/draw.ts:5-23 | a frame starts with smoothing off for pixel-art themes, then the clear |
| DrawSpec.FrameEndsWithHud | src/app/journey/engine/draw.ts:21-22 | whatever the state, the frame ends with the HUD calls for the floored score and hi = 0 |
| Draw.Load | src/app/journey/engine/draw.ts:31-32 | loading through the cache during a frame yields the image `ImageFor` picks and changes no readiness |
| Draw.DrawTiles | src/app/journey/engine/draw.ts:49-51 | the `for` loop stepping x appends exactly `TileRow` |
| Draw.DrawLayer | src/app/journey/engine/draw.ts:31-51 | one background layer appends `LayerCalls`: nothing until decoded, then its tile row |
| Draw.DrawLayers | src/app/journey/engine/draw.ts:29-52 | the layers are drawn in order |
| Draw.DrawMountains | src/app/journey/engine/draw.ts:54-61 | the fallback appends the mountain colour and the nine mountains |
| Draw.DrawBackground | src/app/journey/engine/draw.ts:25-62 | sky, then layers, then mountains only when the theme lists no layers |
| Draw.DrawGround | src/app/journey/engine/draw.ts:64-98 | the tiled ground image once decoded, nothing while loading, the dashed fallback when the theme has no ground |
| Draw.DrawObstacle | src/app/journey/engine/draw.ts:100-137 | appends `ObstacleCalls`, so nothing for an off-screen obstacle |
| Draw.DrawCactus | src/app/journey/engine/draw.ts:109-121 | the cactus image bottom-aligned once decoded, nothing while loading, or the block cactus with two arms |
| Draw.DrawBird | src/app/journey/engine/draw.ts:122-136 | the bird image once decoded, nothing while loading, or the block bird whose wings flap with the sign of `sin` |
| Draw.DrawObstacles | src/app/journey/engine/draw.ts:17-19 | the obstacles are drawn in list order |
| Draw.DrawBody | src/app/journey/engine/draw.ts:155-180 | the sprite frame once decoded, nothing while loading, or the block runner |
| Draw.DrawPlayer | src/app/journey/engine/draw.ts:139-186 | shadow, body, and the debug outline when asked |
| Draw.DrawHud | src/app/journey/engine/draw.ts:188-206 | colour, font, score line, the paused note when paused, and the game-over banner when over |
| Draw.DrawScene | src/app/journey/engine/draw.ts:11-15 | smoothing, clear, background, ground |
| Draw.DrawFrame | src/app/journey/engine/draw.ts:5-23 | the frame appends exactly `FrameCalls`: clear, background, ground, each obstacle in order, player, HUD; billboards are never drawn; the cache's readiness is unchanged |
| Strings.NatToString | src/app/journey/engine/draw.ts:198 | `toString` of a natural number is non-empty decimal digits without a leading zero |
| Strings.IntToString | src/app/journey/engine/draw.ts:198 | `toString` of a negative number is `-` followed by digits |
| Strings.DecimalRoundTrip | src/app/journey/engine/draw.ts:198 | reading back `toString(n)` gives n |
| Strings.IntToStringValue | src/app/journey/engine/draw.ts:198 | the digits of `toString(n)` read back as the magnitude of n |
| Strings.PadStart | src/app/journey/engine/draw.ts:198-199 | `padStart` yields max(length of s, width) characters: fill characters, then s |
| Strings.PaddedNumeral | src/app/journey/engine/draw.ts:198-199 | a zero-padded numeral is at least `width` digits and still denotes the number |
| HeaderSwitch.AnyUnder | src/components/HeaderSwitch.tsx:15-17 | `some` is true ⇔ some listed prefix equals the path or is followed in it by `/` |
| HeaderSwitch.Render | src/components/HeaderSwitch.tsx:19-20 | the component renders nothing ⇔ `shouldHide`, and the header otherwise |
| HeaderSwitch.HiddenExactly | src/components/HeaderSwitch.tsx:10-17 | the header is hidden ⇔ the path is `/professional_resume` or starts with `/professional_resume/` |
| HeaderSwitch.ResumeHidden | src/components/HeaderSwitch.tsx:15-16 | `/professional_resume` and every path below it render nothing |
| HeaderSwitch.SiblingShown | src/components/HeaderSwitch.tsx:16 | `/professional_resume_old` keeps the header |
| HeaderSwitch.OtherRoutesShown | src/components/HeaderSwitch.tsx:19-20 | `/` and `/about` render the header |
| HeaderSwitch.MorePrefixesHideMore | src/components/HeaderSwitch.tsx:10-17 | listing more prefixes can only hide more paths |
| ChatStore.Greeting | src/context/useChatStore.ts:20-31 | two assistant messages stamped by two clock readings, ids `t1` and `t2 + 1`; the first id is below the second ⇔ the clock did not go back between the readings |
| ChatStore.Store.constructor | src/context/useChatStore.ts:17-31 | the store starts with the greeting built from the two `Date.now()` readings |
| ChatStore.Store.AddMessage | src/context/useChatStore.ts:32-35 | the message is appended last; the length grows by one; earlier messages are unchanged and in order |
| ChatStore.Store.SetMessages | src/context/useChatStore.ts:36 | the list becomes exactly the given one |
| ChatStore.Store.ClearMessages | src/context/useChatStore.ts:37 | the list becomes empty |
| ChatStore.ClearThenAdd | src/context/useChatStore.ts:32-37 | clearing and then adding m leaves exactly [m] |
| Guardrails.HasTripwire | src/lib/agents/runDanielTwin.ts:37-39 | true ⇔ the list is present and some result has `tripwireTriggered === true`; a missing list gives false |
| Guardrails.AnyTripped | src/lib/agents/runDanielTwin.ts:38 | `.some` is true ⇔ some element has tripped |
| Guardrails.ProbeKey | src/lib/agents/runDanielTwin.ts:43 | the probe hits ⇔ `info` is an object with the key; it throws ⇔ `info` is a truthy primitive |
| Guardrails.FirstNotSkipped | src/lib/agents/runDanielTwin.ts:42-46 | the loop stops at the first result whose probe is not skipped, or runs to the end |
| Guardrails.GetGuardrailSafeText | src/lib/agents/runDanielTwin.ts:41-49 | the `for` loop with early return and the `find` return exactly `SafeText`, including the TypeError `in` throws on a primitive `info` |
| Guardrails.FirstCheckedWins | src/lib/agents/runDanielTwin.ts:42-45 | the first result carrying `checked_text` decides (its value, or the fallback when nullish), whatever follows |
| Guardrails.AnonymizedUsed | src/lib/agents/runDanielTwin.ts:47-48 | with no `checked_text` anywhere, the first result carrying `anonymized_text` decides |
| Guardrails.FallbackUsed | src/lib/agents/runDanielTwin.ts:47-48 | a missing list, or one carrying neither key, gives the fallback |
| Guardrails.PrimitiveInfoThrows | src/lib/agents/runDanielTwin.ts:43 | a truthy primitive `info` before any `checked_text` makes the helper throw |
| Guardrails.OrElse | src/lib/agents/runDanielTwin.ts:44 | `a ?? b` is b exactly when a is null or undefined |
| Guardrails.Named | src/lib/agents/runDanielTwin.ts:94 | `get(name)` returns the first listed result whose `guardrail_name ?? guardrailName` is the name: no earlier result has the name; it is undefined ⇔ no result has the name |
| Guardrails.Entries | src/lib/agents/runDanielTwin.ts:105-107 | the entries of an object are its properties in order |
| Guardrails.PiiCounts | src/lib/agents/runDanielTwin.ts:107-109 | the count list is empty ⇔ no detected-entity value is an array |
| Guardrails.PiiCountsNameArrays | src/lib/agents/runDanielTwin.ts:107-109 | every count is `key:length` of an array-valued entry |
| Guardrails.BuildFailOutput | src/lib/agents/runDanielTwin.ts:93-122 | pii failed ⇔ some detected-entity value is an array or the PII tripwire fired; moderation failed ⇔ its tripwire fired or `flagged_categories` is non-empty; every other category failed ⇔ its tripwire is `true` |
| Guardrails.NoTripwireFailures | src/lib/agents/runDanielTwin.ts:113-120 | with no tripwire in the list, no category other than PII and moderation is marked failed |
| Guardrails.NamedTrippedIsTripwire | src/lib/agents/runDanielTwin.ts:94 | a result found by name that tripped is a tripwire of the list |
| Workflow.Specialist | src/lib/agents/runDanielTwin.ts:503-617 | route `profile`, `evidence` and `materials` select their own agent; the general agent is selected ⇔ the route is none of them |
| Workflow.Pipeline | src/lib/agents/runDanielTwin.ts:470-655 | a full run is normaliser, router, the route's specialist, verifier |
| Workflow.RunWorkflow | src/lib/agents/runDanielTwin.ts:442-658 | the run that pushes onto the history equals `Workflow` |
| Workflow.RunAnswer | src/lib/agents/runDanielTwin.ts:503-655 | the four route branches, which differ only in the specialist they run, equal `Answer` on the agent `Specialist` picks |
| Workflow.TripwireRefuses | src/lib/agents/runDanielTwin.ts:463-467 | a tripwire returns the fixed refusal and runs no agent |
| Workflow.AnswerComesFromVerifier | src/lib/agents/runDanielTwin.ts:520-540 | a returned answer is the verifier's `final_answer`; the verifier saw the specialist's items; all four agents ran |
| Workflow.ReturnedRunsPipeline | src/lib/agents/runDanielTwin.ts:450-655 | a run that passes the gate and returns ran normaliser, router, a specialist and the verifier, and its history starts with the user's message |
| Workflow.RouteSelectsAgent | src/lib/agents/runDanielTwin.ts:503-655 | the third agent run is the route's specialist; any route other than the three runs the general agent |
| Workflow.MissingOutputThrows | src/lib/agents/runDanielTwin.ts:513-515 | a specialist without a final output makes the run throw `Agent result is undefined`, and the verifier does not run |

## Left out

- The bodies of `aabb` and `mulberry32`: `src/app/journey/engine/util.ts` is not part of this model. The overlap test is a parameter; the generator is a given stream of values in [0, 1). The `Math.random` seed is not modelled.
- Obstacle ids: the `| 0` truncation is modelled for the values it sees, but nothing is claimed about id uniqueness.
- IEEE floating point: numbers are exact reals, so NaN, infinities, −0 and rounding are not modelled.
- The host loop in `src/app/journey/journeyGame.tsx`: animation frames, React state, key listeners, restart, and the `window._*Held` touch globals. The touch flags are a `Touch` parameter. The `min(0.032, …)` clamp on dt is a precondition only where a lemma needs it: `StepKeepsOk` and `TakeOff`.
- `keys[...]` values: only booleans are modelled, and a code never pressed reads as false.
- `onScore` and `onOver`: modelled as the values `StepUpdate` returns.
- Billboards and the story cursor: no code in the core spawns, culls or draws them. Only the billboard frame's source is loaded.
- Canvas API: the canvas is a log of calls. `beginPath`/`moveTo`/`lineTo`/`fill`/`stroke` sequences are single `Triangle`, `Ellipse` and `Line` calls.
- Image decoding: readiness is a snapshot taken at the start of a frame, and nothing decodes during a frame.
- `Math.sin` and `performance.now()`: parameters of the renderer.
- DrawSpec.SpriteCalls: a frame count of 0 makes the source arguments non-finite, which the canvas ignores; the model draws nothing then.
- Strings.NatToString: `toString` of numbers of 1e21 or more uses exponent notation, which is not modelled.
- Assets.ImageCache.LoadThemeImages: stated over the cache's keys and unchanged entries; which new image object each new key holds is stated only by `LoadImage`, one call at a time.
- `imgReady` is the predicate `Assets.ImgReady`; its definition is the property, so it has no row of its own.
- Everything asynchronous in `runDanielTwin.ts`:
  - agent definitions and prompts;
  - `Runner.run`, which is an opaque function here;
  - `runGuardrails` and the OpenAI client, so the guardrail results are an input;
  - tracing and `emitStatus`;
  - the PII scrub of the history and the workflow input.
- `runAndApplyGuardrails`: only its effect on the run is kept. The safe text is computed before the tripwire test, so a throw from it ends the run first.
- `runWorkflow`'s `{ output: … }` wrapper: the model returns the output value itself.
- Object property order: an object is the sequence of its own properties. `Object.entries` of a string is left out, because its values are never arrays.
- The zustand `persist` middleware and its localStorage I/O.
- JavaScript coercions in the workflow: `route == "profile"` is loose equality, so an array such as `["profile"]` would match, and `.length > 0` coerces a string `length`. The model compares routes strictly and counts only numeric lengths in `Workflow.Specialist` and `Guardrails.NonEmpty`. The router's output schema makes `route` a string (runDanielTwin.ts:123), which rules out the first case. The guardrail library that fills in `flagged_categories` is not part of this model.

## Findings

| source | as written | input that shows it | evidently intended | confidence | as-written member | corrected member |
|---|---|---|---|---|---|---|
| src/app/journey/engine/game.ts:165-171 | `createInitialState` (lines 5-26) sets no `_maxX`, so `prevMax` is the current `p.x` and `p.x > prevMax` is false. `_maxX` is then never set and the score never grows. | A fresh state, then any sequence of ticks, e.g. holding ArrowRight: the score stays 0 and `onScore` is never called | the score is a quarter of the furthest distance run from the start, so the mark starts at the start x 50 | not executed | GameSpec.RunNeverScores | GameSpec.FreshScores |

The engine's constructor `Game.GameState.constructor` builds either state. Without `markStart` it builds `GameSpec.InitialWorld`, the state as written, to which `GameSpec.InitialNeverScores` applies the finding. With `markStart` it builds the corrected state `GameSpec.FreshWorld`.
