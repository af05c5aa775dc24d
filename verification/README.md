# Flappy Bird on a batched WebGL sprite renderer — a Dafny model

The game is one JavaScript file, `main.js`. Beneath its WebGL and DOM calls sits
deterministic bookkeeping, and this project models that bookkeeping as pure
Dafny functions and proves what it promises.

- **Renderer** (`renderer.dfy`, module `Render`): an ordered list of
  `SpriteBatch`es.
  - `add` puts a sprite into the first open batch of its z-index. If there is
    none, it pushes a fresh batch of capacity `MAX_SPRITES` and stably sorts the
    list by z-index.
  - `remove` stops at the first batch that held the sprite.
  - Sprites are handles `(id, zIndex, texture)`; the `id` stands for JavaScript
    object identity.
- **SpriteBatch bookkeeping** (`sprite_batch.dfy`, module `Batching`): the
  counter, the sprite list, the distinct-texture list and the `isFull` flag,
  plus the texture slot that `genVertices` stamps on a sprite.
- **Buffer layout** (`vertex_layout.dfy`, module `VertexLayout`):
  - the 16-bit index buffer from `genIndices`;
  - the 9-float vertex stride and field offsets written by `genVertices`;
  - how a batch's buffer is packed at render time;
  - the texture-slot convention shared with the fragment shader.
- **Score** (`score.dfy`, module `ScoreDisplay`): decimal digits, the centred
  row, and the exact `add`/`remove` calls `setScore` makes on the renderer.
  `inc` toggles day and night on every multiple of ten.
- **Level** (`level.dfy`, module `Game`):
  - the `ready` / `playing` / `gameover` state machine of `setState`, `reset`,
    `gameOver` and `update`;
  - the input branch of `Player.update`;
  - the recycle rule and `passed` latch of `Pipe.update`;
  - the game-over text;
  - an invariant tying the level to the renderer's contents.
- **Input edges** (`input.dfy`, module `Input`): `KeyInfo.update` and
  `TouchInfo.update`.
- **Time helpers**:
  - `Animation.getFrame` (`animation.dfy`, module `Frames`);
  - the `Filter` flash and `Background` day/night fade (`overlays.dfy`, module
    `Overlays`);
  - `clamp`, `sat`, `step` and `lerp` (`math_utils.dfy`, module `MathUtils`).
- **Geometry** (`geometry.dfy`, module `Geometry`):
  - `Mat4.ortho` and `fromTranslation` in column-major order;
  - the `Camera`'s lazily recomputed projection;
  - `Sprite.setRegion` and `Spritesheet` UV cells;
  - the letterboxed viewport of `onResize`.

Numbers are unbounded `int`/`nat` and exact `real`; JavaScript's doubles are not
rounded (see "## Left out"). Two places where JavaScript's integer-valued
arithmetic differs from Dafny's are written out:
- `%` truncates toward zero (`Frames.JsRem`);
- the index buffer is a `Uint16Array` and wraps modulo 2^16 (`VertexLayout.IndexAt`).

Nondeterminism and outside events become parameters:
- the random pipe heights;
- the "player hit a pipe" and "player fell" events;
- the activation input;
- the frame's `dt`.

Two facts about textures in a batch:
- A batch has no texture cap; it is full only at capacity (main.js:828-830).
- The fragment shader's `switch` samples only slots 1 to 7, so a sprite whose
  texture is the eighth or later in its batch draws untextured
  (`VertexLayout.TextureSlotSemantics`, `VertexLayout.EighthTextureDrawsUntextured`).

## Model

| member | source | states |
|---|---|---|
| MathUtils.Clamp | main.js:80-82 | the result never exceeds `b`, is at least `a` when `a <= b`, is `x` inside the bounds, and the upper bound wins when the bounds are crossed |
| MathUtils.Sat | main.js:84-86 | the result lies in [0, 1], is `x` inside it, and 0 or 1 beyond either end |
| MathUtils.Step | main.js:115-117 | the result times the edge distance is `x - edge1`, so it is 0 at `edge1` |
| MathUtils.Lerp | main.js:68-70 | gives `a` at 0 and `b` at 1, and its distance from `a` is `x` times `b - a` |
| MathUtils.LerpOfStep | main.js:68-117 | interpolating at the fraction `step` reports gives the point back |
| MathUtils.StepOfLerp | main.js:68-117 | the fraction of `lerp(t)` between the edges is `t` |
| MathUtils.SatStepDone | main.js:1358-1360 | `sat(step(e1, e2, x)) >= 1` exactly when `x >= e2`, which is when the fades end |
| MathUtils.SatStepMonotone | main.js:1404 | `sat . step` never decreases as time grows, so fades never run backwards |
| Frames.RemInRange | main.js:1064 | JavaScript's `%` of a non-negative time by a positive period lies in [0, period) and equals the floored remainder |
| Frames.JsRem | main.js:1064 | JavaScript's `%` by a positive period: the remainder has the sign of the dividend and is less than the period in size |
| Frames.FrameIndex | main.js:1064 | for a positive frame rate the index is the slot of width `frameRate` that `time % totalTime` falls in |
| Frames.GetFrame | main.js:1063-1066 | for non-negative time, a positive frame rate and at least one frame, a frame is always returned (never `undefined`) |
| Frames.FrameIndexInRange | main.js:1064-1065 | for non-negative time the index `floor(time % totalTime / frameRate)` names one of the frames |
| Frames.FrameShownDuringItsSlot | main.js:1060-1066 | frame `k` is returned for every time in `[k*frameRate, (k+1)*frameRate)` |
| Frames.GetFrameIsPeriodic | main.js:1060-1066 | one `totalTime` later the same frame is returned |
| Frames.JsRemPeriodic | main.js:1064 | for a non-negative time, `time % totalTime` is the same one period later |
| Batching.NewBatch | main.js:799-805 | a new batch is empty, not full, on its layer, and well formed when its capacity is positive |
| Batching.AddSprite | main.js:824-836 | a full batch is unchanged; otherwise the sprite is appended and the count goes up; `isFull` becomes set exactly when the count reaches capacity; the texture list only grows, by at most the sprite's non-null texture; well-formedness is kept |
| Batching.TrackTexture | main.js:833-835 | the old texture list is a prefix of the new one, which adds at most the sprite's non-null texture when it is not already there, and stays duplicate-free |
| Batching.IndexOf | main.js:839 | returns -1 exactly when the identity is absent, otherwise its first position |
| Batching.RemoveSprite | main.js:838-846 | reports success exactly when the sprite is present; an absent sprite changes nothing; a present one has its first occurrence deleted with the other sprites kept in order, so it loses exactly one occurrence and every other identity's count is kept; the count drops by one; textures and `isFull` are untouched; well-formedness is kept |
| Batching.Slot | main.js:898-904 | the 1-based position of the first occurrence of the texture, 0 exactly when it is absent |
| Batching.TexId | main.js:894-904 | 0 exactly for a null or untracked texture, otherwise the slot whose list entry is that texture |
| Batching.SlotOfIndex | main.js:898-904 | in a duplicate-free texture list the texture at index `i` gets texID `i + 1` |
| Batching.AddKeepsSlots | main.js:833-835 | adding a sprite never changes the texID of a texture already tracked |
| Batching.RemoveThenAddKeepsTextures | main.js:824-846 | removing a sprite from a non-full batch and adding it back restores the count and the texture list |
| Batching.FullStaysFull | main.js:825-827 | a full batch stays full after a removal and then refuses every sprite |
| Render.EmptyIsValid | main.js:727 | the empty renderer satisfies the renderer invariant and holds no sprite |
| Render.FirstOpen | main.js:734-741 | the first batch that is not full and is on the sprite's layer, or -1 when every batch is full or on another layer |
| Render.LayerEnd | main.js:747 | every batch past the returned position is on a higher layer; in a sorted list every batch before it is not |
| Render.InsertByZ | main.js:747 | inserting after the last batch of layer at most `z` adds exactly that batch and keeps the list sorted |
| Render.SortByZ | main.js:747 | the result is a permutation of the input sorted by non-decreasing z-index |
| Render.SortSortedIsIdentity | main.js:747 | a sorted list is left as it is, as a stable sort must |
| Render.PushThenSort | main.js:744-747 | on a sorted list, push-then-sort places the new batch after every batch of its own or a lower layer and before every higher one |
| Render.TotalSortByZ | main.js:747 | sorting neither adds nor loses a sprite |
| Render.Fresh | main.js:743-744 | the new batch holds just the sprite, is on its layer, not full, and well formed with capacity `MAX_SPRITES` |
| Render.Add | main.js:733-749 | the sprite gains one occurrence and no other identity changes; when an open batch of its layer exists it goes into the first one and nothing else changes; otherwise exactly one batch is created; the renderer invariant is kept (sorted by z-index, one open batch per layer, sprites on their batch's layer) |
| Render.AddIntoOpen | main.js:735-741 | adding into an open batch of the layer adds one occurrence and keeps the renderer invariant |
| Render.AddFresh | main.js:742-748 | when no open batch exists, push-then-sort adds one occurrence and keeps the renderer invariant |
| Render.FreshPlacementValid | main.js:742-748 | the fresh batch, placed after its layer, keeps one open batch per layer |
| Render.FirstHolder | main.js:752-756 | the first batch that holds the sprite, or -1 exactly when no batch holds it |
| Render.RemoveFrom | main.js:752-756 | the scan in `remove` keeps the number of batches; `Render.RemoveFromChangesFirstHolder` states what it changes |
| Render.RemoveFromChangesFirstHolder | main.js:751-757 | the removal scan changes exactly the first batch holding the sprite, and changes nothing when none does |
| Render.RemoveInBatchValid | main.js:751-757 | removing the sprite from any one batch keeps the renderer invariant |
| Render.Remove | main.js:751-757 | the sprite loses one occurrence if it had any and no other identity changes; an absent sprite leaves the renderer as it was; no batch is dropped; the renderer invariant is kept |
| Render.AddThenRemove | main.js:733-757 | adding a sprite and removing it again restores every occurrence count |
| Render.DrawOrderIsLayered | main.js:759-763 | in a valid renderer, drawing the batches in list order draws sprites in non-decreasing z-index: back to front |
| VertexLayout.LayoutConstants | main.js:769-777 | the offsets are position 0, colour 2, UV 6 and texID 8; fields are contiguous; the stride is 9 floats and a quad is 36 |
| VertexLayout.GenIndices | main.js:936-945 | the buffer has `6 * maxSprites` entries, and entry `6i+j` is `[0,1,2,0,2,3][j] + 4i` stored in 16 bits |
| VertexLayout.IndexAt | main.js:941 | a stored index fits 16 bits and, even after wrapping, names corner `[0,1,2,0,2,3][k % 6]` of a quad |
| VertexLayout.IndicesInRange | main.js:936-945 | while `4 * maxSprites` fits in 16 bits nothing wraps, and every index names a vertex of its own quad, below `4 * maxSprites` |
| VertexLayout.RendererCapacityFitsUint16 | main.js:724 | `4 * MAX_SPRITES` fits 16 bits, so in a batch of the renderer's capacity every index is the unwrapped pattern value and names a vertex of the buffer |
| VertexLayout.DrawTouchesOnlyLiveQuads | main.js:878 | a draw of `spriteCount * 6` indices references only the vertices of the first `spriteCount` quads |
| VertexLayout.GenVertices | main.js:892-934 | writes the four vertices of one sprite field by field at `offset`, returns `offset + 36`, and changes nothing else |
| VertexLayout.WriteVertex | main.js:906-931 | one vertex: position, colour, the corner's UV pair and the texID at their offsets; nothing else changes |
| VertexLayout.WriteRun | main.js:913-925 | a field loop copies its values from `start` on and changes nothing else |
| VertexLayout.QuadOf | main.js:894-904 | a sprite's texID is 0 exactly for a null or untracked texture, otherwise it names the texture's slot |
| VertexLayout.PackBatch | main.js:848-878 | every live sprite is written at `36 * i` in insertion order, the rest of the buffer is kept, and the draw covers `6 * spriteCount` indices, never more than the index buffer |
| VertexLayout.TextureSlotSemantics | main.js:39-62 | a sprite is drawn with its own texture exactly when that texture is among the first seven of its batch; the sampler then reads the unit the texture was bound to |
| VertexLayout.EighthTextureDrawsUntextured | main.js:828-835 | a batch accepts an eighth texture, assigns it texID 8, and the shader draws it untextured |
| ScoreDisplay.Digits | main.js:1099 | one or more decimal digits, each below 10, with no leading zero |
| ScoreDisplay.DigitsRoundTrip | main.js:1099 | the digits read back give the score |
| ScoreDisplay.FromDigitsRoundTrip | main.js:1099 | a digit row without a leading zero is exactly how its number prints |
| ScoreDisplay.DigitCount | main.js:1099 | `n` has `k` digits exactly when it is below `10^k` and, unless 0, not below `10^(k-1)` |
| ScoreDisplay.FourDigitsSuffice | main.js:1081 | scores below 10000 fit the four digit sprites |
| ScoreDisplay.DigitRowIsCentred | main.js:1104 | digits `i` and `len-1-i` sit symmetrically about `x`, neighbours one cell (24) apart |
| ScoreDisplay.DigitX | main.js:1104 | digit `i` of `len` sits `i - (len-1)/2` cells of 24 from `x` |
| ScoreDisplay.PlaceOne | main.js:1100-1113 | one loop pass sets sprite `i`'s digit and position when it is shown, adds it if it was not active, removes it if it stops being shown, and changes no other sprite or identity |
| ScoreDisplay.Place | main.js:1100-1113 | the loop keeps every handle, gives each shown sprite its digit and centred position, and keeps the renderer invariant |
| ScoreDisplay.PlaceCounts | main.js:1105-1111 | over the loop, each digit sprite is added once if it becomes active, removed once if it stops being active, and otherwise not touched |
| ScoreDisplay.PlaceOthers | main.js:1100-1113 | the loop leaves every identity that is not a digit sprite alone |
| ScoreDisplay.SetScore | main.js:1097-1115 | value `n` and `activeCount` equal to its digit count; sprite `k` shows digit `k` at its centred x; the renderer gains exactly the newly active sprites and loses exactly the newly inactive ones; nothing else changes; the renderer invariant is kept |
| ScoreDisplay.SetScoreShowsDigits | main.js:1097-1115 | if the renderer held exactly the active digit sprites once each, it still does afterwards |
| ScoreDisplay.Inc | main.js:1090-1095 | the value goes up by one; the background starts a day/night change exactly when the new value is a multiple of ten |
| ScoreDisplay.NewScore | main.js:1076-1088 | the constructor ends with value 0 and one active sprite, holding it once; other identities are untouched |
| Overlays.PlayFilter | main.js:1366-1369 | the flash starts now |
| Overlays.UpdateFilter | main.js:1354-1364 | an idle filter is unchanged; while running the shade falls linearly from 1 as time passes; at `startTime + 300` it stops, transparent; the shade stays in [0, 1] |
| Overlays.ResetBackground | main.js:1394-1398 | day, no fade, day layer fully shown |
| Overlays.PlayFade | main.js:1415-1418 | the fade starts now, towards the given time of day |
| Overlays.Change | main.js:1420-1423 | `isDay` flips and a fade towards the new time of day starts now |
| Overlays.UpdateBackground | main.js:1400-1413 | an idle background is unchanged; while a fade runs the day alpha is the elapsed fraction of 1500 ms toward day and one minus it toward night, and the start value before the fade begins; a fade is dropped exactly when `startTime + 1500` is reached; the background invariant is kept |
| Overlays.FadesMirror | main.js:1404-1409 | at every moment the alpha fading to day and the alpha fading to night add up to 1 |
| Overlays.ChangeTwice | main.js:1420-1423 | two changes give back the time of day, with the fade in flight heading there |
| Overlays.FadeCompletes | main.js:1404-1412 | a completed fade shows the day layer fully by day and hides it by night |
| Input.KeyDown | main.js:661-663 | the key is held afterwards |
| Input.KeyUp | main.js:665-667 | the key is no longer held |
| Input.UpdateKeys | main.js:709-716 | `justPressed` is exactly the keys held now and not at the previous update; the held set becomes the previous one |
| Input.HeldKeyClicksOnce | main.js:709-716 | a key held through two updates is not "just pressed" at the second |
| Input.PressThenUpdateClicks | main.js:661-716 | a key pressed after an update is "just pressed" at the next one |
| Input.UpdateTouch | main.js:688-699 | `isJustTouched` is exactly "touched now and not before"; the delta is zero on that update and the movement since the previous update otherwise |
| Input.HeldTouchIsJustOnce | main.js:688-699 | a held touch is "just" for one update only |
| Input.Update | main.js:669-674 | the keys and every touch slot are updated |
| Input.HoldingActivatesOnce | main.js:1173 | holding Space and the pointer activates the player on one frame only |
| Game.Reset | main.js:1479-1487 | score 0 with one active digit; daylight; pipe `i` back at `WIDTH*1.5 + i*SPACING` with the given height and `passed` cleared; state and clock untouched |
| Game.StartX | main.js:1485 | pipe `i` starts at least one screen width beyond the right edge, `i` spacings after pipe 0 |
| Game.SetState | main.js:1469-1477 | records the change time; entering `ready` resets the round and hides the game-over text; any other state changes nothing else |
| Game.SetStateKeepsInv | main.js:1469-1477 | `setState` keeps the level invariant: the renderer is valid and holds exactly the active digits once each, and the text once exactly while it is visible |
| Game.EndGame | main.js:1489-1495 | a no-op in `gameover`; otherwise enters `gameover`, records the time and starts the flash; keeps the level invariant |
| Game.PlayerInput | main.js:1173-1185 | no activation changes nothing; in `ready` an activation starts play; in `gameover` it starts a new round exactly when twice the text delay has passed; keeps the level invariant |
| Game.PlayerUpdate | main.js:1173-1207 | falling or hitting a pipe ends the game, otherwise the input branch decides; keeps the level invariant |
| Game.PipeStep | main.js:1319-1331 | a recycled pipe moves `n * SPACING` on with a new height and the latch cleared; it scrolls only while playing; it scores exactly when its latch flips because the player is past it |
| Game.PassedPipeStaysQuiet | main.js:1327-1331 | a passed pipe does not score again until recycled |
| Game.ScoresAtMostOnce | main.js:1319-1331 | two consecutive updates of a pipe without a recycle never both score |
| Game.PipeMotion | main.js:1320-1326 | outside play pipes stand still, a recycled pipe moves exactly `n` spacings, and in play a pipe never moves right |
| Game.PipeAt | main.js:1319-1331 | one pipe takes its step and a point scores `inc`; the level invariant is kept |
| Game.PipesFrom | main.js:1527-1529 | the pipe loop keeps the state, text and digit handles and the level invariant |
| Game.PipesFromMoves | main.js:1527-1529 | every pipe takes its own step, and the score grows by the number of pipes that scored |
| Game.PipesFromPipes | main.js:1527-1529 | over the loop, pipes before `i` are kept and each pipe from `i` on becomes its own `Pipe.update` result |
| Game.PipesFromScore | main.js:1527-1529 | over the loop, the score grows by exactly the number of pipes from `i` on that scored |
| Game.ShowGameOverText | main.js:1532-1535 | the text becomes visible, and is added to the renderer once, exactly when `gameover` has lasted the delay and it was not yet visible |
| Game.Update | main.js:1522-1537 | the clock advances by `dt` seconds in milliseconds and the level invariant is kept |
| Game.Play | main.js:1522-1529 | the first half of a frame: clock, player, pipes; the state is the one the player's update chose |
| Game.Settle | main.js:1530-1536 | the second half of a frame: filter, game-over text and background, keeping the level invariant |
| Game.UpdateFollowsTable | main.js:1173-1207 | a frame moves between the three states exactly as an independent transition table says |
| Game.AddAll | main.js:1497-1517 | the constructors' `add` calls leave every other identity alone and keep the renderer valid |
| Game.Stage | main.js:1497-1518 | the level the constructors build satisfies the level invariant |
| Game.StageRenderer | main.js:1499-1512 | the scene's renderer is valid, shows the score's one digit, and does not hold the game-over text |
| Game.Init | main.js:1497-1520 | `init` ends in `ready` at time 0, score 0, text hidden, pipes at their starting places, and the level invariant holds |
| Geometry.Ortho | main.js:200-220 | the box's bottom-left corner maps to (-1, -1) and its top-right corner to (1, 1) |
| Geometry.OrthoMapsBoxToClip | main.js:200-220 | a point lands in clip space exactly when it lies in the box, and w is 1 |
| Geometry.TranslationMoves | main.js:222-227 | the matrix moves every point by (x, y) and leaves w at 1 |
| Geometry.SetToOrtho | main.js:243-247 | a new view size with the cached projection marked stale |
| Geometry.ViewOrtho | main.js:249-251 | `updateProjection`'s matrix maps the view centre to the screen centre and the view's corner `(vw/2, vh/2)` to `(1, 1)` |
| Geometry.NewCamera | main.js:239-241 | a camera at the origin with the given view size and a sound cache |
| Geometry.GetProjection | main.js:257-263 | with a sound cache, returns the orthographic projection of the current view size and leaves the cache clean; a clean camera is unchanged |
| Geometry.ProjectionFollowsResize | main.js:243-263 | after a resize the next projection fits the new size, and asking again gives the same one |
| Geometry.ViewMatrix | main.js:253-255 | the camera's position maps to the origin |
| Geometry.CameraShowsItsView | main.js:249-263 | a world point is on screen exactly when it lies within half the view size of the camera |
| Geometry.SetRegion | main.js:992-1003 | four corners in quad order; the pixel rectangle can be read back from the UVs |
| Geometry.FullRegionIsDefault | main.js:978-983 | the whole texture as a region gives the default UVs |
| Geometry.RegionInsideTexture | main.js:992-1003 | a region inside the texture has every UV in [0, 1] |
| Geometry.Columns | main.js:956-958 | the number of whole cells that fit across the texture |
| Geometry.Rows | main.js:957-959 | the number of whole cells that fit down the texture |
| Geometry.GetSprite | main.js:969-971 | a region exists exactly for cells inside the grid |
| Geometry.CellsInsideTexture | main.js:954-966 | every cell of the grid has its UVs in [0, 1] |
| Geometry.CellsAbut | main.js:963-965 | neighbouring cells share an edge: no gap and no overlap |
| Geometry.Letterbox | main.js:1594-1604 | the viewport keeps the 360:520 aspect, fits the canvas, fills one side, and is centred by the offsets computed at main.js:1622-1623 |
| Geometry.LetterboxIsLargest | main.js:1594-1604 | no larger picture of the game's shape fits the canvas |

## Left out

- WebGL, GLSL and the GPU half of `SpriteBatch`:
  - buffer creation, attribute pointers and uploads;
  - texture binding and `drawElements`;
  - the shaders themselves.

  They are foreign API calls. The layout arithmetic, the draw count and the shader's slot convention are modelled.
- Corner positions in `genVertices`: scale, rotation by `Vec2.rot` and translation. This is floating-point trigonometry, so the four corners are an input to `VertexLayout.GenVertices`.
- `Float32Array` storage: buffer values are exact `real`s.
- IEEE double rounding: JavaScript numbers became exact `real`s. These equalities therefore hold exactly only in the model and up to rounding in the program:
  - `Geometry.Letterbox`'s `width == height * ASPECT`;
  - `Overlays.UpdateFilter`'s linear shade and `Overlays.UpdateBackground`'s linear alpha;
  - `Frames.GetFrame`'s slot boundaries;
  - the `Geometry` matrix identities;
  - the level clock `stateTime += dt * 1000` and the pipe motion `x -= speed * dt`.
- Audio cues, `AssetPool` loading, DOM events, `FlappyBird.init` and `RAF`. These are I/O. The frame's `dt` is a parameter.
- `Math.random`: the pipe heights used by `Pipe.reset` are parameters. The model accepts any real height, not only heights in [-100, 80).
- Player physics, as `Player.update` does them: gravity, the velocity clamp, rotation easing, the flap velocity and `collide`. They are floating-point numerics, so "fell below the floor" and "hit a pipe" are boolean events of the frame. The player's x is the constant -80 that `Player.reset` sets.
- The player's animation frame and `Ground.update` scrolling. They only move sprites and never touch the state, the score or the renderer's contents.
- `degToRad` (it reads an undefined name and would throw), `radToDeg`, `avg`, `isPowerOf2`, `min`, `max`, `shuffle`, `choice`, `rand` and `randInt`. None of them is part of this core.
- Sprite regions inside the renderer: the renderer model knows a sprite by identity, layer and texture. Colours, UVs and corners enter at render time as `VertexLayout.SpriteView`.
- MathUtils.Step: requires distinct edges; JavaScript would produce `Infinity` or `NaN`. The game only calls it with spans of 300 and 1500 milliseconds.
- Geometry.Ortho: requires a non-degenerate box, and the camera functions require a non-zero view size; JavaScript would fill the matrix with `Infinity`.
- Geometry.SetRegion: requires a non-zero texture size, for the same reason.
- Geometry.GetSprite: requires positive cell sizes. Outside the grid the source returns `undefined` or throws; both become `None`.
- Frames.GetFrame: the `undefined` that JavaScript returns for a negative time, a zero frame rate or an empty animation becomes `None`.
- ScoreDisplay.Digits: the digits of a score are its decimal digits. `toString` switches to exponent notation at 10^21, which is not modelled.
- Game.Init: the scene is given as the identities that the constructors add before the score, the digit sprites, the ones added after, and the game-over text. The textures, layers and positions of those sprites are inputs.
